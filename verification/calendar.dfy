/** Python's `datetime.date` arithmetic on the proleptic Gregorian calendar: the day ordinal
    (`date.toordinal`, day 1 is 0001-01-01), `weekday`, `date - timedelta(days=n)`, the
    `strftime` fields the modelled code prints, and `strptime(s, "%Y-%m-%d")`. */
module Calendar {
  import opened Wrappers
  import opened Text

  datatype Date = Date(year: int, month: int, day: int)

  predicate IsLeap(y: int)
  {
    y % 4 == 0 && (y % 100 != 0 || y % 400 == 0)
  }

  function DaysInYear(y: int): int
  {
    if IsLeap(y) then 366 else 365
  }

  function DaysInMonth(y: int, m: int): (n: int)
    requires 1 <= m <= 12
    ensures 28 <= n <= 31
  {
    if m == 2 then (if IsLeap(y) then 29 else 28)
    else if m == 4 || m == 6 || m == 9 || m == 11 then 30
    else 31
  }

  /** A day that exists in the (unbounded) proleptic Gregorian calendar. */
  predicate ValidDate(d: Date)
  {
    1 <= d.month <= 12 && 1 <= d.day <= DaysInMonth(d.year, d.month)
  }

  const MinYear := 1
  const MaxYear := 9999

  /** A value Python's `date` type can hold (`MINYEAR..MAXYEAR`). */
  predicate InRange(d: Date)
  {
    ValidDate(d) && MinYear <= d.year <= MaxYear
  }

  /** Days in the years before `y` (Python's `_days_before_year`, floor division). */
  function DaysBeforeYear(y: int): int
  {
    var k := y - 1;
    365 * k + k / 4 - k / 100 + k / 400
  }

  /** Days in the months of year `y` before month `m` (Python's `_days_before_month`). */
  function DaysBeforeMonth(y: int, m: int): int
    requires 1 <= m <= 12
  {
    [0, 31, 59, 90, 120, 151, 181, 212, 243, 273, 304, 334][m - 1]
      + (if m > 2 && IsLeap(y) then 1 else 0)
  }

  /** `date.toordinal()`. */
  function Ordinal(d: Date): int
    requires ValidDate(d)
  {
    DaysBeforeYear(d.year) + DaysBeforeMonth(d.year, d.month) + d.day
  }

  /** `date.weekday()`: Monday is 0 and Sunday is 6. */
  function Weekday(d: Date): (w: int)
    requires ValidDate(d)
    ensures 0 <= w < 7
  {
    (Ordinal(d) + 6) % 7
  }

  const Monday := 0
  const Thursday := 3
  const Sunday := 6

  // ---------------------------------------------------------------- the ordinal is a bijection

  /** Floor division by 4, 100 and 400 goes up by one exactly at multiples. */
  lemma DivSteps(k: int)
    ensures (k + 1) / 4 == k / 4 + (if (k + 1) % 4 == 0 then 1 else 0)
    ensures (k + 1) / 100 == k / 100 + (if (k + 1) % 100 == 0 then 1 else 0)
    ensures (k + 1) / 400 == k / 400 + (if (k + 1) % 400 == 0 then 1 else 0)
  {
  }

  lemma DaysBeforeYearStep(y: int)
    ensures DaysBeforeYear(y + 1) == DaysBeforeYear(y) + DaysInYear(y)
  {
    var k := y - 1;
    DivSteps(k);
    Divides(y);
    assert k + 1 == y;
    if y % 4 != 0 {
      assert !IsLeap(y);
    } else if y % 100 != 0 {
      assert IsLeap(y);
    } else if y % 400 != 0 {
      assert !IsLeap(y);
    } else {
      assert IsLeap(y);
    }
  }

  /** A multiple of 400 is one of 100, and a multiple of 100 is one of 4. */
  lemma Divides(y: int)
    ensures y % 400 == 0 ==> y % 100 == 0
    ensures y % 100 == 0 ==> y % 4 == 0
  {
    var q400, q100, q4 := y / 400, y / 100, y / 4;
    assert y == 400 * q400 + y % 400;
    assert y == 100 * q100 + y % 100;
    assert y == 4 * q4 + y % 4;
    if y % 400 == 0 {
      MultipleBelow(y % 100, 100, 4 * q400 - q100);
    }
    if y % 100 == 0 {
      MultipleBelow(y % 4, 4, 25 * q100 - q4);
    }
  }

  /** The only multiple of `m` in `[0, m)` is zero. */
  lemma MultipleBelow(r: int, m: int, c: int)
    requires 0 <= r < m && r == m * c
    ensures r == 0
  {
    MulAtLeast(m, c);
    MulAtLeast(m, -c);
    assert m * -c == -(m * c);
  }

  lemma MulAtLeast(m: int, c: int)
    requires m > 0
    ensures c >= 1 ==> m * c >= m
  {
    if c >= 1 {
      assert m * c == m * (c - 1) + m;
    }
  }

  lemma {:induction false} DaysBeforeYearMonotone(a: int, b: int)
    requires a <= b
    ensures DaysBeforeYear(a) + 365 * (b - a) <= DaysBeforeYear(b)
    decreases b - a
  {
    if a < b {
      DaysBeforeYearStep(a);
      DaysBeforeYearMonotone(a + 1, b);
    }
  }

  lemma MonthEndBound(y: int, m: int)
    requires 1 <= m <= 12
    ensures DaysBeforeMonth(y, m) + DaysInMonth(y, m) <= DaysInYear(y)
    ensures m < 12 ==> DaysBeforeMonth(y, m + 1) == DaysBeforeMonth(y, m) + DaysInMonth(y, m)
    ensures m == 12 ==> DaysBeforeMonth(y, m) + DaysInMonth(y, m) == DaysInYear(y)
  {
  }

  lemma {:induction false} MonthsMonotone(y: int, a: int, b: int)
    requires 1 <= a < b <= 12
    ensures DaysBeforeMonth(y, a) + DaysInMonth(y, a) <= DaysBeforeMonth(y, b)
    decreases b - a
  {
    MonthEndBound(y, a);
    if a + 1 < b {
      MonthsMonotone(y, a + 1, b);
    }
  }

  /** Where a day of year `y` falls among the ordinals. */
  lemma OrdinalWithinYear(d: Date)
    requires ValidDate(d)
    ensures DaysBeforeYear(d.year) < Ordinal(d) <= DaysBeforeYear(d.year) + DaysInYear(d.year)
  {
    MonthEndBound(d.year, d.month);
  }

  /** Calendar order: earlier year, else earlier month, else earlier day. */
  predicate Before(a: Date, b: Date)
  {
    a.year < b.year
    || (a.year == b.year && a.month < b.month)
    || (a.year == b.year && a.month == b.month && a.day < b.day)
  }

  /** The ordinal grows with the calendar order. */
  lemma OrdinalMonotone(a: Date, b: Date)
    requires ValidDate(a) && ValidDate(b) && Before(a, b)
    ensures Ordinal(a) < Ordinal(b)
  {
    if a.year < b.year {
      OrdinalWithinYear(a);
      OrdinalWithinYear(b);
      DaysBeforeYearStep(a.year);
      DaysBeforeYearMonotone(a.year + 1, b.year);
    } else if a.month < b.month {
      MonthsMonotone(a.year, a.month, b.month);
    }
  }

  /** Two days with the same ordinal are the same day. */
  lemma OrdinalInjective(a: Date, b: Date)
    requires ValidDate(a) && ValidDate(b) && Ordinal(a) == Ordinal(b)
    ensures a == b
  {
    if Before(a, b) {
      OrdinalMonotone(a, b);
    } else if Before(b, a) {
      OrdinalMonotone(b, a);
    }
  }

  /** Comparing ordinals is comparing dates. */
  lemma OrdinalOrder(a: Date, b: Date)
    requires ValidDate(a) && ValidDate(b)
    ensures Ordinal(a) < Ordinal(b) <==> Before(a, b)
  {
    if Before(a, b) {
      OrdinalMonotone(a, b);
    } else if Before(b, a) {
      OrdinalMonotone(b, a);
    } else {
      assert a == b;
    }
  }

  /** 0001-01-01 is day 1, and every date Python can hold has a positive ordinal. */
  lemma FirstOrdinal(d: Date)
    requires InRange(d)
    ensures Ordinal(Date(MinYear, 1, 1)) == 1
    ensures Ordinal(d) >= 1
    ensures Ordinal(d) == 1 <==> d == Date(MinYear, 1, 1)
  {
    OrdinalWithinYear(d);
    DaysBeforeYearMonotone(1, d.year);
    if Ordinal(d) == 1 {
      OrdinalInjective(d, Date(MinYear, 1, 1));
    }
  }

  // ---------------------------------------------------------------- stepping by days

  /** The day before `d`. */
  function PrevDay(d: Date): (r: Date)
    requires ValidDate(d)
    ensures ValidDate(r) && Ordinal(r) == Ordinal(d) - 1
    ensures InRange(d) && d != Date(MinYear, 1, 1) ==> InRange(r)
    ensures d.month != 1 || d.day != 1 ==> r.year == d.year
  {
    if d.day > 1 then Date(d.year, d.month, d.day - 1)
    else if d.month > 1 then
      MonthEndBound(d.year, d.month - 1);
      Date(d.year, d.month - 1, DaysInMonth(d.year, d.month - 1))
    else
      DaysBeforeYearStep(d.year - 1);
      MonthEndBound(d.year - 1, 12);
      Date(d.year - 1, 12, 31)
  }

  /** The day after `d`. */
  function NextDay(d: Date): (r: Date)
    requires ValidDate(d)
    ensures ValidDate(r) && Ordinal(r) == Ordinal(d) + 1
    ensures d.month != 12 || d.day != 31 ==> r.year == d.year
  {
    if d.day < DaysInMonth(d.year, d.month) then Date(d.year, d.month, d.day + 1)
    else if d.month < 12 then
      MonthEndBound(d.year, d.month);
      Date(d.year, d.month + 1, 1)
    else
      DaysBeforeYearStep(d.year);
      MonthEndBound(d.year, 12);
      Date(d.year + 1, 1, 1)
  }

  const DateOutOfRange := OverflowError("date value out of range")

  /** The day `n` ordinals before `d`, reached one day at a time. */
  function DaysBack(d: Date, n: nat): (r: Date)
    requires InRange(d) && Ordinal(d) - n >= 1
    ensures InRange(r) && Ordinal(r) == Ordinal(d) - n
    decreases n
  {
    if n == 0 then d
    else
      assert d != Date(MinYear, 1, 1) by { assert Ordinal(Date(MinYear, 1, 1)) == 1; }
      var p := PrevDay(d);
      assert p.year >= MinYear;
      DaysBack(p, n - 1)
  }

  /** `d - timedelta(days=n)`: the day `n` ordinals earlier, or OverflowError when that
      would fall before 0001-01-01. */
  function MinusDays(d: Date, n: nat): (r: Result<Date>)
    requires InRange(d)
    ensures r.Ok? <==> Ordinal(d) - n >= 1
    ensures r.Ok? ==> InRange(r.value) && Ordinal(r.value) == Ordinal(d) - n
    ensures r.Err? ==> r.error == DateOutOfRange
  {
    if Ordinal(d) - n >= 1 then Ok(DaysBack(d, n)) else Err(DateOutOfRange)
  }

  /** Subtracting one day steps back to the day before, and fails only on 0001-01-01. */
  lemma MinusOneDay(d: Date)
    requires InRange(d)
    ensures MinusDays(d, 1).Ok? <==> d != Date(MinYear, 1, 1)
    ensures MinusDays(d, 1).Ok? ==> MinusDays(d, 1).value == PrevDay(d)
  {
    if d == Date(MinYear, 1, 1) {
      FirstDayHasNoPredecessor(d);
    } else {
      PredecessorIsPrevDay(d);
    }
  }

  lemma FirstDayHasNoPredecessor(d: Date)
    requires InRange(d) && d == Date(MinYear, 1, 1)
    ensures MinusDays(d, 1).Err?
  {
    FirstOrdinal(d);
  }

  lemma PredecessorIsPrevDay(d: Date)
    requires InRange(d) && d != Date(MinYear, 1, 1)
    ensures MinusDays(d, 1) == Ok(PrevDay(d))
  {
    var p := PrevDay(d);
    assert InRange(p);
    MinusDaysUnique(d, 1, p);
  }

  /** The result of a subtraction is the one date with that ordinal, as `date.fromordinal` gives. */
  lemma MinusDaysUnique(d: Date, n: nat, e: Date)
    requires InRange(d) && InRange(e) && Ordinal(e) == Ordinal(d) - n
    ensures MinusDays(d, n) == Ok(e)
  {
    var r := MinusDays(d, n);
    assert Ordinal(e) >= 1 by { FirstOrdinal(e); }
    assert r.Ok?;
    var v := r.value;
    assert ValidDate(v) && Ordinal(v) == Ordinal(e);
    OrdinalInjective(v, e);
  }

  lemma ModSevenShift(a: int, n: int)
    ensures (a - n) % 7 == (a % 7 - n) % 7
  {
    var q := a / 7;
    assert a == 7 * q + a % 7;
    assert a - n == 7 * q + (a % 7 - n);
  }

  lemma WeekdayShift(a: int, b: int, n: int)
    requires b == a - n
    ensures (b + 6) % 7 == ((a + 6) % 7 - n) % 7
  {
    ModSevenShift(a + 6, n);
  }

  /** Going back `n` days moves the weekday back by `n`, modulo a week. */
  lemma WeekdayOfMinusDays(d: Date, n: nat)
    requires InRange(d) && Ordinal(d) - n >= 1
    ensures Weekday(MinusDays(d, n).value) == (Weekday(d) - n) % 7
  {
    var v := MinusDays(d, n).value;
    var a, b := Ordinal(d), Ordinal(v);
    assert b == a - n;
    WeekdayShift(a, b, n);
    assert Weekday(d) == (a + 6) % 7 && Weekday(v) == (b + 6) % 7;
  }

  /** Going back from a weekday by the days that separate it from Monday lands on a Monday. */
  lemma BackToMonday(d: Date, n: nat)
    requires InRange(d) && Ordinal(d) - n >= 1 && (Weekday(d) - n) % 7 == Monday
    ensures Weekday(MinusDays(d, n).value) == Monday
  {
    WeekdayOfMinusDays(d, n);
  }

  /** Three days before a Thursday is a Monday. */
  lemma ThursdayBackThree(d: Date)
    requires InRange(d) && Ordinal(d) > 3
    ensures Weekday(d) == Thursday ==> Weekday(MinusDays(d, 3).value) == Monday
  {
    if Weekday(d) == Thursday {
      BackToMonday(d, 3);
    }
  }



  // ---------------------------------------------------------------- wall-clock date-times

  /** The zones the modelled code attaches: `ZoneInfo("UTC")` and `ZoneInfo("Europe/London")`. */
  datatype Zone = Utc | London

  /** A `datetime`: wall-clock fields, its `tzinfo` (`None` for a naive datetime) and its
      `fold` (`true` for fold=1, the second of two readings of a repeated wall-clock hour). */
  datatype DateTime = DateTime(date: Date, hour: int, minute: int, second: int, microsecond: int,
                               tz: Option<Zone>, fold: bool)

  predicate ValidDateTime(t: DateTime)
  {
    InRange(t.date) && 0 <= t.hour < 24 && 0 <= t.minute < 60 && 0 <= t.second < 60
    && 0 <= t.microsecond < 1000000
  }

  /** `datetime.combine(d, time(hour, minute, tzinfo=ZoneInfo(zone)))`. */
  function Combine(d: Date, hour: int, minute: int, zone: Zone): (t: DateTime)
    requires InRange(d) && 0 <= hour < 24 && 0 <= minute < 60
    ensures ValidDateTime(t) && t.tz == Some(zone)
    ensures t.date == d && t.hour == hour && t.minute == minute && t.second == 0 && t.microsecond == 0
    ensures !t.fold
  {
    DateTime(d, hour, minute, 0, 0, Some(zone), false)
  }

  /** Minutes since the start of day 0 on the wall clock of `t`; seconds are not needed
      because every zone offset here is a whole number of hours. */
  function WallMinute(t: DateTime): int
    requires ValidDate(t.date)
  {
    Ordinal(t.date) * 1440 + t.hour * 60 + t.minute
  }

  /** The same wall-clock reading one hour earlier. */
  function HourEarlier(t: DateTime): (r: DateTime)
    requires ValidDate(t.date) && 0 <= t.hour < 24
    ensures ValidDate(r.date) && 0 <= r.hour < 24 && WallMinute(r) == WallMinute(t) - 60
    ensures r.minute == t.minute && r.second == t.second && r.microsecond == t.microsecond
    ensures r.tz == t.tz && r.fold == t.fold
  {
    if t.hour > 0 then t.(hour := t.hour - 1) else t.(date := PrevDay(t.date), hour := 23)
  }

  /** The same wall-clock reading one hour later. */
  function HourLater(t: DateTime): (r: DateTime)
    requires ValidDate(t.date) && 0 <= t.hour < 24
    ensures ValidDate(r.date) && 0 <= r.hour < 24 && WallMinute(r) == WallMinute(t) + 60
    ensures r.minute == t.minute && r.second == t.second && r.microsecond == t.microsecond
    ensures r.tz == t.tz && r.fold == t.fold
  {
    if t.hour < 23 then t.(hour := t.hour + 1) else t.(date := NextDay(t.date), hour := 0)
  }

  /** Two valid readings with the same wall minute and sub-minute fields are equal. */
  lemma WallMinuteInjective(a: DateTime, b: DateTime)
    requires ValidDate(a.date) && ValidDate(b.date)
    requires 0 <= a.hour < 24 && 0 <= a.minute < 60 && 0 <= b.hour < 24 && 0 <= b.minute < 60
    requires WallMinute(a) == WallMinute(b)
    requires a.second == b.second && a.microsecond == b.microsecond && a.tz == b.tz && a.fold == b.fold
    ensures a == b
  {
    var oa, ob := Ordinal(a.date), Ordinal(b.date);
    var ra, rb := a.hour * 60 + a.minute, b.hour * 60 + b.minute;
    assert 0 <= ra < 1440 && 0 <= rb < 1440;
    assert oa == ob;
    OrdinalInjective(a.date, b.date);
  }

  /** Going an hour forward and back again (or back and forward) gives the reading back. */
  lemma HourLaterEarlier(t: DateTime)
    requires ValidDate(t.date) && 0 <= t.hour < 24 && 0 <= t.minute < 60
    ensures HourEarlier(HourLater(t)) == t
    ensures HourLater(HourEarlier(t)) == t
  {
    WallMinuteInjective(HourEarlier(HourLater(t)), t);
    WallMinuteInjective(HourLater(HourEarlier(t)), t);
  }

  // ---------------------------------------------------------------- strftime fields

  /** `d.strftime("%Y" + sep + "%m" + sep + "%d")`, four-digit year. */
  function FormatYmd(d: Date, sep: string): (s: string)
    requires InRange(d)
    ensures |s| == 8 + 2 * |sep|
  {
    FixedDigits(d.year, 4) + sep + FixedDigits(d.month, 2) + sep + FixedDigits(d.day, 2)
  }

  /** `d.strftime("%Y/%m/%d")`, the layout of the log partitions. */
  function SlashDate(d: Date): string
    requires InRange(d)
  {
    FormatYmd(d, "/")
  }

  /** `t.strftime("%Y-%m-%d %H:%M")` of the wall-clock fields. */
  function AthenaMinute(t: DateTime): (s: string)
    requires ValidDateTime(t)
    ensures |s| == 16
  {
    FormatYmd(t.date, "-") + " " + FixedDigits(t.hour, 2) + ":" + FixedDigits(t.minute, 2)
  }

  /** `t.strftime("%Y/%m/%d/%H")`, the object-key prefix of an hour of logs. */
  function HourPath(t: DateTime): (s: string)
    requires ValidDateTime(t)
    ensures |s| == 13
  {
    FormatYmd(t.date, "/") + "/" + FixedDigits(t.hour, 2)
  }

  // ---------------------------------------------------------------- strptime("%Y-%m-%d")

  function DigitAt(s: string, i: int): int
    requires 0 <= i < |s| && IsDigit(s[i])
  {
    s[i] as int - '0' as int
  }

  /** The `%m` group `1[0-2]|0[1-9]|[1-9]`, which must be followed by the `-` of the format:
      the month and the number of characters it used. */
  function MonthField(u: string): Option<(int, int)>
  {
    if |u| >= 3 && u[0] == '1' && '0' <= u[1] <= '2' && u[2] == '-' then Some((10 + DigitAt(u, 1), 2))
    else if |u| >= 3 && u[0] == '0' && '1' <= u[1] <= '9' && u[2] == '-' then Some((DigitAt(u, 1), 2))
    else if |u| >= 2 && '1' <= u[0] <= '9' && u[1] == '-' then Some((DigitAt(u, 0), 1))
    else None
  }

  /** The `%d` group `3[01]|[12]\d|0[1-9]|[1-9]| [1-9]`: the first alternative that matches
      decides, as in a regular-expression match that is not anchored at the end. */
  function DayField(v: string): Option<(int, int)>
  {
    if |v| >= 2 && v[0] == '3' && '0' <= v[1] <= '1' then Some((30 + DigitAt(v, 1), 2))
    else if |v| >= 2 && '1' <= v[0] <= '2' && IsDigit(v[1]) then Some((10 * DigitAt(v, 0) + DigitAt(v, 1), 2))
    else if |v| >= 2 && v[0] == '0' && '1' <= v[1] <= '9' then Some((DigitAt(v, 1), 2))
    else if |v| >= 1 && '1' <= v[0] <= '9' then Some((DigitAt(v, 0), 1))
    else if |v| >= 2 && v[0] == ' ' && '1' <= v[1] <= '9' then Some((DigitAt(v, 1), 2))
    else None
  }

  /** `datetime.strptime(s, "%Y-%m-%d").date()`; `None` stands for the ValueError it raises
      (no match, unconverted data left over, year 0, or a day the month does not have). */
  function StrptimeDate(s: string): (r: Option<Date>)
    ensures r.Some? ==> InRange(r.value)
  {
    if |s| < 5 || !(IsDigit(s[0]) && IsDigit(s[1]) && IsDigit(s[2]) && IsDigit(s[3])) || s[4] != '-' then None
    else
      var year := DigitsValue(s[..4]);
      var u := s[5..];
      match MonthField(u)
      case None => None
      case Some((month, ml)) =>
        var v := u[ml + 1..];
        match DayField(v)
        case None => None
        case Some((day, dl)) =>
          if dl != |v| then None
          else if year < MinYear || day > DaysInMonth(year, month) then None
          else
            assert year <= MaxYear by { FixedDigitsBound(s[..4]); }
            Some(Date(year, month, day))
  }

  lemma {:induction false} FixedDigitsBound(s: string)
    requires forall i :: 0 <= i < |s| ==> IsDigit(s[i])
    ensures DigitsValue(s) < Pow10(|s|)
    decreases |s|
  {
    if s != [] {
      FixedDigitsBound(s[..|s| - 1]);
    }
  }

  /** Parsing what `strftime("%Y-%m-%d")` printed gives the date back. */
  lemma StrptimeFormatRoundTrip(d: Date)
    requires InRange(d)
    ensures StrptimeDate(FormatYmd(d, "-")) == Some(d)
  {
    var s := FormatYmd(d, "-");
    var ys, ms, ds := FixedDigits(d.year, 4), FixedDigits(d.month, 2), FixedDigits(d.day, 2);
    assert s == ys + "-" + ms + "-" + ds;
    assert s[..4] == ys;
    FixedDigitsValue(d.year, 4);
    var u := s[5..];
    assert u == ms + "-" + ds;
    assert ms == [DigitChar(d.month / 10), DigitChar(d.month % 10)];
    assert ds == [DigitChar(d.day / 10), DigitChar(d.day % 10)];
    assert MonthField(u) == Some((d.month, 2));
    var v := u[3..];
    assert v == ds;
    assert DayField(v) == Some((d.day, 2));
  }
}

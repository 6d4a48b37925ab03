/** `ZoneInfo("UTC")` and `ZoneInfo("Europe/London")` under the current UK rule: British Summer
    Time (UTC+1) runs from 01:00 UTC on the last Sunday of March to 01:00 UTC on the last Sunday
    of October, Greenwich Mean Time (UTC+0) the rest of the year. `utcoffset` follows PEP 495:
    a reading in the skipped hour or the repeated hour takes the offset before the change when
    `fold` is 0 and the offset after it when `fold` is 1. `astimezone` is as in `datetime`. */
module LondonTime {
  import opened Wrappers
  import opened Text
  import opened Calendar

  /** The last Sunday of March or October of year `y`. */
  function LastSunday(y: int, m: int): (d: Date)
    requires MinYear <= y <= MaxYear && (m == 3 || m == 10)
    ensures InRange(d) && d.year == y && d.month == m
    ensures Weekday(d) == Sunday
    ensures d.day + 7 > DaysInMonth(y, m)
  {
    var end := Date(y, m, 31);
    var k := (Weekday(end) + 1) % 7;
    var d := Date(y, m, 31 - k);
    var o := Ordinal(end);
    assert Ordinal(d) == o - k;
    WeekdayShift(o, o - k, k);
    BackToSunday(Weekday(end));
    d
  }

  /** Going back from weekday `w` by the days past Sunday lands on a Sunday. */
  lemma BackToSunday(w: int)
    requires 0 <= w < 7
    ensures (w - (w + 1) % 7) % 7 == Sunday
  {
  }

  /** The wall-clock minute (as `Calendar.WallMinute` counts) of `hour`:00 on the last Sunday
      of month `m` of year `y`. */
  function SundayAt(y: int, m: int, hour: int): int
    requires MinYear <= y <= MaxYear && (m == 3 || m == 10)
  {
    Ordinal(LastSunday(y, m)) * 1440 + hour * 60
  }

  /** Whether a London wall-clock reading is in summer time. With fold=0 the skipped hour
      01:00-02:00 of the March Sunday counts as winter and the repeated hour 01:00-02:00 of the
      October Sunday as summer; with fold=1 the other way round. */
  predicate BstAtWall(t: DateTime)
    requires ValidDateTime(t)
  {
    var y, w := t.date.year, WallMinute(t);
    if t.fold then SundayAt(y, 3, 1) <= w < SundayAt(y, 10, 1)
    else SundayAt(y, 3, 2) <= w < SundayAt(y, 10, 2)
  }

  /** Whether the instant that a UTC reading names falls in summer time in London. */
  predicate BstAtUtc(u: DateTime)
    requires ValidDateTime(u)
  {
    SundayAt(u.date.year, 3, 1) <= WallMinute(u) < SundayAt(u.date.year, 10, 1)
  }

  /** `t.utcoffset()` in minutes. */
  function Offset(t: DateTime): (off: int)
    requires ValidDateTime(t) && t.tz.Some?
    ensures off == 0 || off == 60
    ensures t.tz == Some(Utc) ==> off == 0
  {
    if t.tz == Some(London) && BstAtWall(t) then 60 else 0
  }

  /** The instant an aware reading names, in minutes on the UTC clock. */
  function Instant(t: DateTime): int
    requires ValidDateTime(t) && t.tz.Some?
  {
    WallMinute(t) - Offset(t)
  }

  /** A summer-time reading is neither on the first nor the last day of its year, so moving it
      by an hour stays inside the year. */
  lemma SummerIsMidYear(t: DateTime)
    requires ValidDateTime(t)
    requires SundayAt(t.date.year, 3, 1) <= WallMinute(t) < SundayAt(t.date.year, 10, 2)
    ensures t.date != Date(t.date.year, 1, 1) && t.date != Date(t.date.year, 12, 31)
  {
  }

  /** `(t - t.utcoffset()).replace(tzinfo=ZoneInfo("UTC"))`: the same instant on the UTC clock. */
  function ToUtc(t: DateTime): (u: DateTime)
    requires ValidDateTime(t) && t.tz.Some?
    ensures ValidDateTime(u) && u.tz == Some(Utc) && !u.fold
    ensures WallMinute(u) == Instant(t)
    ensures u.second == t.second && u.microsecond == t.microsecond
  {
    if Offset(t) == 60 then
      SummerIsMidYear(t);
      HourEarlier(t).(tz := Some(Utc), fold := false)
    else t.(tz := Some(Utc), fold := false)
  }

  /** `ZoneInfo("Europe/London").fromutc(u)`: the London reading of a UTC instant. The second
      reading of the repeated October hour gets fold=1. */
  function LondonFromUtc(u: DateTime): (t: DateTime)
    requires ValidDateTime(u) && u.tz == Some(Utc)
    ensures ValidDateTime(t) && t.tz == Some(London)
    ensures WallMinute(t) == WallMinute(u) + (if BstAtUtc(u) then 60 else 0)
    ensures t.date.year == u.date.year
    ensures t.second == u.second && t.microsecond == u.microsecond
  {
    var y := u.date.year;
    if BstAtUtc(u) then
      SummerIsMidYear(u);
      assert HourLater(u).date.year == y;
      HourLater(u).(tz := Some(London), fold := false)
    else
      u.(tz := Some(London), fold := SundayAt(y, 10, 1) <= WallMinute(u) < SundayAt(y, 10, 2))
  }

  /** `tz.fromutc(u)` for the two zones. */
  function FromUtc(u: DateTime, z: Zone): (t: DateTime)
    requires ValidDateTime(u) && u.tz == Some(Utc)
    ensures ValidDateTime(t) && t.tz == Some(z)
  {
    match z
    case Utc => u
    case London => LondonFromUtc(u)
  }

  /** `t.astimezone(ZoneInfo(z))` for an aware `t`: `t` itself when it is already in that zone
      (the zone objects are cached, so `tz is self.tzinfo` holds), else its instant read in `z`. */
  function AsTimeZone(t: DateTime, z: Zone): (r: DateTime)
    requires ValidDateTime(t) && t.tz.Some?
    ensures ValidDateTime(r) && r.tz == Some(z)
    ensures r.second == t.second && r.microsecond == t.microsecond
    ensures Instant(r) == Instant(t)
  {
    if t.tz == Some(z) then t
    else
      var u := ToUtc(t);
      var r := FromUtc(u, z);
      assert Instant(r) == WallMinute(u) by { FromUtcKeepsInstant(u, z); }
      r
  }

  /** Reading a UTC instant on either clock names the same instant. */
  lemma FromUtcKeepsInstant(u: DateTime, z: Zone)
    requires ValidDateTime(u) && u.tz == Some(Utc)
    ensures Instant(FromUtc(u, z)) == WallMinute(u)
    ensures FromUtc(u, z).second == u.second && FromUtc(u, z).microsecond == u.microsecond
  {
    if z == London {
      var t := LondonFromUtc(u);
      var y, w := u.date.year, WallMinute(u);
      assert BstAtWall(t) <==> BstAtUtc(u);
    }
  }

  /** A London reading that exists: not in the hour the March change skips. */
  predicate ExistsOnWall(t: DateTime)
    requires ValidDateTime(t)
  {
    var y, w := t.date.year, WallMinute(t);
    !(SundayAt(y, 3, 1) <= w < SundayAt(y, 3, 2))
  }

  /** A fold=0 London reading that exists survives a trip through UTC unchanged. */
  lemma LondonUtcRoundTrip(t: DateTime)
    requires ValidDateTime(t) && t.tz == Some(London) && !t.fold && ExistsOnWall(t)
    ensures AsTimeZone(AsTimeZone(t, Utc), London) == t
  {
    var u := AsTimeZone(t, Utc);
    var r := AsTimeZone(u, London);
    assert r == LondonFromUtc(u);
    LondonFromUtcOfToUtc(t);
    WallMinuteInjective(r, t);
  }

  lemma LondonFromUtcOfToUtc(t: DateTime)
    requires ValidDateTime(t) && t.tz == Some(London) && !t.fold && ExistsOnWall(t)
    ensures WallMinute(LondonFromUtc(ToUtc(t))) == WallMinute(t)
    ensures !LondonFromUtc(ToUtc(t)).fold
  {
    if BstAtWall(t) {
      SummerBackFromUtc(t);
    } else {
      WinterBackFromUtc(t);
    }
  }

  /** A summer reading is an hour ahead of UTC, and its UTC reading is in summer too. */
  lemma SummerBackFromUtc(t: DateTime)
    requires ValidDateTime(t) && t.tz == Some(London) && !t.fold && BstAtWall(t)
    ensures BstAtUtc(ToUtc(t)) && ToUtc(t).date.year == t.date.year
    ensures WallMinute(LondonFromUtc(ToUtc(t))) == WallMinute(t) && !LondonFromUtc(ToUtc(t)).fold
  {
    SummerIsMidYear(t);
    assert ToUtc(t).date.year == t.date.year;
  }

  /** A winter reading that exists is its own UTC reading, which is in winter too. */
  lemma WinterBackFromUtc(t: DateTime)
    requires ValidDateTime(t) && t.tz == Some(London) && !t.fold && ExistsOnWall(t) && !BstAtWall(t)
    ensures ToUtc(t) == t.(tz := Some(Utc)) && !BstAtUtc(ToUtc(t))
    ensures WallMinute(LondonFromUtc(ToUtc(t))) == WallMinute(t) && !LondonFromUtc(ToUtc(t)).fold
  {
    var y, w := t.date.year, WallMinute(t);
    assert w < SundayAt(y, 3, 1) || SundayAt(y, 10, 2) <= w;
  }

  /** A fold=0 UTC reading survives a trip through London unchanged. */
  lemma UtcLondonRoundTrip(u: DateTime)
    requires ValidDateTime(u) && u.tz == Some(Utc) && !u.fold
    ensures AsTimeZone(AsTimeZone(u, London), Utc) == u
  {
    var t := AsTimeZone(u, London);
    var r := AsTimeZone(t, Utc);
    assert WallMinute(r) == Instant(t) == WallMinute(u);
    WallMinuteInjective(r, u);
  }

  // ---------------------------------------------------------------- the readings the code builds

  /** 00:00 London on day `d` is summer time exactly when `d` is after the March change day
      and no later than the October change day. */
  lemma MidnightOffset(d: Date)
    requires InRange(d)
    ensures BstAtWall(Combine(d, 0, 0, London))
        <==> Ordinal(LastSunday(d.year, 3)) < Ordinal(d) <= Ordinal(LastSunday(d.year, 10))
  {
  }

  /** 22:00 London on day `d` is summer time exactly when `d` is on or after the March change
      day and before the October change day. */
  lemma TenPmOffset(d: Date)
    requires InRange(d)
    ensures BstAtWall(Combine(d, 22, 0, London))
        <==> Ordinal(LastSunday(d.year, 3)) <= Ordinal(d) < Ordinal(LastSunday(d.year, 10))
  {
  }

  /** Neither 00:00 nor 22:00 falls in the skipped hour, so both readings exist. */
  lemma WholeHoursExist(d: Date, hour: int)
    requires InRange(d) && (hour == 0 || hour == 22)
    ensures ExistsOnWall(Combine(d, hour, 0, London))
  {
    var a, b := Ordinal(d), Ordinal(LastSunday(d.year, 3));
    assert WallMinute(Combine(d, hour, 0, London)) == a * 1440 + hour * 60;
    assert SundayAt(d.year, 3, 1) == b * 1440 + 60;
    if a <= b - 1 {
      assert a * 1440 <= b * 1440 - 1440;
    } else if a >= b + 1 {
      assert a * 1440 >= b * 1440 + 1440;
    }
  }

  /** On the UTC clock, a London reading is the same reading an hour earlier in summer time and
      the same reading in winter; the date rolls back when a summer midnight is converted. */
  lemma ToUtcShift(t: DateTime)
    requires ValidDateTime(t) && t.tz == Some(London)
    ensures var u := AsTimeZone(t, Utc);
      if BstAtWall(t) then
        if t.hour > 0 then u.date == t.date && u.hour == t.hour - 1
        else u.date == PrevDay(t.date) && u.hour == 23
      else u.date == t.date && u.hour == t.hour
    ensures AsTimeZone(t, Utc).minute == t.minute
  {
  }
}

/** The reporting-period calculation of
    `dc_logging_aws/lambdas/calculate_reporting_period_dates/handler.py`: from a polling day
    (and optionally the start of the election period) it derives the partition days and the
    Athena timestamps, on the UTC and the London clock, of the close of polls, the start of the
    election period, the start of election week and the start of polling day. */
module ReportingDates {
  import opened Wrappers
  import opened Text
  import opened Calendar
  import opened LondonTime
  import opened QueryTemplates

  // ---------------------------------------------------------------- date_from_string

  /** The message `date_from_string` raises for the field `name` holding `s`. */
  function InvalidDate(name: string, s: string): PyError
  {
    ValueError("Invalid " + name + ": " + s + ". Either unexpected format, or date doesn't exist. Format should be YYYY-MM-DD")
  }

  /** `date_from_string(s, name)`: the date `s` spells as YYYY-MM-DD, or a ValueError that names
      the field and repeats the text, whether the text does not match the format or names a
      day that does not exist. */
  function DateFromString(s: string, name: string): (r: Result<Date>)
    ensures r.Ok? <==> StrptimeDate(s).Some?
    ensures r.Ok? ==> r.value == StrptimeDate(s).value && InRange(r.value)
    ensures r.Err? ==> r.error == InvalidDate(name, s)
  {
    match StrptimeDate(s)
    case Some(d) => Ok(d)
    case None => Err(InvalidDate(name, s))
  }

  /** Every date the dates are printed as reads back as itself. */
  lemma DateFromStringRoundTrip(d: Date, name: string)
    requires InRange(d)
    ensures DateFromString(FormatYmd(d, "-"), name) == Ok(d)
  {
    StrptimeFormatRoundTrip(d);
  }

  // ---------------------------------------------------------------- get_election_week_start

  /** `get_election_week_start(polling_day)`: the Monday of the week of polling day. Going back
      `weekday()` days never passes 0001-01-01, which is itself a Monday. */
  function ElectionWeekStart(pollingDay: Date): (monday: Date)
    requires InRange(pollingDay)
    ensures InRange(monday) && Weekday(monday) == Monday
    ensures Ordinal(pollingDay) - 6 <= Ordinal(monday) <= Ordinal(pollingDay)
  {
    var w := Weekday(pollingDay);
    OrdinalAtLeastOne(pollingDay);
    var r := MinusDays(pollingDay, w);
    WeekdayOfMinusDays(pollingDay, w);
    r.value
  }

  /** A day's ordinal is at least its weekday plus one, so the Monday before it exists. */
  lemma OrdinalAtLeastOne(d: Date)
    requires InRange(d)
    ensures Ordinal(d) - Weekday(d) >= 1
  {
    var o := Ordinal(d);
    assert o >= 1 by { FirstOrdinal(d); }
    RemainderBound(o);
  }

  lemma RemainderBound(o: int)
    requires o >= 1
    ensures o - (o + 6) % 7 >= 1
  {
    var k := o - 1;
    var q := k / 7;
    assert k == 7 * q + k % 7;
    assert q >= 0;
    assert o + 6 == 7 * (q + 1) + k % 7;
  }

  /** The Monday is the only Monday from six days before polling day to polling day. */
  lemma ElectionWeekStartUnique(pollingDay: Date, d: Date)
    requires InRange(pollingDay) && InRange(d) && Weekday(d) == Monday
    requires Ordinal(pollingDay) - 6 <= Ordinal(d) <= Ordinal(pollingDay)
    ensures d == ElectionWeekStart(pollingDay)
  {
    var m := ElectionWeekStart(pollingDay);
    MondaysClose(d, m);
    OrdinalInjective(d, m);
  }

  /** Two Mondays less than a week apart have the same ordinal. */
  lemma MondaysClose(d: Date, m: Date)
    requires ValidDate(d) && ValidDate(m) && Weekday(d) == Monday && Weekday(m) == Monday
    requires -6 <= Ordinal(d) - Ordinal(m) <= 6
    ensures Ordinal(d) == Ordinal(m)
  {
    SameResidueClose(Ordinal(d), Ordinal(m));
  }

  /** Two numbers less than a week apart with the same weekday residue are equal. */
  lemma SameResidueClose(a: int, b: int)
    requires (a + 6) % 7 == 0 && (b + 6) % 7 == 0 && -6 <= a - b <= 6
    ensures a == b
  {
    var p, q := (a + 6) / 7, (b + 6) / 7;
    assert a + 6 == 7 * p && b + 6 == 7 * q;
    assert -6 <= 7 * (p - q) <= 6;
  }

  /** Two Thursday polls: 1 May 2025 and 2 January 2025, whose week starts in the year before. */
  lemma ElectionWeekStartExamples()
    ensures ElectionWeekStart(Date(2025, 5, 1)) == Date(2025, 4, 28)
    ensures ElectionWeekStart(Date(2025, 1, 2)) == Date(2024, 12, 30)
  {
    assert DaysBeforeYear(2025) == 739251 && DaysBeforeYear(2024) == 738885;
    assert Ordinal(Date(2025, 4, 28)) == 739369 && Ordinal(Date(2025, 5, 1)) == 739372;
    assert Weekday(Date(2025, 4, 28)) == Monday;
    ElectionWeekStartUnique(Date(2025, 5, 1), Date(2025, 4, 28));
    assert Ordinal(Date(2024, 12, 30)) == 739250 && Ordinal(Date(2025, 1, 2)) == 739253;
    assert Weekday(Date(2024, 12, 30)) == Monday;
    ElectionWeekStartUnique(Date(2025, 1, 2), Date(2024, 12, 30));
  }

  /** For a Thursday poll the week starts three days before polling day, at the same midnight
      `QueryTemplate.start_of_polling_week` names. */
  lemma ThursdayWeekStart(pollingDay: Date, startOfElectionPeriod: Date)
    requires InRange(pollingDay) && InRange(startOfElectionPeriod) && Weekday(pollingDay) == Thursday
    ensures Ordinal(ElectionWeekStart(pollingDay)) == Ordinal(pollingDay) - 3
    ensures QueryTemplate(pollingDay, startOfElectionPeriod).StartOfPollingWeek()
      == Ok(Combine(ElectionWeekStart(pollingDay), 0, 0, London))
  {
    var m := ElectionWeekStart(pollingDay);
    var w := Weekday(pollingDay);
    assert Ordinal(m) == Ordinal(pollingDay) - w by {
      OrdinalAtLeastOne(pollingDay);
      WeekdayOfMinusDays(pollingDay, w);
    }
    var r := QueryTemplate(pollingDay, startOfElectionPeriod).StartOfPollingWeek();
    OrdinalInjective(r.value.date, m);
  }

  // ---------------------------------------------------------------- get_election_period_start

  const YearZero := ValueError("year 0 is out of range")

  /** `get_election_period_start(polling_day)`: the first day of the month before polling day's
      month, January going back to December of the year before; there is no December of year 0,
      so a polling day in January of year 1 is a ValueError. */
  function ElectionPeriodStart(pollingDay: Date): (r: Result<Date>)
    requires InRange(pollingDay)
    ensures r.Err? <==> pollingDay.year == MinYear && pollingDay.month == 1
    ensures r.Err? ==> r.error == YearZero
    ensures r.Ok? ==> (InRange(r.value) && r.value.day == 1
      && r.value.year * 12 + r.value.month == pollingDay.year * 12 + pollingDay.month - 1)
  {
    var (year, month) := if pollingDay.month == 1 then (pollingDay.year - 1, 12) else (pollingDay.year, pollingDay.month - 1);
    if year < MinYear then Err(YearZero) else Ok(Date(year, month, 1))
  }

  /** The start is in the month before polling day: after the whole of the month before that,
      and before polling day's month begins. */
  lemma ElectionPeriodStartBefore(pollingDay: Date)
    requires InRange(pollingDay) && ElectionPeriodStart(pollingDay).Ok?
    ensures var s := ElectionPeriodStart(pollingDay).value;
      Ordinal(s) < Ordinal(Date(pollingDay.year, pollingDay.month, 1)) <= Ordinal(pollingDay)
      && Ordinal(Date(pollingDay.year, pollingDay.month, 1)) - Ordinal(s) == DaysInMonth(s.year, s.month)
  {
    var s := ElectionPeriodStart(pollingDay).value;
    var first := Date(pollingDay.year, pollingDay.month, 1);
    if pollingDay.month == 1 {
      DaysBeforeYearStep(s.year);
      assert Ordinal(first) - Ordinal(s) == 31;
    } else {
      assert Ordinal(first) - Ordinal(s) == DaysInMonth(s.year, s.month);
    }
  }

  // ---------------------------------------------------------------- handler

  /** The handler's input: the two strings of its event, either of which may be missing. */
  datatype Event = Event(pollingDay: Option<string>, startOfElectionPeriod: Option<string>)

  /** The handler's output dictionary. */
  datatype ReportingPeriod = ReportingPeriod(
    pollingDayAthena: string,
    startOfElectionPeriodDayAthena: string,
    closeOfPollsUtc: string,
    closeOfPollsLondon: string,
    startOfElectionPeriodUtc: string,
    startOfElectionPeriodLondon: string,
    startOfElectionWeekUtc: string,
    startOfElectionWeekLondon: string,
    startOfPollingDayUtc: string,
    startOfPollingDayLondon: string)

  /** `strptime(None, ...)` raises a TypeError, which `date_from_string` does not catch. */
  const MissingPollingDay := TypeError("strptime() argument 1 must be str, not None")

  /** The start of the election period the handler works from: the one in the event, or else the
      first of the month before polling day. */
  function StartOfElectionPeriod(event: Event, pollingDay: Date): (r: Result<Date>)
    requires InRange(pollingDay)
    ensures r.Ok? ==> InRange(r.value)
  {
    match event.startOfElectionPeriod
    case None => ElectionPeriodStart(pollingDay)
    case Some(s) => DateFromString(s, "election period start")
  }

  /** The dictionary the handler returns once it has polling day and the start of the election
      period: the two days as partition days, and four London readings (close of polls at 22:00
      on polling day, and midnight at the start of the election period, of election week and of
      polling day), each printed on the UTC and on the London clock. Every reading carries the
      London zone, so no printing fails. */
  function Readings(pollingDay: Date, start: Date): (r: Result<ReportingPeriod>)
    requires InRange(pollingDay) && InRange(start)
    ensures r.Ok?
    ensures r.value.pollingDayAthena == SlashDate(pollingDay)
    ensures r.value.startOfElectionPeriodDayAthena == SlashDate(start)
  {
    var startDt := Combine(start, 0, 0, London);
    var closeOfPolls := Combine(pollingDay, 22, 0, London);
    var weekStartDt := Combine(ElectionWeekStart(pollingDay), 0, 0, London);
    var dayStartDt := Combine(pollingDay, 0, 0, London);
    var closeUtc := UtcAthenaTime(closeOfPolls).value;
    var closeLondon := LondonAthenaTime(closeOfPolls).value;
    var startUtc := UtcAthenaTime(startDt).value;
    var startLondon := LondonAthenaTime(startDt).value;
    var weekUtc := UtcAthenaTime(weekStartDt).value;
    var weekLondon := LondonAthenaTime(weekStartDt).value;
    var dayUtc := UtcAthenaTime(dayStartDt).value;
    var dayLondon := LondonAthenaTime(dayStartDt).value;
    Ok(ReportingPeriod(SlashDate(pollingDay), SlashDate(start), closeUtc, closeLondon,
                       startUtc, startLondon, weekUtc, weekLondon, dayUtc, dayLondon))
  }

  /** Each London field is the reading's own wall clock: 22:00 on polling day, midnight on the
      three start days. */
  lemma ReadingsLondon(pollingDay: Date, start: Date)
    requires InRange(pollingDay) && InRange(start)
    ensures var p := Readings(pollingDay, start).value;
      p.closeOfPollsLondon == AthenaMinute(Combine(pollingDay, 22, 0, London))
      && p.startOfElectionPeriodLondon == AthenaMinute(Combine(start, 0, 0, London))
      && p.startOfElectionWeekLondon == AthenaMinute(Combine(ElectionWeekStart(pollingDay), 0, 0, London))
      && p.startOfPollingDayLondon == AthenaMinute(Combine(pollingDay, 0, 0, London))
  {
  }

  /** The UTC reading of 22:00 London on day `d`: an hour earlier from the March change day up
      to the day before the October change day, unchanged otherwise. */
  function TenPmUtc(d: Date): (t: DateTime)
    requires InRange(d)
    ensures ValidDateTime(t)
  {
    var t := Combine(d, 22, 0, London);
    if Ordinal(LastSunday(d.year, 3)) <= Ordinal(d) < Ordinal(LastSunday(d.year, 10)) then HourEarlier(t) else t
  }

  /** The UTC reading of midnight London on day `d`: 23:00 the day before from the day after
      the March change day up to the October change day, unchanged otherwise. */
  function MidnightUtc(d: Date): (t: DateTime)
    requires InRange(d)
    ensures ValidDateTime(t)
  {
    var t := Combine(d, 0, 0, London);
    var march := LastSunday(d.year, 3);
    if Ordinal(march) < Ordinal(d) <= Ordinal(LastSunday(d.year, 10)) then
      assert d != Date(MinYear, 1, 1) by { FirstOrdinal(d); FirstOrdinal(march); }
      assert InRange(PrevDay(d));
      HourEarlier(t)
    else t
  }

  lemma TenPmUtcIsAthena(d: Date)
    requires InRange(d)
    ensures UtcAthenaTime(Combine(d, 22, 0, London)) == Ok(AthenaMinute(TenPmUtc(d)))
  {
    TenPmOffset(d);
    UtcAthenaTimeOfLondon(Combine(d, 22, 0, London));
  }

  lemma MidnightUtcIsAthena(d: Date)
    requires InRange(d)
    ensures UtcAthenaTime(Combine(d, 0, 0, London)) == Ok(AthenaMinute(MidnightUtc(d)))
  {
    MidnightOffset(d);
    UtcAthenaTimeOfLondon(Combine(d, 0, 0, London));
  }

  /** Each UTC field is the same instant as its London field, shifted by the London offset of
      that date. */
  lemma ReadingsUtc(pollingDay: Date, start: Date)
    requires InRange(pollingDay) && InRange(start)
    ensures var p := Readings(pollingDay, start).value;
      p.closeOfPollsUtc == AthenaMinute(TenPmUtc(pollingDay))
      && p.startOfElectionPeriodUtc == AthenaMinute(MidnightUtc(start))
    ensures var p := Readings(pollingDay, start).value;
      p.startOfElectionWeekUtc == AthenaMinute(MidnightUtc(ElectionWeekStart(pollingDay)))
      && p.startOfPollingDayUtc == AthenaMinute(MidnightUtc(pollingDay))
  {
    var p := Readings(pollingDay, start).value;
    assert p.closeOfPollsUtc == UtcAthenaTime(Combine(pollingDay, 22, 0, London)).value;
    assert p.startOfElectionPeriodUtc == UtcAthenaTime(Combine(start, 0, 0, London)).value;
    assert p.startOfElectionWeekUtc == UtcAthenaTime(Combine(ElectionWeekStart(pollingDay), 0, 0, London)).value;
    assert p.startOfPollingDayUtc == UtcAthenaTime(Combine(pollingDay, 0, 0, London)).value;
    TenPmUtcIsAthena(pollingDay);
    MidnightUtcIsAthena(start);
    MidnightUtcIsAthena(ElectionWeekStart(pollingDay));
    MidnightUtcIsAthena(pollingDay);
  }

  /** `handler(event, context)`: polling day is read first, then the start of the election
      period, so the first of them that fails decides the exception; the printing never fails. */
  function Handler(event: Event): (r: Result<ReportingPeriod>)
    ensures r.Err? <==> (event.pollingDay.None? || StrptimeDate(event.pollingDay.value).None?
      || StartOfElectionPeriod(event, StrptimeDate(event.pollingDay.value).value).Err?)
    ensures r.Err? && event.pollingDay.None? ==> r.error == MissingPollingDay
    ensures r.Err? && event.pollingDay.Some? && StrptimeDate(event.pollingDay.value).None? ==>
              r.error == InvalidDate("polling day", event.pollingDay.value)
    ensures r.Err? && event.pollingDay.Some? && StrptimeDate(event.pollingDay.value).Some? ==>
              r.error == StartOfElectionPeriod(event, StrptimeDate(event.pollingDay.value).value).error
    ensures r.Err? ==> r.error != NaiveDateTime
  {
    if event.pollingDay.None? then Err(MissingPollingDay)
    else
      var pollingDay :- DateFromString(event.pollingDay.value, "polling day");
      var start :- StartOfElectionPeriod(event, pollingDay);
      Readings(pollingDay, start)
  }

  /** Without a start in the event, the report starts on the first of the month before polling
      day; with one, it starts on the date the event gives. */
  lemma HandlerStart(event: Event, pollingDay: Date)
    requires event.pollingDay.Some? && StrptimeDate(event.pollingDay.value) == Some(pollingDay)
    ensures event.startOfElectionPeriod.None? && ElectionPeriodStart(pollingDay).Ok? ==>
      Handler(event).Ok? && Handler(event).value == Readings(pollingDay, ElectionPeriodStart(pollingDay).value).value
    ensures event.startOfElectionPeriod.Some? && StrptimeDate(event.startOfElectionPeriod.value).Some? ==>
      Handler(event).Ok?
      && Handler(event).value == Readings(pollingDay, StrptimeDate(event.startOfElectionPeriod.value).value).value
  {
  }
}

/** The readings the query templates produce for the two elections the template tests use:
    polling day 2 May 2024 (in summer time) and 12 December 2019 (in winter time). */
module QueryExamples {
  import opened Wrappers
  import opened Text
  import opened Calendar
  import opened LondonTime
  import opened QueryTemplates

  const May2024 := QueryTemplate(Date(2024, 5, 2), Date(2024, 4, 1))
  const Dec2019 := QueryTemplate(Date(2019, 12, 12), Date(2019, 11, 1))

  // ---------------------------------------------------------------- printing fields

  lemma TwoDigits(n: nat)
    requires n < 100
    ensures FixedDigits(n, 2) == [DigitChar(n / 10), DigitChar(n % 10)]
  {
  }

  lemma Years()
    ensures FixedDigits(2024, 4) == "2024" && FixedDigits(2019, 4) == "2019"
  {
  }

  /** The printed reading, field by field. */
  lemma Fields(t: DateTime)
    requires ValidDateTime(t)
    ensures AthenaMinute(t) == FixedDigits(t.date.year, 4) + "-" + FixedDigits(t.date.month, 2) + "-"
      + FixedDigits(t.date.day, 2) + " " + FixedDigits(t.hour, 2) + ":" + FixedDigits(t.minute, 2)
  {
  }

  /** A reading of 2024 or 2019, printed digit by digit. */
  lemma PrintMinute(t: DateTime, s: string)
    requires ValidDateTime(t) && (t.date.year == 2024 || t.date.year == 2019)
    requires s == (if t.date.year == 2024 then "2024" else "2019") + [
                   '-', DigitChar(t.date.month / 10), DigitChar(t.date.month % 10), '-',
                   DigitChar(t.date.day / 10), DigitChar(t.date.day % 10), ' ', DigitChar(t.hour / 10),
                   DigitChar(t.hour % 10), ':', DigitChar(t.minute / 10), DigitChar(t.minute % 10)]
    ensures AthenaMinute(t) == s
  {
    Fields(t);
    Years();
    TwoDigits(t.date.month);
    TwoDigits(t.date.day);
    TwoDigits(t.hour);
    TwoDigits(t.minute);
  }

  /** A day of 2024 or 2019 as the partition layout prints it. */
  lemma PrintSlash(d: Date, s: string)
    requires InRange(d) && (d.year == 2024 || d.year == 2019)
    requires s == (if d.year == 2024 then "2024" else "2019") + [
                   '/', DigitChar(d.month / 10), DigitChar(d.month % 10), '/', DigitChar(d.day / 10), DigitChar(d.day % 10)]
    ensures SlashDate(d) == s
  {
    Years();
    TwoDigits(d.month);
    TwoDigits(d.day);
  }

  // ---------------------------------------------------------------- summer and winter time

  lemma LastSundays2024()
    ensures LastSunday(2024, 3) == Date(2024, 3, 31) && LastSunday(2024, 10) == Date(2024, 10, 27)
  {
    assert DaysBeforeYear(2024) == 738885;
    assert Ordinal(Date(2024, 3, 31)) == 738976;
    assert Weekday(Date(2024, 3, 31)) == 6;
    assert Ordinal(Date(2024, 10, 31)) == 739190;
    assert Weekday(Date(2024, 10, 31)) == 3;
  }

  /** Both readings the 2024 tests start from are in summer time. */
  lemma Summer2024()
    ensures BstAtWall(Combine(Date(2024, 4, 29), 0, 0, London))
    ensures BstAtWall(Combine(Date(2024, 5, 2), 22, 0, London))
  {
    LastSundays2024();
    MidnightOffset(Date(2024, 4, 29));
    TenPmOffset(Date(2024, 5, 2));
    assert DaysBeforeYear(2024) == 738885;
  }

  /** Both readings the 2019 tests start from are in winter time: December is after the
      October change. */
  lemma Winter2019()
    ensures !BstAtWall(Combine(Date(2019, 12, 9), 0, 0, London))
    ensures !BstAtWall(Combine(Date(2019, 12, 12), 22, 0, London))
  {
    var oct := LastSunday(2019, 10);
    MidnightOffset(Date(2019, 12, 9));
    TenPmOffset(Date(2019, 12, 12));
    assert Ordinal(oct) < Ordinal(Date(2019, 12, 1));
  }

  // ---------------------------------------------------------------- the tests' expectations

  /** `close_of_polls` and `start_of_polling_week` of the two templates. */
  lemma TemplateReadings()
    ensures May2024.CloseOfPolls() == DateTime(Date(2024, 5, 2), 22, 0, 0, 0, Some(London), false)
    ensures May2024.StartOfPollingWeek() == Ok(DateTime(Date(2024, 4, 29), 0, 0, 0, 0, Some(London), false))
    ensures Dec2019.CloseOfPolls() == DateTime(Date(2019, 12, 12), 22, 0, 0, 0, Some(London), false)
    ensures Dec2019.StartOfPollingWeek() == Ok(DateTime(Date(2019, 12, 9), 0, 0, 0, 0, Some(London), false))
  {
    var a, b := May2024.StartOfPollingWeek(), Dec2019.StartOfPollingWeek();
    OrdinalInjective(a.value.date, Date(2024, 4, 29));
    OrdinalInjective(b.value.date, Date(2019, 12, 9));
  }

  /** The UTC reading of a London one: an hour earlier in summer, the same in winter. */
  lemma UtcReadings()
    ensures UtcAthenaTime(Combine(Date(2024, 4, 29), 0, 0, London))
      == Ok(AthenaMinute(DateTime(Date(2024, 4, 28), 23, 0, 0, 0, Some(London), false)))
    ensures UtcAthenaTime(Combine(Date(2024, 5, 2), 22, 0, London))
      == Ok(AthenaMinute(DateTime(Date(2024, 5, 2), 21, 0, 0, 0, Some(London), false)))
    ensures UtcAthenaTime(Combine(Date(2019, 12, 12), 22, 0, London)) == Ok(AthenaMinute(Combine(Date(2019, 12, 12), 22, 0, London)))
    ensures UtcAthenaTime(Combine(Date(2019, 12, 9), 0, 0, London)) == Ok(AthenaMinute(Combine(Date(2019, 12, 9), 0, 0, London)))
  {
    Summer2024();
    Winter2019();
    UtcAthenaTimeOfLondon(Combine(Date(2024, 4, 29), 0, 0, London));
    assert PrevDay(Date(2024, 4, 29)) == Date(2024, 4, 28);
    UtcAthenaTimeOfLondon(Combine(Date(2024, 5, 2), 22, 0, London));
    UtcAthenaTimeOfLondon(Combine(Date(2019, 12, 12), 22, 0, London));
    UtcAthenaTimeOfLondon(Combine(Date(2019, 12, 9), 0, 0, London));
  }

  lemma PrintedReadings()
    ensures AthenaMinute(DateTime(Date(2024, 4, 28), 23, 0, 0, 0, Some(London), false)) == "2024-04-28 23:00"
    ensures AthenaMinute(DateTime(Date(2024, 5, 2), 21, 0, 0, 0, Some(London), false)) == "2024-05-02 21:00"
    ensures AthenaMinute(Combine(Date(2024, 4, 29), 0, 0, London)) == "2024-04-29 00:00"
    ensures AthenaMinute(Combine(Date(2024, 5, 2), 22, 0, London)) == "2024-05-02 22:00"
    ensures AthenaMinute(Combine(Date(2019, 12, 12), 22, 0, London)) == "2019-12-12 22:00"
    ensures AthenaMinute(Combine(Date(2019, 12, 9), 0, 0, London)) == "2019-12-09 00:00"
  {
    PrintedSummer();
    PrintedLondon();
  }

  lemma PrintedSummer()
    ensures AthenaMinute(DateTime(Date(2024, 4, 28), 23, 0, 0, 0, Some(London), false)) == "2024-04-28 23:00"
    ensures AthenaMinute(DateTime(Date(2024, 5, 2), 21, 0, 0, 0, Some(London), false)) == "2024-05-02 21:00"
  {
    PrintMinute(DateTime(Date(2024, 4, 28), 23, 0, 0, 0, Some(London), false), "2024-04-28 23:00");
    PrintMinute(DateTime(Date(2024, 5, 2), 21, 0, 0, 0, Some(London), false), "2024-05-02 21:00");
  }

  lemma PrintedLondon()
    ensures AthenaMinute(Combine(Date(2024, 4, 29), 0, 0, London)) == "2024-04-29 00:00"
    ensures AthenaMinute(Combine(Date(2024, 5, 2), 22, 0, London)) == "2024-05-02 22:00"
    ensures AthenaMinute(Combine(Date(2019, 12, 12), 22, 0, London)) == "2019-12-12 22:00"
    ensures AthenaMinute(Combine(Date(2019, 12, 9), 0, 0, London)) == "2019-12-09 00:00"
  {
    PrintMinute(Combine(Date(2024, 4, 29), 0, 0, London), "2024-04-29 00:00");
    PrintMinute(Combine(Date(2024, 5, 2), 22, 0, London), "2024-05-02 22:00");
    PrintMinute(Combine(Date(2019, 12, 12), 22, 0, London), "2019-12-12 22:00");
    PrintMinute(Combine(Date(2019, 12, 9), 0, 0, London), "2019-12-09 00:00");
  }

  /** London readings of the two elections on the UTC clock: summer readings an hour earlier,
      winter readings unchanged. */
  lemma UtcPrints()
    ensures UtcAthenaTime(Combine(Date(2024, 4, 29), 0, 0, London)) == Ok("2024-04-28 23:00")
    ensures UtcAthenaTime(Combine(Date(2024, 5, 2), 22, 0, London)) == Ok("2024-05-02 21:00")
    ensures UtcAthenaTime(Combine(Date(2019, 12, 12), 22, 0, London)) == Ok("2019-12-12 22:00")
    ensures UtcAthenaTime(Combine(Date(2019, 12, 9), 0, 0, London)) == Ok("2019-12-09 00:00")
  {
    UtcReadings();
    PrintedReadings();
  }

  /** A London reading is printed as it is on the London clock. */
  lemma LondonPrints()
    ensures LondonAthenaTime(Combine(Date(2024, 4, 29), 0, 0, London)) == Ok("2024-04-29 00:00")
    ensures LondonAthenaTime(Combine(Date(2024, 5, 2), 22, 0, London)) == Ok("2024-05-02 22:00")
    ensures LondonAthenaTime(Combine(Date(2019, 12, 12), 22, 0, London)) == Ok("2019-12-12 22:00")
    ensures LondonAthenaTime(Combine(Date(2019, 12, 9), 0, 0, London)) == Ok("2019-12-09 00:00")
  {
    PrintedReadings();
  }

  /** A naive reading is refused. */
  lemma NaiveRefused()
    ensures AthenaDateTimeString(DateTime(Date(2024, 4, 29), 0, 0, 0, 0, None, false), Utc) == Err(NaiveDateTime)
  {
  }

  /** The 2024 election-period CTE reads the partitions from 31 March to 2 May 2024. */
  lemma ElectionPeriod2024()
    ensures May2024.ElectionPeriodCte().Ok?
    ensures May2024.ElectionPeriodCte().value[2] == DayFrom + "2024/03/31" + "' "
    ensures May2024.ElectionPeriodCte().value[3] == DayTo + "2024/05/02" + "'"
  {
    assert PrevDay(Date(2024, 4, 1)) == Date(2024, 3, 31);
    PrintSlash(Date(2024, 3, 31), "2024/03/31");
    PrintSlash(Date(2024, 5, 2), "2024/05/02");
  }

  /** The bounds a logs CTE carries, given the four printed readings. */
  lemma LogsBounds(q: QueryTemplate, start: DateTime, utcStart: string, utcClose: string,
                   londonStart: string, londonClose: string)
    requires q.Valid() && ValidDateTime(start) && start.tz.Some?
    requires AthenaMinute(AsTimeZone(start, Utc)) == utcStart
    requires AthenaMinute(AsTimeZone(q.CloseOfPolls(), Utc)) == utcClose
    requires AthenaMinute(AsTimeZone(start, London)) == londonStart
    requires AthenaMinute(AsTimeZone(q.CloseOfPolls(), London)) == londonClose
    ensures q.LogsCte(start).Ok?
    ensures var ls := q.LogsCte(start).value;
      ls[3] == TimestampFrom + utcStart + AsTimestamp && ls[4] == TimestampTo + utcClose + AsTimestamp
      && ls[7] == TimestampFrom + londonStart + AsTimestamp && ls[8] == TimestampTo + londonClose + AsTimestamp
  {
  }

  /** The 2024 logs CTE from the start of polling week: the UTC bounds an hour before the
      London ones. */
  lemma Logs2024()
    ensures var start := Combine(Date(2024, 4, 29), 0, 0, London);
      var ls := May2024.LogsCte(start).value;
      ls[3] == TimestampFrom + "2024-04-28 23:00" + AsTimestamp
      && ls[4] == TimestampTo + "2024-05-02 21:00" + AsTimestamp
      && ls[7] == TimestampFrom + "2024-04-29 00:00" + AsTimestamp
      && ls[8] == TimestampTo + "2024-05-02 22:00" + AsTimestamp
  {
    var start, close := Combine(Date(2024, 4, 29), 0, 0, London), May2024.CloseOfPolls();
    assert close == Combine(Date(2024, 5, 2), 22, 0, London);
    UtcPrints();
    LondonPrints();
    LogsBounds(May2024, start, "2024-04-28 23:00", "2024-05-02 21:00", "2024-04-29 00:00", "2024-05-02 22:00");
  }
}

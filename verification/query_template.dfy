/** The SQL text generator of `dc_logging_aws/named_queries/query_template.py`: the Athena
    timestamp strings, `indent_cte_string`, and `QueryTemplate` with its common table
    expressions (CTEs) and the five composite queries built from them.

    A CTE is modelled as the list of its lines after `textwrap.dedent(...).strip()`, with the
    substitutions filled in; its text is those lines joined by newlines. A composite query
    splices each CTE it embeds into its own line list, four columns in. */
module QueryTemplates {
  import opened Wrappers
  import opened Text
  import opened Calendar
  import opened LondonTime

  // ---------------------------------------------------------------- timestamps

  const NaiveDateTime := ValueError("Input datetime must be timezone-aware")

  /** `datetime_to_athena_datetime_string(dt, tz_target)`: the wall clock of `dt` in the target
      zone as "YYYY-MM-DD HH:MM"; a naive `dt` is refused. */
  function AthenaDateTimeString(t: DateTime, target: Zone): (r: Result<string>)
    requires ValidDateTime(t)
    ensures r.Err? <==> t.tz.None?
    ensures r.Err? ==> r.error == NaiveDateTime
    ensures r.Ok? ==> r.value == AthenaMinute(AsTimeZone(t, target))
    ensures r.Ok? ==> |r.value| == 16 && '\n' !in r.value
    ensures r.Ok? && t.tz == Some(target) ==> r.value == AthenaMinute(t)
  {
    if t.tz.None? then Err(NaiveDateTime)
    else
      var s := AthenaMinute(AsTimeZone(t, target));
      AthenaMinuteSingleLine(AsTimeZone(t, target));
      Ok(s)
  }

  /** `utc_athena_time(dt)`. */
  function UtcAthenaTime(t: DateTime): Result<string>
    requires ValidDateTime(t)
  {
    AthenaDateTimeString(t, Utc)
  }

  /** `london_athena_time(dt)`. */
  function LondonAthenaTime(t: DateTime): Result<string>
    requires ValidDateTime(t)
  {
    AthenaDateTimeString(t, London)
  }

  /** Printing a London reading on the UTC clock: an hour earlier in summer time (the day
      before, 23:00, for a summer midnight), unchanged in winter. */
  lemma UtcAthenaTimeOfLondon(t: DateTime)
    requires ValidDateTime(t) && t.tz == Some(London)
    ensures UtcAthenaTime(t) == Ok(AthenaMinute(if BstAtWall(t) then HourEarlier(t) else t))
  {
    ToUtcShift(t);
    var u := AsTimeZone(t, Utc);
    var v := if BstAtWall(t) then HourEarlier(t) else t;
    assert u.date == v.date && u.hour == v.hour && u.minute == v.minute;
  }

  /** The string is zero-padded digits and separators, never a newline. */
  lemma AthenaMinuteSingleLine(t: DateTime)
    requires ValidDateTime(t)
    ensures '\n' !in AthenaMinute(t)
  {
    var s := AthenaMinute(t);
    forall k | 0 <= k < |s| ensures s[k] != '\n' {
      FormatYmdChars(t.date, "-");
      assert s == FormatYmd(t.date, "-") + " " + FixedDigits(t.hour, 2) + ":" + FixedDigits(t.minute, 2);
    }
  }

  lemma FormatYmdChars(d: Date, sep: string)
    requires InRange(d)
    ensures forall k :: 0 <= k < |FormatYmd(d, sep)| ==> FormatYmd(d, sep)[k] != '\n' || FormatYmd(d, sep)[k] in sep
  {
  }

  // ---------------------------------------------------------------- indent_cte_string

  /** `indent_cte_string(s, n)`: every line but the first gets `n` spaces in front. */
  function IndentCte(s: string, n: int := 8): (r: string)
    ensures var a, b := Split(s), Split(r);
      |b| == |a| && b[0] == a[0] && forall i :: 1 <= i < |a| ==> b[i] == Spaces(n) + a[i]
    ensures '\n' !in s ==> r == s
  {
    var lines := Split(s);
    var out := [lines[0]] + PrefixEach(Spaces(n), lines[1..]);
    IndentedLinesSplit(lines, n);
    assert '\n' !in s ==> lines == [s] by {
      if '\n' !in s {
        SplitPrefix(s, "");
        assert s + "" == s;
      }
    }
    Join(out)
  }

  lemma IndentedLinesSplit(lines: seq<string>, n: int)
    requires |lines| >= 1 && NoNewline(lines)
    ensures Split(Join([lines[0]] + PrefixEach(Spaces(n), lines[1..]))) == [lines[0]] + PrefixEach(Spaces(n), lines[1..])
  {
    var out := [lines[0]] + PrefixEach(Spaces(n), lines[1..]);
    assert NoNewline(lines[1..]) by {
      forall i | 0 <= i < |lines[1..]| ensures '\n' !in lines[1..][i] { assert lines[1..][i] == lines[i + 1]; }
    }
    PrefixEachNoNewline(Spaces(n), lines[1..]);
    assert NoNewline(out) by {
      forall i | 0 <= i < |out| ensures '\n' !in out[i] {
        if i > 0 { assert out[i] == PrefixEach(Spaces(n), lines[1..])[i - 1]; } else { assert out[0] == lines[0]; }
      }
    }
    SplitJoin(out);
  }

  // ---------------------------------------------------------------- splicing a CTE into a query

  /** The lines a CTE contributes to a composite query: each of its lines four columns in. */
  function Section(cte: seq<string>): seq<string>
  {
    PrefixEach("    ", cte)
  }

  /** `indent_cte_string` on the text of newline-free lines gives back those lines, all but the
      first shifted right by `n`. */
  lemma IndentCteOfLines(lines: seq<string>, n: int)
    requires |lines| >= 1 && NoNewline(lines)
    ensures Split(IndentCte(Join(lines), n)) == [lines[0]] + PrefixEach(Spaces(n), lines[1..])
  {
    SplitJoin(lines);
    IndentedLinesSplit(lines, n);
  }

  /** `textwrap.indent` of a text none of whose lines is blank puts the prefix on every line. */
  lemma TextIndentAll(lines: seq<string>, prefix: string)
    requires |lines| >= 1 && NoLineBreak(lines)
    requires forall i :: 0 <= i < |lines| ==> HasContent(lines[i])
    ensures TextIndent(Join(lines), prefix) == Join(PrefixEach(prefix, lines))
  {
    NoLineBreakNoNewline(lines);
    SplitJoin(lines);
    var c := seq(|lines|, i requires 0 <= i < |lines| => if HasContent(lines[i]) then prefix + lines[i] else lines[i]);
    assert c == PrefixEach(prefix, lines);
  }

  /** Shifting a line right keeps it non-blank. */
  lemma ShiftKeepsContent(pad: string, line: string)
    requires HasContent(line)
    ensures HasContent(pad + line)
  {
    var k :| 0 <= k < |line| && !IsSpace(line[k]);
    assert (pad + line)[|pad| + k] == line[k];
  }

  lemma SixteenSpaces()
    ensures Spaces(12) + "    " == "    " + Spaces(12)
  {
    var a, b := Spaces(12) + "    ", "    " + Spaces(12);
    assert |a| == |b| == 16;
    forall k | 0 <= k < 16 ensures a[k] == b[k] {
      if k < 4 { assert b[k] == ' '; } else { assert b[k] == Spaces(12)[k - 4]; }
      if k < 12 { assert a[k] == Spaces(12)[k]; } else { assert a[k] == ' '; }
    }
  }

  /** The lines `indent_cte_string(cte, 12)` produces. */
  function Shifted(cte: seq<string>): seq<string>
    requires |cte| >= 1
  {
    [cte[0]] + PrefixEach(Spaces(12), cte[1..])
  }

  lemma ShiftedLines(cte: seq<string>)
    requires |cte| >= 1 && NoNewline(cte)
    requires forall i :: 0 <= i < |cte| ==> HasContent(cte[i])
    ensures IndentCte(Join(cte), 12) == Join(Shifted(cte))
    ensures |Shifted(cte)| >= 1 && NoNewline(Shifted(cte))
    ensures forall i :: 0 <= i < |Shifted(cte)| ==> HasContent(Shifted(cte)[i])
  {
    var b := Shifted(cte);
    IndentCteOfLines(cte, 12);
    JoinSplit(IndentCte(Join(cte), 12));
    forall i | 0 <= i < |b| ensures HasContent(b[i]) {
      if i > 0 {
        assert b[i] == Spaces(12) + cte[i];
        ShiftKeepsContent(Spaces(12), cte[i]);
      }
    }
  }

  lemma ShiftedNoLineBreak(cte: seq<string>)
    requires |cte| >= 1 && NoLineBreak(cte)
    ensures NoLineBreak(Shifted(cte))
  {
    PrefixEachNoLineBreak(Spaces(12), cte[1..]);
    var b := Shifted(cte);
    forall i, k | 0 <= i < |b| && 0 <= k < |b[i]| ensures !IsLineBreak(b[i][k]) {
      if i == 0 {
        assert b[0] == cte[0];
      } else {
        assert b[i] == PrefixEach(Spaces(12), cte[1..])[i - 1];
      }
    }
  }

  lemma ShiftedSection(cte: seq<string>)
    requires |cte| >= 1
    ensures var c := PrefixEach("    ", Shifted(cte));
      |c| == |cte| && c[0] == Section(cte)[0]
      && forall i :: 1 <= i < |c| ==> c[i] == Spaces(12) + Section(cte)[i]
  {
    var c := PrefixEach("    ", Shifted(cte));
    SixteenSpaces();
    forall i | 1 <= i < |c| ensures c[i] == Spaces(12) + Section(cte)[i] {
      assert c[i] == "    " + (Spaces(12) + cte[i]);
      assert Section(cte)[i] == "    " + cte[i];
      assert Spaces(12) + ("    " + cte[i]) == (Spaces(12) + "    ") + cte[i];
      assert "    " + (Spaces(12) + cte[i]) == ("    " + Spaces(12)) + cte[i];
    }
  }

  /** Why `Section` is what the composite templates produce: `indent_cte_string(cte, 12)` and then
      `textwrap.indent(..., '    ')` give every line of a CTE whose lines are not blank four
      spaces, and every line but the first a further twelve, which is exactly the left margin of
      the template line the slot sits on and which `textwrap.dedent` then removes. */
  lemma SlotMargin(cte: seq<string>)
    requires |cte| >= 1 && NoLineBreak(cte)
    requires forall i :: 0 <= i < |cte| ==> HasContent(cte[i])
    ensures var slot := Split(TextIndent(IndentCte(Join(cte), 12), "    "));
      |slot| == |cte| && slot[0] == Section(cte)[0]
      && forall i :: 1 <= i < |slot| ==> slot[i] == Spaces(12) + Section(cte)[i]
  {
    NoLineBreakNoNewline(cte);
    ShiftedLines(cte);
    ShiftedNoLineBreak(cte);
    TextIndentAll(Shifted(cte), "    ");
    PrefixEachNoNewline("    ", Shifted(cte));
    SplitJoin(PrefixEach("    ", Shifted(cte)));
    ShiftedSection(cte);
  }

  lemma SlashDateSingleLine(d: Date)
    requires InRange(d)
    ensures '\n' !in SlashDate(d)
  {
    FormatYmdChars(d, "/");
  }
  // ---------------------------------------------------------------- QueryTemplate

  // The fixed lines and line fragments of the templates, after `textwrap.dedent`.
  const SelectAll := "SELECT *"
  const SearchesTable := "FROM \"dc-wide-logs\".\"dc_postcode_searches_table\" all_logs"
  const DayFrom := "WHERE \"day\" >= '"
  const DayTo := "    AND \"day\" <= '"
  const MonitoringFilter := [
    "    AND all_logs.\"api_key\" != 'UPDOWN_API_KEY' --updown",
    "    AND (",
    "            (all_logs.\"dc_product\" != 'WDIV')",
    "        OR ",
    "            (all_logs.\"dc_product\" = 'WDIV' AND replace(all_logs.\"postcode\",' ','') != 'BS44NN') --updown",
    "    )"]
  const ExclusionLine := "    AND LOWER(\"calls_devs_dc_api\") = 'false'"

  const HourSegmentSelect := ", date_format(timestamp, '%Y-%m-%d %H') as hour_segment"
  const TimestampFrom := "    \"timestamp\" >= cast('"
  const TimestampTo := "    AND \"timestamp\" <= cast('"
  const AsTimestamp := "' AS timestamp)"
  const OtherProducts := ["    AND \"dc_product\" != 'WDIV'", ") OR ("]
  const WdivOnly := ["    AND \"dc_product\" = 'WDIV'", ")"]

  const HourSegment := ", hour_segment"
  const CountNoUser := "    count(*) AS count, \"dc_product\", '' AS key_name, '' AS user_name, '' AS email, utm_source"
  const CountPerUser := "    count(*) AS count, \"dc_product\", api_users.\"key_name\", api_users.\"user_name\", api_users.\"email\", utm_source"
  const FromPrefix := "    FROM "
  const GroupByKey := "    GROUP BY \"dc_product\", \"api_key\", \"utm_source\""
  const GroupByUser := "    GROUP BY \"dc_product\", \"key_name\", \"user_name\", \"utm_source\", \"email\""
  const JoinEcApiUsers := "        JOIN \"dc-wide-logs\".\"api-users-ec-api\" as api_users ON "
  const JoinAggregatorUsers := "        JOIN \"dc-wide-logs\".\"api-users-aggregator-api\" as api_users ON "
  const KeyMatch := ".\"api_key\" = api_users.\"key\""
  const AggregatorFilter := [
    "    WHERE",
    "        dc_product = 'AGGREGATOR_API'",
    "        AND api_users.\"key_name\" NOT IN (",
    "            'EC postcode pages - Dev', 'WhoCanIVoteFor', 'Updown', 'EC API'",
    "        )"]

  /** The four select lines and the four grouping lines of `product_count_cte`. */
  const SelectLines: set<int> := {1, 6, 11, 17}
  const GroupByLines: set<int> := {4, 9, 15, 25}

  /** `q` holds `cte` as a `Section` from line `at` on. */
  predicate SectionAt(q: seq<string>, at: int, cte: seq<string>)
  {
    0 <= at && at + |cte| <= |q| && forall i :: 0 <= i < |cte| ==> q[at + i] == "    " + cte[i]
  }

  /** A composite query opens with the WITH clause: the election-period CTE `ep`, then the logs
      CTE `logs`, each spliced in as a `Section`. */
  predicate Opens(q: seq<string>, ep: seq<string>, logs: seq<string>)
  {
    |q| >= 2 + |ep| + |logs|
    && q[0] == "WITH ELECTION_PERIOD AS ("
    && SectionAt(q, 1, ep)
    && q[1 + |ep|] == "), LOGS AS ("
    && SectionAt(q, 2 + |ep|, logs)
  }

  /** Right after that WITH clause, `q` declares the product-count CTE `pc`. */
  predicate DeclaresProductCounts(q: seq<string>, ep: seq<string>, logs: seq<string>, pc: seq<string>)
  {
    2 + |ep| + |logs| < |q|
    && q[2 + |ep| + |logs|] == "), PRODUCT_COUNTS AS ("
    && SectionAt(q, 3 + |ep| + |logs|, pc)
  }

  /** `q` ends with the lines `tail`. */
  predicate Closes(q: seq<string>, tail: seq<string>)
  {
    |tail| <= |q| && q[|q| - |tail|..] == tail
  }

  /** A query that ends with a tail whose last line ends in ";" ends in ";". */
  lemma ClosedBySemicolon(q: seq<string>, tail: seq<string>)
    requires Closes(q, tail) && |tail| >= 1 && EndsWith(tail[|tail| - 1], ";")
    ensures EndsWith(q[|q| - 1], ";")
  {
    assert q[|q| - 1] == q[|q| - |tail|..][|tail| - 1];
  }

  /** The last line of every final select ends the statement. */
  lemma TailsEndStatement()
    ensures EndsWith(CountTail[|CountTail| - 1], ";") && EndsWith(ByProductTail[|ByProductTail| - 1], ";")
    ensures EndsWith(TimeseriesTail[|TimeseriesTail| - 1], ";")
    ensures EndsWith(LocalAuthorityTail[|LocalAuthorityTail| - 1], ";")
    ensures EndsWith(ConstituencyTail[|ConstituencyTail| - 1], ";")
  {
  }

  /** A composite query: the WITH clause over `ep` and `logs`, the product-count CTE when there is
      one, and the final select `tail`. */
  function Query(ep: seq<string>, logs: seq<string>, pc: Option<seq<string>>, tail: seq<string>): (q: seq<string>)
    ensures Opens(q, ep, logs)
    ensures pc.Some? ==> DeclaresProductCounts(q, ep, logs, pc.value)
    ensures Closes(q, tail)
  {
    var more := if pc.Some? then ["), PRODUCT_COUNTS AS ("] + Section(pc.value) else [];
    ["WITH ELECTION_PERIOD AS ("] + Section(ep) + ["), LOGS AS ("] + Section(logs) + more + tail
  }

  /** The failure a composite template raises, or its lines: the CTEs are built in the order
      the template builds them (the logs CTE first when `logsFirst`, else the election-period
      CTE first), so the first CTE that fails decides the exception. */
  function Assemble(ep: Result<seq<string>>, logs: Result<seq<string>>, logsFirst: bool,
                    pc: Option<seq<string>>, tail: seq<string>): (r: Result<seq<string>>)
    ensures r.Err? <==> ep.Err? || logs.Err?
    ensures r.Err? ==> r.error == (if logs.Err? && (logsFirst || ep.Ok?) then logs.error else ep.error)
    ensures r.Ok? ==> Opens(r.value, ep.value, logs.value)
    ensures r.Ok? && pc.Some? ==> DeclaresProductCounts(r.value, ep.value, logs.value, pc.value)
    ensures r.Ok? ==> Closes(r.value, tail)
  {
    if logsFirst && logs.Err? then Err(logs.error)
    else if ep.Err? then Err(ep.error)
    else if logs.Err? then Err(logs.error)
    else Ok(Query(ep.value, logs.value, pc, tail))
  }

  /** The lines of `logs_cte` around its select, its source and its four timestamps. */
  function LogsLines(select: string, from: string, utcStart: string, utcClose: string,
                     londonStart: string, londonClose: string): (ls: seq<string>)
    ensures |ls| == 11 && ls[0] == select && ls[1] == from && ls[5..7] == OtherProducts && ls[9..] == WdivOnly
    ensures ls[3] == TimestampFrom + utcStart + AsTimestamp && ls[4] == TimestampTo + utcClose + AsTimestamp
    ensures ls[7] == TimestampFrom + londonStart + AsTimestamp && ls[8] == TimestampTo + londonClose + AsTimestamp
  {
    [select, from, "WHERE (", TimestampFrom + utcStart + AsTimestamp, TimestampTo + utcClose + AsTimestamp]
    + OtherProducts
    + [TimestampFrom + londonStart + AsTimestamp, TimestampTo + londonClose + AsTimestamp]
    + WdivOnly
  }

  lemma LogsLinesSelect(select: string, extra: string, from: string, utcStart: string, utcClose: string,
                        londonStart: string, londonClose: string)
    ensures var plain := LogsLines(select, from, utcStart, utcClose, londonStart, londonClose);
      LogsLines(select + extra, from, utcStart, utcClose, londonStart, londonClose) == [plain[0] + extra] + plain[1..]
  {
  }

  /** One of the four selects of `product_count_cte`: its opening keyword, what it selects, the
      logs CTE it reads, the joins and the filter, and its grouping. */
  function ProductSelect(keyword: string, select: string, name: string, join: seq<string>,
                         filter: seq<string>, groupBy: string, extra: string): (ls: seq<string>)
    ensures |ls| == 4 + |join| + |filter|
    ensures ls[0] == keyword && ls[1] == select + extra && ls[2] == FromPrefix + name
    ensures ls[3..3 + |join|] == join && ls[|ls| - 1] == groupBy + extra
  {
    var ls := [keyword, select + extra, FromPrefix + name] + join + filter + [groupBy + extra];
    assert ls[3..3 + |join|] == join;
    ls
  }

  lemma ProductSelectExtra(keyword: string, select: string, name: string, join: seq<string>,
                           filter: seq<string>, groupBy: string, extra: string)
    ensures var a, b := ProductSelect(keyword, select, name, join, filter, groupBy, ""),
                        ProductSelect(keyword, select, name, join, filter, groupBy, extra);
      |a| == |b| && forall i :: 0 <= i < |a| ==> b[i] == a[i] + (if i == 1 || i == |a| - 1 then extra else "")
  {
    var a := ProductSelect(keyword, select, name, join, filter, groupBy, "");
    var b := ProductSelect(keyword, select, name, join, filter, groupBy, extra);
    forall i | 0 <= i < |a| ensures b[i] == a[i] + (if i == 1 || i == |a| - 1 then extra else "") {
      if i != 1 && i != |a| - 1 { assert a[i] + "" == a[i]; }
    }
  }

  const WdivFilter := ["    WHERE dc_product = 'WDIV'"]
  const WcivfFilter := ["    WHERE dc_product = 'WCIVF'"]
  const EcApiFilter := ["    WHERE dc_product = 'EC_API'"]

  /** The four selects of the product-count CTE over the logs CTE `name`, with `extra` after
      each select list and each grouping. */
  function ProductCounts(name: string, extra: string): (ls: seq<string>)
    ensures |ls| == 26
    ensures ls[2] == ls[7] == ls[12] == ls[18] == FromPrefix + name
    ensures ls[13] == JoinEcApiUsers + name + KeyMatch && ls[19] == JoinAggregatorUsers + name + KeyMatch
  {
    ProductSelect("SELECT", CountNoUser, name, [], WdivFilter, GroupByKey, extra)
    + ProductSelect("UNION SELECT", CountNoUser, name, [], WcivfFilter, GroupByKey, extra)
    + ProductSelect("UNION SELECT", CountPerUser, name, [JoinEcApiUsers + name + KeyMatch], EcApiFilter, GroupByUser, extra)
    + ProductSelect("UNION SELECT", CountPerUser, name, [JoinAggregatorUsers + name + KeyMatch], AggregatorFilter, GroupByUser, extra)
  }

  lemma ProductCountsExtra(name: string, extra: string)
    ensures forall i :: 0 <= i < 26 ==>
      ProductCounts(name, extra)[i] == ProductCounts(name, "")[i] + (if i in SelectLines + GroupByLines then extra else "")
  {
    ProductSelectExtra("SELECT", CountNoUser, name, [], WdivFilter, GroupByKey, extra);
    ProductSelectExtra("UNION SELECT", CountNoUser, name, [], WcivfFilter, GroupByKey, extra);
    ProductSelectExtra("UNION SELECT", CountPerUser, name, [JoinEcApiUsers + name + KeyMatch], EcApiFilter, GroupByUser, extra);
    ProductSelectExtra("UNION SELECT", CountPerUser, name, [JoinAggregatorUsers + name + KeyMatch], AggregatorFilter, GroupByUser, extra);
  }

  const CountTail := [")", "SELECT", "    count(*) as count", "FROM", "    LOGS;"]
  const ByProductTail := [")", "SELECT *", "FROM", "    PRODUCT_COUNTS", "ORDER BY count DESC;"]
  const TimeseriesTail := [
    ")",
    "SELECT hour_segment, count, dc_product, key_name, email, utm_source",
    "FROM",
    "    PRODUCT_COUNTS",
    "ORDER BY hour_segment, dc_product,key_name, email, utm_source;"]
  const LocalAuthorityTail := [
    ")",
    "SELECT",
    "    oslaua as gss, count(*) as postcode_searches",
    "FROM",
    "    LOGS JOIN \"pollingstations.public.data\".\"onspd-2024-feb\"",
    "        ON upper(replace(replace(\"postcode\",' ', '' ),'+','')) = upper(replace( \"pcds\",' ', ''))",
    "GROUP BY oslaua",
    "ORDER BY postcode_searches DESC;"]
  const ConstituencyTail := [
    ")",
    "SELECT",
    "    c.name,",
    "    c.official_identifier,",
    "    count(*) as postcode_searches",
    "FROM",
    "    LOGS",
    "    JOIN \"ee.public.data\".\"postcode-to-2024-parl-constituency\" c",
    "        ON upper(replace(replace(LOGS.\"postcode\",' ', '' ),'+','')) = upper(replace(c.pcds,' ', ''))",
    "GROUP BY c.name, c.official_identifier",
    "ORDER BY postcode_searches DESC;"]

  /** `QueryTemplate(polling_day, start_of_election_period)`. */
  datatype QueryTemplate = QueryTemplate(pollingDay: Date, startOfElectionPeriod: Date)
  {
    predicate Valid()
    {
      InRange(pollingDay) && InRange(startOfElectionPeriod)
    }

    /** `close_of_polls`: 22:00 London time on polling day. */
    function CloseOfPolls(): (t: DateTime)
      requires Valid()
      ensures ValidDateTime(t) && t.tz == Some(London) && !t.fold
      ensures t.date == pollingDay && t.hour == 22 && t.minute == 0 && t.second == 0 && t.microsecond == 0
    {
      Combine(pollingDay, 22, 0, London)
    }

    /** `start_of_polling_week`: 00:00 London time three days before polling day, which is the
        Monday of a Thursday poll; OverflowError when that day is before 0001-01-01. */
    function StartOfPollingWeek(): (r: Result<DateTime>)
      requires Valid()
      ensures r.Ok? <==> Ordinal(pollingDay) > 3
      ensures r.Err? ==> r.error == DateOutOfRange
      ensures r.Ok? ==> (ValidDateTime(r.value) && r.value.tz == Some(London) && !r.value.fold
        && r.value.hour == 0 && r.value.minute == 0 && r.value.second == 0 && r.value.microsecond == 0
        && Ordinal(r.value.date) == Ordinal(pollingDay) - 3)
      ensures r.Ok? && Weekday(pollingDay) == Thursday ==> Weekday(r.value.date) == Monday
    {
      var monday :- MinusDays(pollingDay, 3);
      ThursdayBackThree(pollingDay);
      Ok(Combine(monday, 0, 0, London))
    }

    /** `election_period_cte(exclude_calls_devs_dc_api)`: the search-table rows from the day
        before the election period starts up to polling day (partition days as YYYY/MM/DD),
        without the monitoring traffic, and without developer API calls when asked. The day
        before 0001-01-01 does not exist, so that start is an OverflowError. */
    function ElectionPeriodCte(exclude: bool := true): (r: Result<seq<string>>)
      requires Valid()
      ensures r.Err? <==> startOfElectionPeriod == Date(MinYear, 1, 1)
      ensures r.Err? ==> r.error == DateOutOfRange
      ensures r.Ok? ==> var ls := r.value;
        |ls| == (if exclude then 11 else 10)
        && ls[..2] == [SelectAll, SearchesTable]
        && ls[2] == DayFrom + SlashDate(PrevDay(startOfElectionPeriod)) + "' "
        && ls[3] == DayTo + SlashDate(pollingDay) + "'"
        && ls[4..10] == MonitoringFilter
        && (exclude ==> ls[10] == ExclusionLine)
    {
      MinusOneDay(startOfElectionPeriod);
      var startDate :- MinusDays(startOfElectionPeriod, 1);
      var lines := [SelectAll, SearchesTable, DayFrom + SlashDate(startDate) + "' ", DayTo + SlashDate(pollingDay) + "'"]
        + MonitoringFilter;
      if exclude then Ok(lines + [ExclusionLine]) else Ok(lines)
    }

    /** Leaving developer API calls in drops exactly the last condition. */
    lemma ElectionPeriodExclusion()
      requires Valid() && startOfElectionPeriod != Date(MinYear, 1, 1)
      ensures ElectionPeriodCte(true).Ok? && ElectionPeriodCte(false).Ok?
      ensures ElectionPeriodCte(true).value == ElectionPeriodCte(false).value + [ExclusionLine]
    {
      MinusOneDay(startOfElectionPeriod);
    }

    /** `logs_cte(start_time, from_source, timeseries)`: rows of `from_source` between
        `start_time` and the close of polls. Rows from products other than WhereDoIVote are
        bounded by the UTC readings of the two instants, WhereDoIVote rows by their London
        readings; the timeseries form also selects the hour of each row. A naive `start_time`
        is refused. */
    function LogsCte(startTime: DateTime, fromSource: string := "ELECTION_PERIOD", timeseries: bool := false): (r: Result<seq<string>>)
      requires Valid() && ValidDateTime(startTime)
      ensures r.Err? <==> startTime.tz.None?
      ensures r.Err? ==> r.error == NaiveDateTime
      ensures r.Ok? ==> r.value == LogsLines(SelectAll + (if timeseries then HourSegmentSelect else ""), "FROM " + fromSource,
        AthenaMinute(AsTimeZone(startTime, Utc)), AthenaMinute(AsTimeZone(CloseOfPolls(), Utc)),
        AthenaMinute(AsTimeZone(startTime, London)), AthenaMinute(AsTimeZone(CloseOfPolls(), London)))
    {
      var extraSelect := if timeseries then HourSegmentSelect else "";
      var utcStart :- UtcAthenaTime(startTime);
      // Once the start time has a zone, the three other readings all have one too.
      Ok(LogsLines(SelectAll + extraSelect, "FROM " + fromSource, utcStart, UtcAthenaTime(CloseOfPolls()).value,
                   LondonAthenaTime(startTime).value, LondonAthenaTime(CloseOfPolls()).value))
    }

    /** The timeseries form of the logs CTE differs from the plain one only in the hour added
        to its select line. */
    lemma LogsCteTimeseries(startTime: DateTime, fromSource: string)
      requires Valid() && ValidDateTime(startTime) && startTime.tz.Some?
      ensures LogsCte(startTime, fromSource, true).Ok? && LogsCte(startTime, fromSource, false).Ok?
      ensures var plain := LogsCte(startTime, fromSource, false).value;
        LogsCte(startTime, fromSource, true).value == [plain[0] + HourSegmentSelect] + plain[1..]
    {
      var a, b := UtcAthenaTime(startTime).value, UtcAthenaTime(CloseOfPolls()).value;
      var c, d := LondonAthenaTime(startTime).value, LondonAthenaTime(CloseOfPolls()).value;
      assert LogsCte(startTime, fromSource, false).value == LogsLines(SelectAll + "", "FROM " + fromSource, a, b, c, d);
      assert LogsCte(startTime, fromSource, true).value == LogsLines(SelectAll + HourSegmentSelect, "FROM " + fromSource, a, b, c, d);
      LogsLinesSelect(SelectAll + "", HourSegmentSelect, "FROM " + fromSource, a, b, c, d);
      assert SelectAll + "" + HourSegmentSelect == SelectAll + HourSegmentSelect;
    }

    /** `product_count_cte(logs_cte_name, timeseries)`: search counts per product from the
        named logs CTE, per API user for the two APIs (leaving out the internal aggregator
        keys); the timeseries form adds the hour to each select and each grouping. */
    function ProductCountCte(name: string := "LOGS", timeseries: bool := false): (ls: seq<string>)
      ensures |ls| == 26
      ensures ls[2] == ls[7] == ls[12] == ls[18] == FromPrefix + name
      ensures ls[13] == JoinEcApiUsers + name + KeyMatch && ls[19] == JoinAggregatorUsers + name + KeyMatch
    {
      ProductCounts(name, if timeseries then HourSegment else "")
    }

    /** The timeseries form differs from the plain one only in the hour added at the end of the
        four select lines and the four grouping lines. */
    lemma ProductCountTimeseries(name: string)
      ensures forall i :: 0 <= i < 26 ==>
        ProductCountCte(name, true)[i] == ProductCountCte(name, false)[i] + (if i in SelectLines + GroupByLines then HourSegment else "")
    {
      ProductCountsExtra(name, HourSegment);
    }

    /** `postcode_search_count(start_time)`: how many searches the logs CTE keeps. The logs CTE
        is built first, so a naive `start_time` is reported before an unrepresentable start
        of the election period. */
    function PostcodeSearchCount(startTime: DateTime): (r: Result<seq<string>>)
      requires Valid() && ValidDateTime(startTime)
      ensures r.Err? <==> startTime.tz.None? || startOfElectionPeriod == Date(MinYear, 1, 1)
      ensures r.Err? ==> r.error == (if startTime.tz.None? then NaiveDateTime else DateOutOfRange)
    {
      Assemble(ElectionPeriodCte(), LogsCte(startTime), true, None, CountTail)
    }

    /** The count query opens with the election-period CTE (developer API calls excluded) and the
        logs CTE over it, and ends by counting the logs rows. */
    lemma PostcodeSearchCountLines(startTime: DateTime)
      requires Valid() && ValidDateTime(startTime) && startTime.tz.Some?
      requires startOfElectionPeriod != Date(MinYear, 1, 1)
      ensures PostcodeSearchCount(startTime).Ok?
      ensures Opens(PostcodeSearchCount(startTime).value, ElectionPeriodCte().value, LogsCte(startTime).value)
      ensures var q := PostcodeSearchCount(startTime).value; Closes(q, CountTail) && EndsWith(q[|q| - 1], ";")
    {
      TailsEndStatement();
      ClosedBySemicolon(PostcodeSearchCount(startTime).value, CountTail);
    }

    /** `postcode_searches_by_product(start_time)`: the product counts over the logs CTE, which
        here reads the election period with developer API calls included; largest count first.
        The election-period CTE is built first. */
    function PostcodeSearchesByProduct(startTime: DateTime): (r: Result<seq<string>>)
      requires Valid() && ValidDateTime(startTime)
      ensures r.Err? <==> startTime.tz.None? || startOfElectionPeriod == Date(MinYear, 1, 1)
      ensures r.Err? ==> r.error == (if startOfElectionPeriod == Date(MinYear, 1, 1) then DateOutOfRange else NaiveDateTime)
    {
      Assemble(ElectionPeriodCte(false), LogsCte(startTime), false, Some(ProductCountCte()), ByProductTail)
    }

    lemma PostcodeSearchesByProductLines(startTime: DateTime)
      requires Valid() && ValidDateTime(startTime) && startTime.tz.Some?
      requires startOfElectionPeriod != Date(MinYear, 1, 1)
      ensures PostcodeSearchesByProduct(startTime).Ok?
      ensures var q := PostcodeSearchesByProduct(startTime).value;
        var ep, logs := ElectionPeriodCte(false).value, LogsCte(startTime).value;
        Opens(q, ep, logs) && DeclaresProductCounts(q, ep, logs, ProductCountCte())
        && Closes(q, ByProductTail) && EndsWith(q[|q| - 1], ";")
    {
      TailsEndStatement();
      ClosedBySemicolon(PostcodeSearchesByProduct(startTime).value, ByProductTail);
    }

    /** `postcode_timeseries_by_product(start_time)`: as `postcode_searches_by_product`, with the
        timeseries forms of the logs and product-count CTEs, ordered by hour. */
    function PostcodeTimeseriesByProduct(startTime: DateTime): (r: Result<seq<string>>)
      requires Valid() && ValidDateTime(startTime)
      ensures r.Err? <==> startTime.tz.None? || startOfElectionPeriod == Date(MinYear, 1, 1)
      ensures r.Err? ==> r.error == (if startOfElectionPeriod == Date(MinYear, 1, 1) then DateOutOfRange else NaiveDateTime)
    {
      Assemble(ElectionPeriodCte(false), LogsCte(startTime, timeseries := true), false,
               Some(ProductCountCte(timeseries := true)), TimeseriesTail)
    }

    lemma PostcodeTimeseriesByProductLines(startTime: DateTime)
      requires Valid() && ValidDateTime(startTime) && startTime.tz.Some?
      requires startOfElectionPeriod != Date(MinYear, 1, 1)
      ensures PostcodeTimeseriesByProduct(startTime).Ok?
      ensures var q := PostcodeTimeseriesByProduct(startTime).value;
        var ep, logs := ElectionPeriodCte(false).value, LogsCte(startTime, timeseries := true).value;
        Opens(q, ep, logs) && DeclaresProductCounts(q, ep, logs, ProductCountCte(timeseries := true))
        && Closes(q, TimeseriesTail) && EndsWith(q[|q| - 1], ";")
    {
      TailsEndStatement();
      ClosedBySemicolon(PostcodeTimeseriesByProduct(startTime).value, TimeseriesTail);
    }

    /** `postcode_searches_by_local_authority(start_time)`: searches per local authority, by
        joining each search's postcode to the postcode directory. The election-period CTE is built
        first, so an unrepresentable start of the election period is reported before a naive
        `start_time`. */
    function PostcodeSearchesByLocalAuthority(startTime: DateTime): (r: Result<seq<string>>)
      requires Valid() && ValidDateTime(startTime)
      ensures r.Err? <==> startTime.tz.None? || startOfElectionPeriod == Date(MinYear, 1, 1)
      ensures r.Err? ==> r.error == (if startOfElectionPeriod == Date(MinYear, 1, 1) then DateOutOfRange else NaiveDateTime)
    {
      Assemble(ElectionPeriodCte(), LogsCte(startTime), false, None, LocalAuthorityTail)
    }

    lemma PostcodeSearchesByLocalAuthorityLines(startTime: DateTime)
      requires Valid() && ValidDateTime(startTime) && startTime.tz.Some?
      requires startOfElectionPeriod != Date(MinYear, 1, 1)
      ensures PostcodeSearchesByLocalAuthority(startTime).Ok?
      ensures Opens(PostcodeSearchesByLocalAuthority(startTime).value, ElectionPeriodCte().value, LogsCte(startTime).value)
      ensures var q := PostcodeSearchesByLocalAuthority(startTime).value; Closes(q, LocalAuthorityTail) && EndsWith(q[|q| - 1], ";")
    {
      TailsEndStatement();
      ClosedBySemicolon(PostcodeSearchesByLocalAuthority(startTime).value, LocalAuthorityTail);
    }

    /** `postcode_searches_by_constituency(start_time)`: searches per parliamentary
        constituency. The election-period CTE is built first, as for the local authorities. */
    function PostcodeSearchesByConstituency(startTime: DateTime): (r: Result<seq<string>>)
      requires Valid() && ValidDateTime(startTime)
      ensures r.Err? <==> startTime.tz.None? || startOfElectionPeriod == Date(MinYear, 1, 1)
      ensures r.Err? ==> r.error == (if startOfElectionPeriod == Date(MinYear, 1, 1) then DateOutOfRange else NaiveDateTime)
    {
      Assemble(ElectionPeriodCte(), LogsCte(startTime), false, None, ConstituencyTail)
    }

    lemma PostcodeSearchesByConstituencyLines(startTime: DateTime)
      requires Valid() && ValidDateTime(startTime) && startTime.tz.Some?
      requires startOfElectionPeriod != Date(MinYear, 1, 1)
      ensures PostcodeSearchesByConstituency(startTime).Ok?
      ensures Opens(PostcodeSearchesByConstituency(startTime).value, ElectionPeriodCte().value, LogsCte(startTime).value)
      ensures var q := PostcodeSearchesByConstituency(startTime).value; Closes(q, ConstituencyTail) && EndsWith(q[|q| - 1], ";")
    {
      TailsEndStatement();
      ClosedBySemicolon(PostcodeSearchesByConstituency(startTime).value, ConstituencyTail);
    }
  }
}

# dc_logging core, modelled in Dafny

This project models the core of DemocracyClub's `dc_logging` in Dafny. It covers four parts.

**The Athena query templates** (`dc_logging_aws/named_queries/query_template.py`):
- the conversion of a timezone-aware `datetime` to the `"YYYY-MM-DD HH:MM"` string Athena compares against;
- `indent_cte_string`;
- `QueryTemplate`, with its close of polls, its start of polling week and its three common table expressions (election period, logs, product counts);
- the five composite queries built from those expressions.

**The reporting-period lambda** (`dc_logging_aws/lambdas/calculate_reporting_period_dates/handler.py`): the event is parsed into a polling day and an optional election-period start, and the handler returns the ten date and time strings the reports use.

**The log entries** (`dc_logging_client/log_entries.py`):
- the `DCProduct` enum and the product check every entry runs after its dataclass `__init__`;
- the `datetime` attribute a postcode entry without a timestamp gains;
- `as_log_line`, the sorted-key JSON of the instance attributes.

**The legacy import** (`dc_logging_legacy_import/main.py`): `hourly_batches` cuts the timestamp-ordered rows into batches, and `serialize_to_file` turns a batch into one object key and its data.

## Modules

| module | file |
|---|---|
| `Wrappers` | `wrappers.dfy`: `Option` and `Result`, and the raised exceptions as `PyError` values |
| `Text` | `text.dfy`: `split("\n")` and `"\n".join`, `textwrap.indent`, fixed-width digits, and Python's code-point string order |
| `Calendar` | `calendar.dfy` |
| `LondonTime` | `london.dfy`: the UK summer-time rule behind `ZoneInfo("Europe/London")`, and `astimezone` between London and UTC |
| `QueryTemplates` | `query_template.dfy` |
| `QueryExamples` | `query_examples.dfy`: the fixtures and expected strings of the query-template tests, proved |
| `ReportingDates` | `reporting_dates.dfy` |
| `Json` | `json.dfy`: `json.dumps(d, sort_keys=True, default=str)` for flat dictionaries |
| `LogEntries` | `log_entries.dfy` |
| `LegacyImport` | `legacy_import.dfy` |

`Calendar` models the proleptic Gregorian dates of Python's `date`:
- ordinals, weekdays, and the `OverflowError` of `date - timedelta` below year 1;
- `datetime.combine`;
- the `strftime` fields used;
- `strptime(s, "%Y-%m-%d")`.

How the model is built:
- Exceptions are the `Err` case of a `Result`, with the exception's message.
- A query template is modelled as the list of its lines after `textwrap.dedent(...).strip()`; its text is those lines joined by newlines.
- The log-entry classes are Dafny classes whose `PostInit` methods change the fields as `__post_init__` does.
- The batching and serialising loops are methods with loop invariants.
- Each loop method is proved against a specification function, and the properties the source promises are proved about those functions.

## Model

| member | source | states |
|---|---|---|
| Text.JoinSplit | dc_logging_aws/named_queries/query_template.py:37-41 | joining the pieces of `split("\n")` with newlines gives the text back |
| Text.SplitJoin | dc_logging_aws/named_queries/query_template.py:37-41 | splitting lines that hold no newline, once joined, gives the lines back |
| Text.StrLessTotal | dc_logging_client/log_entries.py:25 | the code-point order of `sort_keys` is total: two strings are equal or one is below the other |
| Text.StrLessTransitive | dc_logging_client/log_entries.py:25 | the key order is transitive |
| Text.StrLessAsymmetric | dc_logging_client/log_entries.py:25 | no two keys are each below the other |
| Text.FixedDigitsValue | dc_logging_aws/lambdas/calculate_reporting_period_dates/handler.py:76 | reading back a zero-padded `strftime` field gives the number it printed |
| Calendar.MinusDays | dc_logging_aws/named_queries/query_template.py:63 | `d - timedelta(days=n)` is the date `n` ordinals earlier; it raises OverflowError exactly when that falls before 0001-01-01 |
| Calendar.MinusOneDay | dc_logging_aws/named_queries/query_template.py:69 | the day before succeeds for every date but 0001-01-01, and it is the previous calendar day |
| Calendar.WeekdayOfMinusDays | dc_logging_aws/lambdas/calculate_reporting_period_dates/handler.py:91-92 | going back `n` days moves `weekday()` back by `n` modulo 7 |
| Calendar.BackToMonday | dc_logging_aws/named_queries/query_template.py:61-66 | going back from a day by the days that separate its weekday from Monday lands on a Monday |
| Calendar.ThursdayBackThree | dc_logging_aws/named_queries/query_template.py:61-66 | three days before a Thursday is a Monday |
| Calendar.Combine | dc_logging_aws/named_queries/query_template.py:56-59 | `datetime.combine(d, time(h, m, tzinfo=zone))` is a valid aware reading of `d` at `h:m`, with fold 0 |
| Calendar.StrptimeDate | dc_logging_aws/lambdas/calculate_reporting_period_dates/handler.py:76 | whatever `strptime(s, "%Y-%m-%d")` accepts is a date in Python's range |
| Calendar.StrptimeFormatRoundTrip | dc_logging_aws/lambdas/calculate_reporting_period_dates/handler.py:76 | parsing what `strftime("%Y-%m-%d")` printed gives the date back |
| Calendar.AthenaMinute | dc_logging_aws/named_queries/query_template.py:30 | `strftime("%Y-%m-%d %H:%M")` is 16 characters |
| Calendar.HourPath | dc_logging_legacy_import/main.py:56 | `strftime("%Y/%m/%d/%H")` is 13 characters |
| LondonTime.LastSunday | dc_logging_aws/named_queries/query_template.py:27 | the last Sunday of March or October, where the UK clock changes: a Sunday of that month, with no later Sunday in it |
| LondonTime.Offset | dc_logging_aws/named_queries/query_template.py:27 | a zone's UTC offset is 0 or 60 minutes, and always 0 for UTC |
| LondonTime.ToUtc | dc_logging_aws/named_queries/query_template.py:27 | the UTC reading of an aware datetime is the same instant |
| LondonTime.LondonFromUtc | dc_logging_aws/named_queries/query_template.py:27 | London's wall clock is UTC plus an hour exactly while summer time is in force |
| LondonTime.AsTimeZone | dc_logging_aws/named_queries/query_template.py:27 | `astimezone(z)` keeps the instant and attaches `z` |
| LondonTime.LondonUtcRoundTrip | dc_logging_aws/named_queries/query_template.py:27 | a London reading that exists on the wall clock survives a trip through UTC |
| LondonTime.SummerBackFromUtc | dc_logging_aws/named_queries/query_template.py:27 | a summer-time London reading maps to a summer-time UTC instant in the same year and back to the same wall-clock minute, with fold 0 |
| LondonTime.WinterBackFromUtc | dc_logging_aws/named_queries/query_template.py:27 | an existing winter-time London reading has the same wall clock in UTC, outside summer time, and comes back unchanged |
| LondonTime.UtcLondonRoundTrip | dc_logging_aws/named_queries/query_template.py:27 | a UTC reading survives a trip through London |
| LondonTime.MidnightOffset | dc_logging_aws/named_queries/query_template.py:64-66 | midnight in London is summer time exactly on the days after the last Sunday of March up to the last Sunday of October |
| LondonTime.TenPmOffset | dc_logging_aws/named_queries/query_template.py:56-59 | 22:00 in London is summer time exactly from the last Sunday of March up to the day before the last Sunday of October |
| LondonTime.WholeHoursExist | dc_logging_aws/named_queries/query_template.py:56-59 | midnight and 22:00 are never skipped by a clock change |
| LondonTime.ToUtcShift | dc_logging_aws/named_queries/query_template.py:27 | converting London to UTC moves the wall clock back one hour in summer, across midnight when needed, and not at all in winter |
| QueryTemplates.AthenaDateTimeString | dc_logging_aws/named_queries/query_template.py:7-30 | a naive datetime raises the ValueError; otherwise the result is the 16-character, single-line wall clock of the same instant in the target zone, and the reading itself when already in that zone |
| QueryTemplates.UtcAthenaTimeOfLondon | dc_logging_aws/named_queries/query_template.py:44-45 | the UTC string of a London reading is that reading an hour earlier in summer, and unchanged in winter |
| QueryTemplates.IndentCte | dc_logging_aws/named_queries/query_template.py:33-41 | the lines of the result are those of the input, the first unchanged and every other one behind `n` spaces; single-line text is unchanged |
| QueryTemplates.IndentCteOfLines | dc_logging_aws/named_queries/query_template.py:33-41 | indenting the text of a line list gives the first line, then the others each behind `n` spaces |
| QueryTemplates.TextIndentAll | dc_logging_aws/named_queries/query_template.py:121 | `textwrap.indent` prefixes every line when none is blank and none holds a line break |
| QueryTemplates.ShiftedLines | dc_logging_aws/named_queries/query_template.py:114-117 | indenting a common table expression (CTE) by 12 yields single-line, non-blank lines |
| QueryTemplates.SlotMargin | dc_logging_aws/named_queries/query_template.py:118-130 | the first line of a CTE lands four columns in; the 12 extra spaces on every later line cancel the template's own 12-column margin, which `dedent` removes (for CTE lines that hold no line break) |
| QueryTemplates.Query | dc_logging_aws/named_queries/query_template.py:118-130 | a composite opens with `WITH ELECTION_PERIOD AS (` and the election-period CTE, then `), LOGS AS (` and the logs CTE, then the product-count CTE when there is one, and ends with its final select |
| QueryTemplates.Assemble | dc_logging_aws/named_queries/query_template.py:169-194 | a composite fails exactly when one of its CTEs does; the error comes from the CTE computed first; a composite that succeeds opens with its CTEs and ends with its final select |
| QueryTemplates.LogsLines | dc_logging_aws/named_queries/query_template.py:97-111 | the logs CTE has 11 lines: UTC bounds for every product but WDIV, London bounds for WDIV |
| QueryTemplates.LogsLinesSelect | dc_logging_aws/named_queries/query_template.py:92-99 | an extra select fragment changes only the first line |
| QueryTemplates.ProductSelect | dc_logging_aws/named_queries/query_template.py:140-165 | one branch of the product-count union: keyword, select list, `FROM` the logs CTE, optional join, filter, `GROUP BY` |
| QueryTemplates.ProductSelectExtra | dc_logging_aws/named_queries/query_template.py:133-137 | the timeseries fragment is appended to the select line and the `GROUP BY` line of a branch, and nowhere else |
| QueryTemplates.ProductCounts | dc_logging_aws/named_queries/query_template.py:138-167 | 26 lines; all four branches read from the named CTE, and the EC API and aggregator branches join their user tables on its `api_key` |
| QueryTemplates.ProductCountsExtra | dc_logging_aws/named_queries/query_template.py:133-167 | with the fragment, exactly the four select lines and the four `GROUP BY` lines gain it |
| QueryTemplates.QueryTemplate.CloseOfPolls | dc_logging_aws/named_queries/query_template.py:56-59 | 22:00 London time on polling day |
| QueryTemplates.QueryTemplate.StartOfPollingWeek | dc_logging_aws/named_queries/query_template.py:61-66 | midnight London time three days before polling day, the Monday when polling day is a Thursday; OverflowError when that falls before year 1 |
| QueryTemplates.QueryTemplate.ElectionPeriodCte | dc_logging_aws/named_queries/query_template.py:68-87 | the `day` range runs from the day before the period starts up to polling day, behind the monitoring filter, with the `calls_devs_dc_api` line only when excluding; OverflowError for a period starting on 0001-01-01 |
| QueryTemplates.QueryTemplate.ElectionPeriodExclusion | dc_logging_aws/named_queries/query_template.py:85-87 | excluding adds exactly one line at the end |
| QueryTemplates.QueryTemplate.LogsCte | dc_logging_aws/named_queries/query_template.py:89-111 | a naive start raises the ValueError; otherwise the CTE bounds the UTC-partitioned products by the start time and the close of polls in UTC, and WDIV by the same two instants on the London clock |
| QueryTemplates.QueryTemplate.LogsCteTimeseries | dc_logging_aws/named_queries/query_template.py:92-96 | the timeseries variant differs only by the `hour_segment` column on the first line |
| QueryTemplates.QueryTemplate.ProductCountCte | dc_logging_aws/named_queries/query_template.py:132-167 | 26 lines reading from the named logs CTE, joined to the user tables on its `api_key` |
| QueryTemplates.QueryTemplate.ProductCountTimeseries | dc_logging_aws/named_queries/query_template.py:133-137 | the timeseries variant adds `, hour_segment` to exactly the select and `GROUP BY` lines |
| QueryTemplates.QueryTemplate.PostcodeSearchCount | dc_logging_aws/named_queries/query_template.py:113-130 | fails exactly for a naive start time (ValueError, raised first) or a period starting on 0001-01-01 (OverflowError) |
| QueryTemplates.QueryTemplate.PostcodeSearchCountLines | dc_logging_aws/named_queries/query_template.py:118-124 | otherwise it opens with the excluding election-period CTE and the logs CTE; it ends with its final select, whose last line closes the statement with `;` |
| QueryTemplates.QueryTemplate.PostcodeSearchesByProduct | dc_logging_aws/named_queries/query_template.py:169-194 | the same failures, with the election-period error raised first |
| QueryTemplates.QueryTemplate.PostcodeSearchesByProductLines | dc_logging_aws/named_queries/query_template.py:180-188 | otherwise it opens with the non-excluding election-period CTE and the logs CTE, then the product-count CTE; it ends with its final select, whose last line closes the statement with `;` |
| QueryTemplates.QueryTemplate.PostcodeTimeseriesByProduct | dc_logging_aws/named_queries/query_template.py:196-221 | the same failures, with the election-period error raised first |
| QueryTemplates.QueryTemplate.PostcodeTimeseriesByProductLines | dc_logging_aws/named_queries/query_template.py:196-221 | otherwise it opens with the non-excluding election-period CTE, the timeseries logs CTE and the timeseries product-count CTE; it ends with its final select, whose last line closes the statement with `;` |
| QueryTemplates.QueryTemplate.PostcodeSearchesByLocalAuthority | dc_logging_aws/named_queries/query_template.py:223-243 | fails exactly for a naive start time (ValueError) or a period starting on 0001-01-01 (OverflowError); the election-period CTE is built first, so its OverflowError wins when both apply |
| QueryTemplates.QueryTemplate.PostcodeSearchesByLocalAuthorityLines | dc_logging_aws/named_queries/query_template.py:223-243 | otherwise it opens with the excluding election-period CTE and the logs CTE; it ends with its final select, whose last line closes the statement with `;` |
| QueryTemplates.QueryTemplate.PostcodeSearchesByConstituency | dc_logging_aws/named_queries/query_template.py:245-268 | fails exactly for a naive start time (ValueError) or a period starting on 0001-01-01 (OverflowError); the election-period CTE is built first, so its OverflowError wins when both apply |
| QueryTemplates.QueryTemplate.PostcodeSearchesByConstituencyLines | dc_logging_aws/named_queries/query_template.py:245-268 | otherwise it opens with the excluding election-period CTE and the logs CTE; it ends with its final select, whose last line closes the statement with `;` |
| QueryExamples.LastSundays2024 | dc_logging_aws/named_queries/tests/test_query_templates.py:14-21 | the 2024 clock changes fall on 31 March and 27 October |
| QueryExamples.Summer2024 | dc_logging_aws/named_queries/tests/test_query_templates.py:14-21 | the May 2024 fixture's times are in summer time |
| QueryExamples.Winter2019 | dc_logging_aws/named_queries/tests/test_query_templates.py:14-21 | the December 2019 fixture's times are in winter time |
| QueryExamples.TemplateReadings | dc_logging_aws/named_queries/tests/test_query_templates.py:24-52 | close of polls and start of polling week of both fixtures, as exact readings |
| QueryExamples.UtcReadings | dc_logging_aws/named_queries/tests/test_query_templates.py:24-52 | the UTC readings of those times |
| QueryExamples.PrintedReadings | dc_logging_aws/named_queries/tests/test_query_templates.py:24-52 | the printed strings of those readings |
| QueryExamples.UtcPrints | dc_logging_aws/named_queries/tests/test_datetime_to_athena_datetime_string.py:32-43 | the UTC strings the tests expect, such as "2024-04-28 23:00" for midnight on 29 April 2024 |
| QueryExamples.LondonPrints | dc_logging_aws/named_queries/tests/test_datetime_to_athena_datetime_string.py:46-57 | the London strings the tests expect |
| QueryExamples.NaiveRefused | dc_logging_aws/named_queries/tests/test_datetime_to_athena_datetime_string.py:60-63 | a naive datetime raises "Input datetime must be timezone-aware" |
| QueryExamples.ElectionPeriod2024 | dc_logging_aws/named_queries/tests/test_query_templates.py:55-95 | the May 2024 election-period CTE runs from '2024/03/31' to '2024/05/02' |
| QueryExamples.Logs2024 | dc_logging_aws/named_queries/tests/test_query_templates.py:98-118 | the May 2024 logs CTE carries the four expected timestamps |
| QueryExamples.LogsBounds | dc_logging_aws/named_queries/query_template.py:89-111 | for any template and aware start time, the logs CTE succeeds and carries the UTC bounds on its first timestamp lines and the London bounds on its second |
| ReportingDates.DateFromString | dc_logging_aws/lambdas/calculate_reporting_period_dates/handler.py:74-80 | the date `strptime` reads, or the "Invalid <name>: <text>. ..." ValueError exactly when it fails |
| ReportingDates.DateFromStringRoundTrip | dc_logging_aws/lambdas/calculate_reporting_period_dates/handler.py:74-80 | every date printed as YYYY-MM-DD is read back |
| ReportingDates.ElectionWeekStart | dc_logging_aws/lambdas/calculate_reporting_period_dates/handler.py:83-92 | a Monday in the six days up to polling day; never below year 1 |
| ReportingDates.ElectionWeekStartUnique | dc_logging_aws/lambdas/calculate_reporting_period_dates/handler.py:83-92 | it is the only such Monday |
| ReportingDates.MondaysClose | dc_logging_aws/lambdas/calculate_reporting_period_dates/handler.py:83-92 | two Mondays fewer than seven days apart are the same day |
| ReportingDates.ElectionWeekStartExamples | dc_logging_aws/lambdas/calculate_reporting_period_dates/handler.py:87-88 | 2025-05-01 gives 2025-04-28 and 2025-01-02 gives 2024-12-30 |
| ReportingDates.ThursdayWeekStart | dc_logging_aws/lambdas/calculate_reporting_period_dates/handler.py:37-40 | for a Thursday it is three days back, the same Monday `QueryTemplate.start_of_polling_week` uses |
| ReportingDates.ElectionPeriodStart | dc_logging_aws/lambdas/calculate_reporting_period_dates/handler.py:95-109 | the first day of the month before polling day; ValueError "year 0 is out of range" for January of year 1 |
| ReportingDates.ElectionPeriodStartBefore | dc_logging_aws/lambdas/calculate_reporting_period_dates/handler.py:95-109 | it lies one whole month before the first of polling day's month |
| ReportingDates.Readings | dc_logging_aws/lambdas/calculate_reporting_period_dates/handler.py:22-71 | the ten strings never fail once both dates are known; the two day fields are the dates as YYYY/MM/DD |
| ReportingDates.ReadingsLondon | dc_logging_aws/lambdas/calculate_reporting_period_dates/handler.py:54-68 | the four London fields print 22:00 on polling day and midnight at the period start, the week start and polling day |
| ReportingDates.TenPmUtcIsAthena | dc_logging_aws/named_queries/query_template.py:44-45 | the UTC string of 22:00 London time reads 21:00 the same day from the March change day to the day before the October change day, and 22:00 otherwise |
| ReportingDates.MidnightUtcIsAthena | dc_logging_aws/named_queries/query_template.py:44-45 | the UTC string of midnight London time reads 23:00 the day before from the day after the March change day to the October change day, and midnight otherwise |
| ReportingDates.ReadingsUtc | dc_logging_aws/lambdas/calculate_reporting_period_dates/handler.py:53-67 | the four UTC fields print 22:00 on polling day and midnight on the three start days, each moved back an hour in summer time |
| ReportingDates.Handler | dc_logging_aws/lambdas/calculate_reporting_period_dates/handler.py:5-71 | fails exactly when the polling day is missing (TypeError), unreadable (its ValueError) or the period start fails, with that error, and never with the naive-datetime error |
| ReportingDates.HandlerStart | dc_logging_aws/lambdas/calculate_reporting_period_dates/handler.py:11-20 | with a readable polling day, the handler returns the readings for the default or given period start |
| Json.SortByKeySorted | dc_logging_client/log_entries.py:25 | `sort_keys` lists the items in key order |
| Json.SortByKeyPermutes | dc_logging_client/log_entries.py:25 | and keeps every item, each as often as before |
| Json.InsertSorted | dc_logging_client/log_entries.py:25 | inserting into a key-sorted list keeps it sorted |
| Json.InsertPermutes | dc_logging_client/log_entries.py:25 | inserting adds exactly the one item |
| Json.Dumps | dc_logging_client/log_entries.py:25 | the JSON text is one object, between braces |
| LogEntries.ProductsDistinct | dc_logging_client/log_entries.py:9-16 | six members with pairwise different values, so a value names one member |
| LogEntries.ValidateProduct | dc_logging_client/log_entries.py:33-36 | a member is accepted and replaced by its value; anything else raises "'<text>' is not currently supported" |
| LogEntries.ValidatedNamesMember | dc_logging_client/log_entries.py:33-36 | two members validated to the same string are the same member |
| LogEntries.PlainStringRefused | dc_logging_client/log_entries.py:33-36 | the string "WCIVF", which is the value of the member `DCProduct.wcivf`, is refused with the unsupported-product ValueError, as the `isinstance` check demands |
| LogEntries.LogLine | dc_logging_client/log_entries.py:21-26 | the JSON text, followed by one newline only when asked for |
| LogEntries.DummyLogEntry.PostInit | dc_logging_client/log_entries.py:33-41 | fails exactly for a non-member product, leaving it as it was; otherwise it stores the product's value; the text is untouched |
| LogEntries.NewDummyLogEntry | dc_logging_client/log_entries.py:39-41 | construction yields a fresh entry with the product's value, or the ValueError |
| LogEntries.PostcodeLogEntry.PostInit | dc_logging_client/log_entries.py:50-53 | the product check first; then the `datetime` attribute is set to now exactly when the timestamp is falsy; the other fields are untouched |
| LogEntries.NewPostcodeLogEntry | dc_logging_client/log_entries.py:44-53 | construction yields a fresh entry with the product's value, the given fields, and `datetime` present only without a timestamp |
| LogEntries.PostcodeAttributes | dc_logging_client/log_entries.py:44-53 | the instance dictionary has four attributes, five with `datetime` |
| LogEntries.PostcodeKeys | dc_logging_client/log_entries.py:25 | a postcode entry's log line lists api_key, (datetime,) dc_product, postcode and timestamp, each once |
| LogEntries.DummyKeys | dc_logging_client/log_entries.py:25 | a dummy entry's log line lists dc_product, then text |
| LegacyImport.Runs | dc_logging_legacy_import/main.py:24-48 | there is always at least one batch |
| LegacyImport.RunsLast | dc_logging_legacy_import/main.py:32-33 | the final batch is empty exactly when there are no rows, and otherwise ends with the last row |
| LegacyImport.RunsFlatten | dc_logging_legacy_import/main.py:24-48 | the batches, one after the other, are exactly the input rows in order |
| LegacyImport.RunsSameKey | dc_logging_legacy_import/main.py:29-34 | every row of a batch has its first row's key |
| LegacyImport.RunsKeyChanges | dc_logging_legacy_import/main.py:29-34 | every batch but the last is non-empty, and the key changes from each batch to the next |
| LegacyImport.Batches | dc_logging_legacy_import/main.py:27-48 | the loop yields exactly the runs of equal keys |
| LegacyImport.HourlyBatches | dc_logging_legacy_import/main.py:24-48 | as written: the runs of equal hour of day |
| LegacyImport.DayHourBatches | dc_logging_legacy_import/main.py:27-31 | comparing the whole `dayhour`: the runs of equal date and hour |
| LegacyImport.ConcatLinesAppend | dc_logging_legacy_import/main.py:54-57 | the data of two stretches of entries is the data of the first, then that of the second |
| LegacyImport.ObjectKey | dc_logging_legacy_import/main.py:61 | the key starts with the first row's hour path and "/" (or just "/" for an empty batch) and continues with the product and "-", and ends with the digest |
| LegacyImport.SerializeToFile | dc_logging_legacy_import/main.py:51-61 | the data is every entry's log line in order, and the key is built from the first entry's hour and the digest of that data |
| LegacyImport.HourPathSame | dc_logging_legacy_import/main.py:56 | two timestamps share an hour path exactly when they share date and hour |
| LegacyImport.SerializeBatches | dc_logging_legacy_import/main.py:104-108 | the import loop yields one object per batch, each the serialisation of its batch, in batch order |
| LegacyImport.Export | dc_logging_legacy_import/main.py:104-108 | with date-and-hour batching, one object per run of rows sharing date and hour, each the serialisation of its run |
| LegacyImport.ExportHourWithin | dc_logging_legacy_import/main.py:56 | with date-and-hour batches, every row's hour path is the key prefix of the object that holds it |
| LegacyImport.ExportHourChanges | dc_logging_legacy_import/main.py:56 | with date-and-hour batches, adjacent objects are non-empty and their keys name different hours |
| LegacyImport.BatchData | dc_logging_legacy_import/main.py:54-57 | the data of the objects, one after the other, is every row's log line once, in row order |
| LegacyImport.HourOnlyMergesDays | dc_logging_legacy_import/main.py:30 | as written, two rows a day apart at the same hour form one batch, filed under the first row's day |
| LegacyImport.DayHourSplitsDays | dc_logging_legacy_import/main.py:30-31 | comparing date and hour, the same rows form two batches |

## Findings

| source | as written | input that shows it | evidently intended | confidence | as-written member | corrected member |
|---|---|---|---|---|---|---|
| dc_logging_legacy_import/main.py:30 | a new batch starts only when `row[0].hour` differs from `dayhour[3]`, the hour of day | two consecutive rows at 2024-05-01 10:00 and 2024-05-02 10:00 (no rows in between) form one batch, stored under `2024/05/01/10` | start a batch when any part of `dayhour` (year, month, day, hour) changes, so every object holds one hour of one day | medium, not executed | LegacyImport.HourOnlyMergesDays | LegacyImport.DayHourBatches |

`LegacyImport.HourlyBatches` models the comparison as written. `LegacyImport.Export`, `LegacyImport.ExportHourWithin` and `LegacyImport.ExportHourChanges` use the corrected `DayHourBatches`.

## Left out

- The time zone database is not modelled. Only the UK rule since 1996 is modelled: summer time from 01:00 UTC on the last Sunday of March to 01:00 UTC on the last Sunday of October, applied to every year. Historical London offsets differ, for years before 1996 and for double summer time.
- `fold=1` readings, and wall-clock readings that summer time skips, are modelled only as far as the readings the code builds need (midnight and 22:00 are never skipped).
- `textwrap.dedent` is not modelled on arbitrary text. Each template is given as the list of its lines after dedenting, and the newline-freeness of those literal lines is not proved.
- `Text.TextIndent` splits only at "\n", where `str.splitlines` also splits at "\r", "\x0b", "\x0c", "\x1c"-"\x1e", "\x85", "\u2028" and "\u2029". It agrees with `textwrap.indent` only on text whose lines hold none of these (`NoLineBreak`).
- `QueryTemplates.TextIndentAll` and `QueryTemplates.SlotMargin` state nothing about lines that hold a line break other than "\n"; they require `NoLineBreak`.
- `QueryTemplates.QueryTemplate.LogsCte` keeps a `fromSource` that holds a line break as part of one line. After `dedent` and `indent`, the source would put the text after the break on a line of its own.
- `QueryTemplates.QueryTemplate.ProductCountCte` keeps a `name` that holds a line break as part of one line, for the same reason.
- `strftime("%Y")` is modelled as a zero-padded four-digit year. Some C libraries do not pad years below 1000.
- `strptime`'s `\d` is modelled as ASCII digits only. Python's `\d` also matches other Unicode digits.
- The model does not cover event values that are not strings, apart from a missing polling day. A non-string value passed to `strptime` raises a TypeError this model does not produce.
- `ReportingDates.Readings`: the two duplicate helpers at handler.py:112-143 are modelled once, by `QueryTemplates`.
- JSON string escaping (`quote`) and `str()` of a `datetime` (`show`) are function parameters of `Json.Dumps`; their formats are not modelled.
- `datetime.datetime.now()` is the parameter `now` of `PostcodeLogEntry.PostInit`.
- SHA-256 is the parameter `hash` of `LegacyImport.SerializeToFile`.
- Each entry's `as_log_line()` is the parameter `line`.
- The S3 upload, gzip, the database cursor, `tqdm` and the argument parsing of main.py are I/O and are not modelled.
- The construction of a `PostcodeLogEntry` from a row (main.py:36-46) is not modelled. The call passes keywords the dataclass does not declare (`utm_source`, `utm_medium`, `utm_campaign`, `calls_devs_dc_api`). It also passes the product as a string, which the product check refuses.
- The test at tests/test_log_client.py:66-68 expects the string "WCIVF" to be accepted as a product. The code (log_entries.py:34) refuses anything that is not a `DCProduct` member, and the model follows the code (`LogEntries.PlainStringRefused`).
- `LogEntries.ProductJson`: a member left in `dc_product` after a failed check is rendered as `DCProduct.<name>`. Only a successfully validated entry is serialised anywhere in the model.
- `Json.SortByKey` is an insertion sort. It agrees with Python's stable sort for the distinct keys of an instance dictionary; sorting with equal keys is not claimed to match.

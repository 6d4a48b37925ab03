/** The one-off import of `dc_logging_legacy_import/main.py`: rows of the old postcode-search
    table, read in timestamp order, are cut into hourly batches, and each batch becomes one
    object holding the batch's log lines under a key named after its first row's hour. */
module LegacyImport {
  import opened Text
  import opened Wrappers
  import opened Calendar

  /** One row of the query: `created`, the postcode and the three utm fields. */
  datatype Row = Row(timestamp: DateTime, postcode: string, utmSource: string, utmMedium: string,
                     utmCampaign: string)

  predicate ValidRows(rows: seq<Row>)
  {
    forall i :: 0 <= i < |rows| ==> ValidDateTime(rows[i].timestamp)
  }

  // ---------------------------------------------------------------- runs of equal keys

  /** The rows of all batches, batch after batch. */
  function Flatten(runs: seq<seq<Row>>): seq<Row>
    decreases |runs|
  {
    if runs == [] then [] else Flatten(runs[..|runs| - 1]) + runs[|runs| - 1]
  }

  /** The batches a generator that starts a new batch whenever a row's `key` differs from the
      previous row's yields: maximal runs of rows with equal keys, and always one batch at the
      end, empty only when there are no rows. */
  function Runs<K(==)>(rows: seq<Row>, key: DateTime -> K): (runs: seq<seq<Row>>)
    ensures |runs| >= 1
    decreases |rows|
  {
    if rows == [] then [[]]
    else
      var init, r := rows[..|rows| - 1], rows[|rows| - 1];
      var p: seq<seq<Row>> := Runs(init, key);
      if init == [] then [[r]]
      else if key(r.timestamp) == key(init[|init| - 1].timestamp) then p[..|p| - 1] + [p[|p| - 1] + [r]]
      else p + [[r]]
  }

  /** The last batch is empty exactly when there are no rows; otherwise it ends with the last row. */
  lemma RunsLast<K>(rows: seq<Row>, key: DateTime -> K)
    ensures var runs := Runs(rows, key);
      (runs[|runs| - 1] == [] <==> rows == [])
      && (rows != [] ==> runs[|runs| - 1][|runs[|runs| - 1]| - 1] == rows[|rows| - 1])
  {
  }

  lemma FlattenSnoc(runs: seq<seq<Row>>, run: seq<Row>)
    ensures Flatten(runs + [run]) == Flatten(runs) + run
  {
    assert (runs + [run])[..|runs|] == runs;
  }

  /** The batches hold every row once, in order. */
  lemma {:induction false} RunsFlatten<K>(rows: seq<Row>, key: DateTime -> K)
    ensures Flatten(Runs(rows, key)) == rows
    decreases |rows|
  {
    if rows == [] {
      FlattenSingle([]);
    } else {
      RunsFlatten(rows[..|rows| - 1], key);
      RunsFlattenStep(rows, key);
      SnocSplit(rows);
    }
  }

  /** Adding a row to the rows adds it at the end of the flattened batches. */
  lemma RunsFlattenStep<K>(rows: seq<Row>, key: DateTime -> K)
    requires rows != []
    ensures Flatten(Runs(rows, key)) == Flatten(Runs(rows[..|rows| - 1], key)) + [rows[|rows| - 1]]
  {
    if |rows| == 1 {
      FirstRowStep(rows, key);
    } else if key(rows[|rows| - 1].timestamp) == key(rows[|rows| - 2].timestamp) {
      SameKeyStep(rows, key);
    } else {
      NewKeyStep(rows, key);
    }
  }

  /** The first row makes the one batch `[row]`. */
  lemma FirstRowStep<K>(rows: seq<Row>, key: DateTime -> K)
    requires |rows| == 1
    ensures Flatten(Runs(rows, key)) == Flatten(Runs(rows[..|rows| - 1], key)) + [rows[|rows| - 1]]
  {
    assert rows[..0] == [];
    FlattenSingle(rows);
    FlattenSingle([]);
  }

  /** A row with the previous row's key joins the last batch. */
  lemma SameKeyStep<K>(rows: seq<Row>, key: DateTime -> K)
    requires |rows| >= 2 && key(rows[|rows| - 1].timestamp) == key(rows[|rows| - 2].timestamp)
    ensures Flatten(Runs(rows, key)) == Flatten(Runs(rows[..|rows| - 1], key)) + [rows[|rows| - 1]]
  {
    var init := rows[..|rows| - 1];
    assert init[|init| - 1] == rows[|rows| - 2];
    FlattenExtendLast(Runs(init, key), rows[|rows| - 1]);
  }

  /** A row with a different key from the previous row's starts a new batch. */
  lemma NewKeyStep<K>(rows: seq<Row>, key: DateTime -> K)
    requires |rows| >= 2 && key(rows[|rows| - 1].timestamp) != key(rows[|rows| - 2].timestamp)
    ensures Flatten(Runs(rows, key)) == Flatten(Runs(rows[..|rows| - 1], key)) + [rows[|rows| - 1]]
  {
    var init := rows[..|rows| - 1];
    assert init[|init| - 1] == rows[|rows| - 2];
    FlattenSnoc(Runs(init, key), [rows[|rows| - 1]]);
  }

  lemma FlattenSingle(run: seq<Row>)
    ensures Flatten([run]) == run
  {
    assert [run][..0] == [];
  }

  lemma SnocSplit(rows: seq<Row>)
    requires rows != []
    ensures rows[..|rows| - 1] + [rows[|rows| - 1]] == rows
  {
  }

  /** Appending a row to the last batch appends it to the flattened rows. */
  lemma FlattenExtendLast(runs: seq<seq<Row>>, r: Row)
    requires runs != []
    ensures Flatten(runs[..|runs| - 1] + [runs[|runs| - 1] + [r]]) == Flatten(runs) + [r]
  {
    var init, last := runs[..|runs| - 1], runs[|runs| - 1];
    FlattenSnoc(init, last + [r]);
    FlattenLast(runs);
    AppendAssociative(Flatten(init), last, [r]);
  }

  lemma AppendAssociative(a: seq<Row>, b: seq<Row>, c: seq<Row>)
    ensures a + (b + c) == (a + b) + c
  {
  }

  lemma FlattenLast(runs: seq<seq<Row>>)
    requires runs != []
    ensures Flatten(runs) == Flatten(runs[..|runs| - 1]) + runs[|runs| - 1]
  {
  }

  /** Every row of a batch has the key of the batch's first row. */
  ghost predicate SameKeyWithin<K>(runs: seq<seq<Row>>, key: DateTime -> K)
  {
    forall k, j :: 0 <= k < |runs| && 0 <= j < |runs[k]| ==> key(runs[k][j].timestamp) == key(runs[k][0].timestamp)
  }

  /** Every batch but the last is non-empty, and the key changes from each batch to the next. */
  ghost predicate KeyChangesBetween<K>(runs: seq<seq<Row>>, key: DateTime -> K)
  {
    forall k :: 0 <= k < |runs| - 1 ==> KeyChangesAt(runs, k, key)
  }

  /** Batch `k` and the next are non-empty, and the key changes from the one to the other. */
  ghost predicate KeyChangesAt<K>(runs: seq<seq<Row>>, k: int, key: DateTime -> K)
    requires 0 <= k < |runs| - 1
  {
    runs[k] != [] && runs[k + 1] != []
    && key(runs[k][|runs[k]| - 1].timestamp) != key(runs[k + 1][0].timestamp)
  }

  lemma {:induction false} RunsSameKey<K>(rows: seq<Row>, key: DateTime -> K)
    ensures SameKeyWithin(Runs(rows, key), key)
    decreases |rows|
  {
    if rows != [] {
      var init, r := rows[..|rows| - 1], rows[|rows| - 1];
      var p: seq<seq<Row>> := Runs(init, key);
      var q: seq<seq<Row>> := Runs(rows, key);
      if init != [] && key(r.timestamp) == key(init[|init| - 1].timestamp) {
        RunsSameKey(init, key);
        RunsLast(init, key);
        var n := |p| - 1;
        forall k, j | 0 <= k < |q| && 0 <= j < |q[k]| ensures key(q[k][j].timestamp) == key(q[k][0].timestamp) {
          if k < n {
            assert q[k] == p[k];
          } else {
            assert q[k] == p[n] + [r];
            if j == |p[n]| {
              assert key(r.timestamp) == key(p[n][|p[n]| - 1].timestamp);
            }
          }
        }
      } else if init != [] {
        RunsSameKey(init, key);
        forall k, j | 0 <= k < |q| && 0 <= j < |q[k]| ensures key(q[k][j].timestamp) == key(q[k][0].timestamp) {
          if k < |p| {
            assert q[k] == p[k];
          }
        }
      }
    }
  }

  lemma {:induction false} RunsKeyChanges<K>(rows: seq<Row>, key: DateTime -> K)
    ensures KeyChangesBetween(Runs(rows, key), key)
    decreases |rows|
  {
    if rows != [] {
      var init, r := rows[..|rows| - 1], rows[|rows| - 1];
      var p: seq<seq<Row>> := Runs(init, key);
      var q: seq<seq<Row>> := Runs(rows, key);
      if init != [] {
        RunsKeyChanges(init, key);
        RunsLast(init, key);
        var n := |p| - 1;
        if key(r.timestamp) == key(init[|init| - 1].timestamp) {
          forall k | 0 <= k < |q| - 1 ensures KeyChangesAt(q, k, key) {
            var l := k + 1;
            assert q[k] == p[k];
            assert KeyChangesAt(p, k, key);
            if l == n {
              assert q[l] == p[n] + [r] && q[l][0] == p[n][0];
            } else {
              assert q[l] == p[l] && KeyChangesAt(p, k, key);
            }
          }
        } else {
          forall k | 0 <= k < |q| - 1 ensures KeyChangesAt(q, k, key) {
            var l := k + 1;
            assert q[k] == p[k];
            if k < n {
              assert q[l] == p[l] && KeyChangesAt(p, k, key);
            }
          }
        }
      }
    }
  }

  // ---------------------------------------------------------------- hourly_batches

  /** The loop of `hourly_batches`, for a key of a row's timestamp: `current` plays the part of
      `dayhour`, `start` its initial value. Yielding a batch appends it to `batches`. */
  method Batches<K(==)>(rows: seq<Row>, key: DateTime -> K, start: K) returns (batches: seq<seq<Row>>)
    ensures batches == Runs(rows, key)
  {
    var current := start;
    var batch: seq<Row> := [];
    batches := [];
    for i := 0 to |rows|
      invariant i == 0 ==> batches == [] && batch == []
      invariant i > 0 ==> batch != [] && batches + [batch] == Runs(rows[..i], key)
      invariant i > 0 ==> current == key(rows[i - 1].timestamp)
    {
      ghost var prev := batches + [batch];
      assert rows[..i + 1][..i] == rows[..i] && rows[..i + 1][i] == rows[i];
      assert i > 0 ==> rows[..i][i - 1] == rows[i - 1];
      assert i > 0 ==> prev[..|prev| - 1] == batches && prev[|prev| - 1] == batch;
      assert Runs(rows[..i + 1], key)
        == if i == 0 then [[rows[i]]]
           else if key(rows[i].timestamp) == key(rows[i - 1].timestamp) then prev[..|prev| - 1] + [prev[|prev| - 1] + [rows[i]]]
           else prev + [[rows[i]]];
      if key(rows[i].timestamp) != current {
        current := key(rows[i].timestamp);
        if batch != [] {
          batches := batches + [batch];
        }
        batch := [];
      }
      batch := batch + [rows[i]];
      if i == 0 {
        assert batches == [] && batch == [rows[i]];
      } else if key(rows[i].timestamp) == key(rows[i - 1].timestamp) {
        assert batches == prev[..|prev| - 1] && batch == prev[|prev| - 1] + [rows[i]];
      } else {
        assert batches == prev && batch == [rows[i]];
      }
    }
    assert rows[..|rows|] == rows;
    batches := batches + [batch];
  }

  /** `row[0].hour`: the only part of the timestamp `hourly_batches` compares. */
  function HourOfDay(t: DateTime): int
  {
    t.hour
  }

  /** `(year, month, day, hour)`: the whole of `dayhour`. */
  function DayHour(t: DateTime): (int, int, int, int)
  {
    (t.date.year, t.date.month, t.date.day, t.hour)
  }

  /** `hourly_batches` as written: a new batch starts when the hour of day changes. */
  method HourlyBatches(rows: seq<Row>) returns (batches: seq<seq<Row>>)
    ensures batches == Runs(rows, HourOfDay)
  {
    batches := Batches(rows, HourOfDay, 0);
  }

  /** `hourly_batches` comparing the whole of `dayhour`: a new batch starts when the date or the
      hour changes. */
  method DayHourBatches(rows: seq<Row>) returns (batches: seq<seq<Row>>)
    ensures batches == Runs(rows, DayHour)
  {
    batches := Batches(rows, DayHour, (0, 0, 0, 0));
  }

  // ---------------------------------------------------------------- serialize_to_file

  /** The log lines of a batch, one after the other. */
  function ConcatLines(batch: seq<Row>, line: Row -> string): string
    decreases |batch|
  {
    if batch == [] then "" else ConcatLines(batch[..|batch| - 1], line) + line(batch[|batch| - 1])
  }

  lemma {:induction false} ConcatLinesAppend(a: seq<Row>, b: seq<Row>, line: Row -> string)
    ensures ConcatLines(a + b, line) == ConcatLines(a, line) + ConcatLines(b, line)
    decreases |b|
  {
    if b == [] {
      assert a + b == a;
    } else {
      var b0 := b[..|b| - 1];
      assert (a + b)[..|a + b| - 1] == a + b0 && (a + b)[|a + b| - 1] == b[|b| - 1];
      assert ConcatLines(a + b, line) == ConcatLines(a + b0, line) + line(b[|b| - 1]);
      assert ConcatLines(b, line) == ConcatLines(b0, line) + line(b[|b| - 1]);
      assert ConcatLines(a, line) + ConcatLines(b0, line) + line(b[|b| - 1])
          == ConcatLines(a, line) + (ConcatLines(b0, line) + line(b[|b| - 1]));
      ConcatLinesAppend(a, b0, line);
    }
  }

  /** The object key of a batch: the hour of its first row (nothing for an empty batch), "/",
      the product, "-" and the hash of the data. */
  function ObjectKey(batch: seq<Row>, product: string, digest: string): (key: string)
    requires ValidRows(batch)
    ensures |key| == (if batch == [] then 0 else 13) + |product| + |digest| + 2
    ensures batch != [] ==> key[..13] == HourPath(batch[0].timestamp) && key[13] == '/'
    ensures batch == [] ==> key[..1] == "/"
    ensures key[|key| - |digest| - |product| - 1..|key| - |digest|] == product + "-"
    ensures key[|key| - |digest|..] == digest
  {
    var head := (if batch == [] then "" else HourPath(batch[0].timestamp)) + "/";
    var key := head + product + "-" + digest;
    assert key == head + (product + "-") + digest;
    key
  }

  /** `serialize_to_file(batch)`: `line(row)` is `as_log_line()` of the entry built from a row
      and `hash` the hex SHA-256 digest of the data. */
  method SerializeToFile(batch: seq<Row>, product: string, line: Row -> string, hash: string -> string)
    returns (key: string, data: string)
    requires ValidRows(batch)
    ensures data == ConcatLines(batch, line)
    ensures key == ObjectKey(batch, product, hash(data))
  {
    var date := "";
    data := "";
    for i := 0 to |batch|
      invariant data == ConcatLines(batch[..i], line)
      invariant date == if i == 0 then "" else HourPath(batch[0].timestamp)
    {
      assert batch[..i + 1][..i] == batch[..i];
      if date == "" {
        date := HourPath(batch[i].timestamp);
      }
      data := data + line(batch[i]);
    }
    assert batch[..|batch|] == batch;
    key := date + "/" + product + "-" + hash(data);
  }

  // ---------------------------------------------------------------- hour paths

  /** Two timestamps share an hour path exactly when they share date and hour. */
  lemma HourPathSame(a: DateTime, b: DateTime)
    requires ValidDateTime(a) && ValidDateTime(b)
    ensures HourPath(a) == HourPath(b) <==> DayHour(a) == DayHour(b)
  {
    if HourPath(a) == HourPath(b) {
      var s, t := HourPath(a), HourPath(b);
      assert Pow10(2) == 100 && Pow10(4) == 10000;
      assert s[..4] == FixedDigits(a.date.year, 4) && t[..4] == FixedDigits(b.date.year, 4);
      assert s[5..7] == FixedDigits(a.date.month, 2) && t[5..7] == FixedDigits(b.date.month, 2);
      assert s[8..10] == FixedDigits(a.date.day, 2) && t[8..10] == FixedDigits(b.date.day, 2);
      assert s[11..] == FixedDigits(a.hour, 2) && t[11..] == FixedDigits(b.hour, 2);
      FixedDigitsValue(a.date.year, 4);
      FixedDigitsValue(b.date.year, 4);
      FixedDigitsValue(a.date.month, 2);
      FixedDigitsValue(b.date.month, 2);
      FixedDigitsValue(a.date.day, 2);
      FixedDigitsValue(b.date.day, 2);
      FixedDigitsValue(a.hour, 2);
      FixedDigitsValue(b.hour, 2);
    }
  }

  // ---------------------------------------------------------------- the import

  /** One batch's object: its key and its data. */
  function Object(batch: seq<Row>, product: string, line: Row -> string, hash: string -> string): (string, string)
    requires ValidRows(batch)
  {
    var data := ConcatLines(batch, line);
    (ObjectKey(batch, product, hash(data)), data)
  }

  /** The import loop: `serialize_to_file` on each batch in turn, one object per batch. */
  method SerializeBatches(batches: seq<seq<Row>>, product: string, line: Row -> string, hash: string -> string)
    returns (objects: seq<(string, string)>)
    requires forall k :: 0 <= k < |batches| ==> ValidRows(batches[k])
    ensures |objects| == |batches|
    ensures forall k :: 0 <= k < |batches| ==> objects[k] == Object(batches[k], product, line, hash)
  {
    objects := [];
    for k := 0 to |batches|
      invariant |objects| == k
      invariant forall j :: 0 <= j < k ==> objects[j] == Object(batches[j], product, line, hash)
    {
      var key, data := SerializeToFile(batches[k], product, line, hash);
      objects := objects + [(key, data)];
    }
  }

  /** The objects `main` uploads, with the batching that compares date and hour. */
  method Export(rows: seq<Row>, product: string, line: Row -> string, hash: string -> string)
    returns (objects: seq<(string, string)>)
    requires ValidRows(rows)
    ensures var runs := Runs(rows, DayHour);
      |objects| == |runs|
      && forall k :: 0 <= k < |runs| ==> ValidRows(runs[k]) && objects[k] == Object(runs[k], product, line, hash)
  {
    var batches := DayHourBatches(rows);
    RunsRowsValid(rows, DayHour);
    objects := SerializeBatches(batches, product, line, hash);
  }

  /** The rows of every batch are rows of the input. */
  lemma RunsRowsValid<K>(rows: seq<Row>, key: DateTime -> K)
    requires ValidRows(rows)
    ensures forall k :: 0 <= k < |Runs(rows, key)| ==> ValidRows(Runs(rows, key)[k])
  {
    var runs := Runs(rows, key);
    RunsFlatten(rows, key);
    forall k | 0 <= k < |runs| ensures ValidRows(runs[k]) {
      FlattenHolds(runs, k);
    }
  }

  /** Each batch is a stretch of the flattened rows. */
  lemma {:induction false} FlattenHolds(runs: seq<seq<Row>>, k: int)
    requires 0 <= k < |runs|
    ensures forall j :: 0 <= j < |runs[k]| ==> runs[k][j] in Flatten(runs)
    decreases |runs|
  {
    var n := |runs| - 1;
    if k < n {
      FlattenHolds(runs[..n], k);
    }
    assert Flatten(runs) == Flatten(runs[..n]) + runs[n];
  }

  /** With batches cut at every change of date or hour, every row of an object belongs to the
      hour its key names. */
  lemma ExportHourWithin(rows: seq<Row>, product: string, line: Row -> string, hash: string -> string)
    requires ValidRows(rows)
    ensures var runs := Runs(rows, DayHour);
      forall k, j :: 0 <= k < |runs| && 0 <= j < |runs[k]| ==>
        ValidRows(runs[k]) && Object(runs[k], product, line, hash).0[..13] == HourPath(runs[k][j].timestamp)
  {
    var runs: seq<seq<Row>> := Runs(rows, DayHour);
    RunsRowsValid(rows, DayHour);
    RunsSameKey(rows, DayHour);
    forall k, j | 0 <= k < |runs| && 0 <= j < |runs[k]|
      ensures Object(runs[k], product, line, hash).0[..13] == HourPath(runs[k][j].timestamp)
    {
      ObjectPrefix(runs[k], product, line, hash, runs[k][j]);
    }
  }

  /** With batches cut at every change of date or hour, adjacent objects name different hours,
      so no hour is spread over two neighbouring objects. */
  lemma ExportHourChanges(rows: seq<Row>, product: string, line: Row -> string, hash: string -> string)
    requires ValidRows(rows)
    ensures var runs := Runs(rows, DayHour);
      forall k, l :: 0 <= k < l < |runs| && l == k + 1 ==>
        ValidRows(runs[k]) && ValidRows(runs[l]) && runs[k] != [] && runs[l] != []
        && Object(runs[k], product, line, hash).0[..13] != Object(runs[l], product, line, hash).0[..13]
  {
    var runs: seq<seq<Row>> := Runs(rows, DayHour);
    RunsRowsValid(rows, DayHour);
    RunsSameKey(rows, DayHour);
    RunsKeyChanges(rows, DayHour);
    forall k, l | 0 <= k < l < |runs| && l == k + 1
      ensures runs[k] != [] && runs[l] != []
      ensures Object(runs[k], product, line, hash).0[..13] != Object(runs[l], product, line, hash).0[..13]
    {
      assert KeyChangesAt(runs, k, DayHour);
      var last: Row := runs[k][|runs[k]| - 1];
      ObjectPrefix(runs[k], product, line, hash, last);
      ObjectPrefix(runs[l], product, line, hash, runs[l][0]);
      HourPathSame(last.timestamp, runs[l][0].timestamp);
    }
  }

  /** A row with the date and hour of a batch's first row has the batch's key prefix as its hour path. */
  lemma ObjectPrefix(batch: seq<Row>, product: string, line: Row -> string, hash: string -> string, r: Row)
    requires ValidRows(batch) && batch != [] && ValidDateTime(r.timestamp)
    requires DayHour(r.timestamp) == DayHour(batch[0].timestamp)
    ensures Object(batch, product, line, hash).0[..13] == HourPath(r.timestamp)
  {
    HourPathSame(r.timestamp, batch[0].timestamp);
  }

  /** The data of the batches' objects, one after the other, is every row's log line, in row
      order. */
  lemma {:induction false} BatchData(runs: seq<seq<Row>>, line: Row -> string)
    ensures ConcatLines(Flatten(runs), line) == Concat(seq(|runs|, k requires 0 <= k < |runs| => ConcatLines(runs[k], line)))
    decreases |runs|
  {
    if runs != [] {
      var n := |runs| - 1;
      BatchData(runs[..n], line);
      ConcatLinesAppend(Flatten(runs[..n]), runs[n], line);
      var all := seq(|runs|, k requires 0 <= k < |runs| => ConcatLines(runs[k], line));
      var init := seq(n, k requires 0 <= k < n => ConcatLines(runs[..n][k], line));
      assert all[..n] == init;
    }
  }

  // ---------------------------------------------------------------- comparing the hour only

  const May1At10 := DateTime(Date(2024, 5, 1), 10, 0, 0, 0, None, false)
  const May2At10 := DateTime(Date(2024, 5, 2), 10, 0, 0, 0, None, false)

  /** As written, two rows a day apart at the same hour of day land in one batch, which is stored
      under the first row's hour: the second row is filed under a day it does not belong to. */
  lemma HourOnlyMergesDays(postcode: string)
    ensures var a, b := Row(May1At10, postcode, "", "", ""), Row(May2At10, postcode, "", "", "");
      Runs([a, b], HourOfDay) == [[a, b]] && HourPath(b.timestamp) != HourPath(a.timestamp)
  {
    var a, b := Row(May1At10, postcode, "", "", ""), Row(May2At10, postcode, "", "", "");
    assert [a, b][..1] == [a] && [a][..0] == [];
    assert Runs([a], HourOfDay) == [[a]];
    assert HourOfDay(b.timestamp) == HourOfDay(a.timestamp);
    var p := Runs([a], HourOfDay);
    assert Runs([a, b], HourOfDay) == p[..0] + [p[0] + [b]];
    assert [a] + [b] == [a, b];
    assert DayHour(May1At10) != DayHour(May2At10);
    HourPathSame(May1At10, May2At10);
  }

  /** Comparing date and hour, the same two rows go to two batches. */
  lemma DayHourSplitsDays(postcode: string)
    ensures var a, b := Row(May1At10, postcode, "", "", ""), Row(May2At10, postcode, "", "", "");
      Runs([a, b], DayHour) == [[a], [b]]
  {
    var a, b := Row(May1At10, postcode, "", "", ""), Row(May2At10, postcode, "", "", "");
    assert [a, b][..1] == [a] && [a][..0] == [];
    assert Runs([a], DayHour) == [[a]];
    assert DayHour(b.timestamp) != DayHour(a.timestamp);
  }
}

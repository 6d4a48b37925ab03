/** `json.dumps(d, sort_keys=True, default=str)` for a flat dictionary whose values are strings
    or `datetime`s, with the default separators `", "` and `": "`. How a string is written as
    a JSON string literal (`quote`) and how `str()` prints a `datetime` (`show`) are parameters
    of the rendering. */
module Json {
  import opened Text
  import opened Calendar

  /** A dictionary value: a string, or a `datetime`, which `default=str` turns into its `str()`. */
  datatype JsonValue = JStr(s: string) | JDateTime(dt: DateTime)

  /** A dictionary as its items in insertion order. */
  type Item = (string, JsonValue)

  /** `a <= b` on `str`. */
  predicate KeyLeq(a: string, b: string)
  {
    a == b || StrLess(a, b)
  }

  predicate SortedByKey(items: seq<Item>)
  {
    forall i, j :: 0 <= i < j < |items| ==> KeyLeq(items[i].0, items[j].0)
  }

  function Keys(items: seq<Item>): (ks: seq<string>)
    ensures |ks| == |items| && forall i :: 0 <= i < |items| ==> ks[i] == items[i].0
  {
    seq(|items|, i requires 0 <= i < |items| => items[i].0)
  }

  /** Inserts `x` after every item whose key is not greater than its own. */
  function Insert(x: Item, items: seq<Item>): (r: seq<Item>)
    ensures |r| == |items| + 1
    decreases |items|
  {
    if items == [] then [x]
    else if StrLess(x.0, items[0].0) then [x] + items
    else
      assert items == [items[0]] + items[1..];
      [items[0]] + Insert(x, items[1..])
  }

  /** Python's `sorted(d.items())` for distinct keys: a stable sort by key, here insertion sort. */
  function SortByKey(items: seq<Item>): (r: seq<Item>)
    ensures |r| == |items|
    decreases |items|
  {
    if items == [] then []
    else
      assert items == items[..|items| - 1] + [items[|items| - 1]];
      Insert(items[|items| - 1], SortByKey(items[..|items| - 1]))
  }

  lemma {:induction false} InsertPermutes(x: Item, items: seq<Item>)
    ensures multiset(Insert(x, items)) == multiset(items) + multiset{x}
    decreases |items|
  {
    if items != [] && !StrLess(x.0, items[0].0) {
      InsertPermutes(x, items[1..]);
      assert items == [items[0]] + items[1..];
    }
  }

  /** `sorted` keeps every item, each as often as before. */
  lemma {:induction false} SortByKeyPermutes(items: seq<Item>)
    ensures multiset(SortByKey(items)) == multiset(items)
    decreases |items|
  {
    if items != [] {
      var init := items[..|items| - 1];
      SortByKeyPermutes(init);
      InsertPermutes(items[|items| - 1], SortByKey(init));
      assert items == init + [items[|items| - 1]];
    }
  }

  /** Sorting one more item inserts it into the sorted rest. */
  lemma SortSnoc(items: seq<Item>, x: Item)
    ensures SortByKey(items + [x]) == Insert(x, SortByKey(items))
  {
    assert (items + [x])[..|items|] == items;
  }

  lemma {:induction false} InsertSorted(x: Item, items: seq<Item>)
    requires SortedByKey(items)
    ensures SortedByKey(Insert(x, items))
    decreases |items|
  {
    if items != [] && !StrLess(x.0, items[0].0) {
      var rest := items[1..];
      assert SortedByKey(rest) by {
        forall i, j | 0 <= i < j < |rest| ensures KeyLeq(rest[i].0, rest[j].0) {
          assert rest[i] == items[i + 1] && rest[j] == items[j + 1];
        }
      }
      InsertSorted(x, rest);
      InsertBehindHead(x, items);
    } else if items != [] {
      InsertInFront(x, items);
    }
  }

  predicate KeysFrom(k: string, items: seq<Item>)
  {
    forall i :: 0 <= i < |items| ==> KeyLeq(k, items[i].0)
  }

  /** Inserting an item no smaller than a bound keeps every key at or above that bound. */
  lemma {:induction false} InsertKeysFrom(k: string, x: Item, items: seq<Item>)
    requires KeysFrom(k, items) && KeyLeq(k, x.0)
    ensures KeysFrom(k, Insert(x, items))
    decreases |items|
  {
    if items != [] && !StrLess(x.0, items[0].0) {
      var rest := items[1..];
      assert KeysFrom(k, rest) by {
        forall i | 0 <= i < |rest| ensures KeyLeq(k, rest[i].0) { assert rest[i] == items[i + 1]; }
      }
      InsertKeysFrom(k, x, rest);
      var r := Insert(x, items);
      forall i | 0 <= i < |r| ensures KeyLeq(k, r[i].0) {
        if i > 0 { assert r[i] == Insert(x, rest)[i - 1]; }
      }
    } else if items != [] {
      var r := Insert(x, items);
      forall i | 0 <= i < |r| ensures KeyLeq(k, r[i].0) {
        if i > 0 { assert r[i] == items[i - 1]; }
      }
    }
  }

  /** Inserting an item whose key is not below the first key keeps that first item in front. */
  lemma InsertBehindHead(x: Item, items: seq<Item>)
    requires items != [] && SortedByKey(items) && !StrLess(x.0, items[0].0)
    requires SortedByKey(Insert(x, items[1..]))
    ensures SortedByKey(Insert(x, items))
  {
    var rest := items[1..];
    var r := Insert(x, items);
    var tail := Insert(x, rest);
    assert r == [items[0]] + tail;
    assert KeyLeq(items[0].0, x.0) by { StrLessTotal(items[0].0, x.0); }
    assert KeysFrom(items[0].0, rest) by {
      forall i | 0 <= i < |rest| ensures KeyLeq(items[0].0, rest[i].0) { assert rest[i] == items[i + 1]; }
    }
    InsertKeysFrom(items[0].0, x, rest);
    forall i, j | 0 <= i < j < |r| ensures KeyLeq(r[i].0, r[j].0) {
      assert r[j] == tail[j - 1];
      if i > 0 {
        assert r[i] == tail[i - 1];
      }
    }
  }

  /** Inserting an item whose key is below the first key puts it in front. */
  lemma InsertInFront(x: Item, items: seq<Item>)
    requires items != [] && SortedByKey(items) && StrLess(x.0, items[0].0)
    ensures SortedByKey(Insert(x, items))
  {
    var r := Insert(x, items);
    assert r == [x] + items;
    forall i, j | 0 <= i < j < |r| ensures KeyLeq(r[i].0, r[j].0) {
      if i == 0 {
        assert r[j] == items[j - 1];
        if j > 1 {
          assert KeyLeq(items[0].0, items[j - 1].0);
          KeyLeqTransitive(x.0, items[0].0, items[j - 1].0);
        }
      } else {
        assert r[i] == items[i - 1] && r[j] == items[j - 1];
      }
    }
  }

  lemma KeyLeqTransitive(a: string, b: string, c: string)
    requires KeyLeq(a, b) && KeyLeq(b, c)
    ensures KeyLeq(a, c)
  {
    if a != b && b != c {
      StrLessTransitive(a, b, c);
    }
  }

  /** `sorted` orders the items by key. */
  lemma {:induction false} SortByKeySorted(items: seq<Item>)
    ensures SortedByKey(SortByKey(items))
    decreases |items|
  {
    if items != [] {
      SortByKeySorted(items[..|items| - 1]);
      InsertSorted(items[|items| - 1], SortByKey(items[..|items| - 1]));
    }
  }

  /** One rendered item: the quoted key, `": "`, and the value (a `datetime` through `str`). */
  function RenderItem(item: Item, quote: string -> string, show: DateTime -> string): string
  {
    quote(item.0) + ": " + match item.1 { case JStr(s) => quote(s) case JDateTime(dt) => quote(show(dt)) }
  }

  function RenderItems(items: seq<Item>, quote: string -> string, show: DateTime -> string): (r: seq<string>)
    ensures |r| == |items|
    ensures forall i :: 0 <= i < |items| ==> r[i] == RenderItem(items[i], quote, show)
  {
    seq(|items|, i requires 0 <= i < |items| => RenderItem(items[i], quote, show))
  }

  /** `json.dumps(dict(items), sort_keys=True, default=str)`: the items in key order between
      braces, separated by `", "`. The items rendered are those of `SortByKey(items)`, in that
      order: `SortByKeySorted` and `SortByKeyPermutes` show it is every item once, in key order,
      and `LogEntries.PostcodeKeys` and `LogEntries.DummyKeys` give that order for the two
      entry kinds. */
  function Dumps(items: seq<Item>, quote: string -> string, show: DateTime -> string): (r: string)
    ensures |r| >= 2 && r[0] == '{' && r[|r| - 1] == '}'
  {
    "{" + JoinWith(", ", RenderItems(SortByKey(items), quote, show)) + "}"
  }
}

/** String helpers the Python code gets from `str`: `split("\n")`, `"\n".join`, `" " * n`,
    zero-padded decimal fields of `strftime`, and the code-point order `sorted` uses on keys. */
module Text {

  /** `sep.join(parts)`. */
  function JoinWith(sep: string, parts: seq<string>): string
    decreases |parts|
  {
    if |parts| == 0 then ""
    else if |parts| == 1 then parts[0]
    else parts[0] + sep + JoinWith(sep, parts[1..])
  }

  /** `"\n".join(lines)`. */
  function Join(lines: seq<string>): string
  {
    JoinWith("\n", lines)
  }

  /** `s.split("\n")`: always at least one piece, and no piece holds a newline. */
  function Split(s: string): (lines: seq<string>)
    ensures |lines| >= 1
    ensures forall i :: 0 <= i < |lines| ==> '\n' !in lines[i]
    decreases |s|
  {
    if s == [] then [""]
    else
      var rest := Split(s[1..]);
      if s[0] == '\n' then [""] + rest
      else [[s[0]] + rest[0]] + rest[1..]
  }

  predicate NoNewline(lines: seq<string>)
  {
    forall i :: 0 <= i < |lines| ==> '\n' !in lines[i]
  }

  /** Splitting a text that starts with a newline-free piece. */
  lemma {:induction false} SplitPrefix(a: string, b: string)
    requires '\n' !in a
    ensures Split(a + b) == [a + Split(b)[0]] + Split(b)[1..]
    decreases |a|
  {
    if a == [] {
      assert a + b == b;
      assert a + Split(b)[0] == Split(b)[0];
      assert Split(b) == [Split(b)[0]] + Split(b)[1..];
    } else {
      assert (a + b)[1..] == a[1..] + b;
      SplitPrefix(a[1..], b);
      assert [a[0]] + (a[1..] + Split(b)[0]) == a + Split(b)[0];
    }
  }

  /** Joining the pieces of a split gives the text back. */
  lemma {:induction false} JoinSplit(s: string)
    ensures Join(Split(s)) == s
    decreases |s|
  {
    if s != [] {
      JoinSplit(s[1..]);
      var rest := Split(s[1..]);
      if s[0] == '\n' {
        assert Join([""] + rest) == "" + "\n" + Join(rest) by {
          assert ([""] + rest)[1..] == rest;
        }
        assert s == [s[0]] + s[1..];
      } else {
        var parts := [[s[0]] + rest[0]] + rest[1..];
        if |rest| == 1 {
          assert Join(parts) == [s[0]] + rest[0];
          assert Join(rest) == rest[0];
        } else {
          assert parts[1..] == rest[1..];
          assert Join(parts) == [s[0]] + rest[0] + "\n" + Join(rest[1..]);
          assert Join(rest) == rest[0] + "\n" + Join(rest[1..]);
        }
        assert s == [s[0]] + s[1..];
      }
    }
  }

  /** Splitting a join of newline-free lines gives the lines back. */
  lemma {:induction false} SplitJoin(lines: seq<string>)
    requires |lines| >= 1 && NoNewline(lines)
    ensures Split(Join(lines)) == lines
    decreases |lines|
  {
    if |lines| == 1 {
      assert Join(lines) == lines[0];
      SplitPrefix(lines[0], "");
      assert lines[0] + "" == lines[0];
    } else {
      var tail := lines[1..];
      assert NoNewline(tail) by {
        forall i | 0 <= i < |tail| ensures '\n' !in tail[i] { assert tail[i] == lines[i + 1]; }
      }
      SplitJoin(tail);
      assert '\n' !in lines[0] by { assert 0 < |lines|; }
      assert Join(lines) == lines[0] + ("\n" + Join(tail));
      SplitPrefix(lines[0], "\n" + Join(tail));
      assert ("\n" + Join(tail))[1..] == Join(tail);
      assert Split("\n" + Join(tail)) == [""] + tail;
      assert lines[0] + "" == lines[0];
      assert lines == [lines[0]] + tail;
    }
  }

  /** Joining one more line adds a newline and that line. */
  lemma {:induction false} JoinSnoc(lines: seq<string>, x: string)
    requires |lines| >= 1
    ensures Join(lines + [x]) == Join(lines) + "\n" + x
    decreases |lines|
  {
    if |lines| == 1 {
      assert (lines + [x])[1..] == [x];
      assert Join(lines + [x]) == lines[0] + "\n" + Join([x]);
    } else {
      assert (lines + [x])[1..] == lines[1..] + [x];
      JoinSnoc(lines[1..], x);
    }
  }

  /** A joined text ends with its last line. */
  lemma {:induction false} JoinEndsWithLast(lines: seq<string>)
    requires |lines| >= 1
    ensures |Join(lines)| >= |lines[|lines| - 1]|
    ensures Join(lines)[|Join(lines)| - |lines[|lines| - 1]|..] == lines[|lines| - 1]
    decreases |lines|
  {
    if |lines| > 1 {
      JoinEndsWithLast(lines[1..]);
    }
  }

  /** Every line with `prefix` in front of it. */
  function PrefixEach(prefix: string, lines: seq<string>): (r: seq<string>)
    ensures |r| == |lines|
    ensures forall i :: 0 <= i < |lines| ==> r[i] == prefix + lines[i]
  {
    seq(|lines|, i requires 0 <= i < |lines| => prefix + lines[i])
  }

  lemma PrefixEachNoNewline(prefix: string, lines: seq<string>)
    requires '\n' !in prefix && NoNewline(lines)
    ensures NoNewline(PrefixEach(prefix, lines))
  {
    var r := PrefixEach(prefix, lines);
    forall i | 0 <= i < |r| ensures '\n' !in r[i] {
      assert r[i] == prefix + lines[i];
    }
  }

  /** Python's `str.isspace` for one character (the characters `str.strip` removes). */
  predicate IsSpace(c: char)
  {
    c == ' ' || ('\t' <= c <= '\r') || ('\U{1c}' <= c <= '\U{1f}') || c == '\U{0085}' || c == '\U{00a0}'
    || c == '\U{1680}' || ('\U{2000}' <= c <= '\U{200a}') || c == '\U{2028}' || c == '\U{2029}'
    || c == '\U{202f}' || c == '\U{205f}' || c == '\U{3000}'
  }

  /** `line.strip()` is not empty. */
  predicate HasContent(line: string)
  {
    exists i :: 0 <= i < |line| && !IsSpace(line[i])
  }

  /** A character at which `str.splitlines` ends a line: `\n`, `\r`, `\x0b`, `\x0c`,
      `\x1c`-`\x1e`, `\x85`, `\u2028` and `\u2029`. */
  predicate IsLineBreak(c: char)
  {
    c == '\n' || c == '\r' || c == '\U{0b}' || c == '\U{0c}' || ('\U{1c}' <= c <= '\U{1e}')
    || c == '\U{0085}' || c == '\U{2028}' || c == '\U{2029}'
  }

  /** No line holds any of the characters `str.splitlines` breaks at. */
  predicate NoLineBreak(lines: seq<string>)
  {
    forall i, k :: 0 <= i < |lines| && 0 <= k < |lines[i]| ==> !IsLineBreak(lines[i][k])
  }

  lemma NoLineBreakNoNewline(lines: seq<string>)
    requires NoLineBreak(lines)
    ensures NoNewline(lines)
  {
    forall i | 0 <= i < |lines| ensures '\n' !in lines[i] {
      forall k | 0 <= k < |lines[i]| ensures lines[i][k] != '\n' {
        assert !IsLineBreak(lines[i][k]);
      }
    }
  }

  lemma PrefixEachNoLineBreak(prefix: string, lines: seq<string>)
    requires forall k :: 0 <= k < |prefix| ==> !IsLineBreak(prefix[k])
    requires NoLineBreak(lines)
    ensures NoLineBreak(PrefixEach(prefix, lines))
  {
    var r := PrefixEach(prefix, lines);
    forall i, k | 0 <= i < |r| && 0 <= k < |r[i]| ensures !IsLineBreak(r[i][k]) {
      assert r[i] == prefix + lines[i];
      if k >= |prefix| {
        assert r[i][k] == lines[i][k - |prefix|];
      }
    }
  }

  /** `textwrap.indent(text, prefix)`: `prefix` in front of every line that is not blank. Lines
      are cut at `\n` only, where `textwrap.indent` cuts at every `str.splitlines` boundary; the
      two agree on text whose lines hold no other boundary (`NoLineBreak`). */
  function TextIndent(text: string, prefix: string): string
  {
    var lines := Split(text);
    Join(seq(|lines|, i requires 0 <= i < |lines| => if HasContent(lines[i]) then prefix + lines[i] else lines[i]))
  }

  lemma NoNewlineAppend(a: seq<string>, b: seq<string>)
    requires NoNewline(a) && NoNewline(b)
    ensures NoNewline(a + b)
  {
    forall i | 0 <= i < |a + b| ensures '\n' !in (a + b)[i] {
      if i < |a| { assert (a + b)[i] == a[i]; } else { assert (a + b)[i] == b[i - |a|]; }
    }
  }

  /** `s.endswith(suffix)`. */
  predicate EndsWith(s: string, suffix: string)
  {
    |suffix| <= |s| && s[|s| - |suffix|..] == suffix
  }

  /** `" " * n` (empty when n is not positive). */
  function Spaces(n: int): (s: string)
    ensures |s| == (if n < 0 then 0 else n)
    ensures forall i :: 0 <= i < |s| ==> s[i] == ' '
  {
    seq(if n < 0 then 0 else n, _ => ' ')
  }

  /** The concatenation `"".join(parts)`, built left to right. */
  function Concat(parts: seq<string>): string
    decreases |parts|
  {
    if |parts| == 0 then "" else Concat(parts[..|parts| - 1]) + parts[|parts| - 1]
  }

  // ---------------------------------------------------------------- decimal digits

  predicate IsDigit(c: char) { '0' <= c <= '9' }

  function DigitChar(d: int): (c: char)
    requires 0 <= d < 10
    ensures IsDigit(c) && c as int - '0' as int == d
  {
    ('0' as int + d) as char
  }

  function Pow10(w: nat): (p: nat)
    ensures p >= 1
  {
    if w == 0 then 1 else 10 * Pow10(w - 1)
  }

  /** The last `w` decimal digits of `n`, zero-padded (`%0wd` for `n < 10^w`). */
  function FixedDigits(n: nat, w: nat): (s: string)
    ensures |s| == w
    ensures forall i :: 0 <= i < |s| ==> IsDigit(s[i])
    decreases w
  {
    if w == 0 then "" else FixedDigits(n / 10, w - 1) + [DigitChar(n % 10)]
  }

  /** The number an all-digit string spells. */
  function DigitsValue(s: string): nat
    requires forall i :: 0 <= i < |s| ==> IsDigit(s[i])
    decreases |s|
  {
    if s == [] then 0
    else
      assert IsDigit(s[|s| - 1]);
      10 * DigitsValue(s[..|s| - 1]) + (s[|s| - 1] as int - '0' as int)
  }

  /** Reading back a fixed-width field gives the number it was printed from. */
  lemma {:induction false} FixedDigitsValue(n: nat, w: nat)
    requires n < Pow10(w)
    ensures DigitsValue(FixedDigits(n, w)) == n
    decreases w
  {
    if w > 0 {
      var s := FixedDigits(n, w);
      assert s[..|s| - 1] == FixedDigits(n / 10, w - 1);
      FixedDigitsValue(n / 10, w - 1);
    }
  }

  // ---------------------------------------------------------------- code-point order

  /** Python's `a < b` on `str`: lexicographic by code point, a proper prefix first. */
  predicate StrLess(a: string, b: string)
    decreases |a|
  {
    if a == [] then b != []
    else if b == [] then false
    else if a[0] != b[0] then a[0] < b[0]
    else StrLess(a[1..], b[1..])
  }

  lemma {:induction false} StrLessIrreflexive(a: string)
    ensures !StrLess(a, a)
    decreases |a|
  {
    if a != [] { StrLessIrreflexive(a[1..]); }
  }

  lemma {:induction false} StrLessTransitive(a: string, b: string, c: string)
    requires StrLess(a, b) && StrLess(b, c)
    ensures StrLess(a, c)
    decreases |a|
  {
    if a != [] && b != [] && c != [] && a[0] == b[0] && b[0] == c[0] {
      StrLessTransitive(a[1..], b[1..], c[1..]);
    }
  }

  lemma StrLessAsymmetric(a: string, b: string)
    requires StrLess(a, b)
    ensures !StrLess(b, a)
  {
    if StrLess(b, a) {
      StrLessTransitive(a, b, a);
      StrLessIrreflexive(a);
    }
  }

  lemma {:induction false} StrLessTotal(a: string, b: string)
    ensures a == b || StrLess(a, b) || StrLess(b, a)
    decreases |a|
  {
    if a != [] && b != [] && a[0] == b[0] {
      StrLessTotal(a[1..], b[1..]);
      if a[1..] == b[1..] {
        assert a == [a[0]] + a[1..] && b == [b[0]] + b[1..];
      }
    }
  }
}

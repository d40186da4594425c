/**
 * The handful of Python string operations the track-file planner uses:
 * `replace(ch, '')`, `split(sep)`, `split(sep, 1)`, joining with a separator,
 * `int()` on decimal digit strings, and the `%d` and `%02d` conversions.
 */
module Strings {
  import opened Wrappers

  /** `s.replace(ch, '')`: every occurrence of `ch` removed, all else kept in order. */
  function RemoveAll(s: string, ch: char): (r: string)
    ensures ch !in r
    ensures forall c :: c in r <==> c in s && c != ch
    ensures multiset(r) == multiset(s)[ch := 0]
    ensures ch !in s ==> r == s
    ensures |r| <= |s|
  {
    if |s| == 0 then ""
    else
      assert s == [s[0]] + s[1..];
      (if s[0] == ch then "" else [s[0]]) + RemoveAll(s[1..], ch)
  }

  /** Removal works piece by piece and keeps the order: removing from a concatenation concatenates the removals. */
  lemma {:induction false} RemoveAllAppend(a: string, b: string, ch: char)
    ensures RemoveAll(a + b, ch) == RemoveAll(a, ch) + RemoveAll(b, ch)
  {
    if |a| > 0 {
      var h := if a[0] == ch then "" else [a[0]];
      TailOfAppend(a, b);
      calc {
        RemoveAll(a + b, ch);
        h + RemoveAll(a[1..] + b, ch);
        { RemoveAllAppend(a[1..], b, ch); }
        h + (RemoveAll(a[1..], ch) + RemoveAll(b, ch));
        { AppendAssoc(h, RemoveAll(a[1..], ch), RemoveAll(b, ch)); }
        (h + RemoveAll(a[1..], ch)) + RemoveAll(b, ch);
      }
    } else {
      assert a + b == b;
    }
  }

  lemma TailOfAppend(a: string, b: string)
    requires |a| > 0
    ensures (a + b)[0] == a[0] && (a + b)[1..] == a[1..] + b
  {
  }

  lemma AppendAssoc(x: string, y: string, z: string)
    ensures x + (y + z) == (x + y) + z
  {
  }

  /** A single character is dropped exactly when it is the one removed. */
  lemma RemoveAllChar(c: char, ch: char)
    ensures RemoveAll([c], ch) == if c == ch then [] else [c]
  {
    assert [c][1..] == [];
  }

  /** Position of the first `ch` in `s`, if any. */
  function IndexOf(s: string, ch: char): (r: Option<nat>)
    ensures r.Some? ==> r.value < |s| && s[r.value] == ch && ch !in s[..r.value]
    ensures r.None? ==> ch !in s
  {
    if |s| == 0 then None
    else if s[0] == ch then Some(0)
    else match IndexOf(s[1..], ch)
      case None => None
      case Some(i) =>
        assert s[..i + 1] == [s[0]] + s[1..][..i];
        Some(i + 1)
  }

  /**
   * `s.split(sep, 1)`: the text before the first `sep`, and the text after
   * it when there is one (Python then returns a one-element list).
   */
  function SplitOnce(s: string, sep: char): (r: (string, Option<string>))
    ensures sep !in r.0
    ensures r.1.None? <==> sep !in s
    ensures r.1.None? ==> r.0 == s
    ensures r.1.Some? ==> s == r.0 + [sep] + r.1.value
  {
    match IndexOf(s, sep)
    case None => (s, None)
    case Some(i) =>
      assert s == s[..i] + [sep] + s[i + 1..];
      (s[..i], Some(s[i + 1..]))
  }

  /** `s.split(sep)` with an explicit separator: empty pieces are kept. */
  function SplitOn(s: string, sep: char): (parts: seq<string>)
    ensures |parts| >= 1
    ensures forall k :: 0 <= k < |parts| ==> sep !in parts[k]
    decreases |s|
  {
    match IndexOf(s, sep)
    case None => [s]
    case Some(i) => [s[..i]] + SplitOn(s[i + 1..], sep)
  }

  /** `sep.join(parts)`. */
  function Join(parts: seq<string>, sep: char): string
  {
    if |parts| == 0 then ""
    else if |parts| == 1 then parts[0]
    else parts[0] + [sep] + Join(parts[1..], sep)
  }

  /** Joining the pieces of a split gives back the original text. */
  lemma {:induction false} JoinSplitOn(s: string, sep: char)
    ensures Join(SplitOn(s, sep), sep) == s
    decreases |s|
  {
    match IndexOf(s, sep)
    case None =>
    case Some(i) =>
      var rest := SplitOn(s[i + 1..], sep);
      JoinSplitOn(s[i + 1..], sep);
      assert SplitOn(s, sep) == [s[..i]] + rest;
      assert s == s[..i] + [sep] + s[i + 1..];
  }

  /** Splitting a join of separator-free pieces gives back the pieces. */
  lemma {:induction false} SplitOnJoin(parts: seq<string>, sep: char)
    requires |parts| >= 1
    requires forall k :: 0 <= k < |parts| ==> sep !in parts[k]
    ensures SplitOn(Join(parts, sep), sep) == parts
  {
    if |parts| > 1 {
      var tail := Join(parts[1..], sep);
      var s := parts[0] + [sep] + tail;
      assert Join(parts, sep) == s;
      AroundSeparator(parts[0], sep, tail);
      IndexOfPrefixFree(parts[0], sep, tail);
      assert SplitOn(s, sep) == [parts[0]] + SplitOn(tail, sep);
      assert forall k :: 0 <= k < |parts| - 1 ==> parts[1..][k] == parts[k + 1];
      SplitOnJoin(parts[1..], sep);
      assert [parts[0]] + parts[1..] == parts;
    } else {
      assert IndexOf(parts[0], sep).None?;
    }
  }

  lemma AroundSeparator(a: string, sep: char, b: string)
    ensures (a + [sep] + b)[|a|] == sep
    ensures (a + [sep] + b)[..|a|] == a
    ensures (a + [sep] + b)[|a| + 1..] == b
  {
  }

  /** The first separator of `a + [sep] + b` is the one after `a`. */
  lemma {:induction false} IndexOfPrefixFree(a: string, sep: char, b: string)
    requires sep !in a
    ensures IndexOf(a + [sep] + b, sep) == Some(|a|)
  {
    var s := a + [sep] + b;
    assert s[|a|] == sep;
  }

  predicate IsDigit(c: char) { '0' <= c <= '9' }

  /** A non-empty string of decimal digits: what this model lets `int()` read. */
  predicate IsDecimal(s: string)
  {
    |s| > 0 && forall k :: 0 <= k < |s| ==> IsDigit(s[k])
  }

  /** The value of a decimal digit string, read left to right as `int()` does. */
  function DigitsValue(s: string): nat
    requires forall k :: 0 <= k < |s| ==> IsDigit(s[k])
  {
    if |s| == 0 then 0
    else
      assert IsDigit(s[|s| - 1]);
      10 * DigitsValue(s[..|s| - 1]) + (s[|s| - 1] as int - '0' as int)
  }

  function DigitChar(d: nat): (c: char)
    requires d < 10
    ensures IsDigit(c) && c as int - '0' as int == d
  {
    ('0' as int + d) as char
  }

  /** `str(n)` / `"%d" % n` for a non-negative `n`. */
  function NatToString(n: nat): (r: string)
    ensures IsDecimal(r) && DigitsValue(r) == n
    ensures |r| == 1 <==> n < 10
    ensures r[0] == '0' ==> n == 0
  {
    if n < 10 then [DigitChar(n)]
    else
      var prefix := NatToString(n / 10);
      var r := prefix + [DigitChar(n % 10)];
      assert r[..|r| - 1] == prefix;
      r
  }

  /** `"%d" % i`: a minus sign in front of the digits of a negative number. */
  function IntToString(i: int): (r: string)
    ensures |r| > 0
    ensures r[0] == '-' <==> i < 0
    ensures i < 0 ==> IsDecimal(r[1..]) && DigitsValue(r[1..]) == -i
    ensures i >= 0 ==> IsDecimal(r) && DigitsValue(r) == i
    ensures i >= 0 && |r| > 1 ==> r[0] != '0'
    ensures i < 0 ==> |r| > 1 && r[1] != '0'
  {
    if i < 0 then
      var r := "-" + NatToString(-i);
      assert r[1..] == NatToString(-i);
      r
    else NatToString(i)
  }

  /** `"%02d" % n`: the digits of `n`, zero-padded to at least two characters. */
  function Pad2(n: nat): (r: string)
    ensures IsDecimal(r) && DigitsValue(r) == n
    ensures |r| >= 2
    ensures n < 100 <==> |r| == 2
    ensures r[0] == '0' <==> n < 10
  {
    if n < 10 then
      var r := "0" + NatToString(n);
      assert r[..1] == "0";
      r
    else
      var r := NatToString(n);
      assert n < 100 ==> |NatToString(n / 10)| == 1;
      assert n >= 100 ==> |NatToString(n / 10)| >= 2;
      r
  }
}

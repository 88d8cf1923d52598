/**
  The handful of Python string operations the generator relies on:
  `str.lower`, the `in` substring test, `str.join`, `str(int)` and `str.rfind`.
 */
module Strings {

  /** `str.lower` on one character, for the ASCII letters. */
  function LowerChar(c: char): char {
    if 'A' <= c <= 'Z' then (c as int - 'A' as int + 'a' as int) as char else c
  }

  /** `s.lower()`. */
  function Lower(s: string): (r: string)
    ensures |r| == |s|
  {
    seq(|s|, i requires 0 <= i < |s| => LowerChar(s[i]))
  }

  /** `t` occurs in `s` starting at position `i`. */
  predicate OccursAt(s: string, t: string, i: int) {
    0 <= i <= |s| - |t| && s[i..i + |t|] == t
  }

  /** Python's `t in s` for strings: `t` occurs in `s` as a contiguous substring. */
  predicate Contains(s: string, t: string) {
    exists i | 0 <= i <= |s| - |t| :: OccursAt(s, t, i)
  }

  predicate StartsWith(s: string, prefix: string) {
    prefix <= s
  }

  predicate EndsWith(s: string, suffix: string) {
    |suffix| <= |s| && s[|s| - |suffix|..] == suffix
  }

  lemma ContainsMiddle(a: string, t: string, b: string)
    ensures Contains(a + t + b, t)
  {
    assert (a + t + b)[|a|..|a| + |t|] == t;
    assert OccursAt(a + t + b, t, |a|);
  }

  lemma ContainsPrefix(t: string, b: string)
    ensures Contains(t + b, t)
  {
    assert (t + b)[..|t|] == t;
    assert OccursAt(t + b, t, 0);
  }

  /** Dropping an empty part leaves the same string to look for. */
  lemma ContainsWithoutEmpty(s: string, a: string, m: string, b: string, c: string)
    requires Contains(s, a + m + b + c) && m == []
    ensures Contains(s, a + b + c)
  {
    assert a + m + b + c == a + b + c;
  }

  /** A string sandwiched between two others: the whole starts with the first,
      ends with the last and holds the middle one. */
  lemma Sandwich(a: string, m: string, b: string)
    ensures StartsWith(a + m + b, a) && EndsWith(a + m + b, b) && Contains(a + m + b, m)
  {
    ContainsMiddle(a, m, b);
    assert (a + m + b)[|a + m|..] == b;
  }

  /** A concatenation starts with its left part and ends with its right part. */
  lemma Concat(a: string, b: string)
    ensures StartsWith(a + b, a) && EndsWith(a + b, b)
  {
    assert (a + b)[|a|..] == b;
  }

  /** What occurs in the middle part occurs in the whole. */
  lemma ContainsWithin(a: string, m: string, b: string, t: string)
    requires Contains(m, t)
    ensures Contains(a + m + b, t)
  {
    var i :| 0 <= i <= |m| - |t| && OccursAt(m, t, i);
    assert (a + m + b)[|a| + i..|a| + i + |t|] == m[i..i + |t|];
    assert OccursAt(a + m + b, t, |a| + i);
  }

  /** Containment is transitive. */
  lemma ContainsTransitive(s: string, m: string, t: string)
    requires Contains(s, m) && Contains(m, t)
    ensures Contains(s, t)
  {
    var i :| 0 <= i <= |s| - |m| && OccursAt(s, m, i);
    var j :| 0 <= j <= |m| - |t| && OccursAt(m, t, j);
    forall k | 0 <= k < |t|
      ensures s[i + j + k] == t[k]
    {
      assert t[k] == m[j + k] == s[i + j + k];
    }
    assert s[i + j..i + j + |t|] == t;
    assert OccursAt(s, t, i + j);
  }

  /** An occurrence of `a + b` holds an occurrence of `b`. */
  lemma ContainsRight(s: string, a: string, b: string)
    requires Contains(s, a + b)
    ensures Contains(s, b)
  {
    var i :| 0 <= i <= |s| - |a + b| && OccursAt(s, a + b, i);
    assert s[i + |a|..i + |a| + |b|] == (a + b)[|a|..];
    assert OccursAt(s, b, i + |a|);
  }

  lemma ContainsChar(s: string, t: string, c: char)
    requires Contains(s, t) && |t| > 0 && t[0] == c
    ensures c in s
  {
    var i :| 0 <= i <= |s| - |t| && OccursAt(s, t, i);
    assert s[i] == t[0];
  }

  /** `sep.join(parts)`. */
  function Join(sep: string, parts: seq<string>): string
    decreases |parts|
  {
    if |parts| == 0 then ""
    else if |parts| == 1 then parts[0]
    else parts[0] + sep + Join(sep, parts[1..])
  }

  /** Joining two non-empty lists is joining their joins: the parts keep their order. */
  lemma {:induction false} JoinAppend(sep: string, a: seq<string>, b: seq<string>)
    requires |a| > 0 && |b| > 0
    ensures Join(sep, a + b) == Join(sep, a) + sep + Join(sep, b)
    decreases |a|
  {
    var ab := a + b;
    if |a| == 1 {
      assert ab[1..] == b;
    } else {
      assert ab[1..] == a[1..] + b;
      JoinAppend(sep, a[1..], b);
    }
  }

  function DigitChar(d: nat): char
    requires d < 10
  {
    ('0' as int + d) as char
  }

  predicate IsDigits(s: string) {
    forall i :: 0 <= i < |s| ==> '0' <= s[i] <= '9'
  }

  /** `str(n)` for a natural number: decimal digits, no leading zero. */
  function Decimal(n: nat): (s: string)
    ensures |s| > 0 && IsDigits(s)
    ensures n > 0 ==> s[0] != '0'
    decreases n
  {
    if n < 10 then [DigitChar(n)] else Decimal(n / 10) + [DigitChar(n % 10)]
  }

  /** The number a string of decimal digits denotes. */
  function DigitsValue(s: string): nat
    requires IsDigits(s)
  {
    if s == [] then 0 else DigitsValue(s[..|s| - 1]) * 10 + (s[|s| - 1] as int - '0' as int)
  }

  /** Reading back the digits `Decimal` prints gives the number again. */
  lemma {:induction false} DecimalRoundTrip(n: nat)
    ensures DigitsValue(Decimal(n)) == n
    decreases n
  {
    if n >= 10 {
      var s := Decimal(n);
      assert s[..|s| - 1] == Decimal(n / 10);
      DecimalRoundTrip(n / 10);
    }
  }

  /** `s.rfind(c)`: the last position of `c` in `s`, or -1. */
  function LastIndexOf(s: string, c: char): (r: int)
    ensures -1 <= r < |s|
    ensures r >= 0 ==> s[r] == c
    ensures forall k :: r < k < |s| ==> s[k] != c
    decreases |s|
  {
    if |s| == 0 then -1
    else if s[|s| - 1] == c then |s| - 1
    else LastIndexOf(s[..|s| - 1], c)
  }
}

/** Decimal digits and the two string operations the program relies on:
    `sep.join(parts)` and `s.split(sep)` for a one-character separator. */
module Strings {

  predicate IsDigit(c: char)
  {
    '0' <= c <= '9'
  }

  predicate AllDigits(s: string)
  {
    forall i :: 0 <= i < |s| ==> IsDigit(s[i])
  }

  lemma DigitsHaveNoSpace(s: string)
    requires AllDigits(s)
    ensures ' ' !in s
  {
    assert forall i :: 0 <= i < |s| ==> s[i] != ' ';
  }

  function DigitChar(d: nat): (c: char)
    requires d < 10
    ensures IsDigit(c) && c as int - '0' as int == d
  {
    (d + '0' as int) as char
  }

  function DigitValue(c: char): (d: nat)
    requires IsDigit(c)
    ensures d < 10 && DigitChar(d) == c
  {
    c as int - '0' as int
  }

  function Pow10(k: nat): (p: nat)
    ensures p >= 1
  {
    if k == 0 then 1 else 10 * Pow10(k - 1)
  }

  /** `str(n)` for a non-negative integer: decimal, no leading zeros. */
  function NatToString(n: nat): (s: string)
    ensures |s| >= 1 && AllDigits(s)
    ensures |s| > 1 ==> s[0] != '0'
    decreases n
  {
    if n < 10 then [DigitChar(n)] else NatToString(n / 10) + [DigitChar(n % 10)]
  }

  /** `int(s)` on a string of decimal digits; the empty string reads as 0. */
  function ParseDigits(s: string): nat
    requires AllDigits(s)
  {
    if s == [] then 0 else 10 * ParseDigits(s[..|s| - 1]) + DigitValue(s[|s| - 1])
  }

  lemma {:induction false} ParseNatToString(n: nat)
    ensures ParseDigits(NatToString(n)) == n
    decreases n
  {
    if n >= 10 {
      var s := NatToString(n);
      assert s[..|s| - 1] == NatToString(n / 10);
      ParseNatToString(n / 10);
    }
  }

  lemma NatToStringInjective(m: nat, n: nat)
    requires NatToString(m) == NatToString(n)
    ensures m == n
  {
    ParseNatToString(m);
    ParseNatToString(n);
  }

  /** The last `k` decimal digits of `m`, with leading zeros: the digits
      that follow the point in `"%.6f"` when k == 6. */
  function FixedDigits(m: nat, k: nat): (s: string)
    ensures |s| == k && AllDigits(s)
  {
    if k == 0 then [] else FixedDigits(m / 10, k - 1) + [DigitChar(m % 10)]
  }

  lemma {:induction false} ParseFixedDigits(m: nat, k: nat)
    requires m < Pow10(k)
    ensures ParseDigits(FixedDigits(m, k)) == m
  {
    if k > 0 {
      var s := FixedDigits(m, k);
      assert s[..|s| - 1] == FixedDigits(m / 10, k - 1);
      ParseFixedDigits(m / 10, k - 1);
    }
  }

  /** The six-digit text of a number given by its six decimal digits. */
  lemma FixedDigitsOf6(m: nat, a: nat, b: nat, c: nat, d: nat, e: nat, f: nat)
    requires a < 10 && b < 10 && c < 10 && d < 10 && e < 10 && f < 10
    requires m == ((((a * 10 + b) * 10 + c) * 10 + d) * 10 + e) * 10 + f
    ensures FixedDigits(m, 6) == [DigitChar(a), DigitChar(b), DigitChar(c), DigitChar(d), DigitChar(e), DigitChar(f)]
  {
    var m1 := (((a * 10 + b) * 10 + c) * 10 + d) * 10 + e;
    var m2 := ((a * 10 + b) * 10 + c) * 10 + d;
    var m3 := (a * 10 + b) * 10 + c;
    var m4 := a * 10 + b;
    assert m / 10 == m1 && m % 10 == f;
    assert m1 / 10 == m2 && m1 % 10 == e;
    assert m2 / 10 == m3 && m2 % 10 == d;
    assert m3 / 10 == m4 && m3 % 10 == c;
    assert m4 / 10 == a && m4 % 10 == b;
    assert a / 10 == 0 && a % 10 == a;
    assert FixedDigits(a, 1) == [DigitChar(a)];
    assert FixedDigits(m4, 2) == [DigitChar(a), DigitChar(b)];
    assert FixedDigits(m3, 3) == [DigitChar(a), DigitChar(b), DigitChar(c)];
    assert FixedDigits(m2, 4) == [DigitChar(a), DigitChar(b), DigitChar(c), DigitChar(d)];
    assert FixedDigits(m1, 5) == [DigitChar(a), DigitChar(b), DigitChar(c), DigitChar(d), DigitChar(e)];
  }

  /** `sep.join(parts)` */
  function Join(sep: string, parts: seq<string>): string
  {
    if |parts| == 0 then ""
    else if |parts| == 1 then parts[0]
    else parts[0] + sep + Join(sep, parts[1..])
  }

  /** `s.split(c)` for a single separator character: the pieces between
      successive occurrences of `c`, empty pieces included. */
  function SplitOn(c: char, s: string): (parts: seq<string>)
    ensures |parts| >= 1
    decreases |s|
  {
    if c !in s then [s]
    else
      var i := IndexOf(c, s);
      [s[..i]] + SplitOn(c, s[i + 1..])
  }

  function IndexOf(c: char, s: string): (i: nat)
    requires c in s
    ensures i < |s| && s[i] == c && c !in s[..i]
  {
    if s[0] == c then 0
    else
      assert c in s[1..] by { var j :| 0 <= j < |s| && s[j] == c; assert s[1..][j - 1] == c; }
      var k := IndexOf(c, s[1..]);
      assert s[..k + 1] == [s[0]] + s[1..][..k];
      k + 1
  }

  /** Number of occurrences of `c` in `s`. */
  function Occurrences(c: char, s: string): nat
  {
    if s == [] then 0 else (if s[0] == c then 1 else 0) + Occurrences(c, s[1..])
  }

  lemma {:induction false} OccurrencesAppend(c: char, a: string, b: string)
    ensures Occurrences(c, a + b) == Occurrences(c, a) + Occurrences(c, b)
  {
    if a != [] {
      assert (a + b)[1..] == a[1..] + b;
      OccurrencesAppend(c, a[1..], b);
    } else {
      assert a + b == b;
    }
  }

  lemma {:induction false} OccurrencesAbsent(c: char, s: string)
    requires c !in s
    ensures Occurrences(c, s) == 0
  {
    if s != [] {
      assert c !in s[1..] by { assert forall i :: 0 <= i < |s[1..]| ==> s[1..][i] == s[i + 1]; }
      OccurrencesAbsent(c, s[1..]);
    }
  }

  /** Joining pieces that do not contain the separator and splitting again
      gives the pieces back. */
  lemma {:induction false} SplitJoin(c: char, parts: seq<string>)
    requires |parts| >= 1
    requires forall k :: 0 <= k < |parts| ==> c !in parts[k]
    ensures SplitOn(c, Join([c], parts)) == parts
  {
    if |parts| > 1 {
      var s := Join([c], parts);
      var p := parts[0];
      var rest := Join([c], parts[1..]);
      assert s == p + [c] + rest;
      assert s[|p|] == c;
      assert c in s;
      var i := IndexOf(c, s);
      assert i == |p| by {
        assert s[..|p|] == p;
      }
      assert s[..i] == p;
      assert s[i + 1..] == rest;
      SplitJoin(c, parts[1..]);
    }
  }

  /** `sep.join` of n pieces that do not contain a one-character separator
      holds exactly n - 1 separators. */
  lemma {:induction false} JoinOccurrences(c: char, parts: seq<string>)
    requires |parts| >= 1
    requires forall k :: 0 <= k < |parts| ==> c !in parts[k]
    ensures Occurrences(c, Join([c], parts)) == |parts| - 1
  {
    OccurrencesAbsent(c, parts[0]);
    if |parts| > 1 {
      JoinOccurrences(c, parts[1..]);
      OccurrencesAppend(c, parts[0] + [c], Join([c], parts[1..]));
      OccurrencesAppend(c, parts[0], [c]);
      assert Occurrences(c, [c]) == 1 by { assert [c][1..] == []; }
    }
  }

  /** `sep.join([a] + rest)` puts one separator after `a` when `rest` is not empty. */
  lemma JoinCons(sep: string, a: string, rest: seq<string>)
    requires |rest| >= 1
    ensures Join(sep, [a] + rest) == a + sep + Join(sep, rest)
  {
    assert ([a] + rest)[1..] == rest;
  }
}

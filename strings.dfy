/** Decimal digits and the two conversions the bot uses: Python's `str()` of a
    natural number and Python's `int()` of a string of ASCII digits. */
module Strings {
  import opened Wrappers

  predicate IsDigit(c: char) {
    '0' <= c <= '9'
  }

  predicate AllDigits(s: string) {
    forall i :: 0 <= i < |s| ==> IsDigit(s[i])
  }

  function DigitValue(c: char): (d: nat)
    requires IsDigit(c)
    ensures d < 10
  {
    (c as int) - ('0' as int)
  }

  function DigitChar(d: nat): (c: char)
    requires d < 10
    ensures IsDigit(c) && DigitValue(c) == d
  {
    (('0' as int) + d) as char
  }

  /** `str(n)` for a natural number: at least one digit, no leading zero. */
  function Decimal(n: nat): (s: string)
    ensures |s| > 0 && AllDigits(s)
    ensures s[0] == '0' <==> n == 0
    decreases n
  {
    if n < 10 then [DigitChar(n)] else Decimal(n / 10) + [DigitChar(n % 10)]
  }

  /** `int(s)` for a string of ASCII digits (leading zeros allowed, as in Python). */
  function DigitsValue(s: string): nat
    requires AllDigits(s)
  {
    if s == [] then 0 else DigitsValue(s[..|s| - 1]) * 10 + DigitValue(s[|s| - 1])
  }

  /** `str(n)` followed by `int(...)` gives n back. */
  lemma {:induction false} DecimalRoundTrip(n: nat)
    ensures DigitsValue(Decimal(n)) == n
  {
    if n >= 10 {
      var s := Decimal(n);
      assert s == Decimal(n / 10) + [DigitChar(n % 10)];
      assert s[..|s| - 1] == Decimal(n / 10);
      DecimalRoundTrip(n / 10);
    }
  }

  /** `str(i)` for any integer: a minus sign before the digits of a negative number. */
  function IntToString(i: int): (s: string)
    ensures i >= 0 ==> s == Decimal(i)
    ensures i < 0 ==> s == "-" + Decimal(-i)
  {
    if i < 0 then "-" + Decimal(-i) else Decimal(i)
  }

  /** Python's `int(t)` on a string made of an optional sign and ASCII digits;
      every other string is a `ValueError`, here `None`. */
  function ParseInt(t: string): (r: Option<int>)
    ensures r.Some? && |t| > 0 && IsDigit(t[0]) ==> AllDigits(t) && r.value == DigitsValue(t)
    ensures AllDigits(t) && t != [] ==> r == Some(DigitsValue(t))
    ensures |t| > 1 && t[0] == '-' && AllDigits(t[1..]) ==> r == Some(0 - DigitsValue(t[1..]))
    ensures |t| > 1 && t[0] == '+' && AllDigits(t[1..]) ==> r == Some(DigitsValue(t[1..]))
    ensures r.Some? ==> |t| > 0 && (IsDigit(t[0]) || ((t[0] == '-' || t[0] == '+') && |t| > 1 && AllDigits(t[1..])))
    ensures t == [] ==> r.None?
  {
    if |t| > 1 && (t[0] == '-' || t[0] == '+') && AllDigits(t[1..]) then
      var magnitude: int := DigitsValue(t[1..]);
      Some(if t[0] == '-' then -magnitude else magnitude)
    else if t != [] && AllDigits(t) then Some(DigitsValue(t))
    else None
  }

  /** Position of the first occurrence of c in s (Python's `str.find` when it is not -1). */
  function IndexOf(s: string, c: char): (r: Option<nat>)
    ensures r.Some? ==> r.value < |s| && s[r.value] == c && c !in s[..r.value]
    ensures r.None? <==> c !in s
  {
    if s == [] then None
    else if s[0] == c then Some(0)
    else match IndexOf(s[1..], c)
      case None => None
      case Some(k) => assert s[1..][..k] == s[1..k + 1]; Some(k + 1)
  }

  /** s ends with t. */
  predicate EndsWith(s: string, t: string) {
    |t| <= |s| && s[|s| - |t|..] == t
  }

  /** t occurs in s as a contiguous piece. */
  ghost predicate Contains(s: string, t: string) {
    exists i :: OccursAt(s, t, i)
  }

  predicate OccursAt(s: string, t: string, i: int) {
    0 <= i <= |s| - |t| && s[i..i + |t|] == t
  }

  lemma ContainsInside(a: string, t: string, b: string)
    ensures Contains(a + t + b, t)
  {
    var s := a + t + b;
    assert s[|a|..|a| + |t|] == t;
    assert OccursAt(s, t, |a|);
  }

  /** Every one of ts occurs in s. */
  ghost predicate ContainsAll(s: string, ts: seq<string>) {
    forall k :: 0 <= k < |ts| ==> Contains(s, ts[k])
  }

  /** Text appended after s keeps every piece s contains. */
  lemma ContainsAllGrow(s: string, b: string, ts: seq<string>)
    requires ContainsAll(s, ts)
    ensures ContainsAll(s + b, ts)
  {
    forall k | 0 <= k < |ts|
      ensures Contains(s + b, ts[k])
    {
      var i :| OccursAt(s, ts[k], i);
      assert (s + b)[i..i + |ts[k]|] == s[i..i + |ts[k]|];
      assert OccursAt(s + b, ts[k], i);
    }
  }

  /** Appending t adds t to the pieces contained. */
  lemma ContainsAllAppend(s: string, t: string, ts: seq<string>)
    requires ContainsAll(s, ts)
    ensures ContainsAll(s + t, ts + [t])
  {
    ContainsAllGrow(s, t, ts);
    ContainsInside(s, t, []);
    assert s + t + [] == s + t;
  }

  /** Text put in front of s keeps every piece s contains. */
  lemma ContainsAllPrepend(a: string, s: string, ts: seq<string>)
    requires ContainsAll(s, ts)
    ensures ContainsAll(a + s, ts)
  {
    forall k | 0 <= k < |ts|
      ensures Contains(a + s, ts[k])
    {
      var i :| OccursAt(s, ts[k], i);
      assert (a + s)[|a| + i..|a| + i + |ts[k]|] == s[i..i + |ts[k]|];
      assert OccursAt(a + s, ts[k], |a| + i);
    }
  }

  lemma EndsWithPrepend(a: string, s: string, t: string)
    requires EndsWith(s, t)
    ensures EndsWith(a + s, t)
  {
    assert (a + s)[|a + s| - |t|..] == s[|s| - |t|..];
  }

  lemma EndsWithLast(s: string, t: string, u: string)
    ensures EndsWith(s + t + u, t + u)
  {
    assert (s + t + u)[|s|..] == t + u;
  }
}

/**
 * The few Python `str` operations the tournament scripts rely on:
 * `startswith`, the `in` substring test, `replace(pat, "")`, `isdigit`,
 * `int(...)` on a digit string and `str(...)` on an integer.
 * Digits are the ASCII digits '0'..'9'.
 */
module Strings {

  /** `s.startswith(prefix)` */
  predicate StartsWith(s: string, prefix: string) {
    |prefix| <= |s| && s[..|prefix|] == prefix
  }

  /** `pat in s`: some suffix of `s` starts with `pat`. */
  predicate Contains(s: string, pat: string)
    decreases |s|
  {
    StartsWith(s, pat) || (s != [] && Contains(s[1..], pat))
  }

  predicate IsDigit(c: char) {
    '0' <= c <= '9'
  }

  /** `s.isdigit()`: non-empty and made of digits only. */
  predicate IsDigits(s: string) {
    s != [] && forall i :: 0 <= i < |s| ==> IsDigit(s[i])
  }

  /**
   * `s.replace(pat, "")`: scans left to right and drops every
   * non-overlapping occurrence of `pat`.
   */
  function RemoveAll(s: string, pat: string): (r: string)
    requires pat != []
    ensures |r| <= |s|
    ensures !Contains(s, pat) ==> r == s
    ensures Contains(s, pat) ==> |r| <= |s| - |pat|
    decreases |s|
  {
    if s == [] then []
    else if StartsWith(s, pat) then RemoveAll(s[|pat|..], pat)
    else [s[0]] + RemoveAll(s[1..], pat)
  }

  /** No occurrence of `pat` starts before position `k` of `s`. */
  predicate NoneBefore(s: string, pat: string, k: nat)
    requires k <= |s|
  {
    forall j :: 0 <= j < k ==> !StartsWith(s[j..], pat)
  }

  /** Past a position where `pat` does not start, the removal keeps that character. */
  lemma KeepFirst(s: string, pat: string)
    requires pat != [] && s != [] && !StartsWith(s, pat)
    ensures RemoveAll(s, pat) == [s[0]] + RemoveAll(s[1..], pat)
  {
  }

  /** An occurrence at the start is dropped. */
  lemma DropFirst(s: string, pat: string)
    requires pat != [] && StartsWith(s, pat)
    ensures RemoveAll(s, pat) == RemoveAll(s[|pat|..], pat)
  {
  }

  lemma NoneBeforeTail(s: string, pat: string, k: nat)
    requires 0 < k <= |s| && NoneBefore(s, pat, k)
    ensures !StartsWith(s, pat) && NoneBefore(s[1..], pat, k - 1)
  {
    assert s[0..] == s;
    forall j | 0 <= j < k - 1
      ensures !StartsWith(s[1..][j..], pat)
    {
      assert s[1..][j..] == s[j + 1..];
    }
  }

  /**
   * The first occurrence of `pat`, wherever it starts, is dropped: the text
   * before it is kept and the removal carries on after it.
   */
  lemma {:induction false} RemoveFirstOccurrence(s: string, pat: string, k: nat)
    requires pat != [] && k <= |s|
    requires StartsWith(s[k..], pat)
    requires NoneBefore(s, pat, k)
    ensures RemoveAll(s, pat) == s[..k] + RemoveAll(s[k + |pat|..], pat)
    decreases k
  {
    if k == 0 {
      assert s[0..] == s;
      DropFirst(s, pat);
      assert s[..0] + RemoveAll(s[|pat|..], pat) == RemoveAll(s[|pat|..], pat);
    } else {
      var tail := s[1..];
      var rest := RemoveAll(s[k + |pat|..], pat);
      NoneBeforeTail(s, pat, k);
      KeepFirst(s, pat);
      ShiftSlices(s, k, |pat|);
      RemoveFirstOccurrence(tail, pat, k - 1);
      SameRemoval(tail[k - 1 + |pat|..], s[k + |pat|..], pat);
      ConsAppend(s[0], tail[..k - 1], rest);
      assert RemoveAll(s, pat) == ([s[0]] + tail[..k - 1]) + rest;
    }
  }

  lemma SameRemoval(a: string, b: string, pat: string)
    requires pat != [] && a == b
    ensures RemoveAll(a, pat) == RemoveAll(b, pat)
  {
  }

  lemma ShiftSlices(s: string, k: nat, n: nat)
    requires 0 < k && k + n <= |s|
    ensures s[1..][k - 1..] == s[k..]
    ensures s[1..][k - 1 + n..] == s[k + n..]
    ensures s[..k] == [s[0]] + s[1..][..k - 1]
  {
  }

  lemma ConsAppend(c: char, a: string, b: string)
    ensures [c] + (a + b) == ([c] + a) + b
  {
  }

  /** `int(s)` for a digit string (leading zeros allowed). */
  function DigitsValue(s: string): (n: nat)
    requires forall i :: 0 <= i < |s| ==> IsDigit(s[i])
    decreases |s|
  {
    if s == [] then 0
    else
      assert IsDigit(s[|s| - 1]);
      DigitsValue(s[..|s| - 1]) * 10 + (s[|s| - 1] as int - '0' as int)
  }

  function DigitChar(d: nat): (c: char)
    requires d < 10
    ensures IsDigit(c) && c as int - '0' as int == d
  {
    ['0', '1', '2', '3', '4', '5', '6', '7', '8', '9'][d]
  }

  /** `str(n)` for a natural number: its decimal digits, no leading zero. */
  function NatToDigits(n: nat): (s: string)
    ensures IsDigits(s)
    ensures |s| > 1 ==> s[0] != '0'
    ensures DigitsValue(s) == n
    decreases n
  {
    if n < 10 then [DigitChar(n)]
    else
      var front := NatToDigits(n / 10);
      var s := front + [DigitChar(n % 10)];
      assert s[..|s| - 1] == front;
      s
  }

  /** `str(n)` for any integer. */
  function IntToText(n: int): (s: string)
    ensures s != []
    ensures n >= 0 ==> IsDigits(s) && DigitsValue(s) == n
    ensures n < 0 ==> s[0] == '-' && !IsDigits(s)
  {
    if n >= 0 then NatToDigits(n) else "-" + NatToDigits(-n)
  }

  /** `str(n)` of a negative number is a '-' followed by `str(-n)`. */
  lemma NegativeText(n: int)
    requires n < 0
    ensures IntToText(n)[1..] == NatToDigits(-n)
    ensures IsDigits(IntToText(n)[1..]) && DigitsValue(IntToText(n)[1..]) == -n
  {
    assert ("-" + NatToDigits(-n))[1..] == NatToDigits(-n);
  }
}

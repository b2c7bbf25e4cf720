/**
 Decimal text of integers, as JavaScript template literals render a Number
 with an integral value (`${status}`, `${Date.now()}`, `${pr.number}`).
 */
module Decimal {

  predicate IsDigit(c: char) {
    '0' <= c <= '9'
  }

  predicate AllDigits(s: string) {
    forall i :: 0 <= i < |s| ==> IsDigit(s[i])
  }

  function DigitChar(d: nat): (c: char)
    requires d < 10
    ensures IsDigit(c)
  {
    ('0' as int + d) as char
  }

  function DigitValue(c: char): nat
    requires IsDigit(c)
  {
    c as int - '0' as int
  }

  /** Shortest decimal text of `n`: digits only, no leading zero. */
  function OfNat(n: nat): (s: string)
    ensures |s| >= 1 && AllDigits(s)
    ensures |s| > 1 ==> s[0] != '0'
    decreases n
  {
    if n < 10 then [DigitChar(n)] else OfNat(n / 10) + [DigitChar(n % 10)]
  }

  /** Decimal text of any integer, with a leading `-` when it is negative. */
  function OfInt(n: int): string {
    if n < 0 then "-" + OfNat(-n) else OfNat(n)
  }

  /** Reads back a digit string. */
  function ToNat(s: string): nat
    requires AllDigits(s)
    decreases |s|
  {
    if s == [] then 0 else ToNat(s[..|s| - 1]) * 10 + DigitValue(s[|s| - 1])
  }

  lemma {:induction false} RoundTrip(n: nat)
    ensures ToNat(OfNat(n)) == n
    decreases n
  {
    if n >= 10 {
      var s := OfNat(n);
      assert s[..|s| - 1] == OfNat(n / 10);
      RoundTrip(n / 10);
    }
  }

  /** Different numbers never render to the same text. */
  lemma Injective(a: nat, b: nat)
    ensures OfNat(a) == OfNat(b) ==> a == b
  {
    RoundTrip(a);
    RoundTrip(b);
  }
}

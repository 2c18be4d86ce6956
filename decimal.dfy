/** Decimal digit strings: the integer `toString()` of JavaScript numbers and
    the fixed-width digit groups that `toFixed` produces. */
module Decimal {

  predicate IsDigit(c: char) {
    '0' <= c <= '9'
  }

  predicate AllDigits(s: string) {
    forall i :: 0 <= i < |s| ==> IsDigit(s[i])
  }

  function DigitValue(c: char): (d: nat)
    requires IsDigit(c)
    ensures d < 10
  {
    c as int - '0' as int
  }

  function DigitChar(d: nat): (c: char)
    requires d < 10
    ensures IsDigit(c) && DigitValue(c) == d
  {
    ('0' as int + d) as char
  }

  function Pow10(n: nat): (p: nat)
    ensures p >= 1
  {
    if n == 0 then 1 else 10 * Pow10(n - 1)
  }

  /** The number a digit string denotes, most significant digit first. */
  function DigitsValue(s: string): nat
    requires AllDigits(s)
  {
    if s == [] then 0 else DigitsValue(s[..|s| - 1]) * 10 + DigitValue(s[|s| - 1])
  }

  /** `n.toString()` for a non-negative integer: the shortest decimal
      numeral, so it denotes `n`, is never empty and has no leading zero. */
  function NatToString(n: nat): (s: string)
    ensures |s| >= 1 && AllDigits(s)
    ensures DigitsValue(s) == n
    ensures |s| > 1 ==> s[0] != '0'
  {
    if n < 10 then [DigitChar(n)]
    else
      var s := NatToString(n / 10) + [DigitChar(n % 10)];
      assert s[..|s| - 1] == NatToString(n / 10);
      s
  }

  /** Exactly `w` digits denoting `v`, zero-padded on the left (the
      fraction digits of `toFixed(w)`). */
  function FixedDigits(v: nat, w: nat): (s: string)
    requires v < Pow10(w)
    ensures |s| == w && AllDigits(s)
    ensures DigitsValue(s) == v
  {
    if w == 0 then []
    else
      var s := FixedDigits(v / 10, w - 1) + [DigitChar(v % 10)];
      assert s[..|s| - 1] == FixedDigits(v / 10, w - 1);
      s
  }
}

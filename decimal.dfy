/**
 * How JavaScript writes an array length as a string (`${n}`, or a number placed
 * as a text child): decimal digits, most significant first, with no leading zero
 * except for zero itself. Lengths stay below 2^32, far from the exponent form
 * JavaScript uses from 10^21 on, so the digits are modelled for every natural.
 */
module Decimal {

  predicate IsDigit(c: char) {
    '0' <= c <= '9'
  }

  predicate AllDigits(s: string) {
    forall i :: 0 <= i < |s| ==> IsDigit(s[i])
  }

  /** A non-empty digit string without a superfluous leading zero. */
  predicate IsCanonical(s: string) {
    |s| > 0 && AllDigits(s) && (s[0] == '0' ==> |s| == 1)
  }

  /** The character of a single decimal digit. */
  function DigitChar(d: nat): (c: char)
    requires d < 10
    ensures IsDigit(c) && c as int - '0' as int == d
  {
    ('0' as int + d) as char
  }

  /** The number a digit string denotes, reading it most significant digit first. */
  function Value(s: string): nat
    requires AllDigits(s)
  {
    if |s| == 0 then 0 else Value(s[..|s| - 1]) * 10 + (s[|s| - 1] as int - '0' as int)
  }

  /** The decimal text of `n`; its value is `n` and it has no leading zero. */
  function ToDecimal(n: nat): (s: string)
    ensures IsCanonical(s) && Value(s) == n
  {
    if n < 10 then [DigitChar(n)]
    else
      var s := ToDecimal(n / 10) + [DigitChar(n % 10)];
      assert s[..|s| - 1] == ToDecimal(n / 10);
      s
  }

  /** A digit string whose leading digit is not zero denotes a positive number. */
  lemma {:induction false} LeadingNonZeroPositive(s: string)
    requires |s| > 0 && AllDigits(s) && s[0] != '0'
    ensures Value(s) >= 1
  {
    if |s| > 1 {
      LeadingNonZeroPositive(s[..|s| - 1]);
    }
  }

  /** Every canonical digit string is the decimal text of the number it denotes. */
  lemma {:induction false} ToDecimalOfValue(s: string)
    requires IsCanonical(s)
    ensures ToDecimal(Value(s)) == s
  {
    if |s| > 1 {
      var t := s[..|s| - 1];
      var d := s[|s| - 1] as int - '0' as int;
      LeadingNonZeroPositive(t);
      ToDecimalOfValue(t);
      assert Value(s) / 10 == Value(t) && Value(s) % 10 == d;
      assert s == t + [s[|s| - 1]];
    }
  }
}

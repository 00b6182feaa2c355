/** Decimal rendering of integers, as Go's `fmt.Sprintf("%d", n)` produces it:
    an optional leading '-' followed by the digits of |n|, with no leading zeros
    and no '+' sign. A parser is given beside it so that the rendering can be
    shown to lose nothing. */
module Decimal {

  predicate IsDigit(c: char) {
    '0' <= c <= '9'
  }

  predicate AllDigits(s: string) {
    forall i :: 0 <= i < |s| ==> IsDigit(s[i])
  }

  function DigitChar(d: nat): (c: char)
    requires d < 10
    ensures IsDigit(c)
    ensures c == '0' <==> d == 0
  {
    (('0' as int) + d) as char
  }

  function DigitValue(c: char): (d: nat)
    requires IsDigit(c)
    ensures d < 10
  {
    (c as int) - ('0' as int)
  }

  /** The digits of a natural number, most significant first. */
  function Digits(n: nat): (s: string)
    ensures |s| > 0 && AllDigits(s)
    ensures s[0] == '0' <==> n == 0
    ensures n == 0 ==> s == "0"
    decreases n
  {
    if n < 10 then [DigitChar(n)] else Digits(n / 10) + [DigitChar(n % 10)]
  }

  /** `%d`: a '-' for negative numbers, then the digits of the magnitude. */
  function DecimalString(n: int): string {
    if n < 0 then "-" + Digits(-n) else Digits(n)
  }

  /** `%d` writes well-formed decimals, with a sign exactly for negative numbers. */
  lemma DecimalStringWellFormed(n: int)
    ensures WellFormed(DecimalString(n))
    ensures DecimalString(n)[0] == '-' <==> n < 0
  {
  }

  /** The strings `%d` can produce: no empty string, no "-0", no leading zeros. */
  predicate WellFormed(s: string) {
    if |s| > 0 && s[0] == '-' then
      |s| > 1 && AllDigits(s[1..]) && s[1] != '0'
    else
      |s| > 0 && AllDigits(s) && (s[0] == '0' ==> |s| == 1)
  }

  function ParseDigits(s: string): nat
    requires AllDigits(s)
  {
    if |s| == 0 then 0 else ParseDigits(s[..|s| - 1]) * 10 + DigitValue(s[|s| - 1])
  }

  function ParseDecimal(s: string): int
    requires WellFormed(s)
  {
    if s[0] == '-' then -(ParseDigits(s[1..]) as int) else ParseDigits(s)
  }

  lemma DigitCharValue(d: nat)
    requires d < 10
    ensures DigitValue(DigitChar(d)) == d
  {
  }

  lemma {:induction false} ParseDigitsOfDigits(n: nat)
    ensures ParseDigits(Digits(n)) == n
    decreases n
  {
    if n < 10 {
      DigitCharValue(n);
    } else {
      var s := Digits(n);
      assert s == Digits(n / 10) + [DigitChar(n % 10)];
      assert s[..|s| - 1] == Digits(n / 10);
      ParseDigitsOfDigits(n / 10);
      DigitCharValue(n % 10);
    }
  }

  /** Reading back what `%d` wrote gives the original number. */
  lemma DecimalRoundTrip(n: int)
    ensures WellFormed(DecimalString(n))
    ensures ParseDecimal(DecimalString(n)) == n
  {
    DecimalStringWellFormed(n);
    if n < 0 {
      assert DecimalString(n)[1..] == Digits(-n);
      ParseDigitsOfDigits(-n);
    } else {
      ParseDigitsOfDigits(n);
    }
  }

  /** Distinct ports never render to the same annotation value. */
  lemma DecimalInjective(a: int, b: int)
    requires DecimalString(a) == DecimalString(b)
    ensures a == b
  {
    DecimalRoundTrip(a);
    DecimalRoundTrip(b);
  }
}

/**
 * Python's decimal text of an integer, `str(n)`, as an f-string placeholder
 * `{n}` writes it: an optional minus sign, then digits without leading zeros.
 */
module Decimal {

  predicate IsDigit(c: char) {
    '0' <= c <= '9'
  }

  function DigitChar(d: int): (c: char)
    requires 0 <= d < 10
    ensures IsDigit(c)
  {
    ('0' as int + d) as char
  }

  function DigitValue(c: char): int
    requires IsDigit(c)
  {
    c as int - '0' as int
  }

  predicate AllDigits(s: string) {
    forall i | 0 <= i < |s| :: IsDigit(s[i])
  }

  /** The digits of a natural number, most significant first. */
  function NatText(n: nat): (s: string)
    ensures |s| >= 1 && AllDigits(s)
    ensures s[0] == '0' ==> n == 0 && s == "0"
  {
    if n < 10 then [DigitChar(n)] else NatText(n / 10) + [DigitChar(n % 10)]
  }

  /** `str(n)` for a Python int. */
  function IntText(n: int): (s: string)
    ensures |s| >= 1
    ensures s[0] == '-' <==> n < 0
    ensures n >= 0 ==> AllDigits(s) && (s[0] == '0' ==> s == "0")
    ensures n < 0 ==> |s| >= 2 && AllDigits(s[1..]) && s[1] != '0'
  {
    if n < 0 then "-" + NatText(-n) else NatText(n)
  }

  /** The number a string of decimal digits denotes (the reading side of NatText). */
  function DigitsValue(s: string): nat
    requires AllDigits(s)
  {
    if s == [] then 0 else DigitsValue(s[..|s| - 1]) * 10 + DigitValue(s[|s| - 1])
  }

  /** Reading the digits back gives the number that was written. */
  lemma {:induction false} DigitsValueOfNatText(n: nat)
    ensures DigitsValue(NatText(n)) == n
  {
    if n >= 10 {
      var s := NatText(n);
      assert s[..|s| - 1] == NatText(n / 10);
      DigitsValueOfNatText(n / 10);
    }
  }

  /** The decimal text denotes the integer: its digits, after the sign of a negative number, read back as its magnitude. */
  lemma IntTextValue(n: int)
    ensures n >= 0 ==> DigitsValue(IntText(n)) == n
    ensures n < 0 ==> DigitsValue(IntText(n)[1..]) == -n
  {
    if n < 0 {
      assert IntText(n)[1..] == NatText(-n);
      DigitsValueOfNatText(-n);
    } else {
      DigitsValueOfNatText(n);
    }
  }

  /** Distinct integers have distinct decimal texts. */
  lemma IntTextInjective(a: int, b: int)
    requires IntText(a) == IntText(b)
    ensures a == b
  {
    if a < 0 {
      assert IntText(a)[1..] == NatText(-a);
      assert IntText(b)[1..] == NatText(-b);
      DigitsValueOfNatText(-a);
      DigitsValueOfNatText(-b);
    } else {
      DigitsValueOfNatText(a);
      DigitsValueOfNatText(b);
    }
  }
}

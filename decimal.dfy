/**
 * Decimal text of integers, as Python renders it: `str(n)` and the
 * `'%3.3d'` conversion used for reply codes.
 */
module Decimal {

  predicate IsDigit(c: char) { '0' <= c <= '9' }

  predicate AllDigits(s: string) { forall i :: 0 <= i < |s| ==> IsDigit(s[i]) }

  function DigitValue(c: char): (v: nat)
    requires IsDigit(c)
    ensures v < 10
  {
    c as int - '0' as int
  }

  function DigitChar(d: nat): (c: char)
    requires d < 10
    ensures IsDigit(c) && DigitValue(c) == d
  {
    (d + '0' as int) as char
  }

  /** The value of a string of decimal digits, most significant first. */
  function DigitsValue(s: string): (v: nat)
    requires AllDigits(s)
  {
    if s == [] then 0 else DigitsValue(s[..|s| - 1]) * 10 + DigitValue(s[|s| - 1])
  }

  /** The shortest decimal text of a natural number. */
  function NatToDigits(n: nat): (s: string)
    ensures s != [] && AllDigits(s)
  {
    if n < 10 then [DigitChar(n)] else NatToDigits(n / 10) + [DigitChar(n % 10)]
  }

  /** Python's `str(n)` for an `int`. */
  function IntToString(n: int): (s: string)
    ensures s != []
    ensures n >= 0 <==> IsDigit(s[0])
    ensures n >= 0 ==> AllDigits(s)
    ensures n < 0 ==> s[0] == '-' && |s| >= 2 && AllDigits(s[1..])
  {
    if n < 0 then "-" + NatToDigits(-n) else NatToDigits(n)
  }

  /** Reading the digits back gives the number. */
  lemma {:induction false} DigitsValueOfNatToDigits(n: nat)
    ensures DigitsValue(NatToDigits(n)) == n
  {
    if n >= 10 {
      var p := NatToDigits(n / 10);
      var s := NatToDigits(n);
      assert s[..|s| - 1] == p;
      DigitsValueOfNatToDigits(n / 10);
    }
  }

  /** The value of a three-digit string, digit by digit. */
  lemma DigitsValueOfThree(s: string)
    requires |s| == 3 && AllDigits(s)
    ensures DigitsValue(s) == 100 * DigitValue(s[0]) + 10 * DigitValue(s[1]) + DigitValue(s[2])
  {
    var p := s[..2];
    assert p[..1] == s[..1] && p[1] == s[1];
    assert DigitsValue(s[..1]) == DigitValue(s[0]) by {
      assert s[..1][..0] == [];
    }
    assert DigitsValue(p) == DigitsValue(s[..1]) * 10 + DigitValue(s[1]);
  }

  /** `str` is injective, and a string of digits names exactly one integer. */
  lemma IntToStringOfDigits(n: int, s: string)
    requires AllDigits(s) && IntToString(n) == s
    ensures n == DigitsValue(s)
  {
    assert n >= 0;
    DigitsValueOfNatToDigits(n);
  }

  /** Different integers have different `str` texts. */
  lemma IntToStringInjective(a: int, b: int)
    requires IntToString(a) == IntToString(b)
    ensures a == b
  {
    if a >= 0 {
      DigitsValueOfNatToDigits(a);
      DigitsValueOfNatToDigits(b);
    } else {
      var s := IntToString(a);
      assert NatToDigits(-a) == s[1..] == NatToDigits(-b);
      DigitsValueOfNatToDigits(-a);
      DigitsValueOfNatToDigits(-b);
    }
  }

  /** A leading zero does not change the value. */
  lemma {:induction false} DigitsValueLeadingZero(s: string)
    requires AllDigits(s)
    ensures AllDigits("0" + s) && DigitsValue("0" + s) == DigitsValue(s)
  {
    if s != [] {
      var z := "0" + s;
      assert z[..|z| - 1] == "0" + s[..|s| - 1];
      DigitsValueLeadingZero(s[..|s| - 1]);
    }
  }

  /** `s` padded on the left with zeros to at least `width` characters. */
  function ZeroPad(s: string, width: nat): (r: string)
    ensures |r| == (if |s| >= width then |s| else width)
    ensures AllDigits(s) ==> AllDigits(r)
    decreases width - |s|
  {
    if |s| >= width then s else ZeroPad("0" + s, width)
  }

  lemma {:induction false} ZeroPadValue(s: string, width: nat)
    requires AllDigits(s)
    ensures var r := ZeroPad(s, width);
      AllDigits(r) && DigitsValue(r) == DigitsValue(s)
      && |r| == (if |s| >= width then |s| else width)
    decreases width - |s|
  {
    if |s| < width {
      DigitsValueLeadingZero(s);
      ZeroPadValue("0" + s, width);
    }
  }

  /** Python's `'%3.3d' % n`: a sign for negatives and at least three digits. */
  function FormatCode(n: int): (s: string)
    ensures n >= 0 ==> AllDigits(s) && |s| >= 3
    ensures n < 0 ==> |s| >= 4 && s[0] == '-' && AllDigits(s[1..])
  {
    if n < 0 then "-" + ZeroPad(NatToDigits(-n), 3) else ZeroPad(NatToDigits(n), 3)
  }

  lemma {:induction false} NatToDigitsLength(n: nat)
    ensures |NatToDigits(n)| <= 3 <==> n < 1000
  {
    if n >= 10 {
      NatToDigitsLength(n / 10);
    }
  }

  /**
   * A non-negative code is rendered as digits only, they read back as the
   * code, and the field is exactly three characters wide iff the code has at
   * most three digits.
   */
  lemma FormatCodeReadsBack(n: nat)
    ensures AllDigits(FormatCode(n)) && |FormatCode(n)| >= 3
    ensures DigitsValue(FormatCode(n)) == n
    ensures |FormatCode(n)| == 3 <==> n < 1000
  {
    ZeroPadValue(NatToDigits(n), 3);
    DigitsValueOfNatToDigits(n);
    NatToDigitsLength(n);
  }
}

/**
 * Decimal text of integers (what a template literal prints for an integer)
 * and the decimal grammar JavaScript's `Number()` accepts for strings, in
 * the part of it this model covers: an optional sign, digits, and an optional
 * fraction.
 */
module Decimal {
  import opened Wrappers
  import Text

  predicate IsDigit(c: char) { '0' <= c <= '9' }

  predicate AllDigits(s: string) { forall i :: 0 <= i < |s| ==> IsDigit(s[i]) }

  function DigitValue(c: char): nat
    requires IsDigit(c)
  {
    c as int - '0' as int
  }

  function DigitChar(d: nat): (c: char)
    requires d < 10
    ensures IsDigit(c) && DigitValue(c) == d
  {
    ('0' as int + d) as char
  }

  function Pow10(n: nat): (p: nat)
    ensures p >= 1
  {
    if n == 0 then 1 else 10 * Pow10(n - 1)
  }

  /** Decimal digits of `n` without leading zeros. */
  function NatToDecimal(n: nat): (s: string)
    ensures |s| >= 1 && AllDigits(s)
    ensures |s| == 1 <==> n < 10
  {
    if n < 10 then [DigitChar(n)] else NatToDecimal(n / 10) + [DigitChar(n % 10)]
  }

  /** The number a string of digits denotes, read most significant digit first. */
  function DigitsValue(s: string): nat
    requires AllDigits(s)
  {
    if s == [] then 0 else DigitsValue(s[..|s| - 1]) * 10 + DigitValue(s[|s| - 1])
  }

  /** Reading back the printed digits of `n` gives `n`. */
  lemma {:induction false} DigitsValueOfDecimal(n: nat)
    ensures DigitsValue(NatToDecimal(n)) == n
  {
    if n >= 10 {
      var s := NatToDecimal(n);
      assert s[..|s| - 1] == NatToDecimal(n / 10);
      DigitsValueOfDecimal(n / 10);
    }
  }

  /** Leading zeros do not change the value of a digit string. */
  lemma {:induction false} DigitsValueLeadingZero(s: string)
    requires AllDigits(s)
    ensures AllDigits("0" + s) && DigitsValue("0" + s) == DigitsValue(s)
  {
    if s != [] {
      var t := "0" + s;
      assert t[..|t| - 1] == "0" + s[..|s| - 1];
      DigitsValueLeadingZero(s[..|s| - 1]);
    }
  }

  /** Decimal text of an integer: a minus sign before the digits of a negative one. */
  function IntToDecimal(i: int): (s: string)
    ensures |s| >= 1
  {
    if i < 0 then "-" + NatToDecimal(-i) else NatToDecimal(i)
  }

  /** An optionally negative integer written in decimal digits; `None` for anything else. */
  function ParseInt(s: string): (r: Option<int>)
    ensures r.Some? && s != [] && s[0] == '-' ==> r.value <= 0
  {
    if s != [] && s[0] == '-' then
      (if |s| > 1 && AllDigits(s[1..]) then Some(-(DigitsValue(s[1..]) as int)) else None)
    else if s != [] && AllDigits(s) then Some(DigitsValue(s))
    else None
  }

  /** Parsing the printed form of any integer gives that integer back. */
  lemma {:induction false} ParseIntOfDecimal(i: int)
    ensures ParseInt(IntToDecimal(i)) == Some(i)
  {
    var s := IntToDecimal(i);
    if i < 0 {
      var digits := NatToDecimal(-i);
      assert s == "-" + digits;
      assert s[1..] == digits;
      DigitsValueOfDecimal(-i);
    } else {
      var digits := NatToDecimal(i);
      assert s == digits;
      assert s[0] != '-' by { assert IsDigit(digits[0]); }
      DigitsValueOfDecimal(i);
    }
  }

  /**
   * An unsigned decimal literal: digits, optionally followed by a point and
   * more digits, with at least one digit in all ("7", "7.", ".5", "7.25").
   */
  function UnsignedDecimalValue(s: string): (r: Option<real>)
    ensures r.Some? ==> r.value >= 0.0
    ensures AllDigits(s) && s != [] ==> r == Some(DigitsValue(s) as real)
  {
    if '.' in s then
      var k := Text.IndexOf(s, '.');
      var whole, fraction := s[..k], s[k + 1..];
      if AllDigits(whole) && AllDigits(fraction) && |whole| + |fraction| >= 1 then
        Some(DigitsValue(whole) as real + DigitsValue(fraction) as real / Pow10(|fraction|) as real)
      else None
    else if AllDigits(s) && s != [] then Some(DigitsValue(s) as real)
    else None
  }

  /**
   * A trimmed numeric string: empty is 0, and a leading sign applies to an
   * unsigned decimal literal.
   */
  function SignedDecimalValue(t: string): (r: Option<real>)
    ensures t == [] ==> r == Some(0.0)
    ensures t != [] && t[0] == '-' && UnsignedDecimalValue(t[1..]).Some? ==>
              r == Some(-UnsignedDecimalValue(t[1..]).value)
  {
    if t == [] then Some(0.0)
    else if t[0] == '-' then
      match UnsignedDecimalValue(t[1..])
      case Some(v) => Some(-v)
      case None => None
    else if t[0] == '+' then UnsignedDecimalValue(t[1..])
    else UnsignedDecimalValue(t)
  }

  /**
   * The finite number JavaScript's `Number()` reads from a string, or `None`
   * where it gives NaN: surrounding whitespace is ignored.
   */
  function StringToNumber(s: string): (r: Option<real>)
    ensures (forall i :: 0 <= i < |s| ==> Text.IsJsWhitespace(s[i])) ==> r == Some(0.0)
  {
    Text.TrimEnds(s);
    SignedDecimalValue(Text.Trim(s))
  }

  /** Printed integers hold no whitespace, so trimming leaves them alone. */
  lemma {:induction false} TrimDecimal(i: int)
    ensures Text.Trim(IntToDecimal(i)) == IntToDecimal(i)
  {
    var s := IntToDecimal(i);
    var digits := NatToDecimal(if i < 0 then -i else i);
    assert s == (if i < 0 then "-" else "") + digits;
    forall j | 0 <= j < |s|
      ensures !Text.IsJsWhitespace(s[j])
    {
      if i >= 0 || j > 0 {
        assert s[j] == digits[if i < 0 then j - 1 else j];
      }
    }
    Text.TrimOfUnpadded(s);
  }

  /** The digits of a natural number read back as that number. */
  lemma UnsignedValueOfDecimal(n: nat)
    ensures UnsignedDecimalValue(NatToDecimal(n)) == Some(n as real)
  {
    DigitsValueOfDecimal(n);
  }

  /** The printed form of any integer, as a trimmed numeric string, is that integer. */
  lemma SignedValueOfDecimal(i: int)
    ensures SignedDecimalValue(IntToDecimal(i)) == Some(i as real)
  {
    var s := IntToDecimal(i);
    var n: nat := if i < 0 then -i else i;
    var digits := NatToDecimal(n);
    UnsignedValueOfDecimal(n);
    if i < 0 {
      assert s[0] == '-' && s[1..] == digits;
    } else {
      assert s == digits;
      assert s[0] != '-' && s[0] != '+' by { assert IsDigit(digits[0]); }
    }
  }

  /** Unpadded text without sign or point that holds a non-digit is no decimal literal. */
  lemma UnpaddedNonDigitText(s: string, j: nat)
    requires j < |s| && !IsDigit(s[j])
    requires forall i :: 0 <= i < |s| ==> s[i] != '.' && s[i] != '-' && s[i] != '+' && !Text.IsJsWhitespace(s[i])
    ensures StringToNumber(s) == None
  {
    Text.TrimOfUnpadded(s);
  }

  /** The printed form of any integer is read back as that integer. */
  lemma StringToNumberOfDecimal(i: int)
    ensures StringToNumber(IntToDecimal(i)) == Some(i as real)
  {
    TrimDecimal(i);
    SignedValueOfDecimal(i);
  }
}

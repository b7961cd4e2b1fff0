/**
 * Decimal numerals: `str(n)` for the numbers shown in the edit menu, and Python's `int(text)`
 * for the number the user types back.
 */
module Numerals {
  import opened Wrappers
  import opened Text

  predicate IsDigit(c: char) {
    '0' <= c <= '9'
  }

  predicate AllDigits(s: string) {
    forall i :: 0 <= i < |s| ==> IsDigit(s[i])
  }

  function DigitValue(c: char): (v: nat)
    requires IsDigit(c)
    ensures v < 10
  {
    c as int - '0' as int
  }

  function DigitChar(d: nat): (c: char)
    requires d < 10
    ensures IsDigit(c) && DigitValue(c) == d
  {
    ('0' as int + d) as char
  }

  lemma DigitCharOfValue(c: char)
    requires IsDigit(c)
    ensures DigitChar(DigitValue(c)) == c
  {
  }

  /** The number a string of ASCII digits denotes, most significant digit first. */
  function DigitsValue(ds: string): nat
    requires AllDigits(ds)
  {
    if ds == [] then 0 else DigitsValue(ds[..|ds| - 1]) * 10 + DigitValue(ds[|ds| - 1])
  }

  /** `str(n)` for a non-negative `n`: a non-empty digit string, without leading zeros, that
      denotes `n`. */
  function DecimalText(n: nat): (r: string)
    ensures r != [] && AllDigits(r) && DigitsValue(r) == n
    ensures |r| > 1 ==> r[0] != '0'
  {
    if n < 10 then [DigitChar(n)]
    else
      var init := DecimalText(n / 10);
      assert (init + [DigitChar(n % 10)])[..|init|] == init;
      init + [DigitChar(n % 10)]
  }

  /** The body of a base-10 `int()` literal: digits, with single underscores allowed between
      two digits (`1_000`). */
  predicate IsNumeral(t: string) {
    t != [] && IsDigit(t[0]) && IsDigit(t[|t| - 1]) &&
    forall i :: 0 <= i < |t| && !IsDigit(t[i]) ==> t[i] == '_' && i + 1 < |t| && IsDigit(t[i + 1])
  }

  /** The digits of a numeral, underscores removed. */
  function NumeralDigits(t: string): string
  {
    if t == [] then []
    else if t[0] == '_' then NumeralDigits(t[1..])
    else [t[0]] + NumeralDigits(t[1..])
  }

  /** The value of a numeral. */
  function NumeralValue(t: string): nat
    requires IsNumeral(t)
  {
    NumeralAllDigits(t);
    DigitsValue(NumeralDigits(t))
  }

  lemma {:induction false} NumeralAllDigits(t: string)
    requires forall i :: 0 <= i < |t| ==> IsDigit(t[i]) || t[i] == '_'
    ensures AllDigits(NumeralDigits(t))
  {
    if t != [] {
      NumeralAllDigits(t[1..]);
    }
  }

  lemma {:induction false} DigitsAreTheirOwnNumeralDigits(ds: string)
    requires AllDigits(ds)
    ensures NumeralDigits(ds) == ds
  {
    if ds != [] {
      DigitsAreTheirOwnNumeralDigits(ds[1..]);
    }
  }

  /** The literal `int()` accepts once white space is stripped: one optional sign, then a
      numeral; anything else is a `ValueError` (here `None`). */
  function IntLiteral(t: string): (r: Option<int>)
    ensures r.Some? ==> t != []
    ensures r.Some? && r.value < 0 ==> t[0] == '-'
  {
    if t != [] && (t[0] == '+' || t[0] == '-') then
      if IsNumeral(t[1..]) then
        var v: int := NumeralValue(t[1..]);
        Some(if t[0] == '-' then -v else v)
      else None
    else if IsNumeral(t) then Some(NumeralValue(t))
    else None
  }

  /** Python's `int(text)` for base 10: white space around the literal is ignored. */
  function ParseInt(text: string): (r: Option<int>)
    ensures r.Some? ==> Strip(text) != []
    ensures r.Some? && r.value < 0 ==> Strip(text)[0] == '-'
  {
    IntLiteral(Strip(text))
  }

  /** No digit is white space. */
  lemma DigitIsNotSpace(c: char)
    requires IsDigit(c)
    ensures !IsSpace(c)
  {
  }

  /** `str(n)` has no white space to strip. */
  lemma DecimalTextIsStripped(n: nat)
    ensures Strip(DecimalText(n)) == DecimalText(n)
  {
    var r := DecimalText(n);
    DigitIsNotSpace(r[0]);
    DigitIsNotSpace(r[|r| - 1]);
    StripKeepsUnpadded(r);
  }

  /** The decimal text of a number is a literal for that number. */
  lemma IntLiteralOfDecimal(n: nat)
    ensures IntLiteral(DecimalText(n)) == Some(n)
  {
    var r := DecimalText(n);
    assert IsNumeral(r);
    DigitsAreTheirOwnNumeralDigits(r);
  }

  /** Reading back the decimal text of a number gives the number: `int(str(n)) == n`. */
  lemma ParseIntOfDecimal(n: nat)
    ensures ParseInt(DecimalText(n)) == Some(n)
  {
    DecimalTextIsStripped(n);
    IntLiteralOfDecimal(n);
  }
}

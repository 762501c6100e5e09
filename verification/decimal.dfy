/**
 * Decimal numerals: the value of a run of digits (what `Number` gives for
 * one) and the digits `String` writes for a whole number.
 */
module Decimal {
  import opened Text

  function DigitValue(c: char): (r: nat)
    requires IsDigit(c)
    ensures r < 10
  {
    c as int - '0' as int
  }

  function DigitChar(d: nat): (c: char)
    requires d < 10
    ensures IsDigit(c) && DigitValue(c) == d
  {
    ('0' as int + d) as char
  }

  predicate AllDigits(s: string) {
    forall i :: 0 <= i < |s| ==> IsDigit(s[i])
  }

  /** The value of a run of decimal digits, most significant first. */
  function Value(ds: string): (r: nat)
    requires AllDigits(ds)
    ensures |ds| == 1 ==> r == DigitValue(ds[0])
  {
    if ds == [] then 0 else Value(ds[..|ds| - 1]) * 10 + DigitValue(ds[|ds| - 1])
  }

  function Pow10(k: nat): (r: nat)
    ensures r >= 1
  {
    if k == 0 then 1 else 10 * Pow10(k - 1)
  }

  /** A run of `k` digits is worth less than 10 to the `k`. */
  lemma {:induction false} ValueBound(ds: string)
    requires AllDigits(ds)
    ensures Value(ds) < Pow10(|ds|)
  {
    if ds != [] {
      ValueBound(ds[..|ds| - 1]);
    }
  }

  /** Appending a digit shifts the value one place left. */
  lemma ValueSnoc(ds: string, c: char)
    requires AllDigits(ds) && IsDigit(c)
    ensures AllDigits(ds + [c]) && Value(ds + [c]) == Value(ds) * 10 + DigitValue(c)
  {
    assert (ds + [c])[..|ds|] == ds;
  }

  /**
   * The value of the digits after a decimal point, first digit tenths:
   * 0.d1d2... is (d1 + 0.d2...) / 10.
   */
  function Fraction(f: string): (r: real)
    requires AllDigits(f)
  {
    if f == [] then 0.0 else (DigitValue(f[0]) as real + Fraction(f[1..])) / 10.0
  }

  /** A fraction is at least 0 and below 1. */
  lemma {:induction false} FractionBounds(f: string)
    requires AllDigits(f)
    ensures 0.0 <= Fraction(f) < 1.0
  {
    if f != [] {
      FractionBounds(f[1..]);
    }
  }

  /** `String(n)` for a whole number: its digits, without leading zeros. */
  function NatText(n: nat): (r: string)
    ensures r != [] && AllDigits(r)
    ensures n > 0 ==> r[0] != '0'
  {
    if n < 10 then [DigitChar(n)] else NatText(n / 10) + [DigitChar(n % 10)]
  }

  /** Reading back the digits `String` wrote gives the number. */
  lemma {:induction false} NatTextValue(n: nat)
    ensures Value(NatText(n)) == n
  {
    if n >= 10 {
      NatTextValue(n / 10);
      ValueSnoc(NatText(n / 10), DigitChar(n % 10));
    }
  }

  /** Different numbers are written differently. */
  lemma NatTextInjective(m: nat, n: nat)
    requires NatText(m) == NatText(n)
    ensures m == n
  {
    NatTextValue(m);
    NatTextValue(n);
  }
}

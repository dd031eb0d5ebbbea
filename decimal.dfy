/**
 * Decimal numbers in text: the literals Python's float() reads back and the
 * two-decimal rendering of Java's String.format("%.2f", x). Values are exact
 * reals; binary floating point is not modelled.
 */
module Decimal {
  import opened Results
  import opened Text

  /** The value of the digits after a decimal point: "25" is 0.25. */
  function FracValue(f: string): (v: real)
    requires AllDigits(f)
    ensures 0.0 <= v <= 1.0
  {
    if f == [] then 0.0
    else
      assert AllDigits(f[1..]) by { assert forall i :: 0 <= i < |f| - 1 ==> f[1..][i] == f[i + 1]; }
      (DigitValue(f[0]) as real + FracValue(f[1..])) / 10.0
  }

  /** Two decimals are read as a count of hundredths. */
  lemma {:induction false} FracValueTwoDigits(f: string)
    requires |f| == 2 && AllDigits(f)
    ensures FracValue(f) == DigitsValue(f) as real / 100.0
  {
    var d0, d1 := DigitValue(f[0]), DigitValue(f[1]);
    assert f[1..][0] == f[1] && f[1..][1..] == [];
    assert FracValue(f[1..]) == d1 as real / 10.0;
    assert f[..1][0] == f[0] && f[..1][..0] == [];
    assert DigitsValue(f[..1]) == d0;
    assert DigitsValue(f) == 10 * d0 + d1;
  }

  /** An unsigned decimal literal: digits, optionally a '.' and more digits, at least one digit. */
  function ParseUnsigned(s: string): Option<real> {
    match Find(s, ".")
    case None =>
      if s != [] && AllDigits(s) then Some(DigitsValue(s) as real) else None
    case Some(i) =>
      var whole := s[..i];
      var frac := s[i + 1..];
      if AllDigits(whole) && AllDigits(frac) && |whole| + |frac| > 0
      then Some(DigitsValue(whole) as real + FracValue(frac))
      else None
  }

  /** Python's float(s) on a token: an optional sign, then an unsigned decimal literal. */
  function ParseDecimal(s: string): Option<real> {
    if s != [] && (s[0] == '-' || s[0] == '+') then
      match ParseUnsigned(s[1..])
      case None => None
      case Some(v) => Some(if s[0] == '-' then -v else v)
    else
      ParseUnsigned(s)
  }

  function Abs(x: real): real {
    if x < 0.0 then -x else x
  }

  /** |x| counted in hundredths, rounded half up as Java's formatter rounds. */
  function Hundredths(x: real): nat {
    (Abs(x) * 100.0 + 0.5).Floor
  }

  /** The two digits after the point of a count of hundredths. */
  function Cents(q: nat): (s: string)
    ensures |s| == 2 && AllDigits(s) && DigitsValue(s) == q % 100
  {
    var hi, lo := q % 100 / 10, q % 10;
    var s := [DigitChar(hi), DigitChar(lo)];
    assert s[..1] == [DigitChar(hi)];
    assert [DigitChar(hi)][..0] == [];
    assert DigitsValue([DigitChar(hi)]) == hi;
    assert DigitsValue(s) == 10 * hi + lo;
    s
  }

  /**
   * String.format("%.2f", x): a '-' for a negative value, the whole part and
   * exactly two decimals. Java prints "-0.00" for small negative values, and so does this.
   */
  function FormatFixed2(x: real): (s: string)
    ensures IsToken(s) && NoNewline(s)
  {
    var digits := HundredthsText(Hundredths(x));
    HundredthsTextDigits(Hundredths(x));
    var s := (if x < 0.0 then "-" else "") + digits;
    assert forall i :: 0 <= i < |s| ==> s[i] == '-' || s[i] == '.' || IsDigit(s[i]);
    s
  }

  /** A count of hundredths as text: the whole part, a '.', two decimals. */
  function HundredthsText(q: nat): string {
    NatToString(q / 100) + "." + Cents(q)
  }

  lemma {:induction false} HundredthsTextDigits(q: nat)
    ensures var s := HundredthsText(q);
      s != [] && IsDigit(s[0]) && forall i :: 0 <= i < |s| ==> s[i] == '.' || IsDigit(s[i])
  {
    var whole := NatToString(q / 100);
    assert HundredthsText(q)[0] == whole[0];
  }

  /** The number FormatFixed2(x) denotes. */
  function Fixed2(x: real): real {
    var v := Hundredths(x) as real / 100.0;
    if x < 0.0 then -v else v
  }

  /** Rounding to two decimals moves a value by at most half a hundredth. */
  lemma {:induction false} Fixed2Close(x: real)
    ensures -0.005 <= Fixed2(x) - x <= 0.005
  {
    var y := Abs(x) * 100.0 + 0.5;
    var q := Hundredths(x);
    assert q as real <= y < q as real + 1.0;
  }

  /** Reading a digits-dot-digits text finds the point after the whole part. */
  lemma {:induction false} FindPointAfterDigits(whole: string, frac: string)
    requires AllDigits(whole) && AllDigits(frac)
    ensures Find(whole + "." + frac, ".") == Some(|whole|)
  {
    var s := whole + "." + frac;
    assert s[|whole|..|whole| + 1] == ".";
    forall j | 0 <= j < |whole|
      ensures !OccursAt(s, ".", j)
    {
      assert s[j] == whole[j];
    }
    FindIsFirst(s, ".", |whole|);
  }

  /** The unsigned text of a count of hundredths reads back as that count over a hundred. */
  lemma {:induction false} ParseHundredths(q: nat)
    ensures ParseUnsigned(HundredthsText(q)) == Some(q as real / 100.0)
  {
    var whole := NatToString(q / 100);
    var cents := Cents(q);
    var digits := whole + "." + cents;
    assert HundredthsText(q) == digits;
    FindPointAfterDigits(whole, cents);
    assert digits[..|whole|] == whole;
    assert digits[|whole| + 1..] == cents;
    FracValueTwoDigits(cents);
    assert q == (q / 100) * 100 + q % 100;
    assert (q / 100) as real + (q % 100) as real / 100.0 == q as real / 100.0;
  }

  /** A leading '-' negates the value of an unsigned literal; without a sign it reads as is. */
  lemma {:induction false} ParseSigned(negative: bool, digits: string, v: real)
    requires digits != [] && IsDigit(digits[0]) && ParseUnsigned(digits) == Some(v)
    ensures ParseDecimal((if negative then "-" else "") + digits) == Some(if negative then -v else v)
  {
    if negative {
      assert ("-" + digits)[1..] == digits;
    } else {
      assert "" + digits == digits;
    }
  }

  /** float() of Java's "%.2f" text is the value rounded to two decimals. */
  lemma {:induction false} ParseFormatFixed2(x: real)
    ensures ParseDecimal(FormatFixed2(x)) == Some(Fixed2(x))
  {
    var q := Hundredths(x);
    ParseHundredths(q);
    HundredthsTextDigits(q);
    ParseSigned(x < 0.0, HundredthsText(q), q as real / 100.0);
  }
}

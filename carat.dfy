/** The "carat" label of the cart page: a display unit of 20 kg shown only
    for two allow-listed products. */
module Carat {
  import opened Text
  import opened Wrappers

  const Robusta: string := "robusta"
  const RobustaGreenBanana: string := "robusta green banana"

  /** `allowCarat`: the SKU, trimmed and lower-cased, is one of the two
      allow-listed names. */
  predicate AllowCarat(sku: string) {
    var key := Lower(Trim(sku));
    key == Robusta || key == RobustaGreenBanana
  }

  /** Whitespace around the SKU does not change whether it is allow-listed. */
  lemma AllowCaratIgnoresPadding(p: string, sku: string, q: string)
    requires AllWhitespace(p) && AllWhitespace(q)
    ensures AllowCarat(p + sku + q) == AllowCarat(sku)
  {
    TrimIgnoresPadding(p, sku, q);
  }

  /** Letter case does not change whether a SKU is allow-listed: two SKUs
      that agree once lower-cased get the same answer. */
  lemma AllowCaratIgnoresCase(sku: string, other: string)
    requires Lower(sku) == Lower(other)
    ensures AllowCarat(sku) == AllowCarat(other)
  {
    LowerTrim(sku);
    LowerTrim(other);
  }

  /** The allow-list is exactly the two names: a SKU is allow-listed if and
      only if, lower-cased and then trimmed, it is one of them. */
  lemma AllowCaratExactly(sku: string)
    ensures AllowCarat(sku) <==> Trim(Lower(sku)) == Robusta || Trim(Lower(sku)) == RobustaGreenBanana
  {
    LowerTrim(sku);
  }

  /** `n.toFixed(2)` for `n = kg / 20` and a whole `kg >= 0`: the fraction
      `(kg % 20) / 20` is a multiple of 1/100, so two decimals are exact. */
  function TwentiethsFixed2(kg: nat): (r: string)
    ensures |r| >= 4 && r[|r| - 3] == '.' && IsDigits(r[..|r| - 3]) && IsDigits(r[|r| - 2..])
    ensures r[0] != '0' || r[1] == '.'
  {
    var cents := (kg % 20) * 5;
    var whole := NatToString(kg / 20);
    var r := whole + "." + [DigitChar(cents / 10), DigitChar(cents % 10)];
    assert r[..|r| - 3] == whole;
    r
  }

  /** Reads a numeral with exactly two decimals, `W.FF`, as an exact real. */
  function ParseFixed2(s: string): (r: Option<real>)
    ensures r.Some? ==> 0.0 <= r.value
  {
    if |s| >= 4 && s[|s| - 3] == '.' && IsDigits(s[..|s| - 3]) && IsDigits(s[|s| - 2..]) then
      Some(DigitsValue(s[..|s| - 3]) as real + DigitsValue(s[|s| - 2..]) as real / 100.0)
    else None
  }

  const CaratsSuffix: string := " carats)"

  /** `caratsFromKg`: empty for a quantity that is not positive, otherwise
      `(W.FF carats)` with `W.FF` the quantity divided by 20. */
  function CaratsFromKg(kg: int): (r: string)
    ensures r == [] <==> kg <= 0
  {
    if kg <= 0 then "" else "(" + TwentiethsFixed2(kg) + CaratsSuffix
  }

  /** `text` is a parenthesised numeral with exactly two decimals followed
      by "carats", that numeral is exactly `kg / 20`, and its integer part
      has no leading zero. */
  predicate ShowsTwentieth(text: string, kg: int) {
    |text| > 3 + |CaratsSuffix| && text[0] == '(' && text[|text| - |CaratsSuffix|..] == CaratsSuffix &&
    var num := text[1..|text| - |CaratsSuffix|];
    ParseFixed2(num) == Some(kg as real / 20.0) && (num[0] != '0' || num[1] == '.')
  }

  /** The label of a positive quantity shows that quantity divided by 20. */
  lemma {:induction false} CaratLabelShowsTwentieth(kg: int)
    requires kg > 0
    ensures ShowsTwentieth(CaratsFromKg(kg), kg)
  {
    var r := CaratsFromKg(kg);
    var whole := NatToString(kg / 20);
    var cents := (kg % 20) * 5;
    var frac := [DigitChar(cents / 10), DigitChar(cents % 10)];
    var num := TwentiethsFixed2(kg);
    assert num == whole + "." + frac;
    assert r[1..|r| - |CaratsSuffix|] == num;
    assert num[..|num| - 3] == whole;
    assert num[|num| - 2..] == frac;
    assert DigitsValue(frac) == cents by {
      var tens := [DigitChar(cents / 10)];
      assert tens[..0] == [];
      assert DigitsValue(tens) == cents / 10;
      assert frac[..1] == tens;
      assert DigitsValue(frac) == (cents / 10) * 10 + cents % 10;
    }
    calc {
      (kg / 20) as real + cents as real / 100.0;
      (kg / 20) as real + (kg % 20) as real / 20.0;
      ((kg / 20) * 20 + kg % 20) as real / 20.0;
      kg as real / 20.0;
    }
  }

  /** The worked examples: 30 kg shows "(1.50 carats)", 20 kg "(1.00 carats)". */
  lemma CaratExamples()
    ensures CaratsFromKg(30) == "(1.50 carats)"
    ensures CaratsFromKg(20) == "(1.00 carats)"
    ensures CaratsFromKg(0) == ""
  {
    assert NatToString(1) == "1" by { assert DigitChar(1) == '1'; }
    assert DigitChar(5) == '5' && DigitChar(0) == '0';
    assert TwentiethsFixed2(30) == "1.50";
    assert TwentiethsFixed2(20) == "1.00";
  }
}

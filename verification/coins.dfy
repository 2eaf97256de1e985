/** Token amounts as the contracts see them (`cosmwasm_std::Coin`), the coin
    type of the signing client, and the decimal rendering of `Uint128` that
    `Display` implementations use. */
module Coins {

  /** Exclusive upper bound of `Uint128`. */
  const UINT128_LIMIT: nat := 0x1_0000_0000_0000_0000_0000_0000_0000_0000

  /** Exclusive upper bound of `u64`. */
  const U64_LIMIT: nat := 0x1_0000_0000_0000_0000

  type Uint128 = n: nat | n < UINT128_LIMIT

  type U64 = n: nat | n < U64_LIMIT

  /** `cosmwasm_std::Coin`: a denomination and an integer amount of base units. */
  datatype Coin = Coin(denom: string, amount: Uint128)

  /** The coin type the signing client attaches as funds. It is produced from
      a `Coin` by a conversion that is not part of this model, so every
      operation that needs it takes the conversion as a parameter. */
  datatype CosmosCoin = CosmosCoin(denom: string, amount: nat)

  predicate IsDigit(c: char) {
    '0' <= c <= '9'
  }

  /** A non-empty string of decimal digits. */
  predicate IsDecimal(s: string) {
    |s| > 0 && forall i :: 0 <= i < |s| ==> IsDigit(s[i])
  }

  /** A decimal numeral as `Display` prints one: no leading zero except in "0". */
  predicate IsCanonicalDecimal(s: string) {
    IsDecimal(s) && (s[0] == '0' ==> |s| == 1)
  }

  function DigitValue(c: char): (d: nat)
    requires IsDigit(c)
    ensures d < 10
  {
    c as int - '0' as int
  }

  function DigitChar(d: nat): (c: char)
    requires d < 10
    ensures IsDigit(c) && DigitValue(c) == d
  {
    ('0' as int + d) as char
  }

  /** The decimal text of `n`, as `Display for Uint128` prints it. */
  function NatToDecimal(n: nat): (s: string)
    ensures IsDecimal(s)
    ensures s[0] == '0' <==> n == 0
    ensures |s| == 1 <==> n < 10
    decreases n
  {
    if n < 10 then [DigitChar(n)] else NatToDecimal(n / 10) + [DigitChar(n % 10)]
  }

  /** The value of a string of decimal digits (the empty string reads as 0). */
  function DecimalToNat(s: string): nat
    requires forall i :: 0 <= i < |s| ==> IsDigit(s[i])
  {
    if |s| == 0 then 0 else 10 * DecimalToNat(s[..|s| - 1]) + DigitValue(s[|s| - 1])
  }

  /** Rendering a number and reading it back gives the number. */
  lemma {:induction false} DecimalRoundTrip(n: nat)
    ensures DecimalToNat(NatToDecimal(n)) == n
    ensures IsCanonicalDecimal(NatToDecimal(n))
    decreases n
  {
    if n >= 10 {
      var p := NatToDecimal(n / 10);
      var s := NatToDecimal(n);
      assert s == p + [DigitChar(n % 10)];
      assert s[..|s| - 1] == p;
      DecimalRoundTrip(n / 10);
    }
  }

  /** Reading a canonical numeral and rendering the value gives the numeral
      back: together with `DecimalRoundTrip`, `NatToDecimal` is a bijection
      between numbers and canonical numerals. */
  lemma {:induction false} CanonicalDecimalRoundTrip(s: string)
    requires IsCanonicalDecimal(s)
    ensures NatToDecimal(DecimalToNat(s)) == s
    decreases |s|
  {
    var last := s[|s| - 1];
    var p := s[..|s| - 1];
    if |s| == 1 {
      assert DecimalToNat(s) == 10 * DecimalToNat(p) + DigitValue(last);
      assert DigitChar(DigitValue(last)) == last;
    } else {
      assert p[0] == s[0];
      CanonicalDecimalRoundTrip(p);
      var m := DecimalToNat(p);
      var n := DecimalToNat(s);
      assert n == 10 * m + DigitValue(last);
      assert m != 0;
      assert n / 10 == m && n % 10 == DigitValue(last);
      assert DigitChar(DigitValue(last)) == last;
      assert s == p + [last];
    }
  }
}

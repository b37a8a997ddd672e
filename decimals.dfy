/**
 * Budget amounts. Every budget the engine produces is a decimal literal read
 * from a message, multiplied or divided by a power of ten (crore to lakh,
 * thousand to lakh, million to lakh, dollars to lakh, raw currency to lakh),
 * so a budget is held exactly as `mantissa / 10^scale`.
 */
module Decimals {
  import opened Strings

  datatype Decimal = Decimal(mantissa: nat, scale: nat)

  function Pow10(n: nat): (r: nat)
    ensures r >= 1
  {
    if n == 0 then 1 else 10 * Pow10(n - 1)
  }

  lemma {:induction false} Pow10Add(a: nat, b: nat)
    ensures Pow10(a + b) == Pow10(a) * Pow10(b)
  {
    if a > 0 {
      Pow10Add(a - 1, b);
    }
  }

  /** The number a decimal stands for. */
  function Value(d: Decimal): real {
    d.mantissa as real / Pow10(d.scale) as real
  }

  function FromNat(n: nat): (d: Decimal)
    ensures Value(d) == n as real
  {
    Decimal(n, 0)
  }

  /** A JavaScript number is truthy when it is not zero. */
  predicate IsTruthy(d: Decimal) {
    d.mantissa != 0
  }

  lemma TruthyIsPositive(d: Decimal)
    ensures IsTruthy(d) <==> Value(d) > 0.0
  {
  }

  lemma ScaleQuotient(x: real, y: real, z: real)
    requires z > 0.0
    ensures (x * y) / z == (x / z) * y
  {
  }

  lemma QuotientOfProduct(x: real, y: real, z: real)
    requires y > 0.0 && z > 0.0
    ensures x / (y * z) == (x / y) / z
  {
  }

  /** `n * 10^k` */
  function TimesPow10(d: Decimal, k: nat): (r: Decimal)
    ensures Value(r) == Value(d) * Pow10(k) as real
  {
    var m, p, q := d.mantissa as real, Pow10(k) as real, Pow10(d.scale) as real;
    assert (d.mantissa * Pow10(k)) as real == m * p;
    ScaleQuotient(m, p, q);
    Decimal(d.mantissa * Pow10(k), d.scale)
  }

  /** `n / 10^k` */
  function DivPow10(d: Decimal, k: nat): (r: Decimal)
    ensures Value(r) == Value(d) / Pow10(k) as real
  {
    Pow10Add(d.scale, k);
    var m, p, q := d.mantissa as real, Pow10(k) as real, Pow10(d.scale) as real;
    assert Pow10(d.scale + k) as real == q * p;
    QuotientOfProduct(m, q, p);
    Decimal(d.mantissa, d.scale + k)
  }

  /** The same decimal with trailing zero digits of the fraction removed. */
  function Normalize(d: Decimal): (r: Decimal)
    decreases d.scale
    ensures r.scale <= d.scale
    ensures r.scale == 0 || r.mantissa % 10 != 0
  {
    if d.scale > 0 && d.mantissa % 10 == 0 then Normalize(Decimal(d.mantissa / 10, d.scale - 1)) else d
  }

  /** Removing trailing fraction zeros keeps the value. */
  lemma {:induction false} NormalizeValue(d: Decimal)
    decreases d.scale
    ensures Value(Normalize(d)) == Value(d)
  {
    if d.scale > 0 && d.mantissa % 10 == 0 {
      var n := Decimal(d.mantissa / 10, d.scale - 1);
      var m, q := (d.mantissa / 10) as real, Pow10(d.scale - 1) as real;
      assert d.mantissa as real == 10.0 * m;
      assert Pow10(d.scale) as real == 10.0 * q;
      assert (10.0 * m) / (10.0 * q) == m / q;
      NormalizeValue(n);
    }
  }

  /** `s` left-padded with zeros to at least `width` characters. */
  function PadZeros(s: string, width: nat): (r: string)
    decreases width
    ensures |r| >= width
  {
    if |s| >= width then s else "0" + PadZeros(s, width - 1)
  }

  /**
   * `String(x)` for a budget in plain (non-exponent) notation: the integer
   * part, then a point and the fraction digits when the fraction is not zero.
   */
  function Render(d: Decimal): string {
    var n := Normalize(d);
    var digits := PadZeros(NatToString(n.mantissa), n.scale + 1);
    var point := |digits| - n.scale;
    if n.scale == 0 then digits else digits[..point] + "." + digits[point..]
  }

  /** A whole number renders as its digits, with no point. */
  lemma RenderWhole(n: nat)
    ensures Render(Decimal(n, 0)) == NatToString(n)
    ensures Render(FromNat(n)) == NatToString(n)
  {
    assert Normalize(Decimal(n, 0)) == Decimal(n, 0);
    assert PadZeros(NatToString(n), 1) == NatToString(n);
  }

  /** A decimal whose fraction is not zero renders with the point before its last `scale` digits. */
  lemma RenderFraction(d: Decimal)
    requires d.scale > 0 && d.mantissa % 10 != 0
    ensures var r := Render(d); |r| > d.scale && r[|r| - d.scale - 1] == '.'
  {
  }
}

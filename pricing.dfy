/** The price arithmetic the storefront repeats: the rounded discount
    percentage `Math.round((precio - oferta) / precio * 100)` and the rounding
    facts the price rules rely on. */
module Pricing {
  import opened JsText
  import opened JsValue

  /** `Math.round(((precio - oferta) / precio) * 100)` */
  function PercentOff(precio: real, oferta: real): (r: int)
    requires precio != 0.0
    ensures oferta == precio ==> r == 0
    ensures oferta == 0.0 ==> r == 100
  {
    assert oferta == 0.0 ==> (precio - oferta) / precio == 1.0;
    Round((precio - oferta) / precio * 100.0)
  }

  lemma QuotientBelowOne(a: real, b: real)
    requires 0.0 < a < b
    ensures 0.0 < a / b < 1.0
  {
    var q := a / b;
    assert q * b == a;
    if q >= 1.0 {
      PositiveProduct(q - 1.0, b);
    }
    if q <= 0.0 {
      PositiveProduct(-q, b);
    }
  }

  /** An offer strictly between 0 and the price is a discount of 0 to 100
      percent. */
  lemma PercentOffWithin(precio: real, oferta: real)
    requires 0.0 < oferta < precio
    ensures 0 <= PercentOff(precio, oferta) <= 100
  {
    var f := (precio - oferta) / precio;
    QuotientBelowOne(precio - oferta, precio);
    RoundMonotone(0.0, f * 100.0);
    RoundMonotone(f * 100.0, 100.0);
  }

  /** An offer at or above a positive price is no discount at all. */
  lemma PercentOffOfNoSaving(precio: real, oferta: real)
    requires 0.0 < precio <= oferta
    ensures PercentOff(precio, oferta) <= 0
  {
    var d := precio - oferta;
    assert d / precio <= 0.0 by {
      PositiveProduct(-d, 1.0 / precio);
      assert d / precio == d * (1.0 / precio);
    }
    RoundMonotone(d / precio * 100.0, 0.0);
  }

  lemma RoundKeepsSign(x: real)
    ensures x >= 0.0 ==> Round(x) >= 0
  {
  }

  lemma PositiveQuotient(a: real, b: real)
    requires a >= 0.0 && b > 0.0
    ensures a / b >= 0.0
  {
  }

  lemma QuotientOfMultiple(k: int, step: real)
    requires step > 0.0
    ensures k as real * step / step == k as real
  {
  }

  /** Rounded prices grow with the amount. */
  lemma ScaledRoundMonotone(b: real, a1: real, a2: real)
    requires b >= 0.0 && 0.0 < a1 <= a2
    ensures 0 <= Round(b * a1) <= Round(b * a2)
  {
    var x1 := b * a1;
    var x2 := b * a2;
    assert 0.0 <= x1 <= x2 by {
      assert b * a2 - b * a1 == b * (a2 - a1);
    }
    RoundNonNegative(x1);
    RoundMonotone(x1, x2);
  }
}

/** The weekly offers carousel: three fixed offers with a percentage off the
    price per kilogram, each with a gram chooser and an add-to-cart button.
    Its `adjustGrams` starts from `grams[slug] || 100`, so a stored 0 counts
    as 100. */
module WeeklyOffers {
  import opened JsText
  import opened JsValue
  import opened CartContext
  import opened Pricing

  datatype WeeklyOffer = WeeklyOffer(name: string, slug: string, priceKg: int, discount: int)

  /** The `offers` list. */
  const Offers: seq<WeeklyOffer> := [
    WeeklyOffer("Almendras", "almendras", 5000, 20),
    WeeklyOffer("Granola Mix", "granola-mix", 4200, 15),
    WeeklyOffer("Yerba orgánica", "yerba-organica", 3600, 10)
  ]

  const DefaultGrams: int := 100

  /** The undiscounted price of `grams` at `priceKg` per kilogram. */
  function RawPrice(priceKg: real, grams: real): real {
    priceKg / 1000.0 * grams
  }

  /** `getFinalPrice(priceKg, discount, grams)` */
  function FinalPrice(priceKg: real, discount: real, grams: real): (r: int)
    ensures grams <= 0.0 ==> r == 0
    ensures grams > 0.0 ==>
      var raw := RawPrice(priceKg, grams);
      raw - raw * (discount / 100.0) - 0.5 < r as real <= raw - raw * (discount / 100.0) + 0.5
  {
    if grams <= 0.0 then 0
    else
      var raw := RawPrice(priceKg, grams);
      Round(raw - raw * (discount / 100.0))
  }

  /** A discount between 0 and 100 percent never raises the rounded price
      and never makes it negative. */
  lemma DiscountNeverRaises(priceKg: real, discount: real, grams: real)
    requires priceKg >= 0.0 && 0.0 <= discount <= 100.0 && grams > 0.0
    ensures 0 <= FinalPrice(priceKg, discount, grams) <= Round(RawPrice(priceKg, grams))
  {
    var raw := RawPrice(priceKg, grams);
    var f := discount / 100.0;
    assert raw >= 0.0 by {
      PositiveProduct(priceKg / 1000.0, grams);
    }
    PositiveProduct(raw, f);
    PositiveProduct(raw, 1.0 - f);
    assert raw - raw * f == raw * (1.0 - f);
    RoundNonNegative(raw - raw * f);
    RoundMonotone(raw - raw * f, raw);
  }

  /** Every listed offer is a discount of 0 to 100 percent off a positive
      price, so its cards never charge more than the undiscounted price. */
  lemma ListedOffersAreDiscounts(i: nat, grams: real)
    requires i < |Offers| && grams > 0.0
    ensures 0 < Offers[i].priceKg && 0 <= Offers[i].discount <= 100
    ensures FinalPrice(Offers[i].priceKg as real, Offers[i].discount as real, grams)
            <= Round(RawPrice(Offers[i].priceKg as real, grams))
  {
    DiscountNeverRaises(Offers[i].priceKg as real, Offers[i].discount as real, grams);
  }

  /** `grams[item.slug] ?? 100` */
  function DisplayedGrams(grams: map<string, real>, slug: string): (g: real)
    ensures slug in grams ==> g == grams[slug]
    ensures slug !in grams ==> g == DefaultGrams as real
  {
    if slug in grams then grams[slug] else DefaultGrams as real
  }

  /** `grams[slug] || 100`: the start of an adjustment. */
  function AdjustStart(grams: map<string, real>, slug: string): (g: real)
    ensures slug in grams && grams[slug] != 0.0 ==> g == grams[slug]
    ensures slug !in grams || grams[slug] == 0.0 ==> g == DefaultGrams as real
  {
    if slug in grams && grams[slug] != 0.0 then grams[slug] else DefaultGrams as real
  }

  /** After the input is cleared to 0, "+50g" jumps to 150 g, not 50 g. */
  lemma ZeroRestartsAtDefault(grams: map<string, real>, slug: string, change: int)
    requires slug in grams && grams[slug] == 0.0
    ensures DisplayedGrams(grams, slug) == 0.0
    ensures Max(0.0, AdjustStart(grams, slug) + change as real) == Max(0.0, 100.0 + change as real)
  {
  }

  predicate Disabled(g: real, finalPrice: int) { g == 0.0 || finalPrice == 0 }

  /** The line the button adds. */
  function CardCartItem(offer: WeeklyOffer, g: real): (c: CartItem)
    ensures c.quantity == 1 && c.image.None?
    ensures c.price == FinalPrice(offer.priceKg as real, offer.discount as real, g) as real
    ensures c.slug == offer.slug + "-" + NumStr(g)
  {
    CartItem(offer.name + " (" + NumStr(g) + "g)", offer.slug + "-" + NumStr(g),
             FinalPrice(offer.priceKg as real, offer.discount as real, g) as real, 1, None)
  }

  /** `grams`, the state behind the gram choosers, keyed by offer slug. */
  class GramsBySlug {
    var grams: map<string, real>

    constructor ()
      ensures grams == map[]
    {
      grams := map[];
    }

    /** `handleGramChange(slug, value)`. `value` is `Number(e.target.value)` of
        the `type="number"` input: an empty field reads as 0, and the input
        element, not this model, keeps a non-numeric text (NaN) out. */
    method HandleGramChange(slug: string, value: real)
      modifies this
      ensures grams == old(grams)[slug := Max(0.0, value)]
    {
      grams := grams[slug := Max(0.0, value)];
    }

    /** `adjustGrams(slug, change)` */
    method AdjustGrams(slug: string, change: int)
      modifies this
      ensures grams == old(grams)[slug := Max(0.0, AdjustStart(old(grams), slug) + change as real)]
      ensures grams[slug] >= 0.0
    {
      var current := if slug in grams && grams[slug] != 0.0 then grams[slug] else DefaultGrams as real;
      grams := grams[slug := Max(0.0, current + change as real)];
    }
  }
}

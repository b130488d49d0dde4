/** The category page: the products whose category slug is the page's slug,
    each with a gram chooser, a price for the chosen weight, a discount badge
    and an add-to-cart button. Unlike the carousel, this page charges
    `precioOferta ?? precio` without asking whether the offer is valid. */
module CategoryProducts {
  import opened JsText
  import opened JsValue
  import opened Lists
  import opened ProductsService
  import opened CartContext
  import opened Pricing

  const DefaultGrams: int := 100

  /** `decodedSlug.replace(/-/g, " ")` */
  function CategoryTitle(decoded: string): (t: string)
    ensures |t| == |decoded| && '-' !in t
    ensures forall i :: 0 <= i < |decoded| && decoded[i] != '-' ==> t[i] == decoded[i]
  {
    ReplaceChar(decoded, '-', ' ')
  }

  function InCategory(decoded: string): Product -> bool {
    (p: Product) => p.categoriaSlug == decoded
  }

  /** What the page lists; with an empty slug the load never runs and the
      list stays empty. */
  function Listing(decoded: string, all: seq<Product>): (r: seq<Product>)
    ensures decoded == "" ==> r == []
    ensures forall i :: 0 <= i < |r| ==> r[i].categoriaSlug == decoded
  {
    if decoded == "" then [] else Filter(all, InCategory(decoded))
  }

  /** The page shows exactly the products of its category, in catalogue order. */
  lemma ListingExact(decoded: string, all: seq<Product>, p: Product)
    requires decoded != ""
    ensures p in Listing(decoded, all) <==> p in all && p.categoriaSlug == decoded
    ensures IsSubsequence(Listing(decoded, all), all)
  {
    FilterMembership(all, InCategory(decoded), p);
    FilterIsSubsequence(all, InCategory(decoded));
  }

  /** `precioOferta ?? precio`: the price per kilogram charged. */
  function PricePerKg(p: Product): (k: real)
    ensures p.precioOferta.Some? ==> k == p.precioOferta.value
    ensures p.precioOferta.None? ==> k == p.precio
  {
    if p.precioOferta.Some? then p.precioOferta.value else p.precio
  }

  /** `getFinalPrice(producto, grams)` */
  function FinalPrice(p: Product, grams: real): (r: int)
    ensures grams <= 0.0 ==> r == 0
    ensures grams > 0.0 ==> PricePerKg(p) / 1000.0 * grams - 0.5 < r as real <= PricePerKg(p) / 1000.0 * grams + 0.5
  {
    if grams == 0.0 || grams <= 0.0 then 0 else Round(PricePerKg(p) / 1000.0 * grams)
  }

  /** A stored offer is charged even when it is not below the price. */
  lemma OfferChargedUnchecked(p: Product, grams: real)
    requires p.precioOferta.Some? && p.precioOferta.value >= p.precio && grams > 0.0
    ensures FinalPrice(p, grams) == Round(p.precioOferta.value / 1000.0 * grams)
    ensures p.precio >= 0.0 ==> FinalPrice(p, grams) >= Round(p.precio / 1000.0 * grams)
  {
    if p.precio >= 0.0 {
      PerKgMonotone(p.precio, p.precioOferta.value, grams);
    }
  }

  lemma PerKgMonotone(k1: real, k2: real, grams: real)
    requires 0.0 <= k1 <= k2 && grams > 0.0
    ensures Round(k1 / 1000.0 * grams) <= Round(k2 / 1000.0 * grams)
  {
    var x1 := k1 / 1000.0;
    var x2 := k2 / 1000.0;
    assert x1 * grams <= x2 * grams by {
      PositiveProduct(x2 - x1, grams);
    }
    RoundMonotone(x1 * grams, x2 * grams);
  }

  /** A heavier choice never costs less when the price per kilogram is not
      negative. */
  lemma FinalPriceMonotone(p: Product, g1: real, g2: real)
    requires PricePerKg(p) >= 0.0 && 0.0 < g1 <= g2
    ensures 0 <= FinalPrice(p, g1) <= FinalPrice(p, g2)
  {
    ScaledRoundMonotone(PricePerKg(p) / 1000.0, g1, g2);
  }

  /** The badge figure: `item.precioOferta ? Math.round(...) : 0`; with a
      price of 0 the quotient is an infinity. */
  function Discount(p: Product): (d: Number)
    ensures p.precioOferta.None? || p.precioOferta.value == 0.0 ==> d == Fin(0.0)
    ensures p.precioOferta.Some? && p.precioOferta.value != 0.0 && p.precio != 0.0 ==>
      d == Fin(PercentOff(p.precio, p.precioOferta.value) as real)
  {
    if p.precioOferta.Some? && p.precioOferta.value != 0.0 then
      var oferta := p.precioOferta.value;
      if p.precio != 0.0 then Fin(PercentOff(p.precio, oferta) as real)
      else Infinite(oferta > 0.0)
    else Fin(0.0)
  }

  /** `discount > 0` */
  predicate ShowsBadge(d: Number) {
    match d
    case Fin(x) => x > 0.0
    case Infinite(negative) => !negative
    case NaN => false
  }

  /** With a positive price the badge appears only for an offer below it, and
      then with a figure of at most 100 when the offer is positive. */
  lemma BadgeMeansSaving(p: Product)
    requires p.precio > 0.0 && ShowsBadge(Discount(p))
    ensures p.precioOferta.Some? && p.precioOferta.value < p.precio
    ensures p.precioOferta.value > 0.0 ==> Discount(p).r <= 100.0
  {
    var oferta := p.precioOferta.value;
    if oferta >= p.precio {
      PercentOffOfNoSaving(p.precio, oferta);
    }
    if 0.0 < oferta < p.precio {
      PercentOffWithin(p.precio, oferta);
    }
  }

  /** `grams[item.id] ?? 100` */
  function DisplayedGrams(grams: map<string, real>, id: string): (g: real)
    ensures id in grams ==> g == grams[id]
    ensures id !in grams ==> g == DefaultGrams as real
  {
    if id in grams then grams[id] else DefaultGrams as real
  }

  predicate Disabled(g: real, finalPrice: int) { g == 0.0 || finalPrice == 0 }

  /** The line the button adds: no image, the grams in the name and the key. */
  function CardCartItem(p: Product, g: real): (c: CartItem)
    ensures c.quantity == 1 && c.price == FinalPrice(p, g) as real && c.image.None?
    ensures c.slug == p.id + "-" + NumStr(g)
  {
    CartItem(p.nombre + " (" + NumStr(g) + "g)", p.id + "-" + NumStr(g), FinalPrice(p, g) as real, 1, None)
  }

  /** The first view of a card: 100 g, priced from the price per kilogram. */
  lemma DefaultCard(grams: map<string, real>, p: Product)
    requires p.id !in grams
    ensures DisplayedGrams(grams, p.id) == 100.0
    ensures FinalPrice(p, DisplayedGrams(grams, p.id)) == Round(PricePerKg(p) / 10.0)
  {
    assert PricePerKg(p) / 1000.0 * 100.0 == PricePerKg(p) / 10.0;
  }

  /** `grams`, the state behind the gram choosers. */
  class GramsById {
    var grams: map<string, real>

    constructor ()
      ensures grams == map[]
    {
      grams := map[];
    }

    /** `handleGramChange(id, value)`. `value` is `Number(e.target.value)` of
        the `type="number"` input: an empty field reads as 0, and the input
        element, not this model, keeps a non-numeric text (NaN) out. */
    method HandleGramChange(id: string, value: real)
      modifies this
      ensures grams == old(grams)[id := Max(0.0, value)]
    {
      grams := grams[id := Max(0.0, value)];
    }

    /** `adjustGrams(id, change)`: a missing entry starts at 100, a stored 0
        stays 0. */
    method AdjustGrams(id: string, change: int)
      modifies this
      ensures grams == old(grams)[id := Max(0.0, DisplayedGrams(old(grams), id) + change as real)]
      ensures grams[id] >= 0.0
    {
      var current := if id in grams then grams[id] else DefaultGrams as real;
      grams := grams[id := Max(0.0, current + change as real)];
    }
  }
}

/** The "Te puede interesar" carousel: a random selection of available
    products, each with an amount chooser (units or grams), a price for the
    chosen amount, a discount badge and an add-to-cart button. */
module RecommendedProducts {
  import opened JsText
  import opened JsValue
  import opened Lists
  import opened ProductsService
  import opened CartContext
  import opened Pricing

  const GenericImg := "/placeholder-product.png"

  /** Grams for products sold by the kilogram. */
  const GramStep: int := 50
  const DefaultG: int := 100

  /** Units for products sold by the unit. */
  const UnitStep: int := 1
  const DefaultU: int := 1

  // ----------------------------------------------------------- the shuffle

  /** `Math.floor(random * n)` for a draw `0 <= random < 1`. */
  function Draw(random: real, n: nat): (j: nat)
    requires 0.0 <= random < 1.0 && n >= 1
    ensures j < n
  {
    assert random * n as real < n as real;
    (random * n as real).Floor
  }

  lemma SwapPermutes<T>(s: seq<T>, i: nat, j: nat)
    requires i < |s| && j < |s|
    ensures multiset(s[i := s[j]][j := s[i]]) == multiset(s)
  {
  }

  /** Fisher-Yates on a copy of `arr`; `random[i]` is the `Math.random()`
      drawn when the loop is at `i`. */
  method ShuffleArray<T>(arr: seq<T>, random: seq<real>) returns (a: array<T>)
    requires |random| >= |arr|
    requires forall k :: 0 <= k < |random| ==> 0.0 <= random[k] < 1.0
    ensures fresh(a) && a.Length == |arr|
    ensures multiset(a[..]) == multiset(arr)
  {
    a := new T[|arr|](k requires 0 <= k < |arr| => arr[k]);
    assert a[..] == arr;
    var i := a.Length - 1;
    while i > 0
      invariant -1 <= i < a.Length
      invariant multiset(a[..]) == multiset(arr)
      decreases i
    {
      var j := Draw(random[i], i + 1);
      ghost var before := a[..];
      a[i], a[j] := a[j], a[i];
      assert a[..] == before[i := before[j]][j := before[i]];
      SwapPermutes(before, i, j);
      i := i - 1;
    }
  }

  /** The end index `slice(0, end)` stops at. */
  function SliceEnd(length: nat, end: int): (k: nat)
    ensures k <= length
    ensures end >= 0 ==> k == if end < length then end else length
    ensures end < 0 ==> k == if length + end > 0 then length + end else 0
  {
    if end >= 0 then (if end < length then end else length)
    else if length + end > 0 then length + end else 0
  }

  predicate Available(p: Product) { p.disponible }

  /** The `load` effect: the available products, shuffled, cut at `limit`. */
  method Recommend(all: seq<Product>, random: seq<real>, limit: int) returns (r: seq<Product>)
    requires |random| >= |all|
    requires forall k :: 0 <= k < |random| ==> 0.0 <= random[k] < 1.0
    ensures |r| == SliceEnd(|Filter(all, Available)|, limit)
    ensures forall p :: p in r ==> p in all && p.disponible
    ensures multiset(r) <= multiset(Filter(all, Available))
  {
    var disponibles := Filter(all, Available);
    var shuffled := ShuffleArray(disponibles, random);
    var k := SliceEnd(shuffled.Length, limit);
    r := shuffled[..k];
    assert shuffled[..] == r + shuffled[k..];
    forall p | p in r ensures p in all && p.disponible {
      assert p in multiset(shuffled[..]);
      assert p in disponibles;
      FilterMembership(all, Available, p);
    }
  }

  // -------------------------------------------------------- price helpers

  /** `getTipoVenta(item)`: the form's rule over the stored sale mode. */
  function GetTipoVenta(item: Product): (t: string)
    ensures t == "u" || t == "kg"
  {
    NormalizeTipoVenta(Str(item.tipoVenta))
  }

  /** On a product read through `mapProduct` the card's sale mode is the
      stored one. */
  lemma GetTipoVentaOfMapped(item: Product)
    requires item.tipoVenta == "u" || item.tipoVenta == "kg"
    ensures GetTipoVenta(item) == item.tipoVenta
  {
    if item.tipoVenta == "u" {
      LowerCaseUnchanged("u");
    } else {
      LowerCaseUnchanged("kg");
    }
  }

  /** `parsePrecio(v)`: `Number(v)`, or 0 when that is not finite. */
  function ParsePrecio(v: Value): (r: real)
    ensures ToNumber(v).Fin? ==> r == ToNumber(v).r
    ensures !ToNumber(v).Fin? ==> r == 0.0
  {
    match ToNumber(v)
    case Fin(n) => n
    case _ => 0.0
  }

  /** `hasValidOffer(precio, oferta)`: a null offer is not finite. */
  predicate HasValidOffer(precio: real, oferta: Option<real>)
    ensures oferta.None? ==> !HasValidOffer(precio, oferta)
    ensures HasValidOffer(precio, oferta) ==> precio > 0.0
  {
    oferta.Some? && oferta.value > 0.0 && oferta.value < precio
  }

  function Precio(item: Product): real { ParsePrecio(Num(item.precio)) }

  function Oferta(item: Product): Option<real> {
    if item.precioOferta.Some? then Some(ParsePrecio(Num(item.precioOferta.value))) else None
  }

  /** The price per kilogram or per unit that the card charges. */
  function BasePrice(item: Product): (b: real)
    ensures b <= Precio(item)
    ensures HasValidOffer(Precio(item), Oferta(item)) <==> b != Precio(item)
    ensures HasValidOffer(Precio(item), Oferta(item)) ==> b == Oferta(item).value && b > 0.0
  {
    if HasValidOffer(Precio(item), Oferta(item)) then Oferta(item).value else Precio(item)
  }

  /** The rounded price of `amount` in mode `tipo` at `base` per unit or per
      kilogram; a non-positive amount costs 0. */
  function PriceFor(tipo: string, base: real, amount: real): (r: int)
    ensures amount <= 0.0 ==> r == 0
    ensures amount > 0.0 && tipo == "u" ==> base * amount - 0.5 < r as real <= base * amount + 0.5
    ensures amount > 0.0 && tipo != "u" ==> base / 1000.0 * amount - 0.5 < r as real <= base / 1000.0 * amount + 0.5
  {
    if amount == 0.0 || amount <= 0.0 then 0
    else if tipo == "u" then Round(base * amount)
    else Round(base / 1000.0 * amount)
  }

  /** `getFinalPrice(item, amount)`: nothing for no amount, never negative
      for a non-negative price, and an offer never makes it dearer. */
  function FinalPrice(item: Product, amount: real): (r: int)
    ensures amount <= 0.0 ==> r == 0
    ensures BasePrice(item) >= 0.0 ==> r >= 0
    ensures amount > 0.0 && Precio(item) >= 0.0 ==> r <= PriceFor(GetTipoVenta(item), Precio(item), amount)
  {
    OfferNotDearer(GetTipoVenta(item), BasePrice(item), Precio(item), amount);
    PriceFor(GetTipoVenta(item), BasePrice(item), amount)
  }

  /** A lower price per unit or per kilogram never rounds to a higher total. */
  lemma OfferNotDearer(tipo: string, base: real, precio: real, amount: real)
    requires base <= precio
    ensures base >= 0.0 ==> PriceFor(tipo, base, amount) >= 0
    ensures amount > 0.0 ==> PriceFor(tipo, base, amount) <= PriceFor(tipo, precio, amount)
  {
    if amount > 0.0 {
      if tipo == "u" {
        ScaledRoundOrdered(base, precio, amount);
      } else {
        ScaledRoundOrdered(base / 1000.0, precio / 1000.0, amount);
      }
    }
  }

  lemma ScaledRoundOrdered(x: real, y: real, a: real)
    requires x <= y && a > 0.0
    ensures Round(x * a) <= Round(y * a)
    ensures x >= 0.0 ==> Round(x * a) >= 0
  {
    ScaleMonotone(x, y, a);
    RoundMonotone(x * a, y * a);
    if x >= 0.0 {
      assert x * a >= 0.0;
      RoundNonNegative(x * a);
    }
  }

  lemma ScaleMonotone(x: real, y: real, a: real)
    requires x <= y && a > 0.0
    ensures x * a <= y * a
  {
    assert y * a - x * a == (y - x) * a;
  }

  /** More of a product never costs less, and never less than nothing. */
  lemma PriceForMonotone(tipo: string, base: real, a1: real, a2: real)
    requires base >= 0.0 && 0.0 < a1 <= a2
    ensures 0 <= PriceFor(tipo, base, a1) <= PriceFor(tipo, base, a2)
  {
    if tipo == "u" {
      ScaledRoundMonotone(base, a1, a2);
    } else {
      var perGram := base / 1000.0;
      assert perGram >= 0.0;
      ScaledRoundMonotone(perGram, a1, a2);
      assert PriceFor(tipo, base, a1) == Round(perGram * a1) && PriceFor(tipo, base, a2) == Round(perGram * a2);
    }
  }

  /** The badge percentage, 0 without a valid offer. */
  function Discount(item: Product): (d: int)
    ensures !HasValidOffer(Precio(item), Oferta(item)) ==> d == 0
    ensures HasValidOffer(Precio(item), Oferta(item)) ==> d == PercentOff(Precio(item), Oferta(item).value)
    ensures 0 <= d <= 100
  {
    var precio := Precio(item);
    var oferta := Oferta(item);
    if HasValidOffer(precio, oferta) then
      PercentOffWithin(precio, oferta.value);
      PercentOff(precio, oferta.value)
    else 0
  }

  // ---------------------------------------------------------- the label

  /** `x.toFixed(2)` for `x >= 0`, on the exact value. */
  function ToFixed2(x: real): (s: string)
    requires x >= 0.0
    ensures |s| >= 4 && s[|s| - 3] == '.'
  {
    var m := Round(x * 100.0);
    RoundNonNegative(x * 100.0);
    NatStr(m / 100) + "." + [DigitChar(m % 100 / 10), DigitChar(m % 10)]
  }

  /** The two decimals written by `ToFixed2` denote `x` rounded to the
      nearest hundredth. */
  lemma ToFixed2Value(x: real)
    requires x >= 0.0
    ensures var s := ToFixed2(x);
      DigitsValue(s[..|s| - 3]) * 100 + DigitsValue(s[|s| - 2..]) == Round(x * 100.0)
  {
    var m := Round(x * 100.0);
    RoundNonNegative(x * 100.0);
    var s := ToFixed2(x);
    assert s[..|s| - 3] == NatStr(m / 100);
    NatStrRoundTrip(m / 100);
    var t := [DigitChar(m % 100 / 10), DigitChar(m % 10)];
    assert s[|s| - 2..] == t;
    TwoDigitsValue(m % 100 / 10, m % 10);
  }

  lemma TwoDigitsValue(a: nat, b: nat)
    requires a < 10 && b < 10
    ensures DigitsValue([DigitChar(a), DigitChar(b)]) == 10 * a + b
  {
    var t := [DigitChar(a), DigitChar(b)];
    assert t[..1] == [DigitChar(a)];
    assert DigitsValue([DigitChar(a)]) == a by {
      assert [DigitChar(a)][..0] == [];
    }
  }

  /** `s.replace(/\.?0+$/, "")`: the trailing zeros go, and the point before
      them when nothing but zeros follows it. */
  function TrimZeros(s: string): (r: string)
    ensures |r| <= |s| && r == s[..|r|]
    ensures r == s <==> s == [] || s[|s| - 1] != '0'
    ensures forall i :: |r| <= i < |s| ==> s[i] == '0' || (i == |r| && s[i] == '.')
    ensures r == [] || r[|r| - 1] != '0' || (|r| < |s| && s[|r|] == '.')
  {
    var z := TrailingZeros(s);
    if z == 0 then s
    else if z < |s| && s[|s| - z - 1] == '.' then s[..|s| - z - 1]
    else s[..|s| - z]
  }

  /** The length of the run of '0' that ends `s`. */
  function TrailingZeros(s: string): (z: nat)
    ensures z <= |s|
    ensures forall i :: |s| - z <= i < |s| ==> s[i] == '0'
    ensures z < |s| ==> s[|s| - z - 1] != '0'
  {
    if s == [] || s[|s| - 1] != '0' then 0 else 1 + TrailingZeros(s[..|s| - 1])
  }

  /** The kilogram figure of the label: the whole number, or two decimals
      with the trailing zeros trimmed. */
  function KgText(kg: real): (t: string)
    requires kg >= 0.0
    ensures kg.Floor as real == kg ==> t == NumStr(kg)
    ensures kg.Floor as real != kg ==> t == TrimZeros(ToFixed2(kg))
  {
    if kg.Floor as real == kg then NumStr(kg) else TrimZeros(ToFixed2(kg))
  }

  /** `formatAmountLabel(tipo, amount)`: "150g", "1.25kg", "2u". */
  function AmountLabel(tipo: string, amount: real): (r: string)
    ensures amount <= 0.0 ==> r == (if tipo == "u" then "0u" else "0g")
    ensures amount > 0.0 && tipo == "u" ==> r == NumStr(amount) + "u"
    ensures 0.0 < amount < 1000.0 && tipo != "u" ==> r == NumStr(amount) + "g"
    ensures amount >= 1000.0 && tipo != "u" ==> r == KgText(amount / 1000.0) + "kg"
  {
    if amount == 0.0 || amount <= 0.0 then (if tipo == "u" then "0u" else "0g")
    else if tipo == "u" then NumStr(amount) + "u"
    else if amount < 1000.0 then NumStr(amount) + "g"
    else KgText(amount / 1000.0) + "kg"
  }

  /** A whole number of kilograms is written as that number. */
  lemma WholeKilograms(k: nat)
    ensures KgText(k as real) == NatStr(k)
  {
    NatNumStr(k);
  }

  /** A weight of `k` whole kilograms is labelled "{k}kg". */
  lemma WholeKilogramsLabel(tipo: string, k: nat)
    requires tipo != "u" && k >= 1
    ensures AmountLabel(tipo, 1000.0 * k as real) == NatStr(k) + "kg"
  {
    var x := 1000.0 * k as real;
    assert x / 1000.0 == k as real;
    WholeKilograms(k);
    LabelOfKilograms(tipo, x);
  }

  /** From 1000 g on, the label is written in kilograms. */
  lemma LabelOfKilograms(tipo: string, x: real)
    requires tipo != "u" && x >= 1000.0
    ensures AmountLabel(tipo, x) == KgText(x / 1000.0) + "kg"
  {
  }

  // ------------------------------------------------------------ the card

  /** The amount shown: the chosen one, or 1 unit / 100 g. */
  function DisplayedAmount(amounts: map<string, real>, item: Product): (a: real)
    ensures item.id in amounts ==> a == amounts[item.id]
    ensures item.id !in amounts ==> a == if GetTipoVenta(item) == "u" then DefaultU as real else DefaultG as real
  {
    if item.id in amounts then amounts[item.id]
    else if GetTipoVenta(item) == "u" then DefaultU as real else DefaultG as real
  }

  /** `disabled`: no amount chosen, or a price that rounds to nothing. A
      non-positive amount always disables the button, and an enabled button
      charges a positive price when the product's price is not negative. */
  predicate Disabled(item: Product, amount: real)
    ensures amount <= 0.0 ==> Disabled(item, amount)
    ensures !Disabled(item, amount) && BasePrice(item) >= 0.0 ==> FinalPrice(item, amount) > 0
  {
    amount == 0.0 || FinalPrice(item, amount) == 0
  }

  /** The line the button adds. */
  function CardCartItem(item: Product, amount: real): (c: CartItem)
    ensures c.quantity == 1 && c.price == FinalPrice(item, amount) as real
  {
    var amountLabel := AmountLabel(GetTipoVenta(item), amount);
    CartItem(item.nombre + " (" + amountLabel + ")", item.id + "-" + amountLabel,
             FinalPrice(item, amount) as real, 1,
             Some(if item.imagen != "" then item.imagen else GenericImg))
  }

  /** An enabled button adds one line of a positive price, keyed by the
      product id and the amount label. */
  lemma EnabledCardAddsPricedLine(item: Product, amount: real)
    requires !Disabled(item, amount) && BasePrice(item) >= 0.0
    ensures CardCartItem(item, amount).price > 0.0
    ensures CardCartItem(item, amount).slug == item.id + "-" + AmountLabel(GetTipoVenta(item), amount)
  {
    if amount > 0.0 {
      PriceForMonotone(GetTipoVenta(item), BasePrice(item), amount, amount);
    }
  }

  // ------------------------------------------------------- the amount map

  /** `Math.round(n / step)`: the nearest whole number of steps. */
  function SnapCount(n: real, step: int): (k: int)
    requires step > 0
    ensures n / step as real - 0.5 < k as real <= n / step as real + 0.5
    ensures n >= 0.0 ==> k >= 0
  {
    if n >= 0.0 then PositiveQuotient(n, step as real); Round(n / step as real)
    else Round(n / step as real)
  }

  /** `Math.round(n / step) * step` */
  function Snap(n: real, step: int): (r: real)
    requires step > 0
    ensures r == SnapCount(n, step) as real * step as real
    ensures n >= 0.0 ==> r >= 0.0
  {
    var k := SnapCount(n, step);
    if k >= 0 then PositiveProduct(k as real, step as real); k as real * step as real
    else k as real * step as real
  }

  /** Snapping a snapped amount changes nothing. */
  lemma SnapIdempotent(n: real, step: int)
    requires step > 0
    ensures Snap(Snap(n, step), step) == Snap(n, step)
  {
    var k := SnapCount(n, step);
    QuotientOfMultiple(k, step as real);
    var r := Snap(n, step);
    assert r / step as real == k as real;
    assert Round(k as real) == k;
    assert SnapCount(r, step) == Round(r / step as real);
  }

  /** The typed number, or the fallback when it does not parse to a finite one. */
  function Typed(raw: string, fallback: int): (n: real)
    ensures StringToNumber(raw).Fin? ==> n == StringToNumber(raw).r
    ensures !StringToNumber(raw).Fin? ==> n == fallback as real
  {
    match StringToNumber(raw)
    case Fin(r) => r
    case _ => fallback as real
  }

  /** What `setAmount` stores. */
  function SettledAmount(raw: string, step: int, fallback: int, snap: bool): (n: real)
    requires step > 0
    ensures n >= 0.0
    ensures !snap ==> n == Max(0.0, Typed(raw, fallback))
    ensures snap ==> n == Snap(Max(0.0, Typed(raw, fallback)), step)
  {
    var n := Max(0.0, Typed(raw, fallback));
    if snap then Snap(n, step) else n
  }

  lemma TypedNumeral(n: nat, fallback: int)
    ensures Typed(NatStr(n), fallback) == n as real
  {
    ParseNatStr(n);
  }

  /** A typed whole number is stored as it is when not snapped, and when
      snapped to the unit step. */
  lemma SettleNumeral(n: nat, fallback: int)
    ensures SettledAmount(NatStr(n), GramStep, fallback, false) == n as real
    ensures SettledAmount(NatStr(n), UnitStep, fallback, true) == n as real
  {
    TypedNumeral(n, fallback);
    assert Round(n as real / 1.0) == n;
  }

  /** What `adjustAmount` stores: a missing entry starts at the fallback, a
      stored 0 stays 0. */
  function Adjusted(amounts: map<string, real>, id: string, delta: int, fallback: int): (n: real)
    ensures n >= 0.0
    ensures id in amounts ==> n == Max(0.0, amounts[id] + delta as real)
    ensures id !in amounts ==> n == Max(0.0, (fallback + delta) as real)
  {
    var current := if id in amounts then amounts[id] else fallback as real;
    Max(0.0, current + delta as real)
  }

  /** `amountById`, the state behind the amount choosers. */
  class AmountsById {
    var amounts: map<string, real>

    constructor ()
      ensures amounts == map[]
    {
      amounts := map[];
    }

    /** `setAmount(id, raw, step, fallback, { snap })` */
    method SetAmount(id: string, raw: string, step: int, fallback: int, snap: bool)
      requires step > 0
      modifies this
      ensures amounts == old(amounts)[id := SettledAmount(raw, step, fallback, snap)]
    {
      var n: real;
      var parsed := StringToNumber(raw);
      if parsed.Fin? {
        n := parsed.r;
      } else {
        n := fallback as real;
      }
      n := Max(0.0, n);
      if snap {
        n := Snap(n, step);
      }
      amounts := amounts[id := n];
    }

    /** `adjustAmount(id, delta, fallback)` */
    method AdjustAmount(id: string, delta: int, fallback: int)
      modifies this
      ensures amounts == old(amounts)[id := Adjusted(old(amounts), id, delta, fallback)]
    {
      var current := if id in amounts then amounts[id] else fallback as real;
      amounts := amounts[id := Max(0.0, current + delta as real)];
    }
  }

  /** The buttons step by the sale mode's own step, from its own default. */
  lemma StepFromDefault(amounts: map<string, real>, id: string, up: bool)
    requires id !in amounts
    ensures Adjusted(amounts, id, if up then UnitStep else -UnitStep, DefaultU) == (if up then 2.0 else 0.0)
    ensures Adjusted(amounts, id, if up then GramStep else -GramStep, DefaultG) == (if up then 150.0 else 50.0)
  {
  }
}


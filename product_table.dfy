/** The admin product table: one row per product object, with the offer
    price and the discount badge shown only when they are truthy, a "No hay
    productos" row for an empty list, and a delete button that asks for
    confirmation first. */
module ProductTable {
  import opened JsValue
  import opened ProductsService
  import opened Pricing

  /** `Math.round(x)` on a number: NaN and the infinities stay as they are. */
  function RoundNumber(x: Number): (r: Number)
    ensures x.Fin? ==> r == Fin(Round(x.r) as real)
    ensures !x.Fin? ==> r == x
  {
    match x
    case Fin(v) => Fin(Round(v) as real)
    case _ => x
  }

  /** `((precio - oferta) / precio) * 100` on two numbers: NaN when either
      is, or when the price is infinite (an infinity over an infinity); a
      price of 0 or an infinite offer gives an infinity. */
  function DiscountFraction(precio: Number, oferta: Number): (r: Number)
    ensures precio.Fin? && precio.r != 0.0 && oferta.Fin? ==>
      r == Fin((precio.r - oferta.r) / precio.r * 100.0)
    ensures precio.NaN? || oferta.NaN? || precio.Infinite? ==> r == NaN
  {
    match (precio, oferta)
    case (Fin(p), Fin(o)) =>
      if p != 0.0 then Fin((p - o) / p * 100.0)
      else if o == 0.0 then NaN
      else Infinite(o > 0.0)
    case (Fin(p), Infinite(n)) => Infinite(!n != (p < 0.0))
    case _ => NaN
  }

  /** `calcularDescuento(precio, oferta)`, with `None` for `null`. */
  function CalcularDescuento(precio: Value, oferta: Value): (d: Option<Number>)
    ensures d.None? <==> !Truthy(precio) || !Truthy(oferta)
  {
    if !Truthy(precio) || !Truthy(oferta) then None
    else Some(RoundNumber(DiscountFraction(ToNumber(precio), ToNumber(oferta))))
  }

  /** `descuento ? badge : "—"`: a number is truthy unless it is 0 or NaN. */
  predicate ShowsBadge(d: Option<Number>)
    ensures d.None? ==> !ShowsBadge(d)
    ensures d.Some? && d.value.Fin? ==> (ShowsBadge(d) <==> Truthy(Num(d.value.r)))
  {
    d.Some? && match d.value case Fin(x) => x != 0.0 case NaN => false case Infinite(_) => true
  }

  /** For numeric prices the discount is the storefront's rounded
      percentage, and the badge shows exactly when that percentage is not 0:
      never without an offer, always for an offer of at most half the
      price. */
  lemma DiscountOfNumbers(precio: real, oferta: real)
    requires precio != 0.0 && oferta != 0.0
    ensures CalcularDescuento(Num(precio), Num(oferta)) == Some(Fin(PercentOff(precio, oferta) as real))
    ensures ShowsBadge(CalcularDescuento(Num(precio), Num(oferta))) <==> PercentOff(precio, oferta) != 0
    ensures 0.0 < oferta <= precio / 2.0 ==> ShowsBadge(CalcularDescuento(Num(precio), Num(oferta)))
  {
    if 0.0 < oferta <= precio / 2.0 {
      var f := (precio - oferta) / precio;
      var a := precio / 2.0 - oferta;
      assert f >= 0.5 by {
        assert f - 0.5 == a / precio;
        JsText.PositiveProduct(a, 1.0 / precio);
        assert a / precio == a * (1.0 / precio);
      }
      RoundMonotone(50.0, f * 100.0);
      assert Round(50.0) == 50;
    }
  }

  /** Without an offer, or with a missing price, there is no badge. */
  lemma NoBadgeWithoutOffer(precio: Value, oferta: Value)
    requires !Truthy(precio) || !Truthy(oferta)
    ensures !ShowsBadge(CalcularDescuento(precio, oferta))
  {
  }

  /** What one row shows. */
  datatype Row = Row(
    image: Option<Value>,
    nombre: Value,
    categoria: Value,
    precio: Value,
    oferta: Option<Value>,
    badge: Option<Number>,
    disponible: bool,
    ofertaGeneral: bool,
    ofertaSemana: bool,
    editHref: string)

  function RowOf(p: ProductRecord): (r: Row)
    ensures r.oferta.Some? <==> Truthy(p.precioOferta)
    ensures r.oferta.Some? ==> r.oferta.value == p.precioOferta
    ensures r.badge.Some? <==> ShowsBadge(CalcularDescuento(p.precio, p.precioOferta))
    ensures r.badge.Some? ==> CalcularDescuento(p.precio, p.precioOferta) == Some(r.badge.value)
    ensures r.image.Some? <==> Truthy(p.imagen)
    ensures r.disponible == Truthy(p.disponible)
    ensures r.editHref == "/root/productos/" + ToText(p.id) + "/editar"
  {
    var descuento := CalcularDescuento(p.precio, p.precioOferta);
    Row(
      if Truthy(p.imagen) then Some(p.imagen) else None,
      p.nombre,
      p.categoria,
      p.precio,
      if Truthy(p.precioOferta) then Some(p.precioOferta) else None,
      if ShowsBadge(descuento) then descuento else None,
      Truthy(p.disponible),
      Truthy(p.ofertaGeneral),
      Truthy(p.ofertaSemana),
      "/root/productos/" + ToText(p.id) + "/editar")
  }

  /** The table body: the empty-list row, then the product rows. */
  datatype Table = Table(emptyRow: bool, rows: seq<Row>)

  function Render(products: seq<ProductRecord>): (t: Table)
    ensures t.emptyRow <==> |products| == 0
    ensures |t.rows| == |products|
    ensures forall i :: 0 <= i < |products| ==> t.rows[i] == RowOf(products[i])
  {
    Table(|products| == 0, seq(|products|, i requires 0 <= i < |products| => RowOf(products[i])))
  }

  /** A product read from the catalogue shows its offer exactly when it has
      one other than 0, and then the badge follows the storefront's rounded
      percentage; the category cell stays empty, the product having no
      `categoria`. */
  lemma RowOfCatalogueProduct(p: Product)
    requires p.precio != 0.0
    ensures var r := RowOf(ToRecord(p));
      (r.oferta.Some? <==> p.precioOferta.Some? && p.precioOferta.value != 0.0) &&
      (r.oferta.Some? ==> (r.badge.Some? <==> PercentOff(p.precio, p.precioOferta.value) != 0)) &&
      r.categoria == Undefined
  {
    if p.precioOferta.Some? && p.precioOferta.value != 0.0 {
      DiscountOfNumbers(p.precio, p.precioOferta.value);
    }
  }

  /** `handleDelete(id)`: the id handed to `onDelete`, only when the user
      confirms. */
  function HandleDelete(id: Value, confirmed: bool): (deleted: Option<Value>)
    ensures deleted.Some? <==> confirmed
    ensures deleted.Some? ==> deleted.value == id
  {
    if !confirmed then None else Some(id)
  }
}

/** The admin's product list: the catalogue as `getProducts` returns it,
    narrowed by a search text, a category, availability and an offer filter,
    then sorted by name, price or discount; deleting a product, exporting the
    rows shown and the offer filter set from the query string. The products
    carry no `categoria` property (the service's normalised product names
    the category `categoriaNombre`), so the category filter, which compares
    `p.categoria`, keeps nothing. */
module RootPage {
  import opened JsText
  import opened JsValue
  import opened Lists
  import opened Sorting
  import opened ProductsService
  import opened Pricing

  /** The controls above the table. */
  datatype Filters = Filters(search: string, category: string, availability: string, offerFilter: string,
                             sort: string)

  // ------------------------------------------------------------ the filters

  /** `p.nombre.toLowerCase().includes(search.toLowerCase())` */
  predicate MatchesSearch(search: string, p: Product) {
    Contains(ToLower(p.nombre), ToLower(search))
  }

  /** `p.categoria === category` */
  predicate InCategory(category: string, p: Product) {
    ToRecord(p).categoria == Str(category)
  }

  /** The availability filter: "disponible" keeps the available products,
      "agotado" the others, any other choice everything. */
  predicate AvailabilityKeeps(availability: string, p: Product) {
    if availability == "disponible" then p.disponible
    else if availability == "agotado" then !p.disponible
    else true
  }

  /** The offer filter: "general" and "semana" keep the products with that
      flag, "none" those with neither, any other choice everything. */
  predicate OfferKeeps(offerFilter: string, p: Product) {
    if offerFilter == "general" then p.ofertaGeneral
    else if offerFilter == "semana" then p.ofertaSemana
    else if offerFilter == "none" then !p.ofertaSemana && !p.ofertaGeneral
    else true
  }

  /** The search only counts when its trimmed text is not empty; the
      untrimmed text is what is searched for. */
  predicate SearchKeeps(f: Filters, p: Product) {
    Trim(f.search) != "" ==> MatchesSearch(f.search, p)
  }

  /** The category only counts when one is chosen. */
  predicate CategoryKeeps(f: Filters, p: Product) {
    f.category != "" ==> InCategory(f.category, p)
  }

  /** What the four filters together keep: with every control at its
      neutral choice everything, and never a product the search misses. */
  predicate Keeps(f: Filters, p: Product)
    ensures (Trim(f.search) == "" && f.category == "" && f.availability !in {"disponible", "agotado"} &&
             f.offerFilter !in {"general", "semana", "none"}) ==> Keeps(f, p)
    ensures Trim(f.search) != "" && !MatchesSearch(f.search, p) ==> !Keeps(f, p)
  {
    SearchKeeps(f, p) && CategoryKeeps(f, p) && AvailabilityKeeps(f.availability, p) &&
    OfferKeeps(f.offerFilter, p)
  }

  // -------------------------------------------------------------- the sorts

  /** `(p.precio - p.precioOferta) / p.precio` when the offer is truthy,
      else 0; with a price of 0 the quotient is an infinity. */
  function DiscountKey(p: Product): (k: Number)
    ensures !k.NaN?
    ensures p.precioOferta.None? || p.precioOferta.value == 0.0 ==> k == Fin(0.0)
    ensures p.precioOferta.Some? && p.precioOferta.value != 0.0 && p.precio != 0.0 ==>
      k == Fin((p.precio - p.precioOferta.value) / p.precio)
  {
    if p.precioOferta.Some? && p.precioOferta.value != 0.0 then
      var o := p.precioOferta.value;
      if p.precio != 0.0 then Fin((p.precio - o) / p.precio) else Infinite(o > 0.0)
    else Fin(0.0)
  }

  /** The order of the texts' characters is a total preorder on names. */
  lemma NamesOrdered()
    ensures forall a: string, b: string :: LexLeq(a, b) || LexLeq(b, a)
    ensures forall a: string, b: string, c: string :: LexLeq(a, b) && LexLeq(b, c) ==> LexLeq(a, c)
  {
    forall a: string, b: string ensures LexLeq(a, b) || LexLeq(b, a) {
      LexLeqTotal(a, b);
    }
    forall a: string, b: string, c: string | LexLeq(a, b) && LexLeq(b, c) ensures LexLeq(a, c) {
      LexLeqTransitive(a, b, c);
    }
  }

  /** `a.nombre.localeCompare(b.nombre)`, A to Z. */
  function ByName(): (leq: (Product, Product) -> bool)
    ensures TotalPreorder(leq)
  {
    NamesOrdered();
    (a: Product, b: Product) => LexLeq(a.nombre, b.nombre)
  }

  /** `b.nombre.localeCompare(a.nombre)`, Z to A. */
  function ByNameDesc(): (leq: (Product, Product) -> bool)
    ensures TotalPreorder(leq)
  {
    NamesOrdered();
    (a: Product, b: Product) => LexLeq(b.nombre, a.nombre)
  }

  /** `a.precio - b.precio`, cheapest first. */
  function ByPrice(): (leq: (Product, Product) -> bool)
    ensures TotalPreorder(leq)
  {
    (a: Product, b: Product) => a.precio <= b.precio
  }

  /** `b.precio - a.precio`, dearest first. */
  function ByPriceDesc(): (leq: (Product, Product) -> bool)
    ensures TotalPreorder(leq)
  {
    (a: Product, b: Product) => b.precio <= a.precio
  }

  /** `d2 - d1`: a before b unless b's discount is larger. The keys are never
      NaN, so the order is consistent. */
  function ByDiscount(): (leq: (Product, Product) -> bool)
    ensures TotalPreorder(leq)
  {
    DiscountsOrdered();
    (a: Product, b: Product) => GreaterOrEqual(DiscountKey(a), DiscountKey(b))
  }

  lemma DiscountsOrdered()
    ensures forall a: Product, b: Product :: GreaterOrEqual(DiscountKey(a), DiscountKey(b)) || GreaterOrEqual(DiscountKey(b), DiscountKey(a))
    ensures forall a: Product, b: Product, c: Product ::
      GreaterOrEqual(DiscountKey(a), DiscountKey(b)) && GreaterOrEqual(DiscountKey(b), DiscountKey(c)) ==>
      GreaterOrEqual(DiscountKey(a), DiscountKey(c))
  {
    forall a: Product, b: Product, c: Product
      ensures GreaterOrEqual(DiscountKey(a), DiscountKey(b)) || GreaterOrEqual(DiscountKey(b), DiscountKey(a))
      ensures GreaterOrEqual(DiscountKey(a), DiscountKey(b)) && GreaterOrEqual(DiscountKey(b), DiscountKey(c)) ==>
        GreaterOrEqual(DiscountKey(a), DiscountKey(c))
    {
      GreaterOrEqualOrders(DiscountKey(a), DiscountKey(b), DiscountKey(c));
    }
  }

  /** The comparator `result.sort` is given for a sort choice, with
      `localeCompare` read as the order of the texts' characters; no sort for
      any other choice. */
  function Order(sort: string): (o: Option<(Product, Product) -> bool>)
    ensures o.None? <==> sort !in {"alph-asc", "alph-desc", "price-asc", "price-desc", "discount"}
  {
    if sort == "alph-asc" then Some(ByName())
    else if sort == "alph-desc" then Some(ByNameDesc())
    else if sort == "price-asc" then Some(ByPrice())
    else if sort == "price-desc" then Some(ByPriceDesc())
    else if sort == "discount" then Some(ByDiscount())
    else None
  }

  /** Every comparator sorts consistently. */
  lemma OrdersArePreorders(sort: string)
    requires Order(sort).Some?
    ensures TotalPreorder(Order(sort).value)
  {
  }

  /** The list the table shows. */
  function Filtered(products: seq<Product>, f: Filters): (r: seq<Product>)
    ensures |r| <= |products|
    ensures forall i :: 0 <= i < |r| ==> Keeps(f, r[i])
  {
    var kept := Filter(products, (p: Product) => Keeps(f, p));
    match Order(f.sort)
    case None => kept
    case Some(leq) =>
      SortByKeepsAll(kept, leq, (p: Product) => Keeps(f, p));
      SortBy(kept, leq)
  }

  /** `filteredProducts`: a copy of the list narrowed filter by filter, then
      sorted. */
  method FilteredProducts(products: seq<Product>, f: Filters) returns (result: seq<Product>)
    ensures result == Filtered(products, f)
  {
    result := products;
    FilterAllKept(products, (p: Product) => true);
    result := Narrow(result, products, (p: Product) => true,
                     Trim(f.search) != "", (p: Product) => MatchesSearch(f.search, p),
                     (p: Product) => SearchKeeps(f, p));
    result := Narrow(result, products, (p: Product) => SearchKeeps(f, p),
                     f.category != "", (p: Product) => InCategory(f.category, p),
                     (p: Product) => SearchKeeps(f, p) && CategoryKeeps(f, p));
    result := Narrow(result, products, (p: Product) => SearchKeeps(f, p) && CategoryKeeps(f, p),
                     f.availability == "disponible" || f.availability == "agotado",
                     (p: Product) => AvailabilityKeeps(f.availability, p),
                     (p: Product) => SearchKeeps(f, p) && CategoryKeeps(f, p) && AvailabilityKeeps(f.availability, p));
    result := Narrow(result, products,
                     (p: Product) => SearchKeeps(f, p) && CategoryKeeps(f, p) && AvailabilityKeeps(f.availability, p),
                     f.offerFilter == "general" || f.offerFilter == "semana" || f.offerFilter == "none",
                     (p: Product) => OfferKeeps(f.offerFilter, p),
                     (p: Product) => Keeps(f, p));
    var order := Order(f.sort);
    if order.Some? {
      result := SortBy(result, order.value);
    }
  }

  /** The table shows exactly the products every active filter keeps. */
  lemma FilteredExact(products: seq<Product>, f: Filters, p: Product)
    ensures p in Filtered(products, f) <==> p in products && Keeps(f, p)
  {
    var kept := Filter(products, (q: Product) => Keeps(f, q));
    FilterMembership(products, (q: Product) => Keeps(f, q), p);
    if Order(f.sort).Some? {
      SortByPermutes(kept, Order(f.sort).value);
      assert p in SortBy(kept, Order(f.sort).value) <==> p in multiset(SortBy(kept, Order(f.sort).value));
    }
  }

  /** Without a sort the table keeps the catalogue's order; with one it is
      sorted by that comparator and holds the filtered products, each as often
      as before. */
  lemma FilteredOrder(products: seq<Product>, f: Filters)
    ensures var kept := Filter(products, (p: Product) => Keeps(f, p));
      (Order(f.sort).None? ==> IsSubsequence(Filtered(products, f), products)) &&
      (Order(f.sort).Some? ==>
        SortedBy(Filtered(products, f), Order(f.sort).value) &&
        multiset(Filtered(products, f)) == multiset(kept))
  {
    var kept := Filter(products, (p: Product) => Keeps(f, p));
    FilterIsSubsequence(products, (p: Product) => Keeps(f, p));
    if Order(f.sort).Some? {
      OrdersArePreorders(f.sort);
      SortBySorted(kept, Order(f.sort).value);
      SortByPermutes(kept, Order(f.sort).value);
    }
  }

  /** Choosing any category empties the table. */
  lemma CategoryKeepsNothing(products: seq<Product>, f: Filters)
    requires f.category != ""
    ensures Filtered(products, f) == []
  {
    if Filtered(products, f) != [] {
      var p := Filtered(products, f)[0];
      FilteredExact(products, f, p);
      assert false;
    }
  }

  /** A search of spaces only is no search at all. */
  lemma BlankSearchIgnored(products: seq<Product>, f: Filters)
    requires Trim(f.search) == ""
    ensures Filtered(products, f) == Filtered(products, f.(search := ""))
  {
    var f0 := f.(search := "");
    assert Trim(f0.search) == "";
    forall p: Product ensures Keeps(f, p) == Keeps(f0, p) {
      assert SearchKeeps(f, p) && SearchKeeps(f0, p);
    }
    FilterSamePredicate(products, (p: Product) => Keeps(f, p), (p: Product) => Keeps(f0, p));
  }

  // -------------------------------------------- delete, export and the query

  /** `handleDelete(id)` once the product is deleted from the database. */
  function Delete(products: seq<Product>, id: string): (r: seq<Product>)
    ensures forall i :: 0 <= i < |r| ==> r[i].id != id
  {
    Filter(products, (p: Product) => p.id != id)
  }

  /** Exactly the product with that id goes, the rest stay in order. */
  lemma DeleteExact(products: seq<Product>, id: string, p: Product)
    ensures p in Delete(products, id) <==> p in products && p.id != id
    ensures IsSubsequence(Delete(products, id), products)
  {
    FilterMembership(products, (q: Product) => q.id != id, p);
    FilterIsSubsequence(products, (q: Product) => q.id != id);
  }

  /** One row of the exported sheet. */
  datatype ExportRow = ExportRow(id: string, nombre: string, descripcion: string, categoria: Value,
                                 precio: real, precioOferta: Value, descuento: string,
                                 disponible: string, ofertaGeneral: string, ofertaSemana: string,
                                 imagen: string)

  function YesNo(b: bool): string { if b then "Sí" else "No" }

  /** `Math.round(((precio - oferta) / precio) * 100) + "%"`; with a price of
      0 the figure is an infinity. */
  function DiscountText(precio: real, oferta: real): string {
    if precio != 0.0 then IntStr(PercentOff(precio, oferta)) + "%"
    else if oferta > 0.0 then "-Infinity%"
    else "Infinity%"
  }

  function Row(p: Product): (row: ExportRow)
    ensures row.descuento == "" <==> p.precioOferta.None? || p.precioOferta.value == 0.0
    ensures row.categoria == Undefined
  {
    ExportRow(
      p.id, p.nombre, p.descripcion, ToRecord(p).categoria, p.precio,
      match p.precioOferta case Some(o) => Num(o) case None => Str(""),
      if p.precioOferta.Some? && p.precioOferta.value != 0.0 then DiscountText(p.precio, p.precioOferta.value)
      else "",
      YesNo(p.disponible), YesNo(p.ofertaGeneral), YesNo(p.ofertaSemana), p.imagen)
  }

  function Rows(rows: seq<Product>): (r: seq<ExportRow>)
    ensures |r| == |rows|
    ensures forall i :: 0 <= i < |rows| ==> r[i] == Row(rows[i])
  {
    if rows == [] then [] else [Row(rows[0])] + Rows(rows[1..])
  }

  /** `exportToExcel(rows)`: no sheet for an empty list, else one row per
      product in the order shown. */
  function ExportToExcel(rows: seq<Product>): (sheet: Option<seq<ExportRow>>)
    ensures sheet.None? <==> rows == []
    ensures sheet.Some? ==> sheet.value == Rows(rows)
  {
    if rows == [] then None else Some(Rows(rows))
  }

  /** An exported row shows the discount for a truthy offer and the three
      flags as "Sí" or "No". */
  lemma ExportRowMeaning(p: Product)
    ensures p.precioOferta.Some? && p.precioOferta.value != 0.0 && p.precio != 0.0 ==>
      Row(p).descuento == IntStr(PercentOff(p.precio, p.precioOferta.value)) + "%"
    ensures Row(p).disponible == "Sí" <==> p.disponible
    ensures Row(p).ofertaGeneral == "Sí" <==> p.ofertaGeneral
    ensures Row(p).ofertaSemana == "Sí" <==> p.ofertaSemana
  {
  }

  /** The offer filter after the query string is read: "ofertas" selects
      the general offers, "semana" the weekly ones, anything else keeps the
      current choice. */
  function OfferFilterFromQuery(query: Option<string>, current: string): (r: string)
    ensures query == Some("ofertas") ==> r == "general"
    ensures query == Some("semana") ==> r == "semana"
    ensures query != Some("ofertas") && query != Some("semana") ==> r == current
  {
    if query == Some("ofertas") then "general"
    else if query == Some("semana") then "semana"
    else current
  }
}

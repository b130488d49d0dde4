/** The "all products" admin list: the products held as plain objects,
    narrowed by seven independent filters and sorted by price, deleting a
    product, and saving the edit modal's form into the list without
    reloading it. After an edit a product is the form's object spread over
    the old one, so its price may be text and it may carry a `categoria`. */
module TodosProductosClient {
  import opened JsText
  import opened JsValue
  import opened Lists
  import opened Sorting
  import opened ProductsService

  const MissingIdMessage := "Falta el ID del producto."

  /** `Array.isArray(data) ? data : []`, with `None` for a result that is
      not an array. */
  function Loaded(data: Option<seq<ProductRecord>>): (products: seq<ProductRecord>)
    ensures data.None? ==> products == []
    ensures data.Some? ==> products == data.value
  {
    match data
    case None => []
    case Some(s) => s
  }

  /** The controls above the table. */
  datatype Filters = Filters(search: string, category: string, availability: string, offerFilter: string,
                             sort: string)

  // ------------------------------------------------------------ the filters

  /** How many `if (...) result = result.filter(...)` steps there are. */
  const Steps := 7

  /** Whether step `k` runs for these controls. */
  predicate Active(f: Filters, k: nat) {
    if k == 0 then Trim(f.search) != ""
    else if k == 1 then f.category != ""
    else if k == 2 then f.availability == "disponible"
    else if k == 3 then f.availability == "agotado"
    else if k == 4 then f.offerFilter == "general"
    else if k == 5 then f.offerFilter == "semana"
    else if k == 6 then f.offerFilter == "none"
    else false
  }

  /** `(p.nombre || "").toLowerCase().includes(search.toLowerCase())` */
  predicate MatchesSearch(search: string, p: ProductRecord) {
    Contains(ToLower(TextOr(p.nombre)), ToLower(search))
  }

  /** The predicate step `k` filters with. */
  predicate Test(f: Filters, k: nat, p: ProductRecord) {
    if k == 0 then MatchesSearch(f.search, p)
    else if k == 1 then p.categoria == Str(f.category)
    else if k == 2 then Truthy(p.disponible)
    else if k == 3 then !Truthy(p.disponible)
    else if k == 4 then Truthy(p.ofertaGeneral)
    else if k == 5 then Truthy(p.ofertaSemana)
    else if k == 6 then !Truthy(p.ofertaSemana) && !Truthy(p.ofertaGeneral)
    else true
  }

  /** What the first `k` steps keep together. */
  predicate KeptBy(f: Filters, k: nat, p: ProductRecord) {
    if k == 0 then true else KeptBy(f, k - 1, p) && (Active(f, k - 1) ==> Test(f, k - 1, p))
  }

  predicate Keeps(f: Filters, p: ProductRecord) {
    KeptBy(f, Steps, p)
  }

  /** A product is kept exactly when it passes every filter its control
      turns on. */
  lemma KeepsMeaning(f: Filters, p: ProductRecord)
    ensures Keeps(f, p) <==>
      (Trim(f.search) != "" ==> MatchesSearch(f.search, p)) &&
      (f.category != "" ==> p.categoria == Str(f.category)) &&
      (f.availability == "disponible" ==> Truthy(p.disponible)) &&
      (f.availability == "agotado" ==> !Truthy(p.disponible)) &&
      (f.offerFilter == "general" ==> Truthy(p.ofertaGeneral)) &&
      (f.offerFilter == "semana" ==> Truthy(p.ofertaSemana)) &&
      (f.offerFilter == "none" ==> !Truthy(p.ofertaSemana) && !Truthy(p.ofertaGeneral))
  {
    var search, category, disponible, agotado, general, semana, none :=
      Active(f, 0) ==> Test(f, 0, p), Active(f, 1) ==> Test(f, 1, p), Active(f, 2) ==> Test(f, 2, p),
      Active(f, 3) ==> Test(f, 3, p), Active(f, 4) ==> Test(f, 4, p), Active(f, 5) ==> Test(f, 5, p),
      Active(f, 6) ==> Test(f, 6, p);
    assert Keeps(f, p) == (search && category && disponible && agotado && general && semana && none) by {
      assert KeptBy(f, 7, p) == (KeptBy(f, 6, p) && none);
      assert KeptBy(f, 6, p) == (KeptBy(f, 5, p) && semana);
      assert KeptBy(f, 5, p) == (KeptBy(f, 4, p) && general);
      assert KeptBy(f, 4, p) == (KeptBy(f, 3, p) && agotado);
      assert KeptBy(f, 3, p) == (KeptBy(f, 2, p) && disponible);
      assert KeptBy(f, 2, p) == (KeptBy(f, 1, p) && category);
      assert KeptBy(f, 1, p) == search;
    }
  }

  /** What the steps from `k` on keep together. */
  predicate KeptFrom(f: Filters, k: nat, p: ProductRecord)
    decreases Steps - k
  {
    if k >= Steps then true else (Active(f, k) ==> Test(f, k, p)) && KeptFrom(f, k + 1, p)
  }

  /** Cutting the steps anywhere, the first part and the rest keep together
      what all of them keep. */
  lemma {:induction false} KeepsSplit(f: Filters, k: nat, p: ProductRecord)
    requires k <= Steps
    ensures Keeps(f, p) == (KeptBy(f, k, p) && KeptFrom(f, k, p))
    decreases Steps - k
  {
    if k < Steps {
      KeepsSplit(f, k + 1, p);
    }
  }

  // ---------------------------------------------------------- the price sort

  /** `p.precio ?? 0` as the subtraction reads it. */
  function PriceKey(p: ProductRecord): (k: Number)
    ensures Nullish(p.precio) ==> k == Fin(0.0)
    ensures p.precio.Num? ==> k == Fin(p.precio.n)
  {
    ToNumber(Coalesce(p.precio, Num(0.0)))
  }

  /** `(a, b) => (a.precio ?? 0) - (b.precio ?? 0)`: `a` may stay before
      `b` unless the difference is positive. */
  function Ascending(): (leq: (ProductRecord, ProductRecord) -> bool)
    ensures forall a, b :: PriceKey(a).Fin? && PriceKey(b).Fin? ==> (leq(a, b) <==> PriceKey(a).r <= PriceKey(b).r)
    ensures forall a, b :: PriceKey(a).NaN? ==> leq(a, b) && leq(b, a)
  {
    (a: ProductRecord, b: ProductRecord) => !DifferencePositive(PriceKey(a), PriceKey(b))
  }

  /** `(a, b) => (b.precio ?? 0) - (a.precio ?? 0)` */
  function Descending(): (leq: (ProductRecord, ProductRecord) -> bool)
    ensures forall a, b :: PriceKey(a).Fin? && PriceKey(b).Fin? ==> (leq(a, b) <==> PriceKey(b).r <= PriceKey(a).r)
    ensures forall a, b :: PriceKey(a).NaN? ==> leq(a, b) && leq(b, a)
  {
    (a: ProductRecord, b: ProductRecord) => !DifferencePositive(PriceKey(b), PriceKey(a))
  }

  /** The comparator for a sort choice; no sort for any other choice. */
  function Order(sort: string): (o: Option<(ProductRecord, ProductRecord) -> bool>)
    ensures o.None? <==> sort != "precio-asc" && sort != "precio-desc"
  {
    if sort == "precio-asc" then Some(Ascending())
    else if sort == "precio-desc" then Some(Descending())
    else None
  }

  /** No key of the list is NaN: every price is missing or reads as a
      number. */
  predicate NumericPrices(s: seq<ProductRecord>) {
    forall i :: 0 <= i < |s| ==> !PriceKey(s[i]).NaN?
  }

  /** On products whose prices read as numbers, both comparators order
      consistently. */
  lemma OrderOnNumericPrices(s: seq<ProductRecord>, sort: string)
    requires Order(sort).Some? && NumericPrices(s)
    ensures PreorderOn((set p | p in s), Order(sort).value)
  {
    var xs := set p | p in s;
    forall a, b, c | a in xs && b in xs && c in xs
      ensures GreaterOrEqual(PriceKey(a), PriceKey(b)) || GreaterOrEqual(PriceKey(b), PriceKey(a))
      ensures GreaterOrEqual(PriceKey(a), PriceKey(b)) && GreaterOrEqual(PriceKey(b), PriceKey(c)) ==>
        GreaterOrEqual(PriceKey(a), PriceKey(c))
      ensures GreaterOrEqual(PriceKey(c), PriceKey(b)) && GreaterOrEqual(PriceKey(b), PriceKey(a)) ==>
        GreaterOrEqual(PriceKey(c), PriceKey(a))
      ensures DifferencePositive(PriceKey(a), PriceKey(b)) <==> !GreaterOrEqual(PriceKey(b), PriceKey(a))
    {
      GreaterOrEqualOrders(PriceKey(a), PriceKey(b), PriceKey(c));
      GreaterOrEqualOrders(PriceKey(c), PriceKey(b), PriceKey(a));
    }
  }

  // ------------------------------------------------------ the list shown

  /** The list the table shows. */
  function Filtered(products: seq<ProductRecord>, f: Filters): (r: seq<ProductRecord>)
    ensures |r| <= |products|
    ensures forall i :: 0 <= i < |r| ==> Keeps(f, r[i])
  {
    var kept := Filter(products, (p: ProductRecord) => Keeps(f, p));
    match Order(f.sort)
    case None => kept
    case Some(leq) =>
      SortByKeepsAll(kept, leq, (p: ProductRecord) => Keeps(f, p));
      SortBy(kept, leq)
  }

  /** `filteredProducts`: a copy of the list narrowed step by step, then
      sorted. */
  method FilteredProducts(products: seq<ProductRecord>, f: Filters) returns (result: seq<ProductRecord>)
    ensures result == Filtered(products, f)
  {
    result := products;
    FilterAllKept(products, (p: ProductRecord) => KeptBy(f, 0, p));
    result := Narrow(result, products, (p: ProductRecord) => KeptBy(f, 0, p),
                     Active(f, 0), (p: ProductRecord) => Test(f, 0, p), (p: ProductRecord) => KeptBy(f, 1, p));
    result := Narrow(result, products, (p: ProductRecord) => KeptBy(f, 1, p),
                     Active(f, 1), (p: ProductRecord) => Test(f, 1, p), (p: ProductRecord) => KeptBy(f, 2, p));
    result := Narrow(result, products, (p: ProductRecord) => KeptBy(f, 2, p),
                     Active(f, 2), (p: ProductRecord) => Test(f, 2, p), (p: ProductRecord) => KeptBy(f, 3, p));
    result := Narrow(result, products, (p: ProductRecord) => KeptBy(f, 3, p),
                     Active(f, 3), (p: ProductRecord) => Test(f, 3, p), (p: ProductRecord) => KeptBy(f, 4, p));
    result := Narrow(result, products, (p: ProductRecord) => KeptBy(f, 4, p),
                     Active(f, 4), (p: ProductRecord) => Test(f, 4, p), (p: ProductRecord) => KeptBy(f, 5, p));
    result := Narrow(result, products, (p: ProductRecord) => KeptBy(f, 5, p),
                     Active(f, 5), (p: ProductRecord) => Test(f, 5, p), (p: ProductRecord) => KeptBy(f, 6, p));
    result := Narrow(result, products, (p: ProductRecord) => KeptBy(f, 6, p),
                     Active(f, 6), (p: ProductRecord) => Test(f, 6, p), (p: ProductRecord) => Keeps(f, p));
    if f.sort == "precio-asc" {
      result := SortBy(result, Ascending());
    }
    if f.sort == "precio-desc" {
      result := SortBy(result, Descending());
    }
  }

  /** The table shows exactly the products every active filter keeps. */
  lemma FilteredExact(products: seq<ProductRecord>, f: Filters, p: ProductRecord)
    ensures p in Filtered(products, f) <==> p in products && Keeps(f, p)
  {
    var kept := Filter(products, (q: ProductRecord) => Keeps(f, q));
    FilterMembership(products, (q: ProductRecord) => Keeps(f, q), p);
    if Order(f.sort).Some? {
      SortByPermutes(kept, Order(f.sort).value);
      assert p in SortBy(kept, Order(f.sort).value) <==> p in multiset(SortBy(kept, Order(f.sort).value));
    }
  }

  /** Before sorting the list is a subsequence of the products; a price sort
      keeps each of them as often as before, and when every price reads as
      a number it puts the prices in order. */
  lemma FilteredOrder(products: seq<ProductRecord>, f: Filters)
    ensures var kept := Filter(products, (p: ProductRecord) => Keeps(f, p));
      var r := Filtered(products, f);
      IsSubsequence(kept, products) &&
      (Order(f.sort).None? ==> r == kept) &&
      multiset(r) == multiset(kept) &&
      (NumericPrices(products) && f.sort == "precio-asc" ==>
        forall i, j :: 0 <= i < j < |r| ==> GreaterOrEqual(PriceKey(r[j]), PriceKey(r[i]))) &&
      (NumericPrices(products) && f.sort == "precio-desc" ==>
        forall i, j :: 0 <= i < j < |r| ==> GreaterOrEqual(PriceKey(r[i]), PriceKey(r[j])))
  {
    var keep := (p: ProductRecord) => Keeps(f, p);
    var kept := Filter(products, keep);
    FilterIsSubsequence(products, keep);
    if Order(f.sort).Some? {
      var leq := Order(f.sort).value;
      SortByPermutes(kept, leq);
      if NumericPrices(products) {
        var xs := set p | p in products;
        OrderOnNumericPrices(products, f.sort);
        forall i | 0 <= i < |kept| ensures kept[i] in xs {
          FilterMembership(products, keep, kept[i]);
        }
        SortBySortedOn(kept, leq, xs);
        var r := SortBy(kept, leq);
        forall i, j | 0 <= i < j < |r|
          ensures f.sort == "precio-asc" ==> GreaterOrEqual(PriceKey(r[j]), PriceKey(r[i]))
          ensures f.sort == "precio-desc" ==> GreaterOrEqual(PriceKey(r[i]), PriceKey(r[j]))
        {
          assert leq(r[i], r[j]);
          assert r[i] in multiset(kept) && r[j] in multiset(kept);
          FilterMembership(products, keep, r[i]);
          FilterMembership(products, keep, r[j]);
          var p, q :| p == r[i] && q == r[j];
          assert p in products && q in products;
          var a :| 0 <= a < |products| && products[a] == p;
          var b :| 0 <= b < |products| && products[b] == q;
          GreaterOrEqualOrders(PriceKey(p), PriceKey(q), PriceKey(q));
        }
      }
    }
  }

  /** The filters commute: running the steps from `k` on first and the
      earlier ones after them leaves the same list as running them in the
      page's order. */
  lemma FiltersCommute(products: seq<ProductRecord>, f: Filters, k: nat)
    requires k <= Steps
    ensures Filter(Filter(products, (p: ProductRecord) => KeptFrom(f, k, p)), (p: ProductRecord) => KeptBy(f, k, p)) ==
      Filter(products, (p: ProductRecord) => Keeps(f, p))
  {
    forall p: ProductRecord ensures Keeps(f, p) == (KeptFrom(f, k, p) && KeptBy(f, k, p)) {
      KeepsSplit(f, k, p);
    }
    FilterFilterAs(products, (p: ProductRecord) => KeptFrom(f, k, p), (p: ProductRecord) => KeptBy(f, k, p),
                   (p: ProductRecord) => Keeps(f, p));
  }

  // ------------------------------------------------ delete and edit

  /** The list and the product open in the edit modal. */
  datatype State = State(products: seq<ProductRecord>, editing: Option<ProductRecord>)

  /** `handleDelete(id)`: when `deleteProduct` succeeds the product leaves
      the list and, if it is the one being edited, the modal closes; when it
      fails nothing changes. */
  function Delete(st: State, id: Value, deleted: bool): (r: State)
    ensures !deleted ==> r == st
  {
    if !deleted then st
    else State(Filter(st.products, (p: ProductRecord) => p.id != id),
               if st.editing.Some? && st.editing.value.id == id then None else st.editing)
  }

  /** Exactly the products with that id go, the rest stay in order, and the
      modal closes exactly when it showed that product. */
  lemma DeleteExact(st: State, id: Value, p: ProductRecord)
    ensures var r := Delete(st, id, true);
      (p in r.products <==> p in st.products && p.id != id) &&
      IsSubsequence(r.products, st.products) &&
      (r.editing.None? <==> st.editing.None? || st.editing.value.id == id) &&
      (r.editing.Some? ==> r.editing == st.editing)
  {
    FilterMembership(st.products, (q: ProductRecord) => q.id != id, p);
    FilterIsSubsequence(st.products, (q: ProductRecord) => q.id != id);
  }

  /** `{ ...p, ...formValues, id: editing.id }` on the product with the
      edited id, every other product as it was. */
  function MergeEdit(products: seq<ProductRecord>, id: Value, form: ProductRecord): (r: seq<ProductRecord>)
    ensures |r| == |products|
  {
    seq(|products|, i requires 0 <= i < |products| =>
      if products[i].id == id then SetField(Spread(products[i], form), Id, id) else products[i])
  }

  /** `handleEditSubmit(formValues)` at time `now`: without an id on the
      edited product it throws; a rejected `updateProduct` throws its
      message and changes nothing; otherwise the list is merged and the
      modal closes. */
  function EditSubmit(st: State, form: ProductRecord, now: int): (r: Result<State>)
    ensures st.editing.None? || !Truthy(st.editing.value.id) ==> r == Err(MissingIdMessage)
    ensures r.Ok? ==> r.value.editing.None?
  {
    if st.editing.None? || !Truthy(st.editing.value.id) then Err(MissingIdMessage)
    else match UpdateProduct(form, now)
      case Err(m) => Err(m)
      case Ok(_) => Ok(State(MergeEdit(st.products, st.editing.value.id, form), None))
  }

  /** With an id the edit goes through exactly when `updateProduct` accepts
      the form; then only the products with that id change: each takes every
      property the form has, keeps the others and keeps its id. */
  lemma EditMergesOnlyMatching(st: State, form: ProductRecord, now: int)
    requires st.editing.Some? && Truthy(st.editing.value.id)
    ensures EditSubmit(st, form, now).Ok? <==> UpdateProduct(form, now).Ok?
    ensures EditSubmit(st, form, now).Err? ==> EditSubmit(st, form, now) == Err(UpdateProduct(form, now).message)
    ensures EditSubmit(st, form, now).Ok? ==>
      var id := st.editing.value.id;
      var r := EditSubmit(st, form, now).value.products;
      |r| == |st.products| &&
      forall i :: 0 <= i < |r| ==>
        (st.products[i].id != id ==> r[i] == st.products[i]) &&
        (st.products[i].id == id ==>
          GetField(r[i], Id) == id &&
          forall g :: g != Id ==>
            GetField(r[i], g) == Present(GetField(form, g), GetField(st.products[i], g)))
  {
  }

  /** Saving the same form twice leaves the list as saving it once. */
  lemma EditTwice(products: seq<ProductRecord>, id: Value, form: ProductRecord)
    ensures MergeEdit(MergeEdit(products, id, form), id, form) == MergeEdit(products, id, form)
  {
    var once := MergeEdit(products, id, form);
    forall i | 0 <= i < |products| ensures MergeEdit(once, id, form)[i] == once[i] {
      if products[i].id == id {
        var a := once[i];
        var b := MergeEdit(once, id, form)[i];
        forall g ensures GetField(b, g) == GetField(a, g) {
        }
        SameFields(b, a);
      }
    }
  }

  // ------------------------------------------------------------- the export

  /** `exportToExcel(rows)`: no file for an empty list; otherwise the sheet
      holds the rows as given. */
  function ExportToExcel(rows: seq<ProductRecord>): (sheet: Option<seq<ProductRecord>>)
    ensures sheet.None? <==> rows == []
    ensures sheet.Some? ==> sheet.value == rows
  {
    if |rows| == 0 then None else Some(rows)
  }
}

/** The earlier admin product list: the catalogue as `getProducts` returns
    it, narrowed by the same controls as the admin home page, one `if` per
    choice, and never sorted although the page keeps a sort choice; and
    deleting a product. Its filters are the home page's predicates, so a
    chosen category empties this list too. */
module ProductosClient {
  import opened JsText
  import opened Lists
  import opened ProductsService
  import RootPage

  /** The list the table shows. */
  function Filtered(products: seq<Product>, f: RootPage.Filters): seq<Product> {
    Filter(products, (p: Product) => RootPage.Keeps(f, p))
  }

  /** The search and the category, as the first two steps keep. */
  predicate SearchAndCategory(f: RootPage.Filters, p: Product) {
    RootPage.SearchKeeps(f, p) && RootPage.CategoryKeeps(f, p)
  }

  /** The two availability steps and the three offer steps together. */
  predicate AvailabilityAndOffer(f: RootPage.Filters, p: Product) {
    RootPage.AvailabilityKeeps(f.availability, p) && RootPage.OfferKeeps(f.offerFilter, p)
  }

  /** `filteredProducts`: a copy of the list narrowed by one filter per
      active choice, in the page's order. */
  method FilteredProducts(products: seq<Product>, f: RootPage.Filters) returns (result: seq<Product>)
    ensures result == Filtered(products, f)
  {
    var a, o := f.availability, f.offerFilter;
    result := products;
    FilterAllKept(products, (p: Product) => true);
    result := Narrow(result, products, (p: Product) => true,
                     Trim(f.search) != "", (p: Product) => RootPage.MatchesSearch(f.search, p),
                     (p: Product) => RootPage.SearchKeeps(f, p));
    result := Narrow(result, products, (p: Product) => RootPage.SearchKeeps(f, p),
                     f.category != "", (p: Product) => RootPage.InCategory(f.category, p),
                     (p: Product) => SearchAndCategory(f, p));
    result := Narrow(result, products, (p: Product) => SearchAndCategory(f, p),
                     a == "disponible", (p: Product) => p.disponible,
                     (p: Product) => SearchAndCategory(f, p) && (a == "disponible" ==> p.disponible));
    result := Narrow(result, products,
                     (p: Product) => SearchAndCategory(f, p) && (a == "disponible" ==> p.disponible),
                     a == "agotado", (p: Product) => !p.disponible,
                     (p: Product) => SearchAndCategory(f, p) && RootPage.AvailabilityKeeps(a, p));
    result := Narrow(result, products, (p: Product) => SearchAndCategory(f, p) && RootPage.AvailabilityKeeps(a, p),
                     o == "general", (p: Product) => p.ofertaGeneral,
                     (p: Product) => SearchAndCategory(f, p) && RootPage.AvailabilityKeeps(a, p) &&
                                     (o == "general" ==> p.ofertaGeneral));
    result := Narrow(result, products,
                     (p: Product) => SearchAndCategory(f, p) && RootPage.AvailabilityKeeps(a, p) &&
                                     (o == "general" ==> p.ofertaGeneral),
                     o == "semana", (p: Product) => p.ofertaSemana,
                     (p: Product) => SearchAndCategory(f, p) && RootPage.AvailabilityKeeps(a, p) &&
                                     (o == "general" ==> p.ofertaGeneral) && (o == "semana" ==> p.ofertaSemana));
    result := Narrow(result, products,
                     (p: Product) => SearchAndCategory(f, p) && RootPage.AvailabilityKeeps(a, p) &&
                                     (o == "general" ==> p.ofertaGeneral) && (o == "semana" ==> p.ofertaSemana),
                     o == "none", (p: Product) => !p.ofertaSemana && !p.ofertaGeneral,
                     (p: Product) => RootPage.Keeps(f, p));
  }

  /** The table shows exactly the products every active filter keeps, in
      the catalogue's order. */
  lemma FilteredExact(products: seq<Product>, f: RootPage.Filters, p: Product)
    ensures p in Filtered(products, f) <==> p in products && RootPage.Keeps(f, p)
    ensures IsSubsequence(Filtered(products, f), products)
  {
    FilterMembership(products, (q: Product) => RootPage.Keeps(f, q), p);
    FilterIsSubsequence(products, (q: Product) => RootPage.Keeps(f, q));
  }

  /** The sort choice changes nothing. */
  lemma SortIgnored(products: seq<Product>, f: RootPage.Filters, sort: string)
    ensures Filtered(products, f.(sort := sort)) == Filtered(products, f)
  {
    var g := f.(sort := sort);
    assert g.search == f.search && g.category == f.category;
    assert g.availability == f.availability && g.offerFilter == f.offerFilter;
    forall q: Product ensures RootPage.Keeps(g, q) == RootPage.Keeps(f, q) {
      assert RootPage.SearchKeeps(g, q) == RootPage.SearchKeeps(f, q);
      assert RootPage.CategoryKeeps(g, q) == RootPage.CategoryKeeps(f, q);
    }
    FilterSamePredicate(products, (q: Product) => RootPage.Keeps(g, q), (q: Product) => RootPage.Keeps(f, q));
  }

  /** The filters commute: narrowing by availability and offer first and by
      the search and the category after gives the same list. */
  lemma FiltersCommute(products: seq<Product>, f: RootPage.Filters)
    ensures Filter(Filter(products, (p: Product) => AvailabilityAndOffer(f, p)), (p: Product) => SearchAndCategory(f, p)) ==
      Filtered(products, f)
  {
    FilterFilterAs(products, (p: Product) => AvailabilityAndOffer(f, p), (p: Product) => SearchAndCategory(f, p),
                   (p: Product) => RootPage.Keeps(f, p));
  }

  /** `handleDelete(id)` once the product is deleted from the database. */
  function Delete(products: seq<Product>, id: string): (r: seq<Product>)
    ensures forall p :: p in r <==> p in products && p.id != id
    ensures IsSubsequence(r, products)
  {
    var keep := (p: Product) => p.id != id;
    forall p ensures p in Filter(products, keep) <==> p in products && p.id != id {
      FilterMembership(products, keep, p);
    }
    FilterIsSubsequence(products, keep);
    Filter(products, keep)
  }
}

/** The shopping cart store: a list of lines keyed by slug, kept in browser
    storage under a three-hour expiry. The line transitions and the totals
    are functions; `CartStore` holds the React state and the stored copy and
    applies them, saving after every change as the component's effect does. */
module CartContext {
  import opened JsValue
  import opened Lists

  /** Three hours in milliseconds. */
  const TtlMs: int := 3 * 60 * 60 * 1000

  /** A cart line as the cards build it. */
  datatype CartItem = CartItem(name: string, slug: string, price: real, quantity: int, image: Option<string>)

  /** What `localStorage.getItem("savia-cart")` holds, once parsed. */
  datatype StoredCart =
    | Absent                                            // null or the empty string
    | Unreadable                                        // not JSON, or JSON without properties
    | Legacy(lines: seq<CartItem>)                      // the old format: a bare array
    | Envelope(items: Option<seq<CartItem>>, expiresAt: Option<real>)  // None: not an array / not a number

  /** The lines loaded and whether the stored entry is removed. */
  datatype Loaded = Loaded(lines: seq<CartItem>, removeStored: bool)

  /** `loadCartWithTTL()` at time `now`. */
  function LoadCartWithTTL(stored: StoredCart, now: int): (r: Loaded)
    ensures stored.Absent? ==> r == Loaded([], false)
    ensures stored.Legacy? ==> r == Loaded(stored.lines, false)
    ensures r.removeStored ==> r.lines == []
  {
    match stored
    case Absent => Loaded([], false)
    case Unreadable => Loaded([], true)
    case Legacy(lines) => Loaded(lines, false)
    case Envelope(items, expiresAt) =>
      if items.None? || expiresAt.None? then Loaded([], true)
      else if now as real > expiresAt.value then Loaded([], true)
      else Loaded(items.value, false)
  }

  /** The payload the save effect writes at time `now`. */
  function Saved(lines: seq<CartItem>, now: int): StoredCart {
    Envelope(Some(lines), Some((now + TtlMs) as real))
  }

  /** A saved cart loads back unchanged up to and including the expiry
      instant, and is dropped and removed after it. */
  lemma SavedCartExpiresAfterTtl(lines: seq<CartItem>, savedAt: int, now: int)
    ensures now <= savedAt + TtlMs ==> LoadCartWithTTL(Saved(lines, savedAt), now) == Loaded(lines, false)
    ensures now > savedAt + TtlMs ==> LoadCartWithTTL(Saved(lines, savedAt), now) == Loaded([], true)
  {
  }

  /** A stored envelope whose items are not an array, or whose expiry is not
      a number, is corrupt: it is removed and the cart starts empty. */
  lemma CorruptEnvelopeIsRemoved(items: Option<seq<CartItem>>, expiresAt: Option<real>, now: int)
    requires items.None? || expiresAt.None?
    ensures LoadCartWithTTL(Envelope(items, expiresAt), now) == Loaded([], true)
  {
  }

  // ------------------------------------------------------------ the lines

  predicate HasSlug(cart: seq<CartItem>, slug: string) {
    exists i :: 0 <= i < |cart| && cart[i].slug == slug
  }

  predicate UniqueSlugs(cart: seq<CartItem>) {
    forall i, j :: 0 <= i < j < |cart| ==> cart[i].slug != cart[j].slug
  }

  /** `prev.map(p => p.slug === slug ? { ...p, quantity: p.quantity + d } : p)` */
  function Bump(cart: seq<CartItem>, slug: string, d: int): (r: seq<CartItem>)
    ensures |r| == |cart|
    ensures forall i :: 0 <= i < |r| ==> r[i] == if cart[i].slug == slug then cart[i].(quantity := cart[i].quantity + d) else cart[i]
  {
    if cart == [] then []
    else [if cart[0].slug == slug then cart[0].(quantity := cart[0].quantity + d) else cart[0]] + Bump(cart[1..], slug, d)
  }

  /** `addToCart(product)` */
  function AddLine(cart: seq<CartItem>, product: CartItem): (r: seq<CartItem>)
    ensures HasSlug(cart, product.slug) ==> r == Bump(cart, product.slug, 1)
    ensures !HasSlug(cart, product.slug) ==> r == cart + [product.(quantity := 1)]
  {
    if HasSlug(cart, product.slug) then Bump(cart, product.slug, 1) else cart + [product.(quantity := 1)]
  }

  predicate PositiveQuantity(item: CartItem) { item.quantity > 0 }

  /** `decreaseQty(slug)` */
  function DecreaseLine(cart: seq<CartItem>, slug: string): (r: seq<CartItem>)
    ensures forall i :: 0 <= i < |r| ==> r[i].quantity > 0
  {
    Filter(Bump(cart, slug, -1), PositiveQuantity)
  }

  /** `removeFromCart(slug)` */
  function RemoveLine(cart: seq<CartItem>, slug: string): (r: seq<CartItem>)
    ensures forall i :: 0 <= i < |r| ==> r[i].slug != slug
  {
    Filter(cart, (item: CartItem) => item.slug != slug)
  }

  /** `totalItems`: the sum of the quantities. */
  function TotalItems(cart: seq<CartItem>): int {
    if cart == [] then 0 else cart[0].quantity + TotalItems(cart[1..])
  }

  /** `totalPrice`: the sum of quantity times price. */
  function TotalPrice(cart: seq<CartItem>): real {
    if cart == [] then 0.0 else cart[0].quantity as real * cart[0].price + TotalPrice(cart[1..])
  }

  /** Every line counts at least once, so a cart of positive quantities
      holds at least as many items as lines. */
  lemma {:induction false} TotalItemsBounds(cart: seq<CartItem>)
    ensures (forall i :: 0 <= i < |cart| ==> cart[i].quantity > 0) ==> TotalItems(cart) >= |cart|
    ensures (forall i :: 0 <= i < |cart| ==> cart[i].quantity >= 0) ==> TotalItems(cart) >= 0
  {
    if cart != [] {
      TotalItemsBounds(cart[1..]);
      assert forall i :: 0 <= i < |cart[1..]| ==> cart[1..][i] == cart[i + 1];
    }
  }

  /** With no negative quantity or price the total is not negative. */
  lemma {:induction false} TotalPriceNonNegative(cart: seq<CartItem>)
    ensures (forall i :: 0 <= i < |cart| ==> cart[i].quantity >= 0 && cart[i].price >= 0.0) ==> TotalPrice(cart) >= 0.0
  {
    if cart != [] && forall i :: 0 <= i < |cart| ==> cart[i].quantity >= 0 && cart[i].price >= 0.0 {
      assert forall i :: 0 <= i < |cart[1..]| ==> cart[1..][i] == cart[i + 1];
      TotalPriceNonNegative(cart[1..]);
      var q, p := cart[0].quantity as real, cart[0].price;
      assert q * p >= 0.0;
    }
  }

  // ------------------------------------------------- properties of the lines

  /** Adding an existing slug raises that line by one and leaves the length,
      the order and every other line as they were. */
  lemma AddExistingIncrements(cart: seq<CartItem>, product: CartItem)
    requires HasSlug(cart, product.slug)
    ensures |AddLine(cart, product)| == |cart|
    ensures forall i :: 0 <= i < |cart| && cart[i].slug == product.slug ==>
      AddLine(cart, product)[i] == cart[i].(quantity := cart[i].quantity + 1)
    ensures forall i :: 0 <= i < |cart| && cart[i].slug != product.slug ==> AddLine(cart, product)[i] == cart[i]
  {
  }

  /** Adding a new slug appends the product with quantity 1, whatever
      quantity it carried. */
  lemma AddNewAppends(cart: seq<CartItem>, product: CartItem)
    requires !HasSlug(cart, product.slug)
    ensures AddLine(cart, product) == cart + [product.(quantity := 1)]
    ensures AddLine(cart, product)[|cart|].quantity == 1
  {
  }

  lemma {:induction false} FilterKeepsUnique(cart: seq<CartItem>, keep: CartItem -> bool)
    requires UniqueSlugs(cart)
    ensures UniqueSlugs(Filter(cart, keep))
  {
    if cart != [] {
      FilterKeepsUnique(cart[1..], keep);
      if keep(cart[0]) {
        var rest := Filter(cart[1..], keep);
        forall j | 0 <= j < |rest| ensures cart[0].slug != rest[j].slug {
          FilterMembership(cart[1..], keep, rest[j]);
          var k :| 0 <= k < |cart[1..]| && cart[1..][k] == rest[j];
          assert cart[k + 1] == rest[j];
        }
      }
    }
  }

  lemma AddKeepsUnique(cart: seq<CartItem>, product: CartItem)
    requires UniqueSlugs(cart)
    ensures UniqueSlugs(AddLine(cart, product))
  {
  }

  lemma DecreaseKeepsUnique(cart: seq<CartItem>, slug: string)
    requires UniqueSlugs(cart)
    ensures UniqueSlugs(DecreaseLine(cart, slug))
  {
    FilterKeepsUnique(Bump(cart, slug, -1), PositiveQuantity);
  }

  lemma RemoveKeepsUnique(cart: seq<CartItem>, slug: string)
    requires UniqueSlugs(cart)
    ensures UniqueSlugs(RemoveLine(cart, slug))
  {
    FilterKeepsUnique(cart, (item: CartItem) => item.slug != slug);
  }

  /** Removing keeps exactly the lines with another slug, in their order. */
  lemma RemoveLineExact(cart: seq<CartItem>, slug: string, item: CartItem)
    ensures item in RemoveLine(cart, slug) <==> item in cart && item.slug != slug
    ensures IsSubsequence(RemoveLine(cart, slug), cart)
  {
    FilterMembership(cart, (item: CartItem) => item.slug != slug, item);
    FilterIsSubsequence(cart, (item: CartItem) => item.slug != slug);
  }

  lemma {:induction false} BumpOtherSlugs(cart: seq<CartItem>, slug: string, d: int)
    ensures Filter(Bump(cart, slug, d), (item: CartItem) => item.slug != slug) == Filter(cart, (item: CartItem) => item.slug != slug)
  {
    if cart != [] {
      BumpOtherSlugs(cart[1..], slug, d);
      assert Bump(cart, slug, d)[1..] == Bump(cart[1..], slug, d);
    }
  }

  lemma {:induction false} FilterPositiveOfPositive(cart: seq<CartItem>, slug: string)
    requires forall i :: 0 <= i < |cart| ==> cart[i].quantity > 0
    ensures Filter(Filter(cart, PositiveQuantity), (item: CartItem) => item.slug != slug) ==
            Filter(cart, (item: CartItem) => item.slug != slug)
  {
    FilterAllKept(cart, PositiveQuantity);
  }

  /** When every quantity is positive, decreasing one slug can drop only
      that slug's line: all other lines survive unchanged and in order. */
  lemma DecreaseOnlyDropsTarget(cart: seq<CartItem>, slug: string)
    requires forall i :: 0 <= i < |cart| ==> cart[i].quantity > 0
    ensures RemoveLine(DecreaseLine(cart, slug), slug) == RemoveLine(cart, slug)
  {
    var b := Bump(cart, slug, -1);
    var other := (item: CartItem) => item.slug != slug;
    FilterCommutes(b, PositiveQuantity, other);
    BumpOtherSlugs(cart, slug, -1);
    var rest := Filter(cart, other);
    assert forall i :: 0 <= i < |rest| ==> rest[i].quantity > 0 by {
      forall i | 0 <= i < |rest| ensures rest[i].quantity > 0 {
        FilterMembership(cart, other, rest[i]);
      }
    }
    FilterAllKept(rest, PositiveQuantity);
  }

  /** With unique slugs, lowering a slug by one touches only its own line. */
  lemma BumpOneLine(cart: seq<CartItem>, slug: string, i: int)
    requires UniqueSlugs(cart)
    requires 0 <= i < |cart| && cart[i].slug == slug
    ensures Bump(cart, slug, -1) == cart[..i] + [cart[i].(quantity := cart[i].quantity - 1)] + cart[i + 1..]
  {
    var b := Bump(cart, slug, -1);
    var c := cart[..i] + [cart[i].(quantity := cart[i].quantity - 1)] + cart[i + 1..];
    assert |b| == |c|;
    forall j | 0 <= j < |b| ensures b[j] == c[j] {
      if j < i {
        assert c[j] == cart[j];
      } else if j > i {
        assert c[j] == cart[j];
      }
    }
  }

  /** A line above 1 goes down by one in its place; every other line stays. */
  lemma DecreaseAboveOne(cart: seq<CartItem>, slug: string, i: int)
    requires UniqueSlugs(cart)
    requires forall j :: 0 <= j < |cart| ==> cart[j].quantity > 0
    requires 0 <= i < |cart| && cart[i].slug == slug && cart[i].quantity > 1
    ensures DecreaseLine(cart, slug) == cart[..i] + [cart[i].(quantity := cart[i].quantity - 1)] + cart[i + 1..]
  {
    BumpOneLine(cart, slug, i);
    var b := Bump(cart, slug, -1);
    assert forall j :: 0 <= j < |b| ==> b[j].quantity > 0;
    FilterAllKept(b, PositiveQuantity);
  }

  /** Without its own line, a cart of unique slugs holds that slug no more. */
  lemma WithoutLine(cart: seq<CartItem>, i: int)
    requires UniqueSlugs(cart) && 0 <= i < |cart|
    ensures !HasSlug(cart[..i] + cart[i + 1..], cart[i].slug)
  {
    var r := cart[..i] + cart[i + 1..];
    forall k | 0 <= k < |r|
      ensures r[k].slug != cart[i].slug
    {
      if k < i {
        assert r[k] == cart[k];
      } else {
        assert r[k] == cart[k + 1];
      }
    }
  }

  /** A line at 1 leaves the cart, and no line with its slug is left. */
  lemma DecreaseAtOne(cart: seq<CartItem>, slug: string, i: int)
    requires UniqueSlugs(cart)
    requires forall j :: 0 <= j < |cart| ==> cart[j].quantity > 0
    requires 0 <= i < |cart| && cart[i].slug == slug && cart[i].quantity == 1
    ensures DecreaseLine(cart, slug) == cart[..i] + cart[i + 1..]
    ensures !HasSlug(DecreaseLine(cart, slug), slug)
  {
    BumpOneLine(cart, slug, i);
    var before, after := cart[..i], cart[i + 1..];
    assert forall j :: 0 <= j < |before| ==> before[j] == cart[j];
    assert forall j :: 0 <= j < |after| ==> after[j] == cart[i + 1 + j];
    FilterDropsOne(before, cart[i].(quantity := 0), after, PositiveQuantity);
    WithoutLine(cart, i);
  }

  /** What `decreaseQty(slug)` does to the line with that slug, on a cart of
      unique slugs and positive quantities: a line above 1 goes down by one in
      its place, a line at 1 leaves the cart; either way the item count drops
      by exactly the one unit taken. */
  lemma DecreaseTarget(cart: seq<CartItem>, slug: string, i: int)
    requires UniqueSlugs(cart)
    requires forall j :: 0 <= j < |cart| ==> cart[j].quantity > 0
    requires 0 <= i < |cart| && cart[i].slug == slug
    ensures cart[i].quantity > 1 ==>
      |DecreaseLine(cart, slug)| == |cart| &&
      DecreaseLine(cart, slug)[i] == cart[i].(quantity := cart[i].quantity - 1) &&
      (forall j :: 0 <= j < |cart| && j != i ==> DecreaseLine(cart, slug)[j] == cart[j])
    ensures cart[i].quantity == 1 ==>
      DecreaseLine(cart, slug) == cart[..i] + cart[i + 1..] && !HasSlug(DecreaseLine(cart, slug), slug)
    ensures TotalItems(DecreaseLine(cart, slug)) == TotalItems(cart) - 1
  {
    var x := cart[i].(quantity := cart[i].quantity - 1);
    TotalItemsAppend(cart[..i] + [x], cart[i + 1..]);
    TotalItemsAppend(cart[..i], [x]);
    TotalItemsAppend(cart[..i] + [cart[i]], cart[i + 1..]);
    TotalItemsAppend(cart[..i], [cart[i]]);
    assert cart == cart[..i] + [cart[i]] + cart[i + 1..];
    if cart[i].quantity > 1 {
      DecreaseAboveOne(cart, slug, i);
      var r := DecreaseLine(cart, slug);
      forall j | 0 <= j < |cart| && j != i ensures r[j] == cart[j] {
        if j < i {
          assert r[j] == cart[..i][j];
        } else {
          assert r[j] == cart[i + 1..][j - i - 1];
        }
      }
    } else {
      DecreaseAtOne(cart, slug, i);
      TotalItemsAppend(cart[..i], cart[i + 1..]);
    }
  }

  /** Decreasing a slug the cart does not hold leaves every positive line. */
  lemma DecreaseAbsent(cart: seq<CartItem>, slug: string)
    requires !HasSlug(cart, slug)
    requires forall j :: 0 <= j < |cart| ==> cart[j].quantity > 0
    ensures DecreaseLine(cart, slug) == cart
  {
    assert Bump(cart, slug, -1) == cart;
    FilterAllKept(cart, PositiveQuantity);
  }

  lemma {:induction false} TotalItemsAppend(a: seq<CartItem>, b: seq<CartItem>)
    ensures TotalItems(a + b) == TotalItems(a) + TotalItems(b)
  {
    if a == [] {
      assert a + b == b;
    } else {
      assert (a + b)[1..] == a[1..] + b;
      TotalItemsAppend(a[1..], b);
    }
  }

  lemma {:induction false} TotalPriceAppend(a: seq<CartItem>, b: seq<CartItem>)
    ensures TotalPrice(a + b) == TotalPrice(a) + TotalPrice(b)
  {
    if a == [] {
      assert a + b == b;
    } else {
      assert (a + b)[1..] == a[1..] + b;
      TotalPriceAppend(a[1..], b);
    }
  }

  /** The quantity on the lines with `slug`. */
  function QuantityOf(cart: seq<CartItem>, slug: string): int {
    if cart == [] then 0 else (if cart[0].slug == slug then cart[0].quantity else 0) + QuantityOf(cart[1..], slug)
  }

  /** The price of the lines with `slug`. */
  function PriceOf(cart: seq<CartItem>, slug: string): real {
    if cart == [] then 0.0 else (if cart[0].slug == slug then cart[0].price else 0.0) + PriceOf(cart[1..], slug)
  }

  lemma {:induction false} BumpItems(cart: seq<CartItem>, slug: string, d: int)
    ensures TotalItems(Bump(cart, slug, d)) == TotalItems(cart) + d * Count(cart, slug)
  {
    if cart != [] {
      BumpItems(cart[1..], slug, d);
      assert Bump(cart, slug, d)[1..] == Bump(cart[1..], slug, d);
      var c := if cart[0].slug == slug then 1 else 0;
      assert d * Count(cart, slug) == d * c + d * Count(cart[1..], slug);
    }
  }

  lemma Distributes(d: real, a: real, b: real)
    ensures d * (a + b) == d * a + d * b
  {
  }

  lemma LineCost(q: int, d: int, p: real)
    ensures (q + d) as real * p == q as real * p + d as real * p
  {
  }

  /** What raising the lines with `slug` by `d` adds, line by line. */
  function PriceDelta(cart: seq<CartItem>, slug: string, d: int): real {
    if cart == [] then 0.0 else (if cart[0].slug == slug then d as real * cart[0].price else 0.0) + PriceDelta(cart[1..], slug, d)
  }

  lemma {:induction false} BumpPriceDelta(cart: seq<CartItem>, slug: string, d: int)
    ensures TotalPrice(Bump(cart, slug, d)) == TotalPrice(cart) + PriceDelta(cart, slug, d)
  {
    if cart != [] {
      var b := Bump(cart, slug, d);
      BumpPriceDelta(cart[1..], slug, d);
      assert b[1..] == Bump(cart[1..], slug, d);
      var x := cart[0];
      if x.slug == slug {
        LineCost(x.quantity, d, x.price);
      } else {
        assert b[0] == x;
      }
    }
  }

  lemma {:induction false} PriceDeltaScaled(cart: seq<CartItem>, slug: string, d: int)
    ensures PriceDelta(cart, slug, d) == d as real * PriceOf(cart, slug)
  {
    if cart != [] {
      PriceDeltaScaled(cart[1..], slug, d);
      var own := if cart[0].slug == slug then cart[0].price else 0.0;
      Distributes(d as real, own, PriceOf(cart[1..], slug));
    }
  }

  lemma BumpPrice(cart: seq<CartItem>, slug: string, d: int)
    ensures TotalPrice(Bump(cart, slug, d)) == TotalPrice(cart) + d as real * PriceOf(cart, slug)
  {
    BumpPriceDelta(cart, slug, d);
    PriceDeltaScaled(cart, slug, d);
  }

  /** The number of lines with `slug`. */
  function Count(cart: seq<CartItem>, slug: string): nat {
    if cart == [] then 0 else (if cart[0].slug == slug then 1 else 0) + Count(cart[1..], slug)
  }

  lemma {:induction false} UniqueCount(cart: seq<CartItem>, slug: string)
    requires UniqueSlugs(cart) && HasSlug(cart, slug)
    ensures Count(cart, slug) == 1
  {
    if cart[0].slug == slug {
      NoSlugNoCount(cart[1..], slug);
    } else {
      var i :| 0 <= i < |cart| && cart[i].slug == slug;
      assert cart[1..][i - 1].slug == slug;
      UniqueCount(cart[1..], slug);
    }
  }

  lemma {:induction false} NoSlugNoCount(cart: seq<CartItem>, slug: string)
    requires !HasSlug(cart, slug)
    ensures Count(cart, slug) == 0
  {
    if cart != [] {
      assert cart[0].slug != slug;
      forall i | 0 <= i < |cart[1..]| ensures cart[1..][i].slug != slug {
        assert cart[1..][i] == cart[i + 1];
      }
      NoSlugNoCount(cart[1..], slug);
    }
  }

  /** Every add raises the item count by exactly one; the price total grows
      by the price of the line that was raised or appended. */
  lemma AddRaisesTotals(cart: seq<CartItem>, product: CartItem)
    requires UniqueSlugs(cart)
    ensures TotalItems(AddLine(cart, product)) == TotalItems(cart) + 1
    ensures !HasSlug(cart, product.slug) ==> TotalPrice(AddLine(cart, product)) == TotalPrice(cart) + product.price
    ensures HasSlug(cart, product.slug) ==> TotalPrice(AddLine(cart, product)) == TotalPrice(cart) + PriceOf(cart, product.slug)
  {
    if HasSlug(cart, product.slug) {
      BumpItems(cart, product.slug, 1);
      BumpPrice(cart, product.slug, 1);
      UniqueCount(cart, product.slug);
    } else {
      TotalItemsAppend(cart, [product.(quantity := 1)]);
      TotalPriceAppend(cart, [product.(quantity := 1)]);
    }
  }

  /** Removing a slug takes exactly its quantity off the item count. */
  lemma {:induction false} RemoveSubtractsQuantity(cart: seq<CartItem>, slug: string)
    ensures TotalItems(RemoveLine(cart, slug)) == TotalItems(cart) - QuantityOf(cart, slug)
  {
    if cart != [] {
      RemoveSubtractsQuantity(cart[1..], slug);
    }
  }

  // ------------------------------------------------------------ the store

  /** The cart provider's state: the lines, the stored copy, and the chosen
      delivery method with its stored copy. */
  class CartStore {
    var lines: seq<CartItem>
    var stored: StoredCart
    var deliveryMethod: string
    var storedDelivery: string

    /** Mounting the provider at time `now`: the lines come from storage
        through the expiry gate, a saved delivery method replaces "retiro",
        and the save effects then write both back. */
    constructor (initial: StoredCart, savedDelivery: string, now: int)
      ensures lines == LoadCartWithTTL(initial, now).lines
      ensures stored == Saved(lines, now)
      ensures deliveryMethod == (if savedDelivery != "" then savedDelivery else "retiro")
      ensures storedDelivery == deliveryMethod
    {
      lines := LoadCartWithTTL(initial, now).lines;
      stored := Saved(LoadCartWithTTL(initial, now).lines, now);
      deliveryMethod := if savedDelivery != "" then savedDelivery else "retiro";
      storedDelivery := if savedDelivery != "" then savedDelivery else "retiro";
    }

    /** The save effect that follows every change of the lines. */
    method Persist(now: int)
      modifies this
      ensures stored == Saved(lines, now)
      ensures lines == old(lines) && deliveryMethod == old(deliveryMethod) && storedDelivery == old(storedDelivery)
    {
      stored := Saved(lines, now);
    }

    method AddToCart(product: CartItem, now: int)
      modifies this
      ensures lines == AddLine(old(lines), product)
      ensures UniqueSlugs(old(lines)) ==> UniqueSlugs(lines)
      ensures stored == Saved(lines, now)
      ensures deliveryMethod == old(deliveryMethod) && storedDelivery == old(storedDelivery)
    {
      if UniqueSlugs(lines) { AddKeepsUnique(lines, product); }
      lines := AddLine(lines, product);
      Persist(now);
    }

    method DecreaseQty(slug: string, now: int)
      modifies this
      ensures lines == DecreaseLine(old(lines), slug)
      ensures UniqueSlugs(old(lines)) ==> UniqueSlugs(lines)
      ensures stored == Saved(lines, now)
      ensures deliveryMethod == old(deliveryMethod) && storedDelivery == old(storedDelivery)
    {
      if UniqueSlugs(lines) { DecreaseKeepsUnique(lines, slug); }
      lines := DecreaseLine(lines, slug);
      Persist(now);
    }

    method RemoveFromCart(slug: string, now: int)
      modifies this
      ensures lines == RemoveLine(old(lines), slug)
      ensures UniqueSlugs(old(lines)) ==> UniqueSlugs(lines)
      ensures stored == Saved(lines, now)
      ensures deliveryMethod == old(deliveryMethod) && storedDelivery == old(storedDelivery)
    {
      if UniqueSlugs(lines) { RemoveKeepsUnique(lines, slug); }
      lines := RemoveLine(lines, slug);
      Persist(now);
    }

    /** `clearCart()`: the entry is removed, and the save effect that the new
        empty list triggers writes an empty cart back. */
    method ClearCart(now: int)
      modifies this
      ensures lines == []
      ensures stored == Saved([], now)
      ensures deliveryMethod == old(deliveryMethod) && storedDelivery == old(storedDelivery)
    {
      lines := [];
      stored := Absent;
      Persist(now);
    }

    method SetDeliveryMethod(choice: string)
      modifies this
      ensures deliveryMethod == choice && storedDelivery == choice
      ensures lines == old(lines) && stored == old(stored)
    {
      deliveryMethod := choice;
      storedDelivery := choice;
    }
  }
}

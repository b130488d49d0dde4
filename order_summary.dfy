/** What the cart drawer and the cart page share: the shipping charged for
    the chosen method, the final total and the item count, and the pieces of
    the order message they send to the store's WhatsApp, with the appending of
    pieces to the text already written. Each view has its own opening and
    closing pieces and its own wording (`LineText` in each module). */
module OrderSummary {
  import opened Lists
  import opened CartContext

  // ------------------------------------------------------------- totals

  /** `costoEnvio` */
  function CostoEnvio(deliveryMethod: string, deliveryCost: real): (r: real)
    ensures deliveryMethod != "domicilio" ==> r == 0.0
    ensures deliveryCost >= 0.0 ==> 0.0 <= r <= deliveryCost
  {
    if deliveryMethod == "domicilio" then deliveryCost else 0.0
  }

  /** `totalFinal`: the subtotal of the lines plus the shipping. */
  function TotalFinal(cart: seq<CartItem>, deliveryMethod: string, deliveryCost: real): (r: real)
    ensures deliveryCost >= 0.0 && (forall i :: 0 <= i < |cart| ==> cart[i].quantity >= 0 && cart[i].price >= 0.0) ==> r >= 0.0
  {
    TotalPriceNonNegative(cart);
    TotalPrice(cart) + CostoEnvio(deliveryMethod, deliveryCost)
  }

  /** Pickup pays the subtotal; home delivery pays the subtotal and the cost. */
  lemma TotalByMethod(cart: seq<CartItem>, deliveryMethod: string, deliveryCost: real)
    ensures deliveryMethod != "domicilio" ==> TotalFinal(cart, deliveryMethod, deliveryCost) == TotalPrice(cart)
    ensures deliveryMethod == "domicilio" ==> TotalFinal(cart, deliveryMethod, deliveryCost) == TotalPrice(cart) + deliveryCost
    ensures deliveryCost >= 0.0 ==> TotalFinal(cart, deliveryMethod, deliveryCost) >= TotalPrice(cart)
  {
  }

  /** `itemsCount`, `cart.reduce((acc, it) => acc + it.quantity, 0)`, from
      the running sum `acc`. */
  function ItemsCountFrom(acc: int, cart: seq<CartItem>): int
    decreases |cart|
  {
    if cart == [] then acc else ItemsCountFrom(acc + cart[0].quantity, cart[1..])
  }

  /** The running sum from 0 is the sum of the quantities. */
  function ItemsCount(cart: seq<CartItem>): (r: int)
    ensures r == TotalItems(cart)
  {
    ItemsCountFromTotal(0, cart);
    ItemsCountFrom(0, cart)
  }

  lemma {:induction false} ItemsCountFromTotal(acc: int, cart: seq<CartItem>)
    ensures ItemsCountFrom(acc, cart) == acc + TotalItems(cart)
    decreases |cart|
  {
    if cart != [] {
      ItemsCountFromTotal(acc + cart[0].quantity, cart[1..]);
    }
  }

  /** The views' item count is the cart's `totalItems`: the sum of quantities. */
  lemma ItemsCountIsTotalItems(cart: seq<CartItem>)
    ensures ItemsCount(cart) == TotalItems(cart)
  {
    ItemsCountFromTotal(0, cart);
  }

  // ------------------------------------------------------------ message

  /** The pieces the message is made of. */
  datatype Line =
    | Header
    | Delivery(domicilio: bool)
    | Address(address: string)
    | Notes(notes: string)
    | PickupAddress(address: string)
    | ProductsHeading
    | Product(name: string, quantity: int, lineTotal: real)
    | Subtotal(amount: real)
    | Shipping(amount: real)
    | Total(amount: real)

  /** The piece for one cart line: its quantity and price times quantity. */
  function ProductLine(item: CartItem): (l: Line)
    ensures l.Product? && l.name == item.name && l.quantity == item.quantity
    ensures l.lineTotal == item.price * item.quantity as real
  {
    Product(item.name, item.quantity, item.price * item.quantity as real)
  }

  /** `address || "No indicada"` */
  function ShownAddress(address: string): (a: string)
    ensures address != "" ==> a == address
  {
    if address != "" then address else "No indicada"
  }

  function ProductLines(cart: seq<CartItem>): (ls: seq<Line>)
    ensures |ls| == |cart|
    ensures forall j :: 0 <= j < |cart| ==> ls[j] == ProductLine(cart[j])
  {
    if cart == [] then [] else [ProductLine(cart[0])] + ProductLines(cart[1..])
  }

  lemma {:induction false} ProductLinesAppend(a: seq<CartItem>, b: seq<CartItem>)
    ensures ProductLines(a + b) == ProductLines(a) + ProductLines(b)
  {
    if a == [] {
      assert a + b == b;
    } else {
      assert (a + b)[1..] == a[1..] + b;
      ProductLinesAppend(a[1..], b);
    }
  }

  /** `message += ...`: the text of one more piece after the pieces already
      written; `done` is what the text holds so far. */
  method Append(message: string, ghost done: seq<Line>, l: Line, text: Line -> string)
    returns (longer: string, ghost written: seq<Line>)
    requires message == ConcatMap(done, text)
    ensures written == done + [l] && longer == ConcatMap(written, text)
    ensures longer == message + text(l)
  {
    longer := message + text(l);
    written := done + [l];
    ConcatMapAppend(done, [l], text);
    Single(l, text);
  }

  lemma Single(l: Line, f: Line -> string)
    ensures ConcatMap([l], f) == f(l)
  {
    assert [l][1..] == [];
  }

  /** `cart.forEach((item) => { message += ... })`: one product piece per
      cart line, in cart order. */
  method AppendProducts(message: string, ghost done: seq<Line>, cart: seq<CartItem>, text: Line -> string)
    returns (longer: string)
    requires message == ConcatMap(done, text)
    ensures longer == ConcatMap(done + ProductLines(cart), text)
  {
    longer := message;
    ghost var written := done;
    assert cart[..0] == [];
    var i := 0;
    while i < |cart|
      invariant 0 <= i <= |cart|
      invariant written == done + ProductLines(cart[..i])
      invariant longer == ConcatMap(written, text)
    {
      ProductLinesAppend(cart[..i], [cart[i]]);
      assert cart[..i + 1] == cart[..i] + [cart[i]];
      assert ProductLines([cart[i]]) == [ProductLine(cart[i])];
      longer, written := Append(longer, written, ProductLine(cart[i]), text);
      assert written == done + (ProductLines(cart[..i]) + [ProductLine(cart[i])]);
      i := i + 1;
    }
    assert cart[..i] == cart;
  }

  /** The pieces a message may or may not hold. */
  datatype Optional = AddressPiece | PickupPiece | NotesPiece | ShippingPiece

  predicate OfKind(l: Line, k: Optional) {
    match k
    case AddressPiece => l.Address?
    case PickupPiece => l.PickupAddress?
    case NotesPiece => l.Notes?
    case ShippingPiece => l.Shipping?
  }

  /** The message holds a piece of kind `k`. */
  predicate Has(ls: seq<Line>, k: Optional) {
    exists i :: 0 <= i < |ls| && OfKind(ls[i], k)
  }

  /** Product pieces are never optional pieces, so a message holds an
      optional piece exactly when its opening or its closing does. */
  lemma HasOfParts(a: seq<Line>, cart: seq<CartItem>, c: seq<Line>, k: Optional)
    ensures Has(a + ProductLines(cart) + c, k) <==> Has(a, k) || Has(c, k)
  {
    var ls := a + ProductLines(cart) + c;
    var b := |a| + |cart|;
    if Has(ls, k) {
      var i :| 0 <= i < |ls| && OfKind(ls[i], k);
      if i < |a| {
        assert ls[i] == a[i];
      } else if i >= b {
        assert ls[i] == c[i - b];
      }
    }
    if Has(a, k) {
      var i :| 0 <= i < |a| && OfKind(a[i], k);
      assert ls[i] == a[i];
    }
    if Has(c, k) {
      var i :| 0 <= i < |c| && OfKind(c[i], k);
      assert ls[b + i] == c[i];
    }
  }

  /** The subtotal piece is the sum of the product pieces' amounts. */
  function SumLineTotals(ls: seq<Line>): real {
    if ls == [] then 0.0
    else (if ls[0].Product? then ls[0].lineTotal else 0.0) + SumLineTotals(ls[1..])
  }

  lemma {:induction false} SubtotalIsSumOfLines(cart: seq<CartItem>)
    ensures SumLineTotals(ProductLines(cart)) == TotalPrice(cart)
  {
    if cart != [] {
      SubtotalIsSumOfLines(cart[1..]);
      assert ProductLines(cart)[1..] == ProductLines(cart[1..]);
    }
  }
}

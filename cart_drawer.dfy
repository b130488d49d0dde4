/** The cart drawer: the shipping cost read from the store's settings, the
    order total and item count, and the order message sent to the store's
    WhatsApp number. The message is built by appending to a string; `Lines`
    says which pieces it holds, in which order, and `LineText` how each piece
    is written. */
module CartDrawer {
  import opened JsText
  import opened JsValue
  import opened CartContext
  import opened OrderSummary
  import opened Lists

  /** The store's number, fixed in this component. */
  const StorePhone: string := "5493412275598"

  // --------------------------------------------------------- shipping cost

  /** The cost the drawer keeps: `snap.exists() ? snap.val() : 0`, a number
      kept as it is and anything else through `Number`, then 0 unless finite;
      a failed read also gives 0. */
  function DeliveryCost(read: Read): (cost: real)
    ensures read.Found? && ToNumber(read.value).Fin? ==> cost == ToNumber(read.value).r
    ensures read.Found? && !ToNumber(read.value).Fin? ==> cost == 0.0
    ensures !read.Found? ==> cost == 0.0
  {
    match read
    case Failed => 0.0
    case Missing => 0.0
    case Found(value) =>
      var parsed := if value.Num? then Fin(value.n) else ToNumber(value);
      if parsed.Fin? then parsed.r else 0.0
  }

  /** A cost stored as the text of a whole number is read as that number. */
  lemma DeliveryCostOfNumeral(n: nat)
    ensures DeliveryCost(Found(Str(NatStr(n)))) == n as real
  {
    NumeralReadsAsNumber(n);
  }

  /** The state behind the drawer's cost: `deliveryCost` and
      `deliveryCostLoading`. */
  class DeliveryCostState {
    var deliveryCost: real
    var loading: bool

    constructor ()
      ensures deliveryCost == 0.0 && loading
    {
      deliveryCost := 0.0;
      loading := true;
    }

    /** The start of a load: the flag goes up, the cost stays. */
    method StartLoading()
      modifies this
      ensures loading && deliveryCost == old(deliveryCost)
    {
      loading := true;
    }

    /** The end of a load; a load whose effect was cleaned up (`cancelled`)
        changes nothing. */
    method FinishLoading(read: Read, cancelled: bool)
      modifies this
      ensures cancelled ==> deliveryCost == old(deliveryCost) && loading == old(loading)
      ensures !cancelled ==> deliveryCost == DeliveryCost(read) && !loading
    {
      if !cancelled {
        deliveryCost := DeliveryCost(read);
        loading := false;
      }
    }

    /** `domicilioDisabled`: home delivery cannot be chosen while loading. */
    predicate DomicilioDisabled()
      reads this
    {
      loading
    }
  }

  /** The checkout button is disabled exactly when the cart is empty. */
  predicate CheckoutDisabled(cart: seq<CartItem>) { |cart| == 0 }

  // ------------------------------------------------------------ message

  /** What the message is made from: the cart, the chosen method, the
      customer's address and notes, and the loaded shipping cost. */
  datatype Order = Order(cart: seq<CartItem>, deliveryMethod: string, address: string,
                         notes: string, deliveryCost: real)

  /** The part of the message written before the product lines. */
  function Opening(o: Order): seq<Line> {
    var domicilio := o.deliveryMethod == "domicilio";
    [Header, Delivery(domicilio)]
    + (if domicilio then [Address(ShownAddress(o.address))] else [])
    + (if o.notes != "" then [Notes(o.notes)] else [])
    + [ProductsHeading]
  }

  /** The part of the message written after the product lines. */
  function Closing(o: Order): seq<Line> {
    var domicilio := o.deliveryMethod == "domicilio";
    [Subtotal(TotalPrice(o.cart))]
    + (if domicilio then [Shipping(CostoEnvio(o.deliveryMethod, o.deliveryCost))] else [])
    + [Total(TotalFinal(o.cart, o.deliveryMethod, o.deliveryCost))]
  }

  /** The pieces of the message, in order. */
  function Lines(o: Order): seq<Line> {
    Opening(o) + ProductLines(o.cart) + Closing(o)
  }

  /** How each piece is written; `fmt` is the store's money format
      (`Intl.NumberFormat("es-AR")`). */
  function LineText(fmt: real -> string): Line -> string {
    (l: Line) =>
    match l
    case Header => "\U{1F6D2} *Nuevo pedido desde Savia*\n\n"
    case Delivery(domicilio) =>
      "*Método de entrega:* " + (if domicilio then "Envío a domicilio" else "Retiro en el local") + "\n"
    case Address(address) => "\U{1F4CD} *Dirección:* " + address + "\n"
    case Notes(notes) => "\U{1F4DD} *Notas:* " + notes + "\n"
    case PickupAddress(_) => ""  // the drawer names no pickup address
    case ProductsHeading => "\n*Productos:*\n"
    case Product(name, quantity, lineTotal) =>
      "• " + name + " x" + IntStr(quantity) + " — $" + fmt(lineTotal) + "\n"
    case Subtotal(amount) => "\nSubtotal: $" + fmt(amount)
    case Shipping(amount) => "\nEnvío: $" + fmt(amount)
    case Total(amount) => "\n\n*TOTAL: $" + fmt(amount) + "*\n"
  }

  /** The message text. */
  function Message(o: Order, fmt: real -> string): string {
    ConcatMap(Lines(o), LineText(fmt))
  }

  /** `sendToWhatsApp`: the message, appended to piece by piece, and the chat
      link that opens it; `encode` stands for `encodeURIComponent`. */
  method SendToWhatsApp(o: Order, fmt: real -> string, encode: string -> string)
    returns (message: string, url: string)
    ensures message == Message(o, fmt)
    ensures url == "https://wa.me/" + StorePhone + "?text=" + encode(message)
  {
    message := WriteMessage(o, LineText(fmt));
    url := "https://wa.me/" + StorePhone + "?text=" + encode(message);
  }

  /** The `+=` steps of `sendToWhatsApp`, with `text` writing each piece. */
  method WriteMessage(o: Order, text: Line -> string) returns (message: string)
    ensures message == ConcatMap(Lines(o), text)
  {
    message := WriteOpening(o, text);
    message := AppendProducts(message, Opening(o), o.cart, text);
    message := AppendClosing(message, Opening(o) + ProductLines(o.cart), o, text);
  }

  /** The steps before `cart.forEach`. */
  method WriteOpening(o: Order, text: Line -> string) returns (message: string)
    ensures message == ConcatMap(Opening(o), text)
  {
    var domicilio := o.deliveryMethod == "domicilio";
    ghost var done: seq<Line> := [Header];
    message := text(Header);
    Single(Header, text);
    message, done := Append(message, done, Delivery(domicilio), text);
    if domicilio {
      message, done := Append(message, done, Address(ShownAddress(o.address)), text);
    }
    if o.notes != "" {
      message, done := Append(message, done, Notes(o.notes), text);
    }
    message, done := Append(message, done, ProductsHeading, text);
    assert done == Opening(o);
  }

  /** The steps after `cart.forEach`. */
  method AppendClosing(message: string, ghost done: seq<Line>, o: Order, text: Line -> string)
    returns (longer: string)
    requires message == ConcatMap(done, text)
    ensures longer == ConcatMap(done + Closing(o), text)
  {
    var domicilio := o.deliveryMethod == "domicilio";
    ghost var written: seq<Line>;
    longer, written := Append(message, done, Subtotal(TotalPrice(o.cart)), text);
    if domicilio {
      longer, written := Append(longer, written, Shipping(CostoEnvio(o.deliveryMethod, o.deliveryCost)), text);
    }
    longer, written := Append(longer, written, Total(TotalFinal(o.cart, o.deliveryMethod, o.deliveryCost)), text);
    assert written == done + Closing(o);
  }

  // ------------------------------------------------- properties of the message

  /** Where the product lines start. */
  function ProductsStart(o: Order): nat {
    3 + (if o.deliveryMethod == "domicilio" then 1 else 0) + (if o.notes != "" then 1 else 0)
  }

  /** The fixed order: the header, the method, the product heading, every
      cart line in cart order, the subtotal, and the total last. */
  lemma {:induction false} MessageOrder(o: Order)
    ensures var ls := Lines(o); var k := ProductsStart(o);
      |ls| == k + |o.cart| + (if o.deliveryMethod == "domicilio" then 3 else 2) &&
      ls[0] == Header && ls[1] == Delivery(o.deliveryMethod == "domicilio") &&
      ls[k - 1] == ProductsHeading &&
      (forall j :: 0 <= j < |o.cart| ==> ls[k + j] == ProductLine(o.cart[j])) &&
      ls[k + |o.cart|] == Subtotal(TotalPrice(o.cart)) &&
      ls[|ls| - 1] == Total(TotalFinal(o.cart, o.deliveryMethod, o.deliveryCost))
  {
    var ls := Lines(o);
    var k := ProductsStart(o);
    assert |Opening(o)| == k;
    forall j | 0 <= j < |o.cart|
      ensures ls[k + j] == ProductLine(o.cart[j])
    {
      assert ls[k + j] == ProductLines(o.cart)[j];
    }
  }

  /** Which optional pieces the opening and the closing hold. */
  lemma OpeningPieces(o: Order)
    ensures Has(Opening(o), AddressPiece) <==> o.deliveryMethod == "domicilio"
    ensures Has(Opening(o), NotesPiece) <==> o.notes != ""
    ensures !Has(Opening(o), PickupPiece) && !Has(Opening(o), ShippingPiece)
  {
    if o.deliveryMethod == "domicilio" {
      assert OfKind(Opening(o)[2], AddressPiece);
    }
    if o.notes != "" {
      assert OfKind(Opening(o)[|Opening(o)| - 2], NotesPiece);
    }
  }

  lemma ClosingPieces(o: Order)
    ensures Has(Closing(o), ShippingPiece) <==> o.deliveryMethod == "domicilio"
    ensures !Has(Closing(o), AddressPiece) && !Has(Closing(o), NotesPiece) && !Has(Closing(o), PickupPiece)
  {
    if o.deliveryMethod == "domicilio" {
      assert OfKind(Closing(o)[1], ShippingPiece);
    }
  }

  /** An address piece exactly for home delivery, a notes piece exactly when
      there are notes, a shipping piece exactly for home delivery, and never
      a pickup address. */
  lemma ConditionalLines(o: Order)
    ensures Has(Lines(o), AddressPiece) <==> o.deliveryMethod == "domicilio"
    ensures Has(Lines(o), NotesPiece) <==> o.notes != ""
    ensures Has(Lines(o), ShippingPiece) <==> o.deliveryMethod == "domicilio"
    ensures !Has(Lines(o), PickupPiece)
  {
    OpeningPieces(o);
    ClosingPieces(o);
    HasOfParts(Opening(o), o.cart, Closing(o), AddressPiece);
    HasOfParts(Opening(o), o.cart, Closing(o), NotesPiece);
    HasOfParts(Opening(o), o.cart, Closing(o), ShippingPiece);
    HasOfParts(Opening(o), o.cart, Closing(o), PickupPiece);
  }

  /** For home delivery the third piece is the address, "No indicada" when
      none was typed, and the shipping piece comes just before the total. */
  lemma HomeDeliveryLines(o: Order)
    requires o.deliveryMethod == "domicilio"
    ensures var ls := Lines(o);
      ls[2] == Address(if o.address == "" then "No indicada" else o.address) &&
      ls[|ls| - 2] == Shipping(o.deliveryCost)
  {
    var ls := Lines(o);
    assert ls[2] == Opening(o)[2];
    assert ls[|ls| - 2] == Closing(o)[1];
  }

}

/** The cart page: the store's settings read from the database and
    normalised, the order total and item count, and the order message, sent
    to the WhatsApp number stored in the settings. Unlike the drawer, the
    page names the store's address for pickup and ends the message without a
    line break. */
module CarritoPage {
  import opened JsText
  import opened JsValue
  import opened Lists
  import opened CartContext
  import opened OrderSummary

  /** The number used when the settings hold no digits for WhatsApp. */
  const FallbackPhone: string := "5493412275598"

  // ------------------------------------------------------- store settings

  datatype Redes = Redes(whatsapp: Value, instagram: Value, facebook: Value, email: Value, telegram: Value)

  /** `storeData`. */
  datatype StoreData = StoreData(delivery: real, direccion: Value, redes: Redes, horarios: Value)

  /** The settings before the load and after a failed one: only `whatsapp`
      among the networks. */
  function DefaultStore(): (s: StoreData)
    ensures s.delivery == 0.0 && s.direccion == Str("") && s.horarios == Null
    ensures s.redes.whatsapp == Str("") && s.redes.instagram == Undefined
  {
    StoreData(0.0, Str(""), Redes(Str(""), Undefined, Undefined, Undefined, Undefined), Null)
  }

  /** `normalized`, built from the stored object `data`. */
  function Normalize(data: Value): StoreData {
    var deliveryRaw := Coalesce(Get(data, "delivery"), Num(0.0));
    var deliveryParsed := if deliveryRaw.Num? then Fin(deliveryRaw.n) else ToNumber(deliveryRaw);
    StoreData(
      if deliveryParsed.Fin? then deliveryParsed.r else 0.0,
      Or(Get(data, "direccion"), Str("")),
      Redes(Or(Get2(data, "redes", "whatsapp"), Str("")),
            Or(Get2(data, "redes", "instagram"), Str("")),
            Or(Get2(data, "redes", "facebook"), Str("")),
            Or(Get2(data, "redes", "email"), Str("")),
            Or(Get2(data, "redes", "telegram"), Str(""))),
      Coalesce(Get(data, "horarios"), Null))
  }

  /** A stored text either is kept, when it is truthy, or becomes "". */
  predicate KeptOrEmpty(stored: Value, kept: Value) {
    if Truthy(stored) then kept == stored else kept == Str("")
  }

  /** `loadStoreData`: a missing node reads as `{}`, a failed read gives the
      defaults. */
  function LoadStoreData(read: Read): StoreData {
    match read
    case Failed => DefaultStore()
    case Missing => Normalize(Obj(map[]))
    case Found(value) => Normalize(value)
  }

  /** What a successful load guarantees: the delivery cost is the stored
      one read as a number (0 when absent or not finite), every text is the
      stored truthy value or "", and a missing schedule is `null`. */
  lemma NormalizeFields(data: Value)
    ensures var s := Normalize(data); var raw := Coalesce(Get(data, "delivery"), Num(0.0));
      (ToNumber(raw).Fin? ==> s.delivery == ToNumber(raw).r) &&
      (!ToNumber(raw).Fin? ==> s.delivery == 0.0) &&
      KeptOrEmpty(Get(data, "direccion"), s.direccion) &&
      KeptOrEmpty(Get2(data, "redes", "whatsapp"), s.redes.whatsapp) &&
      KeptOrEmpty(Get2(data, "redes", "instagram"), s.redes.instagram) &&
      KeptOrEmpty(Get2(data, "redes", "facebook"), s.redes.facebook) &&
      KeptOrEmpty(Get2(data, "redes", "email"), s.redes.email) &&
      KeptOrEmpty(Get2(data, "redes", "telegram"), s.redes.telegram) &&
      (Nullish(Get(data, "horarios")) ==> s.horarios == Null) &&
      (!Nullish(Get(data, "horarios")) ==> s.horarios == Get(data, "horarios"))
  {
  }

  /** Settings that are not an object, or an absent node, give a free
      delivery, no address and empty networks. */
  lemma LoadWithoutObject(read: Read)
    requires read.Missing? || (read.Found? && !read.value.Obj?)
    ensures var s := LoadStoreData(read);
      s.delivery == 0.0 && s.direccion == Str("") && s.horarios == Null &&
      s.redes == Redes(Str(""), Str(""), Str(""), Str(""), Str(""))
  {
  }

  /** The state behind the settings: `storeData` and `loadingStore`. */
  class StoreState {
    var storeData: StoreData
    var loadingStore: bool

    constructor ()
      ensures storeData == DefaultStore() && loadingStore
    {
      storeData := DefaultStore();
      loadingStore := true;
    }

    method StartLoading()
      modifies this
      ensures loadingStore && storeData == old(storeData)
    {
      loadingStore := true;
    }

    /** The end of a load; after the page has gone (`cancel`) nothing changes. */
    method FinishLoading(read: Read, cancel: bool)
      modifies this
      ensures cancel ==> storeData == old(storeData) && loadingStore == old(loadingStore)
      ensures !cancel ==> storeData == LoadStoreData(read) && !loadingStore
    {
      if !cancel {
        storeData := LoadStoreData(read);
        loadingStore := false;
      }
    }

    /** `domicilioDisabled`: home delivery cannot be chosen while loading. */
    predicate DomicilioDisabled()
      reads this
    {
      loadingStore
    }
  }

  // ---------------------------------------------------------------- phone

  /** `String(whatsapp || "").replace(/\D/g, "")` */
  function PhoneDigits(whatsapp: Value): (d: string)
    ensures AllDigits(d)
  {
    KeepDigits(ToText(Or(whatsapp, Str(""))))
  }

  /** `phoneFromDb ? "549" + phoneFromDb : "5493412275598"` */
  function Phone(whatsapp: Value): (p: string)
    ensures PhoneDigits(whatsapp) != "" ==> p == "549" + PhoneDigits(whatsapp)
    ensures PhoneDigits(whatsapp) == "" ==> p == FallbackPhone
  {
    var digits := PhoneDigits(whatsapp);
    if digits != "" then "549" + digits else FallbackPhone
  }

  /** The number dialled is all digits. */
  lemma PhoneIsDigits(whatsapp: Value)
    ensures AllDigits(Phone(whatsapp))
  {
    var digits := PhoneDigits(whatsapp);
    if digits != "" {
      assert AllDigits("549") by {
        assert "549" == ['5', '4', '9'];
      }
      AllDigitsAppend("549", digits);
    } else {
      FallbackIsDigits();
    }
  }

  /** The fallback number is all digits. */
  lemma FallbackIsDigits()
    ensures AllDigits(FallbackPhone)
  {
    assert FallbackPhone == ['5', '4', '9', '3', '4', '1', '2', '2', '7', '5', '5', '9', '8'];
  }

  /** Only the digits of the stored number matter: spaces, dashes and a
      leading `+` are dropped. */
  lemma PhoneIgnoresNonDigits(s: string)
    ensures Phone(Str(s)) == Phone(Str(KeepDigits(s)))
  {
    KeepDigitsOfDigits(KeepDigits(s));
  }

  /** A stored number made of digits is dialled with the 549 prefix. */
  lemma PhoneOfDigits(s: string)
    requires s != "" && AllDigits(s)
    ensures Phone(Str(s)) == "549" + s
  {
    KeepDigitsOfDigits(s);
  }

  /** A stored number held as a JSON number is dialled by its digits. */
  lemma PhoneOfNumber(n: nat)
    requires n > 0
    ensures Phone(Num(n as real)) == "549" + NatStr(n)
  {
    NatNumStr(n);
    KeepDigitsOfDigits(NatStr(n));
  }

  // ------------------------------------------------------------- message

  /** What the message is made from: the cart, the chosen method, the
      customer's address and notes, and the loaded settings. */
  datatype Order = Order(cart: seq<CartItem>, deliveryMethod: string, address: string,
                         notes: string, store: StoreData)

  /** The part of the message written before the product lines. */
  function Opening(o: Order): seq<Line> {
    var domicilio := o.deliveryMethod == "domicilio";
    [Header, Delivery(domicilio)]
    + (if domicilio then [Address(ShownAddress(o.address))]
       else if Truthy(o.store.direccion) then [PickupAddress(ToText(o.store.direccion))]
       else [])
    + (if o.notes != "" then [Notes(o.notes)] else [])
    + [ProductsHeading]
  }

  /** The part of the message written after the product lines. */
  function Closing(o: Order): seq<Line> {
    var domicilio := o.deliveryMethod == "domicilio";
    [Subtotal(TotalPrice(o.cart))]
    + (if domicilio then [Shipping(CostoEnvio(o.deliveryMethod, o.store.delivery))] else [])
    + [Total(TotalFinal(o.cart, o.deliveryMethod, o.store.delivery))]
  }

  /** The pieces of the message, in order. */
  function Lines(o: Order): seq<Line> {
    Opening(o) + ProductLines(o.cart) + Closing(o)
  }

  /** How the page writes each piece; `fmt` is the store's money format
      (`Intl.NumberFormat("es-AR")`). */
  function LineText(fmt: real -> string): Line -> string {
    (l: Line) =>
    match l
    case Header => "\U{1F6D2} *Pedido Savia*\n\n"
    case Delivery(domicilio) => "Entrega: " + (if domicilio then "Domicilio" else "Retiro en local") + "\n"
    case Address(address) => "\U{1F4CD} Dirección: " + address + "\n"
    case PickupAddress(address) => "\U{1F3EA} Retiro en: " + address + "\n"
    case Notes(notes) => "\U{1F4DD} Notas: " + notes + "\n"
    case ProductsHeading => "\n*Productos:*\n"
    case Product(name, quantity, lineTotal) =>
      "• " + name + " x" + IntStr(quantity) + " — $" + fmt(lineTotal) + "\n"
    case Subtotal(amount) => "\nSubtotal: $" + fmt(amount)
    case Shipping(amount) => "\nEnvío: $" + fmt(amount)
    case Total(amount) => "\n\n*TOTAL: $" + fmt(amount) + "*"
  }

  /** The message text. */
  function Message(o: Order, fmt: real -> string): string {
    ConcatMap(Lines(o), LineText(fmt))
  }

  /** `sendToWhatsApp`: the message, appended to piece by piece, and the chat
      link that opens it on the stored number; `encode` stands for
      `encodeURIComponent`. */
  method SendToWhatsApp(o: Order, fmt: real -> string, encode: string -> string)
    returns (message: string, url: string)
    ensures message == Message(o, fmt)
    ensures url == "https://wa.me/" + Phone(o.store.redes.whatsapp) + "?text=" + encode(message)
  {
    var phone := Phone(o.store.redes.whatsapp);
    message := WriteMessage(o, LineText(fmt));
    url := "https://wa.me/" + phone + "?text=" + encode(message);
  }

  /** The `+=` steps of `sendToWhatsApp`, with `text` writing each piece. */
  method WriteMessage(o: Order, text: Line -> string) returns (message: string)
    ensures message == ConcatMap(Lines(o), text)
  {
    message := WriteOpening(o, text);
    message := AppendProducts(message, Opening(o), o.cart, text);
    message := AppendClosing(message, Opening(o) + ProductLines(o.cart), o, text);
  }

  /** The steps before `cart.forEach`. */
  method WriteOpening(o: Order, text: Line -> string) returns (message: string)
    ensures message == ConcatMap(Opening(o), text)
  {
    var domicilio := o.deliveryMethod == "domicilio";
    ghost var done: seq<Line> := [Header];
    message := text(Header);
    Single(Header, text);
    message, done := Append(message, done, Delivery(domicilio), text);
    if domicilio {
      message, done := Append(message, done, Address(ShownAddress(o.address)), text);
    } else {
      if Truthy(o.store.direccion) {
        message, done := Append(message, done, PickupAddress(ToText(o.store.direccion)), text);
      }
    }
    if o.notes != "" {
      message, done := Append(message, done, Notes(o.notes), text);
    }
    message, done := Append(message, done, ProductsHeading, text);
    assert done == Opening(o);
  }

  /** The steps after `cart.forEach`. */
  method AppendClosing(message: string, ghost done: seq<Line>, o: Order, text: Line -> string)
    returns (longer: string)
    requires message == ConcatMap(done, text)
    ensures longer == ConcatMap(done + Closing(o), text)
  {
    var domicilio := o.deliveryMethod == "domicilio";
    ghost var written: seq<Line>;
    longer, written := Append(message, done, Subtotal(TotalPrice(o.cart)), text);
    if domicilio {
      longer, written := Append(longer, written, Shipping(CostoEnvio(o.deliveryMethod, o.store.delivery)), text);
    }
    longer, written := Append(longer, written, Total(TotalFinal(o.cart, o.deliveryMethod, o.store.delivery)), text);
    assert written == done + Closing(o);
  }

  // ------------------------------------------------- properties of the message

  /** Where the product lines start. */
  function ProductsStart(o: Order): nat {
    var domicilio := o.deliveryMethod == "domicilio";
    3 + (if domicilio || Truthy(o.store.direccion) then 1 else 0) + (if o.notes != "" then 1 else 0)
  }

  /** The fixed order: the header, the method, the product heading, every
      cart line in cart order, the subtotal, and the total last. */
  lemma {:induction false} MessageOrder(o: Order)
    ensures var ls := Lines(o); var k := ProductsStart(o);
      |ls| == k + |o.cart| + (if o.deliveryMethod == "domicilio" then 3 else 2) &&
      ls[0] == Header && ls[1] == Delivery(o.deliveryMethod == "domicilio") &&
      ls[k - 1] == ProductsHeading &&
      (forall j :: 0 <= j < |o.cart| ==> ls[k + j] == ProductLine(o.cart[j])) &&
      ls[k + |o.cart|] == Subtotal(TotalPrice(o.cart)) &&
      ls[|ls| - 1] == Total(TotalFinal(o.cart, o.deliveryMethod, o.store.delivery))
  {
    var ls := Lines(o);
    var k := ProductsStart(o);
    assert |Opening(o)| == k;
    forall j | 0 <= j < |o.cart|
      ensures ls[k + j] == ProductLine(o.cart[j])
    {
      assert ls[k + j] == ProductLines(o.cart)[j];
    }
  }

  /** Which optional pieces the opening and the closing hold. */
  lemma OpeningPieces(o: Order)
    ensures Has(Opening(o), AddressPiece) <==> o.deliveryMethod == "domicilio"
    ensures Has(Opening(o), PickupPiece) <==> o.deliveryMethod != "domicilio" && Truthy(o.store.direccion)
    ensures Has(Opening(o), NotesPiece) <==> o.notes != ""
    ensures !Has(Opening(o), ShippingPiece)
  {
    if o.deliveryMethod == "domicilio" {
      assert OfKind(Opening(o)[2], AddressPiece);
    } else if Truthy(o.store.direccion) {
      assert OfKind(Opening(o)[2], PickupPiece);
    }
    if o.notes != "" {
      assert OfKind(Opening(o)[|Opening(o)| - 2], NotesPiece);
    }
  }

  lemma ClosingPieces(o: Order)
    ensures Has(Closing(o), ShippingPiece) <==> o.deliveryMethod == "domicilio"
    ensures !Has(Closing(o), AddressPiece) && !Has(Closing(o), NotesPiece) && !Has(Closing(o), PickupPiece)
  {
    if o.deliveryMethod == "domicilio" {
      assert OfKind(Closing(o)[1], ShippingPiece);
    }
  }

  /** For home delivery the customer's address (or "No indicada"); for
      pickup the store's address exactly when the settings hold one; a notes
      piece exactly when there are notes; a shipping piece exactly for home
      delivery. */
  lemma ConditionalLines(o: Order)
    ensures Has(Lines(o), AddressPiece) <==> o.deliveryMethod == "domicilio"
    ensures Has(Lines(o), PickupPiece) <==> o.deliveryMethod != "domicilio" && Truthy(o.store.direccion)
    ensures Has(Lines(o), NotesPiece) <==> o.notes != ""
    ensures Has(Lines(o), ShippingPiece) <==> o.deliveryMethod == "domicilio"
  {
    OpeningPieces(o);
    ClosingPieces(o);
    HasOfParts(Opening(o), o.cart, Closing(o), AddressPiece);
    HasOfParts(Opening(o), o.cart, Closing(o), PickupPiece);
    HasOfParts(Opening(o), o.cart, Closing(o), NotesPiece);
    HasOfParts(Opening(o), o.cart, Closing(o), ShippingPiece);
  }

  /** The third piece names where the order goes: the customer's address for
      home delivery, the store's for pickup when it is known; for home
      delivery the shipping piece comes just before the total. */
  lemma ThirdLine(o: Order)
    ensures o.deliveryMethod == "domicilio" ==>
      Lines(o)[2] == Address(if o.address == "" then "No indicada" else o.address) &&
      Lines(o)[|Lines(o)| - 2] == Shipping(o.store.delivery)
    ensures o.deliveryMethod != "domicilio" && Truthy(o.store.direccion) ==>
      Lines(o)[2] == PickupAddress(ToText(o.store.direccion))
  {
    var ls := Lines(o);
    assert ls[2] == Opening(o)[2];
    if o.deliveryMethod == "domicilio" {
      assert ls[|ls| - 2] == Closing(o)[1];
    }
  }
}

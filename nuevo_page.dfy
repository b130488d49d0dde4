/** The new-product page: a form of text inputs, toggles and a sale-mode
    select, checked on submit, turned into the payload handed to
    `createProduct`. The page's `slugify` is the service's, character for
    character, and its `normalizeTipoVenta` is the service's write-path
    normalisation. */
module NuevoPage {
  import opened JsText
  import opened JsValue
  import opened ProductsService

  const RequiredMessage := "Completá nombre, precio y categoría."
  const OfferNotBelowMessage := "El precio de oferta debe ser menor al precio normal."

  /** The form as the page first shows it: every text empty, available,
      sold by the kilogram, on no offer. */
  const InitialForm := EmptyRecord.(nombre := Str(""), descripcion := Str(""), categoriaNombre := Str(""),
                                    categoriaSlug := Str(""), precio := Str(""), precioOferta := Str(""),
                                    imagen := Str(""), disponible := Bool(true), tipoVenta := Str("kg"),
                                    ofertaGeneral := Bool(false), ofertaSemana := Bool(false))

  /** `update(key, value)` */
  function Update(form: ProductRecord, key: Field, value: Value): (r: ProductRecord)
    ensures GetField(r, key) == value
    ensures forall g :: g != key ==> GetField(r, g) == GetField(form, g)
  {
    SetField(form, key, value)
  }

  /** `!form.nombre || !form.precio || !form.categoriaNombre` */
  predicate MissingRequired(form: ProductRecord) {
    !Truthy(form.nombre) || !Truthy(form.precio) || !Truthy(form.categoriaNombre)
  }

  /** `form.precioOferta !== "" && Number(form.precioOferta) >= Number(form.precio)` */
  predicate OfferNotBelow(form: ProductRecord) {
    form.precioOferta != Str("") && GreaterOrEqual(ToNumber(form.precioOferta), ToNumber(form.precio))
  }

  /** The page's own checks, in order: the message of the first that fails. */
  function Check(form: ProductRecord): (e: Option<string>)
    ensures MissingRequired(form) ==> e == Some(RequiredMessage)
    ensures !MissingRequired(form) && OfferNotBelow(form) ==> e == Some(OfferNotBelowMessage)
    ensures !MissingRequired(form) && !OfferNotBelow(form) ==> e.None?
  {
    if MissingRequired(form) then Some(RequiredMessage)
    else if OfferNotBelow(form) then Some(OfferNotBelowMessage)
    else None
  }

  /** `form.categoriaSlug || slugify(categoriaNombre)` */
  function PayloadSlug(form: ProductRecord): (v: Value)
    ensures Truthy(form.categoriaSlug) ==> v == form.categoriaSlug
    ensures !Truthy(form.categoriaSlug) ==> v == Str(Slugify(TextOr(form.categoriaNombre)))
  {
    Or(form.categoriaSlug, Str(Slugify(TextOr(form.categoriaNombre))))
  }

  /** `form.precioOferta !== "" && form.precioOferta != null ? Number(form.precioOferta) : null` */
  function PayloadOffer(form: ProductRecord): (v: Value)
    ensures form.precioOferta == Str("") || Nullish(form.precioOferta) ==> v == Null
    ensures form.precioOferta != Str("") && !Nullish(form.precioOferta) ==>
      v == NumberOf(form.precioOferta) && ToNumber(v) == ToNumber(form.precioOferta)
  {
    if form.precioOferta != Str("") && !Nullish(form.precioOferta) then NumberOf(form.precioOferta) else Null
  }

  /** The object passed to `createProduct`: the form spread, then the slug,
      the normalised sale mode, the price and the offer as numbers and the
      three flags as booleans. */
  function Payload(form: ProductRecord): (p: ProductRecord)
    ensures p.nombre == form.nombre && p.categoriaNombre == form.categoriaNombre
    ensures p.categoriaSlug == PayloadSlug(form)
    ensures p.tipoVenta == Str(NormalizeTipoVenta(form.tipoVenta))
    ensures p.precio == NumberOf(form.precio) && p.precioOferta == PayloadOffer(form)
    ensures p.disponible == Bool(Truthy(form.disponible))
    ensures p.ofertaGeneral == Bool(Truthy(form.ofertaGeneral)) && p.ofertaSemana == Bool(Truthy(form.ofertaSemana))
  {
    form.(categoriaSlug := PayloadSlug(form),
          tipoVenta := Str(NormalizeTipoVenta(form.tipoVenta)),
          precio := NumberOf(form.precio),
          precioOferta := PayloadOffer(form),
          disponible := Bool(Truthy(form.disponible)),
          ofertaGeneral := Bool(Truthy(form.ofertaGeneral)),
          ofertaSemana := Bool(Truthy(form.ofertaSemana)))
  }

  /** `handleSubmit`: the error shown, or the record `createProduct` writes
      under the fresh key `id` at time `now`. */
  function Submit(form: ProductRecord, id: string, now: int): (r: Result<ProductRecord>)
    ensures Check(form).Some? ==> r == Err(Check(form).value)
    ensures Check(form).None? ==> r == CreateProduct(Payload(form), id, now)
  {
    match Check(form)
    case Some(m) => Err(m)
    case None => CreateProduct(Payload(form), id, now)
  }

  lemma MessagesDiffer()
    ensures RequiredMessage != OfferNotBelowMessage
    ensures RequiredMessage != InvalidPriceMessage && RequiredMessage != OfferTooHighMessage
    ensures OfferNotBelowMessage != InvalidPriceMessage && OfferNotBelowMessage != OfferTooHighMessage
  {
    assert |RequiredMessage| == 36 && |OfferNotBelowMessage| == 52;
    assert |InvalidPriceMessage| == 26 && |OfferTooHighMessage| == 64;
  }

  /** Submission stops with the required-fields message exactly when the
      name, the price or the category is falsy. */
  lemma RefusedWhenIncomplete(form: ProductRecord, id: string, now: int)
    ensures Submit(form, id, now) == Err(RequiredMessage) <==> MissingRequired(form)
  {
    MessagesDiffer();
  }

  /** It stops with the offer message exactly when the required fields are
      there, the offer is not "" and it is not below the price as numbers. */
  lemma RefusedWhenOfferNotBelow(form: ProductRecord, id: string, now: int)
    ensures Submit(form, id, now) == Err(OfferNotBelowMessage) <==> !MissingRequired(form) && OfferNotBelow(form)
  {
    MessagesDiffer();
  }

  /** The empty form is refused. */
  lemma InitialFormRefused(id: string, now: int)
    ensures Submit(InitialForm, id, now) == Err(RequiredMessage)
  {
  }

  /** The payload's price and offer read as the form's numbers, the offer is
      null exactly when it was "" or nullish, and the flags are booleans. */
  lemma PayloadNumbers(form: ProductRecord)
    ensures ToNumber(Payload(form).precio) == ToNumber(form.precio)
    ensures ToNumber(form.precio).Fin? ==> Payload(form).precio == Num(ToNumber(form.precio).r)
    ensures Payload(form).precioOferta == Null <==> form.precioOferta == Str("") || Nullish(form.precioOferta)
    ensures Payload(form).precioOferta != Null ==> ToNumber(Payload(form).precioOferta) == ToNumber(form.precioOferta)
    ensures Payload(form).disponible.Bool? && Payload(form).ofertaGeneral.Bool? && Payload(form).ofertaSemana.Bool?
  {
    if form.precioOferta != Str("") && !Nullish(form.precioOferta) {
      assert ToNumber(Null) == Fin(0.0);
      assert !ToNumber(form.precioOferta).Fin? ==> NumberOf(form.precioOferta) == form.precioOferta;
    }
  }

  /** The sale mode written is "u" exactly when the form's text, in lower
      case, is "u" or "unidad", and "kg" otherwise. */
  lemma PayloadTipoVenta(form: ProductRecord)
    requires form.tipoVenta.Str?
    ensures Payload(form).tipoVenta == Str("u") <==>
      ToLower(form.tipoVenta.s) == "u" || ToLower(form.tipoVenta.s) == "unidad"
    ensures Payload(form).tipoVenta == Str("u") || Payload(form).tipoVenta == Str("kg")
  {
    NormalizeTipoVentaOfText(form.tipoVenta.s);
  }

  /** Once the page's own checks pass, the service never finds the offer too
      high: the page's test is wider (it also refuses an infinite offer,
      which the service would store as null). */
  lemma PageCheckCoversOfferRule(form: ProductRecord)
    requires Check(form).None?
    ensures ValidatePrices(Payload(form)) != Err(OfferTooHighMessage)
  {
    var p := Payload(form);
    PayloadNumbers(form);
    assert OfferInput(p).Some? ==> OfferInput(p).value == ToNumber(form.precioOferta);
    assert ToNumber(p.precio) == ToNumber(form.precio);
  }

  /** A product that is saved has a positive price, an offer below it or
      none, and the slug of its category. */
  lemma SavedProduct(form: ProductRecord, id: string, now: int)
    requires Submit(form, id, now).Ok?
    ensures var w := Submit(form, id, now).value;
      w.id == Str(id) && w.precio.Num? && w.precio.n > 0.0 &&
      ToNumber(form.precio) == Fin(w.precio.n) &&
      (w.precioOferta == Null || (w.precioOferta.Num? && w.precioOferta.n < w.precio.n)) &&
      w.categoriaSlug == PayloadSlug(form)
  {
    var p := Payload(form);
    ValidatedOfferBelowPrice(p);
    PayloadNumbers(form);
  }
}

/** The admin's reusable product form: the fields it starts from, how an
    input change updates them and the checks its submit runs, in order,
    before handing the form to the caller's `onSubmit`. */
module ProductForm {
  import opened JsText
  import opened JsValue
  import opened ProductsService

  const NameMessage := "El nombre es obligatorio."
  const CategoryMessage := "Seleccioná una categoría."
  const PriceMessage := "El precio debe ser un número válido."
  const OfferMessage := "El precio de oferta debe ser menor que el precio normal."

  /** `emptyProduct`: the nine fields the form holds. */
  function EmptyProduct(): (p: ProductRecord)
    ensures p.nombre == Str("") && p.categoria == Str("") && p.precio == Str("") && p.precioOferta == Str("")
    ensures p.disponible == Bool(true) && p.ofertaGeneral == Bool(false) && p.ofertaSemana == Bool(false)
  {
    EmptyRecord.(nombre := Str(""), descripcion := Str(""), categoria := Str(""), precio := Str(""),
                 precioOferta := Str(""), imagen := Str(""), disponible := Bool(true),
                 ofertaGeneral := Bool(false), ofertaSemana := Bool(false))
  }

  /** The form set from `initialValues`, or the empty product without them. */
  function InitialForm(initialValues: Option<ProductRecord>): (form: ProductRecord)
    ensures initialValues.None? ==> form == EmptyProduct()
    ensures initialValues.Some? ==> var iv := initialValues.value;
      form.nombre == Or(iv.nombre, Str("")) && form.descripcion == Or(iv.descripcion, Str("")) &&
      form.categoria == Or(iv.categoria, Str("")) && form.imagen == Or(iv.imagen, Str("")) &&
      form.precio == Coalesce(iv.precio, Str("")) && form.precioOferta == Coalesce(iv.precioOferta, Str("")) &&
      form.disponible == (if iv.disponible.Bool? then iv.disponible else Bool(true)) &&
      form.ofertaGeneral == Bool(Truthy(iv.ofertaGeneral)) && form.ofertaSemana == Bool(Truthy(iv.ofertaSemana))
  {
    match initialValues
    case None => EmptyProduct()
    case Some(iv) =>
      EmptyProduct().(
        nombre := Or(iv.nombre, Str("")),
        descripcion := Or(iv.descripcion, Str("")),
        categoria := Or(iv.categoria, Str("")),
        precio := Coalesce(iv.precio, Str("")),
        precioOferta := if !Nullish(iv.precioOferta) then iv.precioOferta else Str(""),
        imagen := Or(iv.imagen, Str("")),
        disponible := if iv.disponible.Bool? then iv.disponible else Bool(true),
        ofertaGeneral := Bool(Truthy(iv.ofertaGeneral)),
        ofertaSemana := Bool(Truthy(iv.ofertaSemana)))
  }

  /** Whatever the initial values, the form holds its nine fields and only
      them, and the three flags are booleans. */
  lemma InitialFormShape(initialValues: Option<ProductRecord>)
    ensures var form := InitialForm(initialValues);
      form.id == Undefined && form.categoriaNombre == Undefined && form.categoriaSlug == Undefined &&
      form.tipoVenta == Undefined && form.createdAt == Undefined && form.updatedAt == Undefined &&
      form.disponible.Bool? && form.ofertaGeneral.Bool? && form.ofertaSemana.Bool? &&
      !Nullish(form.precio) && !Nullish(form.precioOferta)
  {
  }

  /** `handleChange(e)` for the input named `name`: a checkbox gives its
      `checked`, any other input its `value`. */
  function HandleChange(form: ProductRecord, name: Field, checkbox: bool, value: Value, checked: bool)
    : (r: ProductRecord)
    ensures GetField(r, name) == if checkbox then Bool(checked) else value
    ensures forall g :: g != name ==> GetField(r, g) == GetField(form, g)
  {
    SetField(form, name, if checkbox then Bool(checked) else value)
  }

  /** How `handleSubmit` ends: a message shown, the form handed to
      `onSubmit`, or a `TypeError` from `.trim()` on a name or category that
      is not text, which escapes the handler and shows nothing. */
  datatype Outcome = Refused(message: string) | Submitted(form: ProductRecord) | Threw

  /** `!x.trim()` on a text. */
  predicate Blank(v: Value)
    requires v.Str?
  {
    Trim(v.s) == ""
  }

  /** `isNaN(precio) || precio <= 0` */
  predicate BadPrice(precio: Number) {
    match precio
    case NaN => true
    case Fin(x) => x <= 0.0
    case Infinite(negative) => negative
  }

  /** `form.precioOferta !== "" && !isNaN(oferta) && oferta >= precio` */
  predicate OfferTooHigh(form: ProductRecord) {
    form.precioOferta != Str("") && !ToNumber(form.precioOferta).NaN? &&
    GreaterOrEqual(ToNumber(form.precioOferta), ToNumber(form.precio))
  }

  function HandleSubmit(form: ProductRecord): (o: Outcome)
    ensures o.Submitted? ==> o.form == form
  {
    if !form.nombre.Str? then Threw
    else if Blank(form.nombre) then Refused(NameMessage)
    else if !form.categoria.Str? then Threw
    else if Blank(form.categoria) then Refused(CategoryMessage)
    else if BadPrice(ToNumber(form.precio)) then Refused(PriceMessage)
    else if OfferTooHigh(form) then Refused(OfferMessage)
    else Submitted(form)
  }

  /** All four checks pass. */
  predicate Valid(form: ProductRecord) {
    form.nombre.Str? && !Blank(form.nombre) && form.categoria.Str? && !Blank(form.categoria) &&
    !BadPrice(ToNumber(form.precio)) && !OfferTooHigh(form)
  }

  /** `onSubmit` is called exactly when every check passes. */
  lemma SubmittedIffValid(form: ProductRecord)
    ensures HandleSubmit(form).Submitted? <==> Valid(form)
  {
    var precio := ToNumber(form.precio);
    var offerTooHigh := OfferTooHigh(form);
    if form.nombre.Str? && !Blank(form.nombre) && form.categoria.Str? && !Blank(form.categoria) {
      assert HandleSubmit(form) == if BadPrice(precio) then Refused(PriceMessage)
        else if offerTooHigh then Refused(OfferMessage) else Submitted(form);
    }
  }

  /** The first failing check decides the message. */
  lemma FirstFailureWins(form: ProductRecord)
    requires form.nombre.Str? && form.categoria.Str?
    ensures Blank(form.nombre) ==> HandleSubmit(form) == Refused(NameMessage)
    ensures !Blank(form.nombre) && Blank(form.categoria) ==> HandleSubmit(form) == Refused(CategoryMessage)
    ensures !Blank(form.nombre) && !Blank(form.categoria) && BadPrice(ToNumber(form.precio)) ==>
      HandleSubmit(form) == Refused(PriceMessage)
    ensures !Blank(form.nombre) && !Blank(form.categoria) && !BadPrice(ToNumber(form.precio)) && OfferTooHigh(form) ==>
      HandleSubmit(form) == Refused(OfferMessage)
  {
  }

  /** A submitted form has a price that is a positive number (possibly
      infinite), and an offer that is "", not a number, or below the price. */
  lemma SubmittedPrices(form: ProductRecord)
    requires HandleSubmit(form).Submitted?
    ensures ToNumber(form.precio).Fin? ==> ToNumber(form.precio).r > 0.0
    ensures ToNumber(form.precio) != NaN && ToNumber(form.precio) != Infinite(true)
    ensures form.precioOferta == Str("") || ToNumber(form.precioOferta).NaN? ||
      !GreaterOrEqual(ToNumber(form.precioOferta), ToNumber(form.precio))
    ensures ToNumber(form.precio).Fin? && ToNumber(form.precioOferta).Fin? && form.precioOferta != Str("") ==>
      ToNumber(form.precioOferta).r < ToNumber(form.precio).r
  {
    SubmittedIffValid(form);
    var precio, oferta := ToNumber(form.precio), ToNumber(form.precioOferta);
    assert !BadPrice(precio);
    assert form.precioOferta == Str("") || oferta.NaN? || !GreaterOrEqual(oferta, precio);
  }

  /** An offer that is not a number is not an error. */
  lemma NonNumericOfferAccepted(form: ProductRecord)
    requires form.nombre.Str? && !Blank(form.nombre) && form.categoria.Str? && !Blank(form.categoria)
    requires !BadPrice(ToNumber(form.precio)) && ToNumber(form.precioOferta).NaN?
    ensures HandleSubmit(form) == Submitted(form)
  {
  }

  /** The empty product is refused for its name. */
  lemma EmptyProductRefused()
    ensures HandleSubmit(InitialForm(None)) == Refused(NameMessage)
  {
    var e := EmptyProduct();
    assert Trim(e.nombre.s) == "";
  }
}

/** The product edit modal: the form filled in from a product, the checks
    run on submit, the fields handed to `updateProduct` and the record passed
    back to the product list. Its two content checks are word for word those
    of the new-product page, and so is its slug fallback. */
module EditProductForm {
  import opened JsValue
  import opened ProductsService
  import opened NuevoPage

  const MissingIdMessage := "Falta el ID del producto."
  const NotFoundMessage := "Producto no encontrado"

  /** `hydrateFromData(data)`: the eleven form fields, each with its fallback;
      the form has no other property. */
  function Hydrate(data: ProductRecord): (form: ProductRecord)
    ensures form.categoriaNombre == CategoryName(data)
    ensures Truthy(data.categoriaSlug) ==> form.categoriaSlug == data.categoriaSlug
    ensures !Truthy(data.categoriaSlug) ==> form.categoriaSlug == Str(Slugify(TextOr(CategoryName(data))))
    ensures form.disponible == if data.disponible.Bool? then data.disponible else Bool(true)
    ensures form.tipoVenta == Coalesce(data.tipoVenta, Str("kg"))
    ensures form.ofertaGeneral == Bool(Truthy(data.ofertaGeneral)) && form.ofertaSemana == Bool(Truthy(data.ofertaSemana))
    ensures form.precio == Coalesce(data.precio, Str("")) && form.precioOferta == Coalesce(data.precioOferta, Str(""))
    ensures form.id == Undefined && form.categoria == Undefined
    ensures form.createdAt == Undefined && form.updatedAt == Undefined
  {
    var name := CategoryName(data);
    EmptyRecord.(
      nombre := Or(data.nombre, Str("")),
      descripcion := Or(data.descripcion, Str("")),
      categoriaNombre := name,
      categoriaSlug := Or(data.categoriaSlug, Str(Slugify(TextOr(name)))),
      precio := Coalesce(data.precio, Str("")),
      precioOferta := Coalesce(data.precioOferta, Str("")),
      imagen := Or(data.imagen, Str("")),
      disponible := if data.disponible.Bool? then data.disponible else Bool(true),
      tipoVenta := Coalesce(data.tipoVenta, Str("kg")),
      ofertaGeneral := Bool(Truthy(data.ofertaGeneral)),
      ofertaSemana := Bool(Truthy(data.ofertaSemana)))
  }

  /** The name, the description and the image fall back to "". */
  lemma HydrateTexts(data: ProductRecord)
    ensures !Truthy(data.nombre) ==> Hydrate(data).nombre == Str("")
    ensures Truthy(data.nombre) ==> Hydrate(data).nombre == data.nombre
    ensures !Truthy(data.descripcion) ==> Hydrate(data).descripcion == Str("")
    ensures !Truthy(data.imagen) ==> Hydrate(data).imagen == Str("")
  {
  }

  /** Filling the form from what it already shows changes nothing. */
  lemma HydrateIdempotent(data: ProductRecord)
    ensures Hydrate(Hydrate(data)) == Hydrate(data)
  {
    var h := Hydrate(data);
    assert CategoryName(h) == CategoryName(data);
  }

  /** A product as the service returns it fills the form with its own
      values, the price and the offer as numbers and a missing offer as "". */
  lemma HydrateOfProduct(p: Product)
    requires p.categoriaSlug != ""
    ensures var form := Hydrate(ToRecord(p));
      form.nombre == (if p.nombre == "" then Str("") else Str(p.nombre)) &&
      form.categoriaSlug == Str(p.categoriaSlug) &&
      form.precio == Num(p.precio) &&
      form.precioOferta == (match p.precioOferta case Some(o) => Num(o) case None => Str("")) &&
      form.disponible == Bool(p.disponible) && form.tipoVenta == Str(p.tipoVenta) &&
      form.ofertaGeneral == Bool(p.ofertaGeneral) && form.ofertaSemana == Bool(p.ofertaSemana)
  {
  }

  /** What the modal shows after a load: the form and the error text. */
  datatype View = View(form: Option<ProductRecord>, error: string)

  /** The load run when the modal opens: the product passed in (when there
      is one) fills the form at once; then, when there is an id, the product
      read by `getProductById` (None for a missing one) replaces it, or the
      error is shown and the form stays as it was. */
  function Load(previous: Option<ProductRecord>, product: Option<ProductRecord>, id: Value,
                fetched: Option<ProductRecord>): (v: View)
    ensures Truthy(id) && fetched.Some? ==> v == View(Some(Hydrate(fetched.value)), "")
    ensures Truthy(id) && fetched.None? ==> v.error == NotFoundMessage
    ensures !(Truthy(id) && fetched.Some?) ==>
      v.form == (if product.Some? then Some(Hydrate(product.value)) else previous)
    ensures !Truthy(id) ==> v.error == ""
  {
    var shown := if product.Some? then Some(Hydrate(product.value)) else previous;
    if Truthy(id) then
      match fetched
      case None => View(shown, NotFoundMessage)
      case Some(data) => View(Some(Hydrate(data)), "")
    else View(shown, "")
  }

  /** `productId ?? product?.id` */
  function ModalId(productId: Value, product: Option<ProductRecord>): (id: Value)
    ensures !Nullish(productId) ==> id == productId
    ensures Nullish(productId) && product.Some? ==> id == product.value.id
    ensures Nullish(productId) && product.None? ==> id == Undefined
  {
    Coalesce(productId, if product.Some? then product.value.id else Undefined)
  }

  /** What a submit that goes through produces: the fields `updateProduct`
      writes and the object handed to `onSaved`. */
  datatype Saved = Saved(written: ProductRecord, notified: ProductRecord)

  /** `{ ...form, categoriaSlug: form.categoriaSlug || slugify(form.categoriaNombre) }` */
  function EditPayload(form: ProductRecord): (p: ProductRecord)
    ensures GetField(p, CategoriaSlug) == PayloadSlug(form)
    ensures forall f :: f != CategoriaSlug ==> GetField(p, f) == GetField(form, f)
  {
    SetField(form, CategoriaSlug, PayloadSlug(form))
  }

  /** `handleSubmit`: the id first, then the two checks of the new-product
      page, then `updateProduct` at time `now`, whose rejection shows its
      message. */
  function Submit(id: Value, form: ProductRecord, now: int): (r: Result<Saved>)
    ensures !Truthy(id) ==> r == Err(MissingIdMessage)
    ensures Truthy(id) && Check(form).Some? ==> r == Err(Check(form).value)
    ensures Truthy(id) && Check(form).None? ==>
      (r.Err? <==> UpdateProduct(EditPayload(form), now).Err?)
  {
    if !Truthy(id) then Err(MissingIdMessage)
    else match Check(form)
      case Some(m) => Err(m)
      case None =>
        var payload := EditPayload(form);
        match UpdateProduct(payload, now)
        case Err(m) => Err(m)
        case Ok(written) => Ok(Saved(written, SetField(payload, Id, id)))
  }

  lemma MessagesDiffer()
    ensures MissingIdMessage != RequiredMessage && MissingIdMessage != OfferNotBelowMessage
    ensures MissingIdMessage != InvalidPriceMessage && MissingIdMessage != OfferTooHighMessage
  {
    NuevoPage.MessagesDiffer();
    assert |MissingIdMessage| == 25;
  }

  /** Without an id nothing else is looked at. */
  lemma MissingIdFirst(id: Value, form: ProductRecord, now: int)
    ensures Submit(id, form, now) == Err(MissingIdMessage) <==> !Truthy(id)
  {
    MessagesDiffer();
  }

  /** With an id, the required fields and the offer are refused exactly as
      on the new-product page. */
  lemma RefusedAsOnNewPage(id: Value, form: ProductRecord, now: int)
    requires Truthy(id)
    ensures Submit(id, form, now) == Err(RequiredMessage) <==> MissingRequired(form)
    ensures Submit(id, form, now) == Err(OfferNotBelowMessage) <==> !MissingRequired(form) && OfferNotBelow(form)
  {
    NuevoPage.MessagesDiffer();
  }

  /** The list gets the form as it was typed, with the slug filled in and
      the id added, while the database gets the validated number for the
      price: a price typed as text reaches the list as text. */
  lemma SavedRecord(id: Value, form: ProductRecord, now: int)
    requires Submit(id, form, now).Ok?
    ensures var s := Submit(id, form, now).value;
      GetField(s.notified, Id) == id &&
      GetField(s.notified, CategoriaSlug) == PayloadSlug(form) &&
      (forall f :: f != Id && f != CategoriaSlug ==> GetField(s.notified, f) == GetField(form, f)) &&
      UpdateProduct(EditPayload(form), now).Ok? && s.written == UpdateProduct(EditPayload(form), now).value &&
      ToNumber(form.precio).Fin? && s.written.precio == Num(ToNumber(form.precio).r) && s.notified.precio == form.precio
  {
    var payload := EditPayload(form);
    assert Truthy(id) && Check(form).None?;
    var w := UpdateProduct(payload, now);
    assert w.Ok?;
    assert Submit(id, form, now) == Ok(Saved(w.value, SetField(payload, Id, id)));
    assert payload.precio == GetField(payload, Precio) == form.precio;
    var v := ValidatePrices(payload);
    assert v.Ok? && w.value == CommonPayload(payload, v.value.0, v.value.1, now);
  }
}

/** The product catalogue service: the slug rule, the normalisation of a
    stored product record, the price validation and the write payloads of
    create and update, the newest-first listing and the two offer lists.
    The database is an input value (the snapshot) and the writes are the
    payloads returned. */
module ProductsService {
  import opened JsText
  import opened JsValue
  import opened Lists
  import opened Sorting

  const InvalidPriceMessage := "El precio debe ser válido."
  const OfferTooHighMessage := "El precio de oferta no puede ser mayor o igual al precio normal."

  // ---------------------------------------------------------------- slugify

  predicate IsSlugChar(c: char) { 'a' <= c <= 'z' || IsDigit(c) || c == '-' }

  predicate IsCombiningMark(c: char) { '\U{0300}' <= c <= '\U{036F}' }

  /** The base letter of a precomposed Latin-1 letter whose canonical
      decomposition is that letter followed by combining marks. */
  function BaseLetter(c: char): Option<char> {
    if '\U{00C0}' <= c <= '\U{00C5}' then Some('A')
    else if c == '\U{00C7}' then Some('C')
    else if '\U{00C8}' <= c <= '\U{00CB}' then Some('E')
    else if '\U{00CC}' <= c <= '\U{00CF}' then Some('I')
    else if c == '\U{00D1}' then Some('N')
    else if '\U{00D2}' <= c <= '\U{00D6}' then Some('O')
    else if '\U{00D9}' <= c <= '\U{00DC}' then Some('U')
    else if c == '\U{00DD}' then Some('Y')
    else if '\U{00E0}' <= c <= '\U{00E5}' then Some('a')
    else if c == '\U{00E7}' then Some('c')
    else if '\U{00E8}' <= c <= '\U{00EB}' then Some('e')
    else if '\U{00EC}' <= c <= '\U{00EF}' then Some('i')
    else if c == '\U{00F1}' then Some('n')
    else if '\U{00F2}' <= c <= '\U{00F6}' then Some('o')
    else if '\U{00F9}' <= c <= '\U{00FC}' then Some('u')
    else if c == '\U{00FD}' || c == '\U{00FF}' then Some('y')
    else None
  }

  /** `normalize("NFD")` followed by the removal of U+0300..U+036F. */
  function RemoveDiacritics(s: string): (r: string)
    ensures |r| <= |s|
    ensures forall i :: 0 <= i < |r| ==> !IsCombiningMark(r[i])
  {
    if s == [] then []
    else
      var head := if IsCombiningMark(s[0]) then [] else match BaseLetter(s[0]) case Some(b) => [b] case None => [s[0]];
      head + RemoveDiacritics(s[1..])
  }

  /** `replace(/\s+/g, "-")`: every maximal run of white space becomes one dash. */
  function DashSpaces(s: string): (r: string)
    ensures forall i :: 0 <= i < |r| ==> !IsJsSpace(r[i])
    decreases |s|
  {
    if s == [] then []
    else if IsJsSpace(s[0]) then "-" + DashSpaces(TrimStart(s[1..]))
    else [s[0]] + DashSpaces(s[1..])
  }

  /** `replace(/[^a-z0-9-]/g, "")` */
  function KeepSlugChars(s: string): (r: string)
    ensures |r| <= |s|
    ensures forall i :: 0 <= i < |r| ==> IsSlugChar(r[i])
  {
    if s == [] then [] else (if IsSlugChar(s[0]) then [s[0]] else []) + KeepSlugChars(s[1..])
  }

  /** The kept text is exactly the slug characters of `s`: every one of them,
      as often as it occurs, in the order they occur. */
  lemma {:induction false} KeepSlugCharsExact(s: string)
    ensures IsSubsequence(KeepSlugChars(s), s)
    ensures forall c :: IsSlugChar(c) ==> multiset(KeepSlugChars(s))[c] == multiset(s)[c]
  {
    if s != [] {
      var rest := KeepSlugChars(s[1..]);
      KeepSlugCharsExact(s[1..]);
      assert s == [s[0]] + s[1..];
      if IsSlugChar(s[0]) {
        assert KeepSlugChars(s) == [s[0]] + rest;
        assert ([s[0]] + rest)[1..] == rest;
      } else {
        assert KeepSlugChars(s) == rest;
        SubsequenceOfTail(rest, s);
      }
    }
  }

  /** `slugify(str)` of the catalogue, the new-product page and the edit form. */
  function Slugify(s: string): (r: string)
    ensures forall i :: 0 <= i < |r| ==> IsSlugChar(r[i])
  {
    KeepSlugChars(DashSpaces(ToLower(RemoveDiacritics(s))))
  }

  predicate IsSlug(s: string) { forall i :: 0 <= i < |s| ==> IsSlugChar(s[i]) }

  lemma {:induction false} DashSpacesWithoutSpaces(s: string)
    requires NoSpace(s)
    ensures DashSpaces(s) == s
  {
    if s != [] {
      DashSpacesWithoutSpaces(s[1..]);
    }
  }

  /** One space between two runs of non-space characters becomes one dash. */
  lemma {:induction false} DashSpacesBetween(a: string, b: string)
    requires NoSpace(a) && NoSpace(b)
    ensures DashSpaces(a + " " + b) == a + "-" + DashSpaces(b)
  {
    if a == [] {
      assert (a + " " + b)[1..] == b;
      assert b == [] || !IsJsSpace(b[0]);
    } else {
      assert (a + " " + b)[1..] == a[1..] + " " + b;
      DashSpacesBetween(a[1..], b);
    }
  }

  lemma {:induction false} KeepSlugCharsOfSlug(s: string)
    requires IsSlug(s)
    ensures KeepSlugChars(s) == s
  {
    if s != [] {
      KeepSlugCharsOfSlug(s[1..]);
    }
  }

  /** `toLowerCase` leaves a string without capitals as it is. */
  lemma LowerCaseUnchanged(s: string)
    requires forall i :: 0 <= i < |s| ==> !('A' <= s[i] <= 'Z')
    ensures ToLower(s) == s
  {
    assert forall i :: 0 <= i < |s| ==> ToLower(s)[i] == s[i];
  }

  /** Characters below U+0080 have no decomposition. */
  lemma {:induction false} RemoveDiacriticsOfAscii(s: string)
    requires forall i :: 0 <= i < |s| ==> s[i] < '\U{0080}'
    ensures RemoveDiacritics(s) == s
  {
    if s != [] {
      RemoveDiacriticsOfAscii(s[1..]);
    }
  }

  /** A slug is its own slug. */
  lemma SlugifyIdempotent(s: string)
    ensures Slugify(Slugify(s)) == Slugify(s)
  {
    var t := Slugify(s);
    RemoveDiacriticsOfAscii(t);
    LowerCaseUnchanged(t);
    DashSpacesWithoutSpaces(t);
    KeepSlugCharsOfSlug(t);
  }

  predicate NoSpace(s: string) { forall i :: 0 <= i < |s| ==> !IsJsSpace(s[i]) }

  lemma {:induction false} RemoveDiacriticsAppend(a: string, b: string)
    ensures RemoveDiacritics(a + b) == RemoveDiacritics(a) + RemoveDiacritics(b)
  {
    if a == [] {
      assert a + b == b;
    } else {
      assert (a + b)[0] == a[0];
      assert (a + b)[1..] == a[1..] + b;
      RemoveDiacriticsAppend(a[1..], b);
    }
  }

  lemma {:induction false} RemoveDiacriticsNoSpace(s: string)
    requires NoSpace(s)
    ensures NoSpace(RemoveDiacritics(s))
  {
    if s != [] {
      RemoveDiacriticsNoSpace(s[1..]);
    }
  }

  lemma RemoveDiacriticsAroundSpace(a: string, b: string)
    ensures RemoveDiacritics(a + " " + b) == RemoveDiacritics(a) + " " + RemoveDiacritics(b)
  {
    RemoveDiacriticsAppend(a + " ", b);
    RemoveDiacriticsAppend(a, " ");
    assert RemoveDiacritics(" ") == " ";
  }

  lemma ToLowerAroundSpace(a: string, b: string)
    ensures ToLower(a + " " + b) == ToLower(a) + " " + ToLower(b)
  {
    ToLowerAppend(a + " ", b);
    ToLowerAppend(a, " ");
    assert ToLower(" ") == " ";
  }

  lemma ToLowerNoSpace(s: string)
    requires NoSpace(s)
    ensures NoSpace(ToLower(s))
  {
    forall i | 0 <= i < |s| ensures !IsJsSpace(ToLower(s)[i]) {
      assert ToLower(s)[i] == LowerChar(s[i]);
    }
  }

  lemma {:induction false} KeepSlugCharsAppend(a: string, b: string)
    ensures KeepSlugChars(a + b) == KeepSlugChars(a) + KeepSlugChars(b)
  {
    if a == [] {
      assert a + b == b;
    } else {
      assert (a + b)[0] == a[0];
      assert (a + b)[1..] == a[1..] + b;
      KeepSlugCharsAppend(a[1..], b);
    }
  }

  lemma KeepSlugCharsAroundDash(a: string, b: string)
    ensures KeepSlugChars(a + "-" + b) == KeepSlugChars(a) + "-" + KeepSlugChars(b)
  {
    KeepSlugCharsAppend(a + "-", b);
    KeepSlugCharsAppend(a, "-");
    assert KeepSlugChars("-") == "-";
  }

  /** A name of two words separated by one space is slugged word by word,
      the words joined by a dash ("Frutos secos" gives "frutos-secos"). */
  lemma SlugifyTwoWords(a: string, b: string)
    requires NoSpace(a) && NoSpace(b)
    ensures Slugify(a + " " + b) == Slugify(a) + "-" + Slugify(b)
  {
    RemoveDiacriticsAroundSpace(a, b);
    var a1, b1 := RemoveDiacritics(a), RemoveDiacritics(b);
    RemoveDiacriticsNoSpace(a);
    RemoveDiacriticsNoSpace(b);
    ToLowerAroundSpace(a1, b1);
    var a2, b2 := ToLower(a1), ToLower(b1);
    ToLowerNoSpace(a1);
    ToLowerNoSpace(b1);
    DashSpacesBetween(a2, b2);
    DashSpacesWithoutSpaces(a2);
    DashSpacesWithoutSpaces(b2);
    KeepSlugCharsAroundDash(a2, b2);
  }

  lemma SlugifyEmpty()
    ensures Slugify("") == ""
  {
    assert RemoveDiacritics("") == "" && ToLower("") == "" && DashSpaces("") == "";
  }

  // ------------------------------------------------------------- sale mode

  /** `(v ?? "kg").toString().toLowerCase()` mapped to "u" or "kg": the write
      path of the service, `normalizeTipoVenta` of the new-product page and
      `getTipoVenta` of the recommendations. */
  function NormalizeTipoVenta(v: Value): (r: string)
    ensures r == "u" || r == "kg"
  {
    var raw := ToLower(ToText(Coalesce(v, Str("kg"))));
    if raw == "u" || raw == "unidad" then "u" else "kg"
  }

  /** The read path of `mapProduct`: case-sensitive, only strings count. */
  function StoredTipoVenta(v: Value): (r: string)
    ensures r == "u" || r == "kg"
    ensures r == "u" <==> v == Str("u") || v == Str("unidad")
  {
    if v == Str("u") || v == Str("unidad") then "u" else "kg"
  }

  /** A text is "u" exactly when its lower-case form is "u" or "unidad". */
  lemma NormalizeTipoVentaOfText(s: string)
    ensures NormalizeTipoVenta(Str(s)) == "u" <==> ToLower(s) == "u" || ToLower(s) == "unidad"
  {
  }

  /** Capitals do not matter. */
  lemma NormalizeTipoVentaIgnoresCase(s: string)
    ensures NormalizeTipoVenta(Str(ToLower(s))) == NormalizeTipoVenta(Str(s))
  {
    ToLowerIdempotent(s);
  }

  lemma NormalizeTipoVentaMissing(v: Value)
    requires Nullish(v)
    ensures NormalizeTipoVenta(v) == "kg"
  {
    LowerCaseUnchanged("kg");
  }

  /** Every value the read path takes for "u" the write path takes for "u"
      too. */
  lemma StoredTipoVentaStricter(v: Value)
    ensures StoredTipoVenta(v) == "u" ==> NormalizeTipoVenta(v) == "u"
  {
    if v == Str("u") {
      LowerCaseUnchanged("u");
    } else if v == Str("unidad") {
      LowerCaseUnchanged("unidad");
    }
  }

  /** The converse fails: "Unidad" is "u" when written and "kg" when read
      back as stored. */
  lemma StoredTipoVentaIsCaseSensitive()
    ensures NormalizeTipoVenta(Str("Unidad")) == "u" && StoredTipoVenta(Str("Unidad")) == "kg"
  {
    LowerUnidad();
  }

  lemma LowerUnidad()
    ensures ToLower("Unidad") == "unidad"
  {
  }

  /** What the write path stores reads back unchanged. */
  lemma NormalizedTipoVentaReadsBack(v: Value)
    ensures StoredTipoVenta(Str(NormalizeTipoVenta(v))) == NormalizeTipoVenta(v)
  {
  }

  // ------------------------------------------------------------ mapProduct

  /** A product object as JavaScript holds it: one field per property the
      catalogue code reads or writes, `Undefined` where the object has no
      such property. Records read from the database come from `RecordOf`. */
  datatype ProductRecord = ProductRecord(
    id: Value,
    nombre: Value,
    descripcion: Value,
    categoriaNombre: Value,
    categoria: Value,
    categoriaSlug: Value,
    precio: Value,
    precioOferta: Value,
    imagen: Value,
    disponible: Value,
    ofertaGeneral: Value,
    ofertaSemana: Value,
    tipoVenta: Value,
    createdAt: Value,
    updatedAt: Value)

  const EmptyRecord := ProductRecord(Undefined, Undefined, Undefined, Undefined, Undefined, Undefined, Undefined,
                                     Undefined, Undefined, Undefined, Undefined, Undefined, Undefined, Undefined, Undefined)

  /** The name of a property of a product object, as the admin forms pass
      it to their `[key]: value` updates. */
  datatype Field =
    | Id | Nombre | Descripcion | CategoriaNombre | Categoria | CategoriaSlug | Precio | PrecioOferta
    | Imagen | Disponible | OfertaGeneral | OfertaSemana | TipoVenta | CreatedAt | UpdatedAt

  /** `r[f]` */
  function GetField(r: ProductRecord, f: Field): Value {
    match f
    case Id => r.id
    case Nombre => r.nombre
    case Descripcion => r.descripcion
    case CategoriaNombre => r.categoriaNombre
    case Categoria => r.categoria
    case CategoriaSlug => r.categoriaSlug
    case Precio => r.precio
    case PrecioOferta => r.precioOferta
    case Imagen => r.imagen
    case Disponible => r.disponible
    case OfertaGeneral => r.ofertaGeneral
    case OfertaSemana => r.ofertaSemana
    case TipoVenta => r.tipoVenta
    case CreatedAt => r.createdAt
    case UpdatedAt => r.updatedAt
  }

  /** `{ ...r, [f]: v }`: the named property takes the new value and every
      other property keeps its own. */
  function SetField(r: ProductRecord, f: Field, v: Value): (w: ProductRecord)
    ensures GetField(w, f) == v
    ensures forall g :: g != f ==> GetField(w, g) == GetField(r, g)
  {
    match f
    case Id => r.(id := v)
    case Nombre => r.(nombre := v)
    case Descripcion => r.(descripcion := v)
    case CategoriaNombre => r.(categoriaNombre := v)
    case Categoria => r.(categoria := v)
    case CategoriaSlug => r.(categoriaSlug := v)
    case Precio => r.(precio := v)
    case PrecioOferta => r.(precioOferta := v)
    case Imagen => r.(imagen := v)
    case Disponible => r.(disponible := v)
    case OfertaGeneral => r.(ofertaGeneral := v)
    case OfertaSemana => r.(ofertaSemana := v)
    case TipoVenta => r.(tipoVenta := v)
    case CreatedAt => r.(createdAt := v)
    case UpdatedAt => r.(updatedAt := v)
  }

  /** The property of the later object when it is present, else the earlier one. */
  function Present(later: Value, earlier: Value): (v: Value)
    ensures later != Undefined ==> v == later
    ensures later == Undefined ==> v == earlier
  {
    if later != Undefined then later else earlier
  }

  /** `{ ...a, ...b }`: each property of `b` that is present replaces the
      one of `a`. */
  function Spread(a: ProductRecord, b: ProductRecord): (r: ProductRecord)
    ensures forall f :: GetField(r, f) == if GetField(b, f) != Undefined then GetField(b, f) else GetField(a, f)
  {
    ProductRecord(
      Present(b.id, a.id),
      Present(b.nombre, a.nombre),
      Present(b.descripcion, a.descripcion),
      Present(b.categoriaNombre, a.categoriaNombre),
      Present(b.categoria, a.categoria),
      Present(b.categoriaSlug, a.categoriaSlug),
      Present(b.precio, a.precio),
      Present(b.precioOferta, a.precioOferta),
      Present(b.imagen, a.imagen),
      Present(b.disponible, a.disponible),
      Present(b.ofertaGeneral, a.ofertaGeneral),
      Present(b.ofertaSemana, a.ofertaSemana),
      Present(b.tipoVenta, a.tipoVenta),
      Present(b.createdAt, a.createdAt),
      Present(b.updatedAt, a.updatedAt))
  }

  /** Two objects with the same properties are the same object. */
  lemma SameFields(a: ProductRecord, b: ProductRecord)
    requires forall f :: GetField(a, f) == GetField(b, f)
    ensures a == b
  {
    assert a.id == b.id by { assert GetField(a, Id) == GetField(b, Id); }
    assert a.nombre == b.nombre by { assert GetField(a, Nombre) == GetField(b, Nombre); }
    assert a.descripcion == b.descripcion by { assert GetField(a, Descripcion) == GetField(b, Descripcion); }
    assert a.categoriaNombre == b.categoriaNombre by { assert GetField(a, CategoriaNombre) == GetField(b, CategoriaNombre); }
    assert a.categoria == b.categoria by { assert GetField(a, Categoria) == GetField(b, Categoria); }
    assert a.categoriaSlug == b.categoriaSlug by { assert GetField(a, CategoriaSlug) == GetField(b, CategoriaSlug); }
    assert a.precio == b.precio by { assert GetField(a, Precio) == GetField(b, Precio); }
    assert a.precioOferta == b.precioOferta by { assert GetField(a, PrecioOferta) == GetField(b, PrecioOferta); }
    assert a.imagen == b.imagen by { assert GetField(a, Imagen) == GetField(b, Imagen); }
    assert a.disponible == b.disponible by { assert GetField(a, Disponible) == GetField(b, Disponible); }
    assert a.ofertaGeneral == b.ofertaGeneral by { assert GetField(a, OfertaGeneral) == GetField(b, OfertaGeneral); }
    assert a.ofertaSemana == b.ofertaSemana by { assert GetField(a, OfertaSemana) == GetField(b, OfertaSemana); }
    assert a.tipoVenta == b.tipoVenta by { assert GetField(a, TipoVenta) == GetField(b, TipoVenta); }
    assert a.createdAt == b.createdAt by { assert GetField(a, CreatedAt) == GetField(b, CreatedAt); }
    assert a.updatedAt == b.updatedAt by { assert GetField(a, UpdatedAt) == GetField(b, UpdatedAt); }
  }

  /** Setting a property to the value it already has changes nothing, and a
      second write to the same property overrides the first. */
  lemma SetFieldLaws(r: ProductRecord, f: Field, v: Value, u: Value)
    ensures SetField(r, f, GetField(r, f)) == r
    ensures SetField(SetField(r, f, v), f, u) == SetField(r, f, u)
  {
    SameFields(SetField(r, f, GetField(r, f)), r);
    SameFields(SetField(SetField(r, f, v), f, u), SetField(r, f, u));
  }

  /** The properties of a stored value, read with `data.x`. */
  function RecordOf(data: Value): (r: ProductRecord)
    ensures r.precio == Get(data, "precio") && r.precioOferta == Get(data, "precioOferta")
  {
    ProductRecord(
      Get(data, "id"), Get(data, "nombre"), Get(data, "descripcion"), Get(data, "categoriaNombre"),
      Get(data, "categoria"), Get(data, "categoriaSlug"), Get(data, "precio"), Get(data, "precioOferta"),
      Get(data, "imagen"), Get(data, "disponible"), Get(data, "ofertaGeneral"), Get(data, "ofertaSemana"),
      Get(data, "tipoVenta"), Get(data, "createdAt"), Get(data, "updatedAt"))
  }

  /** The normalised product `mapProduct` returns. */
  datatype Product = Product(
    id: string,
    nombre: string,
    descripcion: string,
    categoriaNombre: string,
    categoriaSlug: string,
    precio: real,
    precioOferta: Option<real>,
    imagen: string,
    disponible: bool,
    ofertaGeneral: bool,
    ofertaSemana: bool,
    tipoVenta: string,
    createdAt: Value,
    updatedAt: Value)

  /** A stored text field read with `x || ""`. */
  function TextOr(v: Value): (r: string)
    ensures v.Str? ==> r == v.s
    ensures !Truthy(v) ==> r == ""
  {
    if !Truthy(v) then "" else ToText(v)
  }

  /** `data.categoriaNombre || data.categoria || ""` */
  function CategoryName(r: ProductRecord): (v: Value)
    ensures Truthy(r.categoriaNombre) ==> v == r.categoriaNombre
    ensures !Truthy(r.categoriaNombre) && Truthy(r.categoria) ==> v == r.categoria
    ensures !Truthy(r.categoriaNombre) && !Truthy(r.categoria) ==> v == Str("")
  {
    Or(Or(r.categoriaNombre, r.categoria), Str(""))
  }

  /** `typeof x === "number" ? x : Number(x) || 0`. A price is a finite
      real here, so a text that reads as an infinity is held as 0 where the
      source keeps the infinity. */
  function StoredPrice(v: Value): (r: real)
    ensures v.Num? ==> r == v.n
    ensures !v.Num? && ToNumber(v).Fin? ==> r == ToNumber(v).r
    ensures !v.Num? && ToNumber(v).NaN? ==> r == 0.0
    ensures !v.Num? && ToNumber(v).Infinite? ==> r == 0.0
  {
    match v
    case Num(n) => n
    case _ => match ToNumber(v) case Fin(x) => x case _ => 0.0
  }

  /** A number is kept; null, undefined and "" are null; anything else is
      `Number(x) || null`. A text that reads as an infinity is held as null
      where the source keeps the infinity. */
  function StoredOffer(v: Value): (r: Option<real>)
    ensures v.Num? ==> r == Some(v.n)
    ensures !v.Num? && ToNumber(v).Infinite? ==> r.None?
    ensures Nullish(v) || v == Str("") ==> r.None?
    ensures !v.Num? && r.Some? ==> ToNumber(v) == Fin(r.value) && r.value != 0.0
    ensures !v.Num? && !Nullish(v) && v != Str("") && ToNumber(v).Fin? && ToNumber(v).r != 0.0 ==> r == Some(ToNumber(v).r)
  {
    match v
    case Num(n) => Some(n)
    case _ =>
      if Nullish(v) || v == Str("") then None
      else match ToNumber(v) case Fin(x) => if x != 0.0 then Some(x) else None case _ => None
  }

  /** The body of `mapProduct(id, data)` on the record's fields. */
  function Normalize(id: string, r: ProductRecord): (p: Product)
    ensures p.id == id
    ensures p.categoriaNombre == TextOr(CategoryName(r))
    ensures p.categoriaSlug == if Truthy(r.categoriaSlug) then ToText(r.categoriaSlug) else Slugify(TextOr(CategoryName(r)))
    ensures p.disponible == if r.disponible.Bool? then r.disponible.b else true
    ensures p.tipoVenta == "u" <==> r.tipoVenta in {Str("u"), Str("unidad")}
    ensures p.precio == StoredPrice(r.precio) && p.precioOferta == StoredOffer(r.precioOferta)
  {
    var name := CategoryName(r);
    Product(
      id,
      TextOr(r.nombre),
      TextOr(r.descripcion),
      TextOr(name),
      if Truthy(r.categoriaSlug) then ToText(r.categoriaSlug) else Slugify(TextOr(name)),
      StoredPrice(r.precio),
      StoredOffer(r.precioOferta),
      TextOr(r.imagen),
      if r.disponible.Bool? then r.disponible.b else true,
      Truthy(r.ofertaGeneral),
      Truthy(r.ofertaSemana),
      StoredTipoVenta(r.tipoVenta),
      Coalesce(r.createdAt, Null),
      Coalesce(r.updatedAt, Null))
  }

  /** `mapProduct(id, data)` */
  function MapProduct(id: string, data: Value): (p: Product)
    ensures p == Normalize(id, RecordOf(data))
  {
    Normalize(id, RecordOf(data))
  }

  /** A record without properties reads as an available "kg" product with
      price 0 and no offer... */
  lemma NormalizeDefaults(id: string, r: ProductRecord)
    requires r.precio == Undefined && r.precioOferta == Undefined && r.disponible == Undefined
    requires r.ofertaGeneral == Undefined && r.ofertaSemana == Undefined && r.tipoVenta == Undefined
    requires r.createdAt == Undefined
    ensures var p := Normalize(id, r);
      p.precio == 0.0 && p.precioOferta.None? && p.disponible && !p.ofertaGeneral && !p.ofertaSemana &&
      p.tipoVenta == "kg" && p.createdAt == Null
  {
  }

  /** ... and with every text empty. */
  lemma NormalizeDefaultTexts(id: string)
    ensures var p := Normalize(id, EmptyRecord);
      p.nombre == "" && p.categoriaNombre == "" && p.categoriaSlug == ""
  {
    SlugifyEmpty();
  }

  /** The product as the object the admin pages hold. */
  function ToRecord(p: Product): (r: ProductRecord)
    ensures r.id == Str(p.id) && r.precio == Num(p.precio)
    ensures r.precioOferta == match p.precioOferta case Some(o) => Num(o) case None => Null
    ensures r.categoria == Undefined
  {
    ProductRecord(
      Str(p.id), Str(p.nombre), Str(p.descripcion), Str(p.categoriaNombre), Undefined, Str(p.categoriaSlug),
      Num(p.precio), match p.precioOferta case Some(o) => Num(o) case None => Null, Str(p.imagen),
      Bool(p.disponible), Bool(p.ofertaGeneral), Bool(p.ofertaSemana), Str(p.tipoVenta), p.createdAt, p.updatedAt)
  }

  /** A product as `mapProduct` returns it. */
  predicate IsNormalized(p: Product) {
    (p.tipoVenta == "u" || p.tipoVenta == "kg") && p.categoriaSlug != "" &&
    p.createdAt != Undefined && p.updatedAt != Undefined
  }

  /** Normalising a normalised product again changes nothing. */
  lemma NormalizeOfRecord(p: Product)
    requires IsNormalized(p)
    ensures Normalize(p.id, ToRecord(p)) == p
  {
  }

  // --------------------------------------------------- create and update

  /** `precioOferta !== "" && precioOferta != null ? Number(precioOferta) : null` */
  function OfferInput(r: ProductRecord): (o: Option<Number>)
    ensures o.None? <==> r.precioOferta == Str("") || Nullish(r.precioOferta)
  {
    if r.precioOferta == Str("") || Nullish(r.precioOferta) then None else Some(ToNumber(r.precioOferta))
  }

  /** The two checks shared by `createProduct` and `updateProduct`; on success
      the price and the offer to store (a non-finite offer is stored as null). */
  function ValidatePrices(r: ProductRecord): (v: Result<(real, Option<real>)>)
    ensures v.Err? ==> v.message == InvalidPriceMessage || v.message == OfferTooHighMessage
    ensures v.Ok? ==> ToNumber(r.precio) == Fin(v.value.0) && v.value.0 > 0.0
    ensures v.Ok? ==> v.value.1 == (match OfferInput(r) case Some(Fin(o)) => Some(o) case _ => None)
  {
    var precio := ToNumber(r.precio);
    var oferta := OfferInput(r);
    if !precio.Fin? || precio.r <= 0.0 then Err(InvalidPriceMessage)
    else if oferta.Some? && oferta.value.Fin? && oferta.value.r >= precio.r then Err(OfferTooHighMessage)
    else Ok((precio.r, if oferta.Some? && oferta.value.Fin? then Some(oferta.value.r) else None))
  }

  /** Both directions of the rejection rule. */
  lemma ValidatePricesRejects(r: ProductRecord)
    ensures ValidatePrices(r) == Err(InvalidPriceMessage) <==> !ToNumber(r.precio).Fin? || ToNumber(r.precio).r <= 0.0
    ensures ValidatePrices(r) == Err(OfferTooHighMessage) <==>
      ToNumber(r.precio).Fin? && ToNumber(r.precio).r > 0.0 &&
      (match OfferInput(r) case Some(Fin(o)) => o >= ToNumber(r.precio).r case _ => false)
  {
    assert InvalidPriceMessage != OfferTooHighMessage by {
      assert |InvalidPriceMessage| != |OfferTooHighMessage|;
    }
  }

  /** An accepted offer is always strictly below the price. */
  lemma ValidatedOfferBelowPrice(r: ProductRecord)
    requires ValidatePrices(r).Ok?
    ensures var (precio, oferta) := ValidatePrices(r).value;
      precio > 0.0 && (oferta.Some? ==> oferta.value < precio)
  {
  }

  /** A price typed as a positive whole number is accepted, and an offer
      that is not a number is dropped rather than rejected. */
  lemma ValidatePricesOfTypedPrice(r: ProductRecord, n: nat)
    requires n > 0 && r.precio == Str(NatStr(n))
    requires !Nullish(r.precioOferta) && r.precioOferta != Str("") && ToNumber(r.precioOferta).NaN?
    ensures ValidatePrices(r) == Ok((n as real, None))
  {
    NumeralReadsAsNumber(n);
    assert OfferInput(r) == Some(NaN);
    ValidatePricesWithoutOffer(r, n as real);
  }

  lemma ValidatePricesWithoutOffer(r: ProductRecord, p: real)
    requires ToNumber(r.precio) == Fin(p) && p > 0.0 && OfferInput(r) == Some(NaN)
    ensures ValidatePrices(r) == Ok((p, None))
  {
    ValidatePricesRejects(r);
    var v := ValidatePrices(r);
    assert v != Err(InvalidPriceMessage) && v != Err(OfferTooHighMessage);
    assert v.Ok?;
    assert v.value.0 == p && v.value.1 == None;
  }

  /** The fields `createProduct` and `updateProduct` both write. */
  function CommonPayload(r: ProductRecord, precio: real, oferta: Option<real>, now: int): (w: ProductRecord)
    ensures w.id == Undefined && w.createdAt == Undefined && w.categoria == Undefined
    ensures w.precio == Num(precio) && w.updatedAt == Num(now as real)
    ensures w.disponible == Bool(Truthy(r.disponible)) && w.ofertaGeneral == Bool(Truthy(r.ofertaGeneral)) &&
            w.ofertaSemana == Bool(Truthy(r.ofertaSemana))
    ensures w.tipoVenta == Str(NormalizeTipoVenta(r.tipoVenta))
  {
    var name := CategoryName(r);
    ProductRecord(
      Undefined,
      r.nombre,
      Or(r.descripcion, Str("")),
      name,
      Undefined,
      if Truthy(r.categoriaSlug) then r.categoriaSlug else Str(Slugify(TextOr(name))),
      Num(precio),
      match oferta case Some(o) => Num(o) case None => Null,
      Or(r.imagen, Str("")),
      Bool(Truthy(r.disponible)),
      Bool(Truthy(r.ofertaGeneral)),
      Bool(Truthy(r.ofertaSemana)),
      Str(NormalizeTipoVenta(r.tipoVenta)),
      Undefined,
      Num(now as real))
  }

  /** `createProduct(productData)`: the record written under the fresh key
      `id` at time `now`, or the validation error. */
  function CreateProduct(r: ProductRecord, id: string, now: int): (w: Result<ProductRecord>)
    ensures w.Err? <==> ValidatePrices(r).Err?
    ensures w.Err? ==> w.message == ValidatePrices(r).message
    ensures w.Ok? ==> w.value.id == Str(id) && w.value.createdAt == Num(now as real) && w.value.updatedAt == Num(now as real)
    ensures w.Ok? ==> w.value.disponible == Bool(Truthy(r.disponible))
  {
    match ValidatePrices(r)
    case Err(m) => Err(m)
    case Ok((precio, oferta)) => Ok(CommonPayload(r, precio, oferta, now).(id := Str(id), createdAt := Num(now as real)))
  }

  /** `updateProduct(id, productData)`: the fields written at time `now`. */
  function UpdateProduct(r: ProductRecord, now: int): (w: Result<ProductRecord>)
    ensures w.Err? <==> ValidatePrices(r).Err?
    ensures w.Ok? ==> w.value.id == Undefined && w.value.createdAt == Undefined
  {
    match ValidatePrices(r)
    case Err(m) => Err(m)
    case Ok((precio, oferta)) => Ok(CommonPayload(r, precio, oferta, now))
  }

  /** Update writes what create writes, less the key and the creation time. */
  lemma UpdateIsCreateWithoutIdentity(r: ProductRecord, id: string, now: int)
    ensures UpdateProduct(r, now).Ok? <==> CreateProduct(r, id, now).Ok?
    ensures UpdateProduct(r, now).Ok? ==>
      UpdateProduct(r, now).value == CreateProduct(r, id, now).value.(id := Undefined, createdAt := Undefined)
  {
  }

  /** A created product reads back through `mapProduct` with the validated
      price and offer, the normalised sale mode and the coerced flags. */
  lemma CreatedProductReadsBack(r: ProductRecord, id: string, now: int)
    requires CreateProduct(r, id, now).Ok?
    ensures var p := Normalize(id, CreateProduct(r, id, now).value);
      p.precio == ValidatePrices(r).value.0 &&
      p.precioOferta == ValidatePrices(r).value.1 &&
      p.tipoVenta == NormalizeTipoVenta(r.tipoVenta) &&
      p.disponible == Truthy(r.disponible) &&
      p.ofertaGeneral == Truthy(r.ofertaGeneral) &&
      p.ofertaSemana == Truthy(r.ofertaSemana) &&
      p.createdAt == Num(now as real)
  {
    NormalizedTipoVentaReadsBack(r.tipoVenta);
  }

  // ---------------------------------------------------------- listings

  /** `(p.createdAt || 0)` as the comparator's subtraction reads it: a
      falsy creation time is 0, a truthy one that is not a number is NaN. */
  function CreatedKey(p: Product): (k: Number)
    ensures !Truthy(p.createdAt) ==> k == Fin(0.0)
    ensures p.createdAt.Num? ==> k == Fin(p.createdAt.n)
  {
    ToNumber(Or(p.createdAt, Num(0.0)))
  }

  /** `(a, b) => (b.createdAt || 0) - (a.createdAt || 0)`: `a` may stay
      before `b` unless the difference is positive. The sort takes a NaN
      difference as 0, so a NaN creation time ties with every product. */
  function NewerFirst(): (leq: (Product, Product) -> bool)
    ensures forall a, b :: CreatedKey(a).Fin? && CreatedKey(b).Fin? ==>
      (leq(a, b) <==> CreatedKey(b).r <= CreatedKey(a).r)
    ensures forall a, b :: CreatedKey(a).NaN? || CreatedKey(b).NaN? ==> leq(a, b) && leq(b, a)
  {
    (a: Product, b: Product) => !DifferencePositive(CreatedKey(b), CreatedKey(a))
  }

  /** No creation time of the list reads as NaN. */
  predicate NumericDates(s: seq<Product>) {
    forall i :: 0 <= i < |s| ==> !CreatedKey(s[i]).NaN?
  }

  /** On products whose creation times read as numbers (a missing one as
      0), the comparator orders consistently, newest first. */
  lemma NewerFirstOnNumericDates(s: seq<Product>)
    requires NumericDates(s)
    ensures PreorderOn((set p | p in s), NewerFirst())
  {
    var xs := set p | p in s;
    forall a, b, c | a in xs && b in xs && c in xs
      ensures GreaterOrEqual(CreatedKey(a), CreatedKey(b)) || GreaterOrEqual(CreatedKey(b), CreatedKey(a))
      ensures GreaterOrEqual(CreatedKey(a), CreatedKey(b)) && GreaterOrEqual(CreatedKey(b), CreatedKey(c)) ==>
        GreaterOrEqual(CreatedKey(a), CreatedKey(c))
      ensures DifferencePositive(CreatedKey(b), CreatedKey(a)) <==> !GreaterOrEqual(CreatedKey(a), CreatedKey(b))
    {
      GreaterOrEqualOrders(CreatedKey(a), CreatedKey(b), CreatedKey(c));
      GreaterOrEqualOrders(CreatedKey(b), CreatedKey(a), CreatedKey(c));
    }
  }

  /** With a NaN creation time the comparator is not transitive: a product
      dated 5 may stay before an undated one, and that one before a product
      dated 7, yet the one dated 5 may not stay before the one dated 7. */
  lemma NewerFirstNotTransitiveWithNaN(a: Product, n: Product, b: Product)
    requires a.createdAt == Num(5.0) && n.createdAt == Str("x") && b.createdAt == Num(7.0)
    ensures NewerFirst()(a, n) && NewerFirst()(n, b) && !NewerFirst()(a, b)
  {
    assert CreatedKey(n).NaN? by {
      assert Truthy(n.createdAt);
      WordReadsAsNaN();
    }
  }

  function MapEntries(entries: seq<(string, Value)>): (r: seq<Product>)
    ensures |r| == |entries|
    ensures forall i :: 0 <= i < |r| ==> r[i] == MapProduct(entries[i].0, entries[i].1)
  {
    if entries == [] then [] else [MapProduct(entries[0].0, entries[0].1)] + MapEntries(entries[1..])
  }

  /** `getProducts()` on the snapshot's entries, in the order the snapshot
      lists them; an absent snapshot is the empty catalogue. */
  function GetProducts(snapshot: Option<seq<(string, Value)>>): (r: seq<Product>)
    ensures snapshot.None? ==> r == []
    ensures snapshot.Some? ==> |r| == |snapshot.value|
  {
    match snapshot
    case None => []
    case Some(entries) => SortBy(MapEntries(entries), NewerFirst())
  }

  /** Exactly the stored products, and newest first when every creation
      time reads as a number. */
  lemma GetProductsNewestFirst(entries: seq<(string, Value)>)
    ensures multiset(GetProducts(Some(entries))) == multiset(MapEntries(entries))
    ensures NumericDates(MapEntries(entries)) ==> SortedBy(GetProducts(Some(entries)), NewerFirst())
  {
    SortByPermutes(MapEntries(entries), NewerFirst());
    if NumericDates(MapEntries(entries)) {
      NewerFirstOnNumericDates(MapEntries(entries));
      SortBySortedOn(MapEntries(entries), NewerFirst(), set p | p in MapEntries(entries));
    }
  }

  predicate Undated(p: Product) { CreatedKey(p).NaN? }

  /** Products whose creation time reads as NaN tie with every product, so
      they leave the sort in the snapshot's order. */
  lemma UndatedKeepOrder(entries: seq<(string, Value)>)
    ensures Filter(GetProducts(Some(entries)), Undated) == Filter(MapEntries(entries), Undated)
  {
    SortByKeepsOrderOf(MapEntries(entries), NewerFirst(), Undated);
  }

  /** A product stored with the creation time "x" reads it as NaN. */
  lemma TextDateUndated(id: string, data: Value)
    requires Get(data, "createdAt") == Str("x")
    ensures Undated(MapProduct(id, data))
  {
    var p := MapProduct(id, data);
    assert p.createdAt == Str("x");
    assert Truthy(p.createdAt);
    WordReadsAsNaN();
  }

  /** Of two entries, an undated first one stays first. */
  lemma UndatedStaysFirst(e1: (string, Value), e2: (string, Value))
    requires Undated(MapProduct(e1.0, e1.1))
    ensures GetProducts(Some([e1, e2])) == MapEntries([e1, e2])
  {
    var s := MapEntries([e1, e2]);
    assert SortedBy(s, NewerFirst());
    SortBySortedIsIdentity(s, NewerFirst());
  }

  /** An entry created at "x" ties with one created at 5 and stays first. */
  lemma NaNDateKeepsPlace()
    ensures var entries := [("a", Obj(map["createdAt" := Str("x")])), ("b", Obj(map["createdAt" := Num(5.0)]))];
      GetProducts(Some(entries)) == MapEntries(entries)
  {
    var a := Obj(map["createdAt" := Str("x")]);
    TextDateUndated("a", a);
    UndatedStaysFirst(("a", a), ("b", Obj(map["createdAt" := Num(5.0)])));
  }

  predicate IsGeneralOffer(p: Product) { p.ofertaGeneral && p.disponible }

  predicate IsWeeklyOffer(p: Product) { p.ofertaSemana && p.disponible }

  /** `getGeneralOffers()` */
  function GeneralOffers(snapshot: Option<seq<(string, Value)>>): (r: seq<Product>)
    ensures forall i :: 0 <= i < |r| ==> r[i].ofertaGeneral && r[i].disponible
  {
    Filter(GetProducts(snapshot), IsGeneralOffer)
  }

  /** `getWeeklyOffers()` */
  function WeeklyOffers(snapshot: Option<seq<(string, Value)>>): (r: seq<Product>)
    ensures forall i :: 0 <= i < |r| ==> r[i].ofertaSemana && r[i].disponible
  {
    Filter(GetProducts(snapshot), IsWeeklyOffer)
  }

  /** The offer lists keep exactly the flagged, available products, in the
      catalogue's own order. */
  lemma OfferListsExact(snapshot: Option<seq<(string, Value)>>, p: Product)
    ensures p in GeneralOffers(snapshot) <==> p in GetProducts(snapshot) && p.ofertaGeneral && p.disponible
    ensures p in WeeklyOffers(snapshot) <==> p in GetProducts(snapshot) && p.ofertaSemana && p.disponible
    ensures IsSubsequence(GeneralOffers(snapshot), GetProducts(snapshot))
    ensures IsSubsequence(WeeklyOffers(snapshot), GetProducts(snapshot))
  {
    FilterMembership(GetProducts(snapshot), IsGeneralOffer, p);
    FilterMembership(GetProducts(snapshot), IsWeeklyOffer, p);
    FilterIsSubsequence(GetProducts(snapshot), IsGeneralOffer);
    FilterIsSubsequence(GetProducts(snapshot), IsWeeklyOffer);
  }
}

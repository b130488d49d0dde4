/** The checks and the row mapping of `parseExcelFile`: the sheet's rows,
    as objects keyed by the header cells, are refused when there are none or
    when a required column is missing, and otherwise become the products of
    the import preview, rows without data or without a valid price left
    out. */
module ExcelService {
  import opened JsText
  import opened JsValue
  import opened Lists
  import opened ProductsService

  /** One row of `sheet_to_json(sheet, { defval: "" })`. */
  type SheetRow = map<string, Value>

  const EmptyMessage := "El archivo está vacío o sin datos válidos."
  const Required := ["nombre", "descripcion", "precio"]

  /** `row.key`, `undefined` for a column the row does not have. */
  function Cell(row: SheetRow, key: string): (v: Value)
    ensures key in row ==> v == row[key]
    ensures key !in row ==> v == Undefined
  {
    Get(Obj(row), key)
  }

  /** `required.filter((col) => !columns.includes(col))` */
  function MissingColumns(first: SheetRow): (missing: seq<string>)
    ensures forall col :: col in missing <==> col in Required && col !in first
    ensures IsSubsequence(missing, Required)
  {
    var keep := (col: string) => col !in first;
    forall col ensures col in Filter(Required, keep) <==> col in Required && col !in first {
      FilterMembership(Required, keep, col);
    }
    FilterIsSubsequence(Required, keep);
    Filter(Required, keep)
  }

  function ColumnsMessage(missing: seq<string>): (r: string)
    ensures forall i :: 0 <= i < |missing| ==> Contains(r, missing[i])
  {
    var prefix := "El archivo Excel debe contener estas columnas: " + Join(Required, ", ") + ". Faltan: ";
    JoinPartsAfter(prefix, missing, ", ");
    prefix + Join(missing, ", ")
  }

  /** `isNaN(precio) || precio <= 0`: exactly the prices that are not `> 0`. */
  predicate BadPrice(precio: Number)
    ensures BadPrice(precio) <==> !DifferencePositive(precio, Fin(0.0))
  {
    match precio
    case NaN => true
    case Fin(x) => x <= 0.0
    case Infinite(negative) => negative
  }

  /** `!row.nombre && !row.descripcion && !row.precio && !row.categoria` */
  predicate NoData(row: SheetRow)
    ensures NoData(row) ==> BadPrice(ToNumber(Cell(row, "precio")))
  {
    ParseEmptyIsZero();
    assert Trim("") == "";

    !Truthy(Cell(row, "nombre")) && !Truthy(Cell(row, "descripcion")) &&
    !Truthy(Cell(row, "precio")) && !Truthy(Cell(row, "categoria"))
  }

  /** `Number(x) || 0` */
  function NumberOrZero(v: Value): (w: Value)
    ensures ToNumber(v).NaN? ==> w == Num(0.0)
    ensures !ToNumber(v).NaN? ==> ToNumber(w) == ToNumber(v)
    ensures ToNumber(v).Fin? ==> w == Num(ToNumber(v).r)
  {
    match ToNumber(v)
    case NaN => Num(0.0)
    case _ => NumberOf(v)
  }

  /** `x !== undefined && x !== "" && !isNaN(Number(x)) ? Number(x) : null` */
  function OfferCell(v: Value): (w: Value)
    ensures v == Undefined || v == Str("") || ToNumber(v).NaN? ==> w == Null
    ensures v != Undefined && v != Str("") && !ToNumber(v).NaN? ==> ToNumber(w) == ToNumber(v) && w != Null
  {
    if v != Undefined && v != Str("") && !ToNumber(v).NaN? then NumberOf(v) else Null
  }

  /** `typeof x === "boolean" ? x : fallback` */
  function BoolOr(v: Value, fallback: bool): (w: Value)
    ensures w.Bool? && (v.Bool? ==> w == v) && (!v.Bool? ==> w == Bool(fallback))
  {
    if v.Bool? then v else Bool(fallback)
  }

  /** The callback of `json.map`: `None` for a row it turns into `null`. */
  function MapRow(row: SheetRow): (p: Option<ProductRecord>)
    ensures p.None? <==> NoData(row) || BadPrice(ToNumber(Cell(row, "precio")))
  {
    if NoData(row) then None
    else if BadPrice(ToNumber(Cell(row, "precio"))) then None
    else Some(EmptyRecord.(
      nombre := Or(Cell(row, "nombre"), Str("")),
      descripcion := Or(Cell(row, "descripcion"), Str("")),
      categoria := Or(Cell(row, "categoria"), Str("")),
      precio := NumberOrZero(Cell(row, "precio")),
      precioOferta := OfferCell(Cell(row, "precioOferta")),
      imagen := Or(Cell(row, "imagen"), Str("")),
      disponible := BoolOr(Cell(row, "disponible"), true),
      ofertaGeneral := BoolOr(Cell(row, "ofertaGeneral"), false),
      ofertaSemana := BoolOr(Cell(row, "ofertaSemana"), false)))
  }

  /** What one row contributes once the nulls are filtered out. */
  function Kept(row: SheetRow): (ps: seq<ProductRecord>)
    ensures |ps| <= 1
  {
    match MapRow(row) case Some(p) => [p] case None => []
  }

  /** `json.map(...).filter((p) => p !== null)` */
  function Products(json: seq<SheetRow>): (ps: seq<ProductRecord>)
    ensures |ps| <= |json|
  {
    if json == [] then [] else Kept(json[0]) + Products(json[1..])
  }

  /** The preview, or the error the promise rejects with. */
  function ParseRows(json: seq<SheetRow>): (r: Result<seq<ProductRecord>>)
    ensures json == [] ==> r == Err(EmptyMessage)
    ensures json != [] && MissingColumns(json[0]) != [] ==> r == Err(ColumnsMessage(MissingColumns(json[0])))
    ensures json != [] && MissingColumns(json[0]) == [] ==> r == Ok(Products(json))
  {
    if |json| == 0 then Err(EmptyMessage)
    else
      var missing := MissingColumns(json[0]);
      if |missing| > 0 then Err(ColumnsMessage(missing))
      else Ok(Products(json))
  }

  /** The two errors read differently. */
  lemma MessagesDiffer(missing: seq<string>)
    ensures ColumnsMessage(missing) != EmptyMessage
  {
    assert EmptyMessage[11] == 'e';
    assert ColumnsMessage(missing)[11] == 'E';
  }

  /** A sheet is refused for missing columns exactly when its first row
      lacks one of the required headers. */
  lemma RefusedForColumns(json: seq<SheetRow>)
    requires json != []
    ensures ParseRows(json).Err? <==> exists col :: col in Required && col !in json[0]
  {
    if ParseRows(json).Err? {
      var col := MissingColumns(json[0])[0];
      assert col in MissingColumns(json[0]);
    } else {
      forall col | col in Required ensures col in json[0] {
        assert col !in MissingColumns(json[0]);
      }
    }
  }

  /** Mapping keeps the sheet's order: the products of two runs of rows are
      those of the first run, then those of the second. */
  lemma {:induction false} ProductsAppend(a: seq<SheetRow>, b: seq<SheetRow>)
    ensures Products(a + b) == Products(a) + Products(b)
  {
    if a != [] {
      assert (a + b)[0] == a[0];
      assert (a + b)[1..] == a[1..] + b;
      ProductsAppend(a[1..], b);
    } else {
      assert a + b == b;
    }
  }

  /** The preview holds a product exactly when some row maps to it. */
  lemma {:induction false} ProductsMembership(json: seq<SheetRow>, p: ProductRecord)
    ensures p in Products(json) <==> exists i :: 0 <= i < |json| && MapRow(json[i]) == Some(p)
  {
    if json != [] {
      ProductsMembership(json[1..], p);
      if exists i :: 0 <= i < |json| && MapRow(json[i]) == Some(p) {
        var i :| 0 <= i < |json| && MapRow(json[i]) == Some(p);
        if i > 0 {
          assert json[1..][i - 1] == json[i];
        }
      }
      if exists i :: 0 <= i < |json[1..]| && MapRow(json[1..][i]) == Some(p) {
        var i :| 0 <= i < |json[1..]| && MapRow(json[1..][i]) == Some(p);
        assert json[i + 1] == json[1..][i];
      }
    }
  }

  /** Every product of the preview has a positive price, an offer that is
      null or a number, and boolean flags. */
  lemma MappedProduct(row: SheetRow)
    requires MapRow(row).Some?
    ensures var p := MapRow(row).value;
      (ToNumber(p.precio) == Infinite(false) || (ToNumber(p.precio).Fin? && ToNumber(p.precio).r > 0.0)) &&
      ToNumber(p.precio) == ToNumber(Cell(row, "precio")) &&
      (p.precioOferta == Null || !ToNumber(p.precioOferta).NaN?) &&
      p.disponible.Bool? && p.ofertaGeneral.Bool? && p.ofertaSemana.Bool? &&
      (!Cell(row, "disponible").Bool? ==> p.disponible == Bool(true)) &&
      (!Cell(row, "ofertaGeneral").Bool? ==> p.ofertaGeneral == Bool(false)) &&
      (!Cell(row, "ofertaSemana").Bool? ==> p.ofertaSemana == Bool(false))
  {
  }

  /** Every product of a preview is one of these. */
  lemma PreviewProducts(json: seq<SheetRow>, p: ProductRecord)
    requires ParseRows(json).Ok? && p in ParseRows(json).value
    ensures exists i :: 0 <= i < |json| && MapRow(json[i]) == Some(p)
    ensures ToNumber(p.precio) == Infinite(false) || (ToNumber(p.precio).Fin? && ToNumber(p.precio).r > 0.0)
  {
    ProductsMembership(json, p);
    var i :| 0 <= i < |json| && MapRow(json[i]) == Some(p);
    MappedProduct(json[i]);
  }
}

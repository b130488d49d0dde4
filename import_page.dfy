/** The Excel import page: the preview rows read from the sheet, each given
    a category, edited cell by cell, then created one after the other until
    a row is incomplete or `createProduct` refuses one. */
module ImportPage {
  import opened JsValue
  import opened ProductsService
  import opened ExcelService
  import Lists

  const IncompleteMessage := "Hay filas incompletas. Revisá la preview."

  /** `rows.map((row) => ({ ...row, categoria: row.categoria || "" }))` */
  function WithCategories(rows: seq<ProductRecord>): (r: seq<ProductRecord>)
    ensures |r| == |rows|
    ensures forall i :: 0 <= i < |rows| ==>
      GetField(r[i], Categoria) == Or(rows[i].categoria, Str("")) &&
      (r[i].categoria == Str("") || Truthy(r[i].categoria)) &&
      forall g :: g != Categoria ==> GetField(r[i], g) == GetField(rows[i], g)
  {
    seq(|rows|, i requires 0 <= i < |rows| => SetField(rows[i], Categoria, Or(rows[i].categoria, Str(""))))
  }

  /** What the page shows after a file is read: the preview rows and the
      error text. */
  datatype Preview = Preview(rows: seq<ProductRecord>, error: string)

  /** `handleFile` once `parseExcelFile` settles on the sheet's rows: the
      rows with their categories, or no rows and the rejection's message. */
  function HandleFile(json: seq<SheetRow>): (v: Preview)
    ensures ParseRows(json).Err? ==> v == Preview([], ParseRows(json).message)
    ensures ParseRows(json).Ok? ==> v == Preview(WithCategories(ParseRows(json).value), "")
  {
    match ParseRows(json)
    case Err(m) => Preview([], m)
    case Ok(rows) => Preview(WithCategories(rows), "")
  }

  /** `updateRow(index, key, value)` */
  function UpdateRow(rows: seq<ProductRecord>, index: int, key: Field, value: Value): (r: seq<ProductRecord>)
    ensures |r| == |rows|
    ensures forall i :: 0 <= i < |rows| && i != index ==> r[i] == rows[i]
    ensures 0 <= index < |rows| ==>
      GetField(r[index], key) == value &&
      forall g :: g != key ==> GetField(r[index], g) == GetField(rows[index], g)
  {
    seq(|rows|, i requires 0 <= i < |rows| => if i == index then SetField(rows[i], key, value) else rows[i])
  }

  /** An index outside the rows changes nothing. */
  lemma UpdateOutside(rows: seq<ProductRecord>, index: int, key: Field, value: Value)
    requires index < 0 || index >= |rows|
    ensures UpdateRow(rows, index, key, value) == rows
  {
  }

  // ------------------------------------------------------------- the import

  /** `!row.nombre || !row.precio || !row.categoria` */
  predicate Incomplete(row: ProductRecord) {
    !Truthy(row.nombre) || !Truthy(row.precio) || !Truthy(row.categoria)
  }

  /** A row lacking its name, price or category, or with a price of 0 or an
      empty name, is incomplete. */
  lemma IncompleteWhenMissing(row: ProductRecord)
    ensures Nullish(row.nombre) || Nullish(row.precio) || Nullish(row.categoria) ==> Incomplete(row)
    ensures row.precio == Num(0.0) || row.nombre == Str("") ==> Incomplete(row)
  {
  }

  /** The products written, in order, and the error shown when the import
      stopped; no error means the success alert and the move to the list. */
  datatype Imported = Imported(created: seq<ProductRecord>, error: Option<string>)

  /** The loop of `handleImport`, each row created under the key `ids[i]`
      that `push` gives it, at time `now`. */
  function Import(rows: seq<ProductRecord>, ids: seq<string>, now: int): (r: Imported)
    requires |ids| == |rows|
    ensures |r.created| <= |rows|
    decreases |rows|
  {
    if rows == [] then Imported([], None)
    else if Incomplete(rows[0]) then Imported([], Some(IncompleteMessage))
    else match CreateProduct(rows[0], ids[0], now)
      case Err(m) => Imported([], Some(m))
      case Ok(w) =>
        var rest := Import(rows[1..], ids[1..], now);
        Imported([w] + rest.created, rest.error)
  }

  /** One turn of the loop on the rows from `i` on. */
  lemma ImportStep(rows: seq<ProductRecord>, ids: seq<string>, now: int, i: nat)
    requires |ids| == |rows| && i < |rows|
    ensures var r := Import(rows[i..], ids[i..], now);
      (Incomplete(rows[i]) ==> r == Imported([], Some(IncompleteMessage))) &&
      (!Incomplete(rows[i]) && CreateProduct(rows[i], ids[i], now).Err? ==>
        r == Imported([], Some(CreateProduct(rows[i], ids[i], now).message))) &&
      (!Incomplete(rows[i]) && CreateProduct(rows[i], ids[i], now).Ok? ==>
        var rest := Import(rows[i + 1..], ids[i + 1..], now);
        r == Imported([CreateProduct(rows[i], ids[i], now).value] + rest.created, rest.error))
  {
    assert rows[i..][0] == rows[i] && ids[i..][0] == ids[i];
    assert rows[i..][1..] == rows[i + 1..] && ids[i..][1..] == ids[i + 1..];
  }

  /** `handleImport`: the rows created one at a time, stopping at the first
      that is incomplete or refused. */
  method HandleImport(rows: seq<ProductRecord>, ids: seq<string>, now: int) returns (r: Imported)
    requires |ids| == |rows|
    ensures r == Import(rows, ids, now)
  {
    var created: seq<ProductRecord> := [];
    var i := 0;
    assert rows[0..] == rows && ids[0..] == ids;
    while i < |rows|
      invariant 0 <= i <= |rows|
      invariant Resumes(rows, ids, now, i, created)
    {
      if Incomplete(rows[i]) {
        StopsIncomplete(rows, ids, now, i, created);
        return Imported(created, Some(IncompleteMessage));
      }
      var w := CreateProduct(rows[i], ids[i], now);
      if w.Err? {
        StopsRefused(rows, ids, now, i, created);
        return Imported(created, Some(w.message));
      }
      CarriesOn(rows, ids, now, i, created);
      created := created + [w.value];
      i := i + 1;
    }
    assert rows[i..] == [] && ids[i..] == [];
    r := Imported(created, None);
  }

  /** The loop's invariant: the products `created` so far, followed by what
      the import of the rows from `i` on gives, are the whole import. */
  predicate Resumes(rows: seq<ProductRecord>, ids: seq<string>, now: int, i: int, created: seq<ProductRecord>)
    requires |ids| == |rows| && 0 <= i <= |rows|
  {
    var tail := Import(rows[i..], ids[i..], now);
    Import(rows, ids, now) == Imported(created + tail.created, tail.error)
  }

  /** An incomplete row stops the import with the incomplete-rows message. */
  lemma StopsIncomplete(rows: seq<ProductRecord>, ids: seq<string>, now: int, i: int, created: seq<ProductRecord>)
    requires |ids| == |rows| && 0 <= i < |rows| && Resumes(rows, ids, now, i, created)
    requires Incomplete(rows[i])
    ensures Import(rows, ids, now) == Imported(created, Some(IncompleteMessage))
  {
    ImportStep(rows, ids, now, i);
  }

  /** A row `createProduct` refuses stops the import with its message. */
  lemma StopsRefused(rows: seq<ProductRecord>, ids: seq<string>, now: int, i: int, created: seq<ProductRecord>)
    requires |ids| == |rows| && 0 <= i < |rows| && Resumes(rows, ids, now, i, created)
    requires !Incomplete(rows[i]) && CreateProduct(rows[i], ids[i], now).Err?
    ensures Import(rows, ids, now) == Imported(created, Some(CreateProduct(rows[i], ids[i], now).message))
  {
    ImportStep(rows, ids, now, i);
  }

  /** A row that passes is written, and the import goes on with the next. */
  lemma CarriesOn(rows: seq<ProductRecord>, ids: seq<string>, now: int, i: int, created: seq<ProductRecord>)
    requires |ids| == |rows| && 0 <= i < |rows| && Resumes(rows, ids, now, i, created)
    requires !Incomplete(rows[i]) && CreateProduct(rows[i], ids[i], now).Ok?
    ensures Resumes(rows, ids, now, i + 1, created + [CreateProduct(rows[i], ids[i], now).value])
  {
    ImportStep(rows, ids, now, i);
    ShiftCreated(Import(rows, ids, now), created, Import(rows[i..], ids[i..], now),
                 CreateProduct(rows[i], ids[i], now).value, Import(rows[i + 1..], ids[i + 1..], now));
  }

  /** Moving the first product of the rest of an import onto the products
      already created leaves the whole import as it is. */
  lemma ShiftCreated(whole: Imported, created: seq<ProductRecord>, tail: Imported, w: ProductRecord, rest: Imported)
    requires whole == Imported(created + tail.created, tail.error)
    requires tail == Imported([w] + rest.created, rest.error)
    ensures whole == Imported((created + [w]) + rest.created, rest.error)
  {
    assert created + ([w] + rest.created) == (created + [w]) + rest.created;
  }

  /** A row is created when it is complete and `createProduct` accepts it. */
  predicate Passes(row: ProductRecord, id: string, now: int) {
    !Incomplete(row) && CreateProduct(row, id, now).Ok?
  }

  lemma MessagesDiffer()
    ensures IncompleteMessage != InvalidPriceMessage && IncompleteMessage != OfferTooHighMessage
  {
    assert |IncompleteMessage| == 41;
  }

  /** The import writes the rows before the first that does not pass, each
      as `createProduct` writes it, and stops there with the incomplete-rows
      message exactly when that row is incomplete: the number created is the
      index of the row it stopped at. */
  lemma {:induction false} ImportStopsAtFirstFailure(rows: seq<ProductRecord>, ids: seq<string>, now: int)
    requires |ids| == |rows|
    ensures var r := Import(rows, ids, now);
      var n := |r.created|;
      (forall j :: 0 <= j < n ==> Passes(rows[j], ids[j], now) && r.created[j] == CreateProduct(rows[j], ids[j], now).value) &&
      (r.error.None? <==> n == |rows|) &&
      (r.error.Some? ==>
        !Passes(rows[n], ids[n], now) && (r.error == Some(IncompleteMessage) <==> Incomplete(rows[n])))
    decreases |rows|
  {
    MessagesDiffer();
    if rows == [] {
    } else if Incomplete(rows[0]) {
      assert Import(rows, ids, now) == Imported([], Some(IncompleteMessage));
    } else if CreateProduct(rows[0], ids[0], now).Err? {
      var m := CreateProduct(rows[0], ids[0], now).message;
      assert Import(rows, ids, now) == Imported([], Some(m));
      assert m != IncompleteMessage;
    } else {
      ImportStopsAtFirstFailure(rows[1..], ids[1..], now);
      ConsPrefix(rows, ids, now);
      ConsStops(rows, ids, now);
    }
  }

  /** The products created are written for the first rows, in order, each
      passing and each as `createProduct` writes it. */
  predicate PrefixPasses(rows: seq<ProductRecord>, ids: seq<string>, now: int, created: seq<ProductRecord>)
    requires |ids| == |rows| && |created| <= |rows|
  {
    forall j :: 0 <= j < |created| ==> WrittenAs(now)(rows[j], ids[j], created[j])
  }

  /** `w` is the product `createProduct` writes at time `now` for a row that
      passes. */
  function WrittenAs(now: int): (ProductRecord, string, ProductRecord) -> bool {
    (row: ProductRecord, id: string, w: ProductRecord) => Passes(row, id, now) && w == CreateProduct(row, id, now).value
  }

  /** The import ends before the last row exactly at a row that does not
      pass, with the incomplete-rows message exactly when that row is
      incomplete. */
  predicate StopsRight(rows: seq<ProductRecord>, ids: seq<string>, now: int, r: Imported)
    requires |ids| == |rows| && |r.created| <= |rows|
  {
    (r.error.None? <==> |r.created| == |rows|) &&
    (r.error.Some? ==>
      !Passes(rows[|r.created|], ids[|r.created|], now) &&
      (r.error == Some(IncompleteMessage) <==> Incomplete(rows[|r.created|])))
  }

  /** A first row that passes is written first, ahead of what the rest writes. */
  lemma ConsPrefix(rows: seq<ProductRecord>, ids: seq<string>, now: int)
    requires |ids| == |rows| && rows != [] && Passes(rows[0], ids[0], now)
    requires PrefixPasses(rows[1..], ids[1..], now, Import(rows[1..], ids[1..], now).created)
    ensures PrefixPasses(rows, ids, now, Import(rows, ids, now).created)
  {
    var rest := Import(rows[1..], ids[1..], now);
    var w := CreateProduct(rows[0], ids[0], now).value;
    assert Import(rows, ids, now).created == [w] + rest.created;
    PrefixPassesCons(rows, ids, now, w, rest.created);
  }

  /** The same, on the created products alone. */
  lemma PrefixPassesCons(rows: seq<ProductRecord>, ids: seq<string>, now: int, w: ProductRecord, rest: seq<ProductRecord>)
    requires |ids| == |rows| && |rest| < |rows|
    requires Passes(rows[0], ids[0], now) && w == CreateProduct(rows[0], ids[0], now).value
    requires PrefixPasses(rows[1..], ids[1..], now, rest)
    ensures PrefixPasses(rows, ids, now, [w] + rest)
  {
    Lists.ConsAlong(rows, ids, w, rest, WrittenAs(now));
  }

  /** After a first row that passes, the import stops where the rest stops,
      one row further on. */
  lemma ConsStops(rows: seq<ProductRecord>, ids: seq<string>, now: int)
    requires |ids| == |rows| && rows != [] && Passes(rows[0], ids[0], now)
    requires StopsRight(rows[1..], ids[1..], now, Import(rows[1..], ids[1..], now))
    ensures StopsRight(rows, ids, now, Import(rows, ids, now))
  {
    var rest := Import(rows[1..], ids[1..], now);
    var r := Import(rows, ids, now);
    assert r == Imported([CreateProduct(rows[0], ids[0], now).value] + rest.created, rest.error);
    var n, m := |r.created|, |rest.created|;
    assert n == m + 1;
    if r.error.Some? {
      assert rows[1..][m] == rows[n] && ids[1..][m] == ids[n];
    }
  }

  /** The success alert and the navigation happen exactly when every row
      passes. */
  lemma {:induction false} ImportSucceedsIffAllPass(rows: seq<ProductRecord>, ids: seq<string>, now: int)
    requires |ids| == |rows|
    ensures Import(rows, ids, now).error.None? <==> forall j :: 0 <= j < |rows| ==> Passes(rows[j], ids[j], now)
  {
    ImportStopsAtFirstFailure(rows, ids, now);
  }
}

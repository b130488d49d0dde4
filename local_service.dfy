/** The store's commercial data as the service reads it from the realtime
    database: the address, the shipping cost, the social links and the
    opening hours of the seven days, each field filled with a default when
    nothing is stored. Stored values that are present pass through as they
    are, whatever their type. */
module LocalService {
  import opened JsValue

  /** `DIAS`: the day keys, Monday first. */
  const Dias: seq<string> := ["lunes", "martes", "miércoles", "jueves", "viernes", "sábado", "domingo"]

  /** One day of `horarios` as the service returns it: `cerrado`, `franja1`
      and `franja2`, each the stored value or its default. */
  datatype LocalDay = LocalDay(cerrado: Value, franja1: Value, franja2: Value)

  /** The `redes` object the service returns. */
  datatype Redes = Redes(instagram: Value, whatsapp: Value, facebook: Value, telegram: Value, email: Value)

  /** What `getLocalData` resolves to. */
  datatype LocalData = LocalData(direccion: Value, delivery: Value, redes: Redes,
                                 horarios: map<string, LocalDay>)

  /** A time band `{ desde, hasta }`. */
  function BandValue(desde: string, hasta: string): Value {
    Obj(map["desde" := Str(desde), "hasta" := Str(hasta)])
  }

  /** `data?.horarios?.[dia]` */
  function StoredDay(data: Value, dia: string): Value {
    Get2(data, "horarios", dia)
  }

  /** One day filled in: `cerrado` defaults to false, the morning band to
      08:00–12:00 and the afternoon band to 16:00–20:00. */
  function NormalizeDay(stored: Value): LocalDay {
    LocalDay(Coalesce(Get(stored, "cerrado"), Bool(false)),
             Coalesce(Get(stored, "franja1"), BandValue("08:00", "12:00")),
             Coalesce(Get(stored, "franja2"), BandValue("16:00", "20:00")))
  }

  /** What `normalizeHorarios(data)` computes: an entry for every day key. */
  function Horarios(data: Value): map<string, LocalDay> {
    map dia | dia in Dias :: NormalizeDay(StoredDay(data, dia))
  }

  /** Each field of a day is the stored value unless that is null or
      undefined; absent values get their default. A missing `cerrado` is
      false for every day, Sunday included. */
  lemma NormalizeDayFields(stored: Value)
    ensures var d := NormalizeDay(stored);
      (Nullish(Get(stored, "cerrado")) ==> d.cerrado == Bool(false)) &&
      (!Nullish(Get(stored, "cerrado")) ==> d.cerrado == Get(stored, "cerrado")) &&
      (Nullish(Get(stored, "franja1")) ==> d.franja1 == BandValue("08:00", "12:00")) &&
      (!Nullish(Get(stored, "franja1")) ==> d.franja1 == Get(stored, "franja1")) &&
      (Nullish(Get(stored, "franja2")) ==> d.franja2 == BandValue("16:00", "20:00")) &&
      (!Nullish(Get(stored, "franja2")) ==> d.franja2 == Get(stored, "franja2"))
  {
  }

  /** `normalizeHorarios(data)`: the `forEach` over the day keys. */
  method NormalizeHorarios(data: Value) returns (horarios: map<string, LocalDay>)
    ensures horarios == Horarios(data)
  {
    horarios := map[];
    for i := 0 to |Dias|
      invariant forall dia :: dia in horarios <==> dia in Dias[..i]
      invariant forall dia :: dia in horarios ==> horarios[dia] == NormalizeDay(StoredDay(data, dia))
    {
      var dia := Dias[i];
      assert Dias[..i + 1] == Dias[..i] + [dia];
      horarios := horarios[dia := NormalizeDay(StoredDay(data, dia))];
    }
    assert Dias[..|Dias|] == Dias;
  }

  /** The seven keys are seven different days. */
  lemma DiasDistinct()
    ensures |Dias| == 7
    ensures forall i, j :: 0 <= i < j < |Dias| ==> Dias[i] != Dias[j]
  {
  }

  /** Whatever is stored, the result has exactly the seven day keys, and a
      day with nothing stored is open from 08:00 to 12:00 and 16:00 to 20:00. */
  lemma HorariosKeys(data: Value)
    ensures forall dia :: dia in Horarios(data) <==> dia in Dias
    ensures forall dia :: dia in Dias && Nullish(StoredDay(data, dia)) ==>
      Horarios(data)[dia] == LocalDay(Bool(false), BandValue("08:00", "12:00"), BandValue("16:00", "20:00"))
  {
  }

  /** `data.redes?.x ?? ""` for each of the five links. */
  function RedesOf(data: Value): Redes {
    Redes(Coalesce(Get2(data, "redes", "instagram"), Str("")),
          Coalesce(Get2(data, "redes", "whatsapp"), Str("")),
          Coalesce(Get2(data, "redes", "facebook"), Str("")),
          Coalesce(Get2(data, "redes", "telegram"), Str("")),
          Coalesce(Get2(data, "redes", "email"), Str("")))
  }

  /** The object built from `data`, which must not be null or undefined
      (`data.direccion` would throw). */
  function LocalDataOf(data: Value): LocalData
    requires !Nullish(data)
  {
    LocalData(Coalesce(Get(data, "direccion"), Str("")),
              Coalesce(Get(data, "delivery"), Num(0.0)),
              RedesOf(data), Horarios(data))
  }

  /** `getLocalData()`: `snap.exists() ? snap.val() : {}`; a failed read, or
      a stored null that `data.direccion` cannot read, rejects (None). */
  function GetLocalData(read: Read): (r: Option<LocalData>)
    ensures r.None? <==> read.Failed? || (read.Found? && Nullish(read.value))
  {
    match read
    case Failed => None
    case Missing => Some(LocalDataOf(Obj(map[])))
    case Found(v) => if Nullish(v) then None else Some(LocalDataOf(v))
  }

  /** With nothing stored the address and every link are "", the shipping
      cost is 0 and every day gets the defaults. */
  lemma GetLocalDataMissing()
    ensures var d := GetLocalData(Missing).value;
      d.direccion == Str("") && d.delivery == Num(0.0) &&
      d.redes == Redes(Str(""), Str(""), Str(""), Str(""), Str("")) &&
      forall dia :: dia in Dias ==>
        (dia in d.horarios &&
         d.horarios[dia] == LocalDay(Bool(false), BandValue("08:00", "12:00"), BandValue("16:00", "20:00")))
  {
    HorariosKeys(Obj(map[]));
  }

  /** `kept` is `stored ?? fallback`: the stored value when present. */
  predicate KeptOr(stored: Value, kept: Value, fallback: Value) {
    (Nullish(stored) ==> kept == fallback) && (!Nullish(stored) ==> kept == stored)
  }

  /** Stored values that are present are kept; absent ones get "" and 0. */
  lemma GetLocalDataFields(v: Value)
    requires !Nullish(v)
    ensures var d := GetLocalData(Found(v)).value;
      KeptOr(Get(v, "direccion"), d.direccion, Str("")) &&
      KeptOr(Get(v, "delivery"), d.delivery, Num(0.0)) &&
      KeptOr(Get2(v, "redes", "instagram"), d.redes.instagram, Str("")) &&
      KeptOr(Get2(v, "redes", "whatsapp"), d.redes.whatsapp, Str("")) &&
      KeptOr(Get2(v, "redes", "facebook"), d.redes.facebook, Str("")) &&
      KeptOr(Get2(v, "redes", "telegram"), d.redes.telegram, Str("")) &&
      KeptOr(Get2(v, "redes", "email"), d.redes.email, Str("")) &&
      d.horarios == Horarios(v)
  {
  }
}

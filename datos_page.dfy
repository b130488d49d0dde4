/** The admin page for the store's commercial data: it loads the data,
    normalises the opening hours of the seven days, edits single fields by a
    dotted path, keeps a selection of days and applies one block of hours to
    all selected days at once. The form is a JavaScript object; the per-day
    schedule the page builds is typed here as `Day`. */
module DatosPage {
  import opened JsText
  import opened JsValue
  import opened Lists
  import opened Sorting
  import LS = LocalService

  // ------------------------------------------------------------- the week

  /** An entry of `DIAS`. */
  datatype Dia = Dia(key: string, short: string)

  /** `DIAS`, Monday first, with the short labels. */
  const Dias: seq<Dia> := [Dia("lunes", "Lun"), Dia("martes", "Mar"), Dia("miércoles", "Mié"),
                           Dia("jueves", "Jue"), Dia("viernes", "Vie"), Dia("sábado", "Sáb"),
                           Dia("domingo", "Dom")]

  /** `DIAS.map((d) => d.key)` */
  function Keys(dias: seq<Dia>): (ks: seq<string>)
    ensures |ks| == |dias| && forall i :: 0 <= i < |dias| ==> ks[i] == dias[i].key
  {
    if dias == [] then [] else [dias[0].key] + Keys(dias[1..])
  }

  function DayKeys(): seq<string> { Keys(Dias) }

  /** The page's keys are the service's keys, in the same order. */
  lemma SameWeek()
    ensures DayKeys() == LS.Dias
  {
  }

  // --------------------------------------------------------- the schedule

  /** A time band `{ desde, hasta }`. */
  datatype Band = Band(desde: string, hasta: string)

  /** One day: closed or open, and its two bands. */
  datatype Day = Day(cerrado: bool, franja1: Band, franja2: Band)

  function EmptyBand(): Band { Band("", "") }

  /** A closed day, both bands empty. */
  function ClosedDay(): Day { Day(true, EmptyBand(), EmptyBand()) }

  /** `DEFAULT_DAY(cerrado)` */
  function DefaultDay(cerrado: bool): Day {
    Day(cerrado, Band("07:30", "12:45"), Band("15:30", "21:00"))
  }

  /** `DEFAULT_HORARIOS[key]` for a day key: Sunday closed, the rest open. */
  function DefaultHorarios(key: string): Day {
    if key == "domingo" then ClosedDay() else DefaultDay(false)
  }

  /** `safeTime(value)` */
  function SafeTime(v: Value): (t: string)
    ensures v.Str? ==> t == v.s
    ensures !v.Str? ==> t == ""
  {
    if v.Str? then v.s else ""
  }

  /** `horarios?.[key] || {}` */
  function Source(horarios: Value, key: string): Value {
    Or(Get(horarios, key), Obj(map[]))
  }

  /** `src?.franjaN?.x ?? base.franjaN.x` through `safeTime`. */
  function BandTime(src: Value, franja: string, end: string, default: string): string {
    SafeTime(Coalesce(Get2(src, franja, end), Str(default)))
  }

  /** One day of `normalizeHorarios`: `cerrado` from the stored day only when
      it is a boolean, the four times through `safeTime`, and the bands
      emptied again when the day is closed. */
  function NormalizeDay(src: Value, base: Day): Day {
    var stored := Get(src, "cerrado");
    var cerrado := if stored.Bool? then stored.b else base.cerrado;
    if cerrado then ClosedDay()
    else Day(false,
             Band(BandTime(src, "franja1", "desde", base.franja1.desde),
                  BandTime(src, "franja1", "hasta", base.franja1.hasta)),
             Band(BandTime(src, "franja2", "desde", base.franja2.desde),
                  BandTime(src, "franja2", "hasta", base.franja2.hasta)))
  }

  /** What `normalizeHorarios(horarios)` computes. */
  function Horarios(horarios: Value): map<string, Day> {
    map key | key in DayKeys() :: NormalizeDay(Source(horarios, key), DefaultHorarios(key))
  }

  /** `normalizeHorarios(horarios)` */
  method NormalizeHorarios(horarios: Value) returns (out: map<string, Day>)
    ensures out == Horarios(horarios)
  {
    out := NormalizeDays(horarios, DayKeys());
  }

  /** The `for ... of DIAS` loop of `normalizeHorarios`, over the keys `keys`. */
  method NormalizeDays(horarios: Value, keys: seq<string>) returns (out: map<string, Day>)
    ensures out == map key | key in keys :: NormalizeDay(Source(horarios, key), DefaultHorarios(key))
  {
    out := map[];
    for i := 0 to |keys|
      invariant forall key :: key in out <==> key in keys[..i]
      invariant forall key :: key in out ==> out[key] == NormalizeDay(Source(horarios, key), DefaultHorarios(key))
    {
      var key := keys[i];
      var day := NormalizeOne(Source(horarios, key), DefaultHorarios(key));
      out := out[key := day];
      assert keys[..i + 1] == keys[..i] + [key];
    }
    assert keys[..|keys|] == keys;
  }

  /** The body of the loop for one day: the day written from `src` and
      `base`, then both bands emptied when it is closed. */
  method NormalizeOne(src: Value, base: Day) returns (day: Day)
    ensures day == NormalizeDay(src, base)
  {
    var stored := Get(src, "cerrado");
    day := Day(if stored.Bool? then stored.b else base.cerrado,
               Band(BandTime(src, "franja1", "desde", base.franja1.desde),
                    BandTime(src, "franja1", "hasta", base.franja1.hasta)),
               Band(BandTime(src, "franja2", "desde", base.franja2.desde),
                    BandTime(src, "franja2", "hasta", base.franja2.hasta)));
    if day.cerrado {
      day := day.(franja1 := EmptyBand());
      day := day.(franja2 := EmptyBand());
    }
  }

  /** Whatever is passed in, the result has exactly the seven day keys. */
  lemma HorariosKeys(horarios: Value)
    ensures forall key :: key in Horarios(horarios) <==> key in DayKeys()
    ensures |DayKeys()| == 7
  {
  }

  /** `cerrado` is the stored one when that is a boolean and the day's
      default otherwise (Sunday closed, the other days open); a closed day has
      both bands empty; an open day's times are the stored strings, the
      default times where nothing is stored, and "" for anything else. */
  lemma NormalizeDayMeaning(src: Value, base: Day)
    ensures var d := NormalizeDay(src, base); var c := Get(src, "cerrado");
      (c.Bool? ==> d.cerrado == c.b) && (!c.Bool? ==> d.cerrado == base.cerrado) &&
      (d.cerrado ==> d.franja1 == EmptyBand() && d.franja2 == EmptyBand()) &&
      (!d.cerrado ==>
        var t := Get2(src, "franja1", "desde");
        (Nullish(t) ==> d.franja1.desde == base.franja1.desde) &&
        (t.Str? ==> d.franja1.desde == t.s) &&
        (!Nullish(t) && !t.Str? ==> d.franja1.desde == ""))
  {
  }

  lemma DefaultHorariosCerrado(key: string)
    ensures DefaultHorarios(key).cerrado <==> key == "domingo"
  {
  }

  // --------------------------------------------------- the form as an object

  function BandValue(b: Band): Value {
    Obj(map["desde" := Str(b.desde), "hasta" := Str(b.hasta)])
  }

  function DayValue(d: Day): Value {
    Obj(map["cerrado" := Bool(d.cerrado), "franja1" := BandValue(d.franja1), "franja2" := BandValue(d.franja2)])
  }

  function HorariosValue(h: map<string, Day>): Value {
    Obj(map key | key in h :: DayValue(h[key]))
  }

  /** A day as the service returns it, as an object. */
  function LocalDayValue(d: LS.LocalDay): Value {
    Obj(map["cerrado" := d.cerrado, "franja1" := d.franja1, "franja2" := d.franja2])
  }

  /** `data.horarios` as the service returns it, as an object. */
  function LocalHorariosValue(h: map<string, LS.LocalDay>): Value {
    Obj(map key | key in h :: LocalDayValue(h[key]))
  }

  function RedesValue(r: LS.Redes): Value {
    Obj(map["instagram" := r.instagram, "whatsapp" := r.whatsapp, "facebook" := r.facebook,
            "telegram" := r.telegram, "email" := r.email])
  }

  /** `Number.isFinite(Number(data?.delivery)) ? Number(data?.delivery) : 0` */
  function DeliveryOf(stored: Value): (cost: real)
    ensures ToNumber(stored).Fin? ==> cost == ToNumber(stored).r
    ensures !ToNumber(stored).Fin? ==> cost == 0.0
  {
    var n := ToNumber(stored);
    if n.Fin? then n.r else 0.0
  }

  /** The form `load` builds from the service's data. The spread `...data`
      adds nothing: the service's object has exactly the four keys set here. */
  function LoadedForm(direccion: Value, delivery: real, redes: Value, horarios: map<string, Day>): Value {
    Obj(map["direccion" := direccion, "delivery" := Num(delivery), "redes" := redes,
            "horarios" := HorariosValue(horarios)])
  }

  /** The `normalized` object of `load`. */
  function Normalized(data: LS.LocalData): Value {
    LoadedForm(Or(data.direccion, Str("")), DeliveryOf(data.delivery),
               Or(RedesValue(data.redes), Obj(map[])), Horarios(LocalHorariosValue(data.horarios)))
  }

  /** A service day read back by the page: the stored object is truthy, so
      its fields are what `normalizeHorarios` reads. */
  lemma SourceOfLocalDay(h: map<string, LS.LocalDay>, key: string)
    requires key in h
    ensures var src := Source(LocalHorariosValue(h), key); var d := h[key];
      Get(src, "cerrado") == d.cerrado && Get(src, "franja1") == d.franja1 && Get(src, "franja2") == d.franja2
  {
    assert Get(LocalHorariosValue(h), key) == LocalDayValue(h[key]);
  }

  /** A day whose `cerrado` is false and whose bands are objects of two
      strings is open with exactly those bands. */
  lemma NormalizeOpenDay(src: Value, base: Day, a: string, b: string, c: string, d: string)
    requires Get(src, "cerrado") == Bool(false)
    requires Get(src, "franja1") == LS.BandValue(a, b) && Get(src, "franja2") == LS.BandValue(c, d)
    ensures NormalizeDay(src, base) == Day(false, Band(a, b), Band(c, d))
  {
    assert Get2(src, "franja1", "desde") == Str(a) && Get2(src, "franja1", "hasta") == Str(b);
    assert Get2(src, "franja2", "desde") == Str(c) && Get2(src, "franja2", "hasta") == Str(d);
  }

  /** With nothing stored, the service fills in `cerrado: false` and the
      08:00–12:00 / 16:00–20:00 bands before the page's own defaults are
      consulted, so after a load every day is open with the service's
      bands. Sunday is not closed: the page's Sunday default never applies. */
  lemma LoadWithNothingStored(key: string)
    requires key in DayKeys()
    ensures var data := LS.GetLocalData(Missing).value;
      Horarios(LocalHorariosValue(data.horarios))[key] == Day(false, Band("08:00", "12:00"), Band("16:00", "20:00"))
  {
    var data := LS.GetLocalData(Missing).value;
    SameWeek();
    LS.GetLocalDataMissing();
    assert key in data.horarios;
    SourceOfLocalDay(data.horarios, key);
    NormalizeOpenDay(Source(LocalHorariosValue(data.horarios), key), DefaultHorarios(key),
                     "08:00", "12:00", "16:00", "20:00");
  }

  // ----------------------------------------------------- dotted-path update

  /** The value reached by reading `keys` one after another (`v?.[k1]?.[k2]...`). */
  function GetPath(v: Value, keys: seq<string>): (r: Value)
    ensures keys != [] && r != Undefined ==> v.Obj?
    decreases |keys|
  {
    if keys == [] then v else GetPath(Get(v, keys[0]), keys[1..])
  }

  /** The body of `update`'s updater on the copy `v`: walk to the object
      holding the last key and assign there. Reading a key of null or
      undefined, or assigning a key of anything but an object, throws a
      TypeError (None). */
  function SetPath(v: Value, keys: seq<string>, x: Value): (r: Option<Value>)
    requires |keys| >= 1
    ensures !v.Obj? ==> r.None?
    ensures r.Some? ==> v.Obj? && r.value.Obj? && r.value.fields.Keys == v.fields.Keys + {keys[0]}
    decreases |keys|
  {
    if !v.Obj? then None
    else if |keys| == 1 then Some(Obj(v.fields[keys[0] := x]))
    else match SetPath(Get(v, keys[0]), keys[1..], x)
      case None => None
      case Some(child) => Some(Obj(v.fields[keys[0] := child]))
  }

  /** Below anything that is not an object, every path reads undefined. */
  lemma {:induction false} GetPathBelowNonObject(v: Value, keys: seq<string>)
    requires !v.Obj? && |keys| >= 1
    ensures GetPath(v, keys) == Undefined
    decreases |keys|
  {
    if |keys| > 1 {
      GetPathBelowNonObject(Undefined, keys[1..]);
    }
  }

  lemma {:induction false} GetPathAppend(v: Value, a: seq<string>, b: seq<string>)
    ensures GetPath(v, a + b) == GetPath(GetPath(v, a), b)
    decreases |a|
  {
    if a != [] {
      assert (a + b)[0] == a[0] && (a + b)[1..] == a[1..] + b;
      GetPathAppend(Get(v, a[0]), a[1..], b);
    } else {
      assert a + b == b;
    }
  }

  /** The assignment succeeds exactly when the walk ends on an object. */
  lemma {:induction false} SetPathDefined(v: Value, keys: seq<string>, x: Value)
    requires |keys| >= 1
    ensures SetPath(v, keys, x).Some? <==> GetPath(v, keys[..|keys| - 1]).Obj?
    decreases |keys|
  {
    var init := keys[..|keys| - 1];
    if |keys| == 1 {
      assert init == [];
    } else {
      SetPathDefined(Get(v, keys[0]), keys[1..], x);
      assert keys[1..][..|keys[1..]| - 1] == init[1..];
      if !v.Obj? {
        GetPathBelowNonObject(v, init);
      }
    }
  }

  /** After the assignment the path reads the assigned value. */
  lemma {:induction false} SetPathGets(v: Value, keys: seq<string>, x: Value)
    requires |keys| >= 1 && SetPath(v, keys, x).Some?
    ensures GetPath(SetPath(v, keys, x).value, keys) == x
    decreases |keys|
  {
    if |keys| > 1 {
      SetPathGets(Get(v, keys[0]), keys[1..], x);
    }
  }

  /** Every path that neither leads to the assigned one nor goes through it
      reads what it read before. */
  lemma {:induction false} SetPathFrame(v: Value, keys: seq<string>, x: Value, other: seq<string>)
    requires |keys| >= 1 && SetPath(v, keys, x).Some?
    requires !(other <= keys) && !(keys <= other)
    ensures GetPath(SetPath(v, keys, x).value, other) == GetPath(v, other)
    decreases |keys|
  {
    var w := SetPath(v, keys, x).value;
    assert other != [];
    if other[0] != keys[0] {
      assert Get(w, other[0]) == Get(v, other[0]);
    } else {
      assert |keys| == 1 ==> keys <= other;
      assert !(other[1..] <= keys[1..]) && !(keys[1..] <= other[1..]);
      SetPathFrame(Get(v, keys[0]), keys[1..], x, other[1..]);
    }
  }

  /** Every path that goes through the assigned one reads inside the new value. */
  lemma {:induction false} SetPathBelow(v: Value, keys: seq<string>, x: Value, rest: seq<string>)
    requires |keys| >= 1 && SetPath(v, keys, x).Some?
    ensures GetPath(SetPath(v, keys, x).value, keys + rest) == GetPath(x, rest)
  {
    GetPathAppend(SetPath(v, keys, x).value, keys, rest);
    SetPathGets(v, keys, x);
  }

  // ------------------------------------------------------- the day selection

  predicate Distinct(s: seq<string>) {
    forall i, j :: 0 <= i < j < |s| ==> s[i] != s[j]
  }

  function NotDay(k: string): string -> bool { (d: string) => d != k }

  /** `toggleDay(dayKey)`: drop every copy of a selected day, or append an
      unselected one. */
  function Toggle(sel: seq<string>, k: string): (r: seq<string>)
    ensures k in r <==> k !in sel
    ensures |r| <= |sel| + 1
  {
    if k in sel then
      FilterMembership(sel, NotDay(k), k);
      Filter(sel, NotDay(k))
    else sel + [k]
  }

  /** After a toggle, `k` is selected exactly when it was not, and every
      other day keeps its state; a selection without repeats keeps none. */
  lemma ToggleMembership(sel: seq<string>, k: string)
    ensures forall d :: d in Toggle(sel, k) <==> (if d == k then k !in sel else d in sel)
    ensures Distinct(sel) ==> Distinct(Toggle(sel, k))
  {
    if k in sel {
      forall d ensures d in Filter(sel, NotDay(k)) <==> d in sel && d != k {
        FilterMembership(sel, NotDay(k), d);
      }
      if Distinct(sel) {
        FilterKeepsDistinct(sel, NotDay(k));
      }
    }
  }

  lemma {:induction false} FilterKeepsDistinct(s: seq<string>, keep: string -> bool)
    requires Distinct(s)
    ensures Distinct(Filter(s, keep))
  {
    if s != [] {
      FilterKeepsDistinct(s[1..], keep);
      FilterMembership(s[1..], keep, s[0]);
    }
  }

  /** Toggling the same day twice selects the same days as before, and gives
      back the very same list when the day was not selected. */
  lemma ToggleTwice(sel: seq<string>, k: string)
    ensures forall d :: d in Toggle(Toggle(sel, k), k) <==> d in sel
    ensures k !in sel ==> Toggle(Toggle(sel, k), k) == sel
  {
    ToggleMembership(sel, k);
    ToggleMembership(Toggle(sel, k), k);
    if k !in sel {
      FilterConcat(sel, [k], NotDay(k));
      FilterAllKept(sel, NotDay(k));
    }
  }

  /** `order.indexOf(k)`: the first position of `k`, -1 when absent. */
  function IndexIn(keys: seq<string>, k: string): (r: int)
    ensures -1 <= r < |keys|
    ensures r == -1 <==> k !in keys
    ensures r >= 0 ==> keys[r] == k && k !in keys[..r]
  {
    if keys == [] then -1
    else if keys[0] == k then 0
    else
      var j := IndexIn(keys[1..], k);
      if j == -1 then -1 else j + 1
  }

  /** The comparator `(a, b) => order.indexOf(a) - order.indexOf(b)`. */
  function ByIndex(keys: seq<string>): (string, string) -> bool {
    (a: string, b: string) => IndexIn(keys, a) <= IndexIn(keys, b)
  }

  lemma ByIndexPreorder(keys: seq<string>)
    ensures TotalPreorder(ByIndex(keys))
  {
  }

  /** `DIAS.find((d) => d.key === k)?.label || k` */
  function ShortOf(dias: seq<Dia>, k: string): string {
    if dias == [] then k
    else if dias[0].key == k then (if dias[0].short != "" then dias[0].short else k)
    else ShortOf(dias[1..], k)
  }

  function Shorts(dias: seq<Dia>, ks: seq<string>): (r: seq<string>)
    ensures |r| == |ks| && forall i :: 0 <= i < |ks| ==> r[i] == ShortOf(dias, ks[i])
  {
    if ks == [] then [] else [ShortOf(dias, ks[0])] + Shorts(dias, ks[1..])
  }

  /** `selectedLabel` */
  function SelectedLabel(sel: seq<string>): (r: string)
    ensures |sel| == 0 ==> r == "Ningún día seleccionado"
    ensures |sel| == 1 ==> r == ShortOf(Dias, sel[0])
  {
    if |sel| == 0 then "Ningún día seleccionado"
    else
      assert |sel| == 1 ==> sel[1..] == [];
      Join(Shorts(Dias, SortBy(sel, ByIndex(DayKeys()))), " · ")
  }

  /** The labels are those of the selected days, rearranged into week order. */
  lemma SelectedLabelSorted(sel: seq<string>)
    requires |sel| > 0
    ensures var sorted := SortBy(sel, ByIndex(DayKeys()));
      multiset(sorted) == multiset(sel) && SortedBy(sorted, ByIndex(DayKeys())) &&
      SelectedLabel(sel) == Join(Shorts(Dias, sorted), " · ")
  {
    ByIndexPreorder(DayKeys());
    SortBySorted(sel, ByIndex(DayKeys()));
    SortByPermutes(sel, ByIndex(DayKeys()));
  }

  /** `s` lists its elements in strictly increasing position in `keys`. */
  predicate IncreasingIn(s: seq<string>, keys: seq<string>) {
    forall i, j :: 0 <= i < j < |s| ==> IndexIn(keys, s[i]) < IndexIn(keys, s[j])
  }

  /** The first element of such a list has the smallest position, and no
      other element shares it. */
  lemma FirstIsLeast(s: seq<string>, keys: seq<string>, x: string)
    requires IncreasingIn(s, keys) && x in s
    ensures IndexIn(keys, s[0]) <= IndexIn(keys, x)
    ensures IndexIn(keys, x) == IndexIn(keys, s[0]) ==> x == s[0]
  {
    var j :| 0 <= j < |s| && s[j] == x;
    assert j == 0 || IndexIn(keys, s[0]) < IndexIn(keys, s[j]);
  }

  lemma HeadOrEmpty(s: seq<string>)
    ensures s == [] || s[0] in s
  {
  }

  /** The tail of such a list is such a list, and holds exactly the
      elements other than the first. */
  lemma TailOfIncreasing(s: seq<string>, keys: seq<string>)
    requires IncreasingIn(s, keys) && s != []
    ensures IncreasingIn(s[1..], keys)
    ensures forall x :: x in s[1..] <==> x in s && x != s[0]
  {
    forall x | x in s[1..] ensures x != s[0] {
      var i :| 0 <= i < |s[1..]| && s[1..][i] == x;
      assert IndexIn(keys, s[0]) < IndexIn(keys, s[i + 1]);
    }
    forall x | x in s && x != s[0] ensures x in s[1..] {
      var i :| 0 <= i < |s| && s[i] == x;
      assert s[1..][i - 1] == x;
    }
    forall i, j | 0 <= i < j < |s[1..]| ensures IndexIn(keys, s[1..][i]) < IndexIn(keys, s[1..][j]) {
      assert s[1..][i] == s[i + 1] && s[1..][j] == s[j + 1];
    }
  }

  /** Two lists in strictly increasing position that hold the same elements
      are equal. */
  lemma {:induction false} IncreasingUnique(a: seq<string>, b: seq<string>, keys: seq<string>)
    requires IncreasingIn(a, keys) && IncreasingIn(b, keys)
    requires forall x :: x in a <==> x in b
    ensures a == b
  {
    if a == [] {
      HeadOrEmpty(b);
    } else {
      assert a[0] in a;
      assert b != [] && b[0] in b;
      FirstIsLeast(b, keys, a[0]);
      FirstIsLeast(a, keys, b[0]);
      assert a[0] == b[0];
      TailOfIncreasing(a, keys);
      TailOfIncreasing(b, keys);
      IncreasingUnique(a[1..], b[1..], keys);
    }
  }

  /** Each key of a list without repeats sits at its own position. */
  lemma IndexOfDistinct(keys: seq<string>, i: int)
    requires Distinct(keys) && 0 <= i < |keys|
    ensures IndexIn(keys, keys[i]) == i
  {
    var r := IndexIn(keys, keys[i]);
    assert 0 <= r && keys[r] == keys[i];
    assert forall m :: 0 <= m < r ==> keys[..r][m] != keys[i];
  }

  lemma {:induction false} FilterIncreasing(s: seq<string>, keep: string -> bool, keys: seq<string>)
    requires IncreasingIn(s, keys)
    ensures IncreasingIn(Filter(s, keep), keys)
  {
    if s != [] {
      FilterIncreasing(s[1..], keep, keys);
      if keep(s[0]) {
        var r := Filter(s, keep);
        assert r == [s[0]] + Filter(s[1..], keep);
        forall j | 1 <= j < |r| ensures IndexIn(keys, r[0]) < IndexIn(keys, r[j]) {
          FilterMembership(s[1..], keep, r[j]);
          var k :| 0 <= k < |s[1..]| && s[1..][k] == r[j];
          assert s[k + 1] == r[j];
        }
      }
    }
  }

  lemma {:induction false} DistinctMultiset(s: seq<string>, t: seq<string>)
    requires Distinct(s) && multiset(t) == multiset(s)
    ensures Distinct(t)
  {
    forall i, j | 0 <= i < j < |t| ensures t[i] != t[j] {
      if t[i] == t[j] {
        TwiceInMultiset(t, i, j);
        OnceInMultiset(s, t[i]);
      }
    }
  }

  lemma {:induction false} TwiceInMultiset(t: seq<string>, i: int, j: int)
    requires 0 <= i < j < |t| && t[i] == t[j]
    ensures multiset(t)[t[i]] >= 2
  {
    assert t == t[..j] + [t[j]] + t[j + 1..];
    assert t[i] in t[..j];
  }

  lemma {:induction false} OnceInMultiset(s: seq<string>, x: string)
    requires Distinct(s)
    ensures multiset(s)[x] <= 1
  {
    if s != [] {
      assert s == [s[0]] + s[1..];
      OnceInMultiset(s[1..], x);
      if x == s[0] {
        assert x !in s[1..];
      }
    }
  }

  /** A selection of different known days is shown as the labels of exactly
      those days, in week order: spelled out, the days of `keys` kept when
      selected. */
  lemma SortedSelectionIsWeekOrder(sel: seq<string>, keys: seq<string>)
    requires Distinct(keys) && Distinct(sel)
    requires forall d :: d in sel ==> d in keys
    ensures SortBy(sel, ByIndex(keys)) == Filter(keys, (d: string) => d in sel)
  {
    var sorted := SortBy(sel, ByIndex(keys));
    var inWeek := Filter(keys, (d: string) => d in sel);
    SortedSelectionIncreasing(sel, keys);
    KeysIncreasing(keys);
    FilterIncreasing(keys, (d: string) => d in sel, keys);
    SortByPermutes(sel, ByIndex(keys));
    forall x ensures x in sorted <==> x in inWeek {
      FilterMembership(keys, (d: string) => d in sel, x);
      assert x in sorted <==> x in multiset(sel);
    }
    IncreasingUnique(sorted, inWeek, keys);
  }

  /** A selection without repeats, sorted by position, is in strictly
      increasing position. */
  lemma SortedSelectionIncreasing(sel: seq<string>, keys: seq<string>)
    requires Distinct(keys) && Distinct(sel)
    requires forall d :: d in sel ==> d in keys
    ensures IncreasingIn(SortBy(sel, ByIndex(keys)), keys)
  {
    var sorted := SortBy(sel, ByIndex(keys));
    ByIndexPreorder(keys);
    SortBySorted(sel, ByIndex(keys));
    SortByPermutes(sel, ByIndex(keys));
    DistinctMultiset(sel, sorted);
    forall x | x in sorted ensures x in keys {
      assert x in multiset(sel);
    }
    StrictWhenDistinct(sorted, keys);
  }

  /** A list without repeats of known keys, sorted by position, is in
      strictly increasing position. */
  lemma StrictWhenDistinct(t: seq<string>, keys: seq<string>)
    requires Distinct(t) && SortedBy(t, ByIndex(keys))
    requires forall x :: x in t ==> x in keys
    ensures IncreasingIn(t, keys)
  {
    forall i, j | 0 <= i < j < |t| ensures IndexIn(keys, t[i]) < IndexIn(keys, t[j]) {
      assert ByIndex(keys)(t[i], t[j]);
      assert t[i] in keys && t[j] in keys;
    }
  }

  /** A list without repeats is in strictly increasing position in itself. */
  lemma KeysIncreasing(keys: seq<string>)
    requires Distinct(keys)
    ensures IncreasingIn(keys, keys)
  {
    forall i, j | 0 <= i < j < |keys| ensures IndexIn(keys, keys[i]) < IndexIn(keys, keys[j]) {
      IndexOfDistinct(keys, i);
      IndexOfDistinct(keys, j);
    }
  }

  /** The label of a selection of different days of the week lists the
      short names of exactly the selected days, Monday first. */
  lemma LabelInWeekOrder(sel: seq<string>)
    requires |sel| > 0 && Distinct(sel) && forall d :: d in sel ==> d in DayKeys()
    ensures SelectedLabel(sel) == Join(Shorts(Dias, Filter(DayKeys(), (d: string) => d in sel)), " · ")
  {
    assert Distinct(DayKeys()) by { SameWeek(); LS.DiasDistinct(); }
    SortedSelectionIsWeekOrder(sel, DayKeys());
  }

  /** In a list of days with different keys and non-empty labels, each
      key is shown by its own label. */
  lemma {:induction false} ShortOfOwnKey(dias: seq<Dia>, i: int)
    requires 0 <= i < |dias| && Distinct(Keys(dias))
    requires forall j :: 0 <= j < |dias| ==> dias[j].short != ""
    ensures ShortOf(dias, dias[i].key) == dias[i].short
  {
    if i > 0 {
      assert Keys(dias)[0] != Keys(dias)[i];
      assert Keys(dias[1..]) == Keys(dias)[1..];
      ShortOfOwnKey(dias[1..], i - 1);
    }
  }

  /** The short name shown for each day of the week is its label. */
  lemma ShortNames(i: int)
    requires 0 <= i < |Dias|
    ensures ShortOf(Dias, Dias[i].key) == Dias[i].short
  {
    SameWeek();
    LS.DiasDistinct();
    ShortOfOwnKey(Dias, i);
  }

  /** `selectPreset(preset)`: the day lists of the four presets; any other
      preset leaves the selection as it was. */
  function Preset(preset: string, current: seq<string>): (r: seq<string>)
    ensures (forall i :: 0 <= i < |current| ==> current[i] in DayKeys()) ==>
      forall i :: 0 <= i < |r| ==> r[i] in DayKeys()
  {
    SameWeek();
    if preset == "lun-vie" then ["lunes", "martes", "miércoles", "jueves", "viernes"]
    else if preset == "lun-sab" then ["lunes", "martes", "miércoles", "jueves", "viernes", "sábado"]
    else if preset == "todos" then DayKeys()
    else if preset == "ninguno" then []
    else current
  }

  /** Monday to Friday, Monday to Saturday, the whole week, nothing. */
  lemma PresetsAreWeekPrefixes(current: seq<string>)
    ensures Preset("lun-vie", current) == DayKeys()[..5]
    ensures Preset("lun-sab", current) == DayKeys()[..6]
    ensures Preset("todos", current) == DayKeys()
    ensures Preset("ninguno", current) == []
    ensures forall p :: p !in {"lun-vie", "lun-sab", "todos", "ninguno"} ==> Preset(p, current) == current
  {
    SameWeek();
  }

  // ------------------------------------------------------------ bulk editing

  /** The editable block: `bulkClosed` and the four `bulkF...` times. */
  datatype Bulk = Bulk(closed: bool, f1Desde: string, f1Hasta: string, f2Desde: string, f2Hasta: string)

  /** The block's initial state. */
  function InitialBulk(): Bulk { Bulk(false, "07:30", "12:45", "15:30", "21:00") }

  /** The `payload` of `applyBulkToSelected`. */
  function Payload(b: Bulk): Day {
    Day(b.closed,
        if b.closed then EmptyBand() else Band(b.f1Desde, b.f1Hasta),
        if b.closed then EmptyBand() else Band(b.f2Desde, b.f2Hasta))
  }

  /** A closed block writes two empty bands, an open one the block's times. */
  lemma PayloadBands(b: Bulk)
    ensures Payload(b).cerrado == b.closed
    ensures b.closed ==> Payload(b).franja1 == EmptyBand() && Payload(b).franja2 == EmptyBand()
    ensures !b.closed ==> Payload(b).franja1 == Band(b.f1Desde, b.f1Hasta) && Payload(b).franja2 == Band(b.f2Desde, b.f2Hasta)
  {
  }

  /** `DEFAULT_HORARIOS[day]`, undefined for a key that is not a day. */
  function DefaultFor(day: string): Value {
    if day in DayKeys() then DayValue(DefaultHorarios(day)) else Undefined
  }

  /** The schedule after every day of `days` got `payload`. */
  function Assigned(h: map<string, Value>, days: seq<string>, payload: Value): map<string, Value> {
    map k | k in h.Keys + (set d | d in days) :: if k in days then payload else h[k]
  }

  /** The `forEach` of `applyBulkToSelected` on `copy.horarios`: a day with
      no truthy entry first gets its default, and then every selected day
      gets the payload. */
  method AssignDays(h: map<string, Value>, days: seq<string>, payload: Value, defaults: string -> Value)
    returns (out: map<string, Value>)
    ensures out == Assigned(h, days, payload)
  {
    out := h;
    for i := 0 to |days|
      invariant forall k :: k in out <==> k in h || k in days[..i]
      invariant forall k :: k in out ==> out[k] == if k in days[..i] then payload else h[k]
    {
      var day := days[i];
      if !Truthy(Get(Obj(out), day)) {
        out := out[day := defaults(day)];
      }
      out := out[day := payload];
      assert days[..i + 1] == days[..i] + [day];
    }
    assert days[..|days|] == days;
  }

  /** The form after `applyBulkToSelected` with a non-empty selection;
      writing into `copy.horarios` throws unless the form and its schedule
      are objects (None). */
  function BulkApplied(form: Value, days: seq<string>, payload: Value): (r: Option<Value>)
    ensures r.Some? <==> form.Obj? && Get(form, "horarios").Obj?
    ensures r.Some? ==> r.value.Obj? && r.value.fields.Keys == form.fields.Keys + {"horarios"}
  {
    var h := Get(form, "horarios");
    if form.Obj? && h.Obj? then Some(Obj(form.fields["horarios" := Obj(Assigned(h.fields, days, payload))]))
    else None
  }

  /** Every selected day holds the payload, every other day is as it was,
      and nothing outside the schedule changes. */
  lemma BulkAppliedMeaning(form: Value, days: seq<string>, payload: Value)
    requires BulkApplied(form, days, payload).Some?
    ensures var w := BulkApplied(form, days, payload).value;
      (forall d :: d in days ==> Get2(w, "horarios", d) == payload) &&
      (forall k :: k !in days ==> Get2(w, "horarios", k) == Get2(form, "horarios", k)) &&
      (forall k :: k != "horarios" ==> Get(w, k) == Get(form, k))
  {
  }

  /** Sunday closed with empty bands. */
  /** A closed day with both bands empty. */
  function SundayClosed(): (v: Value)
    ensures Get(v, "cerrado") == Bool(true)
    ensures Get2(v, "franja1", "desde") == Str("") && Get2(v, "franja1", "hasta") == Str("")
    ensures Get2(v, "franja2", "desde") == Str("") && Get2(v, "franja2", "hasta") == Str("")
  {
    DayValue(ClosedDay())
  }

  /** `setSundayClosed` writes `copy.horarios.domingo`: it needs the form and
      its schedule to be objects, and leaves every other day and every other
      field as they were. */
  lemma SundayAssignment(form: Value)
    ensures var r := SetPath(form, ["horarios", "domingo"], SundayClosed());
      (r.Some? <==> form.Obj? && Get(form, "horarios").Obj?) &&
      (r.Some? ==>
        Get2(r.value, "horarios", "domingo") == SundayClosed() &&
        (forall k :: k != "domingo" ==> Get2(r.value, "horarios", k) == Get2(form, "horarios", k)) &&
        (forall k :: k != "horarios" ==> Get(r.value, k) == Get(form, k)))
  {
    var keys := ["horarios", "domingo"];
    SetPathDefined(form, keys, SundayClosed());
    assert keys[..1] == ["horarios"];
    var r := SetPath(form, keys, SundayClosed());
    if r.Some? {
      SetPathGets(form, keys, SundayClosed());
      forall k | k != "domingo" ensures Get2(r.value, "horarios", k) == Get2(form, "horarios", k) {
        SetPathFrame(form, keys, SundayClosed(), ["horarios", k]);
      }
      forall k | k != "horarios" ensures Get(r.value, k) == Get(form, k) {
        SetPathFrame(form, keys, SundayClosed(), [k]);
      }
    }
  }

  // ------------------------------------------------------------- the page

  /** The page's state: `form`, `loading`, `selectedDays` and the editable
      block. */
  class DatosState {
    var form: Option<Value>
    var loading: bool
    var selectedDays: seq<string>
    var bulk: Bulk

    constructor ()
      ensures form == None && loading && selectedDays == Preset("lun-vie", []) && bulk == InitialBulk()
    {
      form := None;
      loading := true;
      selectedDays := ["lunes", "martes", "miércoles", "jueves", "viernes"];
      bulk := InitialBulk();
    }

    /** `load()` with the outcome of the service's read: a read that rejects
        leaves the form as it was and the page loading. */
    method Load(read: Read)
      modifies this
      ensures LS.GetLocalData(read).None? ==> form == old(form) && loading
      ensures LS.GetLocalData(read).Some? ==> form == Some(Normalized(LS.GetLocalData(read).value)) && !loading
      ensures selectedDays == old(selectedDays) && bulk == old(bulk)
    {
      loading := true;
      var got := LS.GetLocalData(read);
      if got.Some? {
        var data := got.value;
        var horarios := NormalizeHorarios(LocalHorariosValue(data.horarios));
        form := Some(LoadedForm(Or(data.direccion, Str("")), DeliveryOf(data.delivery),
                                Or(RedesValue(data.redes), Obj(map[])), horarios));
        loading := false;
      }
    }

    /** `update(path, value)`: the copy is walked key by key with `p =
        p[keys.shift()]` and the last key assigned at the end. The write
        through `p` lands inside the copy; here the copy is rebuilt along
        the path by `SetPath`. A walk that reads a key of null or undefined,
        or an assignment to anything but an object, throws a TypeError: then
        `ok` is false and the form is unchanged. */
    method Update(path: string, value: Value) returns (ok: bool)
      modifies this
      ensures ok <==> old(form).Some? && SetPath(old(form).value, Split(path, '.'), value).Some?
      ensures ok ==> form == Some(SetPath(old(form).value, Split(path, '.'), value).value)
      ensures !ok ==> form == old(form)
      ensures loading == old(loading) && selectedDays == old(selectedDays) && bulk == old(bulk)
    {
      if form.None? {
        return false;
      }
      var copy := form.value;
      var keys := Split(path, '.');
      var all := keys;
      ghost var walked: seq<string> := [];
      var p := copy;
      while |keys| > 1
        invariant |keys| >= 1 && walked + keys == all
        invariant p == GetPath(copy, walked)
        invariant form == old(form) && loading == old(loading)
        invariant selectedDays == old(selectedDays) && bulk == old(bulk)
        decreases |keys|
      {
        if Nullish(p) {
          NoAssignmentBelow(copy, walked, keys, value);
          return false;
        }
        GetPathAppend(copy, walked, [keys[0]]);
        p := Get(p, keys[0]);
        walked := walked + [keys[0]];
        keys := keys[1..];
      }
      assert walked == all[..|all| - 1];
      SetPathDefined(copy, all, value);
      if !p.Obj? {
        return false;
      }
      form := Some(SetPath(copy, all, value).value);
      ok := true;
    }

    /** `toggleDay(dayKey)` */
    method ToggleDay(dayKey: string)
      modifies this
      ensures selectedDays == Toggle(old(selectedDays), dayKey)
      ensures form == old(form) && loading == old(loading) && bulk == old(bulk)
    {
      if dayKey in selectedDays {
        selectedDays := Filter(selectedDays, NotDay(dayKey));
      } else {
        selectedDays := selectedDays + [dayKey];
      }
    }

    /** `selectPreset(preset)`: four independent `if`s. */
    method SelectPreset(preset: string)
      modifies this
      ensures selectedDays == Preset(preset, old(selectedDays))
      ensures form == old(form) && loading == old(loading) && bulk == old(bulk)
    {
      if preset == "lun-vie" {
        selectedDays := ["lunes", "martes", "miércoles", "jueves", "viernes"];
      }
      if preset == "lun-sab" {
        selectedDays := ["lunes", "martes", "miércoles", "jueves", "viernes", "sábado"];
      }
      if preset == "todos" {
        selectedDays := DayKeys();
      }
      if preset == "ninguno" {
        selectedDays := [];
      }
    }

    /** `applyBulkToSelected()`: nothing without a form or a selected day;
        otherwise the payload goes to every selected day. An updater that
        throws leaves the form unchanged. */
    method ApplyBulkToSelected()
      modifies this
      ensures old(form).None? || |selectedDays| == 0 ==> form == old(form)
      ensures old(form).Some? && |selectedDays| > 0 ==>
        var r := BulkApplied(old(form).value, selectedDays, DayValue(Payload(bulk)));
        (r.Some? ==> form == r) && (r.None? ==> form == old(form))
      ensures loading == old(loading) && selectedDays == old(selectedDays) && bulk == old(bulk)
    {
      if form.None? {
        return;
      }
      if |selectedDays| == 0 {
        return;
      }
      var payload := DayValue(Payload(bulk));
      var copy := form.value;
      var h := Get(copy, "horarios");
      if !(copy.Obj? && h.Obj?) {
        return;
      }
      var schedule := AssignDays(h.fields, selectedDays, payload, DefaultFor);
      form := Some(Obj(copy.fields["horarios" := Obj(schedule)]));
    }

    /** `setSundayClosed()`; `ok` is false when the assignment throws. */
    method SetSundayClosed() returns (ok: bool)
      modifies this
      ensures var r := if old(form).Some? then SetPath(old(form).value, ["horarios", "domingo"], SundayClosed()) else None;
        (ok <==> r.Some?) && (ok ==> form == r) && (!ok ==> form == old(form))
      ensures loading == old(loading) && selectedDays == old(selectedDays) && bulk == old(bulk)
    {
      ok := false;
      if form.Some? {
        var r := SetPath(form.value, ["horarios", "domingo"], SundayClosed());
        if r.Some? {
          form := r;
          ok := true;
        }
      }
    }

    /** `selectedLabel` of the current selection. */
    function Label(): string
      reads this
    {
      SelectedLabel(selectedDays)
    }
  }

  /** A walk that meets null or undefined before the last key cannot end
      in an assignment. */
  lemma NoAssignmentBelow(v: Value, walked: seq<string>, keys: seq<string>, x: Value)
    requires |keys| > 1 && Nullish(GetPath(v, walked))
    ensures SetPath(v, walked + keys, x).None?
  {
    var all := walked + keys;
    SetPathDefined(v, all, x);
    assert all[..|all| - 1] == walked + keys[..|keys| - 1];
    GetPathAppend(v, walked, keys[..|keys| - 1]);
    GetPathBelowNonObject(GetPath(v, walked), keys[..|keys| - 1]);
  }
}

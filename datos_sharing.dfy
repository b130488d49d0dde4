// The schedule of the shop-data page seen as objects rather than values:
// which day objects the days share after a bulk apply, and what a later
// per-day edit then reaches.

module DatosSharing {
  import opened DatosPage

  /** One of the four time inputs of the per-day editor. */
  datatype TimeField = F1Desde | F1Hasta | F2Desde | F2Hasta

  /** What one input of the per-day editor writes: `horarios.<day>.cerrado`
      or `horarios.<day>.franjaN.desde|hasta`. */
  datatype DayEdit = SetCerrado(closed: bool) | SetTime(field: TimeField, t: string)

  /** A day object after one of its fields was assigned. */
  function Edit(d: Day, e: DayEdit): Day {
    match e
    case SetCerrado(closed) => d.(cerrado := closed)
    case SetTime(F1Desde, t) => d.(franja1 := d.franja1.(desde := t))
    case SetTime(F1Hasta, t) => d.(franja1 := d.franja1.(hasta := t))
    case SetTime(F2Desde, t) => d.(franja2 := d.franja2.(desde := t))
    case SetTime(F2Hasta, t) => d.(franja2 := d.franja2.(hasta := t))
  }

  /** `form.horarios` as a graph of objects: each day key holds a reference
      (`slot`) to an object in `heap`, and two keys may hold the same
      reference. `structuredClone` copies every object but keeps this
      sharing, so the clone each updater starts from is this same
      schedule under new names. */
  datatype Schedule = Schedule(slot: map<string, nat>, heap: seq<Day>)

  /** Every reference names an object. */
  predicate Valid(s: Schedule) {
    forall k :: k in s.slot ==> s.slot[k] < |s.heap|
  }

  /** No two days hold the same object, as after `normalizeHorarios`. */
  predicate Unshared(s: Schedule) {
    forall j, k :: j in s.slot && k in s.slot && j != k ==> s.slot[j] != s.slot[k]
  }

  /** `horarios[k]` */
  function Read(s: Schedule, k: string): Day
    requires Valid(s) && k in s.slot
  {
    s.heap[s.slot[k]]
  }

  /** What the days read, as values. */
  function Contents(s: Schedule): map<string, Day>
    requires Valid(s)
  {
    map k | k in s.slot :: Read(s, k)
  }

  /** `update("horarios.<k>.<field>", x)`: the walk reaches the object day
      `k` refers to and assigns the field inside that object. */
  function WriteThrough(s: Schedule, k: string, e: DayEdit): (r: Schedule)
    requires Valid(s) && k in s.slot
    ensures Valid(r) && r.slot == s.slot
  {
    var o := s.slot[k];
    Schedule(s.slot, s.heap[o := Edit(s.heap[o], e)])
  }

  /** A write through day `j` is read through every day that holds the same
      object, and through no other. */
  lemma WriteReads(s: Schedule, j: string, e: DayEdit, k: string)
    requires Valid(s) && j in s.slot && k in s.slot
    ensures Read(WriteThrough(s, j, e), k) ==
      if s.slot[k] == s.slot[j] then Edit(Read(s, j), e) else Read(s, k)
  {
  }

  /** With no sharing, a write through day `j` changes day `j` alone. */
  lemma WriteFrame(s: Schedule, j: string, e: DayEdit)
    requires Valid(s) && Unshared(s) && j in s.slot
    ensures Unshared(WriteThrough(s, j, e))
    ensures Read(WriteThrough(s, j, e), j) == Edit(Read(s, j), e)
    ensures forall k :: k in s.slot && k != j ==> Read(WriteThrough(s, j, e), k) == Read(s, k)
  {
    forall k | k in s.slot && k != j
      ensures Read(WriteThrough(s, j, e), k) == Read(s, k)
    {
      WriteReads(s, j, e, k);
    }
  }

  // --------------------------------------------- bulk apply, as written

  /** `copy.horarios[day] = payload` for each day in turn, with one
      reference `o`. (The default a falsy day first gets is overwritten by
      the next statement and is left out.) */
  function Point(s: Schedule, days: seq<string>, o: nat): Schedule
    decreases |days|
  {
    if days == [] then s else Point(Schedule(s.slot[days[0] := o], s.heap), days[1..], o)
  }

  /** `applyBulkToSelected` as written: `payload` is built once, and every
      selected day is pointed at that one object. */
  function BulkShared(s: Schedule, days: seq<string>, payload: Day): Schedule {
    Point(Schedule(s.slot, s.heap + [payload]), days, |s.heap|)
  }

  lemma {:induction false} PointSlots(s: Schedule, days: seq<string>, o: nat)
    ensures Point(s, days, o).heap == s.heap
    ensures forall k :: k in Point(s, days, o).slot <==> k in s.slot || k in days
    ensures forall k :: k in days ==> Point(s, days, o).slot[k] == o
    ensures forall k :: k in s.slot && k !in days ==> Point(s, days, o).slot[k] == s.slot[k]
    decreases |days|
  {
    if days != [] {
      var s' := Schedule(s.slot[days[0] := o], s.heap);
      PointSlots(s', days[1..], o);
      assert forall k :: k in days <==> k == days[0] || k in days[1..];
    }
  }

  /** Right after the bulk apply every selected day reads the payload and
      every other day reads what it read before, but all the selected days
      hold one and the same object. */
  lemma BulkSharedReads(s: Schedule, days: seq<string>, payload: Day)
    requires Valid(s)
    ensures var r := BulkShared(s, days, payload);
      Valid(r) &&
      (forall k :: k in r.slot <==> k in s.slot || k in days) &&
      (forall d :: d in days ==> Read(r, d) == payload) &&
      (forall k :: k in s.slot && k !in days ==> Read(r, k) == Read(s, k)) &&
      (forall d1, d2 :: d1 in days && d2 in days ==> r.slot[d1] == r.slot[d2])
  {
    var s0 := Schedule(s.slot, s.heap + [payload]);
    PointSlots(s0, days, |s.heap|);
  }

  /** The discrepancy, for every schedule: after the bulk apply, an edit in
      the per-day editor of one selected day is read through every other
      selected day. */
  lemma SharedEditLeaks(s: Schedule, days: seq<string>, payload: Day, d1: string, d2: string, e: DayEdit)
    requires Valid(s) && d1 in days && d2 in days
    ensures var r := BulkShared(s, days, payload);
      Valid(r) && d1 in r.slot && d2 in r.slot &&
      Read(WriteThrough(r, d1, e), d2) == Edit(payload, e)
  {
    BulkSharedReads(s, days, payload);
    var r := BulkShared(s, days, payload);
    WriteReads(r, d1, e, d2);
  }

  /** The input that shows it: apply the block to Monday and Tuesday, then
      click Monday's "Cerrado" switch; Tuesday's switch flips with it. */
  lemma MondaySwitchFlipsTuesday(s: Schedule, payload: Day)
    requires Valid(s)
    ensures var r := BulkShared(s, ["lunes", "martes"], payload);
      Valid(r) && "lunes" in r.slot && "martes" in r.slot &&
      Read(r, "martes") == payload &&
      Read(WriteThrough(r, "lunes", SetCerrado(!payload.cerrado)), "martes").cerrado != payload.cerrado
  {
    BulkSharedReads(s, ["lunes", "martes"], payload);
    SharedEditLeaks(s, ["lunes", "martes"], payload, "lunes", "martes", SetCerrado(!payload.cerrado));
  }

  // ------------------------------------------------ bulk apply, corrected

  /** `applyBulkToSelected` with `copy.horarios[day] = structuredClone(payload)`:
      every selected day gets an object of its own. */
  function BulkCopies(s: Schedule, days: seq<string>, payload: Day): Schedule
    decreases |days|
  {
    if days == [] then s
    else BulkCopies(Schedule(s.slot[days[0] := |s.heap|], s.heap + [payload]), days[1..], payload)
  }

  /** The corrected apply reads as the written one (every selected day the
      payload, every other day as before) and keeps the days apart. */
  lemma {:induction false} BulkCopiesReads(s: Schedule, days: seq<string>, payload: Day)
    requires Valid(s)
    ensures var r := BulkCopies(s, days, payload);
      Valid(r) &&
      (forall k :: k in r.slot <==> k in s.slot || k in days) &&
      (forall d :: d in days ==> Read(r, d) == payload) &&
      (forall k :: k in s.slot && k !in days ==> Read(r, k) == Read(s, k)) &&
      (Unshared(s) ==> Unshared(r))
    decreases |days|
  {
    if days != [] {
      var s' := Schedule(s.slot[days[0] := |s.heap|], s.heap + [payload]);
      assert Valid(s');
      assert Unshared(s) ==> Unshared(s');
      BulkCopiesReads(s', days[1..], payload);
      assert forall k :: k in days <==> k == days[0] || k in days[1..];
      forall k | k in s.slot && k !in days
        ensures Read(s', k) == Read(s, k)
      {
      }
    }
  }

  /** The intended property: after the corrected apply, an edit through one
      day changes that day alone, and every other selected day still reads
      the payload. */
  lemma CopiesKeepDaysApart(s: Schedule, days: seq<string>, payload: Day, d1: string, e: DayEdit)
    requires Valid(s) && Unshared(s) && d1 in days
    ensures var r := BulkCopies(s, days, payload);
      Valid(r) && (forall d :: d in days ==> d in r.slot) &&
      Read(WriteThrough(r, d1, e), d1) == Edit(payload, e) &&
      (forall d2 :: d2 in days && d2 != d1 ==> Read(WriteThrough(r, d1, e), d2) == payload) &&
      (forall k :: k in r.slot && k != d1 ==> Read(WriteThrough(r, d1, e), k) == Read(r, k))
  {
    BulkCopiesReads(s, days, payload);
    var r := BulkCopies(s, days, payload);
    WriteFrame(r, d1, e);
  }

  /** Both applies leave the same contents; they differ only in what a
      later edit reaches. */
  lemma SameContents(s: Schedule, days: seq<string>, payload: Day)
    requires Valid(s)
    ensures Valid(BulkShared(s, days, payload)) && Valid(BulkCopies(s, days, payload))
    ensures Contents(BulkShared(s, days, payload)) == Contents(BulkCopies(s, days, payload))
  {
    BulkSharedReads(s, days, payload);
    BulkCopiesReads(s, days, payload);
  }

  /** The schedule as the page's value model holds it. */
  function ValueOf(s: Schedule): map<string, JsValue.Value>
    requires Valid(s)
  {
    map k | k in s.slot :: DayValue(Read(s, k))
  }

  /** The value model's `Assigned`, which `DatosState.ApplyBulkToSelected`
      uses, is the corrected apply read as values. */
  lemma CopiesAsValues(s: Schedule, days: seq<string>, payload: Day)
    requires Valid(s)
    ensures Valid(BulkCopies(s, days, payload))
    ensures ValueOf(BulkCopies(s, days, payload)) == Assigned(ValueOf(s), days, DayValue(payload))
  {
    BulkCopiesReads(s, days, payload);
  }
}

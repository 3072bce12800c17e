/**
 Whole runs of garbage collection (src/core/crdt.ts): documents are added, edited by anyone, renamed and deleted, and
 collection and repair are called at any time.

 Every document carries the record of the collection calls made for it, wherever it is renamed to.
 */
module CellGarbageRun {
  import opened CellGarbage
  import opened CellOrder
  import opened Outcomes
  import opened ProjectPaths

  /** What one call found: the ids in the order, and the payloads that were there and stayed. */
  datatype Call = Call(now: int, allowed: bool, referenced: set<OrderEntry>, kept: set<OrderEntry>)

  datatype Tracked = Tracked(entry: Entry, calls: seq<Call>)

  type World = map<Path, Tracked>

  datatype Event =
    | Add(key: Path, isNotebook: bool)
    | Edit(key: Path, order: seq<OrderEntry>, data: set<OrderEntry>)
    | Collect(key: Path, grace: int, now: int, allowed: bool)
    | Repair(key: Path)
    | Rename(from: Path, to: Path)
    | Delete(key: Path)

  predicate Enabled(w: World, e: Event) {
    match e
    case Add(key, _) => key !in w
    case Edit(key, _, _) => key in w
    case Collect(key, _, _, _) => key in w
    case Repair(key) => key in w
    case Rename(from, to) => !Comparable(from, to)
    case Delete(_) => true
  }

  function Record(e: Entry, grace: int, now: int, allowed: bool): Call {
    Call(now, allowed, (set id | id in e.doc.order), e.doc.data - CollectedBy(e, grace, now, allowed))
  }

  function AfterCall(t: Tracked, grace: int, now: int, allowed: bool): Tracked {
    Tracked(AfterCollect(t.entry, grace, now, allowed), t.calls + [Record(t.entry, grace, now, allowed)])
  }

  function AfterRename(w: World, from: Path, to: Path): World {
    var moved := Affected(w.Keys, from);
    map q | q in KeysAfter(w.Keys, moved, from, to) && Source(moved, from, to, q) in w :: w[Source(moved, from, to, q)]
  }

  function Next(w: World, e: Event): World
    requires Enabled(w, e)
  {
    match e
    case Add(key, isNotebook) => w[key := Tracked(Entry(Document(isNotebook, [], {}), None, None), [])]
    case Edit(key, order, data) =>
      w[key := w[key].(entry := w[key].entry.(doc := w[key].entry.doc.(order := order, data := data)))]
    case Collect(key, grace, now, allowed) => w[key := AfterCall(w[key], grace, now, allowed)]
    case Repair(key) => w[key := w[key].(entry := AfterRepair(w[key].entry))]
    case Rename(from, to) => AfterRename(w, from, to)
    case Delete(key) => map q | q in w && !SameOrChild(q, key) :: w[q]
  }

  predicate IsRun(w: World, events: seq<Event>)
    decreases |events|
  {
    events == [] || (Enabled(w, events[0]) && IsRun(Next(w, events[0]), events[1..]))
  }

  function Ran(w: World, events: seq<Event>): World
    requires IsRun(w, events)
    decreases |events|
  {
    if events == [] then w else Ran(Next(w, events[0]), events[1..])
  }

  /** The tables without the records are those of the project. */
  function Plain(w: World): Entries { map key | key in w :: w[key].entry }

  /** A rename moves the records exactly as the project moves its tables. */
  lemma RenameMovesTables(w: World, from: Path, to: Path)
    requires !Comparable(from, to)
    ensures Plain(AfterRename(w, from, to)) == Renamed(Plain(w), from, to)
  {
    assert Plain(w).Keys == w.Keys;
  }

  // ----- What the measured times mean -----

  /** A call that found the payload unreferenced, left it in place, and was allowed. */
  predicate Spared(c: Call, id: OrderEntry) { c.allowed && id !in c.referenced && id in c.kept }

  /** When the unbroken series of such calls that lasts until now began. */
  function SparedSince(calls: seq<Call>, id: OrderEntry): Option<int> {
    if calls == [] then None else
      var last := calls[|calls| - 1];
      if !Spared(last, id) then None
      else
        var before := SparedSince(calls[..|calls| - 1], id);
        if before.Some? then before else Some(last.now)
  }

  predicate TimesOK(t: Tracked, id: OrderEntry) {
    t.entry.doc.isNotebook ==> (
      SparedSince(t.calls, id) == if id in Times(t.entry) then Some(Times(t.entry)[id]) else None)
  }

  ghost predicate Inv(w: World) { forall key, id :: key in w ==> TimesOK(w[key], id) }

  lemma CallKeeps(t: Tracked, grace: int, now: int, allowed: bool, id: OrderEntry)
    requires TimesOK(t, id)
    ensures TimesOK(AfterCall(t, grace, now, allowed), id)
  {
    var v := AfterCall(t, grace, now, allowed);
    assert v.calls[..|t.calls|] == t.calls && v.calls[|t.calls|] == Record(t.entry, grace, now, allowed);
    if t.entry.doc.isNotebook && allowed {
      assert Spared(v.calls[|t.calls|], id)
        <==> id in t.entry.doc.data && id !in t.entry.doc.order && !Expired(Times(t.entry), id, grace, now);
    }
  }

  lemma RenameKeeps(w: World, from: Path, to: Path)
    requires Inv(w)
    ensures Inv(AfterRename(w, from, to))
  {
  }

  lemma StepKeeps(w: World, e: Event)
    requires Inv(w) && Enabled(w, e)
    ensures Inv(Next(w, e))
  {
    match e
    case Add(_, _) =>
    case Edit(key, order, data) =>
      forall id ensures TimesOK(Next(w, e)[key], id) {
        assert TimesOK(w[key], id);
      }
    case Collect(key, grace, now, allowed) =>
      forall id ensures TimesOK(Next(w, e)[key], id) {
        CallKeeps(w[key], grace, now, allowed, id);
      }
    case Repair(key) =>
      forall id ensures TimesOK(Next(w, e)[key], id) {
        assert TimesOK(w[key], id);
      }
    case Rename(from, to) => RenameKeeps(w, from, to);
    case Delete(_) =>
  }

  lemma {:induction false} RunKeeps(w: World, events: seq<Event>)
    requires Inv(w) && IsRun(w, events)
    ensures Inv(Ran(w, events))
    decreases |events|
  {
    if events != [] {
      StepKeeps(w, events[0]);
      RunKeeps(Next(w, events[0]), events[1..]);
    }
  }

  /** Calls `i` and later all spared the payload. */
  predicate AllSpared(calls: seq<Call>, i: int, id: OrderEntry) {
    0 <= i < |calls| && forall j :: i <= j < |calls| ==> Spared(calls[j], id)
  }

  /** The measured time is that of the first call of the longest unbroken series up to the last call. */
  lemma {:induction false} SinceIsFirstOfSeries(calls: seq<Call>, id: OrderEntry) returns (i: int)
    requires SparedSince(calls, id).Some?
    ensures AllSpared(calls, i, id) && calls[i].now == SparedSince(calls, id).value
    ensures i == 0 || !Spared(calls[i - 1], id)
  {
    var n := |calls| - 1;
    if SparedSince(calls[..n], id).Some? {
      i := SinceIsFirstOfSeries(calls[..n], id);
      forall j | i <= j < |calls| ensures Spared(calls[j], id) {
        if j < n {
          assert calls[..n][j] == calls[j];
        }
      }
    } else {
      i := n;
    }
  }

  // ----- Main results -----

  const Empty: World := map[]

  /** The payloads that a call made now would collect. */
  function WouldCollect(w: World, key: Path, grace: int, now: int, allowed: bool): set<OrderEntry>
    requires key in w
  {
    CollectedBy(w[key].entry, grace, now, allowed)
  }

  /**
   A payload is collected exactly when the call is allowed, finds it unreferenced, and the unbroken series of
   earlier calls that spared it, under whatever name the document had, began at least the grace period ago.
   */
  lemma CollectedAfterGrace(events: seq<Event>, key: Path, grace: int, now: int, allowed: bool, id: OrderEntry)
    requires IsRun(Empty, events) && key in Ran(Empty, events) && Ran(Empty, events)[key].entry.doc.isNotebook
    ensures var t := Ran(Empty, events)[key]; var since := SparedSince(t.calls, id);
      id in WouldCollect(Ran(Empty, events), key, grace, now, allowed)
      <==> allowed && id in t.entry.doc.data && id !in t.entry.doc.order && since.Some? && since.value <= now - grace
  {
    RunKeeps(Empty, events);
    assert TimesOK(Ran(Empty, events)[key], id);
  }

  /** So some call at least the grace period ago, and every call since, spared what is collected now. */
  lemma CollectedWasSpared(events: seq<Event>, key: Path, grace: int, now: int, allowed: bool, id: OrderEntry)
    returns (i: int)
    requires IsRun(Empty, events) && key in Ran(Empty, events)
    requires id in WouldCollect(Ran(Empty, events), key, grace, now, allowed)
    ensures var calls := Ran(Empty, events)[key].calls; AllSpared(calls, i, id) && calls[i].now <= now - grace
  {
    CollectedAfterGrace(events, key, grace, now, allowed, id);
    i := SinceIsFirstOfSeries(Ran(Empty, events)[key].calls, id);
  }

  /** Repair leaves exactly the entries, in order, that have a payload or were never collected here. */
  lemma {:induction false} RepairRemovesExactlyDangling(e: Entry, order: seq<OrderEntry>, id: OrderEntry)
    ensures id in Repaired(e, order) <==> id in order && !IsDangling(e, id)
    ensures multiset(Repaired(e, order))[id] == if IsDangling(e, id) then 0 else multiset(order)[id]
  {
    if order != [] {
      var n := |order| - 1;
      RepairRemovesExactlyDangling(e, order[..n], id);
      assert order == order[..n] + [order[n]];
    }
  }

  /** Repair keeps what stays in its order. */
  lemma {:induction false} RepairSplits(e: Entry, a: seq<OrderEntry>, b: seq<OrderEntry>)
    ensures Repaired(e, a + b) == Repaired(e, a) + Repaired(e, b)
  {
    if b == [] {
      assert a + b == a;
    } else {
      var n := |b| - 1;
      assert (a + b)[..|a| + n] == a + b[..n];
      RepairSplits(e, a, b[..n]);
    }
  }

  /**
   After collection and repair no visible cell points at a payload collected here, and repairing again changes nothing.
   */
  lemma RepairedHasNoDangling(e: Entry, id: OrderEntry)
    ensures id in AfterRepair(e).doc.order ==> !IsDangling(AfterRepair(e), id)
    ensures AfterRepair(AfterRepair(e)) == AfterRepair(e)
  {
    RepairRemovesExactlyDangling(e, e.doc.order, id);
    forall other | other in Repaired(e, e.doc.order) ensures !IsDangling(AfterRepair(e), other) {
      RepairRemovesExactlyDangling(e, e.doc.order, other);
    }
    NothingToRepair(AfterRepair(e), AfterRepair(e).doc.order);
  }

  lemma {:induction false} NothingToRepair(e: Entry, order: seq<OrderEntry>)
    requires forall id :: id in order ==> !IsDangling(e, id)
    ensures Repaired(e, order) == order
  {
    if order != [] {
      NothingToRepair(e, order[..|order| - 1]);
      assert order == order[..|order| - 1] + [order[|order| - 1]];
    }
  }
}

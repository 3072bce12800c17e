/**
 Garbage collection of cell payloads (src/core/crdt.ts): the per-document grace measurement, the record of collected
 ids, the repair of order entries that point at them, and renaming and deleting documents.

 A document is its kind, the shared order and the ids that have a payload. The shared library is not part of this
 model: edits by any peer replace order and payloads at will.
 */
module CellGarbage {
  import opened CellOrder
  import opened FiniteSets
  import opened Outcomes
  import opened ProjectPaths

  datatype Document = Document(isNotebook: bool, order: seq<OrderEntry>, data: set<OrderEntry>)

  /** What the project keeps for one document key. */
  datatype Entry = Entry(doc: Document, since: Option<map<OrderEntry, int>>, collected: Option<set<OrderEntry>>)

  function Times(e: Entry): map<OrderEntry, int> { if e.since.Some? then e.since.value else map[] }

  predicate Expired(times: map<OrderEntry, int>, id: OrderEntry, grace: int, now: int) {
    id in times && now - times[id] >= grace
  }

  /** Payloads a call collects: unreferenced, and first seen so at least the grace period ago. */
  function Collectable(doc: Document, times: map<OrderEntry, int>, grace: int, now: int): set<OrderEntry> {
    set id | id in doc.data && id !in doc.order && Expired(times, id, grace, now)
  }

  function NewTimes(doc: Document, times: map<OrderEntry, int>, grace: int, now: int): map<OrderEntry, int> {
    map id | id in doc.data && id !in doc.order && !Expired(times, id, grace, now)
      :: if id in times then times[id] else now
  }

  function CollectedBy(e: Entry, grace: int, now: int, allowed: bool): set<OrderEntry> {
    if e.doc.isNotebook && allowed then Collectable(e.doc, Times(e), grace, now) else {}
  }

  /** The entry after a call. A call that is not allowed restarts every measurement. */
  function AfterCollect(e: Entry, grace: int, now: int, allowed: bool): Entry {
    if !e.doc.isNotebook then e
    else if !allowed then e.(since := if e.since.Some? then Some(map[]) else None)
    else
      var ids := Collectable(e.doc, Times(e), grace, now);
      Entry(e.doc.(data := e.doc.data - ids), Some(NewTimes(e.doc, Times(e), grace, now)),
            if ids == {} then e.collected else Some(ids + if e.collected.Some? then e.collected.value else {}))
  }

  /** An order entry that points at a payload this peer collected. */
  predicate IsDangling(e: Entry, id: OrderEntry) {
    e.doc.isNotebook && e.collected.Some? && id in e.collected.value && id !in e.doc.data
  }

  function Repaired(e: Entry, order: seq<OrderEntry>): seq<OrderEntry> {
    if order == [] then [] else
      var n := |order| - 1;
      if IsDangling(e, order[n]) then Repaired(e, order[..n]) else Repaired(e, order[..n]) + [order[n]]
  }

  function AfterRepair(e: Entry): Entry { e.(doc := e.doc.(order := Repaired(e, e.doc.order))) }

  /** The dangling positions in ascending order. */
  function Dangling(e: Entry, order: seq<OrderEntry>): (r: seq<nat>)
    ensures Ascending(r, |order|)
  {
    if order == [] then [] else
      var n := |order| - 1;
      var before := Dangling(e, order[..n]);
      assert (before + [n])[..|before|] == before;
      if IsDangling(e, order[n]) then before + [n] else before
  }

  lemma {:induction false} WithoutDangling(e: Entry, order: seq<OrderEntry>)
    ensures Without(order, Dangling(e, order)) == Repaired(e, order)
  {
    if order != [] {
      var n := |order| - 1;
      WithoutDangling(e, order[..n]);
      assert order == order[..n] + [order[n]];
      if IsDangling(e, order[n]) {
        var positions := Dangling(e, order[..n]) + [n];
        assert positions[..|positions| - 1] == Dangling(e, order[..n]) && order[n + 1..] == [];
      } else {
        WithoutAppend(order[..n], order[n], Dangling(e, order[..n]));
      }
    }
  }

  // ----- Keys under a rename -----

  function NewKey(p: Path, from: Path, to: Path): Path
    requires SameOrChild(p, from)
  {
    to + p[|from|..]
  }

  function OldKey(q: Path, from: Path, to: Path): Path
    requires SameOrChild(q, to)
  {
    from + q[|to|..]
  }

  /** Key `q` is where a document among `moved` goes. */
  predicate IsTarget(moved: set<Path>, from: Path, to: Path, q: Path) {
    SameOrChild(q, to) && OldKey(q, from, to) in moved
  }

  /** The keys after the documents `moved`, all at or below `from`, have moved; a document in the way is replaced. */
  function KeysAfter(keys: set<Path>, moved: set<Path>, from: Path, to: Path): set<Path>
  {
    (keys - moved) + set p | p in moved && SameOrChild(p, from) :: NewKey(p, from, to)
  }

  /** The key a document had before. */
  function Source(moved: set<Path>, from: Path, to: Path, q: Path): Path {
    if IsTarget(moved, from, to, q) then OldKey(q, from, to) else q
  }

  function Affected(keys: set<Path>, from: Path): set<Path> { set p | p in keys && SameOrChild(p, from) }

  lemma TargetKeys(moved: set<Path>, from: Path, to: Path, q: Path)
    requires forall p :: p in moved ==> SameOrChild(p, from)
    ensures q in (set p | p in moved && SameOrChild(p, from) :: NewKey(p, from, to)) <==> IsTarget(moved, from, to, q)
  {
    if IsTarget(moved, from, to, q) {
      var p := OldKey(q, from, to);
      assert p[|from|..] == q[|to|..];
      assert q == NewKey(p, from, to);
    }
    forall p | p in moved && q == NewKey(p, from, to) ensures IsTarget(moved, from, to, q) {
      assert q[|to|..] == p[|from|..];
      assert p == OldKey(q, from, to);
    }
  }

  type Entries = map<Path, Entry>

  function Moved(entries: Entries, moved: set<Path>, from: Path, to: Path): Entries
  {
    map q | q in KeysAfter(entries.Keys, moved, from, to) && Source(moved, from, to, q) in entries
      :: entries[Source(moved, from, to, q)]
  }

  function Renamed(entries: Entries, from: Path, to: Path): Entries {
    Moved(entries, Affected(entries.Keys, from), from, to)
  }

  function Deleted(entries: Entries, key: Path): Entries { map q | q in entries && !SameOrChild(q, key) :: entries[q] }

  // ----- The class of the source -----

  class CollaborativeProject {
    var documents: map<Path, Document>
    var unreferencedSince: map<Path, map<OrderEntry, int>>
    var collectedIds: map<Path, set<OrderEntry>>

    /** What is kept for each document, as one table. */
    ghost var entries: Entries

    ghost predicate Valid()
      reads this
    {
      && unreferencedSince.Keys <= documents.Keys && collectedIds.Keys <= documents.Keys
      && entries.Keys == documents.Keys && forall key :: key in documents ==> entries[key] == EntryAt(key)
    }

    ghost function EntryAt(key: Path): Entry
      requires key in documents
      reads this
    {
      Entry(documents[key], if key in unreferencedSince then Some(unreferencedSince[key]) else None,
            if key in collectedIds then Some(collectedIds[key]) else None)
    }

    constructor ()
      ensures Valid() && entries == map[]
    {
      documents, unreferencedSince, collectedIds, entries := map[], map[], map[], map[];
    }

    /** The measurement of one document: what is due, and the times that go on. */
    method Measure(doc: Document, before: map<OrderEntry, int>, grace: int, now: int)
      returns (collected: set<OrderEntry>, times: map<OrderEntry, int>)
      ensures collected == Collectable(doc, before, grace, now)
      ensures times == NewTimes(doc, before, grace, now)
    {
      times, collected := before, {};
      var todo := doc.data;
      while todo != {}
        invariant todo <= doc.data
        invariant collected
               == set id | id in doc.data && id !in todo && id !in doc.order && Expired(before, id, grace, now)
        invariant forall id :: id in todo || id !in doc.data ==> (id in times <==> id in before)
        invariant forall id :: id in todo || id !in doc.data ==> (id in times ==> times[id] == before[id])
        invariant forall id :: id in doc.data && id !in todo ==> (
            (id in times <==> id in NewTimes(doc, before, grace, now)))
        invariant forall id :: id in doc.data && id !in todo && id in times ==> (
            times[id] == NewTimes(doc, before, grace, now)[id])
      {
        var id :| id in todo;
        todo := todo - {id};
        if id in doc.order {
          times := times - {id};
        } else if id !in times {
          times := times[id := now];
        } else if now - times[id] >= grace {
          times := times - {id};
          collected := collected + {id};
        }
      }
      times := map id | id in times && id in doc.data :: times[id];
    }

    method CollectGarbage(key: Path, grace: int, now: int, allowed: bool) returns (collected: set<OrderEntry>)
      requires Valid()
      modifies this
      ensures Valid()
      ensures key !in old(entries) ==> entries == old(entries) && collected == {}
      ensures key in old(entries) ==> (
          entries == old(entries)[key := AfterCollect(old(entries)[key], grace, now, allowed)])
      ensures key in old(entries) ==> collected == CollectedBy(old(entries)[key], grace, now, allowed)
    {
      if key !in documents || !documents[key].isNotebook {
        return {};
      }
      if !allowed {
        entries := entries[key := AfterCollect(entries[key], grace, now, allowed)];
        if key in unreferencedSince {
          unreferencedSince := unreferencedSince[key := map[]];
        }
        return {};
      }
      collected := CollectAllowed(key, grace, now);
    }

    method CollectAllowed(key: Path, grace: int, now: int) returns (collected: set<OrderEntry>)
      requires Valid() && key in entries && entries[key].doc.isNotebook
      modifies this
      ensures Valid()
      ensures entries == old(entries)[key := AfterCollect(old(entries)[key], grace, now, true)]
      ensures collected == CollectedBy(old(entries)[key], grace, now, true)
    {
      var doc := documents[key];
      var before := if key in unreferencedSince then unreferencedSince[key] else map[];
      var known := if key in collectedIds then Some(collectedIds[key]) else None;
      assert entries[key] == EntryAt(key);
      var times;
      collected, times := Measure(doc, before, grace, now);
      if collected != {} {
        known := Some(collected + if known.Some? then known.value else {});
      }
      Store(key, Entry(doc.(data := doc.data - collected), Some(times), known));
    }

    /** Writes the tables of one document. */
    method Store(key: Path, e: Entry)
      requires Valid() && key in entries && e.since.Some? && (e.collected.None? ==> entries[key].collected.None?)
      modifies this
      ensures Valid() && entries == old(entries)[key := e]
    {
      documents := documents[key := e.doc];
      unreferencedSince := unreferencedSince[key := e.since.value];
      if e.collected.Some? {
        collectedIds := collectedIds[key := e.collected.value];
      }
      entries := entries[key := e];
    }

    method FindDangling(key: Path) returns (dangling: seq<nat>, repaired: seq<OrderEntry>)
      requires key in documents
      ensures dangling == Dangling(EntryAt(key), documents[key].order)
      ensures |repaired| == |dangling|
      ensures forall i :: 0 <= i < |dangling| ==> (
          dangling[i] < |documents[key].order| && repaired[i] == documents[key].order[dangling[i]])
    {
      dangling, repaired := [], [];
      var doc := documents[key];
      if !doc.isNotebook || key !in collectedIds {
        NoneDangling(EntryAt(key), doc.order);
        return;
      }
      for i := 0 to |doc.order|
        invariant dangling == Dangling(EntryAt(key), doc.order[..i]) && |repaired| == |dangling|
        invariant forall k :: 0 <= k < |dangling| ==> dangling[k] < |doc.order| && repaired[k] == doc.order[dangling[k]]
      {
        assert doc.order[..i + 1][..i] == doc.order[..i];
        if doc.order[i] !in doc.data && doc.order[i] in collectedIds[key] {
          dangling := dangling + [i];
          repaired := repaired + [doc.order[i]];
        }
      }
      assert doc.order[..|doc.order|] == doc.order;
    }

    /** Exactly the entries that point at a collected, missing payload leave the order. */
    method RepairCollectedResurrections(key: Path) returns (repaired: seq<OrderEntry>)
      requires Valid()
      modifies this
      ensures Valid()
      ensures key !in old(entries) ==> entries == old(entries) && repaired == []
      ensures key in old(entries) ==> entries == old(entries)[key := AfterRepair(old(entries)[key])]
    {
      if key !in documents {
        return [];
      }
      var dangling;
      dangling, repaired := FindDangling(key);
      var order := new NotebookOrder(documents[key].order);
      WithoutDangling(EntryAt(key), order.cells);
      order.DeletePositions(dangling);
      entries := entries[key := AfterRepair(entries[key])];
      documents := documents[key := documents[key].(order := order.cells)];
    }

    method RenameDocument(from: Path, to: Path) returns (ok: bool)
      requires Valid()
      modifies this
      ensures Valid() && (ok <==> from == to || !Comparable(from, to))
      ensures entries == if ok && from != to then Renamed(old(entries), from, to) else old(entries)
    {
      if from == to {
        return true;
      }
      if SameOrChild(from, to) || SameOrChild(to, from) {
        return false;
      }
      MoveTree(from, to);
      return true;
    }

    method MoveTree(from: Path, to: Path)
      requires Valid() && !Comparable(from, to)
      modifies this
      ensures Valid() && entries == Renamed(old(entries), from, to)
    {
      ghost var before := entries;
      var todo := Affected(documents.Keys, from);
      ghost var affected := Affected(before.Keys, from);
      ghost var moved: set<Path> := {};
      NothingMoved(before, from, to);
      while todo != {}
        invariant Valid() && todo !! moved && todo + moved == affected
        invariant entries == Moved(before, moved, from, to)
      {
        var oldKey :| oldKey in todo;
        MoveNext(before, affected, moved, oldKey, from, to);
        MoveOne(todo, moved, oldKey);
        todo, moved := todo - {oldKey}, moved + {oldKey};
      }
      assert moved == affected;
    }

    method MoveNext(ghost before: Entries, ghost affected: set<Path>, ghost moved: set<Path>, oldKey: Path,
                    from: Path, to: Path)
      requires Valid() && !Comparable(from, to) && entries == Moved(before, moved, from, to)
      requires affected == Affected(before.Keys, from) && moved <= affected && oldKey in affected && oldKey !in moved
      modifies this
      ensures Valid() && entries == Moved(before, moved + {oldKey}, from, to)
    {
      MoveOneMore(before, moved, oldKey, from, to);
      MoveEntry(oldKey, NewKey(oldKey, from, to));
    }

    method RemoveEntry(key: Path)
      requires Valid()
      modifies this
      ensures Valid() && entries == old(entries) - {key}
    {
      documents, unreferencedSince, collectedIds := documents - {key}, unreferencedSince - {key}, collectedIds - {key};
      entries := entries - {key};
    }

    method MoveEntry(oldKey: Path, newKey: Path)
      requires Valid() && oldKey in entries && oldKey != newKey
      modifies this
      ensures Valid() && entries == (old(entries) - {oldKey})[newKey := old(entries)[oldKey]]
    {
      ghost var start := entries;
      if newKey in documents {
        RemoveEntry(newKey);
      }
      assert oldKey in entries && newKey !in entries;
      MoveToFree(oldKey, newKey);
      assert start - {oldKey, newKey} == start - {newKey} - {oldKey};
    }

    method MoveToFree(oldKey: Path, newKey: Path)
      requires Valid() && oldKey in entries && newKey !in entries
      modifies this
      ensures Valid() && entries == (old(entries) - {oldKey})[newKey := old(entries)[oldKey]]
    {
      entries := (entries - {oldKey})[newKey := entries[oldKey]];
      documents := (documents - {oldKey})[newKey := documents[oldKey]];
      if oldKey in unreferencedSince {
        unreferencedSince := (unreferencedSince - {oldKey})[newKey := unreferencedSince[oldKey]];
      }
      if oldKey in collectedIds {
        collectedIds := (collectedIds - {oldKey})[newKey := collectedIds[oldKey]];
      }
    }

    method DeleteDocument(key: Path)
      requires Valid()
      modifies this
      ensures Valid() && entries == Deleted(old(entries), key)
    {
      var todo := documents.Keys;
      ghost var before := entries;
      while todo != {}
        invariant Valid() && todo <= before.Keys
        invariant entries == map q | q in before && (q in todo || !SameOrChild(q, key)) :: before[q]
      {
        var current :| current in todo;
        todo := todo - {current};
        if SameOrChild(current, key) {
          RemoveEntry(current);
        }
      }
    }
  }

  lemma {:induction false} NoneDangling(e: Entry, order: seq<OrderEntry>)
    requires !e.doc.isNotebook || e.collected.None?
    ensures Dangling(e, order) == [] && Repaired(e, order) == order
  {
    if order != [] {
      NoneDangling(e, order[..|order| - 1]);
      assert order == order[..|order| - 1] + [order[|order| - 1]];
    }
  }

  lemma NothingMoved(entries: Entries, from: Path, to: Path)
    ensures Moved(entries, {}, from, to) == entries
  {
  }

  lemma MovedAt(entries: Entries, moved: set<Path>, from: Path, to: Path, q: Path)
    requires moved <= Affected(entries.Keys, from)
    ensures q in Moved(entries, moved, from, to) <==> IsTarget(moved, from, to, q) || (q in entries && q !in moved)
  {
    TargetKeys(moved, from, to, q);
  }

  /** Moving one more document, when nothing moves into the renamed tree. */
  lemma MoveOneMore(entries: Entries, moved: set<Path>, p: Path, from: Path, to: Path)
    requires moved <= Affected(entries.Keys, from) && p in Affected(entries.Keys, from) - moved && !Comparable(from, to)
    ensures p in Moved(entries, moved, from, to) && p != NewKey(p, from, to)
    ensures Moved(entries, moved + {p}, from, to)
         == (Moved(entries, moved, from, to) - {p})[NewKey(p, from, to) := Moved(entries, moved, from, to)[p]]
  {
    var before, after := Moved(entries, moved, from, to), Moved(entries, moved + {p}, from, to);
    var n := NewKey(p, from, to);
    NotBelow(p, from, to);
    MovedAt(entries, moved, from, to, p);
    OnlyTarget(p, from, to, n);
    var expected := (before - {p})[n := before[p]];
    forall q ensures q in after <==> q in expected {
      MovedAt(entries, moved, from, to, q);
      MovedAt(entries, moved + {p}, from, to, q);
      OnlyTarget(p, from, to, q);
    }
    forall q | q in after ensures after[q] == expected[q] {
      OnlyTarget(p, from, to, q);
    }
  }

  lemma NotBelow(p: Path, from: Path, to: Path)
    requires SameOrChild(p, from) && !Comparable(from, to)
    ensures !SameOrChild(p, to)
  {
    if SameOrChild(p, to) {
      PrefixesComparable(from, to, p);
    }
  }

  lemma OnlyTarget(p: Path, from: Path, to: Path, q: Path)
    requires SameOrChild(p, from)
    ensures q == NewKey(p, from, to) <==> SameOrChild(q, to) && OldKey(q, from, to) == p
  {
    TargetKeys({p}, from, to, q);
  }
}

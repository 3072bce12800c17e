/**
 The shared order of notebook cells (src/core/crdt.ts): duplicate removal, and reconciliation with a snapshot.

 The shared array may hold anything a peer put there, so an entry need not be a name.
 */
module CellOrder {
  datatype OrderEntry = Name(id: string) | Junk

  const MaxNotebookCells := 10_000
  const MaxCellIdLength := 128

  predicate IsIdCharacter(c: char) { 'A' <= c <= 'Z' || 'a' <= c <= 'z' || '0' <= c <= '9' || c == '_' || c == '-' }

  predicate IsCellId(e: OrderEntry) {
    e.Name? && 1 <= |e.id| <= MaxCellIdLength && forall i :: 0 <= i < |e.id| ==> IsIdCharacter(e.id[i])
  }

  /** The first occurrence of each valid id, in order, up to the cell limit. */
  function FirstOccurrences(order: seq<OrderEntry>): (r: seq<OrderEntry>)
    ensures |r| <= MaxNotebookCells
    ensures forall e :: e in r ==> e in order && IsCellId(e)
  {
    if order == [] then [] else
      var kept := FirstOccurrences(order[..|order| - 1]);
      var e := order[|order| - 1];
      if IsRepeat(kept, e) then kept else kept + [e]
  }

  /** An entry that normalization deletes when `kept` has been kept before it. */
  predicate IsRepeat(kept: seq<OrderEntry>, e: OrderEntry) {
    !IsCellId(e) || e in kept || |kept| >= MaxNotebookCells
  }

  /** Positions below `limit` in ascending order. */
  predicate Ascending(positions: seq<nat>, limit: nat) {
    positions == [] || (
      var last := positions[|positions| - 1]; last < limit && Ascending(positions[..|positions| - 1], last))
  }

  /** The positions normalization deletes, in ascending order. */
  function Duplicates(order: seq<OrderEntry>): (r: seq<nat>)
    ensures Ascending(r, |order|)
  {
    if order == [] then [] else
      var n := |order| - 1;
      var before := Duplicates(order[..n]);
      assert (before + [n])[..|before|] == before;
      if IsRepeat(FirstOccurrences(order[..n]), order[n]) then before + [n] else before
  }

  /** A sequence without the elements at some ascending positions. */
  function Without(order: seq<OrderEntry>, positions: seq<nat>): seq<OrderEntry>
    requires Ascending(positions, |order|)
    decreases |positions|
  {
    if positions == [] then order else
      var last := positions[|positions| - 1];
      Without(order[..last], positions[..|positions| - 1]) + order[last + 1..]
  }

  lemma {:induction false} WithoutAppend(order: seq<OrderEntry>, e: OrderEntry, positions: seq<nat>)
    requires Ascending(positions, |order|)
    ensures Without(order + [e], positions) == Without(order, positions) + [e]
  {
    if positions != [] {
      var last := positions[|positions| - 1];
      assert (order + [e])[..last] == order[..last];
      assert (order + [e])[last + 1..] == order[last + 1..] + [e];
    }
  }

  lemma LastApart(order: seq<OrderEntry>)
    requires order != []
    ensures order == order[..|order| - 1] + [order[|order| - 1]]
  {
  }

  lemma WithoutLast(order: seq<OrderEntry>, positions: seq<nat>)
    requires order != [] && Ascending(positions, |order| - 1)
    ensures Ascending(positions + [|order| - 1], |order|)
    ensures Without(order, positions + [|order| - 1]) == Without(order[..|order| - 1], positions)
  {
    assert (positions + [|order| - 1])[..|positions|] == positions;
    assert order[|order|..] == [];
  }

  /** Deleting the duplicate positions leaves the first occurrences. */
  lemma {:induction false} WithoutDuplicates(order: seq<OrderEntry>)
    ensures Without(order, Duplicates(order)) == FirstOccurrences(order)
  {
    if order != [] {
      var n := |order| - 1;
      var e := order[n];
      WithoutDuplicates(order[..n]);
      LastApart(order);
      if IsRepeat(FirstOccurrences(order[..n]), e) {
        WithoutLast(order, Duplicates(order[..n]));
      } else {
        WithoutAppend(order[..n], e, Duplicates(order[..n]));
      }
    }
  }

  ghost predicate AllDistinct(order: seq<OrderEntry>) { forall i, j :: 0 <= i < j < |order| ==> order[i] != order[j] }

  lemma {:induction false} FirstOccurrencesAreDistinct(order: seq<OrderEntry>)
    ensures AllDistinct(FirstOccurrences(order))
  {
    if order != [] {
      FirstOccurrencesAreDistinct(order[..|order| - 1]);
    }
  }

  /** Distinct valid ids within the limit are left alone. */
  lemma {:induction false} NormalStays(order: seq<OrderEntry>)
    requires AllDistinct(order) && |order| <= MaxNotebookCells && forall e :: e in order ==> IsCellId(e)
    ensures FirstOccurrences(order) == order
  {
    if order != [] {
      NormalStays(order[..|order| - 1]);
      assert order == order[..|order| - 1] + [order[|order| - 1]];
    }
  }

  lemma {:induction false} NormalizingTwice(order: seq<OrderEntry>)
    ensures FirstOccurrences(FirstOccurrences(order)) == FirstOccurrences(order)
  {
    FirstOccurrencesAreDistinct(order);
    NormalStays(FirstOccurrences(order));
  }

  function IndexOf(order: seq<OrderEntry>, e: OrderEntry, start: nat): (r: int)
    requires start <= |order|
    ensures r == -1 || (start <= r < |order| && order[r] == e)
    decreases |order| - start
  {
    if start == |order| then -1 else if order[start] == e then start else IndexOf(order, e, start + 1)
  }

  class NotebookOrder {
    var cells: seq<OrderEntry>
    /** How many operations were made on the shared array. */
    var edits: nat

    constructor (cells: seq<OrderEntry>)
      ensures this.cells == cells && edits == 0
    {
      this.cells, edits := cells, 0;
    }

    method Delete(index: nat)
      requires index < |cells|
      modifies this
      ensures cells == old(cells[..index] + cells[index + 1..]) && edits == old(edits) + 1
    {
      edits := edits + 1;
      cells := cells[..index] + cells[index + 1..];
    }

    method Insert(index: nat, e: OrderEntry)
      requires index <= |cells|
      modifies this
      ensures cells == old(cells[..index] + [e] + cells[index..]) && edits == old(edits) + 1
    {
      edits := edits + 1;
      cells := cells[..index] + [e] + cells[index..];
    }

    method FindDuplicates() returns (duplicates: seq<nat>)
      ensures duplicates == Duplicates(cells)
    {
      var seen: set<OrderEntry> := {};
      duplicates := [];
      ghost var kept: seq<OrderEntry> := [];
      for index := 0 to |cells|
        invariant kept == FirstOccurrences(cells[..index]) && duplicates == Duplicates(cells[..index])
        invariant |seen| == |kept| && forall e :: e in seen <==> e in kept
      {
        var id := cells[index];
        assert cells[..index + 1][..index] == cells[..index];
        if !IsCellId(id) || id in seen || |seen| >= MaxNotebookCells {
          duplicates := duplicates + [index];
        } else {
          seen := seen + {id};
          kept := kept + [id];
        }
      }
      assert cells[..|cells|] == cells;
    }

    /** Deletes the elements at ascending positions in place, the last one first. */
    method DeletePositions(positions: seq<nat>)
      requires Ascending(positions, |cells|)
      modifies this
      ensures cells == Without(old(cells), positions) && edits == old(edits) + |positions|
    {
      var k := |positions|;
      ghost var bound: nat := |cells|;
      NoneDeletedYet(cells, positions);
      while k > 0
        invariant 0 <= k <= |positions| && bound <= |cells| && Ascending(positions[..k], bound)
        invariant Remaining(cells, bound, positions[..k]) == Without(old(cells), positions)
        invariant edits + k == old(edits) + |positions|
      {
        k := k - 1;
        DeleteLast(cells, bound, positions[..k + 1]);
        assert positions[..k + 1][..k] == positions[..k];
        bound := positions[k];
        Delete(positions[k]);
      }
      AllDeleted(cells, bound, positions[..0]);
    }

    /** Deleting the duplicates leaves exactly the first occurrences. */
    method NormalizeOrder()
      modifies this
      ensures cells == FirstOccurrences(old(cells))
      ensures edits == old(edits) + |Duplicates(old(cells))|
    {
      var duplicates := FindDuplicates();
      WithoutDuplicates(cells);
      DeletePositions(duplicates);
    }

    /**
     After reconciliation the order is the snapshot's, whatever it was before; an order that was right is not touched.
     */
    method ReconcileOrder(desired: seq<OrderEntry>)
      modifies this
      ensures cells == desired
      ensures old(cells) == desired ==> edits == old(edits)
    {
      DropUnwanted(desired);
      for i := 0 to |desired|
        invariant i <= |cells| && cells[..i] == desired[..i]
        invariant old(cells) == desired ==> cells == desired && edits == old(edits)
      {
        PlaceAt(desired, i);
      }
      DropTail(desired);
    }

    method DropUnwanted(desired: seq<OrderEntry>)
      modifies this
      ensures old(cells) == desired ==> cells == desired && edits == old(edits)
    {
      var index := |cells|;
      while index > 0
        invariant 0 <= index <= |cells|
        invariant old(cells) == desired ==> cells == desired && edits == old(edits)
      {
        index := index - 1;
        if cells[index] !in desired {
          Delete(index);
        }
      }
    }

    /** With the first `i` cells in place, puts the next one there, taking it from further back if it is there. */
    method PlaceAt(desired: seq<OrderEntry>, i: nat)
      requires i < |desired| && i <= |cells| && cells[..i] == desired[..i]
      modifies this
      ensures i < |cells| && cells[..i + 1] == desired[..i + 1]
      ensures old(cells) == desired ==> cells == desired && edits == old(edits)
    {
      if i < |cells| && cells[i] == desired[i] {
        NextInPlace(cells, desired, i);
        return;
      }
      if i < |cells| {
        var current := IndexOf(cells, desired[i], i + 1);
        if current >= 0 {
          FrontStays(cells, current, i);
          Delete(current);
        }
      }
      PutInPlace(cells, desired, i);
      Insert(i, desired[i]);
    }

    method DropTail(desired: seq<OrderEntry>)
      requires |desired| <= |cells| && cells[..|desired|] == desired[..|desired|]
      modifies this
      ensures cells == desired
      ensures old(cells) == desired ==> edits == old(edits)
    {
      while |cells| > |desired|
        invariant |desired| <= |cells| && cells[..|desired|] == desired
        invariant old(cells) == desired ==> cells == desired && edits == old(edits)
      {
        FrontStays(cells, |cells| - 1, |desired|);
        Delete(|cells| - 1);
      }
    }
  }

  lemma FrontStays(cells: seq<OrderEntry>, at: nat, i: nat)
    requires i <= at < |cells|
    ensures (cells[..at] + cells[at + 1..])[..i] == cells[..i]
  {
  }

  lemma NextInPlace(cells: seq<OrderEntry>, desired: seq<OrderEntry>, i: nat)
    requires i < |desired| && i < |cells| && cells[..i] == desired[..i] && cells[i] == desired[i]
    ensures cells[..i + 1] == desired[..i + 1]
  {
    assert cells[..i + 1] == cells[..i] + [cells[i]] && desired[..i + 1] == desired[..i] + [desired[i]];
  }

  lemma PutInPlace(cells: seq<OrderEntry>, desired: seq<OrderEntry>, i: nat)
    requires i < |desired| && i <= |cells| && cells[..i] == desired[..i]
    ensures (cells[..i] + [desired[i]] + cells[i..])[..i + 1] == desired[..i + 1]
  {
    assert (cells[..i] + [desired[i]] + cells[i..])[..i + 1] == cells[..i] + [desired[i]];
    assert desired[..i + 1] == desired[..i] + [desired[i]];
  }

  /** What is left once the positions, all below `bound`, are deleted too. */
  function Remaining(cells: seq<OrderEntry>, bound: nat, positions: seq<nat>): seq<OrderEntry>
    requires bound <= |cells| && Ascending(positions, bound)
  {
    Without(cells[..bound], positions) + cells[bound..]
  }

  lemma NoneDeletedYet(cells: seq<OrderEntry>, positions: seq<nat>)
    requires Ascending(positions, |cells|)
    ensures positions[..|positions|] == positions
    ensures Remaining(cells, |cells|, positions) == Without(cells, positions)
  {
    assert cells[..|cells|] == cells && cells[|cells|..] == [];
  }

  lemma AllDeleted(cells: seq<OrderEntry>, bound: nat, positions: seq<nat>)
    requires bound <= |cells| && positions == []
    ensures Remaining(cells, bound, positions) == cells
  {
  }

  /** Deleting the last of several positions leaves the others to be deleted before it. */
  lemma DeleteLast(cells: seq<OrderEntry>, bound: nat, positions: seq<nat>)
    requires bound <= |cells| && positions != [] && Ascending(positions, bound)
    ensures var last, before := positions[|positions| - 1], positions[..|positions| - 1];
      var rest := cells[..last] + cells[last + 1..];
      Ascending(before, last) && Remaining(rest, last, before) == Remaining(cells, bound, positions)
  {
    var last, before := positions[|positions| - 1], positions[..|positions| - 1];
    var rest := cells[..last] + cells[last + 1..];
    assert cells[..bound][..last] == cells[..last] == rest[..last];
    TailSplit(cells, bound, last);
  }

  lemma TailSplit(cells: seq<OrderEntry>, bound: nat, last: nat)
    requires last < bound <= |cells|
    ensures (cells[..last] + cells[last + 1..])[last..] == cells[..bound][last + 1..] + cells[bound..]
  {
  }
}

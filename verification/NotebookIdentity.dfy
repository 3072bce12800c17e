/**
 Notebook structure (src/core/notebookIdentity.ts): the one splice that turns the cells an editor shows into the
 shared cells, and the first match of cells that carry no identity yet.
 */
module NotebookIdentity {
  import opened Outcomes

  datatype StructureCell = StructureCell(id: string, kind: int, language: string)

  datatype CellSnapshot = CellSnapshot(id: string, kind: int, language: string, source: string)

  datatype UnidentifiedCell = UnidentifiedCell(kind: int, language: string, source: string)

  datatype NotebookSplice = NotebookSplice(start: nat, deleteCount: nat, cells: seq<CellSnapshot>)

  predicate SameStructure(a: StructureCell, b: CellSnapshot) {
    a.id == b.id && a.kind == b.kind && a.language == b.language
  }

  function StructureOf(c: CellSnapshot): StructureCell { StructureCell(c.id, c.kind, c.language) }

  function StructuresOf(cells: seq<CellSnapshot>): seq<StructureCell> {
    seq(|cells|, i requires 0 <= i < |cells| => StructureOf(cells[i]))
  }

  predicate Fits(s: NotebookSplice, current: seq<StructureCell>) { s.start + s.deleteCount <= |current| }

  /** The editor's cells after the splice. */
  function Spliced(current: seq<StructureCell>, s: NotebookSplice): seq<StructureCell>
    requires Fits(s, current)
  {
    current[..s.start] + StructuresOf(s.cells) + current[s.start + s.deleteCount..]
  }

  predicate TurnsInto(current: seq<StructureCell>, s: NotebookSplice, target: seq<CellSnapshot>) {
    Fits(s, current) && Spliced(current, s) == StructuresOf(target)
  }

  /** The first `n` cells agree. */
  ghost predicate PrefixAgrees(current: seq<StructureCell>, target: seq<CellSnapshot>, n: int) {
    0 <= n <= |current| && n <= |target| && forall i :: 0 <= i < n ==> SameStructure(current[i], target[i])
  }

  /** The last `n` cells agree. */
  ghost predicate SuffixAgrees(current: seq<StructureCell>, target: seq<CellSnapshot>, n: int) {
    && 0 <= n <= |current| && n <= |target|
    && forall i :: |current| - n <= i < |current| ==> SameStructure(current[i], target[i + |target| - |current|])
  }

  /** A splice that yields the target keeps a prefix and a suffix on which the two already agree. */
  lemma KeepsAgreeingEnds(current: seq<StructureCell>, s: NotebookSplice, target: seq<CellSnapshot>)
    requires TurnsInto(current, s, target)
    ensures PrefixAgrees(current, target, s.start)
    ensures SuffixAgrees(current, target, |current| - s.start - s.deleteCount)
    ensures |target| == |current| - s.deleteCount + |s.cells|
  {
    var whole := Spliced(current, s);
    assert |whole| == |target|;
    forall i | 0 <= i < s.start ensures SameStructure(current[i], target[i]) {
      assert whole[i] == current[i] && whole[i] == StructureOf(target[i]);
    }
    forall i | s.start + s.deleteCount <= i < |current|
      ensures SameStructure(current[i], target[i + |target| - |current|])
    {
      var k := i + |target| - |current|;
      assert whole[k] == current[i] && whole[k] == StructureOf(target[k]);
    }
  }

  /** Replacing what lies between two agreeing ends yields the target. */
  lemma AgreeingEndsSuffice(current: seq<StructureCell>, target: seq<CellSnapshot>, start: nat, kept: nat)
    requires PrefixAgrees(current, target, start) && SuffixAgrees(current, target, kept)
    requires start + kept <= |current| && start + kept <= |target|
    ensures TurnsInto(current, NotebookSplice(start, |current| - kept - start, target[start..|target| - kept]), target)
  {
    var s := NotebookSplice(start, |current| - kept - start, target[start..|target| - kept]);
    var whole := Spliced(current, s);
    forall i | 0 <= i < |target| ensures whole[i] == StructureOf(target[i]) {
      if i >= |target| - kept {
        var k := i + |current| - |target|;
        assert SameStructure(current[k], target[k + |target| - |current|]);
        assert whole[i] == current[k];
      } else if i < start {
        assert SameStructure(current[i], target[i]);
      }
    }
    assert whole == StructuresOf(target);
  }

  /** The first cells that agree, as far as they go. */
  method CommonPrefix(current: seq<StructureCell>, target: seq<CellSnapshot>) returns (start: nat)
    ensures PrefixAgrees(current, target, start)
    ensures start < |current| && start < |target| ==> !SameStructure(current[start], target[start])
  {
    start := 0;
    while start < |current| && start < |target|
      invariant PrefixAgrees(current, target, start)
    {
      if !SameStructure(current[start], target[start]) {
        break;
      }
      start := start + 1;
    }
  }

  /** The last cells that agree, as far as they go without touching the first `start` cells of either side. */
  method CommonSuffix(current: seq<StructureCell>, target: seq<CellSnapshot>, start: nat)
    returns (currentEnd: nat, targetEnd: nat)
    requires start <= |current| && start <= |target|
    ensures start <= currentEnd <= |current| && start <= targetEnd <= |target|
    ensures |current| - currentEnd == |target| - targetEnd && SuffixAgrees(current, target, |current| - currentEnd)
    ensures start < currentEnd && start < targetEnd ==> !SameStructure(current[currentEnd - 1], target[targetEnd - 1])
  {
    currentEnd, targetEnd := |current|, |target|;
    while currentEnd > start && targetEnd > start
      invariant start <= currentEnd <= |current| && start <= targetEnd <= |target|
      invariant |current| - currentEnd == |target| - targetEnd
      invariant SuffixAgrees(current, target, |current| - currentEnd)
    {
      if !SameStructure(current[currentEnd - 1], target[targetEnd - 1]) {
        break;
      }
      currentEnd := currentEnd - 1;
      targetEnd := targetEnd - 1;
    }
  }

  /** A splice of greedily found ends deletes and inserts no more than any other that yields the target. */
  lemma GreedyEndsAreMinimal(current: seq<StructureCell>, target: seq<CellSnapshot>, start: nat, kept: nat,
                             s: NotebookSplice)
    requires start + kept <= |current| && start + kept <= |target|
    requires start < |current| && start < |target| ==> !SameStructure(current[start], target[start])
    requires start + kept < |current| && start + kept < |target|
      ==> !SameStructure(current[|current| - kept - 1], target[|target| - kept - 1])
    requires TurnsInto(current, s, target)
    ensures |current| - kept - start <= s.deleteCount && |target| - kept - start <= |s.cells|
  {
    KeepsAgreeingEnds(current, s, target);
    assert s.start <= start;
    if start + kept < |current| && start + kept < |target| {
      assert SuffixAgrees(current, target, |current| - s.start - s.deleteCount);
      var i := |current| - kept - 1;
      assert !SameStructure(current[i], target[i + |target| - |current|]);
    }
  }

  lemma StructuresEqual(current: seq<StructureCell>, target: seq<CellSnapshot>)
    ensures current == StructuresOf(target)
      <==> |current| == |target| && PrefixAgrees(current, target, |current|)
  {
    if |current| == |target| && PrefixAgrees(current, target, |current|) {
      forall i | 0 <= i < |current| ensures current[i] == StructureOf(target[i]) {
        assert SameStructure(current[i], target[i]);
      }
    }
  }

  /**
   The splice exists exactly when the structures differ. It turns the current structure into the target, and no
   other splice that does so deletes or inserts fewer cells.
   */
  method MinimalNotebookSplice(current: seq<StructureCell>, target: seq<CellSnapshot>)
    returns (r: Option<NotebookSplice>)
    ensures r.None? <==> current == StructuresOf(target)
    ensures r.Some? ==> TurnsInto(current, r.value, target)
    ensures r.Some? ==> r.value.cells <= target[r.value.start..]
    ensures r.Some? ==> forall s :: TurnsInto(current, s, target) ==> (
                                      r.value.deleteCount <= s.deleteCount && |r.value.cells| <= |s.cells|)
  {
    var start := CommonPrefix(current, target);
    StructuresEqual(current, target);
    if start == |current| && start == |target| {
      return None;
    }
    var currentEnd, targetEnd := CommonSuffix(current, target, start);
    AgreeingEndsSuffice(current, target, start, |current| - currentEnd);
    r := Some(NotebookSplice(start, currentEnd - start, target[start..targetEnd]));
    forall s | TurnsInto(current, s, target)
      ensures r.value.deleteCount <= s.deleteCount && |r.value.cells| <= |s.cells|
    {
      GreedyEndsAreMinimal(current, target, start, |current| - currentEnd, s);
    }
  }

  // ----- Cells without identity -----

  /** A cell without identity is its own fingerprint: kind, language and source. */
  function SnapshotFingerprint(c: CellSnapshot): UnidentifiedCell { UnidentifiedCell(c.kind, c.language, c.source) }

  /** The positions below `n` that hold a cell with fingerprint `key`, in ascending order. */
  function Positions(prints: seq<UnidentifiedCell>, key: UnidentifiedCell, n: nat): (r: seq<nat>)
    requires n <= |prints|
    ensures forall i :: i in r <==> 0 <= i < n && prints[i] == key
  {
    if n == 0 then [] else if prints[n - 1] == key then Positions(prints, key, n - 1) + [n - 1]
    else Positions(prints, key, n - 1)
  }

  ghost predicate IsBucket(prints: seq<UnidentifiedCell>, n: nat, buckets: map<UnidentifiedCell, seq<nat>>,
                           key: UnidentifiedCell)
    requires n <= |prints|
  {
    if key in buckets then buckets[key] == Positions(prints, key, n) else Positions(prints, key, n) == []
  }

  method Buckets(prints: seq<UnidentifiedCell>) returns (buckets: map<UnidentifiedCell, seq<nat>>)
    ensures forall key :: IsBucket(prints, |prints|, buckets, key)
  {
    buckets := map[];
    for i := 0 to |prints|
      invariant forall key :: IsBucket(prints, i, buckets, key)
    {
      var key := prints[i];
      var bucket := if key in buckets then buckets[key] else [];
      ghost var before := buckets;
      buckets := buckets[key := bucket + [i]];
      ghost var next := i + 1;
      forall other {:trigger IsBucket(prints, next, buckets, other)} ensures IsBucket(prints, next, buckets, other) {
        assert IsBucket(prints, i, before, other);
      }
    }
  }

  function Prints(target: seq<CellSnapshot>): seq<UnidentifiedCell> {
    seq(|target|, i requires 0 <= i < |target| => SnapshotFingerprint(target[i]))
  }

  /** Position `j` is the only one with fingerprint `key`. */
  ghost predicate Only(prints: seq<UnidentifiedCell>, j: int, key: UnidentifiedCell) {
    0 <= j < |prints| && prints[j] == key && forall i :: 0 <= i < |prints| && i != j ==> prints[i] != key
  }

  /** Current cell `i` and shared cell `j` have the same content, and nothing else on either side has it. */
  ghost predicate Unambiguous(current: seq<UnidentifiedCell>, target: seq<CellSnapshot>, i: int, j: int) {
    0 <= i < |current| && Only(current, i, current[i]) && Only(Prints(target), j, current[i])
  }

  ghost predicate HasMatch(current: seq<UnidentifiedCell>, target: seq<CellSnapshot>, i: int) {
    exists j :: Unambiguous(current, target, i, j)
  }

  lemma {:induction false} SinglePosition(prints: seq<UnidentifiedCell>, key: UnidentifiedCell, j: int, n: nat)
    requires Only(prints, j, key) && n <= |prints|
    ensures Positions(prints, key, n) == if j < n then [j] else []
  {
    if n > 0 {
      SinglePosition(prints, key, j, n - 1);
    }
  }

  lemma OnlyPosition(prints: seq<UnidentifiedCell>, key: UnidentifiedCell)
    requires |Positions(prints, key, |prints|)| == 1
    ensures Only(prints, Positions(prints, key, |prints|)[0], key)
  {
    var found := Positions(prints, key, |prints|);
    assert found[0] in found;
    forall i | 0 <= i < |prints| && prints[i] == key ensures i == found[0] {
      assert i in found;
    }
  }

  /** What handling one fingerprint does: a cell that is alone on both sides receives an identity. */
  method MatchOne(current: seq<UnidentifiedCell>, target: seq<CellSnapshot>, key: UnidentifiedCell,
                  indexes: seq<nat>, targets: Option<seq<nat>>, before: seq<Option<string>>)
    returns (result: seq<Option<string>>)
    requires |before| == |current| && indexes == Positions(current, key, |current|)
    requires targets.Some? ==> targets.value == Positions(Prints(target), key, |target|)
    requires targets.None? ==> Positions(Prints(target), key, |target|) == []
    ensures |result| == |current|
    ensures forall i, j :: Unambiguous(current, target, i, j) && current[i] == key ==> result[i] == Some(target[j].id)
    ensures forall i :: 0 <= i < |current| && result[i] != before[i] ==> (
        current[i] == key && HasMatch(current, target, i))
  {
    result := before;
    forall i, j | Unambiguous(current, target, i, j) && current[i] == key
      ensures indexes == [i] && targets == Some([j])
    {
      SinglePosition(current, key, i, |current|);
      SinglePosition(Prints(target), key, j, |target|);
    }
    if |indexes| == 1 && targets.Some? && |targets.value| == 1 {
      OnlyPosition(current, key);
      OnlyPosition(Prints(target), key);
      var sourceIndex, matched := indexes[0], targets.value[0];
      assert Unambiguous(current, target, sourceIndex, matched);
      result := before[sourceIndex := Some(target[matched].id)];
    }
  }

  /** Exactly the unambiguous cells receive the identity of the shared cell with the same content. */
  method MatchInitialCellIds(current: seq<UnidentifiedCell>, target: seq<CellSnapshot>)
    returns (result: seq<Option<string>>)
    ensures |result| == |current|
    ensures forall i, j :: Unambiguous(current, target, i, j) ==> result[i] == Some(target[j].id)
    ensures forall i :: 0 <= i < |current| && result[i].Some? ==> HasMatch(current, target, i)
  {
    var currentBuckets := Buckets(current);
    var targetBuckets := Buckets(Prints(target));
    result := seq(|current|, _ => None);
    var todo := currentBuckets.Keys;
    forall i | 0 <= i < |current| ensures current[i] in todo {
      assert IsBucket(current, |current|, currentBuckets, current[i]);
      assert i in Positions(current, current[i], |current|);
    }
    while todo != {}
      invariant todo <= currentBuckets.Keys && |result| == |current|
      invariant forall i, j :: Unambiguous(current, target, i, j) && current[i] !in todo ==> (
          result[i] == Some(target[j].id))
      invariant forall i :: 0 <= i < |current| && result[i].Some? ==> HasMatch(current, target, i)
    {
      var key :| key in todo;
      todo := todo - {key};
      assert IsBucket(current, |current|, currentBuckets, key);
      assert IsBucket(Prints(target), |target|, targetBuckets, key);
      var targets := if key in targetBuckets then Some(targetBuckets[key]) else None;
      result := MatchOne(current, target, key, currentBuckets[key], targets, result);
    }
  }

  /** No identity is given out twice when the shared cells have distinct identities. */
  lemma MatchedIdsAreDistinct(current: seq<UnidentifiedCell>, target: seq<CellSnapshot>, a: int, b: int, i: int, j: int)
    requires forall x, y :: 0 <= x < y < |target| ==> target[x].id != target[y].id
    requires Unambiguous(current, target, a, i) && Unambiguous(current, target, b, j) && a != b
    ensures target[i].id != target[j].id
  {
    assert current[a] != current[b];
  }
}

/**
 Reachable states of the storage adapter that show what the conditions of the main results exclude.
 */
module StorageCases {
  import opened ProjectPaths
  import opened StorageAdapter
  import opened StorageRedirects
  import opened StorageRun

  lemma {:induction false} RunExtends(w: World, events: seq<Event>, e: Event)
    requires IsRun(w, events) && Enabled(Ran(w, events), e)
    ensures IsRun(w, events + [e]) && Ran(w, events + [e]) == Next(Ran(w, events), e)
    decreases |events|
  {
    if events == [] {
      assert [] + [e] == [e] && [e][1..] == [];
    } else {
      assert (events + [e])[1..] == events[1..] + [e];
      RunExtends(Next(w, events[0]), events[1..], e);
    }
  }

  ghost predicate Reachable(w: World) {
    exists events :: IsRun(Start, events) && Ran(Start, events) == w
  }

  lemma Follow(w: World, e: Event)
    requires Reachable(w) && Enabled(w, e)
    ensures Reachable(Next(w, e))
  {
    var events :| IsRun(Start, events) && Ran(Start, events) == w;
    RunExtends(Start, events, e);
  }

  lemma StartReachable()
    ensures Reachable(Start)
  {
    assert IsRun(Start, []) && Ran(Start, []) == Start;
  }

  lemma Apart()
    ensures !Comparable([A], [B]) && [A] != [B]
  {
    assert A.name[0] != B.name[0];
    assert [A][0] != [B][0];
  }

  const AToB := Redirect([A], [B])
  const OldFile: map<Path, nat> := map[[A] := 0]

  /** One old version of `a` is stored, and `a` is scheduled and taken to be written again. */
  const Saving := World(Adapter({}, [], {}, [Flush({[A]})]), Serializing([A], [A], 4), 5, map[[A] := 2], map[],
                        OldFile, OldFile, map[])

  const Mirrored := World(Adapter({}, [], {}, []), Idle, 2, map[], map[], OldFile, OldFile, map[])

  lemma MirroredReachable()
    ensures Reachable(Mirrored)
  {
    StartReachable();
    Follow(Start, IssueMirror([A]));
    var w1 := World(Adapter({}, [], {}, [Mirror([A], 0)]), Idle, 1, map[], map[], map[], map[], map[]);
    assert Next(Start, IssueMirror([A])) == w1;
    Follow(w1, FinishMirror(true, true));
    assert Next(w1, FinishMirror(true, true)) == Mirrored;
  }

  lemma SavingReachable()
    ensures Reachable(Saving)
  {
    MirroredReachable();
    Follow(Mirrored, Schedule([A]));
    var w3 := World(Adapter({[A]}, [], {}, []), Idle, 3, map[[A] := 2], map[], OldFile, OldFile, map[]);
    assert Next(Mirrored, Schedule([A])) == w3;
    Follow(w3, IssueFlush);
    var w4 := World(Adapter({}, [], {}, [Flush({[A]})]), Idle, 4, map[[A] := 2], map[], OldFile, OldFile, map[]);
    assert Next(w3, IssueFlush) == w4;
    Follow(w4, Pick([A]));
    assert Next(w4, Pick([A])) == Saving;
  }

  /** The rename of `a` to `b` is issued. */
  const Renaming := World(Adapter({}, [AToB], {[A]}, [Flush({[A]}), Rename(AToB)]), Serializing([A], [A], 4), 6,
                          map[[B] := 2], map[], OldFile, OldFile, map[])

  lemma MovedFile(m: map<Path, nat>, time: nat)
    requires [A] in m && m[[A]] == time && m.Keys <= {[A], [B]}
    ensures MovedTable(m, AToB) == map[[B] := time]
  {
    Apart();
    var b: Path := [B];
    assert SameOrChild(b, AToB.to) && Back(b, AToB) == [A] && Moved([A], AToB) == b;
    MovedOrigin(m, AToB, b);
    forall q | q in MovedTable(m, AToB) ensures q == b {
      FromOrigin(m, AToB, q);
    }
  }

  lemma RenamingReachable()
    ensures Reachable(Renaming)
  {
    SavingReachable();
    Apart();
    assert Saving.a.redirects + [AToB] == [AToB];
    Follow(Saving, IssueRename(AToB));
    MovedFile(map[[A] := 2], 2);
    assert MovedTable(map[], AToB) == map[];
    var next := Next(Saving, IssueRename(AToB));
    assert next.a.redirects == [AToB] && next.a.removed == {[A]} && next.a.pending == {};
    assert next == Renaming;
  }

  /** The batch writes the new name, the rename is still to come. */
  const Overtaken := World(Adapter({}, [AToB], {[A]}, [Flush({}), Rename(AToB)]), Idle, 7, map[[B] := 2], map[[B] := 4],
                           map[[A] := 0, [B] := 4], map[[A] := 0, [B] := 4], map[])

  lemma OvertakenReachable()
    ensures Reachable(Overtaken)
  {
    RenamingReachable();
    Apart();
    var a: Path := [A];
    assert SameOrChild(a, AToB.from) && AToB.to + a[|AToB.from|..] == [B];
    assert Renaming.a.redirects[1..] == [] && Renaming.a.redirects[0] == AToB;
    assert Replay(Renaming.a.redirects, a) == Replay([], Moved(a, AToB)) == [B];
    assert !IsRemoved({[A]}, [B]);
    Follow(Renaming, Write);
    var next := Next(Renaming, Write);
    assert {a} - {a} == {};
    assert next.a.queue == [Flush({}), Rename(AToB)];
    assert next == Overtaken;
  }

  /**
   A rename issued while the batch that saves its source is being written may put old content back: the batch
   writes the new name, then the rename moves the old file over it. Everything has drained, the scheduled content
   was written, and yet the file under the document's name is older than the last schedule.
   */
  lemma RenameMayRestoreOldContent() returns (w: World)
    ensures Reachable(w) && w.a.queue == [] && w.a.pending == {} && [B] in w.due && [B] in w.working
    ensures WrittenSince(w.written, [B], w.due[[B]]) && w.working[[B]] < w.due[[B]]
  {
    OvertakenReachable();
    Apart();
    Follow(Overtaken, FinishFlush);
    var w1 := Overtaken.(a := Adapter({}, [AToB], {[A]}, [Rename(AToB)]), now := 8);
    assert Next(Overtaken, FinishFlush) == w1;
    Follow(w1, FinishRename(true, true));
    MovedFile(w1.working, 0);
    w := Next(w1, FinishRename(true, true));
  }

  /** The first path ever scheduled is being written. */
  function BeingSaved(p: Path): World {
    World(Adapter({}, [], {}, [Flush({p})]), Serializing(p, p, 2), 3, map[p := 0], map[], map[], map[], map[])
  }

  lemma BeingSavedReachable(p: Path)
    ensures Reachable(BeingSaved(p))
  {
    StartReachable();
    Follow(Start, Schedule(p));
    var w1 := World(Adapter({p}, [], {}, []), Idle, 1, map[p := 0], map[], map[], map[], map[]);
    assert Next(Start, Schedule(p)) == w1;
    Follow(w1, IssueFlush);
    var w2 := World(Adapter({}, [], {}, [Flush({p})]), Idle, 2, map[p := 0], map[], map[], map[], map[]);
    assert Next(w1, IssueFlush) == w2;
    Follow(w2, Pick(p));
    assert Next(w2, Pick(p)) == BeingSaved(p);
  }

  const AX: Path := [A, X]
  const AY: Path := [A, Y]

  lemma Siblings()
    ensures !Comparable(AX, AY) && SameOrChild(AX, [A]) && SameOrChild(AY, [A])
  {
    assert X.name[0] != Y.name[0];
    assert AX[1] != AY[1];
  }

  /** `a/y` is being written while the folder `a` is removed. */
  const Removing := World(Adapter({}, [], {[A]}, [Flush({AY}), Remove([A])]), Serializing(AY, AY, 2), 4, map[], map[],
                          map[], map[], map[[A] := {}])

  lemma RemovingReachable()
    ensures Reachable(Removing)
  {
    BeingSavedReachable(AY);
    Siblings();
    Follow(BeingSaved(AY), IssueRemove([A]));
    assert Next(BeingSaved(AY), IssueRemove([A])) == Removing;
  }

  /** A later call for `a/x` clears the mark of `a`. */
  const MarkCleared := World(Adapter({AX}, [], {}, [Flush({AY}), Remove([A])]), Serializing(AY, AY, 2), 5, map[AX := 4],
                             map[], map[], map[], map[[A] := {AX}])

  lemma MarkClearedReachable()
    ensures Reachable(MarkCleared)
  {
    RemovingReachable();
    Siblings();
    Follow(Removing, Schedule(AX));
    var next := Next(Removing, Schedule(AX));
    var none: set<Path> := {};
    NotedOnly([A], none, {AX});
    assert none + {AX} == {AX};
    assert next.gone == map[[A] := {AX}] && next.a.removed == {} && next.a.pending == {AX};
    assert next == MarkCleared;
  }

  lemma NotedOnly(g: Path, before: set<Path>, paths: set<Path>)
    ensures Noted(map[g := before], paths) == map[g := before + paths]
  {
  }

  /** The batch fails: `a/y` is pending again. */
  const Revived := World(Adapter({AX, AY}, [], {}, [Remove([A])]), Idle, 6, map[AX := 4], map[], map[], map[],
                         map[[A] := {AX, AY}])

  lemma RevivedReachable()
    ensures Reachable(Revived)
  {
    MarkClearedReachable();
    Follow(MarkCleared, Fail(false));
    var next := Next(MarkCleared, Fail(false));
    assert TakenUp(MarkCleared) == {AY};
    NotedOnly([A], {AX}, {AY});
    assert {AX} + {AY} == {AX, AY};
    assert next.gone == map[[A] := {AX, AY}] && next.a.pending == {AX, AY} && next.a.queue == [Remove([A])];
    assert next == Revived;
  }

  /**
   A later call for a sibling clears the mark of a removal: a batch that then fails takes up a path below the removed
   folder that no call named again, and the next batch writes the file anew after the folder was deleted.
   */
  lemma SiblingRevivesRemoved() returns (w: World)
    ensures Reachable(w) && AY in w.working && AY in w.backing && AY !in w.due
  {
    RevivedReachable();
    Siblings();
    Follow(Revived, FinishRemove(true));
    var w0 := Revived.(a := Adapter({AX, AY}, [], {}, []), now := 7);
    assert Without(map[], [A]) == map[];
    assert Next(Revived, FinishRemove(true)) == w0;
    Follow(w0, IssueFlush);
    var w1 := w0.(a := Adapter({}, [], {}, [Flush({AX, AY})]), now := 8);
    assert Next(w0, IssueFlush) == w1;
    Follow(w1, Pick(AY));
    var w2 := w1.(work := Serializing(AY, AY, 8), now := 9);
    assert Next(w1, Pick(AY)) == w2;
    Follow(w2, Write);
    w := Next(w2, Write);
  }

  // ----- A failed rename, a failing batch -----

  /** `a` was scheduled and written to both roots. */
  const Saved := World(Adapter({}, [], {}, []), Idle, 5, map[[A] := 0], map[[A] := 2], map[[A] := 2], map[[A] := 2],
                       map[])

  lemma SavedReachable()
    ensures Reachable(Saved)
  {
    var a: Path := [A];
    BeingSavedReachable(a);
    Follow(BeingSaved(a), Write);
    var w1 := World(Adapter({}, [], {}, [Flush({})]), Idle, 4, map[a := 0], map[a := 2], map[a := 2], map[a := 2],
                    map[]);
    assert {a} - {a} == {};
    assert Next(BeingSaved(a), Write) == w1;
    Follow(w1, FinishFlush);
    assert Next(w1, FinishFlush) == Saved;
  }

  /** The rename of the saved file is queued. */
  const Moving := World(Adapter({}, [AToB], {[A]}, [Rename(AToB)]), Idle, 6, map[[B] := 0], map[[B] := 2],
                        map[[A] := 2], map[[A] := 2], map[])

  lemma MovingReachable()
    ensures Reachable(Moving)
  {
    SavedReachable();
    Apart();
    assert Saved.a.redirects + [AToB] == [AToB];
    Follow(Saved, IssueRename(AToB));
    MovedFile(map[[A] := 0], 0);
    MovedFile(map[[A] := 2], 2);
    var next := Next(Saved, IssueRename(AToB));
    assert next.a.redirects == [AToB] && next.a.removed == {[A]} && next.a.pending == {};
    assert next == Moving;
  }

  /**
   A rename that fails in both roots is not tried again: the document has its new name, its content was written, nothing
   is queued or pending, and neither root has a file of that name.
   */
  lemma FailedRenameLosesFile() returns (w: World)
    ensures Reachable(w) && w.a.queue == [] && w.a.pending == {} && [B] in w.due
    ensures WrittenSince(w.written, [B], w.due[[B]]) && [B] !in w.working && [B] !in w.backing
  {
    MovingReachable();
    Apart();
    Follow(Moving, FinishRename(false, false));
    w := Next(Moving, FinishRename(false, false));
  }

  /** A batch that fails while its path is being renamed takes the path up under its old name: the document is lost. */
  lemma FailureLosesScheduled()
    ensures Reachable(Renaming) && HeadFlush(Renaming) && Renaming.work.Serializing? && [B] in Renaming.due
    ensures !Served(AfterFail(Renaming, false), [B], Renaming.due[[B]])
  {
    RenamingReachable();
    Apart();
    var v := AfterFail(Renaming, false);
    assert v.a.queue == [Rename(AToB)] && v.written == map[];
    assert v.a.pending <= {[A]};
  }
}

/**
 The last step of a project download (src/runtime/bootstrap.ts): the walk that removes what the manifest does not
 name. Paths are compared by portable key; the scratch folder at the top is left out.
 */
module SnapshotTree {
  import opened FiniteSets
  import opened Materialization
  import opened ProjectPaths
  import opened ProjectTree

  const Scratch: Path := [Segment(".pair-notebook-transfers")]

  predicate NodeKept(fs: Tree, fold: Fold, fileKeys: set<Path>, directoryKeys: set<Path>, p: Path)
    requires p in fs
  {
    match fs[p]
    case File(_) => Key(fold, p) in fileKeys
    case Dir => Key(fold, p) in directoryKeys
    case _ => false
  }

  /** What the walk from `dir` leaves: entries named by the manifest, in folders named by the manifest. */
  predicate KeptBelow(fs: Tree, fold: Fold, fileKeys: set<Path>, directoryKeys: set<Path>, dir: Path, p: Path)
    requires p in fs
  {
    SameOrChild(p, Scratch) || (
      NodeKept(fs, fold, fileKeys, directoryKeys, p)
      && forall k :: |dir| < k < |p| ==> Key(fold, p[..k]) in directoryKeys)
  }

  function Visited(fs: Tree, fold: Fold, fileKeys: set<Path>, directoryKeys: set<Path>, dir: Path): Tree {
    map p | p in fs && (Below(p, dir) ==> KeptBelow(fs, fold, fileKeys, directoryKeys, dir, p)) :: fs[p]
  }

  function PartlyVisited(fs: Tree, fold: Fold, fileKeys: set<Path>, directoryKeys: set<Path>, dir: Path,
                         done: set<Path>): Tree {
    map p | p in fs && (Below(p, dir) && Step(dir, p) in done ==> (
                          KeptBelow(fs, fold, fileKeys, directoryKeys, dir, p))) :: fs[p]
  }

  function WithoutTree(fs: Tree, e: Path): Tree { map p | p in fs && !SameOrChild(p, e) :: fs[p] }

  lemma KeptByEntry(fs: Tree, fold: Fold, fileKeys: set<Path>, directoryKeys: set<Path>, dir: Path, e: Path, p: Path)
    requires p in fs && dir <= e < p && |e| == |dir| + 1
    ensures KeptBelow(fs, fold, fileKeys, directoryKeys, dir, p)
      <==> SameOrChild(p, Scratch)
           || (Key(fold, e) in directoryKeys && KeptBelow(fs, fold, fileKeys, directoryKeys, e, p))
  {
    assert e == p[..|dir| + 1];
  }

  lemma PartlyVisitedIsWellFormed(fs: Tree, fold: Fold, fileKeys: set<Path>, directoryKeys: set<Path>, dir: Path,
                                  done: set<Path>)
    requires WellFormed(fs)
    ensures WellFormed(PartlyVisited(fs, fold, fileKeys, directoryKeys, dir, done))
  {
    var v := PartlyVisited(fs, fold, fileKeys, directoryKeys, dir, done);
    forall p, k | p in v && 0 < k < |p| ensures p[..k] in v && v[p[..k]] == Dir {
      var q := p[..k];
      assert q in fs && fs[q] == Dir;
      if Below(q, dir) && Step(dir, q) in done {
        assert Step(dir, q) == Step(dir, p);
        ParentKept(fs, fold, fileKeys, directoryKeys, dir, p, k);
      }
    }
  }

  lemma ParentKept(fs: Tree, fold: Fold, fileKeys: set<Path>, directoryKeys: set<Path>, dir: Path, p: Path, k: int)
    requires WellFormed(fs) && p in fs && |dir| < k < |p| && KeptBelow(fs, fold, fileKeys, directoryKeys, dir, p)
    ensures p[..k] in fs && KeptBelow(fs, fold, fileKeys, directoryKeys, dir, p[..k])
  {
    var q := p[..k];
    assert q in fs && fs[q] == Dir;
    if SameOrChild(p, Scratch) {
      assert q[..1] == p[..1] == Scratch;
    } else {
      forall j | |dir| < j < |q| ensures Key(fold, q[..j]) in directoryKeys {
        assert q[..j] == p[..j];
      }
    }
  }

  /** An entry that stays, or whose whole tree goes. */
  lemma EntryDone(fs: Tree, fold: Fold, fileKeys: set<Path>, directoryKeys: set<Path>, dir: Path, done: set<Path>,
                  e: Path)
    requires !SameOrChild(dir, Scratch) && WellFormed(fs) && e in Entries(fs, dir) && e !in done
    ensures var v := PartlyVisited(fs, fold, fileKeys, directoryKeys, dir, done);
      var w := PartlyVisited(fs, fold, fileKeys, directoryKeys, dir, done + {e});
      (e == Scratch ==> w == v)
      && (e != Scratch && !fs[e].Dir? && NodeKept(fs, fold, fileKeys, directoryKeys, e) ==> w == v)
      && (e != Scratch && !NodeKept(fs, fold, fileKeys, directoryKeys, e) ==> w == WithoutTree(v, e))
  {
    forall p | p in fs && SameOrChild(p, e)
      ensures Below(p, dir) && Step(dir, p) == e
      ensures e == Scratch ==> KeptBelow(fs, fold, fileKeys, directoryKeys, dir, p)
      ensures e != Scratch && !fs[e].Dir? && NodeKept(fs, fold, fileKeys, directoryKeys, e)
        ==> KeptBelow(fs, fold, fileKeys, directoryKeys, dir, p)
      ensures e != Scratch && !NodeKept(fs, fold, fileKeys, directoryKeys, e)
        ==> !KeptBelow(fs, fold, fileKeys, directoryKeys, dir, p)
    {
      StepOfEntry(dir, e, p);
      EntryFate(fs, fold, fileKeys, directoryKeys, dir, e, p);
    }
    forall p | p in fs && Below(p, dir) && Step(dir, p) == e ensures SameOrChild(p, e) {
      StepOfEntry(dir, e, p);
    }
  }

  /** Outside the scratch folder, only its own entry leads into it. */
  lemma OutsideScratch(dir: Path, e: Path, p: Path)
    requires !SameOrChild(dir, Scratch) && |e| == |dir| + 1 && dir <= e <= p && e != Scratch
    ensures !SameOrChild(p, Scratch) && !SameOrChild(e, Scratch)
  {
    if |dir| > 0 {
      assert dir[..1] == p[..1] == e[..1];
    } else {
      assert e == p[..1];
    }
  }

  lemma EntryFate(fs: Tree, fold: Fold, fileKeys: set<Path>, directoryKeys: set<Path>, dir: Path, e: Path, p: Path)
    requires !SameOrChild(dir, Scratch) && WellFormed(fs) && e in Entries(fs, dir) && p in fs && SameOrChild(p, e)
    ensures e == Scratch ==> KeptBelow(fs, fold, fileKeys, directoryKeys, dir, p)
    ensures e != Scratch && !fs[e].Dir? && NodeKept(fs, fold, fileKeys, directoryKeys, e)
      ==> KeptBelow(fs, fold, fileKeys, directoryKeys, dir, p)
    ensures e != Scratch && !NodeKept(fs, fold, fileKeys, directoryKeys, e)
      ==> !KeptBelow(fs, fold, fileKeys, directoryKeys, dir, p)
  {
    SameOrBelow(p, e);
    if !fs[e].Dir? {
      NothingBelowLeaf(fs, e, p);
    }
    if e == Scratch {
      return;
    }
    OutsideScratch(dir, e, p);
    if p != e {
      KeptByEntry(fs, fold, fileKeys, directoryKeys, dir, e, p);
      assert p[..|e|] == e;
    }
  }

  /** An entry that is a wanted folder and was walked itself. */
  lemma FolderDone(fs: Tree, fold: Fold, fileKeys: set<Path>, directoryKeys: set<Path>, dir: Path, done: set<Path>,
                   e: Path)
    requires !SameOrChild(dir, Scratch) && WellFormed(fs) && e in Entries(fs, dir) && e !in done
    requires e != Scratch && fs[e] == Dir && Key(fold, e) in directoryKeys
    ensures var v := PartlyVisited(fs, fold, fileKeys, directoryKeys, dir, done);
      Visited(v, fold, fileKeys, directoryKeys, e) == PartlyVisited(fs, fold, fileKeys, directoryKeys, dir, done + {e})
  {
    var v := PartlyVisited(fs, fold, fileKeys, directoryKeys, dir, done);
    var w := PartlyVisited(fs, fold, fileKeys, directoryKeys, dir, done + {e});
    forall p ensures p in Visited(v, fold, fileKeys, directoryKeys, e) <==> p in w {
      StepOfEntry(dir, e, p);
      SameOrBelow(p, e);
      if p in fs && Below(p, e) {
        KeptByEntry(fs, fold, fileKeys, directoryKeys, dir, e, p);
        assert KeptBelow(fs, fold, fileKeys, directoryKeys, e, p)
            == (p in v && KeptBelow(v, fold, fileKeys, directoryKeys, e, p));
      }
    }
  }

  /** The walk, in place. */
  method Visit(folder: Folder, fold: Fold, fileKeys: set<Path>, directoryKeys: set<Path>, dir: Path, ghost bound: nat)
    requires WellFormed(folder.fs) && DepthWithin(folder.fs, bound) && |dir| <= bound && !SameOrChild(dir, Scratch)
    modifies folder`fs
    ensures folder.fs == Visited(old(folder.fs), fold, fileKeys, directoryKeys, dir)
    decreases bound - |dir|
  {
    ghost var before := folder.fs;
    var todo := Entries(folder.fs, dir);
    ghost var done: set<Path> := {};
    assert PartlyVisited(before, fold, fileKeys, directoryKeys, dir, {}) == before;
    while todo != {}
      invariant todo !! done && todo + done == Entries(before, dir)
      invariant folder.fs == PartlyVisited(before, fold, fileKeys, directoryKeys, dir, done)
    {
      var entry :| entry in todo;
      VisitEntry(folder, fold, fileKeys, directoryKeys, dir, entry, before, done, bound);
      MoveOne(todo, done, entry);
      todo, done := todo - {entry}, done + {entry};
    }
    assert done == Entries(before, dir);
    forall p | p in before && Below(p, dir) ensures Step(dir, p) in done {
      StepIsEntry(before, dir, p);
    }
  }

  method VisitEntry(folder: Folder, fold: Fold, fileKeys: set<Path>, directoryKeys: set<Path>, dir: Path, entry: Path,
                    ghost before: Tree, ghost done: set<Path>, ghost bound: nat)
    requires WellFormed(before) && DepthWithin(before, bound) && !SameOrChild(dir, Scratch)
    requires entry in Entries(before, dir) && entry !in done
    requires folder.fs == PartlyVisited(before, fold, fileKeys, directoryKeys, dir, done)
    modifies folder`fs
    ensures folder.fs == PartlyVisited(before, fold, fileKeys, directoryKeys, dir, done + {entry})
    decreases bound - |dir|, 0
  {
    EntryDone(before, fold, fileKeys, directoryKeys, dir, done, entry);
    PartlyVisitedIsWellFormed(before, fold, fileKeys, directoryKeys, dir, done);
    if entry == Scratch {
      return;
    }
    StepOfEntry(dir, entry, entry);
    assert entry in folder.fs && folder.fs[entry] == before[entry];
    var key := Key(fold, entry);
    if !folder.fs[entry].File? && !folder.fs[entry].Dir? {
      folder.fs := WithoutTree(folder.fs, entry);
    } else if folder.fs[entry].File? {
      if key !in fileKeys {
        folder.fs := WithoutTree(folder.fs, entry);
      }
    } else if key !in directoryKeys {
      folder.fs := WithoutTree(folder.fs, entry);
    } else {
      OutsideScratch(dir, entry, entry);
      FolderDone(before, fold, fileKeys, directoryKeys, dir, done, entry);
      Visit(folder, fold, fileKeys, directoryKeys, entry, bound);
    }
  }
}

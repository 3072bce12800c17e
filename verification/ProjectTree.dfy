/**
 Folders on disk as the storage adapter sees them (src/core/persistence.ts, with the scans of src/core/projectFiles.ts).

 A tree maps every existing path below its root to what is there. Which paths are shared with other participants is
 a predicate on paths; an entry is shared when it and every folder above it are. Links and special files are never
 shared.
 */
module ProjectTree {
  import opened Bytes
  import opened FiniteSets
  import opened ProjectPaths

  datatype Node = File(bytes: seq<Byte>) | Dir | Link | Special

  type Tree = map<Path, Node>

  type Tracking = Path -> bool

  predicate Below(p: Path, dir: Path) { dir < p }

  /** Every path from just below `base` down to `p` is tracked. */
  predicate TrackedBelow(track: Tracking, base: Path, p: Path) {
    forall k :: |base| < k <= |p| ==> track(p[..k])
  }

  predicate IsShared(track: Tracking, p: Path) { TrackedBelow(track, [], p) }

  predicate IsHostOnlyNode(n: Node) { n.Link? || n.Special? }

  /** Folders contain what lies below them. */
  predicate WellFormed(fs: Tree) {
    forall p :: p in fs ==> p != [] && forall k :: 0 < k < |p| ==> p[..k] in fs && fs[p[..k]] == Dir
  }

  predicate DepthWithin(fs: Tree, bound: nat) { forall p :: p in fs ==> |p| <= bound }

  function Entries(fs: Tree, dir: Path): set<Path> { set p | p in fs && |p| == |dir| + 1 && dir <= p }

  predicate HasEntry(fs: Tree, dir: Path) { exists p :: p in fs && Below(p, dir) }

  /** The entry of `dir` on the way to `p`. */
  function Step(dir: Path, p: Path): Path
    requires Below(p, dir)
  {
    p[..|dir| + 1]
  }

  lemma StepIsEntry(fs: Tree, dir: Path, p: Path)
    requires WellFormed(fs) && p in fs && Below(p, dir)
    ensures Step(dir, p) in Entries(fs, dir)
    ensures p != Step(dir, p) ==> Below(p, Step(dir, p)) && fs[Step(dir, p)] == Dir
  {
    var e := Step(dir, p);
    assert dir == p[..|dir|];
    assert e[..|dir|] == dir;
    if e != p {
      assert p[..|dir| + 1] in fs;
      assert p == e + p[|dir| + 1..];
    } else {
      assert |p| == |dir| + 1;
    }
  }

  lemma TrackedSplit(track: Tracking, dir: Path, e: Path, p: Path)
    requires dir <= e <= p && |e| == |dir| + 1
    ensures TrackedBelow(track, dir, p) <==> track(e) && TrackedBelow(track, e, p)
  {
    assert e == p[..|dir| + 1];
  }

  // ----- Scans -----

  ghost function FilesBelow(fs: Tree, track: Tracking, dir: Path): set<Path> {
    set p | p in fs && Below(p, dir) && TrackedBelow(track, dir, p) && fs[p].File?
  }

  ghost function FoldersBelow(fs: Tree, track: Tracking, dir: Path): set<Path> {
    set p | p in fs && Below(p, dir) && TrackedBelow(track, dir, p) && fs[p].Dir?
  }

  /** A listed file is a tracked entry or lies below one. */
  ghost predicate FileVia(fs: Tree, track: Tracking, e: Path, p: Path)
    requires e in fs
  {
    track(e) && ((p == e && fs[e].File?) || (fs[e].Dir? && p in FilesBelow(fs, track, e)))
  }

  ghost predicate FolderVia(fs: Tree, track: Tracking, e: Path, p: Path)
    requires e in fs
  {
    track(e) && fs[e].Dir? && (p == e || p in FoldersBelow(fs, track, e))
  }

  lemma FilesByEntry(fs: Tree, track: Tracking, dir: Path, p: Path)
    requires WellFormed(fs)
    ensures p in FilesBelow(fs, track, dir) <==> exists e :: e in Entries(fs, dir) && FileVia(fs, track, e, p)
  {
    if p in FilesBelow(fs, track, dir) {
      var e := Step(dir, p);
      StepIsEntry(fs, dir, p);
      TrackedSplit(track, dir, e, p);
      assert e in Entries(fs, dir) && FileVia(fs, track, e, p);
    }
    forall e | e in Entries(fs, dir) && FileVia(fs, track, e, p) ensures p in FilesBelow(fs, track, dir) {
      TrackedSplit(track, dir, e, p);
    }
  }

  lemma FoldersByEntry(fs: Tree, track: Tracking, dir: Path, p: Path)
    requires WellFormed(fs)
    ensures p in FoldersBelow(fs, track, dir) <==> exists e :: e in Entries(fs, dir) && FolderVia(fs, track, e, p)
  {
    if p in FoldersBelow(fs, track, dir) {
      var e := Step(dir, p);
      StepIsEntry(fs, dir, p);
      TrackedSplit(track, dir, e, p);
      assert e in Entries(fs, dir) && FolderVia(fs, track, e, p);
    }
    forall e | e in Entries(fs, dir) && FolderVia(fs, track, e, p) ensures p in FoldersBelow(fs, track, dir) {
      TrackedSplit(track, dir, e, p);
    }
  }

  /** The walk that lists shared files. */
  method ScanFiles(fs: Tree, track: Tracking, dir: Path, ghost bound: nat) returns (result: set<Path>)
    requires WellFormed(fs) && DepthWithin(fs, bound) && |dir| <= bound
    ensures result == FilesBelow(fs, track, dir)
    decreases bound - |dir|
  {
    result := {};
    var todo := Entries(fs, dir);
    ghost var entries := todo;
    while todo != {}
      invariant todo <= entries
      invariant forall p :: p in result <==> exists e :: e in entries && e !in todo && FileVia(fs, track, e, p)
    {
      var entry :| entry in todo;
      todo := todo - {entry};
      if !track(entry) {
        continue;
      }
      if fs[entry].Dir? {
        var inner := ScanFiles(fs, track, entry, bound);
        result := result + inner;
      } else if fs[entry].File? {
        result := result + {entry};
      }
    }
    forall p ensures p in result <==> p in FilesBelow(fs, track, dir) {
      FilesByEntry(fs, track, dir, p);
    }
  }

  method ScanFolders(fs: Tree, track: Tracking, dir: Path, ghost bound: nat) returns (result: set<Path>)
    requires WellFormed(fs) && DepthWithin(fs, bound) && |dir| <= bound
    ensures result == FoldersBelow(fs, track, dir)
    decreases bound - |dir|
  {
    result := {};
    var todo := Entries(fs, dir);
    ghost var entries := todo;
    while todo != {}
      invariant todo <= entries
      invariant forall p :: p in result <==> exists e :: e in entries && e !in todo && FolderVia(fs, track, e, p)
    {
      var entry :| entry in todo;
      todo := todo - {entry};
      if fs[entry].Dir? && track(entry) {
        var inner := ScanFolders(fs, track, entry, bound);
        result := result + {entry} + inner;
      }
    }
    forall p ensures p in result <==> p in FoldersBelow(fs, track, dir) {
      FoldersByEntry(fs, track, dir, p);
    }
  }

  // ----- Removing a shared path -----

  /** What a synchronized deletion of `root` leaves at or below it for its own sake. */
  predicate Stays(fs: Tree, track: Tracking, root: Path, q: Path)
    requires q in fs
  {
    !TrackedBelow(track, root, q) || (IsHostOnlyNode(fs[q]) && q != root)
  }

  predicate HoldsStaying(fs: Tree, track: Tracking, root: Path, p: Path) {
    exists q :: q in fs && Below(q, p) && Stays(fs, track, root, q)
  }

  /** Host-only entries survive, and the folders that contain them. */
  predicate Survives(fs: Tree, track: Tracking, root: Path, p: Path)
    requires p in fs
  {
    !SameOrChild(p, root) || Stays(fs, track, root, p) || (fs[p].Dir? && HoldsStaying(fs, track, root, p))
  }

  function Pruned(fs: Tree, track: Tracking, root: Path): Tree {
    map p | p in fs && Survives(fs, track, root, p) :: fs[p]
  }

  /** The tree when the entries `done` of `root` have been dealt with. */
  function PartlyPruned(fs: Tree, track: Tracking, root: Path, done: set<Path>): Tree {
    map p | p in fs && (Below(p, root) && Step(root, p) in done ==> Survives(fs, track, root, p)) :: fs[p]
  }

  lemma ParentsSurvive(fs: Tree, track: Tracking, root: Path, p: Path, k: int)
    requires WellFormed(fs) && p in fs && 0 < k < |p| && Survives(fs, track, root, p) && SameOrChild(p[..k], root)
    ensures p[..k] in fs && Survives(fs, track, root, p[..k])
  {
    assert fs[p[..k]] == Dir && Below(p, p[..k]);
    if !Stays(fs, track, root, p) {
      var q :| q in fs && Below(q, p) && Stays(fs, track, root, q);
      assert q[..k] == p[..k];
      assert Below(q, p[..k]);
    }
  }

  lemma PartlyPrunedIsWellFormed(fs: Tree, track: Tracking, root: Path, done: set<Path>)
    requires WellFormed(fs)
    ensures WellFormed(PartlyPruned(fs, track, root, done))
  {
    var v := PartlyPruned(fs, track, root, done);
    forall p, k | p in v && 0 < k < |p| ensures p[..k] in v && v[p[..k]] == Dir {
      assert p[..k] in fs && fs[p[..k]] == Dir;
      if Below(p[..k], root) && Step(root, p[..k]) in done {
        assert Step(root, p[..k]) == Step(root, p);
        ParentsSurvive(fs, track, root, p, k);
      }
    }
  }

  lemma EntrySurvival(fs: Tree, track: Tracking, root: Path, e: Path, p: Path)
    requires WellFormed(fs) && e in Entries(fs, root) && track(e) && !IsHostOnlyNode(fs[e])
    requires p in fs && SameOrChild(p, e)
    ensures Survives(fs, track, root, p) <==> Survives(fs, track, e, p)
  {
    forall q | q in fs && SameOrChild(q, e) ensures Stays(fs, track, root, q) <==> Stays(fs, track, e, q) {
      TrackedSplit(track, root, e, q);
    }
  }

  lemma SkippedSurvives(fs: Tree, track: Tracking, root: Path, e: Path, p: Path)
    requires WellFormed(fs) && e in Entries(fs, root) && (!track(e) || IsHostOnlyNode(fs[e]))
    requires p in fs && SameOrChild(p, e)
    ensures Survives(fs, track, root, p)
  {
    if !track(e) {
      TrackedSplit(track, root, e, p);
    } else {
      NothingBelowLeaf(fs, e, p);
    }
  }

  /** Only folders have anything below them. */
  lemma NothingBelowLeaf(fs: Tree, e: Path, p: Path)
    requires WellFormed(fs) && e in fs && fs[e] != Dir && p in fs && SameOrChild(p, e)
    ensures p == e
  {
    SameOrBelow(p, e);
    assert e == p[..|e|];
  }

  lemma SameOrBelow(p: Path, root: Path)
    ensures SameOrChild(p, root) <==> p == root || Below(p, root)
  {
    if SameOrChild(p, root) && |p| == |root| {
      assert p == root;
    }
  }

  lemma SameBelowSurvives(fs: Tree, v: Tree, track: Tracking, e: Path, p: Path)
    requires forall q :: SameOrChild(q, e) ==> (q in v <==> q in fs) && (q in v ==> v[q] == fs[q])
    requires p in fs && SameOrChild(p, e)
    ensures Survives(v, track, e, p) <==> Survives(fs, track, e, p)
  {
    if HoldsStaying(fs, track, e, p) {
      var q :| q in fs && Below(q, p) && Stays(fs, track, e, q);
      assert q in v && Stays(v, track, e, q);
    }
    if HoldsStaying(v, track, e, p) {
      var q :| q in v && Below(q, p) && Stays(v, track, e, q);
      assert q in fs && Stays(fs, track, e, q);
    }
  }

  lemma StepOfEntry(root: Path, e: Path, p: Path)
    requires |e| == |root| + 1 && root <= e
    ensures SameOrChild(p, e) <==> Below(p, root) && Step(root, p) == e
  {
    if SameOrChild(p, e) {
      assert p[..|root| + 1] == e;
    }
  }

  lemma PruneEntry(fs: Tree, track: Tracking, root: Path, done: set<Path>, e: Path)
    requires WellFormed(fs) && e in Entries(fs, root) && e !in done && track(e) && !IsHostOnlyNode(fs[e])
    ensures Pruned(PartlyPruned(fs, track, root, done), track, e) == PartlyPruned(fs, track, root, done + {e})
  {
    var v := PartlyPruned(fs, track, root, done);
    forall q ensures SameOrChild(q, e) ==> (q in v <==> q in fs) {
      StepOfEntry(root, e, q);
    }
    forall p | p in v ensures Survives(v, track, e, p) <==> p in PartlyPruned(fs, track, root, done + {e}) {
      StepOfEntry(root, e, p);
      if SameOrChild(p, e) {
        SameBelowSurvives(fs, v, track, e, p);
        EntrySurvival(fs, track, root, e, p);
      }
    }
  }

  lemma SkipEntry(fs: Tree, track: Tracking, root: Path, done: set<Path>, e: Path)
    requires WellFormed(fs) && e in Entries(fs, root) && (!track(e) || IsHostOnlyNode(fs[e]))
    ensures PartlyPruned(fs, track, root, done) == PartlyPruned(fs, track, root, done + {e})
  {
    forall p | p in fs && Below(p, root) && Step(root, p) == e ensures Survives(fs, track, root, p) {
      StepOfEntry(root, e, p);
      SkippedSurvives(fs, track, root, e, p);
    }
  }

  /** With all entries dealt with, the folder itself goes exactly when nothing is left in it. */
  lemma FinishFolder(fs: Tree, track: Tracking, root: Path)
    requires WellFormed(fs) && root in fs && fs[root] == Dir
    ensures var v := PartlyPruned(fs, track, root, Entries(fs, root));
      Pruned(fs, track, root) == if HasEntry(v, root) then v else v - {root}
  {
    var v := PartlyPruned(fs, track, root, Entries(fs, root));
    forall p | p in fs && Below(p, root) ensures Step(root, p) in Entries(fs, root) {
      StepIsEntry(fs, root, p);
    }
    assert HasEntry(v, root) <==> HoldsStaying(fs, track, root, root) by {
      if HasEntry(v, root) {
        var p :| p in v && Below(p, root);
        if !Stays(fs, track, root, p) {
          var q :| q in fs && Below(q, p) && Stays(fs, track, root, q);
          assert Below(q, root);
        }
      }
      if HoldsStaying(fs, track, root, root) {
        var q :| q in fs && Below(q, root) && Stays(fs, track, root, q);
        assert q in v;
      }
    }
    assert !Stays(fs, track, root, root);
    forall p | p in fs ensures p in Pruned(fs, track, root) <==> p in (if HasEntry(v, root) then v else v - {root}) {
      SameOrBelow(p, root);
    }
  }

  /** Whatever lies below an existing entry's path leads through it. */
  lemma RootAbove(fs: Tree, root: Path, p: Path)
    requires WellFormed(fs) && p in fs && SameOrChild(p, root) && root != []
    ensures root in fs
  {
    assert p[..|root|] == root;
    SameOrBelow(p, root);
  }

  lemma PruneLeaf(fs: Tree, track: Tracking, root: Path)
    requires WellFormed(fs) && (root in fs ==> fs[root].File? || fs[root].Special?) && root != []
    ensures Pruned(fs, track, root) == fs - {root}
  {
    forall p | p in fs && SameOrChild(p, root) ensures p == root && !Survives(fs, track, root, p) {
      RootAbove(fs, root, p);
      NothingBelowLeaf(fs, root, p);
    }
  }

  // ----- The class of the source -----

  /** A link on the way to `p`, or at `p` itself. */
  predicate CrossesLink(fs: Tree, p: Path, upTo: nat)
    requires upTo <= |p|
  {
    exists k :: 0 < k <= upTo && p[..k] in fs && fs[p[..k]] == Link
  }

  class Folder {
    const track: Tracking
    var fs: Tree

    constructor (track: Tracking, fs: Tree)
      ensures this.track == track && this.fs == fs
    {
      this.track, this.fs := track, fs;
    }

    /** Checks the way to a path for links, as far as it exists. */
    method IsSafe(p: Path, upTo: nat) returns (safe: bool)
      requires WellFormed(fs) && upTo <= |p|
      ensures safe <==> !CrossesLink(fs, p, upTo)
    {
      for k := 1 to upTo + 1
        invariant forall j :: 0 < j < k ==> p[..j] in fs && fs[p[..j]] != Link
      {
        if p[..k] !in fs {
          NothingBeyond(fs, p, k, upTo);
          return true;
        }
        if fs[p[..k]] == Link {
          return false;
        }
      }
      return true;
    }

    method RemoveEmptyFolder(p: Path)
      requires WellFormed(fs) && p in fs && fs[p] == Dir
      modifies this`fs
      ensures fs == if HasEntry(old(fs), p) then old(fs) else old(fs) - {p}
    {
      if !HasEntry(fs, p) {
        fs := fs - {p};
      }
    }

    /**
     Removes the shared files at and below a path and the folders this empties, and nothing else; refused when the
     way crosses a link.
     */
    method RemoveShared(p: Path, ghost bound: nat) returns (ok: bool)
      requires WellFormed(fs) && DepthWithin(fs, bound) && 0 < |p|
      modifies this`fs
      ensures ok <==> !CrossesLink(old(fs), p, |p|)
      ensures fs == if ok then Pruned(old(fs), track, p) else old(fs)
      decreases bound - |p|
    {
      ok := IsSafe(p, |p|);
      if !ok {
        return;
      }
      ghost var before := fs;
      if p !in fs || fs[p] != Dir {
        assert p[..|p|] == p;
        PruneLeaf(fs, track, p);
        fs := fs - {p};
        return;
      }
      var todo := Entries(fs, p);
      ghost var done: set<Path> := {};
      assert PartlyPruned(before, track, p, {}) == before;
      while todo != {}
        invariant todo !! done && todo + done == Entries(before, p)
        invariant fs == PartlyPruned(before, track, p, done)
      {
        var child :| child in todo;
        RemoveEntry(before, done, p, child, bound);
        MoveOne(todo, done, child);
        todo, done := todo - {child}, done + {child};
      }
      assert done == Entries(before, p);
      PartlyPrunedIsWellFormed(before, track, p, done);
      FinishFolder(before, track, p);
      RemoveEmptyFolder(p);
    }

    method RemoveEntry(ghost before: Tree, ghost done: set<Path>, p: Path, child: Path, ghost bound: nat)
      requires WellFormed(before) && DepthWithin(before, bound) && p in before && before[p] == Dir
      requires fs == PartlyPruned(before, track, p, done) && child in Entries(before, p) && child !in done
      requires !CrossesLink(before, p, |p|)
      modifies this`fs
      ensures fs == PartlyPruned(before, track, p, done + {child})
      decreases bound - |p|, 0
    {
      PartlyPrunedIsWellFormed(before, track, p, done);
      StepOfEntry(p, child, child);
      assert child in fs && fs[child] == before[child];
      if !track(child) || (!fs[child].File? && !fs[child].Dir?) {
        SkipEntry(before, track, p, done, child);
        return;
      }
      NoLinkToEntry(before, fs, p, child);
      var removed := RemoveShared(child, bound);
      PruneEntry(before, track, p, done, child);
    }
  }

  /** Beyond a path that does not exist nothing exists. */
  lemma NothingBeyond(fs: Tree, p: Path, k: nat, upTo: nat)
    requires WellFormed(fs) && 0 < k <= upTo <= |p| && p[..k] !in fs
    requires forall j :: 0 < j < k ==> p[..j] in fs && fs[p[..j]] != Link
    ensures !CrossesLink(fs, p, upTo)
  {
    forall j | k < j <= upTo ensures p[..j] !in fs {
      assert p[..j][..k] == p[..k];
    }
  }

  lemma NoLinkToEntry(before: Tree, fs: Tree, p: Path, child: Path)
    requires !CrossesLink(before, p, |p|) && child in Entries(before, p) && before[child] != Link
    requires forall q :: q in fs ==> q in before && fs[q] == before[q]
    ensures !CrossesLink(fs, child, |child|)
  {
    forall k | 0 < k <= |child| && child[..k] in fs ensures fs[child[..k]] != Link {
      if k <= |p| {
        assert child[..k] == p[..k];
      } else {
        assert child[..k] == child;
      }
    }
  }

  // ----- What a removal means -----

  lemma SharedSplit(track: Tracking, root: Path, p: Path)
    requires SameOrChild(p, root) && IsShared(track, root)
    ensures TrackedBelow(track, root, p) <==> IsShared(track, p)
  {
    if TrackedBelow(track, root, p) {
      forall k | 0 < k <= |p| ensures track(p[..k]) {
        if k <= |root| {
          assert p[..k] == root[..k];
        }
      }
    }
  }

  /** An entry that other participants never see. */
  predicate IsHostOnly(fs: Tree, track: Tracking, p: Path)
    requires p in fs
  {
    !IsShared(track, p) || IsHostOnlyNode(fs[p])
  }

  /**
   Deleting a shared path removes every shared file at or below it, keeps every host-only entry below it and
   everything elsewhere, and keeps exactly the folders that still contain a host-only entry.
   */
  lemma RemovalKeepsHostOnly(fs: Tree, track: Tracking, root: Path, p: Path)
    requires WellFormed(fs) && IsShared(track, root) && p in fs
    ensures !SameOrChild(p, root) ==> p in Pruned(fs, track, root)
    ensures Below(p, root) && IsHostOnly(fs, track, p) ==> p in Pruned(fs, track, root)
    ensures SameOrChild(p, root) && IsShared(track, p) && fs[p].File? ==> p !in Pruned(fs, track, root)
    ensures SameOrChild(p, root) && IsShared(track, p) && fs[p].Dir? ==> (
              p in Pruned(fs, track, root) <==> exists q :: q in fs && Below(q, p) && IsHostOnly(fs, track, q))
    ensures p in Pruned(fs, track, root) ==> Pruned(fs, track, root)[p] == fs[p]
  {
    if SameOrChild(p, root) {
      SharedSplit(track, root, p);
      forall q | q in fs && Below(q, p) ensures Stays(fs, track, root, q) <==> IsHostOnly(fs, track, q) {
        SharedSplit(track, root, q);
      }
    }
  }
}

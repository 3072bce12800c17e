/**
 Comparing a folder with a project (src/core/persistence.ts), and what the comparison says after the project was
 written there.
 */
module FolderInspection {
  import opened Bytes
  import opened Materialization
  import opened Outcomes
  import opened ProjectPaths
  import opened ProjectTree

  // ----- Inspection -----

  /** A folder whose shared content is nothing but folders, each holding something that is not shared. */
  ghost predicate IsPrivate(fs: Tree, track: Tracking, d: Path) {
    HasEntry(fs, d)
    && forall q :: q in fs && Below(q, d) && TrackedBelow(track, d, q) ==> (
                     IsHostOnlyNode(fs[q]) || (fs[q].Dir? && HasEntry(fs, q)))
  }

  /** What the inspection asks of one entry of a folder. */
  predicate EntryIsPrivate(fs: Tree, track: Tracking, private: set<Path>, e: Path)
    requires e in fs
  {
    !track(e) || IsHostOnlyNode(fs[e]) || (fs[e].Dir? && e in private)
  }

  lemma EntriesExist(fs: Tree, d: Path)
    requires WellFormed(fs)
    ensures Entries(fs, d) != {} <==> HasEntry(fs, d)
  {
    if HasEntry(fs, d) {
      var p :| p in fs && Below(p, d);
      StepIsEntry(fs, d, p);
    }
  }

  lemma PrivateByEntries(fs: Tree, track: Tracking, private: set<Path>, d: Path)
    requires WellFormed(fs)
    requires forall e :: e in Entries(fs, d) && track(e) && fs[e].Dir? ==> (e in private <==> IsPrivate(fs, track, e))
    ensures IsPrivate(fs, track, d)
      <==> Entries(fs, d) != {} && forall e :: e in Entries(fs, d) ==> EntryIsPrivate(fs, track, private, e)
  {
    EntriesExist(fs, d);
    if IsPrivate(fs, track, d) {
      forall e | e in Entries(fs, d) ensures EntryIsPrivate(fs, track, private, e) {
        if track(e) {
          PrivateEntry(fs, track, d, e);
        }
      }
    } else if Entries(fs, d) != {} {
      var q :| q in fs && Below(q, d) && TrackedBelow(track, d, q)
               && !IsHostOnlyNode(fs[q]) && !(fs[q].Dir? && HasEntry(fs, q));
      var e := Step(d, q);
      StepIsEntry(fs, d, q);
      TrackedSplit(track, d, e, q);
      assert !EntryIsPrivate(fs, track, private, e);
    }
  }

  lemma PrivateEntry(fs: Tree, track: Tracking, d: Path, e: Path)
    requires WellFormed(fs) && IsPrivate(fs, track, d) && e in Entries(fs, d) && track(e)
    ensures IsHostOnlyNode(fs[e]) || (fs[e].Dir? && IsPrivate(fs, track, e))
  {
    TrackedSplit(track, d, e, e);
    forall q | q in fs && Below(q, e) && TrackedBelow(track, e, q)
      ensures IsHostOnlyNode(fs[q]) || (fs[q].Dir? && HasEntry(fs, q))
    {
      TrackedSplit(track, d, e, q);
    }
  }

  lemma {:induction false} DeepestExists(s: set<Path>)
    requires s != {}
    ensures exists d :: d in s && IsDeepest(s, d)
    decreases |s|
  {
    var p :| p in s;
    if s == {p} {
      assert IsDeepest(s, p);
    } else {
      DeepestExists(s - {p});
      var d :| d in s - {p} && IsDeepest(s - {p}, d);
      var best := if |p| > |d| then p else d;
      assert IsDeepest(s, best);
    }
  }

  predicate IsDeepest(s: set<Path>, d: Path) { forall e :: e in s ==> |e| <= |d| }

  /** Marks private folders, the deepest first. */
  method PrivateFolders(fs: Tree, track: Tracking, existing: set<Path>) returns (private: set<Path>)
    requires WellFormed(fs) && existing == FoldersBelow(fs, track, [])
    ensures forall d :: d in private <==> d in existing && IsPrivate(fs, track, d)
  {
    private := {};
    var todo := existing;
    while todo != {}
      invariant todo <= existing
      invariant forall d :: d in private <==> d in existing && d !in todo && IsPrivate(fs, track, d)
      invariant forall a, b :: a in todo && b in existing && b !in todo ==> |a| <= |b|
    {
      DeepestExists(todo);
      var d :| d in todo && IsDeepest(todo, d);
      forall e | e in Entries(fs, d) && track(e) && fs[e].Dir? ensures e in private <==> IsPrivate(fs, track, e) {
        FolderEntry(fs, track, d, e);
      }
      PrivateByEntries(fs, track, private, d);
      todo := todo - {d};
      var entries := Entries(fs, d);
      if entries != {} && forall e :: e in entries ==> EntryIsPrivate(fs, track, private, e) {
        private := private + {d};
      }
    }
  }

  lemma FolderEntry(fs: Tree, track: Tracking, d: Path, e: Path)
    requires d in FoldersBelow(fs, track, []) && e in Entries(fs, d) && track(e) && fs[e].Dir?
    ensures e in FoldersBelow(fs, track, []) && |e| > |d|
  {
    forall k | 0 < k <= |e| ensures track(e[..k]) {
      if k <= |d| {
        assert e[..k] == d[..k];
      } else {
        assert e[..k] == e;
      }
    }
  }

  datatype Inspection = Inspection(missingFiles: set<Path>, missingFolders: set<Path>, different: set<Path>,
                                   extraFiles: set<Path>, extraFolders: set<Path>)

  predicate Matches(r: Inspection) { r == Inspection({}, {}, {}, {}, {}) }

  function DigestOf(m: Manifest, hash: Hash, i: nat): Digest
    requires i < |m.documents| + |m.binaries|
  {
    if i < |m.documents| then hash(m.documents[i].bytes) else m.binaries[i - |m.documents|].digest
  }

  /** File `i` of the manifest is shared in the tree, but with other content. */
  predicate DiffersAt(fs: Tree, track: Tracking, hash: Hash, m: Manifest, i: nat)
    requires i < |m.documents| + |m.binaries|
  {
    var p := FilePath(m, i);
    p in fs && fs[p].File? && IsShared(track, p) && p != [] && hash(fs[p].bytes) != DigestOf(m, hash, i)
  }

  method ExpectedDigests(m: Manifest, hash: Hash, fold: Fold) returns (expected: map<Path, Digest>)
    requires IsValid(fold, m)
    ensures expected.Keys == Files(m)
    ensures forall i :: 0 <= i < |m.documents| + |m.binaries| ==> (
              FilePath(m, i) in expected && expected[FilePath(m, i)] == DigestOf(m, hash, i))
  {
    expected := map[];
    for i := 0 to |m.documents| + |m.binaries|
      invariant forall p :: p in expected <==> exists j :: 0 <= j < i && FilePath(m, j) == p
      invariant forall j :: 0 <= j < i ==> (
          FilePath(m, j) in expected && expected[FilePath(m, j)] == DigestOf(m, hash, j))
    {
      forall j | 0 <= j < i ensures FilePath(m, j) != FilePath(m, i) {
        FilesDiffer(fold, m, j, i);
      }
      expected := expected[FilePath(m, i) := DigestOf(m, hash, i)];
    }
    forall p ensures p in expected <==> p in Files(m) {
      if p in Files(m) {
        var i := FileIndex(m, p);
      }
    }
  }

  lemma FileIndex(m: Manifest, p: Path) returns (i: nat)
    requires p in Files(m)
    ensures i < |m.documents| + |m.binaries| && FilePath(m, i) == p
  {
    if p in DocumentPaths(m) {
      var d :| 0 <= d < |m.documents| && m.documents[d].path == p;
      i := d;
    } else {
      var b :| 0 <= b < |m.binaries| && m.binaries[b].path == p;
      i := |m.documents| + b;
    }
  }

  ghost function Inspected(fs: Tree, track: Tracking, hash: Hash, m: Manifest): Inspection {
    Inspection(Files(m) - FilesBelow(fs, track, []), Folders(m) - FoldersBelow(fs, track, []),
               set i | 0 <= i < |m.documents| + |m.binaries| && DiffersAt(fs, track, hash, m, i) :: FilePath(m, i),
               FilesBelow(fs, track, []) - Files(m),
               set d | d in FoldersBelow(fs, track, []) && d !in Folders(m) && !IsPrivate(fs, track, d))
  }

  /** The files of a folder against the expected digests. */
  method CompareFiles(fs: Tree, track: Tracking, hash: Hash, fold: Fold, m: Manifest, existing: set<Path>)
    returns (missing: set<Path>, different: set<Path>, extra: set<Path>)
    requires IsValid(fold, m) && existing == FilesBelow(fs, track, [])
    ensures missing == Files(m) - existing && extra == existing - Files(m)
    ensures different == Inspected(fs, track, hash, m).different
  {
    var expected := ExpectedDigests(m, hash, fold);
    different, extra := {}, {};
    var seen: set<Path> := {};
    var todo := existing;
    while todo != {}
      invariant todo <= existing && seen == (existing - todo) * Files(m) && extra == existing - todo - Files(m)
      invariant different == set p | p in seen && hash(fs[p].bytes) != expected[p]
    {
      var file :| file in todo;
      todo := todo - {file};
      if file !in expected {
        extra := extra + {file};
        continue;
      }
      seen := seen + {file};
      if hash(fs[file].bytes) != expected[file] {
        different := different + {file};
      }
    }
    missing := expected.Keys - seen;
    forall p ensures p in different <==> p in Inspected(fs, track, hash, m).different {
      DifferentFile(fs, track, hash, m, expected, p);
    }
  }

  lemma DifferentFile(fs: Tree, track: Tracking, hash: Hash, m: Manifest, expected: map<Path, Digest>, p: Path)
    requires expected.Keys == Files(m)
    requires forall i :: 0 <= i < |m.documents| + |m.binaries| ==> (
               FilePath(m, i) in expected && expected[FilePath(m, i)] == DigestOf(m, hash, i))
    ensures p in Inspected(fs, track, hash, m).different
      <==> p in FilesBelow(fs, track, []) && p in Files(m) && hash(fs[p].bytes) != expected[p]
  {
    if p in Files(m) {
      var i := FileIndex(m, p);
      assert DiffersAt(fs, track, hash, m, i)
        <==> p in FilesBelow(fs, track, []) && hash(fs[p].bytes) != expected[p];
    }
  }

  method Inspect(folder: Folder, m: Manifest, fold: Fold, hash: Hash) returns (r: Option<Inspection>)
    requires WellFormed(folder.fs)
    ensures r.Some? <==> IsValid(fold, m) && |m.documents| + |m.binaries| + |m.directories| <= MaxTrackedProjectEntries
    ensures r.Some? ==> r.value == Inspected(folder.fs, folder.track, hash, m)
  {
    if |m.documents| + |m.binaries| + |m.directories| > MaxTrackedProjectEntries {
      return None;
    }
    var ok := Validate(fold, m);
    if !ok {
      return None;
    }
    ghost var bound := DepthExists(folder.fs.Keys);
    var existingFiles := ScanFiles(folder.fs, folder.track, [], bound);
    var existingFolders := ScanFolders(folder.fs, folder.track, [], bound);
    var missingFiles, different, extraFiles := CompareFiles(folder.fs, folder.track, hash, fold, m, existingFiles);
    var private := PrivateFolders(folder.fs, folder.track, existingFolders);
    var wanted := set i | 0 <= i < |m.directories| :: m.directories[i];
    return Some(Inspection(missingFiles, wanted - existingFolders, different, extraFiles,
                           existingFolders - wanted - private));
  }

  // ----- Main results -----

  /** Every folder above one of `paths` is listed, spelled the same way. */
  predicate ParentsSpelled(m: Manifest, paths: set<Path>) {
    forall p, k :: p in paths && 0 < k < |p| ==> p[..k] in Folders(m)
  }

  lemma WantedAreShared(fs: Tree, track: Tracking, hash: Hash, fold: Fold, m: Manifest)
    requires IsValid(fold, m) && IsMaterialized(fs, track, hash, m) && AllShared(m, track)
    ensures Files(m) <= FilesBelow(fs, track, []) && Folders(m) <= FoldersBelow(fs, track, [])
  {
    forall p | p in Files(m) + Folders(m)
      ensures p in Files(m) ==> p in FilesBelow(fs, track, [])
      ensures p in Folders(m) ==> p in FoldersBelow(fs, track, [])
    {
      WantedAreThere(fs, hash, m, p);
      ParentsListed(fold, m, p);
    }
  }

  lemma NothingDiffers(fs: Tree, track: Tracking, hash: Hash, m: Manifest)
    requires IsMaterialized(fs, track, hash, m)
    ensures Inspected(fs, track, hash, m).different == {}
  {
    forall i | 0 <= i < |m.documents| + |m.binaries| ensures !DiffersAt(fs, track, hash, m, i) {
      assert IsWritten(fs, hash, m, i);
    }
  }

  ghost predicate HoldsHostOnly(fs: Tree, track: Tracking, d: Path) {
    exists q :: q in fs && Below(q, d) && IsHostOnly(fs, track, q)
  }

  lemma PrefixOf(f: Path, d: Path)
    ensures Below(f, d) <==> |d| < |f| && f[..|d|] == d
  {
  }

  lemma HostOnlyIsEntry(fs: Tree, track: Tracking, d: Path)
    requires HoldsHostOnly(fs, track, d)
    ensures HasEntry(fs, d)
  {
    var q :| q in fs && Below(q, d) && IsHostOnly(fs, track, q);
  }

  /** A shared folder below which every wanted folder holds something host-only, and no wanted file lies, is private. */
  lemma HeldIsPrivate(fs: Tree, track: Tracking, hash: Hash, m: Manifest, d: Path)
    requires IsMaterialized(fs, track, hash, m) && d in FoldersBelow(fs, track, []) && d !in Folders(m)
    requires forall f :: f in Files(m) ==> !Below(f, d)
    requires forall p :: p in Folders(m) && Below(p, d) ==> HoldsHostOnly(fs, track, p)
    ensures IsPrivate(fs, track, d)
  {
    HeldHasEntry(fs, track, hash, m, d, d);
    forall q | q in fs && Below(q, d) && TrackedBelow(track, d, q)
      ensures IsHostOnlyNode(fs[q]) || (fs[q].Dir? && HasEntry(fs, q))
    {
      SharedSplit(track, d, q);
      assert fs[q].File? ==> q in FilesBelow(fs, track, []);
      if fs[q].Dir? {
        HeldHasEntry(fs, track, hash, m, d, q);
      }
    }
  }

  lemma HeldHasEntry(fs: Tree, track: Tracking, hash: Hash, m: Manifest, d: Path, q: Path)
    requires IsMaterialized(fs, track, hash, m) && q in FoldersBelow(fs, track, []) && SameOrChild(q, d)
    requires d !in Folders(m)
    requires forall p :: p in Folders(m) && Below(p, d) ==> HoldsHostOnly(fs, track, p)
    ensures HasEntry(fs, q)
  {
    if q in Folders(m) {
      assert q != d && Below(q, d);
      HostOnlyIsEntry(fs, track, q);
    } else {
      assert IsJustified(fs, track, m, q);
    }
  }

  /** A wanted folder below a private folder holds something host-only. */
  lemma {:induction false} PrivateHolds(fs: Tree, track: Tracking, d: Path, p: Path, bound: nat)
    requires WellFormed(fs) && DepthWithin(fs, bound) && IsPrivate(fs, track, d) && IsShared(track, d)
    requires p in FoldersBelow(fs, track, []) && Below(p, d)
    ensures HoldsHostOnly(fs, track, p)
    decreases bound - |p|
  {
    SharedSplit(track, d, p);
    assert HasEntry(fs, p);
    var q :| q in fs && Below(q, p);
    if !IsHostOnly(fs, track, q) {
      SharedSplit(track, d, q);
      assert IsHostOnlyNode(fs[q]) || (fs[q].Dir? && HasEntry(fs, q));
      PrivateHolds(fs, track, d, q, bound);
    }
  }

  /**
   Every folder above a wanted folder is listed, spelled the same way, or else the wanted folder holds something
   host-only.
   */
  ghost predicate FoldersHeld(fs: Tree, track: Tracking, m: Manifest) {
    forall p, k :: p in Folders(m) && 0 < k < |p| && p[..k] !in Folders(m) ==> HoldsHostOnly(fs, track, p)
  }

  lemma UnlistedIsPrivate(fs: Tree, track: Tracking, hash: Hash, m: Manifest, d: Path)
    requires IsMaterialized(fs, track, hash, m) && ParentsSpelled(m, Files(m)) && FoldersHeld(fs, track, m)
    requires d in FoldersBelow(fs, track, []) && d !in Folders(m)
    ensures IsPrivate(fs, track, d)
  {
    forall f | f in Files(m) ensures !Below(f, d) {
      PrefixOf(f, d);
    }
    forall p | p in Folders(m) && Below(p, d) ensures HoldsHostOnly(fs, track, p) {
      assert p[..|d|] == d;
    }
    HeldIsPrivate(fs, track, hash, m, d);
  }

  lemma MatchHoldsFolders(fs: Tree, track: Tracking, hash: Hash, m: Manifest, p: Path, k: int)
    requires WellFormed(fs) && Matches(Inspected(fs, track, hash, m)) && p in Folders(m) && 0 < k < |p|
    requires p[..k] !in Folders(m)
    requires p in FoldersBelow(fs, track, [])
    ensures HoldsHostOnly(fs, track, p)
  {
    var d := p[..k];
    assert d in fs && fs[d] == Dir;
    forall j | 0 < j <= |d| ensures track(d[..j]) {
      assert d[..j] == p[..j];
    }
    assert d in FoldersBelow(fs, track, []);
    assert !IsPrivate(fs, track, d) ==> d in Inspected(fs, track, hash, m).extraFolders;
    var bound := DepthExists(fs.Keys);
    PrivateHolds(fs, track, d, p, bound);
  }

  /**
   After a successful materialization of shared paths the inspection reports a match if and only if every folder above a
   wanted file is listed under the same spelling, and so is every folder above a wanted folder, unless the wanted folder
   holds something host-only.
   */
  lemma MaterializedMatches(fs: Tree, track: Tracking, hash: Hash, fold: Fold, m: Manifest)
    requires WellFormed(fs) && IsValid(fold, m) && IsMaterialized(fs, track, hash, m) && AllShared(m, track)
    ensures Matches(Inspected(fs, track, hash, m)) <==> ParentsSpelled(m, Files(m)) && FoldersHeld(fs, track, m)
  {
    var r := Inspected(fs, track, hash, m);
    WantedAreShared(fs, track, hash, fold, m);
    NothingDiffers(fs, track, hash, m);
    if ParentsSpelled(m, Files(m)) && FoldersHeld(fs, track, m) {
      forall d | d in FoldersBelow(fs, track, []) && d !in Folders(m) ensures IsPrivate(fs, track, d) {
        UnlistedIsPrivate(fs, track, hash, m, d);
      }
      assert r.extraFolders == {};
    }
    if Matches(r) {
      forall f, k | f in Files(m) && 0 < k < |f| ensures f[..k] in Folders(m) {
        var d := f[..k];
        UnlistedParentIsExtra(fs, track, f, k);
        assert d in Folders(m) || d in r.extraFolders;
      }
      forall p, k | p in Folders(m) && 0 < k < |p| && p[..k] !in Folders(m) ensures HoldsHostOnly(fs, track, p) {
        MatchHoldsFolders(fs, track, hash, m, p, k);
      }
    }
  }

  /** What a wanted folder away from wanted files holds that is host-only was there before the materialization. */
  lemma HostOnlyWasThere(before: Tree, fs: Tree, track: Tracking, hash: Hash, m: Manifest, p: Path)
    requires WellFormed(fs) && IsMaterialized(fs, track, hash, m) && AllShared(m, track)
    requires KeepsHostOnly(before, fs, track, m)
    requires forall f :: f in Files(m) ==> !Below(f, p)
    ensures HoldsHostOnly(fs, track, p) <==> HoldsHostOnly(before, track, p)
  {
    forall q | q in fs && Below(q, p) && q !in before ensures !IsHostOnly(fs, track, q) {
      NamedIsShared(fs, track, hash, m, q);
    }
    if HoldsHostOnly(before, track, p) {
      var q :| q in before && Below(q, p) && IsHostOnly(before, track, q);
      assert q in fs && IsHostOnly(fs, track, q);
    }
    if HoldsHostOnly(fs, track, p) {
      var q :| q in fs && Below(q, p) && IsHostOnly(fs, track, q);
      assert q in before && IsHostOnly(before, track, q);
    }
  }

  /** What the manifest names is shared, and no link or special node. */
  lemma NamedIsShared(fs: Tree, track: Tracking, hash: Hash, m: Manifest, q: Path)
    requires WellFormed(fs) && IsMaterialized(fs, track, hash, m) && AllShared(m, track) && IsNamed(m, q) && q in fs
    ensures !IsHostOnly(fs, track, q)
  {
    var w :| w in Files(m) + Folders(m) && q <= w;
    WantedAreThere(fs, hash, m, w);
    forall k | 0 < k <= |q| ensures track(q[..k]) {
      assert q[..k] == w[..k];
    }
    if q != w {
      assert w[..|q|] == q;
    }
  }

  /** The same condition, read off the manifest and the folder as it was before the call. */
  lemma MatchesWhen(before: Tree, fs: Tree, track: Tracking, hash: Hash, fold: Fold, m: Manifest)
    requires WellFormed(fs) && IsValid(fold, m) && IsMaterialized(fs, track, hash, m) && AllShared(m, track)
    requires KeepsHostOnly(before, fs, track, m)
    ensures Matches(Inspected(fs, track, hash, m)) <==> ParentsSpelled(m, Files(m)) && FoldersHeld(before, track, m)
  {
    MaterializedMatches(fs, track, hash, fold, m);
    if ParentsSpelled(m, Files(m)) {
      forall p, k | p in Folders(m) && 0 < k < |p| && p[..k] !in Folders(m)
        ensures HoldsHostOnly(fs, track, p) <==> HoldsHostOnly(before, track, p)
      {
        forall f | f in Files(m) ensures !Below(f, p) {
          PrefixOf(f, p);
          PrefixOf(f, p[..k]);
        }
        HostOnlyWasThere(before, fs, track, hash, m, p);
      }
    }
  }

  lemma UnlistedParentIsExtra(fs: Tree, track: Tracking, f: Path, k: int)
    requires WellFormed(fs) && f in FilesBelow(fs, track, []) && 0 < k < |f|
    ensures f[..k] in FoldersBelow(fs, track, []) && !IsPrivate(fs, track, f[..k])
  {
    var d := f[..k];
    assert d in fs && fs[d] == Dir && Below(f, d);
    forall j | 0 < j <= |d| ensures track(d[..j]) {
      assert d[..j] == f[..j];
    }
    assert TrackedBelow(track, d, f);
  }

  /** What a match means for any folder, however it came about. */
  lemma MatchMeans(fs: Tree, track: Tracking, hash: Hash, m: Manifest, i: nat)
    requires Matches(Inspected(fs, track, hash, m)) && i < |m.documents| + |m.binaries|
    ensures FilesBelow(fs, track, []) == Files(m) && Folders(m) <= FoldersBelow(fs, track, [])
    ensures FilePath(m, i) in fs && fs[FilePath(m, i)].File? && hash(fs[FilePath(m, i)].bytes) == DigestOf(m, hash, i)
    ensures forall d :: d in FoldersBelow(fs, track, []) && d !in Folders(m) ==> IsPrivate(fs, track, d)
  {
    var r := Inspected(fs, track, hash, m);
    FileIsNamed(m, i);
    var p := FilePath(m, i);
    assert DiffersAt(fs, track, hash, m, i) ==> p in r.different;
    assert forall d :: d in Folders(m) && d !in FoldersBelow(fs, track, []) ==> d in r.missingFolders;
    assert forall f :: f in Files(m) && f !in FilesBelow(fs, track, []) ==> f in r.missingFiles;
    assert forall f :: f in FilesBelow(fs, track, []) && f !in Files(m) ==> f in r.extraFiles;
    assert forall d :: d in FoldersBelow(fs, track, []) && d !in Folders(m) && !IsPrivate(fs, track, d) ==> (
        d in r.extraFolders);
  }
}

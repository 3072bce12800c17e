/**
 Installing the accepted snapshot in a workspace (scripts/pair-notebook-session-agent.py, install_snapshot).

 Hard-linked files count as special. The temporary file that a failed write leaves behind, file modes and owners are
 not part of this model.
 */
module WorkspaceInstall {
  import opened ArtifactScan
  import opened Bytes
  import opened Outcomes
  import opened ProjectPaths
  import opened ProjectTree
  import M = Materialization

  const MaxFiles: nat := 4096

  /** The bytes of an input, or its size and digest with whatever fetching it gives. */
  datatype Source = Inline(bytes: seq<Byte>) | Streamed(size: int, digest: Option<Digest>,
                           fetched: Option<seq<Byte>>) | Undecodable

  datatype Item = Item(name: Option<Path>, source: Source, version: int)

  /** What an accepted item pins. */
  function SizeOf(item: Item): int {
    match item.source
    case Inline(bytes) => |bytes|
    case Streamed(size, _, _) => size
    case Undecodable => 0
  }

  function DigestOf(item: Item, hash: Hash): Digest {
    match item.source
    case Inline(bytes) => hash(bytes)
    case Streamed(_, digest, _) => if digest.Some? then digest.value else Digest(0)
    case Undecodable => Digest(0)
  }

  predicate IsDecodable(item: Item) {
    match item.source
    case Inline(_) => true
    case Streamed(size, digest, _) => size >= 0 && digest.Some?
    case Undecodable => false
  }

  function NameOf(item: Item): Path { if item.name.Some? then item.name.value else [] }

  function Total(items: seq<Item>): int {
    if items == [] then 0 else Total(items[..|items| - 1]) + SizeOf(items[|items| - 1])
  }

  predicate IsItem(item: Item, safe: Path -> bool) {
    item.name.Some? && item.name.value != [] && safe(item.name.value) && IsDecodable(item)
  }

  predicate AreItems(items: seq<Item>, safe: Path -> bool) { forall i :: 0 <= i < |items| ==> IsItem(items[i], safe) }

  predicate NamesConflict(items: seq<Item>, fold: Path -> Path, i: int, j: int)
    requires 0 <= i < |items| && 0 <= j < |items|
  {
    fold(NameOf(items[i])) == fold(NameOf(items[j]))
  }

  predicate HaveDistinctNames(items: seq<Item>, fold: Path -> Path) {
    forall i, j :: 0 <= i < j < |items| ==> !NamesConflict(items, fold, i, j)
  }

  /** Accepted items: safe names, no two alike after case folding, and within the byte limit. */
  predicate AreAccepted(items: seq<Item>, safe: Path -> bool, fold: Path -> Path) {
    AreItems(items, safe) && HaveDistinctNames(items, fold) && Total(items) <= MaxSnapshotBytes
  }

  lemma {:induction false} TotalGrows(items: seq<Item>, safe: Path -> bool, n: nat)
    requires AreItems(items, safe) && n <= |items|
    ensures Total(items[..n]) <= Total(items)
  {
    if n == |items| {
      assert items[..n] == items;
    } else {
      assert IsItem(items[|items| - 1], safe);
      assert items[..|items| - 1][..n] == items[..n];
      TotalGrows(items[..|items| - 1], safe, n);
    }
  }

  /** Which folded names occur among the first `n`. */
  function FoldedNames(items: seq<Item>, fold: Path -> Path, n: nat): set<Path>
    requires n <= |items|
  {
    set i | 0 <= i < n :: fold(NameOf(items[i]))
  }

  /** The checks on one item after those before it. */
  lemma NextItem(items: seq<Item>, safe: Path -> bool, fold: Path -> Path, n: nat)
    requires n < |items| && AreItems(items[..n], safe) && HaveDistinctNames(items[..n], fold)
    ensures AreItems(items[..n + 1], safe) <==> IsItem(items[n], safe)
    ensures HaveDistinctNames(items[..n + 1], fold) <==> fold(NameOf(items[n])) !in FoldedNames(items, fold, n)
    ensures Total(items[..n + 1]) == Total(items[..n]) + SizeOf(items[n])
    ensures FoldedNames(items, fold, n + 1) == FoldedNames(items, fold, n) + {fold(NameOf(items[n]))}
  {
    var more := items[..n + 1];
    assert more[..n] == items[..n] && more[n] == items[n];
    if HaveDistinctNames(more, fold) {
      forall i | 0 <= i < n ensures fold(NameOf(items[i])) != fold(NameOf(items[n])) {
        assert !NamesConflict(more, fold, i, n);
      }
    }
    forall i, j | 0 <= i < j < |more| && fold(NameOf(items[n])) !in FoldedNames(items, fold, n)
      ensures !NamesConflict(more, fold, i, j)
    {
      assert j < n ==> !NamesConflict(items[..n], fold, i, j);
    }
    if AreItems(more, safe) {
      assert IsItem(more[n], safe);
    }
  }

  lemma PrefixAccepted(items: seq<Item>, safe: Path -> bool, fold: Path -> Path, n: nat)
    requires AreAccepted(items, safe, fold) && n <= |items|
    ensures AreItems(items[..n], safe) && HaveDistinctNames(items[..n], fold) && Total(items[..n]) <= MaxSnapshotBytes
  {
    TotalGrows(items, safe, n);
    forall i, j | 0 <= i < j < n ensures !NamesConflict(items[..n], fold, i, j) {
      assert !NamesConflict(items, fold, i, j);
    }
  }

  /** The checks made before anything is written. */
  method Decode(items: seq<Item>, safe: Path -> bool, fold: Path -> Path) returns (ok: bool)
    ensures ok <==> |items| <= MaxFiles && AreAccepted(items, safe, fold)
  {
    if |items| > MaxFiles {
      return false;
    }
    var total, seen := 0, {};
    for i := 0 to |items|
      invariant AreItems(items[..i], safe) && HaveDistinctNames(items[..i], fold)
      invariant total == Total(items[..i]) <= MaxSnapshotBytes && seen == FoldedNames(items, fold, i)
    {
      NextItem(items, safe, fold, i);
      if AreAccepted(items, safe, fold) {
        PrefixAccepted(items, safe, fold, i + 1);
      }
      if !IsItem(items[i], safe) || fold(NameOf(items[i])) in seen {
        return false;
      }
      seen := seen + {fold(NameOf(items[i]))};
      total := total + SizeOf(items[i]);
      if total > MaxSnapshotBytes {
        return false;
      }
    }
    assert items[..|items|] == items;
    return true;
  }

  function Names(items: seq<Item>, n: nat): set<Path>
    requires n <= |items|
  {
    set i | 0 <= i < n :: NameOf(items[i])
  }

  predicate IsPinned(fs: Tree, hash: Hash, item: Item) {
    NameOf(item) in fs && fs[NameOf(item)].File? && |fs[NameOf(item)].bytes| == SizeOf(item)
    && hash(fs[NameOf(item)].bytes) == DigestOf(item, hash)
  }

  /** A folder on the way to a listed file. */
  predicate IsParent(items: seq<Item>, n: nat, p: Path)
    requires n <= |items|
  {
    exists i :: 0 <= i < n && p < NameOf(items[i])
  }

  /** The first `n` items are there; other entries are as before, and new ones are folders above listed files. */
  ghost predicate Installed(before: Tree, fs: Tree, hash: Hash, items: seq<Item>, n: nat)
    requires n <= |items|
  {
    && (forall i :: 0 <= i < n ==> IsPinned(fs, hash, items[i]))
    && (forall p :: p in before && p !in Names(items, n) ==> p in fs && fs[p] == before[p])
    && (forall p :: p in fs && p !in before && p !in Names(items, n) ==> fs[p] == Dir && IsParent(items, n, p))
  }

  /** What is written for an item: bytes of exactly its size and digest. */
  function Fetched(item: Item, hash: Hash): Option<seq<Byte>> {
    match item.source
    case Inline(bytes) => Some(bytes)
    case Streamed(size, digest, fetched) =>
      if fetched.Some? && |fetched.value| == size && Some(hash(fetched.value)) == digest then fetched else None
    case Undecodable => None
  }

  lemma NamesDiffer(items: seq<Item>, safe: Path -> bool, fold: Path -> Path, n: nat)
    requires AreAccepted(items, safe, fold) && n < |items|
    ensures NameOf(items[n]) !in Names(items, n)
    ensures Names(items, n + 1) == Names(items, n) + {NameOf(items[n])}
  {
    forall i | 0 <= i < n ensures NameOf(items[i]) != NameOf(items[n]) {
      assert !NamesConflict(items, fold, i, n);
    }
  }

  lemma WritingInstalls(before: Tree, fs: Tree, hash: Hash, items: seq<Item>, safe: Path -> bool, fold: Path -> Path,
                        n: nat,
                        bytes: seq<Byte>)
    requires AreAccepted(items, safe, fold) && n < |items| && Installed(before, fs, hash, items, n)
    requires |bytes| == SizeOf(items[n]) && hash(bytes) == DigestOf(items[n], hash)
    ensures Installed(before, M.WithFile(fs, NameOf(items[n]), bytes), hash, items, n + 1)
  {
    var p := NameOf(items[n]);
    var v := M.WithFile(fs, p, bytes);
    NamesDiffer(items, safe, fold, n);
    forall i | 0 <= i < n + 1 ensures IsPinned(v, hash, items[i]) {
      if i < n {
        assert IsPinned(fs, hash, items[i]) && NameOf(items[i]) in Names(items, n);
      }
    }
    forall q | q in v && q !in before && q !in Names(items, n + 1) ensures v[q] == Dir && IsParent(items, n + 1, q) {
      if q in fs {
        assert IsParent(items, n, q);
      } else {
        M.PrefixesOf(M.Parent(p), q);
        assert q < p;
      }
    }
  }

  lemma KeepingInstalls(before: Tree, fs: Tree, hash: Hash, items: seq<Item>, safe: Path -> bool, fold: Path -> Path,
                        n: nat)
    requires AreAccepted(items, safe, fold) && n < |items| && Installed(before, fs, hash, items, n)
    requires IsPinned(fs, hash, items[n])
    ensures Installed(before, fs, hash, items, n + 1)
  {
    NamesDiffer(items, safe, fold, n);
    forall i | 0 <= i < n + 1 ensures IsPinned(fs, hash, items[i]) {
      assert i < n ==> IsPinned(fs, hash, items[i]);
    }
    forall q | q in fs && q !in before && q !in Names(items, n + 1) ensures IsParent(items, n + 1, q) {
      assert IsParent(items, n, q);
    }
  }

  /** In this tree an item can be installed: its file is there already, or can be fetched and written. */
  predicate CanInstall(fs: Tree, hash: Hash, item: Item)
    requires NameOf(item) != []
  {
    && (NameOf(item) in fs ==> fs[NameOf(item)].File?)
    && (IsPinned(fs, hash, item) || (Fetched(item, hash).Some? && M.CanWrite(fs, NameOf(item))))
  }

  /**
   The same, read off the tree before anything was installed: nothing but a regular file has the name, no file or link
   and no item before it is on the way, it is no folder above an item before it, and its content is there or comes.
   */
  predicate IsFree(before: Tree, hash: Hash, items: seq<Item>, n: nat)
    requires n < |items|
  {
    var p := NameOf(items[n]);
    && (p in before ==> before[p].File?) && !IsParent(items, n, p)
    && (IsPinned(before, hash, items[n]) || Fetched(items[n], hash).Some?)
    && forall k :: 0 < k < |p| ==> !IsOnTheWay(before, items, n, p[..k])
  }

  predicate AllFree(before: Tree, hash: Hash, items: seq<Item>, n: nat)
    requires n <= |items|
  {
    forall i :: 0 <= i < n ==> IsFree(before, hash, items, i)
  }

  lemma FreeUpTo(before: Tree, hash: Hash, items: seq<Item>, n: nat)
    requires n < |items|
    ensures AllFree(before, hash, items, n + 1) <==> AllFree(before, hash, items, n) && IsFree(before, hash, items, n)
    ensures AllFree(before, hash, items, |items|) ==> IsFree(before, hash, items, n)
  {
  }

  predicate IsOnTheWay(before: Tree, items: seq<Item>, n: nat, q: Path)
    requires n <= |items|
  {
    q in Names(items, n) || (q in before && before[q] != Dir)
  }

  /** What is where after the first `n` items: their files, what was there, and folders above them. */
  lemma InstalledKinds(before: Tree, fs: Tree, hash: Hash, items: seq<Item>, n: nat, p: Path)
    requires WellFormed(fs) && n <= |items| && Installed(before, fs, hash, items, n)
    ensures p in Names(items, n) ==> p in fs && fs[p].File?
    ensures p !in Names(items, n) && p in before ==> p in fs && fs[p] == before[p]
    ensures p !in Names(items, n) && p !in before ==> (p in fs <==> p != [] && IsParent(items, n, p))
    ensures p !in Names(items, n) && p !in before && p in fs ==> fs[p] == Dir
    ensures p != [] && IsParent(items, n, p) ==> p in fs && fs[p] == Dir
  {
    if p in Names(items, n) {
      var i :| 0 <= i < n && NameOf(items[i]) == p;
      assert IsPinned(fs, hash, items[i]);
    }
    if p != [] && IsParent(items, n, p) {
      var i :| 0 <= i < n && p < NameOf(items[i]);
      assert IsPinned(fs, hash, items[i]);
      assert NameOf(items[i])[..|p|] == p;
    }
  }

  lemma WayIsOpen(before: Tree, fs: Tree, hash: Hash, items: seq<Item>, n: nat, p: Path)
    requires WellFormed(fs) && n <= |items| && Installed(before, fs, hash, items, n) && p != []
    ensures M.CanMake(fs, M.Parent(p)) <==> forall k :: 0 < k < |p| ==> !IsOnTheWay(before, items, n, p[..k])
  {
    forall k | 0 < k < |p|
      ensures (p[..k] in fs && fs[p[..k]] != Dir) <==> IsOnTheWay(before, items, n, p[..k])
      ensures M.Parent(p)[..k] == p[..k]
    {
      InstalledKinds(before, fs, hash, items, n, p[..k]);
    }
    if M.CanMake(fs, M.Parent(p)) {
      forall k | 0 < k < |p| ensures !IsOnTheWay(before, items, n, p[..k]) {
        assert M.Parent(p)[..k] == p[..k];
      }
    }
  }

  lemma PinnedSame(before: Tree, fs: Tree, hash: Hash, items: seq<Item>, safe: Path -> bool, fold: Path -> Path, n: nat)
    requires AreAccepted(items, safe, fold) && n < |items| && Installed(before, fs, hash, items, n) && WellFormed(fs)
    ensures IsPinned(fs, hash, items[n]) == IsPinned(before, hash, items[n])
    ensures IsPinned(fs, hash, items[n]) ==> M.CanMake(fs, M.Parent(NameOf(items[n])))
  {
    NamesDiffer(items, safe, fold, n);
    InstalledKinds(before, fs, hash, items, n, NameOf(items[n]));
    if IsPinned(fs, hash, items[n]) {
      assert forall k :: 0 < k < |NameOf(items[n])| ==> M.Parent(NameOf(items[n]))[..k] == NameOf(items[n])[..k];
    }
  }

  /** While the items before it were installed, both conditions are the same. */
  lemma FreeMeaning(before: Tree, fs: Tree, hash: Hash, items: seq<Item>, safe: Path -> bool, fold: Path -> Path,
                    n: nat)
    requires AreAccepted(items, safe, fold) && n < |items| && Installed(before, fs, hash, items, n) && WellFormed(fs)
    ensures NameOf(items[n]) != [] && (CanInstall(fs, hash, items[n]) <==> IsFree(before, hash, items, n))
  {
    assert IsItem(items[n], safe);
    NamesDiffer(items, safe, fold, n);
    InstalledKinds(before, fs, hash, items, n, NameOf(items[n]));
    PinnedSame(before, fs, hash, items, safe, fold, n);
    WayIsOpen(before, fs, hash, items, n, NameOf(items[n]));
  }

  /** One item: an equal file is kept, anything but a regular file in its place is an error. */
  method InstallOne(folder: Folder, item: Item, hash: Hash) returns (ok: bool, written: Option<seq<Byte>>)
    requires WellFormed(folder.fs) && NameOf(item) != []
    modifies folder`fs
    ensures WellFormed(folder.fs) && (ok <==> CanInstall(old(folder.fs), hash, item))
    ensures ok && written.None? ==> IsPinned(folder.fs, hash, item) && folder.fs == old(folder.fs)
    ensures ok && written.Some? ==> folder.fs == M.WithFile(old(folder.fs), NameOf(item), written.value)
                                    && |written.value| == SizeOf(item) && hash(written.value) == DigestOf(item, hash)
  {
    var p := NameOf(item);
    ghost var before := folder.fs;
    if p in folder.fs && !folder.fs[p].File? {
      return false, None;
    }
    if p in folder.fs && |folder.fs[p].bytes| == SizeOf(item) && hash(folder.fs[p].bytes) == DigestOf(item, hash) {
      return true, None;
    }
    var bytes := Fetched(item, hash);
    if bytes.None? {
      return false, None;
    }
    ok := M.WriteFile(folder, p, bytes.value);
    if ok {
      M.FileStaysWellFormed(before, p, bytes.value);
    }
    written := bytes;
  }

  method InstallAll(folder: Folder, items: seq<Item>, safe: Path -> bool, fold: Path -> Path, hash: Hash)
    returns (ok: bool, baseline: map<Path, Pinned>)
    requires WellFormed(folder.fs) && AreAccepted(items, safe, fold)
    modifies folder`fs
    ensures WellFormed(folder.fs)
    ensures ok <==> AllFree(old(folder.fs), hash, items, |items|)
    ensures ok ==> (
        Installed(old(folder.fs), folder.fs, hash, items, |items|) && IsBaseline(baseline, hash, items, |items|))
  {
    baseline := map[];
    ghost var before := folder.fs;
    for i := 0 to |items|
      invariant WellFormed(folder.fs) && Installed(before, folder.fs, hash, items, i)
      invariant IsBaseline(baseline, hash, items, i)
      invariant AllFree(before, hash, items, i)
    {
      FreeUpTo(before, hash, items, i);
      ok := InstallNext(folder, items, safe, fold, hash, i, before);
      if !ok {
        return;
      }
      BaselineGrows(baseline, hash, items, safe, fold, i);
      baseline := baseline[NameOf(items[i]) := Pinned(DigestOf(items[i], hash), items[i].version)];
    }
    return true, baseline;
  }

  method InstallNext(folder: Folder, items: seq<Item>, ghost safe: Path -> bool, ghost fold: Path -> Path, hash: Hash,
                     i: nat,
                     ghost before: Tree)
    returns (ok: bool)
    requires WellFormed(folder.fs) && AreAccepted(items, safe, fold) && i < |items|
    requires Installed(before, folder.fs, hash, items, i)
    modifies folder`fs
    ensures WellFormed(folder.fs) && (ok ==> Installed(before, folder.fs, hash, items, i + 1))
    ensures ok <==> IsFree(before, hash, items, i)
  {
    ghost var fs := folder.fs;
    FreeMeaning(before, fs, hash, items, safe, fold, i);
    var written;
    ok, written := InstallOne(folder, items[i], hash);
    if ok && written.Some? {
      WritingInstalls(before, fs, hash, items, safe, fold, i, written.value);
    } else if ok {
      KeepingInstalls(before, fs, hash, items, safe, fold, i);
    }
  }

  lemma BaselineGrows(baseline: map<Path, Pinned>, hash: Hash, items: seq<Item>, safe: Path -> bool,
                      fold: Path -> Path, i: nat)
    requires AreAccepted(items, safe, fold) && i < |items| && IsBaseline(baseline, hash, items, i)
    ensures var next := baseline[NameOf(items[i]) := Pinned(DigestOf(items[i], hash), items[i].version)];
      IsBaseline(next, hash, items, i + 1)
  {
    NamesDiffer(items, safe, fold, i);
    assert forall j :: 0 <= j < i ==> NameOf(items[j]) in Names(items, i);
  }

  /** The baseline records what was pinned. */
  ghost predicate IsBaseline(baseline: map<Path, Pinned>, hash: Hash, items: seq<Item>, n: nat)
    requires n <= |items|
  {
    baseline.Keys == Names(items, n)
    && forall i :: 0 <= i < n ==> NameOf(items[i]) in baseline
                                  && baseline[NameOf(items[i])] == Pinned(DigestOf(items[i], hash), items[i].version)
  }

  datatype Way = Open | Missing | Blocked

  predicate IsFolderAt(fs: Tree, p: Path, k: int)
    requires 0 <= k <= |p|
  {
    p[..k] in fs && fs[p[..k]] == Dir
  }

  predicate IsBlockedAt(fs: Tree, p: Path, k: int)
    requires 0 <= k <= |p|
  {
    p[..k] in fs && fs[p[..k]] != Dir
  }

  /** Follows the folders above a path. */
  method Follow(fs: Tree, p: Path) returns (way: Way)
    requires WellFormed(fs)
    ensures way.Open? <==> forall k :: 0 < k < |p| ==> IsFolderAt(fs, p, k)
    ensures way.Blocked? <==> exists k :: 0 < k < |p| && IsBlockedAt(fs, p, k)
    ensures way.Missing? ==> p !in fs
  {
    var k := 1;
    while k < |p|
      invariant 1 <= k && forall j :: 0 < j < k && j < |p| ==> IsFolderAt(fs, p, j)
    {
      if p[..k] !in fs {
        NothingFurther(fs, p, k);
        return Missing;
      }
      if fs[p[..k]] != Dir {
        assert !IsFolderAt(fs, p, k) && IsBlockedAt(fs, p, k);
        return Blocked;
      }
      k := k + 1;
    }
    forall j | 0 < j < |p| ensures !IsBlockedAt(fs, p, j) {
      assert IsFolderAt(fs, p, j);
    }
    return Open;
  }

  lemma NothingFurther(fs: Tree, p: Path, k: int)
    requires WellFormed(fs) && 0 < k < |p| && p[..k] !in fs && forall j :: 0 < j < k ==> IsFolderAt(fs, p, j)
    ensures p !in fs && !IsFolderAt(fs, p, k)
    ensures forall j :: 0 < j < |p| ==> !IsBlockedAt(fs, p, j)
  {
    forall j | k < j < |p| ensures p[..j] !in fs {
      assert p[..j][..k] == p[..k];
    }
    forall j | 0 < j < |p| ensures !IsBlockedAt(fs, p, j) {
      assert j < k ==> IsFolderAt(fs, p, j);
    }
  }

  function Dropped(previous: seq<Path>, names: set<Path>, n: nat): set<Path>
    requires n <= |previous|
  {
    set i | 0 <= i < n && previous[i] !in names :: previous[i]
  }

  /** A name can be dropped: no file or link is on the way to it, and it is no folder. */
  predicate CanDrop(fs: Tree, p: Path) {
    (forall k :: 0 < k < |p| ==> !IsBlockedAt(fs, p, k)) && !(p in fs && fs[p] == Dir)
  }

  predicate CanDropAt(fs: Tree, previous: seq<Path>, names: set<Path>, i: nat)
    requires i < |previous|
  {
    previous[i] in names || CanDrop(fs - Dropped(previous, names, i), previous[i])
  }

  method DropPrevious(folder: Folder, previous: seq<Path>, names: set<Path>) returns (ok: bool)
    requires WellFormed(folder.fs)
    modifies folder`fs
    ensures WellFormed(folder.fs)
    ensures ok <==> forall i :: 0 <= i < |previous| ==> CanDropAt(old(folder.fs), previous, names, i)
    ensures ok ==> folder.fs == old(folder.fs) - Dropped(previous, names, |previous|)
  {
    ghost var before := folder.fs;
    for i := 0 to |previous|
      invariant WellFormed(folder.fs) && folder.fs == before - Dropped(previous, names, i)
      invariant forall j :: 0 <= j < i ==> CanDropAt(before, previous, names, j)
    {
      var name := previous[i];
      assert Dropped(previous, names, i + 1) == Dropped(previous, names, i) + if name in names then {} else {name};
      if name !in names {
        var way := Follow(folder.fs, name);
        DropMeaning(folder.fs, name, way);
        if way.Blocked? || (way.Open? && name in folder.fs && folder.fs[name] == Dir) {
          assert !CanDropAt(before, previous, names, i);
          return false;
        }
        if name in folder.fs {
          LeafRemoved(folder.fs, name);
          folder.fs := folder.fs - {name};
        }
      }
    }
    return true;
  }

  lemma DropMeaning(fs: Tree, p: Path, way: Way)
    requires WellFormed(fs)
    requires way.Open? <==> forall k :: 0 < k < |p| ==> IsFolderAt(fs, p, k)
    requires way.Blocked? <==> exists k :: 0 < k < |p| && IsBlockedAt(fs, p, k)
    ensures CanDrop(fs, p) <==> !(way.Blocked? || (way.Open? && p in fs && fs[p] == Dir))
  {
    if p in fs {
      assert forall k :: 0 < k < |p| ==> IsFolderAt(fs, p, k);
    }
  }

  /** The same, read off the tree before anything was installed; what was dropped before is no longer on the way. */
  predicate IsDroppable(before: Tree, items: seq<Item>, previous: seq<Path>, i: nat)
    requires i < |previous|
  {
    var p, dropped := previous[i], Dropped(previous, Names(items, |items|), i);
    p in Names(items, |items|) || (
      && (forall k :: 0 < k < |p| ==> !IsOnTheWay(before, items, |items|, p[..k]) || p[..k] in dropped)
      && !(p in before && before[p] == Dir && p !in dropped)
      && !(p != [] && IsParent(items, |items|, p) && p !in dropped))
  }

  lemma DroppableMeaning(before: Tree, fs: Tree, hash: Hash, items: seq<Item>, previous: seq<Path>, i: nat)
    requires WellFormed(fs) && Installed(before, fs, hash, items, |items|) && i < |previous|
    ensures CanDropAt(fs, previous, Names(items, |items|), i) <==> IsDroppable(before, items, previous, i)
  {
    var p, dropped := previous[i], Dropped(previous, Names(items, |items|), i);
    InstalledKinds(before, fs, hash, items, |items|, p);
    forall k | 0 < k < |p|
      ensures IsBlockedAt(fs - dropped, p, k)
          <==> IsOnTheWay(before, items, |items|, p[..k]) && p[..k] !in dropped
    {
      InstalledKinds(before, fs, hash, items, |items|, p[..k]);
    }
  }

  lemma LeafRemoved(fs: Tree, p: Path)
    requires WellFormed(fs) && p in fs && fs[p] != Dir
    ensures WellFormed(fs - {p})
  {
    forall q, k | q in fs && 0 < k < |q| ensures q[..k] != p {
      assert q[..k] in fs && fs[q[..k]] == Dir;
    }
  }

  /** The items are accepted, each can be installed, and each name that is no longer listed can be dropped. */
  predicate CanBeInstalled(before: Tree, items: seq<Item>, previous: seq<Path>, safe: Path -> bool, fold: Path -> Path,
                           hash: Hash)
  {
    && |items| <= MaxFiles && AreAccepted(items, safe, fold)
    && AllFree(before, hash, items, |items|)
    && (forall i :: 0 <= i < |previous| ==> IsDroppable(before, items, previous, i))
  }

  /**
   On success every listed file holds bytes of its pinned size and digest, names listed before and no longer are
   gone, every other entry is as it was, and what is new is folders above listed files.
   */
  method InstallSnapshot(folder: Folder, items: seq<Item>, previous: seq<Path>, safe: Path -> bool,
                         fold: Path -> Path, hash: Hash)
    returns (ok: bool, baseline: map<Path, Pinned>)
    requires WellFormed(folder.fs)
    modifies folder`fs
    ensures WellFormed(folder.fs)
    ensures ok <==> CanBeInstalled(old(folder.fs), items, previous, safe, fold, hash)
    ensures ok ==> AreAccepted(items, safe, fold) && IsBaseline(baseline, hash, items, |items|)
    ensures ok ==> forall i :: 0 <= i < |items| ==> IsPinned(folder.fs, hash, items[i])
    ensures ok ==> forall p :: p in previous && p !in Names(items, |items|) ==> p !in folder.fs
    ensures ok ==> forall p :: p in old(folder.fs) && p !in previous && p !in Names(items, |items|) ==> (
                                 p in folder.fs && folder.fs[p] == old(folder.fs)[p])
    ensures ok ==> forall p :: p in folder.fs && p !in old(folder.fs) && p !in Names(items, |items|) ==> (
                                 folder.fs[p] == Dir && IsParent(items, |items|, p))
  {
    baseline := map[];
    ok := Decode(items, safe, fold);
    if !ok {
      return;
    }
    ok, baseline := InstallAll(folder, items, safe, fold, hash);
    if !ok {
      return;
    }
    ghost var installed := folder.fs;
    forall i | 0 <= i < |previous|
      ensures CanDropAt(installed, previous, baseline.Keys, i) <==> IsDroppable(old(folder.fs), items, previous, i)
    {
      DroppableMeaning(old(folder.fs), installed, hash, items, previous, i);
    }
    ok := DropPrevious(folder, previous, baseline.Keys);
    if ok {
      DroppingKeeps(installed, folder.fs, hash, items, previous);
    }
  }

  lemma DroppingKeeps(fs: Tree, v: Tree, hash: Hash, items: seq<Item>, previous: seq<Path>)
    requires (forall i :: 0 <= i < |items| ==> IsPinned(fs, hash, items[i]))
    requires v == fs - Dropped(previous, Names(items, |items|), |previous|)
    ensures forall i :: 0 <= i < |items| ==> IsPinned(v, hash, items[i])
    ensures forall p :: p in previous && p !in Names(items, |items|) ==> p !in v
    ensures forall p :: p in fs && p !in previous ==> p in v
  {
    forall i | 0 <= i < |items| ensures IsPinned(v, hash, items[i]) {
      assert IsPinned(fs, hash, items[i]) && NameOf(items[i]) in Names(items, |items|);
    }
    forall p | p in previous && p !in Names(items, |items|) ensures p !in v {
      var i :| 0 <= i < |previous| && previous[i] == p;
    }
  }
}

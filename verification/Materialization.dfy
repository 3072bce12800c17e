/**
 Writing a project into a folder (src/core/persistence.ts).

 Digests are values of an uninterpreted function. `fold` is the part of the portable comparison key that merges
 spellings some file systems cannot tell apart; on disk, paths are told apart by their exact spelling. Paths are
 canonical already, and the order in which folders are created is that of the manifest.
 */
module Materialization {
  import opened Bytes
  import opened Outcomes
  import opened ProjectPaths
  import opened ProjectTree

  datatype Document = Document(path: Path, bytes: seq<Byte>)

  /** The source is what a regular file at the source path holds, if there is one. */
  datatype Binary = Binary(path: Path, source: Option<seq<Byte>>, digest: Digest)

  datatype Manifest = Manifest(documents: seq<Document>, binaries: seq<Binary>, directories: seq<Path>)

  const MaxTrackedProjectEntries := 50_000

  function DocumentPaths(m: Manifest): set<Path> { set i | 0 <= i < |m.documents| :: m.documents[i].path }

  function BinaryPaths(m: Manifest): set<Path> { set i | 0 <= i < |m.binaries| :: m.binaries[i].path }

  function Files(m: Manifest): set<Path> { DocumentPaths(m) + BinaryPaths(m) }

  function Folders(m: Manifest): set<Path> { set i | 0 <= i < |m.directories| :: m.directories[i] }

  /** A path the manifest names, or a folder above one. */
  predicate IsNamed(m: Manifest, p: Path) { p != [] && exists q :: q in Files(m) + Folders(m) && p <= q }

  // ----- Validation -----

  type Fold = Segment -> Segment

  function Key(fold: Fold, p: Path): Path { seq(|p|, i requires 0 <= i < |p| => fold(p[i])) }

  function FilePath(m: Manifest, i: nat): Path
    requires i < |m.documents| + |m.binaries|
  {
    if i < |m.documents| then m.documents[i].path else m.binaries[i - |m.documents|].path
  }

  predicate ParentsOK(fold: Fold, fileKeys: set<Path>, directoryKeys: set<Path>, p: Path) {
    p != [] && forall k :: 0 < k < |p| ==> Key(fold, p[..k]) !in fileKeys && Key(fold, p[..k]) in directoryKeys
  }

  function FileKeys(fold: Fold, m: Manifest, n: nat): set<Path>
    requires n <= |m.documents| + |m.binaries|
  {
    set i | 0 <= i < n :: Key(fold, FilePath(m, i))
  }

  function DirectoryKeys(fold: Fold, m: Manifest, n: nat): set<Path>
    requires n <= |m.directories|
  {
    set i | 0 <= i < n :: Key(fold, m.directories[i])
  }

  predicate FilesOK(fold: Fold, m: Manifest, n: nat)
    requires n <= |m.documents| + |m.binaries|
  {
    forall i :: 0 <= i < n ==> Key(fold, FilePath(m, i)) !in FileKeys(fold, m, i)
  }

  predicate DirectoriesOK(fold: Fold, m: Manifest, n: nat)
    requires n <= |m.directories|
  {
    forall i :: 0 <= i < n ==> (
      Key(fold, m.directories[i]) !in DirectoryKeys(fold, m, i)
      && Key(fold, m.directories[i]) !in FileKeys(fold, m, |m.documents| + |m.binaries|))
  }

  /** No two entries share a portable key, nothing lies below a file, and every parent is listed under some spelling. */
  predicate IsValid(fold: Fold, m: Manifest) {
    var files := |m.documents| + |m.binaries|;
    && FilesOK(fold, m, files) && DirectoriesOK(fold, m, |m.directories|)
    && (forall i :: 0 <= i < files
          ==> ParentsOK(fold, FileKeys(fold, m, files), DirectoryKeys(fold, m, |m.directories|), FilePath(m, i)))
    && (forall i :: 0 <= i < |m.directories|
          ==> ParentsOK(fold, FileKeys(fold, m, files), DirectoryKeys(fold, m, |m.directories|), m.directories[i]))
  }

  method CheckParents(fold: Fold, fileKeys: set<Path>, directoryKeys: set<Path>, p: Path) returns (ok: bool)
    ensures ok <==> ParentsOK(fold, fileKeys, directoryKeys, p)
  {
    if p == [] {
      return false;
    }
    for length := 1 to |p|
      invariant forall k :: 0 < k < length ==> Key(fold, p[..k]) !in fileKeys && Key(fold, p[..k]) in directoryKeys
    {
      var parentKey := Key(fold, p[..length]);
      if parentKey in fileKeys || parentKey !in directoryKeys {
        return false;
      }
    }
    return true;
  }

  method CollectFileKeys(fold: Fold, m: Manifest) returns (ok: bool, fileKeys: set<Path>)
    ensures ok <==> FilesOK(fold, m, |m.documents| + |m.binaries|)
    ensures ok ==> fileKeys == FileKeys(fold, m, |m.documents| + |m.binaries|)
  {
    fileKeys := {};
    for i := 0 to |m.documents| + |m.binaries|
      invariant fileKeys == FileKeys(fold, m, i) && FilesOK(fold, m, i)
    {
      var key := Key(fold, FilePath(m, i));
      if key in fileKeys {
        return false, fileKeys;
      }
      fileKeys := fileKeys + {key};
    }
    return true, fileKeys;
  }

  method CollectDirectoryKeys(fold: Fold, m: Manifest, fileKeys: set<Path>) returns (ok: bool, directoryKeys: set<Path>)
    requires fileKeys == FileKeys(fold, m, |m.documents| + |m.binaries|)
    ensures ok <==> DirectoriesOK(fold, m, |m.directories|)
    ensures ok ==> directoryKeys == DirectoryKeys(fold, m, |m.directories|)
  {
    directoryKeys := {};
    for i := 0 to |m.directories|
      invariant directoryKeys == DirectoryKeys(fold, m, i) && DirectoriesOK(fold, m, i)
    {
      var key := Key(fold, m.directories[i]);
      if key in directoryKeys || key in fileKeys {
        return false, directoryKeys;
      }
      directoryKeys := directoryKeys + {key};
    }
    return true, directoryKeys;
  }

  method Validate(fold: Fold, m: Manifest) returns (ok: bool)
    ensures ok <==> IsValid(fold, m)
  {
    var fileKeys, directoryKeys;
    ok, fileKeys := CollectFileKeys(fold, m);
    if !ok {
      return;
    }
    ok, directoryKeys := CollectDirectoryKeys(fold, m, fileKeys);
    if !ok {
      return;
    }
    for i := 0 to |m.documents| + |m.binaries|
      invariant forall j :: 0 <= j < i ==> ParentsOK(fold, fileKeys, directoryKeys, FilePath(m, j))
    {
      ok := CheckParents(fold, fileKeys, directoryKeys, FilePath(m, i));
      if !ok {
        return;
      }
    }
    for i := 0 to |m.directories|
      invariant forall j :: 0 <= j < i ==> ParentsOK(fold, fileKeys, directoryKeys, m.directories[j])
    {
      ok := CheckParents(fold, fileKeys, directoryKeys, m.directories[i]);
      if !ok {
        return;
      }
    }
    return true;
  }

  function AllFileKeys(fold: Fold, m: Manifest): set<Path> { FileKeys(fold, m, |m.documents| + |m.binaries|) }

  function AllDirectoryKeys(fold: Fold, m: Manifest): set<Path> { DirectoryKeys(fold, m, |m.directories|) }

  lemma FileKeyListed(fold: Fold, m: Manifest, p: Path)
    requires p in Files(m)
    ensures Key(fold, p) in AllFileKeys(fold, m)
  {
    if p in DocumentPaths(m) {
      var d :| 0 <= d < |m.documents| && m.documents[d].path == p;
      assert FilePath(m, d) == p;
    } else {
      var b :| 0 <= b < |m.binaries| && m.binaries[b].path == p;
      assert FilePath(m, |m.documents| + b) == p;
    }
  }

  lemma ParentsListed(fold: Fold, m: Manifest, p: Path)
    requires IsValid(fold, m) && p in Files(m) + Folders(m)
    ensures ParentsOK(fold, AllFileKeys(fold, m), AllDirectoryKeys(fold, m), p)
  {
    if p in Folders(m) {
      var j :| 0 <= j < |m.directories| && m.directories[j] == p;
    } else if p in DocumentPaths(m) {
      var d :| 0 <= d < |m.documents| && m.documents[d].path == p;
      assert FilePath(m, d) == p;
    } else {
      var b :| 0 <= b < |m.binaries| && m.binaries[b].path == p;
      assert FilePath(m, |m.documents| + b) == p;
    }
  }

  lemma FolderKeyDiffers(fold: Fold, m: Manifest, p: Path)
    requires IsValid(fold, m) && p in Folders(m)
    ensures Key(fold, p) !in AllFileKeys(fold, m)
  {
    var j :| 0 <= j < |m.directories| && m.directories[j] == p;
  }

  /** In a valid manifest no wanted file lies on the way to another wanted entry, and no file is a wanted folder. */
  lemma ValidManifestIsTree(fold: Fold, m: Manifest, p: Path, q: Path)
    requires IsValid(fold, m) && p in Files(m) && q in Files(m) + Folders(m) && p <= q
    ensures p == q && q !in Folders(m)
  {
    FileKeyListed(fold, m, p);
    ParentsListed(fold, m, p);
    ParentsListed(fold, m, q);
    assert q[..|p|] == p;
    if q in Folders(m) {
      FolderKeyDiffers(fold, m, q);
    }
    assert |p| == |q|;
  }

  // ----- Creating folders and writing files -----

  function Prefixes(p: Path): set<Path> { set k | 0 < k <= |p| :: p[..k] }

  predicate CanMake(fs: Tree, p: Path) { forall k :: 0 < k <= |p| && p[..k] in fs ==> fs[p[..k]] == Dir }

  function WithFolders(fs: Tree, p: Path): Tree {
    map q | q in fs.Keys + Prefixes(p) :: if q in fs then fs[q] else Dir
  }

  function Parent(p: Path): Path
    requires p != []
  {
    p[..|p| - 1]
  }

  function WithFile(fs: Tree, p: Path, bytes: seq<Byte>): Tree
    requires p != []
  {
    WithFolders(fs, Parent(p))[p := File(bytes)]
  }

  predicate CanWrite(fs: Tree, p: Path) { p != [] && CanMake(fs, Parent(p)) && (p in fs ==> fs[p] != Dir) }

  lemma PrefixesOf(p: Path, q: Path)
    ensures q in Prefixes(p) <==> q != [] && q <= p
  {
    if q != [] && q <= p {
      assert q == p[..|q|];
    }
  }

  lemma FoldersStayWellFormed(fs: Tree, p: Path)
    requires WellFormed(fs) && CanMake(fs, p)
    ensures WellFormed(WithFolders(fs, p))
  {
    var v := WithFolders(fs, p);
    forall q, k | q in v && 0 < k < |q| ensures q[..k] in v && v[q[..k]] == Dir {
      if q !in fs {
        PrefixesOf(p, q);
        assert q[..k] == p[..k];
      }
    }
  }

  lemma FileStaysWellFormed(fs: Tree, p: Path, bytes: seq<Byte>)
    requires WellFormed(fs) && CanWrite(fs, p)
    ensures WellFormed(WithFile(fs, p, bytes))
  {
    FoldersStayWellFormed(fs, Parent(p));
    var w := WithFolders(fs, Parent(p));
    assert p in w ==> p in fs;
    var v := WithFile(fs, p, bytes);
    forall q, k | q in v && 0 < k < |q| ensures q[..k] in v && v[q[..k]] == Dir {
      if q == p {
        assert p[..k] == Parent(p)[..k];
      } else {
        assert q[..k] in w && w[q[..k]] == Dir;
      }
    }
  }

  /** Creates a folder and those above it; nothing changes when a file or a link is in the way. */
  method MakeFolder(folder: Folder, p: Path) returns (ok: bool)
    requires WellFormed(folder.fs)
    modifies folder`fs
    ensures ok <==> CanMake(old(folder.fs), p)
    ensures folder.fs == if ok then WithFolders(old(folder.fs), p) else old(folder.fs)
  {
    var safe := folder.IsSafe(p, |p|);
    if !safe {
      return false;
    }
    ghost var before := folder.fs;
    var fs := folder.fs;
    assert p[..0] == [];
    for k := 1 to |p| + 1
      invariant folder.fs == before && fs == WithFolders(before, p[..k - 1]) && CanMake(before, p[..k - 1])
    {
      assert p[..k][..k - 1] == p[..k - 1];
      MakeOne(before, p, k);
      if p[..k] !in fs {
        fs := fs[p[..k] := Dir];
      } else if fs[p[..k]] != Dir {
        assert p[..k] in before;
        return false;
      }
    }
    assert p[..|p|] == p;
    folder.fs := fs;
    return true;
  }

  lemma MakeOne(fs: Tree, p: Path, k: nat)
    requires 0 < k <= |p| && CanMake(fs, p[..k - 1])
    ensures WithFolders(fs, p[..k]) == if p[..k] in WithFolders(fs, p[..k - 1]) then WithFolders(fs, p[..k - 1])
                                       else WithFolders(fs, p[..k - 1])[p[..k] := Dir]
    ensures CanMake(fs, p[..k]) <==> (p[..k] in fs ==> fs[p[..k]] == Dir)
    ensures p[..k] in WithFolders(fs, p[..k - 1]) <==> p[..k] in fs
  {
    forall j | 0 < j <= k - 1 ensures p[..k][..j] == p[..k - 1][..j] {
    }
    forall q ensures q in Prefixes(p[..k]) <==> q in Prefixes(p[..k - 1]) || q == p[..k] {
      PrefixesOf(p[..k], q);
      PrefixesOf(p[..k - 1], q);
    }
    assert p[..k] !in Prefixes(p[..k - 1]);
    assert p[..k][..k] == p[..k];
  }

  /** Writes a file atomically; its folder is created first, and a folder in its place is an error. */
  method WriteFile(folder: Folder, p: Path, bytes: seq<Byte>) returns (ok: bool)
    requires WellFormed(folder.fs) && p != []
    modifies folder`fs
    ensures ok <==> CanWrite(old(folder.fs), p)
    ensures folder.fs == if ok then WithFile(old(folder.fs), p, bytes) else old(folder.fs)
  {
    ghost var before := folder.fs;
    ok := MakeFolder(folder, p[..|p| - 1]);
    if !ok {
      return;
    }
    assert p in folder.fs <==> p in before;
    if p in folder.fs && folder.fs[p] == Dir {
      ParentsExist(before, p);
      return false;
    }
    folder.fs := folder.fs[p := File(bytes)];
  }

  lemma ParentsExist(fs: Tree, p: Path)
    requires WellFormed(fs) && p in fs
    ensures WithFolders(fs, Parent(p)) == fs
  {
    forall q | q in Prefixes(Parent(p)) ensures q in fs {
      PrefixesOf(Parent(p), q);
      assert q == p[..|q|];
    }
  }

  // ----- Writing a manifest -----

  /** The bytes to write for file `i`: a binary must exist and have its digest. */
  function Content(m: Manifest, hash: Hash, i: nat): Option<seq<Byte>>
    requires i < |m.documents| + |m.binaries|
  {
    if i < |m.documents| then Some(m.documents[i].bytes)
    else
      var b := m.binaries[i - |m.documents|];
      if b.source.Some? && hash(b.source.value) == b.digest then b.source else None
  }

  /** The file is there, with its bytes. */
  predicate IsWritten(fs: Tree, hash: Hash, m: Manifest, i: nat)
    requires i < |m.documents| + |m.binaries|
  {
    Content(m, hash, i).Some? && FilePath(m, i) in fs && fs[FilePath(m, i)] == File(Content(m, hash, i).value)
  }

  predicate IsFolderAt(fs: Tree, p: Path) { p in fs && fs[p].Dir? }

  /** Writing adds nothing but what the manifest names, and changes nothing but wanted files; no folder is replaced. */
  ghost predicate OnlyAdds(before: Tree, fs: Tree, m: Manifest) {
    && (forall p :: p in Files(m) ==> (IsFolderAt(fs, p) <==> IsFolderAt(before, p)))
    && (forall p :: p in before && p !in Files(m) ==> p in fs && fs[p] == before[p])
    && (forall p :: p in fs && p !in before ==> IsNamed(m, p) && (p !in Files(m) ==> fs[p] == Dir))
  }

  /** The first folders and files of the manifest are there. */
  ghost predicate Present(fs: Tree, hash: Hash, m: Manifest, folders: nat, files: nat)
    requires folders <= |m.directories| && files <= |m.documents| + |m.binaries|
  {
    && (forall i :: 0 <= i < folders ==> m.directories[i] in fs && fs[m.directories[i]] == Dir)
    && (forall i :: 0 <= i < files ==> IsWritten(fs, hash, m, i))
  }

  lemma PrefixesAreNamed(m: Manifest, p: Path, q: Path)
    requires p in Files(m) + Folders(m) && q != [] && q <= p
    ensures IsNamed(m, q)
  {
  }

  lemma MakingAdds(before: Tree, fs: Tree, m: Manifest, fold: Fold, p: Path, parent: Path)
    requires IsValid(fold, m) && OnlyAdds(before, fs, m) && p in Files(m) + Folders(m) && parent <= p
    requires p in Files(m) ==> |parent| < |p|
    ensures OnlyAdds(before, WithFolders(fs, parent), m)
  {
    var v := WithFolders(fs, parent);
    forall q | q in v && q !in fs ensures IsNamed(m, q) && q !in Files(m) {
      PrefixesOf(parent, q);
      PrefixesAreNamed(m, p, q);
      if q in Files(m) {
        ValidManifestIsTree(fold, m, q, p);
      }
    }
  }

  lemma MakingKeeps(fs: Tree, hash: Hash, m: Manifest, folders: nat, files: nat, p: Path)
    requires folders <= |m.directories| && files <= |m.documents| + |m.binaries| && Present(fs, hash, m, folders, files)
    ensures Present(WithFolders(fs, p), hash, m, folders, files)
  {
    forall i | 0 <= i < files ensures IsWritten(WithFolders(fs, p), hash, m, i) {
      assert IsWritten(fs, hash, m, i);
    }
  }

  lemma FilesDiffer(fold: Fold, m: Manifest, i: nat, j: nat)
    requires IsValid(fold, m) && i < j < |m.documents| + |m.binaries|
    ensures FilePath(m, i) != FilePath(m, j)
  {
    assert Key(fold, FilePath(m, i)) in FileKeys(fold, m, j);
  }

  lemma FileIsNamed(m: Manifest, i: nat)
    requires i < |m.documents| + |m.binaries|
    ensures FilePath(m, i) in Files(m)
  {
  }

  /** A written file joins those already there and disturbs none of them. */
  lemma WritingKeeps(fs: Tree, hash: Hash, m: Manifest, fold: Fold, n: nat, bytes: seq<Byte>)
    requires IsValid(fold, m) && n < |m.documents| + |m.binaries| && FilePath(m, n) != []
    requires Present(fs, hash, m, |m.directories|, n)
    requires Content(m, hash, n) == Some(bytes)
    ensures Present(WithFile(fs, FilePath(m, n), bytes), hash, m, |m.directories|, n + 1)
  {
    var p := FilePath(m, n);
    var w := WithFolders(fs, Parent(p));
    var v := WithFile(fs, p, bytes);
    FileIsNamed(m, n);
    MakingKeeps(fs, hash, m, |m.directories|, n, Parent(p));
    forall i | 0 <= i < n + 1 ensures IsWritten(v, hash, m, i) {
      if i < n {
        FilesDiffer(fold, m, i, n);
        assert IsWritten(w, hash, m, i);
      }
    }
    forall i | 0 <= i < |m.directories| ensures m.directories[i] in v && v[m.directories[i]] == Dir {
      assert m.directories[i] in Folders(m);
      if m.directories[i] == p {
        ValidManifestIsTree(fold, m, p, p);
      }
    }
  }

  // ----- What stands in the way -----

  /**
   Nothing is in the way of the manifest: folders only above its entries and in place of its folders, binaries as
   declared.
   */
  predicate FoldersFree(fs: Tree, m: Manifest) {
    forall i :: 0 <= i < |m.directories| ==> CanMake(fs, m.directories[i])
  }

  predicate FileFree(fs: Tree, m: Manifest, hash: Hash, i: nat)
    requires i < |m.documents| + |m.binaries|
  {
    CanWrite(fs, FilePath(m, i)) && Content(m, hash, i).Some?
  }

  function FileCount(m: Manifest): nat { |m.documents| + |m.binaries| }

  /** The first `n` files. */
  predicate FilesFree(fs: Tree, m: Manifest, hash: Hash, n: nat)
    requires n <= FileCount(m)
  {
    forall i :: 0 <= i < n ==> FileFree(fs, m, hash, i)
  }

  /** What was in the way of a path below which nothing is wanted is still, and nothing else has come. */
  lemma SameWay(before: Tree, fs: Tree, m: Manifest, p: Path)
    requires OnlyAdds(before, fs, m) && forall k :: 0 < k <= |p| ==> p[..k] !in Files(m)
    ensures CanMake(fs, p) <==> CanMake(before, p)
  {
    forall k | 0 < k <= |p|
      ensures p[..k] in fs && fs[p[..k]] != Dir <==> p[..k] in before && before[p[..k]] != Dir
    {
    }
  }

  lemma FolderWay(before: Tree, fs: Tree, m: Manifest, fold: Fold, p: Path)
    requires IsValid(fold, m) && OnlyAdds(before, fs, m) && p in Folders(m)
    ensures CanMake(fs, p) <==> CanMake(before, p)
  {
    forall k | 0 < k <= |p| ensures p[..k] !in Files(m) {
      if p[..k] in Files(m) {
        ValidManifestIsTree(fold, m, p[..k], p);
      }
    }
    SameWay(before, fs, m, p);
  }

  lemma FileWay(before: Tree, fs: Tree, m: Manifest, fold: Fold, p: Path)
    requires IsValid(fold, m) && OnlyAdds(before, fs, m) && p in Files(m)
    ensures CanWrite(fs, p) <==> CanWrite(before, p)
  {
    if p != [] {
      var parent := Parent(p);
      forall k | 0 < k <= |parent| ensures parent[..k] !in Files(m) {
        assert parent[..k] == p[..k];
        if p[..k] in Files(m) {
          ValidManifestIsTree(fold, m, p[..k], p);
        }
      }
      SameWay(before, fs, m, parent);
      assert IsFolderAt(fs, p) <==> IsFolderAt(before, p);
    }
  }

  method MakeFolders(folder: Folder, m: Manifest, fold: Fold, hash: Hash) returns (ok: bool)
    requires WellFormed(folder.fs) && IsValid(fold, m)
    modifies folder`fs
    ensures WellFormed(folder.fs) && OnlyAdds(old(folder.fs), folder.fs, m)
    ensures ok ==> Present(folder.fs, hash, m, |m.directories|, 0)
    ensures ok <==> FoldersFree(old(folder.fs), m)
  {
    ghost var before := folder.fs;
    for i := 0 to |m.directories|
      invariant WellFormed(folder.fs) && OnlyAdds(before, folder.fs, m) && Present(folder.fs, hash, m, i, 0)
      invariant forall j :: 0 <= j < i ==> CanMake(before, m.directories[j])
    {
      ok := MakeNext(folder, m, fold, hash, before, i);
      if !ok {
        return;
      }
    }
    return true;
  }

  method MakeNext(folder: Folder, m: Manifest, fold: Fold, hash: Hash, ghost before: Tree, i: nat) returns (ok: bool)
    requires WellFormed(folder.fs) && IsValid(fold, m) && i < |m.directories|
    requires OnlyAdds(before, folder.fs, m) && Present(folder.fs, hash, m, i, 0)
    modifies folder`fs
    ensures WellFormed(folder.fs) && OnlyAdds(before, folder.fs, m)
    ensures ok ==> Present(folder.fs, hash, m, i + 1, 0)
    ensures ok <==> CanMake(before, m.directories[i])
  {
    var p := m.directories[i];
    ghost var fs := folder.fs;
    assert p in Folders(m);
    FolderWay(before, fs, m, fold, p);
    ok := MakeFolder(folder, p);
    if !ok {
      return;
    }
    FoldersStayWellFormed(fs, p);
    FolderIsNoFile(fold, m, p);
    MakingAdds(before, fs, m, fold, p, p);
    MakingKeeps(fs, hash, m, i, 0, p);
    FolderIsThere(fs, m, fold, p);
  }

  lemma FolderIsNoFile(fold: Fold, m: Manifest, p: Path)
    requires IsValid(fold, m) && p in Folders(m)
    ensures p !in Files(m)
  {
    if p in Files(m) {
      ValidManifestIsTree(fold, m, p, p);
    }
  }

  lemma FolderIsThere(fs: Tree, m: Manifest, fold: Fold, p: Path)
    requires IsValid(fold, m) && p in Folders(m) && CanMake(fs, p)
    ensures p in WithFolders(fs, p) && WithFolders(fs, p)[p] == Dir
  {
    ParentsListed(fold, m, p);
    PrefixesOf(p, p);
    assert p[..|p|] == p;
  }

  method WriteFiles(folder: Folder, m: Manifest, fold: Fold, hash: Hash) returns (ok: bool)
    requires WellFormed(folder.fs) && IsValid(fold, m) && Present(folder.fs, hash, m, |m.directories|, 0)
    modifies folder`fs
    ensures WellFormed(folder.fs) && OnlyAdds(old(folder.fs), folder.fs, m)
    ensures ok ==> Present(folder.fs, hash, m, |m.directories|, |m.documents| + |m.binaries|)
    ensures ok <==> FilesFree(old(folder.fs), m, hash, FileCount(m))
  {
    ghost var before := folder.fs;
    for i := 0 to FileCount(m)
      invariant WellFormed(folder.fs) && OnlyAdds(before, folder.fs, m)
      invariant Present(folder.fs, hash, m, |m.directories|, i)
      invariant FilesFree(before, m, hash, i)
    {
      ok := WriteNext(folder, m, fold, hash, before, i);
      if !ok {
        return;
      }
    }
    return true;
  }

  lemma FreeUpTo(fs: Tree, m: Manifest, hash: Hash, i: nat)
    requires i < FileCount(m) && FilesFree(fs, m, hash, i)
    ensures FileFree(fs, m, hash, i) <==> FilesFree(fs, m, hash, i + 1)
    ensures FilesFree(fs, m, hash, FileCount(m)) ==> FileFree(fs, m, hash, i)
  {
  }

  method WriteNext(folder: Folder, m: Manifest, fold: Fold, hash: Hash, ghost before: Tree, i: nat) returns (ok: bool)
    requires WellFormed(folder.fs) && IsValid(fold, m) && i < FileCount(m) && FilesFree(before, m, hash, i)
    requires OnlyAdds(before, folder.fs, m) && Present(folder.fs, hash, m, |m.directories|, i)
    modifies folder`fs
    ensures WellFormed(folder.fs) && OnlyAdds(before, folder.fs, m)
    ensures ok ==> Present(folder.fs, hash, m, |m.directories|, i + 1) && FilesFree(before, m, hash, i + 1)
    ensures !ok ==> !FilesFree(before, m, hash, FileCount(m))
  {
    FreeUpTo(before, m, hash, i);
    ok := WriteOne(folder, m, fold, hash, before, i);
  }

  method WriteOne(folder: Folder, m: Manifest, fold: Fold, hash: Hash, ghost before: Tree, i: nat) returns (ok: bool)
    requires WellFormed(folder.fs) && IsValid(fold, m) && i < |m.documents| + |m.binaries|
    requires OnlyAdds(before, folder.fs, m) && Present(folder.fs, hash, m, |m.directories|, i)
    modifies folder`fs
    ensures WellFormed(folder.fs) && OnlyAdds(before, folder.fs, m)
    ensures ok ==> Present(folder.fs, hash, m, |m.directories|, i + 1)
    ensures ok <==> FileFree(before, m, hash, i)
  {
    var p := FilePath(m, i);
    FileIsNamed(m, i);
    FileWay(before, folder.fs, m, fold, p);
    ParentsListed(fold, m, p);
    var content := Content(m, hash, i);
    if content.None? {
      return false;
    }
    ghost var fs := folder.fs;
    ok := WriteFile(folder, p, content.value);
    if !ok {
      return;
    }
    FileStaysWellFormed(fs, p, content.value);
    MakingAdds(before, fs, m, fold, p, Parent(p));
    WritingKeeps(fs, hash, m, fold, i, content.value);
    PrefixesAreNamed(m, p, p);
  }

  lemma SameFilesFree(before: Tree, fs: Tree, m: Manifest, fold: Fold, hash: Hash)
    requires IsValid(fold, m) && OnlyAdds(before, fs, m)
    ensures FilesFree(fs, m, hash, FileCount(m)) <==> FilesFree(before, m, hash, FileCount(m))
  {
    forall i | 0 <= i < |m.documents| + |m.binaries|
      ensures FileFree(fs, m, hash, i) <==> FileFree(before, m, hash, i)
    {
      FileIsNamed(m, i);
      FileWay(before, fs, m, fold, FilePath(m, i));
    }
  }

  // ----- Pruning -----

  /** A shared folder that is not wanted and holds no wanted file. */
  predicate IsUnwanted(fs: Tree, track: Tracking, m: Manifest, q: Path)
    requires q in fs
  {
    fs[q].Dir? && IsShared(track, q) && q !in Folders(m) && forall f :: f in Files(m) ==> !Below(f, q)
  }

  /** A folder that goes: unwanted, with nothing but unwanted folders below it. */
  predicate IsPruned(fs: Tree, track: Tracking, m: Manifest, d: Path)
    requires d in fs
  {
    IsUnwanted(fs, track, m, d) && forall q :: q in fs && Below(q, d) ==> IsUnwanted(fs, track, m, q)
  }

  /** The tree when the folders `done` have been looked at. */
  function PrunedTree(fs: Tree, track: Tracking, m: Manifest, done: set<Path>): Tree {
    map p | p in fs && !(p in done && IsPruned(fs, track, m, p)) :: fs[p]
  }

  function TextLength(p: Path): nat {
    if p == [] then 0 else TextLength(p[..|p| - 1]) + |p[|p| - 1].name| + 1
  }

  lemma {:induction false} LongerBelow(p: Path, q: Path)
    requires Below(q, p)
    ensures TextLength(q) > TextLength(p)
  {
    var parent := q[..|q| - 1];
    if |parent| > |p| {
      assert Below(parent, p);
      LongerBelow(p, parent);
    } else {
      assert parent == p;
    }
  }

  lemma {:induction false} LongestExists(s: set<Path>)
    requires s != {}
    ensures exists d :: d in s && IsLongest(s, d)
    decreases |s|
  {
    var p :| p in s;
    if s == {p} {
      assert IsLongest(s, p);
    } else {
      var rest := s - {p};
      LongestExists(rest);
      var d :| d in rest && IsLongest(rest, d);
      var best := if TextLength(p) > TextLength(d) then p else d;
      assert IsLongest(s, best);
    }
  }

  predicate IsLongest(s: set<Path>, d: Path) { forall e :: e in s ==> TextLength(e) <= TextLength(d) }

  /** With a folder goes all that is left below it. */
  lemma PrunedBelow(fs: Tree, track: Tracking, m: Manifest, d: Path, q: Path)
    requires d in fs && IsPruned(fs, track, m, d) && q in fs && Below(q, d)
    ensures IsPruned(fs, track, m, q)
  {
    forall r | r in fs && Below(r, q) ensures IsUnwanted(fs, track, m, r) {
      assert Below(r, d);
    }
  }

  /** When everything longer has been looked at, a folder is empty exactly when it is to go. */
  lemma EmptyIffPruned(fs: Tree, track: Tracking, m: Manifest, done: set<Path>, d: Path)
    requires WellFormed(fs) && d in fs && IsUnwanted(fs, track, m, d)
    requires forall q :: q in fs && fs[q].Dir? && IsShared(track, q) && TextLength(q) > TextLength(d) ==> q in done
    ensures HasEntry(PrunedTree(fs, track, m, done), d) <==> !IsPruned(fs, track, m, d)
  {
    var v := PrunedTree(fs, track, m, done);
    if IsPruned(fs, track, m, d) {
      forall q | q in fs && Below(q, d) ensures q !in v {
        LongerBelow(d, q);
        PrunedBelow(fs, track, m, d, q);
      }
    } else {
      var q :| q in fs && Below(q, d) && !IsUnwanted(fs, track, m, q);
      assert q in v;
    }
  }

  lemma PrunedIsWellFormed(fs: Tree, track: Tracking, m: Manifest, done: set<Path>)
    requires WellFormed(fs)
    requires forall p, q :: p in done && q in fs && Below(q, p) && fs[q].Dir? && IsShared(track, q) ==> q in done
    ensures WellFormed(PrunedTree(fs, track, m, done))
  {
    var v := PrunedTree(fs, track, m, done);
    forall p, k | p in v && 0 < k < |p| ensures p[..k] in v && v[p[..k]] == Dir {
      var d := p[..k];
      assert d in fs && fs[d] == Dir && Below(p, d);
      if IsPruned(fs, track, m, d) {
        PrunedBelow(fs, track, m, d, p);
      }
    }
  }

  method PruneFiles(folder: Folder, m: Manifest, ghost bound: nat)
    requires WellFormed(folder.fs) && DepthWithin(folder.fs, bound)
    modifies folder`fs
    ensures WellFormed(folder.fs)
    ensures folder.fs == old(folder.fs) - (FilesBelow(old(folder.fs), folder.track, []) - Files(m))
  {
    ghost var before := folder.fs;
    var existing := ScanFiles(folder.fs, folder.track, [], bound);
    var todo := existing;
    while todo != {}
      invariant todo <= existing
      invariant folder.fs == before - (existing - todo - Files(m))
    {
      var file :| file in todo;
      todo := todo - {file};
      if file !in Files(m) {
        folder.fs := folder.fs - {file};
      }
    }
    forall p, k | p in folder.fs && 0 < k < |p| ensures p[..k] in folder.fs && folder.fs[p[..k]] == Dir {
      assert p[..k] in before && before[p[..k]] == Dir;
    }
  }

  method PruneFolders(folder: Folder, m: Manifest, ghost bound: nat)
    requires WellFormed(folder.fs) && DepthWithin(folder.fs, bound)
    modifies folder`fs
    ensures folder.fs == PrunedTree(old(folder.fs), folder.track, m, FoldersBelow(old(folder.fs), folder.track, []))
  {
    ghost var before := folder.fs;
    var existing := ScanFolders(folder.fs, folder.track, [], bound);
    var todo := existing;
    ghost var done: set<Path> := {};
    assert PrunedTree(before, folder.track, m, {}) == before;
    while todo != {}
      invariant todo <= existing && done == existing - todo
      invariant folder.fs == PrunedTree(before, folder.track, m, done)
      invariant forall a, b :: a in todo && b in done ==> TextLength(a) <= TextLength(b)
    {
      LongestExists(todo);
      var d :| d in todo && IsLongest(todo, d);
      todo := todo - {d};
      PruneFolder(folder, m, before, done, d);
      done := done + {d};
    }
    assert done == existing;
  }

  /** One folder of the pruning loop: skipped when wanted or above a wanted file, else removed when empty. */
  method PruneFolder(folder: Folder, m: Manifest, ghost before: Tree, ghost done: set<Path>, d: Path)
    requires WellFormed(before) && folder.fs == PrunedTree(before, folder.track, m, done)
    requires d in FoldersBelow(before, folder.track, []) && d !in done
    requires forall q :: q in FoldersBelow(before, folder.track, []) && TextLength(q) > TextLength(d) ==> q in done
    modifies folder`fs
    ensures folder.fs == PrunedTree(before, folder.track, m, done + {d})
  {
    if d in Folders(m) {
      return;
    }
    if exists f :: f in Files(m) && Below(f, d) {
      return;
    }
    EmptyIffPruned(before, folder.track, m, done, d);
    if !HasEntry(folder.fs, d) {
      folder.fs := folder.fs - {d};
    }
  }

  // ----- Materialization -----

  /**
   What is host-only and not in the way of a wanted file stays as it was, what else stays too, and what is new is named
   by the manifest.
   */
  ghost predicate KeepsHostOnly(before: Tree, fs: Tree, track: Tracking, m: Manifest) {
    && (forall p :: p in before && p !in Files(m) && IsHostOnly(before, track, p) ==> p in fs && fs[p] == before[p])
    && (forall p :: p in fs && p in before && p !in Files(m) ==> fs[p] == before[p])
    && (forall p :: p in fs && p !in before ==> IsNamed(m, p))
  }

  /** Every host-only entry is there as it was. */
  ghost predicate HostOnlyKept(before: Tree, fs: Tree, track: Tracking) {
    forall p :: p in before && IsHostOnly(before, track, p) ==> p in fs && fs[p] == before[p]
  }

  /** What is host-only at the place of wanted file `i` is what will be written there. */
  predicate IsSpared(before: Tree, track: Tracking, m: Manifest, hash: Hash, i: nat)
    requires i < |m.documents| + |m.binaries|
  {
    FilePath(m, i) in before && IsHostOnly(before, track, FilePath(m, i)) ==> (
      Content(m, hash, i).Some? && before[FilePath(m, i)] == File(Content(m, hash, i).value))
  }

  predicate AreSpared(before: Tree, track: Tracking, m: Manifest, hash: Hash) {
    forall i :: 0 <= i < |m.documents| + |m.binaries| ==> IsSpared(before, track, m, hash, i)
  }

  lemma FileIndex(m: Manifest, p: Path) returns (i: nat)
    requires p in Files(m)
    ensures i < |m.documents| + |m.binaries| && FilePath(m, i) == p
  {
    if p in DocumentPaths(m) {
      i :| 0 <= i < |m.documents| && m.documents[i].path == p;
    } else {
      var b :| 0 <= b < |m.binaries| && m.binaries[b].path == p;
      i := |m.documents| + b;
    }
  }

  /**
   A materialization leaves every host-only entry as it was if and only if nothing host-only is in the place of a wanted
   file, or nothing else than what is written there.
   */
  lemma HostOnlyKeptExactlyWhen(before: Tree, fs: Tree, track: Tracking, hash: Hash, m: Manifest)
    requires KeepsHostOnly(before, fs, track, m) && Present(fs, hash, m, |m.directories|, |m.documents| + |m.binaries|)
    ensures HostOnlyKept(before, fs, track) <==> AreSpared(before, track, m, hash)
  {
    forall i | 0 <= i < |m.documents| + |m.binaries| ensures IsWritten(fs, hash, m, i) && FilePath(m, i) in Files(m) {
      FileIsNamed(m, i);
    }
    if AreSpared(before, track, m, hash) {
      forall p | p in before && IsHostOnly(before, track, p) ensures p in fs && fs[p] == before[p] {
        if p in Files(m) {
          var i := FileIndex(m, p);
          assert IsSpared(before, track, m, hash, i) && IsWritten(fs, hash, m, i);
        }
      }
    }
  }

  predicate AllShared(m: Manifest, track: Tracking) { forall p :: p in Files(m) + Folders(m) ==> IsShared(track, p) }

  /** The place of no wanted file is taken by a link or a special node. */
  predicate NoneReplaced(before: Tree, m: Manifest) {
    forall p :: p in Files(m) && p in before ==> !IsHostOnlyNode(before[p])
  }

  /**
   When all that is wanted is shared, host-only entries stay exactly if no link or special node is in the place of a
   file.
   */
  lemma LinksAreReplaced(before: Tree, fs: Tree, track: Tracking, hash: Hash, m: Manifest)
    requires KeepsHostOnly(before, fs, track, m) && Present(fs, hash, m, |m.directories|, |m.documents| + |m.binaries|)
    requires AllShared(m, track)
    ensures HostOnlyKept(before, fs, track) <==> NoneReplaced(before, m)
  {
    HostOnlyKeptExactlyWhen(before, fs, track, hash, m);
    forall i | 0 <= i < |m.documents| + |m.binaries|
      ensures IsSpared(before, track, m, hash, i) <==> (
                FilePath(m, i) in before ==> !IsHostOnlyNode(before[FilePath(m, i)]))
    {
      FileIsNamed(m, i);
    }
    if AreSpared(before, track, m, hash) {
      forall p | p in Files(m) && p in before ensures !IsHostOnlyNode(before[p]) {
        var i := FileIndex(m, p);
        assert IsSpared(before, track, m, hash, i);
      }
    } else {
      var i :| 0 <= i < |m.documents| + |m.binaries| && !IsSpared(before, track, m, hash, i);
      FileIsNamed(m, i);
    }
  }

  /**
   A link in the place of the only wanted file: nothing is in the way, and whatever is left then, it is not the link.
   */
  lemma LinkIsReplaced(name: Segment, bytes: seq<Byte>, track: Tracking, fold: Fold, hash: Hash, fs: Tree)
    ensures var before, m := map[[name] := Link], Manifest([Document([name], bytes)], [], []); (
      && WellFormed(before) && IsHostOnly(before, track, [name]) && Accepts(before, m, fold, hash)
      && (Present(fs, hash, m, 0, 1) ==> !HostOnlyKept(before, fs, track)))
  {
    var before, m := map[[name] := Link], Manifest([Document([name], bytes)], [], []);
    assert FilePath(m, 0) == [name] && [name][..0] == [];
    assert FileKeys(fold, m, 0) == {};
    assert FileFree(before, m, hash, 0);
    if Present(fs, hash, m, 0, 1) {
      assert IsWritten(fs, hash, m, 0);
    }
  }

  /** A manifest that fits into the limit, is valid, and has nothing in its way. */
  predicate Accepts(fs: Tree, m: Manifest, fold: Fold, hash: Hash) {
    && |m.documents| + |m.binaries| + |m.directories| <= MaxTrackedProjectEntries && IsValid(fold, m)
    && FoldersFree(fs, m) && FilesFree(fs, m, hash, FileCount(m))
  }

  /** A folder that is wanted, or in which something wanted or host-only is left. */
  ghost predicate IsJustified(fs: Tree, track: Tracking, m: Manifest, d: Path) {
    d in Folders(m) || exists q :: q in fs && Below(q, d) && (IsHostOnly(fs, track, q) || q in Files(m) + Folders(m))
  }

  ghost predicate IsMaterialized(fs: Tree, track: Tracking, hash: Hash, m: Manifest) {
    && Present(fs, hash, m, |m.directories|, |m.documents| + |m.binaries|)
    && FilesBelow(fs, track, []) <= Files(m)
    && (forall d :: d in FoldersBelow(fs, track, []) ==> IsJustified(fs, track, m, d))
  }

  lemma WantedAreThere(fs: Tree, hash: Hash, m: Manifest, p: Path)
    requires Present(fs, hash, m, |m.directories|, |m.documents| + |m.binaries|)
    ensures p in Files(m) ==> p in fs && fs[p].File?
    ensures p in Folders(m) ==> p in fs && fs[p] == Dir
  {
    if p in DocumentPaths(m) {
      var d :| 0 <= d < |m.documents| && m.documents[d].path == p;
      assert IsWritten(fs, hash, m, d);
    } else if p in BinaryPaths(m) {
      var b :| 0 <= b < |m.binaries| && m.binaries[b].path == p;
      assert IsWritten(fs, hash, m, |m.documents| + b);
    }
  }

  /** Removing unwanted files and folders leaves all that is wanted. */
  lemma PruningKeepsPresent(fs: Tree, v: Tree, hash: Hash, m: Manifest)
    requires Present(fs, hash, m, |m.directories|, |m.documents| + |m.binaries|)
    requires forall p :: p in fs && (p in Files(m) || p in Folders(m)) ==> p in v && v[p] == fs[p]
    ensures Present(v, hash, m, |m.directories|, |m.documents| + |m.binaries|)
  {
    forall i | 0 <= i < |m.documents| + |m.binaries| ensures IsWritten(v, hash, m, i) {
      FileIsNamed(m, i);
      assert IsWritten(fs, hash, m, i);
    }
    forall i | 0 <= i < |m.directories| ensures m.directories[i] in v && v[m.directories[i]] == Dir {
      assert m.directories[i] in Folders(m) && m.directories[i] in fs;
    }
  }

  lemma RemainingAreJustified(fs: Tree, track: Tracking, hash: Hash, m: Manifest, d: Path)
    requires WellFormed(fs) && Present(fs, hash, m, |m.directories|, |m.documents| + |m.binaries|)
    requires FilesBelow(fs, track, []) <= Files(m)
    requires d in FoldersBelow(fs, track, []) && !IsPruned(fs, track, m, d)
    ensures IsJustified(PrunedTree(fs, track, m, FoldersBelow(fs, track, [])), track, m, d)
  {
    var v := PrunedTree(fs, track, m, FoldersBelow(fs, track, []));
    if d !in Folders(m) {
      if f :| f in Files(m) && Below(f, d) {
        WantedAreThere(fs, hash, m, f);
        assert f in v;
      } else {
        var q :| q in fs && Below(q, d) && !IsUnwanted(fs, track, m, q);
        assert q in v;
      }
    }
  }

  lemma PruningMaterializes(fs: Tree, track: Tracking, hash: Hash, m: Manifest, fold: Fold)
    requires WellFormed(fs) && IsValid(fold, m) && Present(fs, hash, m, |m.directories|, |m.documents| + |m.binaries|)
    requires FilesBelow(fs, track, []) <= Files(m)
    ensures var v := PrunedTree(fs, track, m, FoldersBelow(fs, track, [])); (
      && IsMaterialized(v, track, hash, m) && WellFormed(v))
  {
    var v := PrunedTree(fs, track, m, FoldersBelow(fs, track, []));
    PrunedIsWellFormed(fs, track, m, FoldersBelow(fs, track, []));
    forall p | p in fs && (p in Files(m) || p in Folders(m)) ensures p in v && v[p] == fs[p] {
      WantedAreThere(fs, hash, m, p);
    }
    PruningKeepsPresent(fs, v, hash, m);
    forall d | d in FoldersBelow(v, track, []) ensures IsJustified(v, track, m, d) {
      RemainingAreJustified(fs, track, hash, m, d);
    }
  }

  lemma FilePruningKeeps(fs: Tree, track: Tracking, hash: Hash, m: Manifest)
    requires Present(fs, hash, m, |m.directories|, |m.documents| + |m.binaries|)
    ensures var v := fs - (FilesBelow(fs, track, []) - Files(m)); (
      && Present(v, hash, m, |m.directories|, |m.documents| + |m.binaries|) && FilesBelow(v, track, []) <= Files(m))
  {
    var v := fs - (FilesBelow(fs, track, []) - Files(m));
    forall p | p in fs && (p in Files(m) || p in Folders(m)) ensures p in v && v[p] == fs[p] {
      WantedAreThere(fs, hash, m, p);
    }
    PruningKeepsPresent(fs, v, hash, m);
  }

  lemma PruningKeepsHostOnly(before: Tree, fs: Tree, track: Tracking, m: Manifest)
    requires OnlyAdds(before, fs, m)
    ensures var files := fs - (FilesBelow(fs, track, []) - Files(m));
      KeepsHostOnly(before, PrunedTree(files, track, m, FoldersBelow(files, track, [])), track, m)
  {
    var files := fs - (FilesBelow(fs, track, []) - Files(m));
    var v := PrunedTree(files, track, m, FoldersBelow(files, track, []));
    forall p | p in before && p !in Files(m) && IsHostOnly(before, track, p) ensures p in v && v[p] == before[p] {
      assert p in fs && fs[p] == before[p] && p in files;
    }
  }

  lemma AddingKeepsHostOnly(before: Tree, fs: Tree, track: Tracking, m: Manifest)
    requires OnlyAdds(before, fs, m)
    ensures KeepsHostOnly(before, fs, track, m)
  {
  }

  lemma AddingTwice(a: Tree, b: Tree, c: Tree, m: Manifest)
    requires OnlyAdds(a, b, m) && OnlyAdds(b, c, m)
    ensures OnlyAdds(a, c, m)
  {
    forall p | p in c && p !in a ensures IsNamed(m, p) && (p !in Files(m) ==> c[p] == Dir) {
      if p in b {
        assert IsNamed(m, p);
      }
    }
  }

  /** The deepest path of a finite tree bounds all. */
  lemma {:induction false} DepthExists(keys: set<Path>) returns (bound: nat)
    ensures forall p :: p in keys ==> |p| <= bound
    decreases |keys|
  {
    if keys == {} {
      bound := 0;
    } else {
      var p :| p in keys;
      bound := DepthExists(keys - {p});
      bound := if |p| > bound then |p| else bound;
    }
  }

  /** Both pruning passes over what was written. */
  method Prune(folder: Folder, m: Manifest, fold: Fold, hash: Hash)
    requires WellFormed(folder.fs) && IsValid(fold, m)
    requires Present(folder.fs, hash, m, |m.directories|, |m.documents| + |m.binaries|)
    modifies folder`fs
    ensures WellFormed(folder.fs) && IsMaterialized(folder.fs, folder.track, hash, m)
    ensures var files := old(folder.fs) - (FilesBelow(old(folder.fs), folder.track, []) - Files(m));
      folder.fs == PrunedTree(files, folder.track, m, FoldersBelow(files, folder.track, []))
  {
    ghost var bound := DepthExists(folder.fs.Keys);
    ghost var written := folder.fs;
    FilePruningKeeps(written, folder.track, hash, m);
    PruneFiles(folder, m, bound);
    PruningMaterializes(folder.fs, folder.track, hash, m, fold);
    PruneFolders(folder, m, bound);
  }

  /**
   On success the folder holds exactly the wanted files among its shared files, with the wanted bytes, every wanted
   folder, and no other shared folder but those that still contain something host-only or wanted. It succeeds exactly
   when nothing is in the way, and host-only entries stay as they were except where a wanted file replaces them.
   */
  method Materialize(folder: Folder, m: Manifest, fold: Fold, hash: Hash) returns (ok: bool)
    requires WellFormed(folder.fs)
    modifies folder`fs
    ensures WellFormed(folder.fs) && KeepsHostOnly(old(folder.fs), folder.fs, folder.track, m)
    ensures ok <==> Accepts(old(folder.fs), m, fold, hash)
    ensures ok ==> IsMaterialized(folder.fs, folder.track, hash, m)
    ensures ok ==> (
        (HostOnlyKept(old(folder.fs), folder.fs, folder.track) <==> AreSpared(old(folder.fs), folder.track, m, hash)))
    ensures !IsValid(fold, m) ==> folder.fs == old(folder.fs)
  {
    if |m.documents| + |m.binaries| + |m.directories| > MaxTrackedProjectEntries {
      return false;
    }
    ok := Validate(fold, m);
    if !ok {
      return;
    }
    ghost var before := folder.fs;
    ok := MakeFolders(folder, m, fold, hash);
    AddingKeepsHostOnly(before, folder.fs, folder.track, m);
    if !ok {
      return;
    }
    ghost var made := folder.fs;
    SameFilesFree(before, made, m, fold, hash);
    ok := WriteFiles(folder, m, fold, hash);
    AddingTwice(before, made, folder.fs, m);
    AddingKeepsHostOnly(before, folder.fs, folder.track, m);
    if !ok {
      return;
    }
    ghost var written := folder.fs;
    Prune(folder, m, fold, hash);
    PruningKeepsHostOnly(before, written, folder.track, m);
    HostOnlyKeptExactlyWhen(before, folder.fs, folder.track, hash, m);
  }
}

/**
 Receiving a project from its host (src/runtime/bootstrap.ts): the state the message handler keeps, one method per
 kind of frame. Frames come from the authenticated host only, but may be lost, repeated, reordered or malformed.

 When a timer runs out, progress reports and the queue of unhandled messages are not part of this model. A frame that
 the source answers by throwing ends the download: `finished` without `succeeded`. Files being received live outside
 the tree.
 */
module SnapshotDownload {
  import opened Bytes
  import opened FiniteSets
  import opened Outcomes
  import opened ProjectPaths
  import opened ProjectTree
  import opened SnapshotTree
  import opened Transfer
  import M = Materialization

  const MaxSnapshotEntries := 50_000
  const MaxActiveTransfers := 4
  const MaxSnapshotTransferBytes := 8 * 1024 * 1024 * 1024
  const MaxFileRetries := 5

  datatype SnapshotId = SnapshotId(n: nat)

  datatype TransferId = TransferId(n: nat)

  /** A path as it arrives; one that is not a safe relative path is None. */
  type RawPath = Option<Path>

  datatype FileTransfer = FileTransfer(path: Path, shape: Shape, received: set<nat>, bytesWritten: int, retries: nat,
                                       file: seq<Byte>)

  /** The lists an old host sends with its begin frame. */
  datatype Lists = NoLists | PartialLists | Malformed | Lists(files: seq<RawPath>, directories: seq<RawPath>)

  datatype Reply = Nothing | Retry(id: TransferId, missing: set<nat>)

  function Keys(fold: M.Fold, paths: set<Path>): set<Path> { set p | p in paths :: M.Key(fold, p) }

  /** No folder above `p` is a file, and all are listed with the same spelling. */
  predicate ParentsOK(fold: M.Fold, files: set<Path>, directories: set<Path>, p: Path) {
    forall k :: 0 < k < |p| ==> M.Key(fold, p[..k]) !in Keys(fold, files) && p[..k] in directories
  }

  predicate IsManifest(fold: M.Fold, files: set<Path>, directories: set<Path>) {
    && Keys(fold, files) !! Keys(fold, directories)
    && forall p :: p in files + directories ==> ParentsOK(fold, files, directories, p)
  }

  predicate TransferOK(t: FileTransfer) {
    && IsValid(t.shape) && (forall i :: i in t.received ==> i < t.shape.expectedChunks)
    && t.bytesWritten == ReceivedBytes(t.shape, t.received, t.shape.expectedChunks) && t.path != []
  }

  /** Every recorded file is there with bytes of its recorded digest. */
  ghost predicate FilesStored(fs: Tree, hash: Hash, completed: map<Path, Digest>) {
    forall p :: p in completed ==> p in fs && fs[p].File? && hash(fs[p].bytes) == completed[p]
  }

  ghost predicate FoldersStored(fs: Tree, folders: set<Path>) {
    forall d :: d in folders ==> d in fs && fs[d] == Dir
  }

  /** Outside the scratch folder, nothing whose key the manifest does not name. */
  ghost predicate OnlyManifest(fs: Tree, fold: M.Fold, files: set<Path>, directories: set<Path>) {
    forall p :: p in fs && !SameOrChild(p, Scratch) ==> (
        NodeKept(fs, fold, Keys(fold, files), Keys(fold, directories), p))
  }

  // ----- Steps on the tree -----

  lemma PublishingKeeps(fs: Tree, hash: Hash, completed: map<Path, Digest>, folders: set<Path>, p: Path,
                        bytes: seq<Byte>)
    requires WellFormed(fs) && FilesStored(fs, hash, completed) && FoldersStored(fs, folders) && M.CanWrite(fs, p)
    ensures var v := M.WithFile(fs, p, bytes);
      WellFormed(v) && FilesStored(v, hash, completed[p := hash(bytes)]) && FoldersStored(v, folders)
  {
    M.FileStaysWellFormed(fs, p, bytes);
  }

  lemma MakingKeeps(fs: Tree, hash: Hash, completed: map<Path, Digest>, folders: set<Path>, d: Path)
    requires WellFormed(fs) && FilesStored(fs, hash, completed) && FoldersStored(fs, folders) && M.CanMake(fs, d)
    requires d != []
    ensures var v := M.WithFolders(fs, d);
      WellFormed(v) && FilesStored(v, hash, completed) && FoldersStored(v, folders + {d})
  {
    M.FoldersStayWellFormed(fs, d);
    M.PrefixesOf(d, d);
    assert d[..|d|] == d;
  }

  lemma ReconcilingKeeps(fs: Tree, fold: M.Fold, hash: Hash, completed: map<Path, Digest>, files: set<Path>,
                         folders: set<Path>)
    requires WellFormed(fs) && FilesStored(fs, hash, completed) && FoldersStored(fs, folders)
    requires completed.Keys == files && IsManifest(fold, files, folders)
    ensures var v := Visited(fs, fold, Keys(fold, files), Keys(fold, folders), []); (
      && WellFormed(v) && FilesStored(v, hash, completed) && FoldersStored(v, folders)
      && OnlyManifest(v, fold, files, folders)
      && forall p :: p in files ==> v[p] == fs[p])
  {
    var v := Visited(fs, fold, Keys(fold, files), Keys(fold, folders), []);
    assert v == PartlyVisited(fs, fold, Keys(fold, files), Keys(fold, folders), [], Entries(fs, [])) by {
      forall p | p in fs && Below(p, []) ensures Step([], p) in Entries(fs, []) {
        StepIsEntry(fs, [], p);
      }
    }
    PartlyVisitedIsWellFormed(fs, fold, Keys(fold, files), Keys(fold, folders), [], Entries(fs, []));
    forall p | p in files + folders ensures p in v && v[p] == fs[p] {
      WantedIsKept(fs, fold, files, folders, p);
    }
  }

  lemma WantedIsKept(fs: Tree, fold: M.Fold, files: set<Path>, folders: set<Path>, p: Path)
    requires IsManifest(fold, files, folders) && p in files + folders && p in fs
    requires (p in files ==> fs[p].File?) && (p in folders ==> fs[p] == Dir)
    ensures KeptBelow(fs, fold, Keys(fold, files), Keys(fold, folders), [], p)
  {
    assert ParentsOK(fold, files, folders, p);
    forall k | 0 < k < |p| ensures M.Key(fold, p[..k]) in Keys(fold, folders) {
      assert p[..k] in folders;
    }
  }

  // ----- Reading the manifest -----

  /** Paths appended to a set: each safe and tracked, and none with a key already there. */
  function Appended(fold: M.Fold, track: Tracking, paths: seq<RawPath>, into: set<Path>): Option<set<Path>> {
    if paths == [] then Some(into)
    else
      var before := Appended(fold, track, paths[..|paths| - 1], into);
      var raw := paths[|paths| - 1];
      if before.None? || raw.None? || raw.value == [] || !track(raw.value)
         || M.Key(fold, raw.value) in Keys(fold, before.value) then None
      else Some(before.value + {raw.value})
  }

  lemma {:induction false} AppendedFails(fold: M.Fold, track: Tracking, paths: seq<RawPath>, into: set<Path>, n: nat)
    requires n <= |paths| && Appended(fold, track, paths[..n], into).None?
    ensures Appended(fold, track, paths, into).None?
  {
    if n == |paths| {
      assert paths[..n] == paths;
    } else {
      assert paths[..|paths| - 1][..n] == paths[..n];
      AppendedFails(fold, track, paths[..|paths| - 1], into, n);
    }
  }

  /** Manifests name nothing in the scratch folder: nothing there is tracked. */
  predicate IsProper(p: Path) { p != [] && !SameOrChild(p, Scratch) }

  predicate AreProper(paths: set<Path>) { forall p :: p in paths ==> IsProper(p) }

  ghost predicate TracksNoScratch(track: Tracking) { forall p :: SameOrChild(p, Scratch) ==> !track(p) }

  /** Appended paths are proper ones. */
  lemma {:induction false} AppendedAreProper(fold: M.Fold, track: Tracking, paths: seq<RawPath>, into: set<Path>)
    requires Appended(fold, track, paths, into).Some? && TracksNoScratch(track) && AreProper(into)
    ensures AreProper(Appended(fold, track, paths, into).value)
  {
    if paths != [] {
      AppendedAreProper(fold, track, paths[..|paths| - 1], into);
    }
  }

  lemma KeysAppend(fold: M.Fold, paths: set<Path>, p: Path)
    ensures Keys(fold, paths + {p}) == Keys(fold, paths) + {M.Key(fold, p)}
  {
  }

  method AppendPaths(fold: M.Fold, track: Tracking, paths: seq<RawPath>, into: set<Path>, intoKeys: set<Path>)
    returns (ok: bool, normalized: set<Path>, portable: set<Path>)
    requires intoKeys == Keys(fold, into)
    ensures ok <==> Appended(fold, track, paths, into).Some?
    ensures ok ==> normalized == Appended(fold, track, paths, into).value && portable == Keys(fold, normalized)
  {
    normalized, portable := into, intoKeys;
    for i := 0 to |paths|
      invariant Appended(fold, track, paths[..i], into) == Some(normalized) && portable == Keys(fold, normalized)
    {
      assert paths[..i + 1][..i] == paths[..i];
      if paths[i].None? || paths[i].value == [] || !track(paths[i].value) {
        AppendedFails(fold, track, paths, into, i + 1);
        return false, normalized, portable;
      }
      var p := paths[i].value;
      var key := M.Key(fold, p);
      if p in normalized || key in portable {
        AppendedFails(fold, track, paths, into, i + 1);
        return false, normalized, portable;
      }
      KeysAppend(fold, normalized, p);
      normalized := normalized + {p};
      portable := portable + {key};
    }
    assert paths[..|paths|] == paths;
    return true, normalized, portable;
  }

  method ValidateManifest(fold: M.Fold, files: set<Path>, directories: set<Path>) returns (ok: bool)
    ensures ok <==> IsManifest(fold, files, directories)
  {
    var fileKeys := Keys(fold, files);
    if !(fileKeys !! Keys(fold, directories)) {
      return false;
    }
    var todo := files + directories;
    while todo != {}
      invariant todo <= files + directories
      invariant forall p :: p in files + directories && p !in todo ==> ParentsOK(fold, files, directories, p)
    {
      var p :| p in todo;
      todo := todo - {p};
      var length := 1;
      while length < |p|
        invariant 1 <= length
        invariant forall k :: 0 < k < length && k < |p| ==> M.Key(fold, p[..k]) !in fileKeys && p[..k] in directories
      {
        if M.Key(fold, p[..length]) in fileKeys || p[..length] !in directories {
          assert !ParentsOK(fold, files, directories, p);
          return false;
        }
        length := length + 1;
      }
    }
    return true;
  }

  // ----- The class of the source -----

  /** What belongs to one generation of the snapshot. */
  datatype Generation = Generation(totalFiles: int, transferFiles: int, completedFiles: int, directoryCount: int,
                                   begun: bool,
                                   manifestComplete: bool, chunked: bool, files: set<Path>, fileKeys: set<Path>,
                                   directories: set<Path>, directoryKeys: set<Path>, resumed: set<Path>,
                                   resumedKeys: set<Path>, announced: set<Path>, started: set<Path>, declaredBytes: int)

  const NoGeneration := Generation(0, 0, 0, 0, false, false, false, {}, {}, {}, {}, {}, {}, {}, {}, 0)

  ghost predicate GenerationOK(g: Generation, fold: M.Fold, completed: set<Path>) {
    && g.fileKeys == Keys(fold, g.files) && g.directoryKeys == Keys(fold, g.directories)
    && g.resumedKeys == Keys(fold, g.resumed) && AreProper(g.files) && AreProper(g.directories)
    && (g.manifestComplete ==> g.begun && IsManifest(fold, g.files, g.directories)
                               && completed <= g.files && g.announced <= g.directories)
    && (!g.manifestComplete ==> g.announced == {} && g.started == {})
    && g.started <= g.files
  }

  lemma NoGenerationOK(fold: M.Fold, completed: set<Path>)
    ensures GenerationOK(NoGeneration, fold, completed)
  {
    assert Keys(fold, {}) == {};
  }

  predicate TransfersOK(transfers: map<TransferId, FileTransfer>, started: set<Path>) {
    forall id :: id in transfers ==> TransferOK(transfers[id]) && transfers[id].path in started
  }

  /** What a successful download means. */
  ghost predicate IsDownloaded(fs: Tree, fold: M.Fold, hash: Hash, completed: map<Path, Digest>, g: Generation) {
    && completed.Keys == g.files && FilesStored(fs, hash, completed) && FoldersStored(fs, g.directories)
    && OnlyManifest(fs, fold, g.files, g.directories) && g.announced <= g.directories
    && AreProper(g.files) && AreProper(g.directories)
  }

  predicate AllReceived(g: Generation, completed: set<Path>, transfers: map<TransferId, FileTransfer>) {
    g.manifestComplete && transfers == map[] && completed == g.files && g.announced == g.directories
  }

  /** A declared number: missing, not a number, or a number. */
  datatype Count = Absent | NotANumber | Number(n: int)

  function Counted(c: Count, maximum: int): Option<int> {
    if c.Number? && 0 <= c.n <= maximum then Some(c.n) else None
  }

  /** The declared numbers of files, of files to transfer and of files received before. */
  function Totals(total: Count, fileCount: Count, completedCount: Count): Option<(int, int, int)> {
    var t := Counted(total, MaxSnapshotEntries);
    if t.None? then None else
      var f := Counted(fileCount, t.value);
      if f.None? then None else
        var c := if completedCount.Absent? then Some(t.value - f.value) else Counted(completedCount, t.value);
        if c.None? || f.value + c.value != t.value then None else Some((t.value, f.value, c.value))
  }

  predicate IsConsistent(g: Generation, fold: M.Fold, completed: set<Path>) {
    && |g.files| == g.totalFiles && |g.directories| == g.directoryCount && |g.resumed| == g.completedFiles
    && g.transferFiles + g.completedFiles == g.totalFiles && IsManifest(fold, g.files, g.directories)
    && g.resumed <= g.files && g.resumed <= completed
  }

  function Resumed(completed: map<Path, Digest>, resumed: set<Path>): map<Path, Digest> {
    map p | p in completed && p in resumed :: completed[p]
  }

  datatype Frame =
    | Error
    | BeginFrame(total: Count, fileCount: Count, completedCount: Count, directoryCount: Count, lists: Lists)
    | ManifestFrame(wellFormed: bool, files: seq<RawPath>, directories: seq<RawPath>, resumed: seq<RawPath>)
    | ManifestEndFrame
    | DirectoryFrame(path: RawPath)
    | FileStartFrame(id: TransferId, path: RawPath, declaration: Declaration)
    | FileChunkFrame(id: TransferId, index: int, payload: seq<Byte>)
    | FileEndFrame(id: TransferId)
    | CheckpointFrame(wellFormed: bool, sending: Sending)
    | EndFrame

  /** How sending to the host goes; one that fails counts only if the connection is not being recovered. */
  datatype Sending = Sent | Unsent | Broken

  /**
   A frame arrives, the host acknowledges the greeting, or it is back after an interruption; or the download is given
   up: stalled, cancelled, cut off for good or flooded with messages.
   */
  datatype Happening =
    | Arrived(snapshotId: Option<SnapshotId>, frame: Frame)
    | Acknowledged(renewed: SnapshotId, sending: Sending)
    | Interrupted(renewed: SnapshotId, sending: Sending)
    | GivenUp

  class SnapshotDownload {
    const folder: Folder
    const fold: M.Fold
    const track: Tracking
    const hash: Hash
    var completed: map<Path, Digest>
    var transfers: map<TransferId, FileTransfer>
    var generation: Generation
    var activeSnapshotId: Option<SnapshotId>
    var requestedGenerations: nat
    var finished: bool
    var succeeded: bool

    ghost predicate Valid()
      reads this, folder
    {
      && TracksNoScratch(track) && WellFormed(folder.fs)
      && FilesStored(folder.fs, hash, completed) && FoldersStored(folder.fs, generation.announced)
      && TransfersOK(transfers, generation.started)
      && (!finished ==> GenerationOK(generation, fold, completed.Keys) && !succeeded)
      && (succeeded ==> IsDownloaded(folder.fs, fold, hash, completed, generation))
    }

    constructor (folder: Folder, fold: M.Fold, track: Tracking, hash: Hash)
      requires WellFormed(folder.fs) && TracksNoScratch(track)
      ensures Valid() && this.folder == folder && !finished && !succeeded && completed == map[] && transfers == map[]
      ensures generation == NoGeneration && activeSnapshotId.None? && requestedGenerations == 0
    {
      this.folder, this.fold, this.track, this.hash := folder, fold, track, hash;
      completed, transfers, generation, activeSnapshotId, requestedGenerations := map[], map[], NoGeneration, None, 0;
      finished, succeeded := false, false;
      NoGenerationOK(fold, {});
    }

    /** The download fails; what was stored stays. */
    method Fail()
      requires Valid() && !finished
      modifies this`finished
      ensures Valid() && finished && !succeeded
    {
      finished := true;
    }

    /** Asks for a snapshot unless one is being received. */
    method RequestSnapshot(renewed: SnapshotId, sending: Sending)
      requires Valid() && !finished
      modifies this`activeSnapshotId, this`requestedGenerations, this`finished
      ensures Valid() && !succeeded && (finished <==> old(activeSnapshotId).None? && sending.Broken?)
      ensures old(activeSnapshotId).Some? ==> activeSnapshotId == old(activeSnapshotId)
                                              && requestedGenerations == old(requestedGenerations)
      ensures old(activeSnapshotId).None? ==> requestedGenerations == old(requestedGenerations) + 1
                                              && activeSnapshotId == if sending.Sent? then Some(renewed) else None
    {
      if activeSnapshotId.Some? {
        return;
      }
      activeSnapshotId := Some(renewed);
      requestedGenerations := requestedGenerations + 1;
      if !sending.Sent? {
        activeSnapshotId := None;
        if sending.Broken? {
          Fail();
        }
      }
    }

    /** A new generation forgets everything but the files received completely. */
    method ResetGeneration()
      requires Valid() && !finished
      modifies this`transfers, this`generation, this`activeSnapshotId
      ensures Valid() && transfers == map[] && generation == NoGeneration && activeSnapshotId.None?
    {
      transfers, generation, activeSnapshotId := map[], NoGeneration, None;
      NoGenerationOK(fold, completed.Keys);
    }

    /** Whether a frame belongs to the generation being received; an old host names none in the first. */
    predicate Admits(snapshotId: Option<SnapshotId>)
      reads this
    {
      (snapshotId.None? && requestedGenerations == 1) || (activeSnapshotId.Some? && snapshotId == activeSnapshotId)
    }

    /** The begin frame of a generation: its declared counts, and from an old host the whole manifest. */
    method Begin(total: Count, fileCount: Count, completedCount: Count, directoryCount: Count, lists: Lists)
      requires Valid() && !finished
      modifies this`generation, this`completed, this`finished
      ensures Valid() && !succeeded
      ensures old(generation).begun ==> finished
      ensures !finished ==> generation.begun
                            && generation.transferFiles + generation.completedFiles == generation.totalFiles
                            && 0 <= generation.totalFiles <= MaxSnapshotEntries && generation.chunked == lists.NoLists?
      ensures !finished && lists.NoLists? ==> generation.files == {} && generation.directories == {}
                                              && completed == old(completed)
                                              && !generation.manifestComplete
      ensures !finished && !lists.NoLists? ==> lists.Lists? && generation.manifestComplete
                                               && completed.Keys == generation.resumed
                                               && generation.resumed == old(completed).Keys * generation.files
                                               && Appended(fold, track, lists.files, {}) == Some(generation.files)
                                               && Appended(fold, track, lists.directories, {})
                                                  == Some(generation.directories)
    {
      var totals := Totals(total, fileCount, completedCount);
      if generation.begun || lists.PartialLists? || lists.Malformed? || totals.None? {
        Fail();
        return;
      }
      NoGenerationOK(fold, completed.Keys);
      var renewed := NoGeneration.(begun := true, totalFiles := totals.value.0, transferFiles := totals.value.1,
                                 completedFiles := totals.value.2);
      if lists.NoLists? {
        var directories := Counted(directoryCount, MaxSnapshotEntries - totals.value.0);
        if directories.None? {
          Fail();
          return;
        }
        BegunAnew();
        generation := renewed.(chunked := true, directoryCount := directories.value);
        return;
      }
      BeginWithLists(renewed, directoryCount, lists.files, lists.directories);
    }

    /** A manifest that arrives with the begin frame. */
    method BeginWithLists(renewed: Generation, directoryCount: Count, rawFiles: seq<RawPath>,
                          rawDirectories: seq<RawPath>)
      requires Valid() && !finished && !generation.begun && renewed.begun && !renewed.chunked
      requires renewed == NoGeneration.(begun := true, totalFiles := renewed.totalFiles,
                                        transferFiles := renewed.transferFiles,
                                        completedFiles := renewed.completedFiles)
      modifies this`generation, this`completed, this`finished
      ensures Valid() && !succeeded
      ensures !finished ==> generation.manifestComplete && completed.Keys == generation.resumed
                            && generation.resumed == old(completed).Keys * generation.files
                            && Appended(fold, track, rawFiles, {}) == Some(generation.files)
                            && Appended(fold, track, rawDirectories, {}) == Some(generation.directories)
                            && generation.totalFiles == renewed.totalFiles
                            && generation.transferFiles == renewed.transferFiles
                            && generation.completedFiles == renewed.completedFiles && generation.begun
                            && !generation.chunked
    {
      if |rawFiles| + |rawDirectories| > MaxSnapshotEntries {
        Fail();
        return;
      }
      assert Keys(fold, {}) == {};
      var filesOk, files, fileKeys := AppendPaths(fold, track, rawFiles, {}, {});
      var directoriesOk, directories, directoryKeys := AppendPaths(fold, track, rawDirectories, {}, {});
      var count := if directoryCount.Absent? then Some(|directories|)
        else Counted(directoryCount, MaxSnapshotEntries - renewed.totalFiles);
      if !filesOk || !directoriesOk || count.None? {
        Fail();
        return;
      }
      AppendedAreProper(fold, track, rawFiles, {});
      AppendedAreProper(fold, track, rawDirectories, {});
      BegunAnew();
      generation := renewed.(files := files, fileKeys := fileKeys, directories := directories,
                             directoryKeys := directoryKeys, directoryCount := count.value,
                             resumed := completed.Keys * files, resumedKeys := Keys(fold, completed.Keys * files));
      CompleteManifest();
    }

    /** Nothing is announced or under way before the first begin frame. */
    lemma BegunAnew()
      requires Valid() && !finished && !generation.begun
      ensures transfers == map[] && generation.announced == {}
    {
      assert forall id :: id in transfers ==> transfers[id].path in generation.started;
      assert transfers.Keys == {};
    }

    /** A further part of the manifest. */
    method Manifest(wellFormed: bool, rawFiles: seq<RawPath>, rawDirectories: seq<RawPath>, rawCompleted: seq<RawPath>)
      requires Valid() && !finished
      modifies this`generation, this`finished
      ensures Valid() && !succeeded
      ensures !finished ==> old(generation).begun && old(generation).chunked && !old(generation).manifestComplete
      ensures !finished ==> Appended(fold, track, rawFiles, old(generation).files) == Some(generation.files)
                            && Appended(fold, track, rawDirectories, old(generation).directories)
                               == Some(generation.directories)
                            && Appended(fold, track, rawCompleted, old(generation).resumed) == Some(generation.resumed)
      ensures !finished ==> |generation.files| <= generation.totalFiles
                            && |generation.directories| <= generation.directoryCount
                            && |generation.resumed| <= generation.completedFiles && completed == old(completed)
    {
      var g := generation;
      if !g.begun || !g.chunked || g.manifestComplete || !wellFormed
         || |rawFiles| + |rawDirectories| + |rawCompleted| == 0 {
        Fail();
        return;
      }
      var filesOk, files, fileKeys := AppendPaths(fold, track, rawFiles, g.files, g.fileKeys);
      var directoriesOk, directories, directoryKeys := AppendPaths(fold, track, rawDirectories, g.directories,
                                                                   g.directoryKeys);
      var resumedOk, resumed, resumedKeys := AppendPaths(fold, track, rawCompleted, g.resumed, g.resumedKeys);
      if !filesOk || !directoriesOk || !resumedOk || |files| > g.totalFiles || |directories| > g.directoryCount
         || |files| + |directories| > MaxSnapshotEntries || |resumed| > g.completedFiles {
        Fail();
        return;
      }
      AppendedAreProper(fold, track, rawFiles, g.files);
      AppendedAreProper(fold, track, rawDirectories, g.directories);
      generation := g.(files := files, fileKeys := fileKeys, directories := directories, directoryKeys := directoryKeys,
                       resumed := resumed, resumedKeys := resumedKeys);
    }

    method ManifestEnd()
      requires Valid() && !finished
      modifies this`generation, this`completed, this`finished, folder`fs
      ensures Valid() && !succeeded
      ensures !finished ==> (
                && old(generation).begun && old(generation).chunked && !old(generation).manifestComplete
                && generation.manifestComplete && generation.announced == generation.directories
                && completed == Resumed(old(completed), generation.resumed) && completed.Keys == generation.resumed
                && generation.files == old(generation).files && generation.directories == old(generation).directories)
    {
      if !generation.begun || !generation.chunked || generation.manifestComplete {
        Fail();
        return;
      }
      CompleteManifest();
      if !finished {
        MakeDirectories();
      }
    }

    /** Whether the manifest is consistent with its declared counts and with what was received before. */
    method CheckManifest() returns (ok: bool)
      requires Valid() && !finished
      ensures ok <==> IsConsistent(generation, fold, completed.Keys)
    {
      var g := generation;
      if |g.files| != g.totalFiles || |g.directories| != g.directoryCount || |g.resumed| != g.completedFiles
         || g.transferFiles + g.completedFiles != g.totalFiles {
        return false;
      }
      ok := ValidateManifest(fold, g.files, g.directories);
      if !ok || exists p :: p in g.resumed && (p !in g.files || p !in completed) {
        return false;
      }
      return true;
    }

    /** Only the files the host agrees on count as received. */
    method CompleteManifest()
      requires Valid() && !finished && generation.begun && !generation.manifestComplete
      modifies this`generation, this`completed, this`finished
      ensures Valid() && !succeeded && (!finished <==> IsConsistent(old(generation), fold, old(completed).Keys))
      ensures !finished ==> generation == old(generation).(manifestComplete := true)
                            && completed == Resumed(old(completed), generation.resumed)
                            && completed.Keys == generation.resumed
    {
      var ok := CheckManifest();
      if !ok {
        Fail();
        return;
      }
      completed := map p | p in completed && p in generation.resumed :: completed[p];
      assert completed.Keys == generation.resumed;
      generation := generation.(manifestComplete := true);
    }

    method MakeDirectories()
      requires Valid() && !finished && generation.manifestComplete && generation.announced == {}
      modifies this`generation, this`finished, folder`fs
      ensures Valid() && !succeeded
      ensures !finished ==> generation == old(generation).(announced := generation.directories)
    {
      var todo := generation.directories;
      while todo != {}
        invariant Valid() && !finished && todo <= generation.directories
        invariant generation == old(generation).(announced := generation.directories - todo)
      {
        var d :| d in todo;
        MakeDirectory(d);
        if finished {
          return;
        }
        todo := todo - {d};
      }
    }

    method MakeDirectory(d: Path)
      requires Valid() && !finished && generation.manifestComplete && d in generation.directories
      modifies this`generation, this`finished, folder`fs
      ensures Valid() && !succeeded
      ensures !finished ==> generation == old(generation).(announced := old(generation).announced + {d})
                            && folder.fs == M.WithFolders(old(folder.fs), d)
    {
      ghost var before := folder.fs;
      var ok := M.MakeFolder(folder, d);
      if !ok {
        Fail();
        return;
      }
      MakingKeeps(before, hash, completed, generation.announced, d);
      generation := generation.(announced := generation.announced + {d});
    }

    /** Any frame of the host: one of another generation changes nothing, nor does any after the download has ended. */
    method Handle(snapshotId: Option<SnapshotId>, frame: Frame, ghost bound: nat)
      requires Valid() && DepthWithin(folder.fs, bound)
      modifies this, folder`fs
      ensures Valid() && (succeeded ==> IsDownloaded(folder.fs, fold, hash, completed, generation))
      ensures old(finished) || !old(Admits(snapshotId)) ==> (
                && completed == old(completed) && transfers == old(transfers) && generation == old(generation)
                && finished == old(finished) && succeeded == old(succeeded) && folder.fs == old(folder.fs))
    {
      if finished || !Admits(snapshotId) {
        return;
      }
      match frame
      case Error => Fail();
      case BeginFrame(total, files, completedCount, directories, lists) =>
        Begin(total, files, completedCount, directories, lists);
      case ManifestFrame(ok, files, directories, resumed) => Manifest(ok, files, directories, resumed);
      case ManifestEndFrame => ManifestEnd();
      case DirectoryFrame(p) => Directory(p);
      case FileStartFrame(id, p, declaration) => FileStart(id, p, declaration);
      case FileChunkFrame(id, index, payload) => FileChunk(id, index, payload);
      case FileEndFrame(id) => var reply := FileEnd(id);
      case CheckpointFrame(ok, sending) => Checkpoint(ok, sending);
      case EndFrame => End(bound);
    }

    /** A chunk is stored once, at its place, and only with exactly its expected size. */
    method FileChunk(id: TransferId, index: int, payload: seq<Byte>)
      requires Valid() && !finished
      modifies this`transfers, this`finished
      ensures Valid() && !succeeded
      ensures finished <==> id !in old(transfers) || ExpectedChunkBytes(old(transfers)[id].shape, index) < 0
                            || |payload| != ExpectedChunkBytes(old(transfers)[id].shape, index)
      ensures finished ==> transfers == old(transfers)
      ensures !finished ==> transfers == old(transfers)[id := Stored(old(transfers)[id], index, payload)]
    {
      if id !in transfers {
        Fail();
        return;
      }
      var t := transfers[id];
      var expectedBytes := ExpectedChunkBytes(t.shape, index);
      if expectedBytes < 0 || |payload| != expectedBytes {
        Fail();
        return;
      }
      if index in t.received {
        return;
      }
      ghost var started := generation.started;
      transfers := StoreChunk(transfers, started, id, index, payload);
    }

    /** Whether a file may be started: the manifest names it, and it was neither started nor received before. */
    predicate MayStart(id: TransferId, rawPath: RawPath, declaration: Declaration)
      reads this
    {
      && generation.manifestComplete && id !in transfers && |transfers| < MaxActiveTransfers
      && rawPath.Some? && rawPath.value in generation.files && rawPath.value !in generation.started
      && rawPath.value !in completed
      && Validated(declaration).Some?
      && generation.declaredBytes + Validated(declaration).value.size <= MaxSnapshotTransferBytes
    }

    /** The start of a file. */
    method FileStart(id: TransferId, rawPath: RawPath, declaration: Declaration)
      requires Valid() && !finished
      modifies this`transfers, this`generation, this`finished
      ensures Valid() && !succeeded && (!finished <==> old(MayStart(id, rawPath, declaration)))
      ensures !finished ==> transfers == old(transfers)[id := Fresh(rawPath.value, Validated(declaration).value)]
      ensures !finished ==> generation == old(generation).(
                              started := old(generation).started + {rawPath.value},
                              declaredBytes := old(generation).declaredBytes + Validated(declaration).value.size)
    {
      if !generation.manifestComplete || id in transfers || |transfers| >= MaxActiveTransfers || rawPath.None? {
        Fail();
        return;
      }
      var p := rawPath.value;
      var shape := Validated(declaration);
      if p !in generation.files || p in generation.started || p in completed || shape.None?
         || generation.declaredBytes + shape.value.size > MaxSnapshotTransferBytes {
        Fail();
        return;
      }
      FreshIsOK(p, declaration);
      generation := generation.(declaredBytes := generation.declaredBytes + shape.value.size,
                                started := generation.started + {p});
      transfers := transfers[id := FileTransfer(p, shape.value, {}, 0, 0, [])];
    }

    /** The end frame of a file: its missing chunks are asked for again, or it is stored under its name. */
    method FileEnd(id: TransferId) returns (reply: Reply)
      requires Valid() && !finished
      modifies this`transfers, this`completed, this`finished, folder`fs
      ensures Valid() && !succeeded && (id !in old(transfers) ==> finished)
      ensures id in old(transfers) && |old(transfers)[id].received| < old(transfers)[id].shape.expectedChunks
        ==> completed == old(completed) && folder.fs == old(folder.fs)
            && AskedAgain(old(transfers), id, transfers, reply, finished)
      ensures id in old(transfers) && |old(transfers)[id].received| >= old(transfers)[id].shape.expectedChunks
        ==> IsWhole(old(transfers)[id])
            && (!finished <==> hash(old(transfers)[id].file) == old(transfers)[id].shape.hash
                               && M.CanWrite(old(folder.fs), old(transfers)[id].path))
      ensures !finished && |old(transfers)[id].received| >= old(transfers)[id].shape.expectedChunks
        ==> transfers == old(transfers) - {id}
            && completed == old(completed)[old(transfers)[id].path := old(transfers)[id].shape.hash]
            && folder.fs == M.WithFile(old(folder.fs), old(transfers)[id].path, old(transfers)[id].file)
    {
      reply := Nothing;
      if id !in transfers {
        Fail();
        return;
      }
      var t := transfers[id];
      CompleteTransfer(t);
      if |t.received| != t.shape.expectedChunks || t.bytesWritten != t.shape.size {
        reply := AskAgain(id);
        return;
      }
      transfers := transfers - {id};
      if hash(t.file) != t.shape.hash {
        Fail();
        return;
      }
      Publish(t);
    }

    method AskAgain(id: TransferId) returns (reply: Reply)
      requires Valid() && !finished && id in transfers
      modifies this`transfers, this`finished
      ensures Valid() && !succeeded && AskedAgain(old(transfers), id, transfers, reply, finished)
    {
      ghost var started := generation.started;
      var after, failed;
      after, reply, failed := Again(transfers, started, id);
      transfers, finished := after, failed;
    }

    method Publish(t: FileTransfer)
      requires Valid() && !finished && generation.manifestComplete && t.path in generation.files
      requires hash(t.file) == t.shape.hash
      modifies this`completed, this`finished, folder`fs
      ensures Valid() && !succeeded && (!finished <==> M.CanWrite(old(folder.fs), t.path))
      ensures !finished ==> completed == old(completed)[t.path := t.shape.hash]
                            && folder.fs == M.WithFile(old(folder.fs), t.path, t.file)
    {
      ghost var before := folder.fs;
      var ok := M.WriteFile(folder, t.path, t.file);
      if !ok {
        Fail();
        return;
      }
      PublishingKeeps(before, hash, completed, generation.announced, t.path, t.file);
      completed := completed[t.path := t.shape.hash];
    }

    /** An old host announces its folders one at a time. */
    method Directory(rawPath: RawPath)
      requires Valid() && !finished
      modifies this`generation, this`finished, folder`fs
      ensures Valid() && !succeeded
      ensures !finished ==> rawPath.Some? && rawPath.value in generation.directories
                            && rawPath.value !in old(generation).announced
                            && generation == old(generation).(announced := old(generation).announced + {rawPath.value})
                            && folder.fs == M.WithFolders(old(folder.fs), rawPath.value)
    {
      if !generation.manifestComplete || generation.chunked || rawPath.None? || rawPath.value !in generation.directories
         || rawPath.value in generation.announced {
        Fail();
        return;
      }
      MakeDirectory(rawPath.value);
    }

    /** A sign of life between files, to be answered. */
    method Checkpoint(wellFormed: bool, sending: Sending)
      requires Valid() && !finished
      modifies this`finished
      ensures Valid() && !succeeded && (finished <==> !generation.begun || !wellFormed || sending.Broken?)
    {
      if !generation.begun || !wellFormed || sending.Broken? {
        Fail();
      }
    }

    /** The end of the snapshot: everything declared was received, and what the manifest does not name is removed. */
    method End(ghost bound: nat)
      requires Valid() && !finished && DepthWithin(folder.fs, bound)
      modifies this`finished, this`succeeded, folder`fs
      ensures Valid() && finished
      ensures succeeded <==> AllReceived(generation, completed.Keys, transfers)
      ensures succeeded ==> forall p :: p in generation.files ==> folder.fs[p] == old(folder.fs)[p]
    {
      var complete := CheckReceived();
      if !complete {
        Fail();
        return;
      }
      ReconcilingKeeps(folder.fs, fold, hash, completed, generation.files, generation.directories);
      Visit(folder, fold, generation.fileKeys, generation.directoryKeys, [], bound);
      finished, succeeded := true, true;
    }

    /** Afterwards the scratch folder is removed, and nothing is left whose key the manifest does not name. */
    method Cleanup()
      requires Valid() && succeeded
      modifies folder`fs
      ensures Valid() && folder.fs == WithoutTree(old(folder.fs), Scratch)
      ensures forall p :: p in folder.fs ==> (
                NodeKept(folder.fs, fold, Keys(fold, generation.files), Keys(fold, generation.directories), p))
    {
      CleaningKeeps(folder.fs, fold, hash, completed, generation);
      folder.fs := WithoutTree(folder.fs, Scratch);
    }

    /** The host has acknowledged the greeting: the first generation is asked for. */
    method Welcomed(renewed: SnapshotId, sending: Sending)
      requires Valid()
      modifies this`activeSnapshotId, this`requestedGenerations, this`finished
      ensures Valid() && (old(finished) ==> finished && succeeded == old(succeeded))
    {
      if !finished {
        RequestSnapshot(renewed, sending);
      }
    }

    /** The host is back after an interruption: a new generation is asked for. */
    method Recovered(renewed: SnapshotId, sending: Sending)
      requires Valid()
      modifies this`transfers, this`generation, this`activeSnapshotId, this`requestedGenerations, this`finished
      ensures Valid() && (old(finished) ==> generation == old(generation) && transfers == old(transfers))
      ensures !old(finished) ==> transfers == map[] && generation == NoGeneration && (finished <==> sending.Broken?)
                                 && activeSnapshotId == (if sending.Sent? then Some(renewed) else None)
      ensures old(finished) ==> finished
    {
      if !finished {
        ResetGeneration();
        RequestSnapshot(renewed, sending);
      }
    }

    /**
     A whole download: frames of any generation in any order, any number of times, requests and interruptions. Whenever
     it has succeeded, the folder holds every file of the manifest with its recorded digest, every directory, and
     nothing else; once it has ended nothing changes any more.
     */
    method Run(happenings: seq<Happening>)
      requires Valid()
      modifies this, folder`fs
      ensures Valid() && (succeeded ==> IsDownloaded(folder.fs, fold, hash, completed, generation))
      ensures old(finished) ==> folder.fs == old(folder.fs) && succeeded == old(succeeded)
    {
      for i := 0 to |happenings|
        invariant Valid() && (old(finished) ==> finished && folder.fs == old(folder.fs) && succeeded == old(succeeded))
      {
        match happenings[i]
        case Arrived(snapshotId, frame) =>
          ghost var bound := M.DepthExists(folder.fs.Keys);
          Handle(snapshotId, frame, bound);
        case Acknowledged(renewed, sending) => Welcomed(renewed, sending);
        case Interrupted(renewed, sending) => Recovered(renewed, sending);
        case GivenUp =>
          if !finished {
            Fail();
          }
      }
    }

    method CheckReceived() returns (complete: bool)
      ensures complete <==> AllReceived(generation, completed.Keys, transfers)
    {
      if !generation.manifestComplete || |transfers| != 0 {
        return false;
      }
      SameSize(completed.Keys, generation.files);
      SameSize(generation.announced, generation.directories);
      assert |completed| == |completed.Keys|;
      if |completed| != |generation.files| || exists p :: p in generation.files && p !in completed {
        return false;
      }
      if |generation.announced| != |generation.directories|
         || exists d :: d in generation.directories && d !in generation.announced {
        return false;
      }
      return true;
    }
  }

  lemma CleaningKeeps(fs: Tree, fold: M.Fold, hash: Hash, completed: map<Path, Digest>, g: Generation)
    requires WellFormed(fs) && IsDownloaded(fs, fold, hash, completed, g)
    ensures var v := WithoutTree(fs, Scratch); WellFormed(v) && IsDownloaded(v, fold, hash, completed, g)
    ensures FoldersStored(WithoutTree(fs, Scratch), g.announced)
  {
    var v := WithoutTree(fs, Scratch);
    forall p, k | p in v && 0 < k < |p| ensures p[..k] in v && v[p[..k]] == Dir {
      assert p[..k] in fs && fs[p[..k]] == Dir;
    }
  }

  /** Two sets of one size are equal when one holds all of the other. */
  lemma SameSize(a: set<Path>, b: set<Path>)
    ensures a == b <==> |a| == |b| && forall p :: p in b ==> p in a
  {
    if b < a {
      SubsetIsSmaller(b, a);
    }
  }

  predicate IsWhole(t: FileTransfer) {
    t.received == IndexesBelow(t.shape.expectedChunks) && t.bytesWritten == t.shape.size
  }

  /** The chunks still missing are asked for, up to a limit of attempts. */
  predicate AskedAgain(before: map<TransferId, FileTransfer>, id: TransferId, after: map<TransferId, FileTransfer>,
                       reply: Reply, failed: bool)
    requires id in before
  {
    var t := before[id];
    if |t.received| < t.shape.expectedChunks && t.retries < MaxFileRetries then
      && !failed && after == before[id := t.(retries := t.retries + 1)]
      && reply == Retry(id, IndexesBelow(t.shape.expectedChunks) - t.received)
    else failed && after == before - {id}
  }

  method Again(transfers: map<TransferId, FileTransfer>, ghost started: set<Path>, id: TransferId)
    returns (after: map<TransferId, FileTransfer>, reply: Reply, failed: bool)
    requires TransfersOK(transfers, started) && id in transfers
    ensures TransfersOK(after, started) && AskedAgain(transfers, id, after, reply, failed)
  {
    var t := transfers[id];
    if |t.received| < t.shape.expectedChunks && t.retries < MaxFileRetries {
      var missing := MissingChunks(t);
      return transfers[id := t.(retries := t.retries + 1)], Retry(id, missing), false;
    }
    return transfers - {id}, Nothing, true;
  }

  method MissingChunks(t: FileTransfer) returns (missing: set<nat>)
    ensures missing == IndexesBelow(t.shape.expectedChunks) - t.received
  {
    missing := {};
    for index := 0 to t.shape.expectedChunks
      invariant missing == IndexesBelow(index) - t.received
    {
      if index !in t.received {
        missing := missing + {index};
      }
    }
  }

  /** With as many chunks as declared, all are there, and their bytes are the declared size. */
  lemma CompleteTransfer(t: FileTransfer)
    requires TransferOK(t)
    ensures |t.received| <= t.shape.expectedChunks
    ensures |t.received| >= t.shape.expectedChunks ==> (
              t.received == IndexesBelow(t.shape.expectedChunks) && t.bytesWritten == t.shape.size)
  {
    if |t.received| >= t.shape.expectedChunks {
      AllPresent(t.received, t.shape.expectedChunks);
      AllChunksAreTheSize(t.shape, t.received);
    }
  }

  function Fresh(p: Path, shape: Shape): FileTransfer { FileTransfer(p, shape, {}, 0, 0, []) }

  function Stored(t: FileTransfer, index: int, payload: seq<Byte>): FileTransfer {
    if index in t.received || index < 0 then t
    else t.(received := t.received + {index}, bytesWritten := t.bytesWritten + |payload|,
            file := WriteAt(t.file, t.shape.chunkSize * index, payload))
  }

  lemma FreshIsOK(p: Path, d: Declaration)
    requires Validated(d).Some? && p != []
    ensures TransferOK(Fresh(p, Validated(d).value))
  {
    ValidatedIsValid(d);
    NoBytes(Validated(d).value, Validated(d).value.expectedChunks);
  }

  lemma {:induction false} NoBytes(shape: Shape, n: nat)
    ensures ReceivedBytes(shape, {}, n) == 0
  {
    if n > 0 {
      NoBytes(shape, n - 1);
    }
  }

  lemma StoringKeeps(t: FileTransfer, index: int, payload: seq<Byte>)
    requires TransferOK(t) && index !in t.received && |payload| == ExpectedChunkBytes(t.shape, index)
    ensures index >= 0 && TransferOK(Stored(t, index, payload))
  {
    ReceivingAddsBytes(t.shape, t.received, index, t.shape.expectedChunks);
  }

  method StoreChunk(transfers: map<TransferId, FileTransfer>, ghost started: set<Path>, id: TransferId, index: int,
                    payload: seq<Byte>) returns (after: map<TransferId, FileTransfer>)
    requires TransfersOK(transfers, started) && id in transfers && index !in transfers[id].received
    requires |payload| == ExpectedChunkBytes(transfers[id].shape, index)
    ensures TransfersOK(after, started) && after == transfers[id := Stored(transfers[id], index, payload)]
  {
    var t := transfers[id];
    StoringKeeps(t, index, payload);
    return transfers[id := t.(received := t.received + {index}, bytesWritten := t.bytesWritten + |payload|,
                              file := WriteAt(t.file, t.shape.chunkSize * index, payload))];
  }
}

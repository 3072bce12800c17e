/**
 An honest host and a project download (src/runtime/bootstrap.ts): once the manifest is complete, the chunks of the
 files still wanted, in any order, some of them more than once and some only when they are asked for again, make the
 download succeed with exactly the host's files.

 The host sends one file after the other.
 */
module SnapshotCompletion {
  import opened Bytes
  import opened FiniteSets
  import opened Outcomes
  import opened ProjectPaths
  import opened ProjectTree
  import opened SnapshotDownload
  import opened Transfer
  import M = Materialization

  /** A file as the host sends it; each round of chunks is followed by an end frame. */
  datatype Delivery = Delivery(path: Path, declaration: Declaration, source: seq<Byte>, rounds: seq<seq<nat>>)

  function Elements(round: seq<nat>): set<nat> { set i | i in round }

  function ChunksOf(rounds: seq<seq<nat>>): set<nat> {
    if rounds == [] then {} else ChunksOf(rounds[..|rounds| - 1]) + Elements(rounds[|rounds| - 1])
  }

  /** The declared size is that of the file. */
  predicate Fits(v: Delivery) {
    Validated(v.declaration).Some? && |v.source| == Validated(v.declaration).value.size
  }

  /** The declaration fits the file, the rounds hold chunks of it, and all of them before the attempts run out. */
  predicate IsHonest(hash: Hash, v: Delivery) {
    Fits(v) && (
      var shape := Validated(v.declaration).value;
      && hash(v.source) == shape.hash
      && 1 <= |v.rounds| <= MaxFileRetries + 1 && ChunksOf(v.rounds) == IndexesBelow(shape.expectedChunks))
  }

  lemma {:induction false} RoundIsPart(rounds: seq<seq<nat>>, r: nat, i: nat)
    requires r < |rounds| && i in rounds[r]
    ensures i in ChunksOf(rounds)
  {
    if r < |rounds| - 1 {
      RoundIsPart(rounds[..|rounds| - 1], r, i);
    }
  }

  lemma RoundsGrow(rounds: seq<seq<nat>>, r: nat)
    requires r < |rounds|
    ensures ChunksOf(rounds[..r + 1]) == ChunksOf(rounds[..r]) + Elements(rounds[r])
  {
    assert rounds[..r + 1][..r] == rounds[..r];
  }

  /** A transfer of the host's file that holds the right bytes of the chunks received. */
  ghost predicate IsRight(t: FileTransfer, v: Delivery, received: set<nat>, retries: nat)
    requires Fits(v)
  {
    && t.path == v.path && t.shape == Validated(v.declaration).value && t.received == received && t.retries == retries
    && Agrees(t.shape, v.source, t.file, received)
  }

  lemma StoringIsRight(t: FileTransfer, v: Delivery, received: set<nat>, retries: nat, i: nat)
    requires Fits(v) && IsValid(t.shape) && IsRight(t, v, received, retries) && i < t.shape.expectedChunks
    ensures IsRight(Stored(t, i, Slice(t.shape, v.source, i)), v, received + {i}, retries)
  {
    WritingAgrees(t.shape, v.source, t.file, received, i);
    assert i in received ==> received + {i} == received;
  }

  predicate AreChunks(round: seq<nat>, n: nat) { forall k :: 0 <= k < |round| ==> round[k] < n }

  /** A transfer after some chunks of the file. */
  function Received(t: FileTransfer, source: seq<Byte>, round: seq<nat>): (r: FileTransfer)
    requires IsValid(t.shape) && |source| == t.shape.size && AreChunks(round, t.shape.expectedChunks)
    ensures r.shape == t.shape
  {
    if round == [] then t
    else
      var before := Received(t, source, round[..|round| - 1]);
      var last := round[|round| - 1];
      Stored(before, last, Slice(t.shape, source, last))
  }

  lemma {:induction false} RoundIsRight(t: FileTransfer, v: Delivery, received: set<nat>, round: seq<nat>)
    requires Fits(v) && IsRight(t, v, received, t.retries) && IsValid(t.shape)
    requires AreChunks(round, t.shape.expectedChunks)
    ensures IsRight(Received(t, v.source, round), v, received + Elements(round), t.retries)
  {
    if round == [] {
      assert received + Elements(round) == received;
    } else {
      var before, last := round[..|round| - 1], round[|round| - 1];
      RoundIsRight(t, v, received, before);
      StoringIsRight(Received(t, v.source, before), v, received + Elements(before), t.retries, last);
      assert received + Elements(round) == received + Elements(before) + {last};
    }
  }

  lemma SliceIsExpected(shape: Shape, source: seq<Byte>, i: nat)
    requires IsValid(shape) && |source| == shape.size && i < shape.expectedChunks
    ensures |Slice(shape, source, i)| == ExpectedChunkBytes(shape, i) >= 0
  {
    SliceInRange(shape, i);
    ChunksTile(shape, i);
  }

  /** One round of chunks. */
  method SendRound(d: SnapshotDownload, id: TransferId, source: seq<Byte>, round: seq<nat>)
    requires d.Valid() && !d.finished && id in d.transfers
    requires IsValid(d.transfers[id].shape) && |source| == d.transfers[id].shape.size
    requires AreChunks(round, d.transfers[id].shape.expectedChunks)
    modifies d`transfers, d`finished
    ensures d.Valid() && !d.finished
    ensures d.transfers == old(d.transfers)[id := Received(old(d.transfers)[id], source, round)]
    decreases |round|
  {
    if round != [] {
      SendRound(d, id, source, round[..|round| - 1]);
      var shape, last := d.transfers[id].shape, round[|round| - 1];
      SliceIsExpected(shape, source, last);
      d.FileChunk(id, last, Slice(shape, source, last));
    }
  }

  lemma WholeIsSource(t: FileTransfer, v: Delivery, received: set<nat>, retries: nat)
    requires Fits(v)
    requires IsRight(t, v, received, retries) && received == IndexesBelow(t.shape.expectedChunks)
    ensures t.file == v.source
  {
    ValidatedIsValid(v.declaration);
    CompleteFileIsSource(t.shape, v.source, t.file, received);
  }

  lemma RoundIsOfFile(hash: Hash, v: Delivery, r: nat)
    requires IsHonest(hash, v) && r < |v.rounds|
    ensures AreChunks(v.rounds[r], Validated(v.declaration).value.expectedChunks)
  {
    forall k | 0 <= k < |v.rounds[r]| ensures v.rounds[r][k] in ChunksOf(v.rounds) {
      RoundIsPart(v.rounds, r, v.rounds[r][k]);
    }
  }

  /** Where the transfer of an honest file stands after `r` rounds. */
  ghost predicate AfterRounds(t: FileTransfer, hash: Hash, v: Delivery, r: nat) {
    IsHonest(hash, v) && r <= |v.rounds| && IsValid(t.shape) && IsRight(t, v, ChunksOf(v.rounds[..r]), r)
  }

  lemma StartIsRight(hash: Hash, v: Delivery)
    requires IsHonest(hash, v)
    ensures AfterRounds(Fresh(v.path, Validated(v.declaration).value), hash, v, 0)
  {
    ValidatedIsValid(v.declaration);
    assert v.rounds[..0] == [];
  }

  /** After the chunks of round `r` the file is whole and right, or attempts are left. */
  ghost predicate RoundSent(after: FileTransfer, hash: Hash, v: Delivery, r: nat) {
    && after.path == v.path && after.shape.hash == hash(v.source) && r < |v.rounds|
    && (|after.received| < after.shape.expectedChunks ==> (
          r + 1 < |v.rounds| && after.retries == r < MaxFileRetries
          && AfterRounds(after.(retries := r + 1), hash, v, r + 1)))
    && (|after.received| >= after.shape.expectedChunks ==> after.file == v.source)
  }

  lemma RoundAdds(hash: Hash, t: FileTransfer, v: Delivery, r: nat)
    requires AfterRounds(t, hash, v, r) && r < |v.rounds|
    ensures AreChunks(v.rounds[r], t.shape.expectedChunks)
    ensures TransferOK(Received(t, v.source, v.rounds[r])) ==> RoundSent(Received(t, v.source, v.rounds[r]), hash, v, r)
  {
    RoundIsOfFile(hash, v, r);
    RoundIsRight(t, v, ChunksOf(v.rounds[..r]), v.rounds[r]);
    RoundsGrow(v.rounds, r);
    var after := Received(t, v.source, v.rounds[r]);
    if r == |v.rounds| - 1 {
      assert v.rounds[..r + 1] == v.rounds;
    }
    if |after.received| >= after.shape.expectedChunks && TransferOK(after) {
      CompleteTransfer(after);
      WholeIsSource(after, v, after.received, r);
    }
  }

  lemma ChangedAndRemoved(transfers: map<TransferId, FileTransfer>, id: TransferId, t: FileTransfer)
    ensures transfers[id := t] - {id} == transfers - {id}
    ensures (id !in transfers ==> transfers[id := t] - {id} == transfers)
  {
  }

  method SendOneRound(d: SnapshotDownload, id: TransferId, v: Delivery, r: nat)
    requires d.Valid() && !d.finished && id in d.transfers && r < |v.rounds|
    requires AfterRounds(d.transfers[id], d.hash, v, r)
    modifies d`transfers, d`finished
    ensures d.Valid() && !d.finished && d.transfers - {id} == old(d.transfers) - {id}
    ensures id in d.transfers && RoundSent(d.transfers[id], d.hash, v, r)
  {
    RoundAdds(d.hash, d.transfers[id], v, r);
    ChangedAndRemoved(d.transfers, id, Received(d.transfers[id], v.source, v.rounds[r]));
    SendRound(d, id, v.source, v.rounds[r]);
  }

  method AskForRest(d: SnapshotDownload, id: TransferId, v: Delivery, r: nat)
    requires d.Valid() && !d.finished && id in d.transfers && RoundSent(d.transfers[id], d.hash, v, r)
    requires |d.transfers[id].received| < d.transfers[id].shape.expectedChunks
    modifies d`transfers, d`completed, d`finished, d.folder`fs
    ensures d.Valid() && !d.finished && d.completed == old(d.completed) && d.folder.fs == old(d.folder.fs)
    ensures d.transfers - {id} == old(d.transfers) - {id} && id in d.transfers
    ensures r + 1 < |v.rounds| && AfterRounds(d.transfers[id], d.hash, v, r + 1)
  {
    ChangedAndRemoved(d.transfers, id, d.transfers[id].(retries := r + 1));
    var reply := d.FileEnd(id);
  }

  method EndWhole(d: SnapshotDownload, id: TransferId, v: Delivery, r: nat)
    requires d.Valid() && !d.finished && id in d.transfers && RoundSent(d.transfers[id], d.hash, v, r)
    requires |d.transfers[id].received| >= d.transfers[id].shape.expectedChunks && M.CanWrite(d.folder.fs, v.path)
    modifies d`transfers, d`completed, d`finished, d.folder`fs
    ensures d.Valid() && !d.finished && d.completed == old(d.completed)[v.path := d.hash(v.source)]
    ensures d.transfers == old(d.transfers) - {id} && d.folder.fs == M.WithFile(old(d.folder.fs), v.path, v.source)
  {
    var reply := d.FileEnd(id);
  }

  /** The end frame after a round: the file is stored, or the next round is asked for. */
  method EndRound(d: SnapshotDownload, id: TransferId, v: Delivery, r: nat)
    requires d.Valid() && !d.finished && id in d.transfers && RoundSent(d.transfers[id], d.hash, v, r)
    requires M.CanWrite(d.folder.fs, v.path)
    modifies d`transfers, d`completed, d`finished, d.folder`fs
    ensures d.Valid() && !d.finished && d.transfers - {id} == old(d.transfers) - {id}
    ensures id !in d.transfers ==> d.completed == old(d.completed)[v.path := d.hash(v.source)]
                                   && d.folder.fs == M.WithFile(old(d.folder.fs), v.path, v.source)
    ensures id in d.transfers ==> d.completed == old(d.completed) && d.folder.fs == old(d.folder.fs)
                                  && r + 1 < |v.rounds| && AfterRounds(d.transfers[id], d.hash, v, r + 1)
  {
    if |d.transfers[id].received| < d.transfers[id].shape.expectedChunks {
      AskForRest(d, id, v, r);
    } else {
      EndWhole(d, id, v, r);
    }
  }

  /** One round and its end frame. */
  method SendAndEnd(d: SnapshotDownload, id: TransferId, v: Delivery, r: nat)
    requires d.Valid() && !d.finished && id in d.transfers && r < |v.rounds|
    requires AfterRounds(d.transfers[id], d.hash, v, r)
    requires M.CanWrite(d.folder.fs, v.path)
    modifies d`transfers, d`completed, d`finished, d.folder`fs
    ensures d.Valid() && !d.finished && d.transfers - {id} == old(d.transfers) - {id}
    ensures id !in d.transfers ==> d.completed == old(d.completed)[v.path := d.hash(v.source)]
                                   && d.folder.fs == M.WithFile(old(d.folder.fs), v.path, v.source)
    ensures id in d.transfers ==> d.completed == old(d.completed) && d.folder.fs == old(d.folder.fs)
                                  && r + 1 < |v.rounds| && AfterRounds(d.transfers[id], d.hash, v, r + 1)
  {
    SendOneRound(d, id, v, r);
    EndRound(d, id, v, r);
  }

  /** The rounds from the `r`th on. */
  method SendRounds(d: SnapshotDownload, id: TransferId, v: Delivery, r: nat)
    requires d.Valid() && !d.finished && id in d.transfers && r < |v.rounds|
    requires AfterRounds(d.transfers[id], d.hash, v, r)
    requires M.CanWrite(d.folder.fs, v.path)
    modifies d`transfers, d`completed, d`finished, d.folder`fs
    ensures d.Valid() && !d.finished
    ensures d.transfers == old(d.transfers) - {id} && d.completed == old(d.completed)[v.path := d.hash(v.source)]
    ensures d.folder.fs == M.WithFile(old(d.folder.fs), v.path, v.source)
    decreases |v.rounds| - r
  {
    SendAndEnd(d, id, v, r);
    if id in d.transfers {
      SendRounds(d, id, v, r + 1);
    } else {
      assert d.transfers - {id} == d.transfers;
    }
  }

  function StartedFile(g: Generation, v: Delivery): Generation
    requires Validated(v.declaration).Some?
  {
    g.(started := g.started + {v.path}, declaredBytes := g.declaredBytes + Validated(v.declaration).value.size)
  }

  method StartFile(d: SnapshotDownload, id: TransferId, v: Delivery)
    requires d.Valid() && !d.finished && IsHonest(d.hash, v) && d.MayStart(id, Some(v.path), v.declaration)
    modifies d`transfers, d`generation, d`finished
    ensures d.Valid() && !d.finished && d.transfers - {id} == old(d.transfers)
    ensures d.generation == StartedFile(old(d.generation), v)
    ensures id in d.transfers && AfterRounds(d.transfers[id], d.hash, v, 0)
  {
    StartIsRight(d.hash, v);
    ChangedAndRemoved(d.transfers, id, Fresh(v.path, Validated(v.declaration).value));
    d.FileStart(id, Some(v.path), v.declaration);
  }

  /** A file whose chunks all arrive before the attempts run out is stored as the host has it. */
  method ReceiveFile(d: SnapshotDownload, id: TransferId, v: Delivery)
    requires d.Valid() && !d.finished && IsHonest(d.hash, v) && d.MayStart(id, Some(v.path), v.declaration)
    requires M.CanWrite(d.folder.fs, v.path)
    modifies d, d.folder`fs
    ensures d.Valid() && !d.finished
    ensures d.transfers == old(d.transfers) && d.completed == old(d.completed)[v.path := d.hash(v.source)]
    ensures d.folder.fs == M.WithFile(old(d.folder.fs), v.path, v.source)
    ensures d.generation == StartedFile(old(d.generation), v)
  {
    StartFile(d, id, v);
    SendRounds(d, id, v, 0);
  }

  // ----- The whole download -----

  function PathsOf(plan: seq<Delivery>): set<Path> { set i | 0 <= i < |plan| :: plan[i].path }

  function SizeOf(plan: seq<Delivery>): int { if plan == [] then 0 else |plan[0].source| + SizeOf(plan[1..]) }

  /** One delivery of a plan: not started or received yet, and no folder is in its place. */
  predicate IsAwaited(g: Generation, completed: map<Path, Digest>, fs: Tree, v: Delivery) {
    v.path !in g.started && v.path !in completed && (v.path in fs ==> fs[v.path] != Dir)
  }

  /**
   The folders are made, and the plan delivers exactly the files still wanted, each once and within the size limit.
   */
  ghost predicate Awaits(g: Generation, completed: map<Path, Digest>, fs: Tree, hash: Hash, plan: seq<Delivery>) {
    && g.manifestComplete && g.announced == g.directories && g.files == completed.Keys + PathsOf(plan)
    && (forall i :: 0 <= i < |plan| ==> IsAwaited(g, completed, fs, plan[i]) && IsHonest(hash, plan[i]))
    && (forall i, j :: 0 <= i < j < |plan| ==> plan[i].path != plan[j].path)
    && g.declaredBytes + SizeOf(plan) <= MaxSnapshotTransferBytes
  }

  /** Below folders that are there every file of a manifest can be written that is not in the place of a folder. */
  lemma WantedCanBeWritten(fs: Tree, fold: M.Fold, files: set<Path>, folders: set<Path>, p: Path)
    requires IsManifest(fold, files, folders) && FoldersStored(fs, folders) && p in files && p != []
    requires p in fs ==> fs[p] != Dir
    ensures M.CanWrite(fs, p) && forall bytes :: M.WithFile(fs, p, bytes) == fs[p := File(bytes)]
  {
    assert ParentsOK(fold, files, folders, p);
    forall k | 0 < k < |p| ensures p[..k] in fs && fs[p[..k]] == Dir && M.Parent(p)[..k] == p[..k] {
      assert p[..k] in folders;
    }
    forall bytes ensures M.WithFile(fs, p, bytes) == fs[p := File(bytes)] {
      assert M.Prefixes(M.Parent(p)) <= fs.Keys;
    }
  }

  lemma {:induction false} SizeIsNat(plan: seq<Delivery>)
    ensures SizeOf(plan) >= 0
  {
    if plan != [] {
      SizeIsNat(plan[1..]);
    }
  }

  lemma PathsOfPlan(plan: seq<Delivery>)
    requires plan != []
    ensures PathsOf(plan) == {plan[0].path} + PathsOf(plan[1..])
  {
    assert forall i :: 0 < i < |plan| ==> plan[i] == plan[1..][i - 1];
    assert forall i :: 0 <= i < |plan[1..]| ==> plan[1..][i] == plan[i + 1];
  }

  lemma AwaitedStays(g: Generation, completed: map<Path, Digest>, fs: Tree, d: Digest, v: Delivery, w: Delivery)
    requires IsAwaited(g, completed, fs, w) && v.path != w.path && Fits(v)
    ensures IsAwaited(StartedFile(g, v), completed[v.path := d], fs[v.path := File(v.source)], w)
  {
  }

  lemma FilesOfPlan(files: set<Path>, completed: map<Path, Digest>, d: Digest, plan: seq<Delivery>)
    requires files == completed.Keys + PathsOf(plan) && plan != []
    ensures plan[0].path in files && files == completed[plan[0].path := d].Keys + PathsOf(plan[1..])
  {
    PathsOfPlan(plan);
  }

  lemma PlanGoesOn(g: Generation, completed: map<Path, Digest>, fs: Tree, hash: Hash, plan: seq<Delivery>)
    requires Awaits(g, completed, fs, hash, plan) && plan != []
    ensures IsHonest(hash, plan[0]) && plan[0].path in g.files && IsAwaited(g, completed, fs, plan[0])
    ensures var v := plan[0]; (
      Awaits(StartedFile(g, v), completed[v.path := hash(v.source)], fs[v.path := File(v.source)], hash, plan[1..]))
  {
    var v, rest := plan[0], plan[1..];
    assert IsAwaited(g, completed, fs, v) && IsHonest(hash, v);
    FilesOfPlan(g.files, completed, hash(v.source), plan);
    forall i | 0 <= i < |rest|
      ensures IsAwaited(StartedFile(g, v), completed[v.path := hash(v.source)], fs[v.path := File(v.source)], rest[i])
      ensures IsHonest(hash, rest[i])
    {
      assert rest[i] == plan[i + 1];
      assert IsAwaited(g, completed, fs, plan[i + 1]) && IsHonest(hash, plan[i + 1]);
      AwaitedStays(g, completed, fs, hash(v.source), v, rest[i]);
    }
  }

  function Written(fs: Tree, plan: seq<Delivery>): Tree
    decreases |plan|
  {
    if plan == [] then fs else Written(fs[plan[0].path := File(plan[0].source)], plan[1..])
  }

  lemma {:induction false} WrittenElsewhere(fs: Tree, plan: seq<Delivery>, p: Path)
    requires p !in PathsOf(plan)
    ensures p in Written(fs, plan) <==> p in fs
    ensures p in fs ==> Written(fs, plan)[p] == fs[p]
    decreases |plan|
  {
    if plan != [] {
      PathsOfPlan(plan);
      WrittenElsewhere(fs[plan[0].path := File(plan[0].source)], plan[1..], p);
    }
  }

  lemma {:induction false} WrittenHolds(fs: Tree, plan: seq<Delivery>, i: nat)
    requires i < |plan| && forall i, j :: 0 <= i < j < |plan| ==> plan[i].path != plan[j].path
    ensures plan[i].path in Written(fs, plan) && Written(fs, plan)[plan[i].path] == File(plan[i].source)
    decreases |plan|
  {
    var after := fs[plan[0].path := File(plan[0].source)];
    if i == 0 {
      WrittenElsewhere(after, plan[1..], plan[0].path);
    } else {
      WrittenHolds(after, plan[1..], i - 1);
    }
  }

  /** The files of a plan one after the other. */
  method ReceiveFiles(d: SnapshotDownload, id: TransferId, plan: seq<Delivery>)
    requires d.Valid() && !d.finished && d.transfers == map[]
    requires Awaits(d.generation, d.completed, d.folder.fs, d.hash, plan)
    modifies d, d.folder`fs
    ensures d.Valid() && !d.finished && d.transfers == map[] && d.folder.fs == Written(old(d.folder.fs), plan)
    ensures Awaits(d.generation, d.completed, d.folder.fs, d.hash, []) && d.generation.files == old(d.generation).files
    decreases |plan|
  {
    if plan != [] {
      ReceiveFirst(d, id, plan);
      ReceiveFiles(d, id, plan[1..]);
    }
  }

  method ReceiveFirst(d: SnapshotDownload, id: TransferId, plan: seq<Delivery>)
    requires d.Valid() && !d.finished && d.transfers == map[] && plan != []
    requires Awaits(d.generation, d.completed, d.folder.fs, d.hash, plan)
    modifies d, d.folder`fs
    ensures d.Valid() && !d.finished && d.transfers == map[] && d.generation.files == old(d.generation).files
    ensures d.folder.fs == old(d.folder.fs)[plan[0].path := File(plan[0].source)]
    ensures Awaits(d.generation, d.completed, d.folder.fs, d.hash, plan[1..])
  {
    var v := plan[0];
    PlanGoesOn(d.generation, d.completed, d.folder.fs, d.hash, plan);
    SizeIsNat(plan[1..]);
    FirstIsWanted(d, plan);
    ReceiveFile(d, id, v);
  }

  lemma FirstIsWanted(d: SnapshotDownload, plan: seq<Delivery>)
    requires d.Valid() && !d.finished && plan != [] && Awaits(d.generation, d.completed, d.folder.fs, d.hash, plan)
    ensures plan[0].path in d.generation.files && M.CanWrite(d.folder.fs, plan[0].path)
    ensures M.WithFile(d.folder.fs, plan[0].path, plan[0].source) == d.folder.fs[plan[0].path := File(plan[0].source)]
  {
    var g, v := d.generation, plan[0];
    PlanGoesOn(g, d.completed, d.folder.fs, d.hash, plan);
    assert v.path in g.files && IsProper(v.path);
    WantedCanBeWritten(d.folder.fs, d.fold, g.files, g.directories, v.path);
  }

  /** Every file of the plan is there as the host has it. */
  predicate AreDelivered(fs: Tree, plan: seq<Delivery>) {
    forall i :: 0 <= i < |plan| ==> plan[i].path in fs && fs[plan[i].path] == File(plan[i].source)
  }

  lemma WrittenIsDelivered(fs: Tree, plan: seq<Delivery>)
    requires forall i, j :: 0 <= i < j < |plan| ==> plan[i].path != plan[j].path
    ensures AreDelivered(Written(fs, plan), plan)
  {
    forall i | 0 <= i < |plan|
      ensures plan[i].path in Written(fs, plan) && Written(fs, plan)[plan[i].path] == File(plan[i].source)
    {
      WrittenHolds(fs, plan, i);
    }
  }

  lemma DeliveredStays(before: Tree, after: Tree, files: set<Path>, plan: seq<Delivery>)
    requires AreDelivered(before, plan) && PathsOf(plan) <= files
    requires forall p :: p in files ==> p in before && p in after && after[p] == before[p]
    ensures AreDelivered(after, plan)
  {
    forall i | 0 <= i < |plan| ensures plan[i].path in files {
      assert plan[i].path in PathsOf(plan);
    }
  }

  method EndReceived(d: SnapshotDownload)
    requires d.Valid() && !d.finished && d.transfers == map[]
    requires Awaits(d.generation, d.completed, d.folder.fs, d.hash, [])
    modifies d, d.folder`fs
    ensures d.Valid() && d.succeeded && d.generation.files == old(d.generation).files
    ensures forall p :: p in d.generation.files ==> (
              p in old(d.folder.fs) && p in d.folder.fs && d.folder.fs[p] == old(d.folder.fs)[p])
  {
    ghost var bound := M.DepthExists(d.folder.fs.Keys);
    assert d.generation.files == d.completed.Keys;
    d.End(bound);
  }

  /**
   Once the manifest is complete and its folders are made, an honest host that delivers the files still wanted makes
   the download succeed, and every file it delivered is in the folder as the host has it.
   */
  method CompleteDownload(d: SnapshotDownload, id: TransferId, plan: seq<Delivery>)
    requires d.Valid() && !d.finished && d.transfers == map[]
    requires Awaits(d.generation, d.completed, d.folder.fs, d.hash, plan)
    modifies d, d.folder`fs
    ensures d.Valid() && d.succeeded && IsDownloaded(d.folder.fs, d.fold, d.hash, d.completed, d.generation)
    ensures d.generation.files == old(d.generation).files && AreDelivered(d.folder.fs, plan)
  {
    WrittenIsDelivered(d.folder.fs, plan);
    ReceiveFiles(d, id, plan);
    ghost var received := d.folder.fs;
    EndReceived(d);
    DeliveredStays(received, d.folder.fs, d.generation.files, plan);
  }
}

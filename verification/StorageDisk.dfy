/**
 What the two roots hold in whole runs of the storage adapter: when the queue has drained, the file under a document's
 name holds what was last scheduled, as long as no write is followed by a queued rename or removal that undoes it and
 the queued renames and removals succeed.
 */
module StorageDisk {
  import opened ProjectPaths
  import opened StorageAdapter
  import opened StorageRedirects
  import opened StorageRun

  /** What a queued operation does to the files that are there already. */
  function StepTable(m: map<Path, nat>, op: Op): map<Path, nat> {
    match op
    case Rename(r) => DiskMoved(m, r)
    case Remove(p) => Without(m, p)
    case _ => m
  }

  /** Where the files that are there already end up when the queued renames and removals have succeeded. */
  function Projected(m: map<Path, nat>, queue: seq<Op>): map<Path, nat>
    decreases |queue|
  {
    if queue == [] then m else Projected(StepTable(m, queue[0]), queue[1..])
  }

  /** The operation replaces or deletes a file that is stored under `p` already. */
  predicate Undoes(m: map<Path, nat>, op: Op, p: Path) {
    match op
    case Rename(r) => SameOrChild(p, r.to) && Holds(m, r.from)
    case Remove(root) => SameOrChild(p, root)
    case _ => false
  }

  /**
   A file written under `p` now does not outlast the queue: a queued removal, or a rename with something to move,
   follows.
   */
  predicate Undone(m: map<Path, nat>, queue: seq<Op>, p: Path)
    decreases |queue|
  {
    queue != [] && (Undoes(m, queue[0], p) || Undone(StepTable(m, queue[0]), queue[1..], p))
  }

  /** The root holds the document now named `p`, or will once the queued renames are done, with content new enough. */
  predicate Stored(m: map<Path, nat>, queue: seq<Op>, p: Path, since: nat) {
    p in Projected(m, queue) && Projected(m, queue)[p] >= since
  }

  /** The operation may replace, move or delete a file written under `p`. */
  predicate Covers(op: Op, p: Path) {
    match op
    case Rename(r) => SameOrChild(p, r.from) || SameOrChild(p, r.to)
    case Remove(root) => SameOrChild(p, root)
    case _ => false
  }

  predicate Spared(queue: seq<Op>, i: int, p: Path) { forall k :: 0 <= i < k < |queue| ==> !Covers(queue[k], p) }

  /**
   Batch `i` will write the document; a calm batch knows it by its name, and nothing queued behind it touches that.
   */
  ghost predicate Brings(queue: seq<Op>, work: Work, i: int, o: Path, p: Path, since: nat, calm: bool) {
    Carries(queue, work, i, o, p, since) && (calm ==> o == p && Spared(queue, i, p))
  }

  ghost predicate Brought(queue: seq<Op>, work: Work, p: Path, since: nat, calm: bool) {
    exists i, o :: Brings(queue, work, i, o, p, since, calm)
  }

  /** The document is pending, in a batch, or stored in the root. */
  ghost predicate Secure(w: World, m: map<Path, nat>, p: Path, calm: bool)
    requires p in w.due
  {
    p in w.a.pending || Brought(w.a.queue, w.work, p, w.due[p], calm) || Stored(m, w.a.queue, p, w.due[p])
  }

  ghost predicate DiskOK(w: World, m: map<Path, nat>, calm: bool) {
    forall p :: p in w.due ==> Secure(w, m, p, calm)
  }

  /** A document scheduled after a mirrored file was fixed is pending, or in a batch behind that file. */
  ghost predicate MirrorAt(w: World, i: nat, calm: bool)
    requires i < |w.a.queue| && w.a.queue[i].Mirror?
  {
    && w.a.queue[i].version <= w.now
    && forall p :: p in w.due && w.due[p] > w.a.queue[i].version ==> (
         p in w.a.pending || Brought(w.a.queue[i + 1..], Idle, p, w.due[p], calm))
  }

  ghost predicate MirrorsOK(w: World, calm: bool) {
    forall i :: 0 <= i < |w.a.queue| && w.a.queue[i].Mirror? ==> MirrorAt(w, i, calm)
  }

  /** No file is newer than the content being serialized. */
  predicate TimesOK(w: World, m: map<Path, nat>) {
    forall p :: p in m ==> m[p] <= if w.work.Serializing? then w.work.start else w.now
  }

  // ----- Tables -----

  lemma {:induction false} ProjectedAppended(m: map<Path, nat>, queue: seq<Op>, op: Op)
    ensures Projected(m, queue + [op]) == StepTable(Projected(m, queue), op)
    decreases |queue|
  {
    if queue == [] {
      assert (queue + [op])[1..] == [] && (queue + [op])[0] == op;
    } else {
      assert (queue + [op])[1..] == queue[1..] + [op];
      ProjectedAppended(StepTable(m, queue[0]), queue[1..], op);
    }
  }

  /** A file that no rename takes away is there in the end exactly if nothing undoes it, and changes nothing else. */
  lemma StepWritten(m: map<Path, nat>, op: Op, p: Path, time: nat)
    requires op.Rename? ==> !SameOrChild(p, op.redirect.from)
    ensures StepTable(m[p := time], op) == if Undoes(m, op, p) then StepTable(m, op) else StepTable(m, op)[p := time]
  {
    if op.Rename? {
      MoveWritten(m, op.redirect, p, time);
    }
  }

  lemma MoveWritten(m: map<Path, nat>, r: Redirect, p: Path, time: nat)
    requires !SameOrChild(p, r.from)
    ensures Holds(m[p := time], r.from) <==> Holds(m, r.from)
    ensures MovedTable(m[p := time], r) == if SameOrChild(p, r.to) then MovedTable(m, r)
      else MovedTable(m, r)[p := time]
  {
    var n := m[p := time];
    if Holds(m, r.from) {
      var q :| q in m && SameOrChild(q, r.from);
      assert q in n;
    }
    var after := if SameOrChild(p, r.to) then MovedTable(m, r) else MovedTable(m, r)[p := time];
    forall q ensures q in MovedTable(n, r) <==> q in after {
      TableKeys(m, r, q);
      TableKeys(n, r, q);
    }
  }

  lemma TableKeys(m: map<Path, nat>, r: Redirect, q: Path)
    ensures q in MovedTable(m, r) <==> After(m, r, q)
  {
    if After(m, r, q) && SameOrChild(q, r.to) {
      assert Back(q, r) in m && Moved(Back(q, r), r) == q;
    }
  }

  lemma {:induction false} ProjectedWritten(m: map<Path, nat>, queue: seq<Op>, p: Path, time: nat)
    requires forall r :: r in Renames(queue) ==> !SameOrChild(p, r.from)
    ensures Projected(m[p := time], queue)
         == if Undone(m, queue, p) then Projected(m, queue) else Projected(m, queue)[p := time]
    decreases |queue|
  {
    if queue != [] {
      StepWritten(m, queue[0], p, time);
      if !Undoes(m, queue[0], p) {
        ProjectedWritten(StepTable(m, queue[0]), queue[1..], p, time);
      }
    }
  }

  lemma {:induction false} ProjectedTimes(m: map<Path, nat>, queue: seq<Op>, p: Path, limit: nat)
    requires (forall q :: q in m ==> m[q] <= limit) && p in Projected(m, queue)
    ensures Projected(m, queue)[p] <= limit
    decreases |queue|
  {
    if queue != [] {
      forall q | q in StepTable(m, queue[0]) ensures StepTable(m, queue[0])[q] <= limit {
        if queue[0].Rename? && Holds(m, queue[0].redirect.from) {
          FromOrigin(m, queue[0].redirect, q);
        }
      }
      ProjectedTimes(StepTable(m, queue[0]), queue[1..], p, limit);
    }
  }

  /** Nothing queued behind the batch touches the path, so nothing undoes what is written there. */
  lemma {:induction false} SparedStays(m: map<Path, nat>, queue: seq<Op>, p: Path)
    requires forall k :: 0 <= k < |queue| ==> !Covers(queue[k], p)
    ensures !Undone(m, queue, p)
    decreases |queue|
  {
    if queue != [] {
      assert !Covers(queue[0], p);
      SparedStays(StepTable(m, queue[0]), queue[1..], p);
    }
  }

  /** The current name of a document is not the source of a queued rename. */
  lemma {:induction false} ResolvedIsSettled(rs: seq<Redirect>, p: Path)
    requires Independent(rs)
    ensures forall r :: r in rs ==> !SameOrChild(Replay(rs, p), r.from)
  {
    if rs != [] {
      ResolvedIsSettled(rs[1..], Moved(p, rs[0]));
      LastMoveStays(rs[1..], Moved(p, rs[0]), rs[0]);
    }
  }

  /** A path outside `first.from` stays outside under renames whose targets are not near it. */
  lemma {:induction false} LastMoveStays(rs: seq<Redirect>, p: Path, first: Redirect)
    requires !SameOrChild(p, first.from) && forall i :: 0 <= i < |rs| ==> !Comparable(rs[i].to, first.from)
    ensures !SameOrChild(Replay(rs, p), first.from)
  {
    if rs != [] {
      var q := Moved(p, rs[0]);
      if SameOrChild(q, first.from) && SameOrChild(p, rs[0].from) {
        PrefixesComparable(first.from, rs[0].to, q);
      }
      LastMoveStays(rs[1..], q, first);
    }
  }

  // ----- The queue grows at the end -----

  lemma BroughtAppended(queue: seq<Op>, work: Work, p: Path, since: nat, op: Op, calm: bool)
    requires Brought(queue, work, p, since, calm) && (calm ==> !Covers(op, p))
    ensures Brought(queue + [op], work, MovedBy(p, op), since, calm)
  {
    var i, o :| Brings(queue, work, i, o, p, since, calm);
    CarriesAppended(queue, work, i, o, p, since, op);
    assert Brings(queue + [op], work, i, o, MovedBy(p, op), since, calm);
  }

  lemma StoredAppended(m: map<Path, nat>, queue: seq<Op>, p: Path, since: nat, op: Op)
    requires Stored(m, queue, p, since) && !op.Rename? && (op.Remove? ==> !SameOrChild(p, op.path))
    ensures Stored(m, queue + [op], p, since)
  {
    ProjectedAppended(m, queue, op);
  }

  lemma ScheduleKeepsDisk(w: World, m: map<Path, nat>, p: Path, calm: bool)
    requires DiskOK(w, m, calm)
    ensures DiskOK(AfterSchedule(w, p), m, calm)
  {
    var v := AfterSchedule(w, p);
    forall q | q in v.due ensures Secure(v, m, q, calm) {
      assert q != p ==> Secure(w, m, q, calm);
    }
  }

  /** An operation is appended that leaves the documents still due where they are. */
  lemma AppendKeepsDisk(w: World, v: World, m: map<Path, nat>, op: Op, calm: bool)
    requires QueueOK(w) && DiskOK(w, m, calm) && v.a.queue == w.a.queue + [op] && v.work == w.work && !op.Rename?
    requires forall p :: p in v.due ==> p in w.due && v.due[p] == w.due[p] && (op.Remove? ==> !SameOrChild(p, op.path))
    requires forall p :: p in v.due && p in w.a.pending ==> p in v.a.pending || (op.Flush? && p in op.outstanding)
    ensures DiskOK(v, m, calm)
  {
    forall p | p in v.due ensures Secure(v, m, p, calm) {
      assert Secure(w, m, p, calm);
      if Brought(w.a.queue, w.work, p, w.due[p], calm) {
        BroughtAppended(w.a.queue, w.work, p, w.due[p], op, calm);
      } else if Stored(m, w.a.queue, p, w.due[p]) {
        StoredAppended(m, w.a.queue, p, w.due[p], op);
      } else if p !in v.a.pending {
        var i := |w.a.queue|;
        assert v.a.queue[i..] == [op] && [op][1..] == [];
        assert Brings(v.a.queue, v.work, i, p, p, v.due[p], calm);
      }
    }
  }

  /** No unwritten path of a queued batch has a name at or below the source. */
  ghost predicate NoneHeld(queue: seq<Op>, r: Redirect) {
    forall i, o :: 0 <= i < |queue| && queue[i].Flush? && o in queue[i].outstanding
                   ==> !SameOrChild(Replay(Renames(queue[i..]), o), r.from)
  }

  lemma StoredMoved(m: map<Path, nat>, queue: seq<Op>, r: Redirect, q: Path, since: nat)
    requires Stored(m, queue, Origin(q, r), since) && Moved(Origin(q, r), r) == q
    ensures Stored(m, queue + [Rename(r)], q, since)
  {
    ProjectedAppended(m, queue, Rename(r));
    var t := Projected(m, queue);
    if Holds(t, r.from) {
      MovedOrigin(t, r, q);
    } else {
      assert !SameOrChild(Origin(q, r), r.from);
    }
  }

  lemma RenameKeepsDisk(w: World, m: map<Path, nat>, r: Redirect, calm: bool)
    requires DiskOK(w, m, calm) && !Comparable(r.from, r.to) && (calm ==> NoneHeld(w.a.queue, r))
    ensures DiskOK(AfterRename(w, r), m, calm)
  {
    var v := AfterRename(w, r);
    forall q | q in v.due ensures Secure(v, m, q, calm) {
      FromOrigin(w.due, r, q);
      var p := Origin(q, r);
      assert Secure(w, m, p, calm);
      if Brought(w.a.queue, w.work, p, w.due[p], calm) {
        CalmIsNotMoved(w.a.queue, w.work, p, w.due[p], r, q, calm);
        BroughtAppended(w.a.queue, w.work, p, w.due[p], Rename(r), calm);
      } else if Stored(m, w.a.queue, p, w.due[p]) {
        StoredMoved(m, w.a.queue, r, q, w.due[p]);
      } else {
        assert q in v.a.pending;
      }
    }
  }

  lemma CalmIsNotMoved(queue: seq<Op>, work: Work, p: Path, since: nat, r: Redirect, q: Path, calm: bool)
    requires Brought(queue, work, p, since, calm) && p == Origin(q, r) && (calm ==> NoneHeld(queue, r))
    ensures calm ==> !Covers(Rename(r), p)
  {
    if calm {
      var i, o :| Brings(queue, work, i, o, p, since, calm);
      assert !SameOrChild(Replay(Renames(queue[i..]), o), r.from);
    }
  }

  // ----- Work on the head of the queue -----

  lemma BroughtSettled(w: World, o: Path, p: Path, i: int, c: Path, since: nat, calm: bool)
    requires HeadFlush(w) && Brings(w.a.queue, w.work, i, c, p, since, calm) && (i == 0 ==> c != o)
    ensures Brought(Settle(w.a, o).queue, Idle, p, since, calm)
  {
    SettleKeepsRenames(w.a.queue, w.a.queue[0].outstanding - {o}, i);
    var queue := Settle(w.a, o).queue;
    assert forall k :: 0 < k < |queue| ==> queue[k] == w.a.queue[k];
    assert Brings(queue, Idle, i, c, p, since, calm);
  }

  /** Settling the head batch changes nothing about the files. */
  lemma SettledTables(a: Adapter, o: Path, m: map<Path, nat>, p: Path)
    requires a.queue != [] && a.queue[0].Flush?
    ensures Projected(m, Settle(a, o).queue) == Projected(m, a.queue)
    ensures Undone(m, Settle(a, o).queue, p) <==> Undone(m, a.queue, p)
  {
    assert Settle(a, o).queue[1..] == a.queue[1..];
  }

  lemma OthersSettled(w: World, m: map<Path, nat>, o: Path, p: Path, calm: bool)
    requires QueueOK(w) && HeadFlush(w) && p in w.due && Secure(w, m, p, calm) && Current(w, o) != p
    ensures p in w.a.pending || Brought(Settle(w.a, o).queue, Idle, p, w.due[p], calm)
            || Stored(m, Settle(w.a, o).queue, p, w.due[p])
  {
    SettledTables(w.a, o, m, p);
    if Brought(w.a.queue, w.work, p, w.due[p], calm) {
      var i, c :| Brings(w.a.queue, w.work, i, c, p, w.due[p], calm);
      assert w.a.queue[0..] == w.a.queue;
      BroughtSettled(w, o, p, i, c, w.due[p], calm);
    }
  }

  lemma RestartKeepsDisk(w: World, v: World, m: map<Path, nat>, calm: bool)
    requires Inv(w) && DiskOK(w, m, calm) && v.a == w.a && v.due == w.due
    requires v.work == w.work || (v.work.Serializing? && v.work.start == w.now)
    ensures DiskOK(v, m, calm)
  {
    forall p | p in v.due ensures Secure(v, m, p, calm) {
      assert Secure(w, m, p, calm) && DueAt(w, p);
      if Brought(w.a.queue, w.work, p, w.due[p], calm) {
        var i, c :| Brings(w.a.queue, w.work, i, c, p, w.due[p], calm);
        assert Brings(v.a.queue, v.work, i, c, p, v.due[p], calm);
      }
    }
  }

  lemma PickKeepsDisk(w: World, m: map<Path, nat>, o: Path, calm: bool)
    requires Inv(w) && DiskOK(w, m, calm) && Enabled(w, Pick(o))
    ensures DiskOK(AfterPick(w, o), m, calm)
  {
    var v := AfterPick(w, o);
    if IsRemoved(w.a.removed, Current(w, o)) {
      forall p | p in v.due ensures Secure(v, m, p, calm) {
        assert Secure(w, m, p, calm) && DueAt(w, p);
        OthersSettled(w, m, o, p, calm);
      }
    } else {
      RestartKeepsDisk(w, v, m, calm);
    }
  }

  /** The files of a root once the head batch has written its path there. */
  function AfterWriting(w: World, m: map<Path, nat>): map<Path, nat>
    requires w.work.Serializing?
  {
    if IsRemoved(w.a.removed, Current(w, w.work.original)) then m else m[Current(w, w.work.original) := w.work.start]
  }

  /**
   The write does not make the root lose the document: it will not be undone, or the document is pending, in what is
   left of the batches, or stored anyway.
   */
  ghost predicate LeavesStored(w: World, m: map<Path, nat>)
    requires HeadFlush(w) && w.work.Serializing?
  {
    var p := Current(w, w.work.original);
    p in w.due && Undone(m, w.a.queue, p) ==>
      p in w.a.pending || Brought(Settle(w.a, w.work.original).queue, Idle, p, w.due[p], false)
      || Stored(m, w.a.queue, p, w.due[p])
  }

  lemma WriteProjects(w: World, m: map<Path, nat>)
    requires QueueOK(w) && HeadFlush(w) && w.work.Serializing? && !IsRemoved(w.a.removed, Current(w, w.work.original))
    ensures var p := Current(w, w.work.original); (
      Projected(AfterWriting(w, m), w.a.queue)
      == if Undone(m, w.a.queue, p) then Projected(m, w.a.queue) else Projected(m, w.a.queue)[p := w.work.start])
  {
    ResolvedIsSettled(w.a.redirects, w.work.original);
    ProjectedWritten(m, w.a.queue, Current(w, w.work.original), w.work.start);
  }

  /** Every other document is as secure as before. */
  lemma WriteKeepsOthers(w: World, m: map<Path, nat>, p: Path, calm: bool)
    requires Inv(w) && Enabled(w, Write) && p in w.due && Secure(w, m, p, calm) && Current(w, w.work.original) != p
    ensures Secure(AfterWrite(w), AfterWriting(w, m), p, calm)
  {
    OthersSettled(w, m, w.work.original, p, calm);
    SettledTables(w.a, w.work.original, m, p);
    SettledTables(w.a, w.work.original, AfterWriting(w, m), p);
    if !IsRemoved(w.a.removed, Current(w, w.work.original)) {
      WriteProjects(w, m);
    }
  }

  /** The content in hand is new enough for a document that only this write brings, or that is stored already. */
  lemma NewEnough(w: World, m: map<Path, nat>, p: Path, calm: bool)
    requires Inv(w) && Enabled(w, Write) && TimesOK(w, m) && p in w.due && Secure(w, m, p, calm)
    ensures p in w.a.pending || Brought(Settle(w.a, w.work.original).queue, Idle, p, w.due[p], calm)
            || w.work.start >= w.due[p]
  {
    if Brought(w.a.queue, w.work, p, w.due[p], calm) {
      var i, c :| Brings(w.a.queue, w.work, i, c, p, w.due[p], calm);
      if i != 0 || c != w.work.original {
        BroughtSettled(w, w.work.original, p, i, c, w.due[p], calm);
      }
    } else if Stored(m, w.a.queue, p, w.due[p]) {
      ProjectedTimes(m, w.a.queue, p, w.work.start);
    }
  }

  lemma {:induction false} UndoneAppended(m: map<Path, nat>, queue: seq<Op>, op: Op, p: Path)
    ensures Undone(m, queue + [op], p) <==> Undone(m, queue, p) || Undoes(Projected(m, queue), op, p)
    decreases |queue|
  {
    if queue == [] {
      assert (queue + [op])[1..] == [] && (queue + [op])[0] == op;
    } else {
      assert (queue + [op])[1..] == queue[1..] + [op];
      UndoneAppended(StepTable(m, queue[0]), queue[1..], op, p);
    }
  }

  /**
   A rename issued over the document that is just being written, and that nothing else brings: the write will leave it
   stored exactly if what is moved over it is new enough itself, or there will be nothing to move and nothing else
   queued undoes the write.
   */
  lemma RenameOverWrite(w: World, m: map<Path, nat>, r: Redirect)
    requires QueueOK(w) && HeadFlush(w) && w.work.Serializing? && Enabled(w, IssueRename(r))
    requires Current(w, w.work.original) in w.due && SameOrChild(Current(w, w.work.original), r.from)
    requires var v := AfterRename(w, r); var q := Moved(Current(w, w.work.original), r);
      q !in v.a.pending && (q in v.due ==> !Brought(Settle(v.a, w.work.original).queue, Idle, q, v.due[q], false))
    ensures var p := Current(w, w.work.original); var q := Moved(p, r);
      LeavesStored(AfterRename(w, r), m) <==> (
        if Holds(Projected(m, w.a.queue), r.from) then Stored(m, w.a.queue, p, w.due[p])
        else !Undone(m, w.a.queue, q) || Stored(m, w.a.queue, q, w.due[p]))
  {
    var v := AfterRename(w, r);
    var p := Current(w, w.work.original);
    var q := Moved(p, r);
    RenameAppends(w, r);
    ReplayAppended(w.a.redirects, r, w.work.original);
    MovedBack(p, r);
    MovedOrigin(w.due, r, q);
    UndoneAppended(m, w.a.queue, Rename(r), q);
    ProjectedAppended(m, w.a.queue, Rename(r));
    if Holds(Projected(m, w.a.queue), r.from) {
      MovedHere(Projected(m, w.a.queue), r, p);
    }
  }

  lemma MovedBack(p: Path, r: Redirect)
    requires SameOrChild(p, r.from)
    ensures SameOrChild(Moved(p, r), r.to) && Back(Moved(p, r), r) == p
  {
    var q := Moved(p, r);
    assert q[|r.to|..] == p[|r.from|..];
    assert p == r.from + p[|r.from|..];
  }

  lemma MovedHere(m: map<Path, nat>, r: Redirect, p: Path)
    requires SameOrChild(p, r.from)
    ensures Moved(p, r) in MovedTable(m, r) <==> p in m
    ensures p in m ==> MovedTable(m, r)[Moved(p, r)] == m[p]
  {
    MovedBack(p, r);
    TableKeys(m, r, Moved(p, r));
  }

  /** In a calm run nothing queued undoes what the head batch writes for a document that only this write brings. */
  lemma CalmIsNotUndone(w: World, m: map<Path, nat>, p: Path)
    requires HeadFlush(w) && w.work.Serializing? && p in w.due && Secure(w, m, p, true)
    ensures !Undone(m, w.a.queue, p) || p in w.a.pending || Stored(m, w.a.queue, p, w.due[p])
            || Brought(Settle(w.a, w.work.original).queue, Idle, p, w.due[p], true)
  {
    if Brought(w.a.queue, w.work, p, w.due[p], true) {
      var i, c :| Brings(w.a.queue, w.work, i, c, p, w.due[p], true);
      if i != 0 || c != w.work.original {
        BroughtSettled(w, w.work.original, p, i, c, w.due[p], true);
      } else {
        assert !Covers(w.a.queue[0], p);
        SparedStays(m, w.a.queue, p);
      }
    }
  }

  /** The document that is written stays secure exactly if it is left stored. */
  lemma WriteKeepsOwn(w: World, m: map<Path, nat>)
    requires Inv(w) && Enabled(w, Write) && TimesOK(w, m) && Current(w, w.work.original) in w.due
    requires Secure(w, m, Current(w, w.work.original), false)
    ensures Secure(AfterWrite(w), AfterWriting(w, m), Current(w, w.work.original), false) <==> LeavesStored(w, m)
  {
    var p := Current(w, w.work.original);
    assert DueAt(w, p);
    SettledTables(w.a, w.work.original, AfterWriting(w, m), p);
    WriteProjects(w, m);
    NewEnough(w, m, p, false);
  }

  /** The write loses no document exactly if it leaves the one it writes stored. */
  lemma WriteKeepsDiskIff(w: World, m: map<Path, nat>)
    requires Inv(w) && Enabled(w, Write) && TimesOK(w, m) && DiskOK(w, m, false)
    ensures DiskOK(AfterWrite(w), AfterWriting(w, m), false) <==> LeavesStored(w, m)
  {
    var p := Current(w, w.work.original);
    if p in w.due {
      assert Secure(w, m, p, false);
      WriteKeepsOwn(w, m);
    }
    forall q | q in w.due && q != p ensures Secure(AfterWrite(w), AfterWriting(w, m), q, false) {
      assert Secure(w, m, q, false);
      WriteKeepsOthers(w, m, q, false);
    }
  }

  lemma CalmWriteKeepsDisk(w: World, m: map<Path, nat>)
    requires Inv(w) && Enabled(w, Write) && TimesOK(w, m) && DiskOK(w, m, true)
    ensures DiskOK(AfterWrite(w), AfterWriting(w, m), true)
  {
    var p := Current(w, w.work.original);
    SettledTables(w.a, w.work.original, AfterWriting(w, m), p);
    if p in w.due {
      assert Secure(w, m, p, true) && DueAt(w, p);
      WriteProjects(w, m);
      NewEnough(w, m, p, true);
      CalmIsNotUndone(w, m, p);
    }
    forall q | q in w.due && q != p ensures Secure(AfterWrite(w), AfterWriting(w, m), q, true) {
      WriteKeepsOthers(w, m, q, true);
    }
  }

  // ----- The head of the queue is done -----

  lemma BroughtPopped(queue: seq<Op>, work: Work, p: Path, since: nat, calm: bool)
    requires queue != [] && (queue[0].Flush? ==> queue[0].outstanding == {}) && Brought(queue, work, p, since, calm)
    ensures Brought(queue[1..], Idle, p, since, calm)
  {
    var i, o :| Brings(queue, work, i, o, p, since, calm);
    assert i > 0 && queue[1..][i - 1..] == queue[i..];
    assert Brings(queue[1..], Idle, i - 1, o, p, since, calm);
  }

  /** The head goes, and the files are as it was to leave them. */
  lemma PopKeepsDisk(w: World, v: World, m: map<Path, nat>, n: map<Path, nat>, calm: bool)
    requires DiskOK(w, m, calm) && w.a.queue != [] && (w.a.queue[0].Flush? ==> w.a.queue[0].outstanding == {})
    requires v.a.queue == w.a.queue[1..] && v.work.Idle? && v.due == w.due && v.a.pending == w.a.pending
    requires n == StepTable(m, w.a.queue[0])
    ensures DiskOK(v, n, calm)
  {
    forall p | p in v.due ensures Secure(v, n, p, calm) {
      assert Secure(w, m, p, calm);
      if Brought(w.a.queue, w.work, p, w.due[p], calm) {
        BroughtPopped(w.a.queue, w.work, p, w.due[p], calm);
      }
    }
  }

  /** Every document under the target that is not pending has a new enough file there already. */
  predicate TargetsStored(w: World, m: map<Path, nat>, r: Redirect) {
    forall p :: p in w.due && p !in w.a.pending && SameOrChild(p, r.to) ==> p in m && m[p] >= w.due[p]
  }

  /**
   A rename that fails in a root, with nothing queued behind it, loses no document exactly if there was nothing to move,
   or the files under its target are new enough as they are.
   */
  lemma FailedRenameIff(w: World, v: World, m: map<Path, nat>, r: Redirect)
    requires DiskOK(w, m, false) && w.a.queue == [Rename(r)]
    requires v.a.queue == [] && v.work.Idle? && v.due == w.due && v.a.pending == w.a.pending
    ensures DiskOK(v, m, false) <==> !Holds(m, r.from) || TargetsStored(w, m, r)
  {
    forall p | p in w.due ensures Secure(v, m, p, false) <==> p in w.a.pending || (p in m && m[p] >= w.due[p]) {
      assert Projected(m, []) == m;
    }
    assert w.a.queue[1..] == [];
    forall p | p in w.due && p !in w.a.pending && (!Holds(m, r.from) || !SameOrChild(p, r.to))
      ensures p in m && m[p] >= w.due[p]
    {
      assert Secure(w, m, p, false) && Stored(m, w.a.queue, p, w.due[p]);
      assert Projected(m, w.a.queue) == Projected(DiskMoved(m, r), []) == DiskMoved(m, r);
      TableKeys(m, r, p);
    }
    if DiskOK(v, m, false) {
      forall p | p in w.due && p !in w.a.pending ensures p in m && m[p] >= w.due[p] {
        assert Secure(v, m, p, false);
      }
    }
  }

  /** One file more, written under a current name with content that is new enough for its document. */
  lemma ExtraFileKeepsDisk(w: World, m: map<Path, nat>, p: Path, time: nat, calm: bool)
    requires DiskOK(w, m, calm) && forall r :: r in Renames(w.a.queue) ==> !SameOrChild(p, r.from)
    requires p in w.due ==> (
               w.due[p] <= time || p in w.a.pending || Brought(w.a.queue, w.work, p, w.due[p], calm))
    ensures DiskOK(w, m[p := time], calm)
  {
    ProjectedWritten(m, w.a.queue, p, time);
    forall q | q in w.due ensures Secure(w, m[p := time], q, calm) {
      assert Secure(w, m, q, calm);
    }
  }

  lemma FinishMirrorKeepsDisk(w: World, v: World, m: map<Path, nat>, wrote: bool, calm: bool)
    requires Inv(w) && DiskOK(w, m, calm) && w.a.queue != [] && w.a.queue[0].Mirror? && MirrorAt(w, 0, calm)
    requires v.a.queue == w.a.queue[1..] && v.work.Idle? && v.due == w.due && v.a.pending == w.a.pending
    ensures DiskOK(v, if wrote then m[Current(w, w.a.queue[0].path) := w.a.queue[0].version] else m, calm)
  {
    PopKeepsDisk(w, v, m, m, calm);
    if wrote {
      var p := Current(w, w.a.queue[0].path);
      ResolvedIsSettled(w.a.redirects, w.a.queue[0].path);
      assert [] + Renames(w.a.queue[1..]) == Renames(w.a.queue[1..]);
      ExtraFileKeepsDisk(v, m, p, w.a.queue[0].version, calm);
    }
  }

  lemma BroughtFailed(w: World, p: Path, since: nat, calm: bool)
    requires QueueOK(w) && HeadFlush(w) && Brought(w.a.queue, w.work, p, since, calm)
    ensures (exists o :: o in w.a.queue[0].outstanding && Current(w, o) == p)
            || Brought(w.a.queue[1..], Idle, p, since, calm)
  {
    var i, o :| Brings(w.a.queue, w.work, i, o, p, since, calm);
    assert w.a.queue[0..] == w.a.queue;
    if i > 0 {
      assert w.a.queue[1..][i - 1..] == w.a.queue[i..];
      assert Brings(w.a.queue[1..], Idle, i - 1, o, p, since, calm);
    }
  }

  /** What the failing batch still held is pending, everything else is where it was. */
  lemma FailKeepsDisk(w: World, m: map<Path, nat>, wroteBacking: bool, calm: bool)
    requires Inv(w) && DiskOK(w, m, calm) && Enabled(w, Fail(wroteBacking)) && FailsApart(w, Fail(wroteBacking))
    ensures DiskOK(AfterFail(w, wroteBacking), m, calm)
  {
    var v := AfterFail(w, wroteBacking);
    forall p | p in v.due ensures Secure(v, m, p, calm) {
      assert Secure(w, m, p, calm) && DueAt(w, p);
      if Brought(w.a.queue, w.work, p, w.due[p], calm) {
        BroughtFailed(w, p, w.due[p], calm);
      }
    }
  }

  /** The one file a failing batch may have written to the backing root belongs to a document that is pending again. */
  lemma FailedWriteKeepsDisk(w: World, m: map<Path, nat>, calm: bool)
    requires Inv(w) && DiskOK(w, m, calm) && Enabled(w, Fail(true)) && FailsApart(w, Fail(true))
    ensures DiskOK(AfterFail(w, true), AfterWriting(w, m), calm)
  {
    FailKeepsDisk(w, m, true, calm);
    var o := w.work.original;
    if !IsRemoved(w.a.removed, Current(w, o)) {
      ResolvedIsSettled(w.a.redirects, o);
      assert [] + Renames(w.a.queue[1..]) == Renames(w.a.queue[1..]);
      assert o in AfterFail(w, true).a.pending;
      ExtraFileKeepsDisk(AfterFail(w, true), m, o, w.work.start, calm);
    }
  }

  // ----- Steps and runs -----

  /** A rename or removal either succeeds in a root or finds nothing there. */
  predicate Succeeds(m: map<Path, nat>, root: Path, ok: bool) { ok || !Holds(m, root) }

  /** The operation at the head of the queue does to both roots what it should. */
  predicate HeadSucceeds(w: World, e: Event) {
    match e
    case FinishRename(movedWorking, movedBacking) =>
      w.a.queue != [] && w.a.queue[0].Rename? ==>
        (var from := w.a.queue[0].redirect.from;
         Succeeds(w.working, from, movedWorking) && Succeeds(w.backing, from, movedBacking))
    case FinishRemove(ok) =>
      w.a.queue != [] && w.a.queue[0].Remove? ==>
        Succeeds(w.working, w.a.queue[0].path, ok) && Succeeds(w.backing, w.a.queue[0].path, ok)
    case _ => true
  }

  /**
   No write is undone by what is queued behind it, queued renames and removals succeed, and no batch fails while
   renamed.
   */
  ghost predicate Harmless(w: World, e: Event)
    requires Enabled(w, e)
  {
    HeadSucceeds(w, e) && FailsApart(w, e) && (e.Write? ==> LeavesStored(w, w.working) && LeavesStored(w, w.backing))
  }

  /** The condition a caller can see to: no rename is issued while a batch still holds an unwritten path in its tree. */
  ghost predicate Calm(w: World, e: Event)
    requires Enabled(w, e)
  {
    HeadSucceeds(w, e) && FailsApart(w, e) && (e.IssueRename? ==> NoneHeld(w.a.queue, e.r))
  }

  ghost predicate RootsOK(w: World, calm: bool) {
    && DiskOK(w, w.working, calm) && DiskOK(w, w.backing, calm)
    && TimesOK(w, w.working) && TimesOK(w, w.backing) && MirrorsOK(w, calm)
  }

  lemma MovedTimes(m: map<Path, nat>, r: Redirect, limit: nat)
    requires forall p :: p in m ==> m[p] <= limit
    ensures forall p :: p in DiskMoved(m, r) ==> DiskMoved(m, r)[p] <= limit
  {
    forall p | p in DiskMoved(m, r) ensures DiskMoved(m, r)[p] <= limit {
      if Holds(m, r.from) {
        FromOrigin(m, r, p);
      }
    }
  }

  predicate IsCall(e: Event) { e.Schedule? || e.IssueFlush? || e.IssueRemove? || e.IssueRename? || e.IssueMirror? }

  predicate IsWork(e: Event) { e.Pick? || e.SerializeAgain? || e.Write? || e.Fail? }

  lemma CallKeepsTimes(w: World, e: Event, m: map<Path, nat>)
    requires TimesOK(w, m) && Enabled(w, e) && IsCall(e)
    ensures TimesOK(Effect(w, e), m) && Effect(w, e).working == w.working && Effect(w, e).backing == w.backing
  {
  }

  /** The thread puts its content down, in some root or nowhere. */
  lemma WrittenTimes(w: World, v: World, m: map<Path, nat>, n: map<Path, nat>, p: Path)
    requires QueueOK(w) && TimesOK(w, m) && w.work.Serializing? && v.work.Idle? && v.now == w.now
    requires n == m || n == m[p := w.work.start]
    ensures TimesOK(v, n)
  {
  }

  lemma WorkKeepsTimes(w: World, e: Event)
    requires QueueOK(w) && TimesOK(w, w.working) && TimesOK(w, w.backing) && Enabled(w, e) && IsWork(e)
    ensures TimesOK(Effect(w, e), Effect(w, e).working) && TimesOK(Effect(w, e), Effect(w, e).backing)
  {
    match e
    case Pick(o) =>
    case SerializeAgain =>
    case Write => WriteKeepsTimes(w);
    case Fail(wroteBacking) => FailKeepsTimes(w, wroteBacking);
  }

  lemma WriteKeepsTimes(w: World)
    requires QueueOK(w) && TimesOK(w, w.working) && TimesOK(w, w.backing) && HeadFlush(w) && w.work.Serializing?
    ensures TimesOK(AfterWrite(w), AfterWrite(w).working) && TimesOK(AfterWrite(w), AfterWrite(w).backing)
  {
    var p := Current(w, w.work.original);
    WrittenTimes(w, AfterWrite(w), w.working, AfterWrite(w).working, p);
    WrittenTimes(w, AfterWrite(w), w.backing, AfterWrite(w).backing, p);
  }

  lemma FailKeepsTimes(w: World, wroteBacking: bool)
    requires QueueOK(w) && TimesOK(w, w.working) && TimesOK(w, w.backing) && HeadFlush(w) && w.work.Serializing?
    ensures var v := AfterFail(w, wroteBacking); TimesOK(v, v.working) && TimesOK(v, v.backing)
  {
    var v := AfterFail(w, wroteBacking);
    WrittenTimes(w, v, w.working, v.working, Current(w, w.work.original));
    WrittenTimes(w, v, w.backing, v.backing, Current(w, w.work.original));
  }

  lemma FinishRenameKeepsTimes(w: World, movedWorking: bool, movedBacking: bool)
    requires QueueOK(w) && TimesOK(w, w.working) && TimesOK(w, w.backing) && w.a.queue != [] && w.a.queue[0].Rename?
    ensures var v := AfterFinishRename(w, movedWorking, movedBacking); TimesOK(v, v.working) && TimesOK(v, v.backing)
  {
    MovedTimes(w.working, w.a.queue[0].redirect, w.now);
    MovedTimes(w.backing, w.a.queue[0].redirect, w.now);
  }

  lemma FinishMirrorKeepsTimes(w: World, wroteBacking: bool, wroteWorking: bool)
    requires QueueOK(w) && TimesOK(w, w.working) && TimesOK(w, w.backing) && w.a.queue != [] && w.a.queue[0].Mirror?
    requires w.a.queue[0].version <= w.now
    ensures var v := AfterFinishMirror(w, wroteBacking, wroteWorking); TimesOK(v, v.working) && TimesOK(v, v.backing)
  {
  }

  lemma EndKeepsTimes(w: World, e: Event)
    requires QueueOK(w) && TimesOK(w, w.working) && TimesOK(w, w.backing) && Enabled(w, e) && !IsCall(e) && !IsWork(e)
    requires e.FinishMirror? ==> w.a.queue[0].version <= w.now
    ensures TimesOK(Effect(w, e), Effect(w, e).working) && TimesOK(Effect(w, e), Effect(w, e).backing)
  {
    match e
    case FinishFlush =>
    case FinishRename(movedWorking, movedBacking) => FinishRenameKeepsTimes(w, movedWorking, movedBacking);
    case FinishRemove(ok) =>
    case FinishMirror(wroteBacking, wroteWorking) => FinishMirrorKeepsTimes(w, wroteBacking, wroteWorking);
  }

  lemma EffectKeepsTimes(w: World, e: Event)
    requires QueueOK(w) && TimesOK(w, w.working) && TimesOK(w, w.backing) && Enabled(w, e)
    requires e.FinishMirror? ==> w.a.queue[0].version <= w.now
    ensures TimesOK(Effect(w, e), Effect(w, e).working) && TimesOK(Effect(w, e), Effect(w, e).backing)
  {
    if IsCall(e) {
      CallKeepsTimes(w, e, w.working);
      CallKeepsTimes(w, e, w.backing);
    } else if IsWork(e) {
      WorkKeepsTimes(w, e);
    } else {
      EndKeepsTimes(w, e);
    }
  }

  // ----- Mirrored files in the queue -----

  /** Nothing changes for them but what is pending, which can only become more, and the time. */
  lemma MirrorsLater(w: World, v: World, calm: bool)
    requires MirrorsOK(w, calm) && v.due == w.due && w.a.pending <= v.a.pending && w.now <= v.now
    requires |v.a.queue| == |w.a.queue| && forall i :: 0 < i < |w.a.queue| ==> v.a.queue[i] == w.a.queue[i]
    requires w.a.queue != [] ==> (v.a.queue[0] == w.a.queue[0] || !v.a.queue[0].Mirror?)
    ensures MirrorsOK(v, calm)
  {
    forall i | 0 <= i < |v.a.queue| && v.a.queue[i].Mirror? ensures MirrorAt(v, i, calm) {
      assert v.a.queue[i + 1..] == w.a.queue[i + 1..];
      assert MirrorAt(w, i, calm);
    }
  }

  lemma MirrorsPopped(w: World, v: World, calm: bool)
    requires MirrorsOK(w, calm) && v.due == w.due && w.a.pending <= v.a.pending && w.now <= v.now
    requires w.a.queue != [] && v.a.queue == w.a.queue[1..]
    ensures MirrorsOK(v, calm)
  {
    forall i | 0 <= i < |v.a.queue| && v.a.queue[i].Mirror? ensures MirrorAt(v, i, calm) {
      assert v.a.queue[i + 1..] == w.a.queue[i + 2..];
      assert MirrorAt(w, i + 1, calm);
    }
  }

  lemma MirrorsScheduled(w: World, p: Path, calm: bool)
    requires MirrorsOK(w, calm)
    ensures MirrorsOK(AfterSchedule(w, p), calm)
  {
    var v := AfterSchedule(w, p);
    forall i | 0 <= i < |v.a.queue| && v.a.queue[i].Mirror? ensures MirrorAt(v, i, calm) {
      assert MirrorAt(w, i, calm);
    }
  }

  /** An operation appended, as in `AppendKeepsDisk`. */
  lemma MirrorsAppended(w: World, v: World, op: Op, calm: bool)
    requires DueOK(w) && MirrorsOK(w, calm) && v.a.queue == w.a.queue + [op] && v.now == w.now && !op.Rename?
    requires forall p :: p in v.due ==> p in w.due && v.due[p] == w.due[p] && (op.Remove? ==> !SameOrChild(p, op.path))
    requires forall p :: p in v.due && p in w.a.pending ==> p in v.a.pending || (op.Flush? && p in op.outstanding)
    requires op.Mirror? ==> op.version == w.now
    ensures MirrorsOK(v, calm)
  {
    forall i | 0 <= i < |v.a.queue| && v.a.queue[i].Mirror? ensures MirrorAt(v, i, calm) {
      if i < |w.a.queue| {
        assert MirrorAt(w, i, calm);
        assert v.a.queue[i + 1..] == w.a.queue[i + 1..] + [op];
        forall p | p in v.due && v.due[p] > v.a.queue[i].version && p !in v.a.pending
          ensures Brought(v.a.queue[i + 1..], Idle, p, v.due[p], calm)
        {
          AppendedAwaited(w.a.queue[i + 1..], w.a.pending, op, p, v.due[p], calm);
        }
      } else {
        assert forall p :: p in v.due ==> DueAt(w, p);
      }
    }
  }

  lemma AppendedAwaited(queue: seq<Op>, pending: set<Path>, op: Op, p: Path, since: nat, calm: bool)
    requires p in pending || Brought(queue, Idle, p, since, calm)
    requires !op.Rename? && (op.Remove? ==> !SameOrChild(p, op.path))
    ensures (p in pending ==> op.Flush? && p in op.outstanding) ==> Brought(queue + [op], Idle, p, since, calm)
  {
    if Brought(queue, Idle, p, since, calm) {
      BroughtAppended(queue, Idle, p, since, op, calm);
    } else if op.Flush? && p in op.outstanding {
      assert (queue + [op])[|queue|..] == [op] && [op][1..] == [];
      assert Brings(queue + [op], Idle, |queue|, p, p, since, calm);
    }
  }

  lemma NoneHeldBehind(queue: seq<Op>, r: Redirect, n: nat)
    requires NoneHeld(queue, r) && n <= |queue|
    ensures NoneHeld(queue[n..], r)
  {
    forall i, o | 0 <= i < |queue[n..]| && queue[n..][i].Flush? && o in queue[n..][i].outstanding
      ensures !SameOrChild(Replay(Renames(queue[n..][i..]), o), r.from)
    {
      assert queue[n..][i..] == queue[n + i..];
    }
  }

  lemma MirrorsRenamed(w: World, r: Redirect, calm: bool)
    requires MirrorsOK(w, calm) && !Comparable(r.from, r.to) && (calm ==> NoneHeld(w.a.queue, r))
    ensures MirrorsOK(AfterRename(w, r), calm)
  {
    var v := AfterRename(w, r);
    forall i | 0 <= i < |v.a.queue| && v.a.queue[i].Mirror? ensures MirrorAt(v, i, calm) {
      var rest := w.a.queue[i + 1..];
      assert v.a.queue[i + 1..] == rest + [Rename(r)] && MirrorAt(w, i, calm);
      if calm {
        NoneHeldBehind(w.a.queue, r, i + 1);
      }
      forall q | q in v.due && v.due[q] > v.a.queue[i].version && q !in v.a.pending
        ensures Brought(rest + [Rename(r)], Idle, q, v.due[q], calm)
      {
        FromOrigin(w.due, r, q);
        var p := Origin(q, r);
        assert p in w.a.pending ==> q in v.a.pending;
        CalmIsNotMoved(rest, Idle, p, w.due[p], r, q, calm);
        BroughtAppended(rest, Idle, p, w.due[p], Rename(r), calm);
      }
    }
  }

  lemma CallKeepsMirrors(w: World, e: Event, calm: bool)
    requires Inv(w) && MirrorsOK(w, calm) && Enabled(w, e) && (calm ==> Calm(w, e)) && IsCall(e)
    ensures MirrorsOK(Effect(w, e), calm)
  {
    match e
    case Schedule(p) => MirrorsScheduled(w, p, calm);
    case IssueFlush => MirrorsAppended(w, AfterFlush(w), Flush(w.a.pending), calm);
    case IssueRemove(p) => MirrorsAppended(w, AfterRemove(w, p), Remove(p), calm);
    case IssueRename(r) =>
      assert (w.a.redirects + [r])[|w.a.redirects|] == r;
      MirrorsRenamed(w, r, calm);
    case IssueMirror(p) => MirrorsAppended(w, AfterMirror(w, p), Mirror(p, w.now), calm);
  }

  lemma PickKeepsMirrors(w: World, o: Path, calm: bool)
    requires MirrorsOK(w, calm) && HeadFlush(w)
    ensures MirrorsOK(AfterPick(w, o), calm)
  {
    MirrorsLater(w, AfterPick(w, o), calm);
  }

  lemma WriteKeepsMirrors(w: World, calm: bool)
    requires MirrorsOK(w, calm) && HeadFlush(w) && w.work.Serializing?
    ensures MirrorsOK(AfterWrite(w), calm)
  {
    MirrorsLater(w, AfterWrite(w), calm);
  }

  lemma FailKeepsMirrors(w: World, wroteBacking: bool, calm: bool)
    requires MirrorsOK(w, calm) && HeadFlush(w) && w.work.Serializing?
    ensures MirrorsOK(AfterFail(w, wroteBacking), calm)
  {
    MirrorsPopped(w, AfterFail(w, wroteBacking), calm);
  }

  lemma AgainKeepsMirrors(w: World, calm: bool)
    requires MirrorsOK(w, calm) && w.work.Serializing?
    ensures MirrorsOK(AfterSerializeAgain(w), calm)
  {
    MirrorsLater(w, AfterSerializeAgain(w), calm);
  }

  lemma WorkKeepsMirrors(w: World, e: Event, calm: bool)
    requires MirrorsOK(w, calm) && Enabled(w, e) && IsWork(e)
    ensures MirrorsOK(Effect(w, e), calm)
  {
    match e
    case Pick(o) => PickKeepsMirrors(w, o, calm);
    case SerializeAgain => AgainKeepsMirrors(w, calm);
    case Write => WriteKeepsMirrors(w, calm);
    case Fail(wroteBacking) => FailKeepsMirrors(w, wroteBacking, calm);
  }

  lemma EndKeepsMirrors(w: World, e: Event, calm: bool)
    requires MirrorsOK(w, calm) && Enabled(w, e) && !IsCall(e) && !IsWork(e)
    ensures MirrorsOK(Effect(w, e), calm)
  {
    MirrorsPopped(w, Effect(w, e), calm);
  }

  lemma EffectKeepsMirrors(w: World, e: Event, calm: bool)
    requires Inv(w) && MirrorsOK(w, calm) && Enabled(w, e) && (calm ==> Calm(w, e))
    ensures MirrorsOK(Effect(w, e), calm)
  {
    if IsCall(e) {
      CallKeepsMirrors(w, e, calm);
    } else if IsWork(e) {
      WorkKeepsMirrors(w, e, calm);
    } else {
      EndKeepsMirrors(w, e, calm);
    }
  }

  // ----- What the steps keep -----

  lemma CallKeepsDisk(w: World, e: Event, m: map<Path, nat>, calm: bool)
    requires Inv(w) && DiskOK(w, m, calm) && Enabled(w, e) && (calm ==> Calm(w, e))
    requires IsCall(e)
    ensures DiskOK(Effect(w, e), m, calm)
  {
    match e
    case Schedule(p) => ScheduleKeepsDisk(w, m, p, calm);
    case IssueFlush => AppendKeepsDisk(w, AfterFlush(w), m, Flush(w.a.pending), calm);
    case IssueRemove(p) => AppendKeepsDisk(w, AfterRemove(w, p), m, Remove(p), calm);
    case IssueRename(r) => RenameCallKeepsDisk(w, m, r, calm);
    case IssueMirror(p) => AppendKeepsDisk(w, AfterMirror(w, p), m, Mirror(p, w.now), calm);
  }

  lemma RenameCallKeepsDisk(w: World, m: map<Path, nat>, r: Redirect, calm: bool)
    requires DiskOK(w, m, calm) && Enabled(w, IssueRename(r)) && (calm ==> NoneHeld(w.a.queue, r))
    ensures DiskOK(AfterRename(w, r), m, calm)
  {
    assert (w.a.redirects + [r])[|w.a.redirects|] == r;
    RenameKeepsDisk(w, m, r, calm);
  }

  lemma WorkKeepsDisk(w: World, e: Event, calm: bool)
    requires Inv(w) && RootsOK(w, calm) && Enabled(w, e) && (if calm then Calm(w, e) else Harmless(w, e))
    requires IsWork(e)
    ensures DiskOK(Effect(w, e), Effect(w, e).working, calm) && DiskOK(Effect(w, e), Effect(w, e).backing, calm)
  {
    match e
    case Pick(o) => PickKeepsDisk(w, w.working, o, calm); PickKeepsDisk(w, w.backing, o, calm);
    case SerializeAgain =>
      RestartKeepsDisk(w, AfterSerializeAgain(w), w.working, calm);
      RestartKeepsDisk(w, AfterSerializeAgain(w), w.backing, calm);
    case Write => WriteKeepsRoots(w, calm);
    case Fail(wroteBacking) => FailKeepsRoots(w, wroteBacking, calm);
  }

  lemma FailKeepsRoots(w: World, wroteBacking: bool, calm: bool)
    requires Inv(w) && RootsOK(w, calm) && Enabled(w, Fail(wroteBacking)) && FailsApart(w, Fail(wroteBacking))
    ensures var v := AfterFail(w, wroteBacking); DiskOK(v, v.working, calm) && DiskOK(v, v.backing, calm)
  {
    FailKeepsDisk(w, w.working, wroteBacking, calm);
    FailKeepsDisk(w, w.backing, wroteBacking, calm);
    if wroteBacking {
      FailedWriteKeepsDisk(w, w.backing, calm);
    }
  }

  lemma WriteKeepsRoots(w: World, calm: bool)
    requires Inv(w) && RootsOK(w, calm) && Enabled(w, Write) && (if calm then true else Harmless(w, Write))
    ensures DiskOK(AfterWrite(w), AfterWrite(w).working, calm) && DiskOK(AfterWrite(w), AfterWrite(w).backing, calm)
  {
    if calm {
      CalmWriteKeepsDisk(w, w.working);
      CalmWriteKeepsDisk(w, w.backing);
    } else {
      WriteKeepsDiskIff(w, w.working);
      WriteKeepsDiskIff(w, w.backing);
    }
  }

  lemma EndKeepsDisk(w: World, e: Event, calm: bool)
    requires Inv(w) && RootsOK(w, calm) && Enabled(w, e) && HeadSucceeds(w, e)
    requires !IsCall(e) && !IsWork(e)
    ensures DiskOK(Effect(w, e), Effect(w, e).working, calm) && DiskOK(Effect(w, e), Effect(w, e).backing, calm)
  {
    var v := Effect(w, e);
    if e.FinishMirror? {
      assert MirrorAt(w, 0, calm);
      var written := !IsRemoved(w.a.removed, Current(w, w.a.queue[0].path));
      FinishMirrorKeepsDisk(w, v, w.working, e.wroteWorking && written, calm);
      FinishMirrorKeepsDisk(w, v, w.backing, e.wroteBacking && written, calm);
    } else {
      EndsAsQueued(w, e);
      PopKeepsDisk(w, v, w.working, v.working, calm);
      PopKeepsDisk(w, v, w.backing, v.backing, calm);
    }
  }

  lemma EndsAsQueued(w: World, e: Event)
    requires Enabled(w, e) && HeadSucceeds(w, e) && (e.FinishFlush? || e.FinishRename? || e.FinishRemove?)
    ensures var v := Effect(w, e);
      v.working == StepTable(w.working, w.a.queue[0]) && v.backing == StepTable(w.backing, w.a.queue[0])
  {
    if e.FinishRemove? && !e.ok {
      WithoutNothing(w.working, w.a.queue[0].path);
      WithoutNothing(w.backing, w.a.queue[0].path);
    }
  }

  lemma WithoutNothing(m: map<Path, nat>, root: Path)
    requires !Holds(m, root)
    ensures Without(m, root) == m
  {
  }

  lemma StepKeepsDisk(w: World, e: Event, calm: bool)
    requires Inv(w) && RootsOK(w, calm) && Enabled(w, e) && (if calm then Calm(w, e) else Harmless(w, e))
    ensures RootsOK(Next(w, e), calm)
  {
    assert e.FinishMirror? ==> MirrorAt(w, 0, calm);
    EffectKeepsTimes(w, e);
    EffectKeepsMirrors(w, e, calm);
    if IsCall(e) {
      CallKeepsDisk(w, e, w.working, calm);
      CallKeepsDisk(w, e, w.backing, calm);
    } else if IsWork(e) {
      WorkKeepsDisk(w, e, calm);
    } else {
      EndKeepsDisk(w, e, calm);
    }
    TimeKeepsDisk(Effect(w, e), calm);
  }

  lemma TimeKeepsDisk(w: World, calm: bool)
    requires RootsOK(w, calm)
    ensures RootsOK(Ticked(w), calm)
  {
    var v := Ticked(w);
    forall p | p in v.due ensures Secure(v, v.working, p, calm) && Secure(v, v.backing, p, calm) {
      assert Secure(w, w.working, p, calm) && Secure(w, w.backing, p, calm);
    }
    MirrorsLater(w, v, calm);
  }

  ghost predicate IsHarmlessRun(w: World, events: seq<Event>)
    requires IsRun(w, events)
    decreases |events|
  {
    events == [] || (Harmless(w, events[0]) && IsHarmlessRun(Next(w, events[0]), events[1..]))
  }

  ghost predicate IsCalmRun(w: World, events: seq<Event>)
    requires IsRun(w, events)
    decreases |events|
  {
    events == [] || (Calm(w, events[0]) && IsCalmRun(Next(w, events[0]), events[1..]))
  }

  lemma {:induction false} RunKeepsDisk(w: World, events: seq<Event>, calm: bool)
    requires Inv(w) && RootsOK(w, calm) && IsRun(w, events)
    requires if calm then IsCalmRun(w, events) else IsHarmlessRun(w, events)
    ensures RootsOK(Ran(w, events), calm)
    decreases |events|
  {
    if events != [] {
      StepKeepsDisk(w, events[0], calm);
      NextKeeps(w, events[0]);
      RunKeepsDisk(Next(w, events[0]), events[1..], calm);
    }
  }

  // ----- Main results -----

  /** Both roots hold the document with content serialized no earlier than it was last scheduled. */
  predicate IsSaved(w: World, p: Path)
    requires p in w.due
  {
    p in w.working && w.working[p] >= w.due[p] && p in w.backing && w.backing[p] >= w.due[p]
  }

  /**
   In every run in which no write is undone by what is queued behind it and queued renames and removals succeed, all
   documents scheduled and not removed since are saved under their current names once the queue has drained.
   */
  lemma DrainedIsSaved(events: seq<Event>, p: Path)
    requires IsRun(Start, events) && IsHarmlessRun(Start, events) && p in Ran(Start, events).due
    requires Ran(Start, events).a.queue == [] && Ran(Start, events).a.pending == {}
    ensures IsSaved(Ran(Start, events), p)
  {
    RunKeepsDisk(Start, events, false);
    var w := Ran(Start, events);
    assert Secure(w, w.working, p, false) && Secure(w, w.backing, p, false);
  }

  /**
   The same when callers rename nothing that a queued or running batch still has to write; this keeps every write from
   being undone.
   */
  lemma CalmRunsAreSaved(events: seq<Event>, p: Path)
    requires IsRun(Start, events) && IsCalmRun(Start, events) && p in Ran(Start, events).due
    requires Ran(Start, events).a.queue == [] && Ran(Start, events).a.pending == {}
    ensures IsSaved(Ran(Start, events), p)
  {
    RunKeepsDisk(Start, events, true);
    var w := Ran(Start, events);
    assert Secure(w, w.working, p, true) && Secure(w, w.backing, p, true);
  }
}

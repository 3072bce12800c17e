/**
 What becomes of removed paths in whole runs of the storage adapter. A path below a removed root stays gone until it is
 scheduled or mirrored by name, a rename gives something to be written its name or moves a file there, or a batch that
 still held it fails after the mark of its removal was cleared; calls for its neighbours do not matter.
 */
module StorageRemoval {
  import opened ProjectPaths
  import opened StorageAdapter
  import opened StorageRedirects
  import opened StorageRun

  /** The root `g` was removed, and nothing since may have put a file at `q` again. */
  predicate IsGone(gone: map<Path, set<Path>>, g: Path, q: Path) { g in gone && SameOrChild(q, g) && q !in gone[g] }

  predicate WritesAt(queue: seq<Op>, i: int, o: Path, q: Path) {
    0 <= i < |queue| && o in Writes(queue[i]) && Replay(Renames(queue[i..]), o) == q
  }

  /** No queued operation writes under the name `q`. */
  ghost predicate Barren(queue: seq<Op>, q: Path) { forall i, o :: !WritesAt(queue, i, o, q) }

  ghost predicate RemovalQueued(queue: seq<Op>, g: Path, q: Path, i: int) {
    0 <= i < |queue| && queue[i] == Remove(g) && Barren(queue[i + 1..], q)
  }

  ghost predicate RemovalAhead(queue: seq<Op>, g: Path, q: Path) { exists i :: RemovalQueued(queue, g, q, i) }

  ghost predicate Vanished(w: World, q: Path) { q !in w.working && q !in w.backing && Barren(w.a.queue, q) }

  ghost predicate GoneAt(w: World, g: Path, q: Path) {
    q !in w.a.pending && (RemovalAhead(w.a.queue, g, q) || Vanished(w, q))
  }

  ghost predicate GoneOK(w: World) {
    forall g, q :: IsGone(w.gone, g, q) ==> GoneAt(w, g, q)
  }

  // ----- Names -----

  lemma BarrenSuffix(queue: seq<Op>, q: Path, n: nat)
    requires Barren(queue, q) && n <= |queue|
    ensures Barren(queue[n..], q)
  {
    forall i, o ensures !WritesAt(queue[n..], i, o, q) {
      if 0 <= i < |queue| - n {
        assert queue[n..][i..] == queue[n + i..];
        assert !WritesAt(queue, n + i, o, q);
      }
    }
  }

  /** A batch with less to write writes under no other names. */
  lemma BarrenSettled(a: Adapter, o: Path, q: Path)
    requires a.queue != [] && a.queue[0].Flush? && Barren(a.queue, q)
    ensures Barren(Settle(a, o).queue, q)
  {
    forall i, c ensures !WritesAt(Settle(a, o).queue, i, c, q) {
      if 0 <= i < |a.queue| {
        SettleKeepsRenames(a.queue, a.queue[0].outstanding - {o}, i);
        assert !WritesAt(a.queue, i, c, q);
      }
    }
  }

  /** What an operation at the head of the queue writes, it writes elsewhere. */
  lemma HeadWritesElsewhere(w: World, o: Path, q: Path)
    requires QueueOK(w) && w.a.queue != [] && o in Writes(w.a.queue[0]) && Barren(w.a.queue, q)
    ensures Current(w, o) != q
  {
    assert w.a.queue[0..] == w.a.queue;
    assert !WritesAt(w.a.queue, 0, o, q);
  }

  lemma NameListed(queue: seq<Op>, i: nat, o: Path)
    requires i < |queue| && o in Writes(queue[i])
    ensures Replay(Renames(queue[i..]), o) in Names(queue)
  {
  }

  // ----- The queue grows at the end -----

  /** An operation that gives nothing the name `q`. */
  ghost predicate Spares(queue: seq<Op>, op: Op, q: Path) {
    q !in Writes(op) && (op.Rename? ==> forall n :: n in Names(queue) && SameOrChild(n, op.redirect.from) ==> (
                                                      Moved(n, op.redirect) != q))
  }

  lemma BarrenAppended(queue: seq<Op>, op: Op, q: Path)
    requires Barren(queue, q) && Spares(queue, op, q)
    ensures Barren(queue + [op], q)
  {
    forall i, o ensures !WritesAt(queue + [op], i, o, q) {
      if 0 <= i < |queue| && o in Writes(queue[i]) {
        AppendedName(queue, op, i, o);
        NameListed(queue, i, o);
        assert !WritesAt(queue, i, o, q);
      } else if i == |queue| {
        assert (queue + [op])[i..] == [op];
        assert Writes(op) != {} ==> [op][1..] == [] && Renames([op]) == [];
      }
    }
  }

  lemma AppendedName(queue: seq<Op>, op: Op, i: nat, o: Path)
    requires i < |queue|
    ensures Replay(Renames((queue + [op])[i..]), o) == MovedBy(Replay(Renames(queue[i..]), o), op)
  {
    RenamesAppended(queue, i, op);
    if op.Rename? {
      ReplayAppended(Renames(queue[i..]), op.redirect, o);
    } else {
      assert Renames(queue[i..]) + [] == Renames(queue[i..]);
    }
  }

  /** Later operations write under fewer names. */
  lemma SparesSuffix(queue: seq<Op>, op: Op, q: Path, n: nat)
    requires Spares(queue, op, q) && n <= |queue|
    ensures Spares(queue[n..], op, q)
  {
    forall name | name in Names(queue[n..]) ensures name in Names(queue) {
      var i, o :| 0 <= i < |queue[n..]| && o in Writes(queue[n..][i]) && name == Replay(Renames(queue[n..][i..]), o);
      assert queue[n..][i..] == queue[n + i..];
      NameListed(queue, n + i, o);
    }
  }

  lemma GoneAppended(w: World, v: World, g: Path, q: Path, op: Op)
    requires GoneAt(w, g, q) && v.a.queue == w.a.queue + [op] && v.working == w.working && v.backing == w.backing
    requires q !in v.a.pending && Spares(w.a.queue, op, q)
    ensures GoneAt(v, g, q)
  {
    if RemovalAhead(w.a.queue, g, q) {
      var i :| RemovalQueued(w.a.queue, g, q, i);
      SparesSuffix(w.a.queue, op, q, i + 1);
      BarrenAppended(w.a.queue[i + 1..], op, q);
      assert v.a.queue[i + 1..] == w.a.queue[i + 1..] + [op];
      assert RemovalQueued(v.a.queue, g, q, i);
    } else {
      BarrenAppended(w.a.queue, op, q);
    }
  }

  lemma ScheduleKeepsGone(w: World, p: Path)
    requires GoneOK(w)
    ensures GoneOK(AfterSchedule(w, p))
  {
    var v := AfterSchedule(w, p);
    forall g, q | IsGone(v.gone, g, q) ensures GoneAt(v, g, q) {
      assert GoneAt(w, g, q) && (Vanished(w, q) ==> Vanished(v, q));
    }
  }

  lemma FlushKeepsGone(w: World)
    requires GoneOK(w)
    ensures GoneOK(AfterFlush(w))
  {
    var v := AfterFlush(w);
    forall g, q | IsGone(v.gone, g, q) ensures GoneAt(v, g, q) {
      assert GoneAt(w, g, q);
      GoneAppended(w, v, g, q, Flush(w.a.pending));
    }
  }

  lemma RemoveKeepsGone(w: World, p: Path)
    requires GoneOK(w)
    ensures GoneOK(AfterRemove(w, p))
  {
    var v := AfterRemove(w, p);
    forall g, q | IsGone(v.gone, g, q) ensures GoneAt(v, g, q) {
      if g == p {
        assert RemovalQueued(v.a.queue, g, q, |w.a.queue|);
      } else {
        assert IsGone(w.gone, g, q) && GoneAt(w, g, q);
        GoneAppended(w, v, g, q, Remove(p));
      }
    }
  }

  /** A rename that gives nothing the name `q`. */
  lemma RenameSpares(a: Adapter, r: Redirect, q: Path)
    requires q !in Renamed(a, r) && q !in a.pending
    ensures Spares(a.queue, Rename(r), q) && q !in RenameIssued(a, r).pending
  {
    forall n | n in a.pending + Names(a.queue) && SameOrChild(n, r.from) ensures Moved(n, r) in Renamed(a, r) {
    }
  }

  lemma RenameKeepsGone(w: World, r: Redirect)
    requires GoneOK(w)
    ensures GoneOK(AfterRename(w, r))
  {
    var v := AfterRename(w, r);
    forall g, q | IsGone(v.gone, g, q) ensures GoneAt(v, g, q) {
      assert GoneAt(w, g, q);
      RenameSpares(w.a, r, q);
      GoneAppended(w, v, g, q, Rename(r));
    }
  }

  lemma MirrorKeepsGone(w: World, p: Path)
    requires GoneOK(w)
    ensures GoneOK(AfterMirror(w, p))
  {
    var v := AfterMirror(w, p);
    forall g, q | IsGone(v.gone, g, q) ensures GoneAt(v, g, q) {
      assert GoneAt(w, g, q);
      GoneAppended(w, v, g, q, Mirror(p, w.now));
    }
  }

  // ----- Work on the head of the queue -----

  /** The head batch has less to write, and the files of the two roots change at most away from `q`. */
  lemma GoneSettled(w: World, v: World, g: Path, q: Path, o: Path)
    requires HeadFlush(w) && GoneAt(w, g, q) && v.a.queue == Settle(w.a, o).queue && v.a.pending == w.a.pending
    requires Vanished(w, q) ==> q !in v.working && q !in v.backing
    ensures GoneAt(v, g, q)
  {
    if RemovalAhead(w.a.queue, g, q) {
      var i :| RemovalQueued(w.a.queue, g, q, i);
      assert v.a.queue[i + 1..] == w.a.queue[i + 1..];
      assert RemovalQueued(v.a.queue, g, q, i);
    } else {
      BarrenSettled(w.a, o, q);
    }
  }

  lemma PickKeepsGone(w: World, o: Path)
    requires GoneOK(w) && HeadFlush(w)
    ensures GoneOK(AfterPick(w, o))
  {
    var v := AfterPick(w, o);
    forall g, q | IsGone(v.gone, g, q) ensures GoneAt(v, g, q) {
      assert GoneAt(w, g, q);
      if IsRemoved(w.a.removed, Current(w, o)) {
        GoneSettled(w, v, g, q, o);
      } else {
        assert Vanished(w, q) ==> Vanished(v, q);
      }
    }
  }

  lemma SerializeAgainKeepsGone(w: World)
    requires GoneOK(w) && w.work.Serializing?
    ensures GoneOK(AfterSerializeAgain(w))
  {
    var v := AfterSerializeAgain(w);
    forall g, q | IsGone(v.gone, g, q) ensures GoneAt(v, g, q) {
      assert GoneAt(w, g, q) && (Vanished(w, q) ==> Vanished(v, q));
    }
  }

  lemma WriteKeepsGone(w: World)
    requires QueueOK(w) && GoneOK(w) && Enabled(w, Write)
    ensures GoneOK(AfterWrite(w))
  {
    var v := AfterWrite(w);
    forall g, q | IsGone(v.gone, g, q) ensures GoneAt(v, g, q) {
      assert GoneAt(w, g, q);
      if Vanished(w, q) {
        HeadWritesElsewhere(w, w.work.original, q);
      }
      GoneSettled(w, v, g, q, w.work.original);
    }
  }

  // ----- The head of the queue is done -----

  lemma GonePopped(w: World, v: World, g: Path, q: Path)
    requires w.a.queue != [] && GoneAt(w, g, q) && v.a.queue == w.a.queue[1..] && q !in v.a.pending
    requires w.a.queue[0] == Remove(g) ==> (q !in v.working && q !in v.backing) || RemovalAhead(v.a.queue, g, q)
    requires Vanished(w, q) ==> (q !in v.working && q !in v.backing) || RemovalAhead(v.a.queue, g, q)
    ensures GoneAt(v, g, q)
  {
    if Vanished(w, q) {
      BarrenSuffix(w.a.queue, q, 1);
    } else if RemovalAhead(w.a.queue, g, q) {
      var i :| RemovalQueued(w.a.queue, g, q, i);
      if i > 0 {
        assert v.a.queue[i - 1 + 1..] == w.a.queue[i + 1..];
        assert RemovalQueued(v.a.queue, g, q, i - 1);
      }
    }
  }

  lemma FinishFlushKeepsGone(w: World)
    requires GoneOK(w) && Enabled(w, FinishFlush)
    ensures GoneOK(w.(a := Popped(w.a)))
  {
    var v := w.(a := Popped(w.a));
    forall g, q | IsGone(v.gone, g, q) ensures GoneAt(v, g, q) {
      assert GoneAt(w, g, q);
      GonePopped(w, v, g, q);
    }
  }

  lemma FailKeepsGone(w: World, wroteBacking: bool)
    requires QueueOK(w) && GoneOK(w) && HeadFlush(w) && w.work.Serializing?
    ensures GoneOK(AfterFail(w, wroteBacking))
  {
    var v := AfterFail(w, wroteBacking);
    forall g, q | IsGone(v.gone, g, q) ensures GoneAt(v, g, q) {
      assert GoneAt(w, g, q);
      if Vanished(w, q) {
        HeadWritesElsewhere(w, w.work.original, q);
      }
      GonePopped(w, v, g, q);
    }
  }

  lemma MovedElsewhere(m: map<Path, nat>, r: Redirect, q: Path, moved: bool)
    requires q !in m && q !in MovedIn(m, r, moved)
    ensures moved ==> q !in DiskMoved(m, r)
  {
    if moved && q in DiskMoved(m, r) && Holds(m, r.from) {
      FromOrigin(m, r, q);
    }
  }

  /** A removal that is still queued stands behind the head. */
  lemma RemovalBehind(queue: seq<Op>, g: Path, q: Path)
    requires queue != [] && Remove(g) in queue[1..] && Barren(queue, q)
    ensures RemovalAhead(queue[1..], g, q)
  {
    var k :| 0 <= k < |queue[1..]| && queue[1..][k] == Remove(g);
    BarrenSuffix(queue, q, k + 2);
    assert queue[1..][k + 1..] == queue[k + 2..];
    assert RemovalQueued(queue[1..], g, q, k);
  }

  lemma FinishRenameKeepsGone(w: World, movedWorking: bool, movedBacking: bool)
    requires GoneOK(w) && w.a.queue != [] && w.a.queue[0].Rename?
    ensures GoneOK(AfterFinishRename(w, movedWorking, movedBacking))
  {
    var r, v := w.a.queue[0].redirect, AfterFinishRename(w, movedWorking, movedBacking);
    forall g, q | IsGone(v.gone, g, q) ensures GoneAt(v, g, q) {
      assert IsGone(w.gone, g, q) && GoneAt(w, g, q);
      if Vanished(w, q) {
        if Remove(g) in w.a.queue[1..] {
          RemovalBehind(w.a.queue, g, q);
        } else {
          MovedElsewhere(w.working, r, q, movedWorking);
          MovedElsewhere(w.backing, r, q, movedBacking);
        }
      }
      GonePopped(w, v, g, q);
    }
  }

  /** Another removal of the same root stands further back. */
  lemma LaterRemoval(queue: seq<Op>, g: Path, q: Path)
    requires RemovalAhead(queue, g, q) && queue[0] == Remove(g) && Remove(g) in queue[1..]
    ensures RemovalAhead(queue[1..], g, q)
  {
    var i :| RemovalQueued(queue, g, q, i);
    if i > 0 {
      assert queue[1..][i - 1 + 1..] == queue[i + 1..];
      assert RemovalQueued(queue[1..], g, q, i - 1);
    } else {
      var k :| 0 <= k < |queue[1..]| && queue[1..][k] == Remove(g);
      assert queue[i + 1..] == queue[1..];
      BarrenSuffix(queue[1..], q, k + 1);
      assert RemovalQueued(queue[1..], g, q, k);
    }
  }

  lemma FinishRemoveKeepsGone(w: World, ok: bool)
    requires GoneOK(w) && w.a.queue != [] && w.a.queue[0].Remove?
    ensures GoneOK(AfterFinishRemove(w, ok))
  {
    var v := AfterFinishRemove(w, ok);
    forall g, q | IsGone(v.gone, g, q) ensures GoneAt(v, g, q) {
      assert IsGone(w.gone, g, q) && GoneAt(w, g, q);
      if w.a.queue[0] == Remove(g) && !ok && !Vanished(w, q) {
        LaterRemoval(w.a.queue, g, q);
      }
      GonePopped(w, v, g, q);
    }
  }

  lemma FinishMirrorKeepsGone(w: World, wroteBacking: bool, wroteWorking: bool)
    requires QueueOK(w) && GoneOK(w) && w.a.queue != [] && w.a.queue[0].Mirror?
    ensures GoneOK(AfterFinishMirror(w, wroteBacking, wroteWorking))
  {
    var v := AfterFinishMirror(w, wroteBacking, wroteWorking);
    forall g, q | IsGone(v.gone, g, q) ensures GoneAt(v, g, q) {
      assert GoneAt(w, g, q);
      if Vanished(w, q) {
        HeadWritesElsewhere(w, w.a.queue[0].path, q);
      }
      GonePopped(w, v, g, q);
    }
  }

  lemma EffectKeepsGone(w: World, e: Event)
    requires QueueOK(w) && GoneOK(w) && Enabled(w, e)
    ensures GoneOK(Effect(w, e))
  {
    match e
    case Schedule(p) => ScheduleKeepsGone(w, p);
    case IssueFlush => FlushKeepsGone(w);
    case IssueRemove(p) => RemoveKeepsGone(w, p);
    case IssueRename(r) => RenameKeepsGone(w, r);
    case IssueMirror(p) => MirrorKeepsGone(w, p);
    case Pick(o) => PickKeepsGone(w, o);
    case SerializeAgain => SerializeAgainKeepsGone(w);
    case Write => WriteKeepsGone(w);
    case Fail(wroteBacking) => FailKeepsGone(w, wroteBacking);
    case FinishFlush => FinishFlushKeepsGone(w);
    case FinishRename(movedWorking, movedBacking) => FinishRenameKeepsGone(w, movedWorking, movedBacking);
    case FinishRemove(ok) => FinishRemoveKeepsGone(w, ok);
    case FinishMirror(wroteBacking, wroteWorking) => FinishMirrorKeepsGone(w, wroteBacking, wroteWorking);
  }

  lemma TimePassesGone(w: World)
    requires GoneOK(w)
    ensures GoneOK(Ticked(w))
  {
    var v := Ticked(w);
    forall g, q | IsGone(v.gone, g, q) ensures GoneAt(v, g, q) {
      assert GoneAt(w, g, q) && (Vanished(w, q) ==> Vanished(v, q));
    }
  }

  lemma {:induction false} RunKeepsGone(w: World, events: seq<Event>)
    requires QueueOK(w) && GoneOK(w) && IsRun(w, events)
    ensures GoneOK(Ran(w, events))
    decreases |events|
  {
    if events != [] {
      EffectKeepsGone(w, events[0]);
      TimePassesGone(Effect(w, events[0]));
      EffectKeepsQueue(w, events[0]);
      RunKeepsGone(Next(w, events[0]), events[1..]);
    }
  }

  // ----- Main results -----

  /**
   Once the queue has drained, a path at or below a removed root is absent from both roots and not pending, unless the
   removal failed or something since may have put that very path back: a call for exactly this path, a rename that gave
   something still to be written its name or moved a file there, or a failed batch that took it up again.
   */
  lemma RemovedStaysAbsent(events: seq<Event>, g: Path, q: Path)
    requires IsRun(Start, events) && IsGone(Ran(Start, events).gone, g, q) && Ran(Start, events).a.queue == []
    ensures var w := Ran(Start, events); q !in w.working && q !in w.backing && q !in w.a.pending
  {
    RunKeepsGone(Start, events);
    assert GoneAt(Ran(Start, events), g, q);
  }

  lemma GoneIsNotPending(w: World, g: Path, q: Path)
    requires GoneOK(w) && IsGone(w.gone, g, q)
    ensures q !in w.a.pending
  {
    assert GoneAt(w, g, q);
  }

  lemma FailureTakesUp(w: World, wroteBacking: bool, g: Path, q: Path)
    requires q !in w.a.pending && IsGone(w.gone, g, q) && HeadFlush(w) && w.work.Serializing?
    ensures var v := AfterFail(w, wroteBacking);
      && (q in v.a.pending <==> q in w.a.queue[0].outstanding && !IsRemoved(w.a.removed, Current(w, q)))
      && (q in v.a.pending <==> !IsGone(v.gone, g, q))
  {
    assert AfterFail(w, wroteBacking).gone[g] == w.gone[g] + TakenUp(w);
  }

  /**
   When a batch fails, a path that was gone comes back exactly if the batch still held it and no removal mark covers the
   name its document has now; otherwise it is as gone as before.
   */
  lemma FailureRevives(events: seq<Event>, wroteBacking: bool, g: Path, q: Path)
    requires IsRun(Start, events) && IsGone(Ran(Start, events).gone, g, q)
    requires HeadFlush(Ran(Start, events)) && Ran(Start, events).work.Serializing?
    ensures var w := Ran(Start, events); var v := AfterFail(w, wroteBacking);
      && (q in v.a.pending <==> q in w.a.queue[0].outstanding && !IsRemoved(w.a.removed, Current(w, q)))
      && (q in v.a.pending <==> !IsGone(v.gone, g, q))
  {
    RunKeepsGone(Start, events);
    GoneIsNotPending(Ran(Start, events), g, q);
    FailureTakesUp(Ran(Start, events), wroteBacking, g, q);
  }

  /** While the mark of its removal stands and it is not being renamed, no failing batch brings a path back. */
  lemma MarkedStaysGone(events: seq<Event>, wroteBacking: bool, g: Path, q: Path)
    requires IsRun(Start, events) && IsGone(Ran(Start, events).gone, g, q) && g in Ran(Start, events).a.removed
    requires Enabled(Ran(Start, events), Fail(wroteBacking)) && Current(Ran(Start, events), q) == q
    ensures IsGone(AfterFail(Ran(Start, events), wroteBacking).gone, g, q)
  {
    FailureRevives(events, wroteBacking, g, q);
  }
}

/**
 The storage adapter left alone: a flush and the work on the queue come to an end, and then everything is saved
 (src/core/persistence.ts).
 */
module StorageProgress {
  import opened ProjectPaths
  import opened StorageAdapter
  import opened StorageDisk
  import opened StorageRedirects
  import opened StorageRun

  function OpLoad(op: Op): nat { if op.Flush? then 1 + 2 * |op.outstanding| else 1 }

  function Load(queue: seq<Op>): nat { if queue == [] then 0 else OpLoad(queue[0]) + Load(queue[1..]) }

  /** The steps left until the queue is empty: a path of a batch is picked and then written. */
  function StepsLeft(w: World): int { Load(w.a.queue) - if w.work.Serializing? then 1 else 0 }

  predicate HasNoRename(queue: seq<Op>) { forall i :: 0 <= i < |queue| ==> !queue[i].Rename? }

  /** A step of the queue that is no failure, unless a rename cannot be done. */
  predicate IsProgress(e: Event) {
    e.Pick? || e.Write? || e.FinishFlush? || e.FinishRename? || e == FinishRemove(true) || e == FinishMirror(true, true)
  }

  /** There is less to do, and nothing new to write. */
  predicate GoesOn(w: World, v: World) {
    && StepsLeft(v) < StepsLeft(w) && v.a.pending == w.a.pending && v.due == w.due
    && (HasNoRename(w.a.queue) ==> HasNoRename(v.a.queue))
  }

  /** One step of the queue: nothing becomes pending, and there is less to do. */
  ghost predicate Advances(w: World, e: Event) {
    && Enabled(w, e) && IsProgress(e) && QueueOK(Next(w, e)) && GoesOn(w, Next(w, e))
    && (HasNoRename(w.a.queue) ==> Calm(w, e))
  }

  lemma StepsLeftIsNat(w: World)
    requires QueueOK(w)
    ensures StepsLeft(w) >= 0
  {
  }

  lemma SettledLoad(queue: seq<Op>, o: Path)
    requires queue != [] && queue[0].Flush? && o in queue[0].outstanding
    ensures Load(queue[0 := Flush(queue[0].outstanding - {o})]) == Load(queue) - 2
  {
    assert queue[0 := Flush(queue[0].outstanding - {o})][1..] == queue[1..];
    assert |queue[0].outstanding - {o}| == |queue[0].outstanding| - 1;
  }

  lemma SettleGoesOn(w: World, v: World, o: Path)
    requires HeadFlush(w) && o in w.a.queue[0].outstanding && v.a == Settle(w.a, o) && v.work.Idle? && v.due == w.due
    ensures GoesOn(w, v)
  {
    SettledLoad(w.a.queue, o);
  }

  lemma PickAdvances(w: World, o: Path)
    requires QueueOK(w) && HeadFlush(w) && w.work.Idle? && o in w.a.queue[0].outstanding
    ensures Advances(w, Pick(o))
  {
    EffectKeepsQueue(w, Pick(o));
    if IsRemoved(w.a.removed, Current(w, o)) {
      SettleGoesOn(w, Next(w, Pick(o)), o);
    } else {
      assert GoesOn(w, Next(w, Pick(o)));
    }
  }

  lemma WriteAdvances(w: World)
    requires QueueOK(w) && w.work.Serializing?
    ensures Advances(w, Write)
  {
    EffectKeepsQueue(w, Write);
    WriteSettles(w);
    SettleGoesOn(w, Next(w, Write), w.work.original);
  }

  lemma WriteSettles(w: World)
    requires HeadFlush(w) && w.work.Serializing?
    ensures var v := AfterWrite(w); v.a == Settle(w.a, w.work.original) && v.work.Idle? && v.due == w.due
  {
  }

  /** The end of an operation takes it off the queue. */
  lemma PopGoesOn(w: World, v: World)
    requires w.a.queue != [] && w.work.Idle? && v.work.Idle? && v.a.queue == w.a.queue[1..]
    requires v.a.pending == w.a.pending && v.due == w.due
    ensures GoesOn(w, v)
  {
  }

  lemma FlushEnds(w: World)
    requires QueueOK(w) && w.work.Idle? && Enabled(w, FinishFlush)
    ensures Advances(w, FinishFlush)
  {
    EffectKeepsQueue(w, FinishFlush);
    PopGoesOn(w, Next(w, FinishFlush));
  }

  lemma RenameEnds(w: World, movedWorking: bool, movedBacking: bool)
    requires QueueOK(w) && w.work.Idle? && Enabled(w, FinishRename(movedWorking, movedBacking))
    ensures Advances(w, FinishRename(movedWorking, movedBacking))
  {
    EffectKeepsQueue(w, FinishRename(movedWorking, movedBacking));
    PopGoesOn(w, Next(w, FinishRename(movedWorking, movedBacking)));
  }

  lemma RemoveEnds(w: World)
    requires QueueOK(w) && w.work.Idle? && Enabled(w, FinishRemove(true))
    ensures Advances(w, FinishRemove(true))
  {
    EffectKeepsQueue(w, FinishRemove(true));
    PopGoesOn(w, Next(w, FinishRemove(true)));
  }

  lemma MirrorEnds(w: World)
    requires QueueOK(w) && w.work.Idle? && Enabled(w, FinishMirror(true, true))
    ensures Advances(w, FinishMirror(true, true))
  {
    EffectKeepsQueue(w, FinishMirror(true, true));
    MirrorPops(w);
    PopGoesOn(w, Next(w, FinishMirror(true, true)));
  }

  lemma MirrorPops(w: World)
    requires w.a.queue != [] && w.a.queue[0].Mirror?
    ensures var v := AfterFinishMirror(w, true, true); v.a == Popped(w.a) && v.due == w.due && v.work == w.work
  {
  }

  /** Whatever the queue holds, it can go on. */
  lemma QueueAdvances(w: World) returns (e: Event)
    requires QueueOK(w) && w.a.queue != []
    ensures Advances(w, e)
  {
    if w.work.Serializing? {
      e := Write;
      WriteAdvances(w);
    } else if w.a.queue[0].Flush? && w.a.queue[0].outstanding != {} {
      var o :| o in w.a.queue[0].outstanding;
      e := Pick(o);
      PickAdvances(w, o);
    } else {
      match w.a.queue[0] {
        case Flush(_) =>
          e := FinishFlush;
          FlushEnds(w);
        case Rename(r) =>
          e := FinishRename(CanReplace(w.working, r), CanReplace(w.backing, r));
          RenameEnds(w, CanReplace(w.working, r), CanReplace(w.backing, r));
        case Remove(_) =>
          e := FinishRemove(true);
          RemoveEnds(w);
        case Mirror(_, _) =>
          e := FinishMirror(true, true);
          MirrorEnds(w);
      }
    }
  }

  predicate AllProgress(events: seq<Event>) { forall k :: 0 <= k < |events| ==> IsProgress(events[k]) }

  /** A run that ends with an empty queue and keeps what is pending and due; without renames it is calm. */
  ghost predicate EmptiesQueue(w: World, events: seq<Event>) {
    && IsRun(w, events) && AllProgress(events)
    && (HasNoRename(w.a.queue) ==> IsCalmRun(w, events))
    && Ran(w, events).a.queue == [] && Ran(w, events).a.pending == w.a.pending && Ran(w, events).due == w.due
    && QueueOK(Ran(w, events))
  }

  lemma OneStepMore(w: World, e: Event, rest: seq<Event>)
    requires Advances(w, e) && EmptiesQueue(Next(w, e), rest)
    ensures EmptiesQueue(w, [e] + rest)
  {
    assert ([e] + rest)[1..] == rest;
  }

  /** The queue can always be worked off. */
  lemma {:induction false} QueueEmpties(w: World) returns (events: seq<Event>)
    requires QueueOK(w)
    ensures EmptiesQueue(w, events)
    decreases StepsLeft(w)
  {
    StepsLeftIsNat(w);
    if w.a.queue == [] {
      events := [];
    } else {
      var e := QueueAdvances(w);
      StepsLeftIsNat(Next(w, e));
      var rest := QueueEmpties(Next(w, e));
      OneStepMore(w, e, rest);
      events := [e] + rest;
    }
  }

  lemma {:induction false} RunConcat(w: World, first: seq<Event>, second: seq<Event>)
    requires IsRun(w, first) && IsRun(Ran(w, first), second)
    ensures IsRun(w, first + second) && Ran(w, first + second) == Ran(Ran(w, first), second)
    ensures IsCalmRun(w, first) && IsCalmRun(Ran(w, first), second) ==> IsCalmRun(w, first + second)
    decreases |first|
  {
    if first == [] {
      assert [] + second == second;
    } else {
      assert (first + second)[1..] == first[1..] + second;
      RunConcat(Next(w, first[0]), first[1..], second);
    }
  }

  /** A run after which nothing is queued or pending, and the same documents are due as before. */
  ghost predicate Drains(w: World, events: seq<Event>) {
    && IsRun(w, events) && Ran(w, events).a.queue == [] && Ran(w, events).a.pending == {}
    && Ran(w, events).due == w.due && (HasNoRename(w.a.queue) ==> IsCalmRun(w, events))
  }

  lemma FlushStarts(w: World, rest: seq<Event>)
    requires QueueOK(w) && w.a.queue == [] && EmptiesQueue(Next(w, IssueFlush), rest)
    ensures Drains(w, [IssueFlush] + rest)
  {
    assert ([IssueFlush] + rest)[1..] == rest;
    assert HasNoRename(Next(w, IssueFlush).a.queue);
  }

  lemma DrainsAfter(w: World, first: seq<Event>, second: seq<Event>)
    requires EmptiesQueue(w, first) && Drains(Ran(w, first), second)
    ensures Drains(w, first + second)
  {
    RunConcat(w, first, second);
  }

  /** In every reachable state, work on the queue, one flush and work on its batch leave nothing queued or pending. */
  lemma OneFlushDrains(w: World) returns (first: seq<Event>, second: seq<Event>)
    requires QueueOK(w)
    ensures AllProgress(first) && AllProgress(second) && Drains(w, first + ([IssueFlush] + second))
  {
    first := QueueEmpties(w);
    var v := Ran(w, first);
    EffectKeepsQueue(v, IssueFlush);
    second := QueueEmpties(Next(v, IssueFlush));
    FlushStarts(v, second);
    DrainsAfter(w, first, [IssueFlush] + second);
  }

  /**
   After every calm run with no rename queued, one flush is enough: once the queue has drained, all documents that are
   due are saved in both roots.
   */
  lemma OneFlushSaves(events: seq<Event>) returns (more: seq<Event>)
    requires IsRun(Start, events) && IsCalmRun(Start, events) && HasNoRename(Ran(Start, events).a.queue)
    ensures IsRun(Start, events + more) && Ran(Start, events + more).due == Ran(Start, events).due
    ensures Ran(Start, events + more).a.queue == [] && Ran(Start, events + more).a.pending == {}
    ensures forall p :: p in Ran(Start, events).due ==> IsSaved(Ran(Start, events + more), p)
  {
    RunKeepsQueue(Start, events);
    var first, second := OneFlushDrains(Ran(Start, events));
    more := first + ([IssueFlush] + second);
    RunConcat(Start, events, more);
    forall p | p in Ran(Start, events).due ensures IsSaved(Ran(Start, events + more), p) {
      CalmRunsAreSaved(events + more, p);
    }
  }
}

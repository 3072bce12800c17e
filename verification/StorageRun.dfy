/**
 Whole runs of the storage adapter: calls may be issued at any time, also while the operation at the head of the
 queue is waiting; operations run one at a time in issue order.

 `now` counts steps. `due` and `written` belong to the shared documents: when a document under its current name
 was last scheduled, and when the newest content ever written for it was serialized. `working` and `backing` are
 the files of the two roots with the time their content was fixed. `gone` records for each removed root the paths that
 may have come back since its removal was asked for.
 */
module StorageRun {
  import opened ProjectPaths
  import opened StorageAdapter
  import opened StorageRedirects

  datatype Work = Idle | Serializing(original: Path, path: Path, start: nat)

  datatype World = World(a: Adapter, work: Work, now: nat, due: map<Path, nat>, written: map<Path, nat>,
                         working: map<Path, nat>, backing: map<Path, nat>, gone: map<Path, set<Path>>)

  datatype Event =
    | Schedule(p: Path)
    | IssueFlush
    | IssueRemove(p: Path)
    | IssueRename(r: Redirect)
    | IssueMirror(p: Path)
    | Pick(o: Path)
    | SerializeAgain
    | Write
    | Fail(wroteBacking: bool)
    | FinishFlush
    | FinishRename(movedWorking: bool, movedBacking: bool)
    | FinishRemove(ok: bool)
    | FinishMirror(wroteBacking: bool, wroteWorking: bool)

  /** The renames among the queued operations, in issue order. */
  function Renames(queue: seq<Op>): seq<Redirect> {
    if queue == [] then [] else
      (if queue[0].Rename? then [queue[0].redirect] else []) + Renames(queue[1..])
  }

  /** A table after a rename: what was under `from` replaces what was under `to`. */
  function MovedTable(m: map<Path, nat>, r: Redirect): map<Path, nat> {
    map q | q in m.Keys + (set p | p in m :: Moved(p, r)) && After(m, r, q)
      :: if SameOrChild(q, r.to) then m[Back(q, r)] else m[q]
  }

  function Back(q: Path, r: Redirect): Path
    requires SameOrChild(q, r.to)
  {
    r.from + q[|r.to|..]
  }

  predicate After(m: map<Path, nat>, r: Redirect, q: Path) {
    if SameOrChild(q, r.to) then Back(q, r) in m else q in m && !SameOrChild(q, r.from)
  }

  function Without(m: map<Path, nat>, root: Path): map<Path, nat> {
    map q | q in m && !SameOrChild(q, root) :: m[q]
  }

  predicate Holds(m: map<Path, nat>, root: Path) { exists p :: p in m && SameOrChild(p, root) }

  /** The files of a root after a rename that did not fail: without a source nothing happens. */
  function DiskMoved(m: map<Path, nat>, r: Redirect): map<Path, nat> {
    if Holds(m, r.from) then MovedTable(m, r) else m
  }

  /** A file replaces at most a file, a folder replaces nothing that holds files. */
  predicate CanReplace(m: map<Path, nat>, r: Redirect) {
    && (r.from in m ==> forall q :: q in m && SameOrChild(q, r.to) ==> q == r.to)
    && (r.from !in m && Holds(m, r.from) ==> !Holds(m, r.to))
  }

  /** The files that a rename puts below its target in one root. */
  function MovedIn(m: map<Path, nat>, r: Redirect, moved: bool): set<Path> {
    if moved && Holds(m, r.from) then set q | q in MovedTable(m, r) && SameOrChild(q, r.to) else {}
  }

  function Noted(gone: map<Path, set<Path>>, paths: set<Path>): map<Path, set<Path>> {
    map g | g in gone :: gone[g] + paths
  }

  /** The same, except for roots whose removal is still to come. */
  function NotedUnlessQueued(gone: map<Path, set<Path>>, paths: set<Path>, queue: seq<Op>): map<Path, set<Path>> {
    map g | g in gone :: if Remove(g) in queue then gone[g] else gone[g] + paths
  }

  /** The paths an operation will write, as it was given them. */
  function Writes(op: Op): set<Path> {
    match op
    case Flush(outstanding) => outstanding
    case Mirror(p, _) => {p}
    case _ => {}
  }

  /** The names the queued operations will write under, were nothing else issued. */
  function Names(queue: seq<Op>): set<Path> {
    set i, o | 0 <= i < |queue| && o in Writes(queue[i]) :: Replay(Renames(queue[i..]), o)
  }

  /** What is pending or queued to be written gets these names by a rename. */
  function Renamed(a: Adapter, r: Redirect): set<Path> {
    set n | n in a.pending + Names(a.queue) && SameOrChild(n, r.from) :: Moved(n, r)
  }

  predicate HeadFlush(w: World) { w.a.queue != [] && w.a.queue[0].Flush? }

  /** The name the document behind queued path `o` has now. */
  function Current(w: World, o: Path): Path { Replay(w.a.redirects, o) }

  /** A rename keeps the renames in flight independent and their sources distinct. */
  ghost predicate Enabled(w: World, e: Event) {
    match e
    case Schedule(_) => true
    case IssueFlush => true
    case IssueRemove(_) => true
    case IssueRename(r) => Independent(w.a.redirects + [r]) && forall s :: s in w.a.redirects ==> s.from != r.from
    case IssueMirror(_) => true
    case Pick(o) => HeadFlush(w) && w.work.Idle? && o in w.a.queue[0].outstanding
    case SerializeAgain => HeadFlush(w) && w.work.Serializing? && Current(w, w.work.original) != w.work.path
    case Write => HeadFlush(w) && w.work.Serializing?
    case Fail(_) => HeadFlush(w) && w.work.Serializing?
    case FinishFlush => HeadFlush(w) && w.work.Idle? && w.a.queue[0].outstanding == {}
    case FinishRename(movedWorking, movedBacking) => w.a.queue != [] && w.a.queue[0].Rename?
      && (movedWorking ==> CanReplace(w.working, w.a.queue[0].redirect))
      && (movedBacking ==> CanReplace(w.backing, w.a.queue[0].redirect))
    case FinishRemove(_) => w.a.queue != [] && w.a.queue[0].Remove?
    case FinishMirror(_, _) => w.a.queue != [] && w.a.queue[0].Mirror?
  }

  /** A batch fails only while none of its unwritten paths is being renamed. */
  ghost predicate FailsApart(w: World, e: Event)
    requires Enabled(w, e)
  {
    e.Fail? ==> forall o :: o in w.a.queue[0].outstanding ==> Current(w, o) == o
  }

  function Popped(a: Adapter): Adapter
    requires a.queue != []
  {
    a.(queue := a.queue[1..])
  }

  /** Path `o` of the head batch needs no further work. */
  function Settle(a: Adapter, o: Path): Adapter
    requires a.queue != [] && a.queue[0].Flush?
  {
    a.(queue := a.queue[0 := Flush(a.queue[0].outstanding - {o})])
  }

  function AfterSchedule(w: World, p: Path): World {
    w.(a := Scheduled(w.a, p), due := w.due[p := w.now], gone := Noted(w.gone, {p}))
  }

  function AfterFlush(w: World): World {
    w.(a := FlushIssued(w.a))
  }

  function AfterRemove(w: World, p: Path): World {
    w.(a := RemoveIssued(w.a, p), due := Without(w.due, p), gone := w.gone[p := {}])
  }

  function AfterRename(w: World, r: Redirect): World {
    w.(a := RenameIssued(w.a, r), due := MovedTable(w.due, r), written := MovedTable(w.written, r),
       gone := Noted(w.gone, Renamed(w.a, r)))
  }

  function AfterMirror(w: World, p: Path): World {
    w.(a := MirrorIssued(w.a, p, w.now), gone := Noted(w.gone, {p}))
  }

  /** The chosen path is dropped if its document was removed, and serialized otherwise. */
  function AfterPick(w: World, o: Path): World
    requires HeadFlush(w)
  {
    if IsRemoved(w.a.removed, Current(w, o)) then w.(a := Settle(w.a, o))
    else w.(work := Serializing(o, Current(w, o), w.now))
  }

  /** Serialization failed, but the document has a new name and was not removed. */
  function AfterSerializeAgain(w: World): World
    requires w.work.Serializing?
  {
    if IsRemoved(w.a.removed, Current(w, w.work.original)) then w
    else w.(work := Serializing(w.work.original, Current(w, w.work.original), w.now))
  }

  /** The content goes to the document's current name in both roots unless it was removed meanwhile. */
  function AfterWrite(w: World): World
    requires HeadFlush(w) && w.work.Serializing?
  {
    var p := Current(w, w.work.original);
    var v := w.(a := Settle(w.a, w.work.original), work := Idle);
    if IsRemoved(w.a.removed, p) then v
    else v.(written := v.written[p := w.work.start], backing := v.backing[p := w.work.start],
            working := v.working[p := w.work.start])
  }

  /** The paths of the batch that fails which are pending again. */
  function TakenUp(w: World): set<Path>
    requires HeadFlush(w)
  {
    set o | o in w.a.queue[0].outstanding && !IsRemoved(w.a.removed, Current(w, o))
  }

  function AfterFail(w: World, wroteBacking: bool): World
    requires HeadFlush(w) && w.work.Serializing?
  {
    var p := Current(w, w.work.original);
    var v := w.(a := Popped(Requeued(w.a, w.a.queue[0].outstanding)), work := Idle,
                gone := Noted(w.gone, TakenUp(w)));
    if wroteBacking && !IsRemoved(w.a.removed, p) then v.(backing := v.backing[p := w.work.start]) else v
  }

  function AfterFinishRename(w: World, movedWorking: bool, movedBacking: bool): World
    requires w.a.queue != [] && w.a.queue[0].Rename?
  {
    var r := w.a.queue[0].redirect;
    w.(a := Popped(w.a).(redirects := DropRedirect(w.a.redirects, r)),
       working := if movedWorking then DiskMoved(w.working, r) else w.working,
       backing := if movedBacking then DiskMoved(w.backing, r) else w.backing,
       gone := NotedUnlessQueued(w.gone, MovedIn(w.working, r, movedWorking) + MovedIn(w.backing, r, movedBacking),
                                 w.a.queue[1..]))
  }

  function AfterFinishRemove(w: World, ok: bool): World
    requires w.a.queue != [] && w.a.queue[0].Remove?
  {
    var p := w.a.queue[0].path;
    if !ok then w.(a := Popped(w.a), gone := if Remove(p) in w.a.queue[1..] then w.gone else w.gone - {p})
    else w.(a := Popped(w.a), working := Without(w.working, p), backing := Without(w.backing, p))
  }

  function AfterFinishMirror(w: World, wroteBacking: bool, wroteWorking: bool): World
    requires w.a.queue != [] && w.a.queue[0].Mirror?
  {
    var p := Current(w, w.a.queue[0].path);
    var version := w.a.queue[0].version;
    var v := w.(a := Popped(w.a));
    if IsRemoved(w.a.removed, p) then v
    else v.(backing := if wroteBacking then v.backing[p := version] else v.backing,
            working := if wroteWorking then v.working[p := version] else v.working)
  }

  ghost function Effect(w: World, e: Event): World
    requires Enabled(w, e)
  {
    match e
    case Schedule(p) => AfterSchedule(w, p)
    case IssueFlush => AfterFlush(w)
    case IssueRemove(p) => AfterRemove(w, p)
    case IssueRename(r) => AfterRename(w, r)
    case IssueMirror(p) => AfterMirror(w, p)
    case Pick(o) => AfterPick(w, o)
    case SerializeAgain => AfterSerializeAgain(w)
    case Write => AfterWrite(w)
    case Fail(wroteBacking) => AfterFail(w, wroteBacking)
    case FinishFlush => w.(a := Popped(w.a))
    case FinishRename(movedWorking, movedBacking) => AfterFinishRename(w, movedWorking, movedBacking)
    case FinishRemove(ok) => AfterFinishRemove(w, ok)
    case FinishMirror(wroteBacking, wroteWorking) => AfterFinishMirror(w, wroteBacking, wroteWorking)
  }

  function Ticked(w: World): World { w.(now := w.now + 1) }

  ghost function Next(w: World, e: Event): World
    requires Enabled(w, e)
  {
    Ticked(Effect(w, e))
  }

  ghost predicate IsRun(w: World, events: seq<Event>)
    decreases |events|
  {
    events == [] || (Enabled(w, events[0]) && IsRun(Next(w, events[0]), events[1..]))
  }

  ghost function Ran(w: World, events: seq<Event>): World
    requires IsRun(w, events)
    decreases |events|
  {
    if events == [] then w else Ran(Next(w, events[0]), events[1..])
  }

  /** No batch fails while a rename overlaps it. */
  ghost predicate IsApartRun(w: World, events: seq<Event>)
    requires IsRun(w, events)
    decreases |events|
  {
    events == [] || (FailsApart(w, events[0]) && IsApartRun(Next(w, events[0]), events[1..]))
  }

  const Start := World(Adapter({}, [], {}, []), Idle, 0, map[], map[], map[], map[], map[])

  // ----- What every step keeps -----

  /** Batch `i` will write the document now named `p` with content serialized no earlier than `since`. */
  ghost predicate Carries(queue: seq<Op>, work: Work, i: int, o: Path, p: Path, since: nat) {
    && 0 <= i < |queue| && queue[i].Flush? && o in queue[i].outstanding
    && Replay(Renames(queue[i..]), o) == p
    && (i == 0 && work.Serializing? && work.original == o ==> work.start >= since)
  }

  ghost predicate Queued(queue: seq<Op>, work: Work, p: Path, since: nat) {
    exists i, o :: Carries(queue, work, i, o, p, since)
  }

  predicate WrittenSince(written: map<Path, nat>, p: Path, since: nat) { p in written && written[p] >= since }

  /** A scheduled document is pending, in a queued batch, or was written with content newer than its schedule. */
  ghost predicate Served(w: World, p: Path, since: nat) {
    p in w.a.pending || Queued(w.a.queue, w.work, p, since) || WrittenSince(w.written, p, since)
  }

  ghost predicate Distinct(rs: seq<Redirect>) {
    forall i, j :: 0 <= i < j < |rs| ==> rs[i].from != rs[j].from
  }

  ghost predicate QueueOK(w: World) {
    && w.a.redirects == Renames(w.a.queue) && Independent(w.a.redirects) && Distinct(w.a.redirects)
    && (w.work.Serializing? ==> HeadFlush(w) && w.work.original in w.a.queue[0].outstanding && w.work.start <= w.now)
  }

  /** Content is serialized later than everything written before. */
  ghost predicate WrittenOK(w: World) {
    forall p :: p in w.written ==> w.written[p] <= if w.work.Serializing? then w.work.start else w.now
  }

  ghost predicate DueOK(w: World) {
    forall p :: p in w.due ==> DueAt(w, p)
  }

  ghost predicate DueAt(w: World, p: Path)
    requires p in w.due
  {
    w.due[p] <= w.now && Served(w, p, w.due[p]) && !IsRemoved(w.a.removed, p)
  }

  ghost predicate Inv(w: World) { QueueOK(w) && WrittenOK(w) && DueOK(w) }

  lemma {:induction false} RenamesConcat(a: seq<Op>, b: seq<Op>)
    ensures Renames(a + b) == Renames(a) + Renames(b)
  {
    if a == [] {
      assert a + b == b;
    } else {
      assert (a + b)[1..] == a[1..] + b;
      RenamesConcat(a[1..], b);
      ConcatAssociative(RedirectOf(a[0]), Renames(a[1..]), Renames(b));
    }
  }

  lemma ConcatAssociative(a: seq<Redirect>, b: seq<Redirect>, c: seq<Redirect>)
    ensures (a + b) + c == a + (b + c)
  {
  }

  /** The redirect a queued operation stands for. */
  function RedirectOf(op: Op): seq<Redirect> { if op.Rename? then [op.redirect] else [] }

  lemma RenamesAppended(queue: seq<Op>, i: nat, op: Op)
    requires i <= |queue|
    ensures Renames((queue + [op])[i..]) == Renames(queue[i..]) + RedirectOf(op)
  {
    assert (queue + [op])[i..] == queue[i..] + [op];
    RenamesConcat(queue[i..], [op]);
    assert [op][1..] == [];
  }

  lemma ReplayAppended(rs: seq<Redirect>, r: Redirect, p: Path)
    ensures Replay(rs + [r], p) == Moved(Replay(rs, p), r)
  {
    ReplayConcat(rs, [r], p);
    assert [r][1..] == [];
  }

  // ----- The queue grows at the end -----

  /** What an operation appended to the queue does to the name a batch writes under. */
  function MovedBy(p: Path, op: Op): Path { if op.Rename? then Moved(p, op.redirect) else p }

  lemma CarriesAppended(queue: seq<Op>, work: Work, i: int, o: Path, p: Path, since: nat, op: Op)
    requires Carries(queue, work, i, o, p, since)
    ensures Carries(queue + [op], work, i, o, MovedBy(p, op), since)
  {
    RenamesAppended(queue, i, op);
    if op.Rename? {
      ReplayAppended(Renames(queue[i..]), op.redirect, o);
    } else {
      assert Renames(queue[i..]) + [] == Renames(queue[i..]);
    }
  }

  lemma QueuedAppended(queue: seq<Op>, work: Work, p: Path, since: nat, op: Op)
    requires Queued(queue, work, p, since)
    ensures Queued(queue + [op], work, MovedBy(p, op), since)
  {
    var i, o :| Carries(queue, work, i, o, p, since);
    CarriesAppended(queue, work, i, o, p, since, op);
  }

  /** Appending an operation that is no rename leaves the redirects alone. */
  lemma QueueAppended(w: World, v: World, op: Op)
    requires QueueOK(w) && v.a.queue == w.a.queue + [op] && v.work == w.work && v.now == w.now
    requires !op.Rename? && v.a.redirects == w.a.redirects
    ensures QueueOK(v)
  {
    RenamesAppended(w.a.queue, 0, op);
    assert w.a.queue[0..] == w.a.queue && v.a.queue[0..] == v.a.queue;
  }

  lemma ScheduleKeeps(w: World, p: Path)
    requires Inv(w)
    ensures Inv(AfterSchedule(w, p))
  {
    var v := AfterSchedule(w, p);
    forall q | q in v.due ensures DueAt(v, q) {
      if q != p {
        assert DueAt(w, q);
      }
    }
  }

  lemma FlushKeeps(w: World)
    requires Inv(w)
    ensures Inv(AfterFlush(w))
  {
    var v := AfterFlush(w);
    var op := Flush(w.a.pending);
    QueueAppended(w, v, op);
    forall p | p in v.due ensures DueAt(v, p) {
      assert DueAt(w, p);
      if p in w.a.pending {
        var i := |w.a.queue|;
        assert v.a.queue[i..] == [op] && [op][1..] == [];
        assert Carries(v.a.queue, v.work, i, p, p, v.due[p]);
      } else if Queued(w.a.queue, w.work, p, w.due[p]) {
        QueuedAppended(w.a.queue, w.work, p, w.due[p], op);
      }
    }
  }

  lemma MirrorKeeps(w: World, m: Path)
    requires Inv(w)
    ensures Inv(AfterMirror(w, m))
  {
    var v := AfterMirror(w, m);
    QueueAppended(w, v, Mirror(m, w.now));
    forall p | p in v.due ensures DueAt(v, p) {
      assert DueAt(w, p);
      if Queued(w.a.queue, w.work, p, w.due[p]) {
        QueuedAppended(w.a.queue, w.work, p, w.due[p], Mirror(m, w.now));
      }
    }
  }

  lemma RemoveKeeps(w: World, r: Path)
    requires Inv(w)
    ensures Inv(AfterRemove(w, r))
  {
    var v := AfterRemove(w, r);
    QueueAppended(w, v, Remove(r));
    forall p | p in v.due ensures DueAt(v, p) {
      assert DueAt(w, p);
      if Queued(w.a.queue, w.work, p, w.due[p]) {
        QueuedAppended(w.a.queue, w.work, p, w.due[p], Remove(r));
      }
    }
  }

  /** The name a renamed entry had before. */
  function Origin(q: Path, r: Redirect): Path { if SameOrChild(q, r.to) then Back(q, r) else q }

  lemma FromOrigin(m: map<Path, nat>, r: Redirect, q: Path)
    requires q in MovedTable(m, r)
    ensures Origin(q, r) in m && MovedTable(m, r)[q] == m[Origin(q, r)] && Moved(Origin(q, r), r) == q
  {
    if SameOrChild(q, r.to) {
      assert Back(q, r)[|r.from|..] == q[|r.to|..];
      assert q == r.to + q[|r.to|..];
    }
  }

  lemma MovedOrigin(m: map<Path, nat>, r: Redirect, q: Path)
    requires Origin(q, r) in m && Moved(Origin(q, r), r) == q
    ensures q in MovedTable(m, r) && MovedTable(m, r)[q] == m[Origin(q, r)]
  {
    if !SameOrChild(q, r.to) {
      assert !SameOrChild(q, r.from);
    } else {
      var p := Origin(q, r);
      assert p in m && q == Moved(p, r);
    }
  }

  lemma RenameAppends(w: World, r: Redirect)
    requires QueueOK(w) && Enabled(w, IssueRename(r))
    ensures RenameIssued(w.a, r).redirects == w.a.redirects + [r]
    ensures QueueOK(AfterRename(w, r))
  {
    SetNewRedirect(w.a.redirects, r);
    var v := AfterRename(w, r);
    RenamesAppended(w.a.queue, 0, Rename(r));
    assert w.a.queue[0..] == w.a.queue && v.a.queue[0..] == v.a.queue;
  }

  lemma {:induction false} SetNewRedirect(rs: seq<Redirect>, r: Redirect)
    requires forall s :: s in rs ==> s.from != r.from
    ensures SetRedirect(rs, r) == rs + [r]
  {
    if rs != [] {
      SetNewRedirect(rs[1..], r);
      assert rs == [rs[0]] + rs[1..];
    }
  }

  lemma ServedMoved(w: World, r: Redirect, p: Path, q: Path, since: nat)
    requires Served(w, p, since) && p == Origin(q, r) && Moved(p, r) == q
    ensures Served(AfterRename(w, r), q, since)
  {
    if Queued(w.a.queue, w.work, p, since) {
      QueuedAppended(w.a.queue, w.work, p, since, Rename(r));
    } else if WrittenSince(w.written, p, since) {
      MovedOrigin(w.written, r, q);
    }
  }

  lemma NotRemovedMoved(w: World, r: Redirect, p: Path, q: Path)
    requires !IsRemoved(w.a.removed, p) && p == Origin(q, r) && Moved(p, r) == q
    ensures !IsRemoved(RenameIssued(w.a, r).removed, q)
  {
    forall m | m in RenameIssued(w.a, r).removed ensures !SameOrChild(q, m) {
      if SameOrChild(q, m) && SameOrChild(q, r.to) {
        PrefixesComparable(r.to, m, q);
      }
    }
  }

  lemma RenamedWritten(w: World, r: Redirect)
    requires WrittenOK(w)
    ensures WrittenOK(AfterRename(w, r))
  {
    forall q | q in MovedTable(w.written, r)
      ensures MovedTable(w.written, r)[q] <= if w.work.Serializing? then w.work.start else w.now
    {
      FromOrigin(w.written, r, q);
    }
  }

  lemma RenameKeeps(w: World, r: Redirect)
    requires Inv(w) && Enabled(w, IssueRename(r))
    ensures Inv(AfterRename(w, r))
  {
    var v := AfterRename(w, r);
    RenameAppends(w, r);
    RenamedWritten(w, r);
    forall q | q in v.due ensures DueAt(v, q) {
      FromOrigin(w.due, r, q);
      var p := Origin(q, r);
      assert DueAt(w, p);
      ServedMoved(w, r, p, q, w.due[p]);
      NotRemovedMoved(w, r, p, q);
    }
  }

  // ----- Work on the head of the queue -----

  lemma SettleKeepsRenames(queue: seq<Op>, rest: set<Path>, i: nat)
    requires queue != [] && queue[0].Flush? && i < |queue|
    ensures Renames(queue[0 := Flush(rest)][i..]) == Renames(queue[i..])
  {
    var changed := queue[0 := Flush(rest)];
    if i == 0 {
      assert changed[0..][1..] == queue[0..][1..];
    } else {
      assert changed[i..] == queue[i..];
    }
  }

  /** A batch loses one path; every other path it carries is still carried. */
  lemma CarriesSettled(w: World, o: Path, i: int, c: Path, p: Path, since: nat)
    requires HeadFlush(w) && Carries(w.a.queue, w.work, i, c, p, since) && (i == 0 ==> c != o)
    ensures Queued(Settle(w.a, o).queue, Idle, p, since)
  {
    SettleKeepsRenames(w.a.queue, w.a.queue[0].outstanding - {o}, i);
    assert Carries(Settle(w.a, o).queue, Idle, i, c, p, since);
  }

  lemma QueuedSettled(w: World, o: Path, p: Path, since: nat)
    requires QueueOK(w) && HeadFlush(w) && Queued(w.a.queue, w.work, p, since) && Current(w, o) != p
    ensures Queued(Settle(w.a, o).queue, Idle, p, since)
  {
    var i, c :| Carries(w.a.queue, w.work, i, c, p, since);
    assert w.a.queue[0..] == w.a.queue;
    CarriesSettled(w, o, i, c, p, since);
  }

  lemma SettleQueueOK(w: World, v: World, o: Path)
    requires QueueOK(w) && HeadFlush(w) && v.a.queue == Settle(w.a, o).queue && v.a.redirects == w.a.redirects
    requires v.work.Idle?
    ensures QueueOK(v)
  {
    SettleKeepsRenames(w.a.queue, w.a.queue[0].outstanding - {o}, 0);
    assert w.a.queue[0..] == w.a.queue && v.a.queue[0..] == v.a.queue;
  }

  lemma PickKeeps(w: World, o: Path)
    requires Inv(w) && Enabled(w, Pick(o))
    ensures Inv(AfterPick(w, o))
  {
    var v := AfterPick(w, o);
    if IsRemoved(w.a.removed, Current(w, o)) {
      SettleQueueOK(w, v, o);
      forall p | p in v.due ensures DueAt(v, p) {
        assert DueAt(w, p);
        if Queued(w.a.queue, w.work, p, w.due[p]) {
          QueuedSettled(w, o, p, w.due[p]);
        }
      }
    } else {
      RestartKeeps(w, o);
    }
  }

  /** Serializing a document anew only makes the content in hand newer. */
  lemma RestartKeeps(w: World, o: Path)
    requires Inv(w) && HeadFlush(w) && o in w.a.queue[0].outstanding
    requires w.work.Serializing? ==> w.work.original == o
    ensures Inv(w.(work := Serializing(o, Current(w, o), w.now)))
  {
    var v := w.(work := Serializing(o, Current(w, o), w.now));
    forall p | p in v.due ensures DueAt(v, p) {
      assert DueAt(w, p);
      if Queued(w.a.queue, w.work, p, w.due[p]) {
        var i, c :| Carries(w.a.queue, w.work, i, c, p, w.due[p]);
        assert Carries(v.a.queue, v.work, i, c, p, v.due[p]);
      }
    }
  }

  /** The document just written is served by the write, or by another batch that still carries it. */
  lemma WriteServes(w: World, p: Path, since: nat)
    requires QueueOK(w) && WrittenOK(w) && Enabled(w, Write) && Current(w, w.work.original) == p
    requires Served(w, p, since) && !IsRemoved(w.a.removed, p)
    ensures Served(AfterWrite(w), p, since)
  {
    if Queued(w.a.queue, w.work, p, since) {
      var i, c :| Carries(w.a.queue, w.work, i, c, p, since);
      if i != 0 || c != w.work.original {
        CarriesSettled(w, w.work.original, i, c, p, since);
      }
    }
  }

  lemma WriteKeeps(w: World)
    requires Inv(w) && Enabled(w, Write)
    ensures Inv(AfterWrite(w))
  {
    var v := AfterWrite(w);
    var o := w.work.original;
    var current := Current(w, o);
    SettleQueueOK(w, v, o);
    forall p | p in v.due ensures DueAt(v, p) {
      assert DueAt(w, p);
      if current == p {
        WriteServes(w, p, w.due[p]);
      } else if Queued(w.a.queue, w.work, p, w.due[p]) {
        QueuedSettled(w, o, p, w.due[p]);
      }
    }
  }

  // ----- The head of the queue is done -----

  /** Without an unfinished batch or rename at the head, dropping the head loses nothing. */
  lemma QueuedPopped(queue: seq<Op>, work: Work, p: Path, since: nat)
    requires queue != [] && (queue[0].Flush? ==> queue[0].outstanding == {}) && Queued(queue, work, p, since)
    ensures Queued(queue[1..], Idle, p, since)
  {
    var i, o :| Carries(queue, work, i, o, p, since);
    assert i > 0 && queue[1..][i - 1..] == queue[i..];
    assert Carries(queue[1..], Idle, i - 1, o, p, since);
  }

  lemma DuePopped(w: World, v: World)
    requires DueOK(w) && w.a.queue != [] && (w.a.queue[0].Flush? ==> w.a.queue[0].outstanding == {})
    requires v.a.queue == w.a.queue[1..] && v.work.Idle? && v.now == w.now && v.due == w.due
    requires v.a.pending == w.a.pending && v.a.removed == w.a.removed && v.written == w.written
    ensures DueOK(v)
  {
    forall p | p in v.due ensures DueAt(v, p) {
      assert DueAt(w, p);
      if Queued(w.a.queue, w.work, p, w.due[p]) {
        QueuedPopped(w.a.queue, w.work, p, w.due[p]);
      }
    }
  }

  lemma FinishFlushKeeps(w: World)
    requires Inv(w) && Enabled(w, FinishFlush)
    ensures Inv(w.(a := Popped(w.a)))
  {
    var v := w.(a := Popped(w.a));
    DuePopped(w, v);
  }

  /** The batch fails: the paths not written return to pending under the names they still have. */
  lemma FailServes(w: World, wroteBacking: bool, p: Path)
    requires QueueOK(w) && Enabled(w, Fail(wroteBacking)) && FailsApart(w, Fail(wroteBacking)) && p in w.due
    requires DueAt(w, p)
    ensures DueAt(AfterFail(w, wroteBacking), p)
  {
    var v := AfterFail(w, wroteBacking);
    if Queued(w.a.queue, w.work, p, w.due[p]) {
      var i, o :| Carries(w.a.queue, w.work, i, o, p, w.due[p]);
      if i == 0 {
        assert w.a.queue[0..] == w.a.queue;
        assert p in v.a.pending;
      } else {
        assert w.a.queue[1..][i - 1..] == w.a.queue[i..];
        assert Carries(v.a.queue, v.work, i - 1, o, p, v.due[p]);
      }
    }
  }

  lemma FailKeeps(w: World, wroteBacking: bool)
    requires Inv(w) && Enabled(w, Fail(wroteBacking)) && FailsApart(w, Fail(wroteBacking))
    ensures Inv(AfterFail(w, wroteBacking))
  {
    var v := AfterFail(w, wroteBacking);
    forall p | p in v.due ensures DueAt(v, p) {
      FailServes(w, wroteBacking, p);
    }
  }

  /** The redirect of the rename at the head is the first of the table, and dropping it leaves the others. */
  lemma DropsHead(w: World)
    requires QueueOK(w) && w.a.queue != [] && w.a.queue[0].Rename?
    ensures DropRedirect(w.a.redirects, w.a.queue[0].redirect) == Renames(w.a.queue[1..])
    ensures Independent(Renames(w.a.queue[1..])) && Distinct(Renames(w.a.queue[1..]))
  {
    var rs := w.a.redirects;
    var rest := Renames(w.a.queue[1..]);
    assert rs == [w.a.queue[0].redirect] + rest;
    assert rest == rs[1..];
    assert forall i :: 0 <= i < |rest| ==> rest[i] == rs[i + 1];
  }

  lemma FinishRenameKeeps(w: World, movedWorking: bool, movedBacking: bool)
    requires Inv(w) && Enabled(w, FinishRename(movedWorking, movedBacking))
    ensures Inv(AfterFinishRename(w, movedWorking, movedBacking))
  {
    var v := AfterFinishRename(w, movedWorking, movedBacking);
    DropsHead(w);
    DuePopped(w, v);
  }

  lemma FinishRemoveKeeps(w: World, ok: bool)
    requires Inv(w) && Enabled(w, FinishRemove(ok))
    ensures Inv(AfterFinishRemove(w, ok))
  {
    var v := AfterFinishRemove(w, ok);
    DuePopped(w, v);
  }

  lemma FinishMirrorKeeps(w: World, wroteBacking: bool, wroteWorking: bool)
    requires Inv(w) && Enabled(w, FinishMirror(wroteBacking, wroteWorking))
    ensures Inv(AfterFinishMirror(w, wroteBacking, wroteWorking))
  {
    var v := AfterFinishMirror(w, wroteBacking, wroteWorking);
    DuePopped(w, v);
  }

  lemma TimePasses(w: World)
    requires Inv(w)
    ensures Inv(Ticked(w))
  {
    var v := Ticked(w);
    forall p | p in v.due ensures DueAt(v, p) {
      assert DueAt(w, p);
    }
  }

  lemma EffectKeeps(w: World, e: Event)
    requires Inv(w) && Enabled(w, e) && FailsApart(w, e)
    ensures Inv(Effect(w, e))
  {
    match e
    case Schedule(p) => ScheduleKeeps(w, p);
    case IssueFlush => FlushKeeps(w);
    case IssueRemove(p) => RemoveKeeps(w, p);
    case IssueRename(r) => RenameKeeps(w, r);
    case IssueMirror(p) => MirrorKeeps(w, p);
    case Pick(o) => PickKeeps(w, o);
    case SerializeAgain => RestartKeeps(w, w.work.original);
    case Write => WriteKeeps(w);
    case Fail(wroteBacking) => FailKeeps(w, wroteBacking);
    case FinishFlush => FinishFlushKeeps(w);
    case FinishRename(movedWorking, movedBacking) => FinishRenameKeeps(w, movedWorking, movedBacking);
    case FinishRemove(ok) => FinishRemoveKeeps(w, ok);
    case FinishMirror(wroteBacking, wroteWorking) => FinishMirrorKeeps(w, wroteBacking, wroteWorking);
  }

  lemma NextKeeps(w: World, e: Event)
    requires Inv(w) && Enabled(w, e) && FailsApart(w, e)
    ensures Inv(Next(w, e))
  {
    EffectKeeps(w, e);
    TimePasses(Effect(w, e));
  }

  lemma {:induction false} RunKeeps(w: World, events: seq<Event>)
    requires Inv(w) && IsRun(w, events) && IsApartRun(w, events)
    ensures Inv(Ran(w, events))
    decreases |events|
  {
    if events != [] {
      NextKeeps(w, events[0]);
      RunKeeps(Next(w, events[0]), events[1..]);
    }
  }

  // ----- What also every failing batch keeps -----

  lemma FailKeepsQueue(w: World, wroteBacking: bool)
    requires QueueOK(w) && HeadFlush(w) && w.work.Serializing?
    ensures QueueOK(AfterFail(w, wroteBacking))
  {
    assert [] + Renames(w.a.queue[1..]) == Renames(w.a.queue[1..]);
  }

  lemma EndKeepsQueue(w: World, v: World)
    requires QueueOK(w) && w.a.queue != [] && !w.a.queue[0].Rename? && w.work.Idle?
    requires v.a.queue == w.a.queue[1..] && v.a.redirects == w.a.redirects && v.work == w.work
    ensures QueueOK(v)
  {
    assert [] + Renames(w.a.queue[1..]) == Renames(w.a.queue[1..]);
  }

  lemma PickKeepsQueue(w: World, o: Path)
    requires QueueOK(w) && Enabled(w, Pick(o))
    ensures QueueOK(AfterPick(w, o))
  {
    if IsRemoved(w.a.removed, Current(w, o)) {
      SettleQueueOK(w, AfterPick(w, o), o);
    }
  }

  lemma EffectKeepsQueue(w: World, e: Event)
    requires QueueOK(w) && Enabled(w, e)
    ensures QueueOK(Effect(w, e))
  {
    match e
    case Schedule(p) =>
    case IssueFlush => QueueAppended(w, AfterFlush(w), Flush(w.a.pending));
    case IssueRemove(p) => QueueAppended(w, AfterRemove(w, p), Remove(p));
    case IssueRename(r) => RenameAppends(w, r);
    case IssueMirror(p) => QueueAppended(w, AfterMirror(w, p), Mirror(p, w.now));
    case Pick(o) => PickKeepsQueue(w, o);
    case SerializeAgain =>
    case Write => SettleQueueOK(w, AfterWrite(w), w.work.original);
    case Fail(wroteBacking) => FailKeepsQueue(w, wroteBacking);
    case FinishFlush => EndKeepsQueue(w, w.(a := Popped(w.a)));
    case FinishRename(movedWorking, movedBacking) => DropsHead(w);
    case FinishRemove(ok) => EndKeepsQueue(w, AfterFinishRemove(w, ok));
    case FinishMirror(wroteBacking, wroteWorking) => EndKeepsQueue(w, AfterFinishMirror(w, wroteBacking, wroteWorking));
  }

  lemma {:induction false} RunKeepsQueue(w: World, events: seq<Event>)
    requires QueueOK(w) && IsRun(w, events)
    ensures QueueOK(Ran(w, events))
    decreases |events|
  {
    if events != [] {
      EffectKeepsQueue(w, events[0]);
      RunKeepsQueue(Next(w, events[0]), events[1..]);
    }
  }

  // ----- Main results -----

  /**
   In every run in which no rename overlaps a failing batch, each document scheduled and not removed since is still
   pending, in a queued batch that will write it under its current name, or was written with content serialized
   after it was last scheduled. With an empty queue and nothing pending, all scheduled content was written.
   */
  lemma ScheduledIsServed(events: seq<Event>, p: Path)
    requires IsRun(Start, events) && IsApartRun(Start, events) && p in Ran(Start, events).due
    ensures var w := Ran(Start, events); (
      && Served(w, p, w.due[p]) && !IsRemoved(w.a.removed, p)
      && (w.a.queue == [] && w.a.pending == {} ==> WrittenSince(w.written, p, w.due[p])))
  {
    RunKeeps(Start, events);
    assert DueAt(Ran(Start, events), p);
  }

  /** In every run the redirects are the queued renames, so resolving a name replays exactly those. */
  lemma RedirectsAreQueuedRenames(events: seq<Event>)
    requires IsRun(Start, events)
    ensures Ran(Start, events).a.redirects == Renames(Ran(Start, events).a.queue)
    ensures Independent(Ran(Start, events).a.redirects)
  {
    RunKeepsQueue(Start, events);
  }

  // ----- What the conditions exclude -----

  ghost predicate CarriedLater(w: World, p: Path, since: nat) {
    exists i, o :: i > 0 && Carries(w.a.queue, w.work, i, o, p, since)
  }

  /** Another way by which document `p` stays served when the batch at the head fails. */
  ghost predicate SafeElsewhere(w: World, p: Path)
    requires HeadFlush(w) && p in w.due
  {
    || p in w.a.pending
    || (p in w.a.queue[0].outstanding && !IsRemoved(w.a.removed, Current(w, p)))
    || CarriedLater(w, p, w.due[p])
    || WrittenSince(w.written, p, w.due[p])
  }

  /**
   A failing batch returns its paths to pending under the names they were taken with. So it loses no scheduled
   document exactly when each unwritten path it took that was renamed meanwhile is safe elsewhere.
   */
  lemma FailureLosesRenamed(w: World, wroteBacking: bool)
    requires Inv(w) && HeadFlush(w) && w.work.Serializing?
    ensures (forall p :: p in w.due ==> Served(AfterFail(w, wroteBacking), p, w.due[p]))
      <==> (forall o :: o in w.a.queue[0].outstanding && Current(w, o) != o && Current(w, o) in w.due
              ==> SafeElsewhere(w, Current(w, o)))
  {
    var v := AfterFail(w, wroteBacking);
    assert w.a.queue[0..] == w.a.queue;
    forall p | p in w.due ensures Served(v, p, w.due[p]) <==> SafeElsewhere(w, p) {
      ServedAfterFailure(w, wroteBacking, p);
    }
    forall p | p in w.due && !SafeElsewhere(w, p)
      ensures exists o :: o in w.a.queue[0].outstanding && Current(w, o) != o && Current(w, o) == p
    {
      assert DueAt(w, p);
      var i, o :| Carries(w.a.queue, w.work, i, o, p, w.due[p]);
      assert o in w.a.queue[0].outstanding && Current(w, o) == p;
    }
  }

  lemma ServedAfterFailure(w: World, wroteBacking: bool, p: Path)
    requires Inv(w) && HeadFlush(w) && w.work.Serializing? && p in w.due
    ensures Served(AfterFail(w, wroteBacking), p, w.due[p]) <==> SafeElsewhere(w, p)
  {
    LaterBatches(w, p, w.due[p]);
    var v := AfterFail(w, wroteBacking);
    assert v.a.queue == w.a.queue[1..] && v.work == Idle && v.written == w.written;
    assert DueAt(w, p);
    assert p in v.a.pending
      <==> p in w.a.pending || (p in w.a.queue[0].outstanding && !IsRemoved(w.a.removed, Current(w, p)));
  }

  /** What the queue carries once its head is gone is what its later batches carried. */
  lemma LaterBatches(w: World, p: Path, since: nat)
    requires HeadFlush(w)
    ensures Queued(w.a.queue[1..], Idle, p, since) <==> CarriedLater(w, p, since)
  {
    var rest := w.a.queue[1..];
    if Queued(rest, Idle, p, since) {
      var i, o :| Carries(rest, Idle, i, o, p, since);
      assert rest[i..] == w.a.queue[i + 1..];
      assert Carries(w.a.queue, w.work, i + 1, o, p, since);
    }
    if CarriedLater(w, p, since) {
      var i, o :| i > 0 && Carries(w.a.queue, w.work, i, o, p, since);
      assert rest[i - 1..] == w.a.queue[i..];
      assert Carries(rest, Idle, i - 1, o, p, since);
    }
  }
}

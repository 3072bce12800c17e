/**
 Whole runs of one terminal host and one guest over a network that may lose, repeat, delay and reorder every
 frame. Host processes follow each other; process number k has stream id k, which only names the distinct ids.
 Other guests appear through the nonces they ask with.
 */
module TerminalRun {
  import opened Outcomes
  import opened TerminalReplication
  import opened Utf16

  datatype Position = Position(stream: nat, index: nat, sequence: nat)

  predicate AtMost(a: Position, b: Position) {
    a.stream < b.stream
    || (a.stream == b.stream && (a.index < b.index || (a.index == b.index && a.sequence <= b.sequence)))
  }

  /**
   `log` records the host's history right after each output, `names` the generation id of each generation,
   `asked` every nonce with the host's position when it was drawn, `floor` the furthest position the guest held.
   */
  datatype World = World(host: Terminal, guest: Terminal, frames: set<Frame>, asked: map<Id, Position>,
                         log: map<Position, Text>, names: map<(nat, nat), Id>, floor: Position)

  datatype Event =
    | Publish(text: Text)
    | Flush
    | Answer(request: Option<Id>)
    | HostReset(generation: Id)
    | HostRestart(generation: Id)
    | Receive(frame: Frame, id: Id)
    | Ask(renew: bool, id: Id)
    | GuestReset(generation: Id)
    | OtherGuestAsks(id: Id)

  function At(t: Terminal): Position { Position(t.streamId, t.generationIndex, t.sequence) }

  function FrameAt(f: Frame): Position { Position(f.stream, f.index, f.sequence) }

  predicate Attached(g: Terminal) { g.remoteStreamId.Some? && 0 <= g.remoteGenerationIndex }

  function GuestAt(g: Terminal): Position
    requires Attached(g)
  {
    Position(g.remoteStreamId.value, g.remoteGenerationIndex, g.sequence)
  }

  function Start(hostGeneration: Id, guestStream: Id, guestGeneration: Id): World {
    var host := Initial(0, hostGeneration);
    World(host, Initial(guestStream, guestGeneration), {}, map[], map[At(host) := []],
          map[(0, 0) := hostGeneration], Position(0, 0, 0))
  }

  predicate Enabled(w: World, e: Event) {
    match e
    case Publish(text) => WellFormed(text)
    case Flush => WellFormed(w.host.pending)
    case Answer(request) => WellFormed(w.host.pending) && (request.Some? ==> request.value in w.asked)
    case HostReset(_) => true
    case HostRestart(_) => true
    case Receive(frame, id) => frame in w.frames && id !in w.asked
    case Ask(_, id) => id !in w.asked
    case GuestReset(_) => true
    case OtherGuestAsks(id) => id !in w.asked
  }

  function LogFlush(t: Terminal, log: map<Position, Text>): map<Position, Text>
    requires WellFormed(t.pending)
    decreases |t.pending|
  {
    if t.pending == [] then log else
      ChunkIsWellFormed(t.pending);
      var u := FlushedOnce(t);
      LogFlush(u, log[At(u) := u.history])
  }

  function SetOf(frames: seq<Frame>): set<Frame> { set f | f in frames }

  function AfterFlush(w: World): World
    requires WellFormed(w.host.pending)
  {
    w.(host := Flushed(w.host), frames := w.frames + SetOf(FlushFrames(w.host)), log := LogFlush(w.host, w.log))
  }

  /** The host continues as `host`, at the start of a generation. */
  function NewGeneration(w: World, host: Terminal): World {
    w.(host := host, log := w.log[At(host) := []],
       names := w.names[(host.streamId, host.generationIndex) := host.generation])
  }

  /** The guest continues as `guest`; a nonce it drew is on record, and so is how far it got. */
  function GuestBecomes(w: World, guest: Terminal, id: Id): World {
    w.(guest := guest,
       asked := if guest.snapshotRequestId == Some(id) then w.asked[id := At(w.host)] else w.asked,
       floor := if Attached(guest) then GuestAt(guest) else w.floor)
  }

  function AfterPublish(w: World, text: Text): World { w.(host := Published(w.host, text)) }

  function WithFrame(w: World, f: Frame): World { w.(frames := w.frames + {f}) }

  function AfterAnswer(w: World, request: Option<Id>): World
    requires WellFormed(w.host.pending)
  {
    WithFrame(AfterFlush(w), SnapshotFrame(AfterFlush(w).host, request))
  }

  function AfterHostReset(w: World, generation: Id): World {
    var v := NewGeneration(w, WasReset(w.host, generation));
    WithFrame(v, SnapshotFrame(v.host, None))
  }

  function AfterHostRestart(w: World, generation: Id): World {
    NewGeneration(w, Initial(w.host.streamId + 1, generation))
  }

  function AfterGuestReset(w: World, generation: Id): World { w.(guest := WasReset(w.guest, generation)) }

  function AfterOtherAsk(w: World, id: Id): World { w.(asked := w.asked[id := At(w.host)]) }

  function Next(w: World, e: Event): World
    requires Enabled(w, e)
  {
    match e
    case Publish(text) => AfterPublish(w, text)
    case Flush => AfterFlush(w)
    case Answer(request) => AfterAnswer(w, request)
    case HostReset(generation) => AfterHostReset(w, generation)
    case HostRestart(generation) => AfterHostRestart(w, generation)
    case Receive(frame, id) => GuestBecomes(w, Handled(w.guest, frame, id), id)
    case Ask(renew, id) => GuestBecomes(w, Requested(w.guest, renew, id), id)
    case GuestReset(generation) => AfterGuestReset(w, generation)
    case OtherGuestAsks(id) => AfterOtherAsk(w, id)
  }

  predicate IsRun(w: World, events: seq<Event>)
    decreases |events|
  {
    events == [] || (Enabled(w, events[0]) && IsRun(Next(w, events[0]), events[1..]))
  }

  function After(w: World, events: seq<Event>): World
    requires IsRun(w, events)
    decreases |events|
  {
    if events == [] then w else After(Next(w, events[0]), events[1..])
  }

  // ----- What every step keeps -----

  ghost predicate Entry(log: map<Position, Text>, names: map<(nat, nat), Id>, here: Position, p: Position)
    requires p in log
  {
    && AtMost(p, here) && (p.stream, p.index) in names
    && WellFormed(log[p]) && |log[p]| <= HISTORY_CHARS && (p.sequence == 0 ==> log[p] == [])
  }

  /** The log holds nothing ahead of the host and the start of every generation. */
  ghost predicate LogOK(log: map<Position, Text>, names: map<(nat, nat), Id>, here: Position) {
    && (forall p :: p in log ==> Entry(log, names, here, p))
    && (forall g :: g in names ==> Position(g.0, g.1, 0) in log)
  }

  ghost predicate HostOK(w: World) {
    && WellFormed(w.host.pending)
    && At(w.host) in w.log && w.log[At(w.host)] == w.host.history
    && (w.host.streamId, w.host.generationIndex) in w.names
    && w.names[(w.host.streamId, w.host.generationIndex)] == w.host.generation
  }

  ghost predicate FrameOK(log: map<Position, Text>, names: map<(nat, nat), Id>, asked: map<Id, Position>, f: Frame) {
    && (f.stream, f.index) in names && names[(f.stream, f.index)] == f.generation
    && FrameAt(f) in log
    && match f
       case Output(stream, _, index, sequence, payload) =>
         sequence >= 1 && Position(stream, index, sequence - 1) in log
         && log[FrameAt(f)] == RetainedText(log[Position(stream, index, sequence - 1)] + payload)
       case Snapshot(_, _, _, _, request, payload) =>
         payload == log[FrameAt(f)]
         && (request.Some? ==> request.value in asked && AtMost(asked[request.value], FrameAt(f)))
  }

  ghost predicate FramesOK(w: World) {
    && (forall f :: f in w.frames ==> FrameOK(w.log, w.names, w.asked, f))
    && (forall r :: r in w.asked ==> AtMost(w.asked[r], At(w.host)))
  }

  /** What the guest shows is what the host showed at the guest's position. */
  ghost predicate Shows(w: World, g: Terminal)
    requires Attached(g)
  {
    && (g.remoteStreamId.value, g.remoteGenerationIndex) in w.names
    && w.names[(g.remoteStreamId.value, g.remoteGenerationIndex)] == g.generation
    && GuestAt(g) in w.log && w.log[GuestAt(g)] == g.history
  }

  /** The nonce was drawn no earlier than the guest got where it is. */
  ghost predicate NonceOK(asked: map<Id, Position>, g: Terminal, floor: Position) {
    g.snapshotRequestId.Some? ==>
      && g.snapshotRequestId.value in asked
      && (Attached(g) ==> g.remoteStreamId.value <= asked[g.snapshotRequestId.value].stream)
      && (!Attached(g) ==> AtMost(floor, asked[g.snapshotRequestId.value]))
  }

  ghost predicate GuestOK(w: World) {
    && AtMost(w.floor, At(w.host))
    && (if Attached(w.guest) then Shows(w, w.guest) && GuestAt(w.guest) == w.floor
        else w.guest.remoteStreamId.None? && w.guest.history == [] && w.guest.remoteGenerationIndex == -1)
    && NonceOK(w.asked, w.guest, w.floor)
  }

  ghost predicate Inv(w: World) {
    LogOK(w.log, w.names, At(w.host)) && HostOK(w) && FramesOK(w) && GuestOK(w)
  }

  lemma StartHolds(hostGeneration: Id, guestStream: Id, guestGeneration: Id)
    ensures Inv(Start(hostGeneration, guestStream, guestGeneration))
  {
  }

  /** Nothing already recorded is changed. */
  ghost predicate Extends(w: World, v: World) {
    && (forall p :: p in w.log ==> p in v.log && v.log[p] == w.log[p])
    && (forall g :: g in w.names ==> g in v.names && v.names[g] == w.names[g])
    && (forall r :: r in w.asked ==> r in v.asked && v.asked[r] == w.asked[r])
    && w.frames <= v.frames
    && AtMost(At(w.host), At(v.host))
    && AtMost(w.floor, v.floor)
  }

  // ----- Host steps -----

  ghost predicate HostSideOK(w: World) {
    LogOK(w.log, w.names, At(w.host)) && HostOK(w) && FramesOK(w)
  }

  lemma {:induction false} FlushKeeps(w: World)
    requires HostSideOK(w)
    ensures HostSideOK(AfterFlush(w)) && Extends(w, AfterFlush(w))
    decreases |w.host.pending|
  {
    if w.host.pending == [] {
      assert AfterFlush(w) == w;
    } else {
      var mid := OneChunkOut(w);
      ChunkKeeps(w);
      FlushKeeps(mid);
      FlushUnrolled(w);
      ExtendsTransitive(w, mid, AfterFlush(w));
    }
  }

  function OneChunkOut(w: World): World
    requires WellFormed(w.host.pending) && w.host.pending != []
    ensures |OneChunkOut(w).host.pending| < |w.host.pending| && WellFormed(OneChunkOut(w).host.pending)
  {
    ChunkIsWellFormed(w.host.pending);
    var u := FlushedOnce(w.host);
    w.(host := u, frames := w.frames + {ChunkFrame(w.host)}, log := w.log[At(u) := u.history])
  }

  lemma FlushUnrolled(w: World)
    requires WellFormed(w.host.pending) && w.host.pending != []
    ensures AfterFlush(w) == AfterFlush(OneChunkOut(w))
  {
    ChunkIsWellFormed(w.host.pending);
    var f, rest := ChunkFrame(w.host), FlushFrames(FlushedOnce(w.host));
    assert SetOf([f] + rest) == {f} + SetOf(rest);
    assert AfterFlush(w).frames == AfterFlush(OneChunkOut(w)).frames;
  }

  lemma NothingAhead(w: World, p: Position)
    requires LogOK(w.log, w.names, At(w.host)) && !AtMost(p, At(w.host))
    ensures p !in w.log
    ensures p.sequence == 0 ==> (p.stream, p.index) !in w.names
  {
    assert p in w.log ==> Entry(w.log, w.names, At(w.host), p);
  }

  lemma ChunkKeeps(w: World)
    requires HostSideOK(w) && w.host.pending != []
    ensures HostSideOK(OneChunkOut(w)) && Extends(w, OneChunkOut(w))
  {
    var v := OneChunkOut(w);
    var t, u := w.host, FlushedOnce(w.host);
    ChunkIsWellFormed(t.pending);
    var text := t.pending[..ChunkEnd(t.pending)];
    assert Entry(w.log, w.names, At(t), At(t));
    WellFormedConcat(t.history, text);
    RetainedWellFormed(t.history + text);
    NothingAhead(w, At(u));
    forall p | p in v.log ensures Entry(v.log, v.names, At(u), p) {
      if p != At(u) {
        assert Entry(w.log, w.names, At(t), p);
      }
    }
    forall f | f in v.frames ensures FrameOK(v.log, v.names, v.asked, f) {
      if f in w.frames {
        assert FrameOK(w.log, w.names, w.asked, f);
      }
    }
  }

  lemma AnswerKeeps(w: World, request: Option<Id>)
    requires LogOK(w.log, w.names, At(w.host)) && HostOK(w) && FramesOK(w)
    requires request.Some? ==> request.value in w.asked
    ensures FramesOK(WithFrame(w, SnapshotFrame(w.host, request)))
  {
  }

  lemma NewGenerationKeeps(w: World, host: Terminal)
    requires LogOK(w.log, w.names, At(w.host)) && HostOK(w) && FramesOK(w)
    requires host.sequence == 0 && host.history == [] && host.pending == []
    requires host.streamId > w.host.streamId
             || (host.streamId == w.host.streamId && host.generationIndex > w.host.generationIndex)
    ensures var v := NewGeneration(w, host);
      && LogOK(v.log, v.names, At(v.host)) && HostOK(v) && FramesOK(v) && Extends(w, v)
  {
    NewGenerationLog(w, host);
    NewGenerationFrames(w, host);
  }

  lemma NewGenerationLog(w: World, host: Terminal)
    requires LogOK(w.log, w.names, At(w.host)) && HostOK(w)
    requires host.sequence == 0 && host.history == [] && host.pending == []
    requires !AtMost(At(host), At(w.host))
    ensures var v := NewGeneration(w, host); LogOK(v.log, v.names, At(v.host)) && HostOK(v) && Extends(w, v)
  {
    var v := NewGeneration(w, host);
    NothingAhead(w, At(host));
    forall p | p in v.log ensures Entry(v.log, v.names, At(host), p) {
      if p != At(host) {
        assert Entry(w.log, w.names, At(w.host), p);
      }
    }
  }

  lemma NewGenerationFrames(w: World, host: Terminal)
    requires LogOK(w.log, w.names, At(w.host)) && FramesOK(w)
    requires host.sequence == 0 && !AtMost(At(host), At(w.host))
    ensures FramesOK(NewGeneration(w, host))
  {
    var v := NewGeneration(w, host);
    NothingAhead(w, At(host));
    forall f | f in v.frames ensures FrameOK(v.log, v.names, v.asked, f) {
      assert FrameOK(w.log, w.names, w.asked, f);
    }
  }

  lemma GuestUndisturbed(w: World, v: World)
    requires GuestOK(w) && Extends(w, v) && v.guest == w.guest && v.floor == w.floor
    ensures GuestOK(v)
  {
  }

  // ----- Guest steps -----

  /** A frame the guest follows moves it forward to a position of the log. */
  lemma FollowedShows(w: World, g: Terminal, f: Frame, id: Id)
    requires LogOK(w.log, w.names, At(w.host)) && FrameOK(w.log, w.names, w.asked, f)
    requires g.remoteStreamId == Some(f.stream)
    requires if Attached(g) then Shows(w, g) else g.remoteGenerationIndex == -1
    ensures Follows(w, g, f, Followed(g, f, id), id)
  {
    if f.Snapshot? {
      SnapshotShows(w, g, f, id);
    } else {
      OutputShows(w, g, f, id);
    }
  }

  /** The guest is attached to the frame's stream, shows a position of the log, and did not go back. */
  ghost predicate Follows(w: World, g: Terminal, f: Frame, h: Terminal, id: Id) {
    && Attached(h) && Shows(w, h) && h.remoteStreamId == Some(f.stream)
    && (Attached(g) ==> AtMost(GuestAt(g), GuestAt(h)))
    && (!Attached(g) && f.Snapshot? ==> GuestAt(h) == FrameAt(f))
    && (h.snapshotRequestId == g.snapshotRequestId || h.snapshotRequestId.None? || h.snapshotRequestId == Some(id))
  }

  lemma SnapshotShows(w: World, g: Terminal, f: Frame, id: Id)
    requires LogOK(w.log, w.names, At(w.host)) && FrameOK(w.log, w.names, w.asked, f) && f.Snapshot?
    requires g.remoteStreamId == Some(f.stream)
    requires if Attached(g) then Shows(w, g) else g.remoteGenerationIndex == -1
    ensures Follows(w, g, f, Followed(g, f, id), id)
  {
    assert Entry(w.log, w.names, At(w.host), FrameAt(f));
    RetainedWellFormed(f.payload);
  }

  lemma OutputShows(w: World, g: Terminal, f: Frame, id: Id)
    requires LogOK(w.log, w.names, At(w.host)) && FrameOK(w.log, w.names, w.asked, f) && f.Output?
    requires g.remoteStreamId == Some(f.stream)
    requires if Attached(g) then Shows(w, g) else g.remoteGenerationIndex == -1
    ensures Follows(w, g, f, Followed(g, f, id), id)
  {
    var start := Position(f.stream, f.index, 0);
    assert (f.stream, f.index) in w.names;
    assert start in w.log && Entry(w.log, w.names, At(w.host), start);
  }

  lemma ReceiveKeeps(w: World, f: Frame, id: Id)
    requires Inv(w) && f in w.frames && id !in w.asked
    ensures Inv(GuestBecomes(w, Handled(w.guest, f, id), id))
    ensures Extends(w, GuestBecomes(w, Handled(w.guest, f, id), id))
  {
    var g, h := w.guest, Handled(w.guest, f, id);
    assert FrameOK(w.log, w.names, w.asked, f);
    if !Ignored(g, f) && g.remoteStreamId == Some(f.stream) {
      FollowedShows(w, g, f, id);
      assert Entry(w.log, w.names, At(w.host), GuestAt(h));
      GuestMoves(w, h, id);
    } else if !Ignored(g, f) && Adopts(g, f) {
      var u := g.(remoteStreamId := Some(f.stream), remoteGenerationIndex := -1);
      FollowedShows(w, u, f, id);
      assert h.snapshotRequestId.None?;
      assert AtMost(w.asked[f.request.value], FrameAt(f));
      assert AtMost(w.floor, FrameAt(f));
      assert Entry(w.log, w.names, At(w.host), GuestAt(h));
      GuestMoves(w, h, id);
    } else {
      GuestStays(w, h, id);
    }
  }

  lemma GuestMoves(w: World, h: Terminal, id: Id)
    requires Inv(w) && id !in w.asked
    requires Attached(h) && Shows(w, h) && AtMost(w.floor, GuestAt(h)) && AtMost(GuestAt(h), At(w.host))
    requires || h.snapshotRequestId.None? || h.snapshotRequestId == Some(id)
             || (h.snapshotRequestId == w.guest.snapshotRequestId && h.remoteStreamId == w.guest.remoteStreamId
                 && Attached(w.guest))
    ensures Inv(GuestBecomes(w, h, id)) && Extends(w, GuestBecomes(w, h, id))
  {
    var v := GuestBecomes(w, h, id);
    forall f | f in v.frames ensures FrameOK(v.log, v.names, v.asked, f) {
      assert FrameOK(w.log, w.names, w.asked, f);
    }
  }

  lemma GuestStays(w: World, h: Terminal, id: Id)
    requires Inv(w) && id !in w.asked
    requires h == w.guest.(candidateStreamId := h.candidateStreamId, snapshotRequestId := h.snapshotRequestId,
                           snapshotRequested := h.snapshotRequested)
    requires h.snapshotRequestId == Some(id) || h.snapshotRequestId == w.guest.snapshotRequestId
    ensures Inv(GuestBecomes(w, h, id)) && Extends(w, GuestBecomes(w, h, id))
  {
    var v := GuestBecomes(w, h, id);
    forall f | f in v.frames ensures FrameOK(v.log, v.names, v.asked, f) {
      assert FrameOK(w.log, w.names, w.asked, f);
    }
  }

  lemma PublishKeeps(w: World, text: Text)
    requires Inv(w) && WellFormed(text)
    ensures Inv(AfterPublish(w, text)) && Extends(w, AfterPublish(w, text))
  {
    WellFormedConcat(w.host.pending, text);
    RetainedWellFormed(w.host.pending + text);
  }

  lemma OtherGuestKeeps(w: World, id: Id)
    requires Inv(w) && id !in w.asked
    ensures Inv(AfterOtherAsk(w, id)) && Extends(w, AfterOtherAsk(w, id))
  {
    var v := w.(asked := w.asked[id := At(w.host)]);
    forall f | f in v.frames ensures FrameOK(v.log, v.names, v.asked, f) {
      assert FrameOK(w.log, w.names, w.asked, f);
    }
  }

  // ----- Main results -----

  lemma FlushStep(w: World)
    requires Inv(w)
    ensures Inv(AfterFlush(w)) && Extends(w, AfterFlush(w))
  {
    FlushKeeps(w);
    GuestUndisturbed(w, AfterFlush(w));
  }

  lemma AnswerStep(w: World, request: Option<Id>)
    requires Inv(w) && (request.Some? ==> request.value in w.asked)
    ensures Inv(WithFrame(w, SnapshotFrame(w.host, request)))
    ensures Extends(w, WithFrame(w, SnapshotFrame(w.host, request)))
  {
    AnswerKeeps(w, request);
  }

  lemma NewGenerationStep(w: World, host: Terminal)
    requires Inv(w) && host.sequence == 0 && host.history == [] && host.pending == []
    requires host.streamId > w.host.streamId
             || (host.streamId == w.host.streamId && host.generationIndex > w.host.generationIndex)
    ensures Inv(NewGeneration(w, host)) && Extends(w, NewGeneration(w, host))
  {
    NewGenerationKeeps(w, host);
    GuestUndisturbed(w, NewGeneration(w, host));
  }

  lemma AnswerEvent(w: World, request: Option<Id>)
    requires Inv(w) && Enabled(w, Answer(request))
    ensures Inv(AfterAnswer(w, request)) && Extends(w, AfterAnswer(w, request))
  {
    FlushStep(w);
    AnswerStep(AfterFlush(w), request);
    ExtendsTransitive(w, AfterFlush(w), AfterAnswer(w, request));
  }

  lemma HostResetEvent(w: World, generation: Id)
    requires Inv(w)
    ensures Inv(AfterHostReset(w, generation)) && Extends(w, AfterHostReset(w, generation))
  {
    var v := NewGeneration(w, WasReset(w.host, generation));
    NewGenerationStep(w, WasReset(w.host, generation));
    AnswerStep(v, None);
    ExtendsTransitive(w, v, AfterHostReset(w, generation));
  }

  lemma HostRestartEvent(w: World, generation: Id)
    requires Inv(w)
    ensures Inv(AfterHostRestart(w, generation)) && Extends(w, AfterHostRestart(w, generation))
  {
    var host := Initial(w.host.streamId + 1, generation);
    assert AfterHostRestart(w, generation) == NewGeneration(w, host);
    NewGenerationStep(w, host);
  }

  lemma StepKeeps(w: World, e: Event)
    requires Inv(w) && Enabled(w, e)
    ensures Inv(Next(w, e)) && Extends(w, Next(w, e))
  {
    match e
    case Publish(text) => PublishKeeps(w, text);
    case Flush => FlushStep(w);
    case Answer(request) => AnswerEvent(w, request);
    case HostReset(generation) => HostResetEvent(w, generation);
    case HostRestart(generation) => HostRestartEvent(w, generation);
    case Receive(frame, id) => ReceiveKeeps(w, frame, id);
    case Ask(renew, id) => GuestStays(w, Requested(w.guest, renew, id), id);
    case GuestReset(generation) => GuestResetKeeps(w, generation);
    case OtherGuestAsks(id) => OtherGuestKeeps(w, id);
  }

  lemma GuestResetKeeps(w: World, generation: Id)
    requires Inv(w)
    ensures Inv(AfterGuestReset(w, generation)) && Extends(w, AfterGuestReset(w, generation))
  {
  }

  lemma ExtendsTransitive(u: World, v: World, w: World)
    requires Extends(u, v) && Extends(v, w)
    ensures Extends(u, w)
  {
  }

  lemma {:induction false} RunKeeps(w: World, events: seq<Event>)
    requires Inv(w) && IsRun(w, events)
    ensures Inv(After(w, events)) && Extends(w, After(w, events))
    decreases |events|
  {
    if events != [] {
      StepKeeps(w, events[0]);
      RunKeeps(Next(w, events[0]), events[1..]);
      ExtendsTransitive(w, Next(w, events[0]), After(w, events));
    }
  }

  /**
   In every run the text a guest shows is exactly the host's history right after the output the guest's
   (stream, generation, sequence) names, and a guest following no stream shows nothing.
   */
  lemma GuestShowsHostHistory(a: Id, b: Id, c: Id, events: seq<Event>)
    requires IsRun(Start(a, b, c), events)
    ensures var w := After(Start(a, b, c), events);
      if w.guest.remoteStreamId.Some? then
        Attached(w.guest) && GuestAt(w.guest) in w.log && w.guest.history == w.log[GuestAt(w.guest)]
      else w.guest.history == []
  {
    StartHolds(a, b, c);
    RunKeeps(Start(a, b, c), events);
  }

  /**
   Along every run the guest's position never goes back, across stream changes, host restarts and even its own
   resets; so it never returns to a stream whose process ended before the adopted one began. What the host
   recorded for a position never changes.
   */
  lemma GuestNeverGoesBack(a: Id, b: Id, c: Id, before: seq<Event>, later: seq<Event>)
    requires IsRun(Start(a, b, c), before) && IsRun(After(Start(a, b, c), before), later)
    ensures var w := After(Start(a, b, c), before);
      var v := After(w, later);
      && (w.guest.remoteStreamId.Some? && v.guest.remoteStreamId.Some? ==>
           Attached(w.guest) && Attached(v.guest) && AtMost(GuestAt(w.guest), GuestAt(v.guest)))
      && (forall p :: p in w.log ==> p in v.log && v.log[p] == w.log[p])
  {
    StartHolds(a, b, c);
    RunKeeps(Start(a, b, c), before);
    RunKeeps(After(Start(a, b, c), before), later);
  }

  /** The answer to the guest's current nonce, once it arrives, brings the guest level with the host. */
  lemma AnswerCatchesUp(w: World, id: Id)
    requires Inv(w) && w.guest.snapshotRequestId.Some? && id !in w.asked
    ensures var v := AfterFlush(w);
      var g := Handled(w.guest, SnapshotFrame(v.host, w.guest.snapshotRequestId), id);
      Attached(g) && GuestAt(g) == At(v.host) && g.history == v.host.history
  {
    FlushKeeps(w);
    var v := AfterFlush(w);
    GuestUndisturbed(w, v);
    assert Entry(v.log, v.names, At(v.host), At(v.host));
    RetainedWellFormed(v.host.history);
  }

  // ----- Getting on -----

  /** An output of what the guest follows. */
  predicate OfFollowed(g: Terminal, f: Frame) {
    Attached(g) && f.Output? && g.remoteStreamId == Some(f.stream) && f.index == g.remoteGenerationIndex
  }

  /** The next output moves the guest to it: the guest shows what the host showed then, and asks for nothing. */
  lemma NextOutputMoves(w: World, f: Frame, id: Id)
    requires Inv(w) && f in w.frames && OfFollowed(w.guest, f) && f.sequence == w.guest.sequence + 1
    ensures var h := Handled(w.guest, f, id);
      && Attached(h) && GuestAt(h) == FrameAt(f) && FrameAt(f) in w.log && h.history == w.log[FrameAt(f)]
      && !Asks(w.guest, f) && h.snapshotRequestId == w.guest.snapshotRequestId
  {
    assert FrameOK(w.log, w.names, w.asked, f) && Shows(w, w.guest);
  }

  /** An output already shown changes nothing. */
  lemma OldOutputStays(w: World, f: Frame, id: Id)
    requires Inv(w) && f in w.frames && OfFollowed(w.guest, f) && f.sequence <= w.guest.sequence
    ensures Handled(w.guest, f, id) == w.guest && !Asks(w.guest, f)
  {
    assert FrameOK(w.log, w.names, w.asked, f) && Shows(w, w.guest);
  }

  /** After a gap the guest stays where it is, and asks exactly when it is not waiting for a snapshot already. */
  lemma GapAsks(w: World, f: Frame, id: Id)
    requires Inv(w) && f in w.frames && OfFollowed(w.guest, f) && f.sequence > w.guest.sequence + 1
    ensures var h := Handled(w.guest, f, id);
      && Attached(h) && GuestAt(h) == GuestAt(w.guest) && h.history == w.guest.history
      && h.snapshotRequested && (Asks(w.guest, f) <==> !w.guest.snapshotRequested)
      && (Asks(w.guest, f) ==> h.snapshotRequestId.Some?)
  {
    assert FrameOK(w.log, w.names, w.asked, f) && Shows(w, w.guest);
  }

  /** The first output of a newer generation: the guest asks, and shows the start of that generation. */
  lemma NewerOutputAsks(w: World, f: Frame, id: Id)
    requires Inv(w) && f in w.frames && f.Output? && Attached(w.guest) && w.guest.remoteStreamId == Some(f.stream)
    requires f.index > w.guest.remoteGenerationIndex
    ensures var h := Handled(w.guest, f, id);
      && Attached(h) && GuestAt(h) == Position(f.stream, f.index, 0) && h.history == []
      && Asks(w.guest, f) && h.snapshotRequestId == Some(id)
  {
  }

  /** A stream the guest does not follow: its first frame makes the guest ask, also the very first of all. */
  lemma OtherStreamAsks(g: Terminal, f: Frame, id: Id)
    requires f.Output? && g.remoteStreamId != Some(f.stream)
    ensures g.candidateStreamId != Some(f.stream) ==> Asks(g, f) && Handled(g, f, id).snapshotRequestId == Some(id)
    ensures g.candidateStreamId == Some(f.stream) && g.snapshotRequested ==> !Asks(g, f) && Handled(g, f, id) == g
  {
  }

  function ReceivedAll(g: Terminal, frames: seq<Frame>, id: Id): Terminal
    decreases |frames|
  {
    if frames == [] then g else ReceivedAll(Handled(g, frames[0], id), frames[1..], id)
  }

  /** The guest is where the host is and shows the same. */
  predicate IsLevel(g: Terminal, t: Terminal) {
    Attached(g) && GuestAt(g) == At(t) && g.generation == t.generation && g.history == t.history
  }

  lemma ChunkLevels(g: Terminal, t: Terminal, id: Id)
    requires IsLevel(g, t) && t.pending != []
    ensures IsLevel(Handled(g, ChunkFrame(t), id), FlushedOnce(t))
  {
  }

  /** A guest that is level with the host and receives all that the host flushes, in order, is level with it again. */
  lemma {:induction false} FlushLevels(g: Terminal, t: Terminal, id: Id)
    requires IsLevel(g, t) && WellFormed(t.pending)
    ensures IsLevel(ReceivedAll(g, FlushFrames(t), id), Flushed(t))
    decreases |t.pending|
  {
    if t.pending != [] {
      ChunkIsWellFormed(t.pending);
      ChunkLevels(g, t, id);
      FlushLevels(Handled(g, ChunkFrame(t), id), FlushedOnce(t), id);
      assert ([ChunkFrame(t)] + FlushFrames(FlushedOnce(t)))[1..] == FlushFrames(FlushedOnce(t));
    }
  }

  /** A flush leaves nothing pending, and what was pending joins the history as long as that is not too long. */
  lemma {:induction false} FlushShowsAll(t: Terminal)
    requires WellFormed(t.pending) && WellFormed(t.history) && |t.history| + |t.pending| <= HISTORY_CHARS
    ensures Flushed(t).pending == [] && Flushed(t).history == t.history + t.pending
    decreases |t.pending|
  {
    if t.pending == [] {
      assert t.history + [] == t.history;
    } else {
      ChunkIsWellFormed(t.pending);
      var end := ChunkEnd(t.pending);
      WellFormedConcat(t.history, t.pending[..end]);
      RetainedWellFormed(t.history + t.pending[..end]);
      FlushShowsAll(FlushedOnce(t));
      assert t.history + t.pending[..end] + t.pending[end..] == t.history + t.pending;
    }
  }

  lemma ConcatTwice(a: Text, b: Text, c: Text)
    ensures a + (b + c) == a + b + c
  {
  }

  /** Published text is what the next flush adds to what the host shows. */
  lemma PublishedIsShown(t: Terminal, text: Text)
    requires WellFormed(t.pending) && WellFormed(t.history) && WellFormed(text)
    requires |t.history| + |t.pending| + |text| <= HISTORY_CHARS
    ensures WellFormed(Published(t, text).pending)
    ensures Flushed(Published(t, text)).history == t.history + t.pending + text
  {
    WellFormedConcat(t.pending, text);
    var u := Published(t, text);
    assert u == t.(pending := t.pending + text);
    FlushShowsAll(u);
    ConcatTwice(t.history, t.pending, text);
  }

  /** The answer to the current nonce makes the guest level with the host, and every further flush keeps it level. */
  lemma AnsweredThenLevel(w: World, id: Id)
    requires Inv(w) && w.guest.snapshotRequestId.Some? && id !in w.asked
    ensures var v := AfterFlush(w);
      IsLevel(Handled(w.guest, SnapshotFrame(v.host, w.guest.snapshotRequestId), id), v.host)
  {
    AnswerCatchesUp(w, id);
    FlushKeeps(w);
    GuestUndisturbed(w, AfterFlush(w));
  }
}

/**
 One end of the shared terminal (src/core/sharedTerminal.ts).

 A process plays host or guest; both roles live in the same record. Identifiers drawn at random are parameters.
 Frames always carry a stream id.
 */
module TerminalReplication {
  import opened Outcomes
  import opened Utf16

  const HISTORY_CHARS: nat := 128 * 1024
  const CHUNK_CHARS: nat := 16 * 1024

  type Id = nat

  datatype Frame =
    | Output(stream: Id, generation: Id, index: nat, sequence: nat, payload: Text)
    | Snapshot(stream: Id, generation: Id, index: nat, sequence: nat, request: Option<Id>, payload: Text)

  datatype Terminal = Terminal(
    streamId: Id, generation: Id, generationIndex: nat, sequence: nat, history: Text, pending: Text,
    remoteStreamId: Option<Id>, remoteGenerationIndex: int, candidateStreamId: Option<Id>,
    snapshotRequestId: Option<Id>, snapshotRequested: bool)

  function Initial(streamId: Id, generation: Id): Terminal {
    Terminal(streamId, generation, 0, 0, [], [], None, -1, None, None, false)
  }

  // ----- Text retention and chunking -----

  /** The retained tail starts on a whole character. */
  function RetainedText(text: Text): (r: Text)
    ensures |r| <= HISTORY_CHARS
  {
    var tail := if |text| <= HISTORY_CHARS then text else text[|text| - HISTORY_CHARS..];
    if tail != [] && IsLow(tail[0]) then tail[1..] else tail
  }

  lemma RetainedWellFormed(text: Text)
    requires WellFormed(text)
    ensures WellFormed(RetainedText(text))
    ensures |text| <= HISTORY_CHARS ==> RetainedText(text) == text
  {
    if text != [] {
      WellFormedPairs(text, 0);
    }
    if |text| > HISTORY_CHARS {
      var k := |text| - HISTORY_CHARS;
      if IsLow(text[k]) {
        if k + 1 < |text| {
          WellFormedPairs(text, k + 1);
        }
        WellFormedSplit(text, k + 1);
        assert text[k..][1..] == text[k + 1..];
      } else {
        WellFormedSplit(text, k);
      }
    }
  }

  /** Length of the next output chunk: never half of a pair. */
  function ChunkEnd(pending: Text): (end: nat)
    requires pending != []
    ensures end <= |pending|
  {
    var end := if CHUNK_CHARS < |pending| then CHUNK_CHARS else |pending|;
    if IsHigh(pending[end - 1]) then end - 1 else end
  }

  lemma ChunkIsWellFormed(pending: Text)
    requires WellFormed(pending) && pending != []
    ensures 0 < ChunkEnd(pending)
    ensures WellFormed(pending[..ChunkEnd(pending)]) && WellFormed(pending[ChunkEnd(pending)..])
  {
    var full := if CHUNK_CHARS < |pending| then CHUNK_CHARS else |pending|;
    var end := ChunkEnd(pending);
    WellFormedPairs(pending, full - 1);
    if full < |pending| {
      WellFormedPairs(pending, full);
    }
    if end < |pending| {
      WellFormedPairs(pending, end);
    }
    WellFormedPairs(pending, 0);
    WellFormedSplit(pending, end);
  }

  // ----- The host side -----

  function Published(t: Terminal, text: Text): Terminal {
    var pending := t.pending + text;
    t.(pending := if |pending| > HISTORY_CHARS then RetainedText(pending) else pending)
  }

  /** The next chunk leaves `pending`, advances the sequence and joins the history. */
  function FlushedOnce(t: Terminal): Terminal
    requires t.pending != []
  {
    var end := ChunkEnd(t.pending);
    t.(pending := t.pending[end..], sequence := t.sequence + 1, history := RetainedText(t.history + t.pending[..end]))
  }

  function ChunkFrame(t: Terminal): Frame
    requires t.pending != []
  {
    Output(t.streamId, t.generation, t.generationIndex, t.sequence + 1, t.pending[..ChunkEnd(t.pending)])
  }

  /** All output still pending, as frames, and the terminal after sending them. */
  function Flushed(t: Terminal): Terminal
    requires WellFormed(t.pending)
    decreases |t.pending|
  {
    if t.pending == [] then t else
      ChunkIsWellFormed(t.pending);
      Flushed(FlushedOnce(t))
  }

  function FlushFrames(t: Terminal): seq<Frame>
    requires WellFormed(t.pending)
    decreases |t.pending|
  {
    if t.pending == [] then [] else
      ChunkIsWellFormed(t.pending);
      [ChunkFrame(t)] + FlushFrames(FlushedOnce(t))
  }

  lemma FlushUnfolds(t: Terminal, frames: seq<Frame>)
    requires WellFormed(t.pending) && t.pending != []
    ensures ChunkEnd(t.pending) > 0 && WellFormed(FlushedOnce(t).pending)
    ensures Flushed(t) == Flushed(FlushedOnce(t))
    ensures frames + FlushFrames(t) == frames + [ChunkFrame(t)] + FlushFrames(FlushedOnce(t))
  {
    ChunkIsWellFormed(t.pending);
    FramesConcat(frames, [ChunkFrame(t)], FlushFrames(FlushedOnce(t)));
  }

  lemma FramesConcat(a: seq<Frame>, b: seq<Frame>, c: seq<Frame>)
    ensures a + (b + c) == a + b + c
  {
  }

  function SnapshotFrame(t: Terminal, request: Option<Id>): Frame {
    Snapshot(t.streamId, t.generation, t.generationIndex, t.sequence, request, t.history)
  }

  /** A reset starts a new generation on the host and forgets the remote stream on a guest. */
  function WasReset(t: Terminal, generation: Id): Terminal {
    Terminal(t.streamId, generation, t.generationIndex + 1, 0, [], [], None, -1, None, None, false)
  }

  // ----- The guest side -----

  /** The nonce is kept for a retry and replaced when a fresh answer is needed. */
  function Requested(t: Terminal, renew: bool, id: Id): Terminal {
    t.(snapshotRequested := true,
       snapshotRequestId := if renew || t.snapshotRequestId.None? then Some(id) else t.snapshotRequestId)
  }

  /** A frame of a stream the guest does not follow is accepted only as the answer to its current nonce. */
  predicate Adopts(t: Terminal, f: Frame) {
    f.Snapshot? && f.request.Some? && f.request == t.snapshotRequestId
  }

  predicate Ignored(t: Terminal, f: Frame) {
    f.Snapshot? && f.request.Some? && f.request != t.snapshotRequestId
  }

  function WithSnapshot(t: Terminal, f: Frame): Terminal
    requires f.Snapshot?
  {
    var shown := t.(generation := f.generation, sequence := f.sequence, history := RetainedText(f.payload));
    if t.candidateStreamId.None? || t.candidateStreamId == t.remoteStreamId || f.request == t.snapshotRequestId then
      shown.(snapshotRequested := false, snapshotRequestId := None, candidateStreamId := None)
    else shown
  }

  /** The guest's answer to a host frame once its stream is the followed one. */
  function Followed(t: Terminal, f: Frame, id: Id): Terminal {
    if f.index < t.remoteGenerationIndex then t
    else if f.index == t.remoteGenerationIndex && f.generation != t.generation then t
    else
      var newer := f.index > t.remoteGenerationIndex;
      var u := t.(remoteGenerationIndex := f.index);
      if newer && f.Output? then
        Requested(u.(generation := f.generation, sequence := 0, history := []), true, id)
      else if f.Snapshot? then
        if !newer && f.generation == u.generation && f.sequence < u.sequence then u else WithSnapshot(u, f)
      else if f.generation == u.generation && f.sequence <= u.sequence then u
      else if f.generation != u.generation || f.sequence != u.sequence + 1 then
        if u.snapshotRequested then u else Requested(u, false, id)
      else u.(sequence := f.sequence, history := RetainedText(u.history + f.payload))
  }

  /** A frame of the followed stream makes the guest ask if it starts a newer generation or leaves a first gap. */
  predicate FollowAsks(t: Terminal, f: Frame) {
    && f.Output?
    && (f.index > t.remoteGenerationIndex
        || (f.index == t.remoteGenerationIndex && f.generation == t.generation && f.sequence > t.sequence + 1
            && !t.snapshotRequested))
  }

  /** Whether a frame makes the guest ask for a snapshot. */
  predicate Asks(t: Terminal, f: Frame) {
    && !Ignored(t, f)
    && if t.remoteStreamId == Some(f.stream) then FollowAsks(t, f)
       else !Adopts(t, f) && (t.candidateStreamId != Some(f.stream) || !t.snapshotRequested)
  }

  /** What a guest does with a frame from its host; `id` is the nonce it would draw. */
  function Handled(t: Terminal, f: Frame, id: Id): Terminal {
    if Ignored(t, f) then t
    else if t.remoteStreamId == Some(f.stream) then Followed(t, f, id)
    else if Adopts(t, f) then
      Followed(t.(remoteStreamId := Some(f.stream), remoteGenerationIndex := -1), f, id)
    else if t.candidateStreamId != Some(f.stream) || !t.snapshotRequested then
      Requested(t.(candidateStreamId := Some(f.stream)), true, id)
    else t
  }

  // ----- The class of the source -----

  class SharedTerminal {
    var streamId: Id
    var generation: Id
    var generationIndex: nat
    var sequence: nat
    var history: Text
    var pending: Text
    var remoteStreamId: Option<Id>
    var remoteGenerationIndex: int
    var candidateStreamId: Option<Id>
    var snapshotRequestId: Option<Id>
    var snapshotRequested: bool

    ghost function State(): Terminal
      reads this
    {
      Terminal(streamId, generation, generationIndex, sequence, history, pending, remoteStreamId,
               remoteGenerationIndex, candidateStreamId, snapshotRequestId, snapshotRequested)
    }

    constructor (streamId: Id, generation: Id)
      ensures State() == Initial(streamId, generation)
    {
      this.streamId, this.generation, generationIndex, sequence := streamId, generation, 0, 0;
      history, pending := [], [];
      remoteStreamId, remoteGenerationIndex, candidateStreamId := None, -1, None;
      snapshotRequestId, snapshotRequested := None, false;
    }

    /** Returns the nonce put into the request frame. */
    method RequestSnapshot(renew: bool, id: Id) returns (sent: Id)
      modifies this
      ensures State() == Requested(old(State()), renew, id)
      ensures snapshotRequestId == Some(sent)
      ensures if renew || old(snapshotRequestId).None? then sent == id else Some(sent) == old(snapshotRequestId)
    {
      snapshotRequested := true;
      if renew || snapshotRequestId.None? {
        snapshotRequestId := Some(id);
      }
      sent := snapshotRequestId.value;
    }

    method Publish(text: Text)
      modifies this
      ensures State() == Published(old(State()), text)
    {
      pending := pending + text;
      if |pending| > HISTORY_CHARS {
        pending := RetainedText(pending);
      }
    }

    method FlushOutput() returns (frames: seq<Frame>)
      requires WellFormed(pending)
      modifies this
      ensures State() == Flushed(old(State())) && frames == FlushFrames(old(State()))
    {
      frames := [];
      while pending != []
        invariant WellFormed(pending)
        invariant Flushed(State()) == Flushed(old(State()))
        invariant frames + FlushFrames(State()) == FlushFrames(old(State()))
        decreases |pending|
      {
        FlushUnfolds(State(), frames);
        var frame := FlushChunk();
        frames := frames + [frame];
      }
    }

    /** The part of a flush that sends one chunk. */
    method FlushChunk() returns (frame: Frame)
      requires pending != []
      modifies this
      ensures State() == FlushedOnce(old(State())) && frame == ChunkFrame(old(State()))
    {
      var end := ChunkEnd(pending);
      var text := pending[..end];
      pending := pending[end..];
      sequence := sequence + 1;
      history := RetainedText(history + text);
      frame := Output(streamId, generation, generationIndex, sequence, text);
    }

    method SendSnapshot(request: Option<Id>) returns (frames: seq<Frame>)
      requires WellFormed(pending)
      modifies this
      ensures State() == Flushed(old(State()))
      ensures frames == FlushFrames(old(State())) + [SnapshotFrame(State(), request)]
    {
      frames := FlushOutput();
      frames := frames + [Snapshot(streamId, generation, generationIndex, sequence, request, history)];
    }

    method Reset(newGeneration: Id)
      modifies this
      ensures State() == WasReset(old(State()), newGeneration)
    {
      pending, history, sequence := [], [], 0;
      generation := newGeneration;
      generationIndex := generationIndex + 1;
      remoteGenerationIndex, remoteStreamId, candidateStreamId := -1, None, None;
      snapshotRequestId, snapshotRequested := None, false;
    }

    /** A frame from the host reaches a guest. */
    method Handle(f: Frame, id: Id) returns (requests: seq<Id>)
      modifies this
      ensures State() == Handled(old(State()), f, id)
      ensures old(Asks(State(), f)) ==> snapshotRequestId.Some? && requests == [snapshotRequestId.value]
      ensures !old(Asks(State(), f)) ==> requests == []
    {
      requests := [];
      if f.Snapshot? && f.request.Some? && f.request != snapshotRequestId {
        return;
      }
      if Some(f.stream) != remoteStreamId {
        if f.Snapshot? && f.request.Some? && f.request == snapshotRequestId {
          remoteStreamId := Some(f.stream);
          remoteGenerationIndex := -1;
        } else {
          if candidateStreamId != Some(f.stream) || !snapshotRequested {
            candidateStreamId := Some(f.stream);
            var sent := RequestSnapshot(true, id);
            requests := [sent];
          }
          return;
        }
      }
      requests := Follow(f, id);
    }

    /** The rest of the handling, once the frame's stream is the followed one. */
    method Follow(f: Frame, id: Id) returns (requests: seq<Id>)
      requires remoteStreamId == Some(f.stream)
      modifies this
      ensures State() == Followed(old(State()), f, id)
      ensures old(FollowAsks(State(), f)) ==> snapshotRequestId.Some? && requests == [snapshotRequestId.value]
      ensures !old(FollowAsks(State(), f)) ==> requests == []
    {
      requests := [];
      if f.index < remoteGenerationIndex {
        return;
      }
      if f.index == remoteGenerationIndex && f.generation != generation {
        return;
      }
      var newer := f.index > remoteGenerationIndex;
      remoteGenerationIndex := f.index;
      if newer && f.Output? {
        generation, sequence, history := f.generation, 0, [];
        var sent := RequestSnapshot(true, id);
        requests := [sent];
        return;
      }
      if f.Snapshot? {
        if !newer && f.generation == generation && f.sequence < sequence {
          return;
        }
        generation, sequence, history := f.generation, f.sequence, RetainedText(f.payload);
        if candidateStreamId.None? || candidateStreamId == remoteStreamId || f.request == snapshotRequestId {
          snapshotRequested, snapshotRequestId, candidateStreamId := false, None, None;
        }
      } else {
        if f.generation == generation && f.sequence <= sequence {
          return;
        }
        if f.generation != generation || f.sequence != sequence + 1 {
          if !snapshotRequested {
            var sent := RequestSnapshot(false, id);
            requests := [sent];
          }
          return;
        }
        sequence := f.sequence;
        history := RetainedText(history + f.payload);
      }
    }
  }
}

/**
 Whole runs of a receiver of the frame relay (src/runtime/mqttFrameRelay.ts, src/runtime/nostrRelay.ts): honest
 senders seal and cut frames, and the network hands over any of their messages in any order, any number of times or
 never, while packets and remembered ids expire.

 `log` records what was delivered and which ids were forgotten.
 */
module RelayRun {
  import opened Bytes
  import opened FiniteSets
  import opened FrameRelay
  import opened Outcomes
  import opened RelayReceiver

  datatype Sent = Sent(packet: Packet, frame: seq<Byte>)

  datatype LogEntry = Delivered(key: PacketKey, frame: seq<Byte>) | Forgot(keys: set<PacketKey>)

  datatype World = World(local: string, sent: map<PacketKey, Sent>, r: Receiver, log: seq<LogEntry>)

  datatype Event = Send(s: Sent) | Receive(key: PacketKey, i: nat, now: int) | Housekeep(now: int)

  type Opener = seq<Byte> -> Option<seq<Byte>>

  function KeyOf(p: Packet): PacketKey { PacketKey(p.from, p.id) }

  /** A frame within the limit, sealed so that the receiver can open it, under an id never used before. */
  predicate IsHonest(w: World, s: Sent, open: Opener) {
    && KeyOf(s.packet) !in w.sent && IsAddressed(s.packet, w.local) && |s.frame| <= MaxWireFrameBytes
    && |s.packet.sealed| == |s.frame| + SealBytes && open(s.packet.sealed) == Some(s.frame)
  }

  predicate Enabled(w: World, e: Event, open: Opener) {
    match e
    case Send(s) => IsHonest(w, s, open)
    case Receive(key, i, _) => key in w.sent && i < ChunkCount(|w.sent[key].packet.sealed|)
    case Housekeep(_) => true
  }

  function SeenKeys(seen: seq<Seen>): set<PacketKey> { set i | 0 <= i < |seen| :: seen[i].key }

  /** The chunks of a complete packet in the order of their indexes. */
  function Assembled(e: PendingPacket): seq<Byte> {
    if forall i :: 0 <= i < e.total ==> i in e.chunks then Joined(e.chunks, e.total) else []
  }

  function Delivery(complete: Option<PendingPacket>, open: Opener): seq<LogEntry> {
    if complete.None? then [] else
      var frame := open(Assembled(complete.value));
      if frame.None? then [] else [Delivered(complete.value.key, frame.value)]
  }

  function Result(w: World, key: PacketKey, i: nat, now: int): (Receiver, Option<PendingPacket>)
    requires key in w.sent
  {
    var p := w.sent[key].packet;
    Received(w.r, key, i, ChunkCount(|p.sealed|), p.sequence, Chunk(p.sealed, i), now)
  }

  function AfterReceive(w: World, key: PacketKey, i: nat, now: int, open: Opener): World
    requires key in w.sent
  {
    var result := Result(w, key, i, now);
    w.(r := result.0,
       log := w.log + Delivery(result.1, open) + [Forgot(SeenKeys(w.r.seen) - SeenKeys(result.0.seen))])
  }

  function AfterHousekeeping(w: World, now: int): World {
    var r := Housekept(w.r, now);
    w.(r := r, log := w.log + [Forgot(SeenKeys(w.r.seen) - SeenKeys(r.seen))])
  }

  function Next(w: World, e: Event, open: Opener): World
    requires Enabled(w, e, open)
  {
    match e
    case Send(s) => w.(sent := w.sent[KeyOf(s.packet) := s])
    case Receive(key, i, now) => AfterReceive(w, key, i, now, open)
    case Housekeep(now) => AfterHousekeeping(w, now)
  }

  predicate IsRun(w: World, events: seq<Event>, open: Opener)
    decreases |events|
  {
    events == [] || (Enabled(w, events[0], open) && IsRun(Next(w, events[0], open), events[1..], open))
  }

  function Ran(w: World, events: seq<Event>, open: Opener): World
    requires IsRun(w, events, open)
    decreases |events|
  {
    if events == [] then w else Ran(Next(w, events[0], open), events[1..], open)
  }

  function Start(local: string): World { World(local, map[], Receiver([], 0, []), []) }

  // ----- The table of pending packets -----

  /** The bytes stored under the first `n` indexes. */
  function Size(chunks: map<nat, seq<Byte>>, n: nat): nat {
    if n == 0 then 0 else Size(chunks, n - 1) + if n - 1 in chunks then |chunks[n - 1]| else 0
  }

  lemma {:induction false} SizeGrows(chunks: map<nat, seq<Byte>>, index: nat, chunk: seq<Byte>, n: nat)
    requires index !in chunks
    ensures Size(chunks[index := chunk], n) == Size(chunks, n) + if index < n then |chunk| else 0
  {
    if n > 0 {
      SizeGrows(chunks, index, chunk, n - 1);
    }
  }

  /** The bytes all pending packets hold. */
  function StoredBytes(pending: seq<PendingPacket>): nat {
    if pending == [] then 0 else
      StoredBytes(pending[..|pending| - 1]) + Size(pending[|pending| - 1].chunks, pending[|pending| - 1].total)
  }

  lemma StoredAppend(pending: seq<PendingPacket>, e: PendingPacket)
    ensures StoredBytes(pending + [e]) == StoredBytes(pending) + Size(e.chunks, e.total)
  {
    assert (pending + [e])[..|pending|] == pending;
  }

  lemma {:induction false} StoredUpdate(pending: seq<PendingPacket>, i: nat, e: PendingPacket)
    requires i < |pending|
    ensures StoredBytes(pending[i := e])
         == StoredBytes(pending) - Size(pending[i].chunks, pending[i].total) + Size(e.chunks, e.total)
  {
    var n := |pending| - 1;
    if i < n {
      assert pending[i := e][..n] == pending[..n][i := e];
      StoredUpdate(pending[..n], i, e);
    } else {
      assert pending[i := e][..n] == pending[..n];
    }
  }

  lemma {:induction false} StoredRemove(pending: seq<PendingPacket>, i: nat)
    requires i < |pending|
    ensures StoredBytes(Removed(pending, i)) == StoredBytes(pending) - Size(pending[i].chunks, pending[i].total)
  {
    var n := |pending| - 1;
    if i < n {
      assert Removed(pending, i)[..n - 1] == Removed(pending[..n], i);
      StoredRemove(pending[..n], i);
    } else {
      assert Removed(pending, i) == pending[..n];
    }
  }

  /** A pending packet holds some of the chunks its sender cut, and not all. */
  predicate EntryOK(sent: map<PacketKey, Sent>, e: PendingPacket) {
    && e.key in sent && e.key == KeyOf(sent[e.key].packet)
    && e.total == ChunkCount(|sent[e.key].packet.sealed|) && e.sequence == sent[e.key].packet.sequence
    && e.bytes == Size(e.chunks, e.total) && |e.chunks| < e.total
    && HoldsChunks(e, sent[e.key].packet.sealed)
  }

  predicate HoldsChunks(e: PendingPacket, sealed: seq<Byte>) {
    forall i :: i in e.chunks ==> i < e.total && e.chunks[i] == Chunk(sealed, i)
  }

  ghost predicate AllOK(sent: map<PacketKey, Sent>, pending: seq<PendingPacket>) {
    forall i :: 0 <= i < |pending| ==> EntryOK(sent, pending[i])
  }

  ghost predicate KeysDiffer(pending: seq<PendingPacket>) {
    forall i, j :: 0 <= i < j < |pending| ==> pending[i].key != pending[j].key
  }

  ghost predicate PendingOK(w: World) {
    && AllOK(w.sent, w.r.pending) && KeysDiffer(w.r.pending) && |w.r.pending| <= MaxPendingPackets
    && w.r.pendingBytes == StoredBytes(w.r.pending) <= MaxPendingPacketBytes
  }

  ghost predicate SentOK(w: World, open: Opener) {
    forall key :: key in w.sent ==> SentAt(w, key, open)
  }

  predicate SentAt(w: World, key: PacketKey, open: Opener)
    requires key in w.sent
  {
    var s := w.sent[key];
    key == KeyOf(s.packet) && s.packet.sealed != [] && open(s.packet.sealed) == Some(s.frame)
  }

  // ----- Storing a chunk -----

  lemma OpenedKeeps(w: World, key: PacketKey, now: int)
    requires PendingOK(w) && key in w.sent && key == KeyOf(w.sent[key].packet)
    requires |w.r.pending| < MaxPendingPackets && forall i :: 0 <= i < |w.r.pending| ==> w.r.pending[i].key != key
    ensures var p := w.sent[key].packet; PendingOK(w.(r := Opened(w.r, key, ChunkCount(|p.sealed|), p.sequence, now)))
  {
    var p := w.sent[key].packet;
    var e := PendingPacket(key, map[], ChunkCount(|p.sealed|), p.sequence, now, 0);
    EmptySize(e.total);
    StoredAppend(w.r.pending, e);
    assert EntryOK(w.sent, e);
  }

  lemma {:induction false} EmptySize(n: nat)
    ensures Size(map[], n) == 0
  {
    if n > 0 {
      EmptySize(n - 1);
    }
  }

  /** With the new chunk the entry still holds chunks of its packet, and its byte count is right. */
  lemma ChunkJoins(sent: map<PacketKey, Sent>, e: PendingPacket, index: nat)
    requires EntryOK(sent, e) && index < e.total && index !in e.chunks
    ensures var chunk := Chunk(sent[e.key].packet.sealed, index); var more := WithChunk(e, index, chunk);
      more.bytes == Size(more.chunks, more.total) && HoldsChunks(more, sent[e.key].packet.sealed)
  {
    SizeGrows(e.chunks, index, Chunk(sent[e.key].packet.sealed, index), e.total);
  }

  lemma UpdatingKeeps(sent: map<PacketKey, Sent>, pending: seq<PendingPacket>, i: nat, e: PendingPacket)
    requires AllOK(sent, pending) && KeysDiffer(pending) && i < |pending| && EntryOK(sent, e) && e.key == pending[i].key
    ensures AllOK(sent, pending[i := e]) && KeysDiffer(pending[i := e])
    ensures StoredBytes(pending[i := e]) == StoredBytes(pending) - pending[i].bytes + e.bytes
  {
    StoredUpdate(pending, i, e);
    assert EntryOK(sent, pending[i]);
  }

  lemma RemovingKeeps(sent: map<PacketKey, Sent>, pending: seq<PendingPacket>, i: nat)
    requires AllOK(sent, pending) && KeysDiffer(pending) && i < |pending|
    ensures AllOK(sent, Removed(pending, i)) && KeysDiffer(Removed(pending, i))
    ensures StoredBytes(Removed(pending, i)) == StoredBytes(pending) - pending[i].bytes
  {
    StoredRemove(pending, i);
    RemovingKeepsKeys(pending, i);
    RemovingKeepsEntries(sent, pending, i);
    assert EntryOK(sent, pending[i]);
  }

  lemma RemovingKeepsEntries(sent: map<PacketKey, Sent>, pending: seq<PendingPacket>, i: nat)
    requires AllOK(sent, pending) && i < |pending|
    ensures AllOK(sent, Removed(pending, i))
  {
  }

  lemma RemovingKeepsKeys(pending: seq<PendingPacket>, i: nat)
    requires KeysDiffer(pending) && i < |pending|
    ensures KeysDiffer(Removed(pending, i))
  {
  }

  lemma StoringKeeps(w: World, i: nat, index: nat, now: int)
    requires PendingOK(w) && i < |w.r.pending| && index < w.r.pending[i].total && index !in w.r.pending[i].chunks
    requires var chunk := Chunk(w.sent[w.r.pending[i].key].packet.sealed, index);
      w.r.pendingBytes + |chunk| <= MaxPendingPacketBytes
    ensures var chunk := Chunk(w.sent[w.r.pending[i].key].packet.sealed, index);
      PendingOK(w.(r := Stored(w.r, i, index, chunk, now).0))
  {
    var before := w.r.pending[i];
    var e := WithChunk(before, index, Chunk(w.sent[before.key].packet.sealed, index));
    ChunkJoins(w.sent, before, index);
    if |e.chunks| < e.total {
      UpdatingKeeps(w.sent, w.r.pending, i, e);
    } else {
      RemovingKeeps(w.sent, w.r.pending, i);
    }
  }

  /** All chunks of a packet, put together in the order of their indexes, are the packet. */
  lemma AssembledIsSealed(e: PendingPacket, sealed: seq<Byte>)
    requires e.total == ChunkCount(|sealed|) && HoldsChunks(e, sealed)
    requires forall i :: 0 <= i < e.total ==> i in e.chunks
    ensures Assembled(e) == sealed
  {
    JoinedChunks(sealed, e.chunks, e.total);
    assert ChunkStart(|sealed|, e.total) == |sealed|;
    assert sealed[..|sealed|] == sealed;
  }

  lemma AsManyAsIndexes(e: PendingPacket, sealed: seq<Byte>)
    requires HoldsChunks(e, sealed) && |e.chunks| >= e.total
    ensures forall i :: 0 <= i < e.total ==> i in e.chunks
  {
    assert |e.chunks.Keys| == |e.chunks|;
    AllPresent(e.chunks.Keys, e.total);
  }

  /** A complete packet is the one that was sealed. */
  lemma CompleteIsSealed(sent: map<PacketKey, Sent>, before: PendingPacket, index: nat)
    requires EntryOK(sent, before) && index < before.total && index !in before.chunks
    ensures var e := WithChunk(before, index, Chunk(sent[before.key].packet.sealed, index));
      |e.chunks| >= e.total ==> Assembled(e) == sent[before.key].packet.sealed
  {
    var sealed := sent[before.key].packet.sealed;
    var e := WithChunk(before, index, Chunk(sealed, index));
    ChunkJoins(sent, before, index);
    if |e.chunks| >= e.total {
      AsManyAsIndexes(e, sealed);
      AssembledIsSealed(e, sealed);
    }
  }

  /** What receiving a sent chunk does: the table stays right, and a complete packet is the sealed one. */
  lemma ReceivingKeeps(w: World, key: PacketKey, index: nat, now: int)
    requires PendingOK(w) && key in w.sent && key == KeyOf(w.sent[key].packet)
    requires index < ChunkCount(|w.sent[key].packet.sealed|)
    ensures var result := Result(w, key, index, now); (
      && PendingOK(w.(r := result.0))
      && (result.1.Some? ==> result.1.value.key == key && Assembled(result.1.value) == w.sent[key].packet.sealed))
  {
    var p := w.sent[key].packet;
    var chunk := Chunk(p.sealed, index);
    if !IsSeen(w.r.seen, key) && chunk != [] && |chunk| <= ChunkTargetBytes {
      var found := Find(w.r.pending, key, 0);
      if found.Some? {
        StoringAtKeeps(w, found.value, index, now);
      } else if |w.r.pending| < MaxPendingPackets {
        OpenedKeeps(w, key, now);
        StoringAtKeeps(w.(r := Opened(w.r, key, ChunkCount(|p.sealed|), p.sequence, now)), |w.r.pending|, index, now);
      }
    }
  }

  lemma StoringAtKeeps(w: World, i: nat, index: nat, now: int)
    requires PendingOK(w) && i < |w.r.pending| && index < w.r.pending[i].total
    ensures var p := w.sent[w.r.pending[i].key].packet;
      var result := StoredAt(w.r, i, index, ChunkCount(|p.sealed|), p.sequence, Chunk(p.sealed, index), now); (
      && PendingOK(w.(r := result.0))
      && (result.1.Some? ==> result.1.value.key == w.r.pending[i].key && Assembled(result.1.value) == p.sealed))
  {
    var p := w.sent[w.r.pending[i].key].packet;
    if Fits(w.r, w.r.pending[i], index, ChunkCount(|p.sealed|), p.sequence, Chunk(p.sealed, index)) {
      StoringKeeps(w, i, index, now);
      CompleteIsSealed(w.sent, w.r.pending[i], index);
    }
  }

  ghost predicate KeyAbsent(pending: seq<PendingPacket>, key: PacketKey) {
    forall i :: 0 <= i < |pending| ==> pending[i].key != key
  }

  lemma AppendingKeeps(sent: map<PacketKey, Sent>, pending: seq<PendingPacket>, e: PendingPacket)
    requires AllOK(sent, pending) && KeysDiffer(pending) && EntryOK(sent, e) && KeyAbsent(pending, e.key)
    ensures AllOK(sent, pending + [e]) && KeysDiffer(pending + [e])
    ensures StoredBytes(pending + [e]) == StoredBytes(pending) + e.bytes
  {
    StoredAppend(pending, e);
  }

  /** Expiry takes the bytes of what it drops off the counter. */
  lemma {:induction false} ExpiryKeeps(sent: map<PacketKey, Sent>, pending: seq<PendingPacket>, bytes: int, now: int)
    requires AllOK(sent, pending) && KeysDiffer(pending)
    ensures var rest := Expire(pending, bytes, now); (
      && AllOK(sent, rest.0) && KeysDiffer(rest.0) && |rest.0| <= |pending|
      && rest.1 - StoredBytes(rest.0) == bytes - StoredBytes(pending) && StoredBytes(rest.0) <= StoredBytes(pending))
    ensures forall key :: KeyAbsent(pending, key) ==> KeyAbsent(Expire(pending, bytes, now).0, key)
  {
    if pending != [] {
      var n := |pending| - 1;
      ExpiryKeeps(sent, pending[..n], bytes, now);
      assert EntryOK(sent, pending[n]);
      assert KeyAbsent(pending[..n], pending[n].key);
      forall key | KeyAbsent(pending, key) ensures KeyAbsent(pending[..n], key) {
      }
      AppendingKeeps(sent, Expire(pending[..n], bytes, now).0, pending[n]);
    }
  }

  // ----- Remembered ids and the log -----

  lemma {:induction false} ForgottenKeys(seen: seq<Seen>, key: PacketKey)
    ensures SeenKeys(Forgotten(seen, key)) == SeenKeys(seen) - {key}
  {
    if seen != [] {
      var n := |seen| - 1;
      ForgottenKeys(seen[..n], key);
      assert SeenKeys(seen) == SeenKeys(seen[..n]) + {seen[n].key};
      AppendedKeys(Forgotten(seen[..n], key), seen[n]);
    }
  }

  lemma AppendedKeys(seen: seq<Seen>, s: Seen)
    ensures SeenKeys(seen + [s]) == SeenKeys(seen) + {s.key}
  {
    forall k | k in SeenKeys(seen) + {s.key} ensures k in SeenKeys(seen + [s]) {
      if k == s.key {
        assert (seen + [s])[|seen|].key == k;
      } else {
        var i :| 0 <= i < |seen| && seen[i].key == k;
        assert (seen + [s])[i].key == k;
      }
    }
  }

  /** Remembering an id forgets none but older ones, and never the id itself. */
  lemma RememberedKeys(seen: seq<Seen>, key: PacketKey, now: int)
    ensures key in SeenKeys(Remembered(seen, key, now))
    ensures SeenKeys(Remembered(seen, key, now)) <= SeenKeys(seen) + {key}
  {
    var all := Forgotten(seen, key) + [Seen(key, now)];
    ForgottenKeys(seen, key);
    AppendedKeys(Forgotten(seen, key), Seen(key, now));
    var r := Remembered(seen, key, now);
    assert r[|r| - 1] == all[|all| - 1];
    forall k | k in SeenKeys(r) ensures k in SeenKeys(all) {
      var i :| 0 <= i < |r| && r[i].key == k;
      assert r[i] == all[i + |all| - |r|];
    }
  }

  lemma {:induction false} StillSeenKeys(seen: seq<Seen>, now: int)
    ensures SeenKeys(StillSeen(seen, now)) <= SeenKeys(seen)
  {
    if seen != [] {
      var n := |seen| - 1;
      StillSeenKeys(seen[..n], now);
      assert SeenKeys(seen) == SeenKeys(seen[..n]) + {seen[n].key};
      AppendedKeys(StillSeen(seen[..n], now), seen[n]);
    }
  }

  /** By the log, the packet was delivered and not forgotten since. */
  predicate IsKnown(log: seq<LogEntry>, key: PacketKey) {
    log != [] && (
      match log[|log| - 1]
      case Delivered(k, _) => k == key || IsKnown(log[..|log| - 1], key)
      case Forgot(keys) => key !in keys && IsKnown(log[..|log| - 1], key))
  }

  lemma KnownAfterForgetting(log: seq<LogEntry>, keys: set<PacketKey>, key: PacketKey)
    ensures IsKnown(log + [Forgot(keys)], key) <==> key !in keys && IsKnown(log, key)
  {
    assert (log + [Forgot(keys)])[..|log|] == log;
  }

  lemma KnownAfterDelivery(log: seq<LogEntry>, k: PacketKey, frame: seq<Byte>, key: PacketKey)
    ensures IsKnown(log + [Delivered(k, frame)], key) <==> k == key || IsKnown(log, key)
  {
    assert (log + [Delivered(k, frame)])[..|log|] == log;
  }

  /** Nothing is delivered while it is known. */
  predicate NoRepeat(log: seq<LogEntry>) {
    log == [] || (
      NoRepeat(log[..|log| - 1])
      && (log[|log| - 1].Delivered? ==> !IsKnown(log[..|log| - 1], log[|log| - 1].key)))
  }

  lemma NoRepeatAppend(log: seq<LogEntry>, e: LogEntry)
    requires NoRepeat(log) && (e.Delivered? ==> !IsKnown(log, e.key))
    ensures NoRepeat(log + [e])
  {
    assert (log + [e])[..|log|] == log;
  }

  ghost predicate LogOK(w: World) {
    && NoRepeat(w.log)
    && (forall key :: key in SeenKeys(w.r.seen) <==> IsKnown(w.log, key))
    && (forall e :: e in w.log && e.Delivered? ==> e.key in w.sent && w.sent[e.key].frame == e.frame)
  }

  /** A step that delivers nothing and only forgets. */
  lemma ForgettingKeeps(w: World, v: World)
    requires LogOK(w) && SeenKeys(v.r.seen) <= SeenKeys(w.r.seen) && v.sent == w.sent
    requires v.log == w.log + [Forgot(SeenKeys(w.r.seen) - SeenKeys(v.r.seen))]
    ensures LogOK(v)
  {
    var keys := SeenKeys(w.r.seen) - SeenKeys(v.r.seen);
    NoRepeatAppend(w.log, Forgot(keys));
    forall key ensures key in SeenKeys(v.r.seen) <==> IsKnown(v.log, key) {
      KnownAfterForgetting(w.log, keys, key);
    }
  }

  /** A step that delivers one packet not remembered before. */
  lemma DeliveringKeeps(w: World, v: World, key: PacketKey)
    requires LogOK(w) && key in w.sent && key !in SeenKeys(w.r.seen) && v.sent == w.sent
    requires key in SeenKeys(v.r.seen) && SeenKeys(v.r.seen) <= SeenKeys(w.r.seen) + {key}
    requires v.log == w.log + [Delivered(key, w.sent[key].frame)] + [Forgot(SeenKeys(w.r.seen) - SeenKeys(v.r.seen))]
    ensures LogOK(v)
  {
    var keys := SeenKeys(w.r.seen) - SeenKeys(v.r.seen);
    var d := Delivered(key, w.sent[key].frame);
    NoRepeatAppend(w.log, d);
    NoRepeatAppend(w.log + [d], Forgot(keys));
    forall k ensures k in SeenKeys(v.r.seen) <==> IsKnown(v.log, k) {
      KnownAfterDelivery(w.log, key, w.sent[key].frame, k);
      KnownAfterForgetting(w.log + [d], keys, k);
    }
  }

  lemma SeenIsKey(seen: seq<Seen>, key: PacketKey)
    ensures IsSeen(seen, key) <==> key in SeenKeys(seen)
  {
  }

  /** Which ids a received chunk makes known. */
  lemma ReceivedKeys(w: World, key: PacketKey, index: nat, now: int)
    requires key in w.sent
    ensures var result := Result(w, key, index, now); (
      && (result.1.None? ==> result.0.seen == w.r.seen)
      && (result.1.Some? ==> result.0.seen == Remembered(w.r.seen, result.1.value.key, now) && !IsSeen(w.r.seen, key)))
  {
  }

  ghost predicate Inv(w: World, open: Opener) { PendingOK(w) && SentOK(w, open) && LogOK(w) }

  lemma SendKeeps(w: World, s: Sent, open: Opener)
    requires Inv(w, open) && IsHonest(w, s, open)
    ensures Inv(Next(w, Send(s), open), open)
  {
    var v := Next(w, Send(s), open);
    forall key | key in v.sent ensures SentAt(v, key, open) {
      assert key in w.sent ==> SentAt(w, key, open);
    }
    forall i | 0 <= i < |v.r.pending| ensures EntryOK(v.sent, v.r.pending[i]) {
      assert EntryOK(w.sent, w.r.pending[i]);
    }
  }

  lemma ReceiveKeeps(w: World, key: PacketKey, i: nat, now: int, open: Opener)
    requires Inv(w, open) && Enabled(w, Receive(key, i, now), open)
    ensures Inv(AfterReceive(w, key, i, now, open), open)
  {
    var v := AfterReceive(w, key, i, now, open);
    assert SentAt(w, key, open);
    ReceivingKeeps(w, key, i, now);
    ReceivedKeys(w, key, i, now);
    SeenIsKey(w.r.seen, key);
    var result := Result(w, key, i, now);
    if result.1.Some? {
      RememberedKeys(w.r.seen, key, now);
      assert Delivery(result.1, open) == [Delivered(key, w.sent[key].frame)];
      DeliveringKeeps(w, v, key);
    } else {
      assert w.log + [] == w.log;
      ForgettingKeeps(w, v);
    }
    assert forall k :: k in v.sent ==> SentAt(v, k, open) == SentAt(w, k, open);
  }

  lemma HousekeepKeeps(w: World, now: int, open: Opener)
    requires Inv(w, open)
    ensures Inv(AfterHousekeeping(w, now), open)
  {
    var v := AfterHousekeeping(w, now);
    ExpiryKeeps(w.sent, w.r.pending, w.r.pendingBytes, now);
    StillSeenKeys(w.r.seen, now);
    ForgettingKeeps(w, v);
    assert forall k :: k in v.sent ==> SentAt(v, k, open) == SentAt(w, k, open);
  }

  lemma StepKeeps(w: World, e: Event, open: Opener)
    requires Inv(w, open) && Enabled(w, e, open)
    ensures Inv(Next(w, e, open), open)
  {
    match e
    case Send(s) => SendKeeps(w, s, open);
    case Receive(key, i, now) => ReceiveKeeps(w, key, i, now, open);
    case Housekeep(now) => HousekeepKeeps(w, now, open);
  }

  lemma {:induction false} RunKeeps(w: World, events: seq<Event>, open: Opener)
    requires Inv(w, open) && IsRun(w, events, open)
    ensures Inv(Ran(w, events, open), open)
    decreases |events|
  {
    if events != [] {
      StepKeeps(w, events[0], open);
      RunKeeps(Next(w, events[0], open), events[1..], open);
    }
  }

  // ----- Main results -----

  /** The byte counter is the number of bytes stored, and stays under its cap. */
  lemma CounterIsStoredBytes(local: string, events: seq<Event>, open: Opener)
    requires IsRun(Start(local), events, open)
    ensures var r := Ran(Start(local), events, open).r;
      r.pendingBytes == StoredBytes(r.pending) <= MaxPendingPacketBytes && |r.pending| <= MaxPendingPackets
  {
    RunKeeps(Start(local), events, open);
  }

  /** What is delivered for a packet is the frame its sender sealed. */
  lemma DeliveredIsSent(local: string, events: seq<Event>, open: Opener, e: LogEntry)
    requires IsRun(Start(local), events, open) && e in Ran(Start(local), events, open).log && e.Delivered?
    ensures var sent := Ran(Start(local), events, open).sent; e.key in sent && sent[e.key].frame == e.frame
  {
    RunKeeps(Start(local), events, open);
  }

  /** Between two deliveries of one packet its id was forgotten. */
  lemma DeliveredOnceWhileRemembered(local: string, events: seq<Event>, open: Opener, i: int, j: int) returns (k: int)
    requires IsRun(Start(local), events, open)
    requires var log := Ran(Start(local), events, open).log;
      0 <= i < j < |log| && log[i].Delivered? && log[j].Delivered? && log[i].key == log[j].key
    ensures var log := Ran(Start(local), events, open).log; i < k < j && log[k].Forgot? && log[i].key in log[k].keys
  {
    RunKeeps(Start(local), events, open);
    k := RepeatForgotten(Ran(Start(local), events, open).log, i, j);
  }

  lemma RepeatForgotten(log: seq<LogEntry>, i: int, j: int) returns (k: int)
    requires NoRepeat(log)
    requires 0 <= i < j < |log| && log[i].Delivered? && log[j].Delivered? && log[i].key == log[j].key
    ensures i < k < j && log[k].Forgot? && log[i].key in log[k].keys
  {
    NoRepeatPrefix(log, j + 1);
    assert log[..j + 1][..j] == log[..j] && log[..j + 1][j] == log[j];
    k := ForgottenBetween(log, i, j);
  }

  lemma {:induction false} NoRepeatPrefix(log: seq<LogEntry>, n: nat)
    requires NoRepeat(log) && n <= |log|
    ensures NoRepeat(log[..n])
  {
    if n < |log| {
      NoRepeatPrefix(log[..|log| - 1], n);
      assert log[..|log| - 1][..n] == log[..n];
    } else {
      assert log[..n] == log;
    }
  }

  lemma {:induction false} ForgottenBetween(log: seq<LogEntry>, i: int, n: nat) returns (k: int)
    requires 0 <= i < n <= |log| && log[i].Delivered? && !IsKnown(log[..n], log[i].key)
    ensures i < k < n && log[k].Forgot? && log[i].key in log[k].keys
    decreases n
  {
    var last := log[n - 1];
    assert log[..n][..n - 1] == log[..n - 1] && log[..n][n - 1] == last;
    if last.Forgot? && log[i].key in last.keys {
      k := n - 1;
    } else {
      k := ForgottenBetween(log, i, n - 1);
    }
  }

  /** Housekeeping forgets an id only when it is older than the limit. */
  lemma {:induction false} RecentIsKept(seen: seq<Seen>, now: int, i: nat)
    requires i < |seen| && now - seen[i].at <= SeenForMs
    ensures seen[i] in StillSeen(seen, now)
  {
    var n := |seen| - 1;
    if i < n {
      assert seen[..n][i] == seen[i];
      RecentIsKept(seen[..n], now, i);
    }
  }

  /** Remembering an id keeps every other that is among the newest up to the limit. */
  lemma NewestAreKept(seen: seq<Seen>, key: PacketKey, now: int, i: nat)
    requires i < |seen| && seen[i].key != key && |seen| - i < MaxSeenPacketIds
    ensures seen[i] in Remembered(seen, key, now)
  {
    var at := KeptPosition(seen, key, i);
    var kept := Forgotten(seen, key);
    var all := kept + [Seen(key, now)];
    assert all[at] == seen[i];
    if |all| > MaxSeenPacketIds {
      assert Remembered(seen, key, now)[at - (|all| - MaxSeenPacketIds)] == all[at];
    }
  }

  lemma {:induction false} KeptPosition(seen: seq<Seen>, key: PacketKey, i: nat) returns (at: nat)
    requires i < |seen| && seen[i].key != key
    ensures at < |Forgotten(seen, key)| && Forgotten(seen, key)[at] == seen[i]
    ensures |Forgotten(seen, key)| - at <= |seen| - i
  {
    var n := |seen| - 1;
    if i == n {
      at := |Forgotten(seen[..n], key)|;
    } else {
      assert seen[..n][i] == seen[i];
      at := KeptPosition(seen[..n], key, i);
    }
  }

  // ----- Complete packets are delivered -----

  predicate Holds(e: PendingPacket, key: PacketKey, have: set<nat>, since: int) {
    e.key == key && e.chunks.Keys == have && e.firstSeenAt == since
  }

  /**
   The receiver holds exactly the chunks `have` of a packet, the first of which came at `since`; none means that it has
   not heard of the packet.
   */
  ghost predicate Waiting(r: Receiver, key: PacketKey, have: set<nat>, since: int) {
    if have == {} then KeyAbsent(r.pending, key) && |r.pending| < MaxPendingPackets
    else exists i :: 0 <= i < |r.pending| && Holds(r.pending[i], key, have, since)
  }

  /** When the first chunk of a packet came, if the next one comes now. */
  function Since(have: set<nat>, since: int, now: int): int { if have == {} then now else since }

  lemma StoredChunkWaits(r: Receiver, i: nat, index: nat, chunk: seq<Byte>, now: int)
    requires i < |r.pending| && index !in r.pending[i].chunks
    ensures var have := r.pending[i].chunks.Keys; var result := Stored(r, i, index, chunk, now); (
      && (|have| + 1 >= r.pending[i].total ==> result.1.Some?)
      && (|have| + 1 < r.pending[i].total ==>
            && result.1.None? && Waiting(result.0, r.pending[i].key, have + {index}, r.pending[i].firstSeenAt)
            && result.0.pendingBytes == r.pendingBytes + |chunk| && result.0.seen == r.seen))
  {
    var have := r.pending[i].chunks.Keys;
    var e := WithChunk(r.pending[i], index, chunk);
    assert e.chunks.Keys == have + {index};
    assert |e.chunks| == |have| + 1;
    if |have| + 1 < r.pending[i].total {
      assert r.pending[i := e][i] == e && Holds(e, r.pending[i].key, have + {index}, r.pending[i].firstSeenAt);
    }
  }

  /** A chunk that arrives is stored with those held before, and the last one completes the packet. */
  ghost predicate Arrives(w: World, key: PacketKey, have: set<nat>, since: int, index: nat, now: int)
    requires key in w.sent
  {
    var total := ChunkCount(|w.sent[key].packet.sealed|);
    var result := Result(w, key, index, now);
    && (|have| + 1 >= total ==> result.1.Some?)
    && (|have| + 1 < total ==>
          && result.1.None? && Waiting(result.0, key, have + {index}, Since(have, since, now))
          && result.0.seen == w.r.seen && result.0.pendingBytes <= w.r.pendingBytes + ChunkTargetBytes)
  }

  lemma FirstChunkIsStored(w: World, key: PacketKey, index: nat, now: int)
    requires key in w.sent && w.sent[key].packet.sealed != [] && index < ChunkCount(|w.sent[key].packet.sealed|)
    requires KeyAbsent(w.r.pending, key) && |w.r.pending| < MaxPendingPackets && !IsSeen(w.r.seen, key)
    requires w.r.pendingBytes + ChunkTargetBytes <= MaxPendingPacketBytes
    ensures var p := w.sent[key].packet;
      Result(w, key, index, now) == Stored(Opened(w.r, key, ChunkCount(|p.sealed|), p.sequence, now), |w.r.pending|,
                                           index, Chunk(p.sealed, index), now)
  {
    ChunkFits(w.sent[key].packet.sealed, index);
    assert Find(w.r.pending, key, 0).None?;
  }

  lemma FirstChunkArrives(w: World, key: PacketKey, since: int, index: nat, now: int)
    requires key in w.sent && w.sent[key].packet.sealed != [] && index < ChunkCount(|w.sent[key].packet.sealed|)
    requires KeyAbsent(w.r.pending, key) && |w.r.pending| < MaxPendingPackets && !IsSeen(w.r.seen, key)
    requires w.r.pendingBytes + ChunkTargetBytes <= MaxPendingPacketBytes
    ensures Arrives(w, key, {}, since, index, now)
  {
    var p := w.sent[key].packet;
    FirstChunkIsStored(w, key, index, now);
    ChunkFits(p.sealed, index);
    var r := Opened(w.r, key, ChunkCount(|p.sealed|), p.sequence, now);
    assert r.pending[|w.r.pending|].chunks.Keys == {};
    StoredChunkWaits(r, |w.r.pending|, index, Chunk(p.sealed, index), now);
  }

  lemma FurtherChunkIsStored(w: World, key: PacketKey, i: nat, index: nat, now: int)
    requires key in w.sent && w.sent[key].packet.sealed != [] && index < ChunkCount(|w.sent[key].packet.sealed|)
    requires Find(w.r.pending, key, 0) == Some(i) && EntryOK(w.sent, w.r.pending[i]) && !IsSeen(w.r.seen, key)
    requires index !in w.r.pending[i].chunks && w.r.pendingBytes + ChunkTargetBytes <= MaxPendingPacketBytes
    ensures Result(w, key, index, now) == Stored(w.r, i, index, Chunk(w.sent[key].packet.sealed, index), now)
  {
    ChunkFits(w.sent[key].packet.sealed, index);
  }

  /** The packet that waits is the one the receiver finds. */
  lemma WaitingIsFound(w: World, key: PacketKey, have: set<nat>, since: int) returns (i: nat)
    requires PendingOK(w) && Waiting(w.r, key, have, since) && have != {}
    ensures i < |w.r.pending| && Find(w.r.pending, key, 0) == Some(i)
    ensures EntryOK(w.sent, w.r.pending[i]) && Holds(w.r.pending[i], key, have, since)
  {
    i := Find(w.r.pending, key, 0).value;
  }

  lemma FurtherChunkArrives(w: World, key: PacketKey, have: set<nat>, since: int, index: nat, now: int)
    requires PendingOK(w) && key in w.sent && w.sent[key].packet.sealed != [] && have != {}
    requires Waiting(w.r, key, have, since) && !IsSeen(w.r.seen, key)
    requires index < ChunkCount(|w.sent[key].packet.sealed|) && index !in have
    requires w.r.pendingBytes + ChunkTargetBytes <= MaxPendingPacketBytes
    ensures Arrives(w, key, have, since, index, now)
  {
    var i := WaitingIsFound(w, key, have, since);
    FurtherChunkIsStored(w, key, i, index, now);
    ChunkFits(w.sent[key].packet.sealed, index);
    StoredChunkWaits(w.r, i, index, Chunk(w.sent[key].packet.sealed, index), now);
  }

  lemma ChunkArrives(w: World, key: PacketKey, have: set<nat>, since: int, index: nat, now: int)
    requires PendingOK(w) && key in w.sent && w.sent[key].packet.sealed != []
    requires Waiting(w.r, key, have, since) && !IsSeen(w.r.seen, key)
    requires index < ChunkCount(|w.sent[key].packet.sealed|) && index !in have
    requires w.r.pendingBytes + ChunkTargetBytes <= MaxPendingPacketBytes
    ensures Arrives(w, key, have, since, index, now)
  {
    if have == {} {
      FirstChunkArrives(w, key, since, index, now);
    } else {
      FurtherChunkArrives(w, key, have, since, index, now);
    }
  }

  /** Chunks of one packet, and housekeeping between them. */
  predicate IsPlan(events: seq<Event>, key: PacketKey) {
    forall k :: 0 <= k < |events| ==> events[k].Housekeep? || (events[k].Receive? && events[k].key == key)
  }

  /** The indexes of the chunks that arrive. */
  function Arriving(events: seq<Event>): seq<nat> {
    if events == [] then []
    else (if events[0].Receive? then [events[0].i] else []) + Arriving(events[1..])
  }

  /** Whenever there is housekeeping, the first chunk is no older than the limit. */
  predicate IsTimely(events: seq<Event>, first: Option<int>) {
    events == [] || (
      match events[0]
      case Housekeep(now) => (first.Some? ==> now - first.value <= PendingForMs) && IsTimely(events[1..], first)
      case Receive(_, _, now) => IsTimely(events[1..], if first.None? then Some(now) else first)
      case Send(_) => IsTimely(events[1..], first))
  }

  ghost predicate AllBelow(order: seq<nat>, n: nat) { forall k :: 0 <= k < |order| ==> order[k] < n }

  lemma PlanGoesOn(events: seq<Event>, key: PacketKey, n: nat)
    requires events != [] && IsPlan(events, key) && AllBelow(Arriving(events), n)
    ensures IsPlan(events[1..], key) && AllBelow(Arriving(events[1..]), n)
    ensures events[0].Receive? ==> (
      events[0].i < n && Arriving(events) == [events[0].i] + Arriving(events[1..]))
    ensures !events[0].Receive? ==> Arriving(events) == Arriving(events[1..])
  {
    var rest := Arriving(events[1..]);
    assert [] + rest == rest;
    forall k | 0 <= k < |rest| ensures rest[k] < n {
      assert events[0].Receive? ==> Arriving(events)[k + 1] == rest[k];
    }
    if events[0].Receive? {
      assert Arriving(events)[0] == events[0].i;
    }
  }

  /** Such events can always happen, and the log only grows. */
  lemma {:induction false} PlanRuns(w: World, key: PacketKey, events: seq<Event>, open: Opener)
    requires key in w.sent && IsPlan(events, key)
    requires AllBelow(Arriving(events), ChunkCount(|w.sent[key].packet.sealed|))
    ensures IsRun(w, events, open) && w.log <= Ran(w, events, open).log
    decreases |events|
  {
    if events != [] {
      PlanGoesOn(events, key, ChunkCount(|w.sent[key].packet.sealed|));
      var v := Next(w, events[0], open);
      assert w.log <= v.log && v.sent == w.sent;
      PlanRuns(v, key, events[1..], open);
    }
  }

  /** No index twice, and none of those held already. */
  ghost predicate NewIndexes(order: seq<nat>, have: set<nat>) {
    order == [] || (order[0] !in have && NewIndexes(order[1..], have + {order[0]}))
  }

  /** A complete packet that assembles to what was sealed is delivered as its frame. */
  lemma CompleteDelivers(w: World, key: PacketKey, complete: PendingPacket, open: Opener)
    requires key in w.sent && SentAt(w, key, open) && complete.key == key
    requires Assembled(complete) == w.sent[key].packet.sealed
    ensures Delivery(Some(complete), open) == [Delivered(key, w.sent[key].frame)]
  {
  }

  /** The last chunk completes the packet. */
  lemma LastChunkCompletes(w: World, key: PacketKey, have: set<nat>, since: int, index: nat, now: int)
    requires PendingOK(w) && key in w.sent && key == KeyOf(w.sent[key].packet) && w.sent[key].packet.sealed != []
    requires Waiting(w.r, key, have, since) && !IsSeen(w.r.seen, key) && index !in have
    requires index < ChunkCount(|w.sent[key].packet.sealed|) == |have| + 1
    requires w.r.pendingBytes + ChunkTargetBytes <= MaxPendingPacketBytes
    ensures var complete := Result(w, key, index, now).1;
      complete.Some? && complete.value.key == key && Assembled(complete.value) == w.sent[key].packet.sealed
  {
    ChunkArrives(w, key, have, since, index, now);
    ReceivingKeeps(w, key, index, now);
  }

  /** The last chunk delivers. */
  lemma LastChunkDelivers(w: World, key: PacketKey, have: set<nat>, since: int, index: nat, now: int, open: Opener)
    requires PendingOK(w) && key in w.sent && SentAt(w, key, open)
    requires Waiting(w.r, key, have, since) && !IsSeen(w.r.seen, key) && index !in have
    requires index < ChunkCount(|w.sent[key].packet.sealed|) == |have| + 1
    requires w.r.pendingBytes + ChunkTargetBytes <= MaxPendingPacketBytes
    ensures Delivered(key, w.sent[key].frame) in AfterReceive(w, key, index, now, open).log
  {
    LastChunkCompletes(w, key, have, since, index, now);
    CompleteDelivers(w, key, Result(w, key, index, now).1.value, open);
  }

  /** The receiver holds the chunks `have` of a packet, has room, and the others are to arrive in some order. */
  ghost predicate Awaits(w: World, key: PacketKey, have: set<nat>, since: int, order: seq<nat>, open: Opener) {
    && Inv(w, open) && key in w.sent && Waiting(w.r, key, have, since) && !IsSeen(w.r.seen, key)
    && NewIndexes(order, have) && AllBelow(order, ChunkCount(|w.sent[key].packet.sealed|))
    && |have| + |order| == ChunkCount(|w.sent[key].packet.sealed|)
    && w.r.pendingBytes + |order| * ChunkTargetBytes <= MaxPendingPacketBytes
  }

  lemma StillAwaits(w: World, key: PacketKey, have: set<nat>, since: int, order: seq<nat>, now: int, open: Opener)
    requires |order| > 1 && Awaits(w, key, have, since, order, open)
    ensures var v := AfterReceive(w, key, order[0], now, open); (
      Awaits(v, key, have + {order[0]}, Since(have, since, now), order[1..], open))
  {
    NextChunkWaits(w, key, have, since, order[0], now, open);
    OneMoreIndex(have, order[0]);
  }

  // ----- Housekeeping between the chunks -----

  /** A packet that is fresh enough survives, and what is not there does not come. */
  lemma HousekeepingWaits(r: Receiver, key: PacketKey, have: set<nat>, since: int, now: int)
    requires Waiting(r, key, have, since) && (have != {} ==> now - since <= PendingForMs)
    ensures Waiting(Housekept(r, now), key, have, since)
  {
    var after := Housekept(r, now).pending;
    var ks := ExpireKeepsFresh(r.pending, r.pendingBytes, now);
    AscendingIsShort(ks, |r.pending|);
    if have != {} {
      var i :| 0 <= i < |r.pending| && Holds(r.pending[i], key, have, since);
      var j :| 0 <= j < |ks| && ks[j] == i;
      assert Holds(after[j], key, have, since);
    }
  }

  lemma {:induction false} AscendingIsShort(ks: seq<nat>, limit: nat)
    requires Ascending(ks, limit)
    ensures |ks| <= limit
  {
    if ks != [] {
      AscendingIsShort(ks[..|ks| - 1], ks[|ks| - 1]);
    }
  }

  lemma {:induction false} ExpiryFrees(pending: seq<PendingPacket>, bytes: int, now: int)
    ensures Expire(pending, bytes, now).1 <= bytes
  {
    if pending != [] {
      ExpiryFrees(pending[..|pending| - 1], bytes, now);
    }
  }

  lemma HousekeepingAwaits(w: World, key: PacketKey, have: set<nat>, since: int, order: seq<nat>, now: int,
                           open: Opener)
    requires Awaits(w, key, have, since, order, open) && (have != {} ==> now - since <= PendingForMs)
    ensures Awaits(AfterHousekeeping(w, now), key, have, since, order, open)
  {
    HousekeepKeeps(w, now, open);
    HousekeepingWaits(w.r, key, have, since, now);
    ExpiryFrees(w.r.pending, w.r.pendingBytes, now);
    var ks := SeenKeepsRecent(w.r.seen, now);
  }

  /**
   With room in the table, the chunks of a packet that is not remembered deliver its frame in whatever order they
   arrive, and however often there is housekeeping meanwhile, as long as the first of them is not too old then.
   */
  lemma {:induction false} AnyOrderDelivers(w: World, key: PacketKey, have: set<nat>, since: int, events: seq<Event>,
                                            open: Opener)
    requires Arriving(events) != [] && Awaits(w, key, have, since, Arriving(events), open)
    requires IsPlan(events, key) && IsTimely(events, if have == {} then None else Some(since))
    ensures IsRun(w, events, open) && Delivered(key, w.sent[key].frame) in Ran(w, events, open).log
    decreases |events|
  {
    PlanRuns(w, key, events, open);
    PlanGoesOn(events, key, ChunkCount(|w.sent[key].packet.sealed|));
    var v := Next(w, events[0], open);
    PlanRuns(v, key, events[1..], open);
    if events[0].Housekeep? {
      HousekeepingAwaits(w, key, have, since, Arriving(events), events[0].now, open);
      AnyOrderDelivers(v, key, have, since, events[1..], open);
    } else if |Arriving(events)| == 1 {
      assert SentAt(w, key, open);
      LastChunkDelivers(w, key, have, since, events[0].i, events[0].now, open);
    } else {
      StillAwaits(w, key, have, since, Arriving(events), events[0].now, open);
      AnyOrderDelivers(v, key, have + {events[0].i}, Since(have, since, events[0].now), events[1..], open);
    }
  }

  lemma OneMoreIndex(have: set<nat>, i: nat)
    requires i !in have
    ensures |have + {i}| == |have| + 1
  {
  }

  /** A chunk that is not the last leaves the packet waiting for the others. */
  lemma NextChunkWaits(w: World, key: PacketKey, have: set<nat>, since: int, index: nat, now: int, open: Opener)
    requires Inv(w, open) && key in w.sent && Waiting(w.r, key, have, since) && !IsSeen(w.r.seen, key) && index !in have
    requires index < ChunkCount(|w.sent[key].packet.sealed|) && |have| + 1 < ChunkCount(|w.sent[key].packet.sealed|)
    requires w.r.pendingBytes + ChunkTargetBytes <= MaxPendingPacketBytes
    ensures var v := AfterReceive(w, key, index, now, open); (
      && Inv(v, open) && Waiting(v.r, key, have + {index}, Since(have, since, now)) && !IsSeen(v.r.seen, key)
      && v.sent == w.sent && v.r.pendingBytes <= w.r.pendingBytes + ChunkTargetBytes)
  {
    assert SentAt(w, key, open);
    ChunkArrives(w, key, have, since, index, now);
    ReceiveKeeps(w, key, index, now, open);
  }
}

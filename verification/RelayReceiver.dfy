/**
 The mutable half of the frame relay (src/runtime/mqttFrameRelay.ts, src/runtime/nostrRelay.ts): packets waiting for
 chunks, remembered packet ids, and the outbox. Both tables keep insertion order.
 */
module RelayReceiver {
  import opened Bytes
  import opened FrameRelay
  import opened Outcomes

  datatype PacketKey = PacketKey(from: string, id: string)

  datatype PendingPacket = PendingPacket(key: PacketKey, chunks: map<nat, seq<Byte>>, total: nat, sequence: int,
                                         firstSeenAt: int, bytes: nat)

  datatype Seen = Seen(key: PacketKey, at: int)

  datatype Receiver = Receiver(pending: seq<PendingPacket>, pendingBytes: int, seen: seq<Seen>)

  // ----- Remembered ids -----

  predicate IsSeen(seen: seq<Seen>, key: PacketKey) { exists i :: 0 <= i < |seen| && seen[i].key == key }

  function Forgotten(seen: seq<Seen>, key: PacketKey): seq<Seen> {
    if seen == [] then [] else
      var rest := Forgotten(seen[..|seen| - 1], key);
      if seen[|seen| - 1].key == key then rest else rest + [seen[|seen| - 1]]
  }

  /** The id becomes the newest; beyond the limit the oldest are dropped. */
  function Remembered(seen: seq<Seen>, key: PacketKey, now: int): seq<Seen> {
    var all := Forgotten(seen, key) + [Seen(key, now)];
    if |all| <= MaxSeenPacketIds then all else all[|all| - MaxSeenPacketIds..]
  }

  function StillSeen(seen: seq<Seen>, now: int): seq<Seen> {
    if seen == [] then [] else
      var rest := StillSeen(seen[..|seen| - 1], now);
      if now - seen[|seen| - 1].at > SeenForMs then rest else rest + [seen[|seen| - 1]]
  }

  // ----- Packets waiting for chunks -----

  function Find(pending: seq<PendingPacket>, key: PacketKey, start: nat): (r: Option<nat>)
    requires start <= |pending|
    ensures r.Some? ==> start <= r.value < |pending| && pending[r.value].key == key
    ensures r.None? ==> forall i :: start <= i < |pending| ==> pending[i].key != key
    decreases |pending| - start
  {
    if start == |pending| then None else if pending[start].key == key then Some(start)
    else Find(pending, key, start + 1)
  }

  function Removed(pending: seq<PendingPacket>, i: nat): seq<PendingPacket>
    requires i < |pending|
  {
    pending[..i] + pending[i + 1..]
  }

  function WithChunk(e: PendingPacket, index: nat, chunk: seq<Byte>): PendingPacket {
    e.(chunks := e.chunks[index := chunk], bytes := e.bytes + |chunk|)
  }

  function Opened(r: Receiver, key: PacketKey, total: nat, sequence: int, now: int): Receiver {
    r.(pending := r.pending + [PendingPacket(key, map[], total, sequence, now, 0)])
  }

  predicate Fits(r: Receiver, e: PendingPacket, index: nat, total: nat, sequence: int, chunk: seq<Byte>) {
    && e.total == total && e.sequence == sequence && index !in e.chunks
    && r.pendingBytes + |chunk| <= MaxPendingPacketBytes
  }

  /** A chunk joins the packet at position `i`; the last one takes the packet out and remembers its id. */
  function Stored(r: Receiver, i: nat, index: nat, chunk: seq<Byte>, now: int): (Receiver, Option<PendingPacket>)
    requires i < |r.pending|
  {
    var e := WithChunk(r.pending[i], index, chunk);
    if |e.chunks| < e.total then (Receiver(r.pending[i := e], r.pendingBytes + |chunk|, r.seen), None)
    else (Receiver(Removed(r.pending, i), r.pendingBytes + |chunk| - e.bytes, Remembered(r.seen, e.key, now)), Some(e))
  }

  function StoredAt(r: Receiver, i: nat, index: nat, total: nat, sequence: int, chunk: seq<Byte>, now: int)
    : (Receiver, Option<PendingPacket>)
    requires i < |r.pending|
  {
    if Fits(r, r.pending[i], index, total, sequence, chunk) then Stored(r, i, index, chunk, now) else (r, None)
  }

  /** What a chunk does; a packet is the result when it is complete. */
  function Received(r: Receiver, key: PacketKey, index: nat, total: nat, sequence: int, chunk: seq<Byte>, now: int)
    : (Receiver, Option<PendingPacket>)
  {
    if IsSeen(r.seen, key) || chunk == [] || |chunk| > ChunkTargetBytes then (r, None)
    else
      var i := Find(r.pending, key, 0);
      if i.Some? then StoredAt(r, i.value, index, total, sequence, chunk, now)
      else if |r.pending| >= MaxPendingPackets then (r, None)
      else StoredAt(Opened(r, key, total, sequence, now), |r.pending|, index, total, sequence, chunk, now)
  }

  function Expire(pending: seq<PendingPacket>, bytes: int, now: int): (seq<PendingPacket>, int) {
    if pending == [] then ([], bytes) else
      var e := pending[|pending| - 1];
      var rest := Expire(pending[..|pending| - 1], bytes, now);
      if now - e.firstSeenAt > PendingForMs then (rest.0, rest.1 - e.bytes) else (rest.0 + [e], rest.1)
  }

  function Housekept(r: Receiver, now: int): Receiver {
    var p := Expire(r.pending, r.pendingBytes, now);
    Receiver(p.0, p.1, StillSeen(r.seen, now))
  }

  // ----- What housekeeping keeps -----

  ghost predicate Ascending(ks: seq<nat>, limit: nat) {
    (forall i, j :: 0 <= i < j < |ks| ==> ks[i] < ks[j]) && forall i :: 0 <= i < |ks| ==> ks[i] < limit
  }

  ghost predicate PicksPackets(before: seq<PendingPacket>, after: seq<PendingPacket>, ks: seq<nat>, now: int) {
    && Ascending(ks, |before|) && |ks| == |after| && (forall i :: 0 <= i < |ks| ==> after[i] == before[ks[i]])
    && forall k :: 0 <= k < |before| ==> (k in ks <==> now - before[k].firstSeenAt <= PendingForMs)
  }

  /** Exactly the packets whose first chunk is no older than the limit are left, as they were and in their order. */
  ghost predicate KeepsFresh(before: seq<PendingPacket>, after: seq<PendingPacket>, now: int) {
    exists ks :: PicksPackets(before, after, ks, now)
  }

  ghost predicate PicksSeen(before: seq<Seen>, after: seq<Seen>, ks: seq<nat>, now: int) {
    && Ascending(ks, |before|) && |ks| == |after| && (forall i :: 0 <= i < |ks| ==> after[i] == before[ks[i]])
    && forall k :: 0 <= k < |before| ==> (k in ks <==> now - before[k].at <= SeenForMs)
  }

  /** Exactly the ids no older than the limit are still remembered, in their order. */
  ghost predicate KeepsRecent(before: seq<Seen>, after: seq<Seen>, now: int) {
    exists ks :: PicksSeen(before, after, ks, now)
  }

  lemma {:induction false} ExpireKeepsFresh(pending: seq<PendingPacket>, bytes: int, now: int) returns (ks: seq<nat>)
    ensures PicksPackets(pending, Expire(pending, bytes, now).0, ks, now)
    decreases |pending|
  {
    if pending == [] {
      ks := [];
    } else {
      var n := |pending| - 1;
      ks := ExpireKeepsFresh(pending[..n], bytes, now);
      if now - pending[n].firstSeenAt <= PendingForMs {
        ks := ks + [n];
        assert n in ks;
      }
      forall k | 0 <= k < n ensures k in ks <==> now - pending[k].firstSeenAt <= PendingForMs {
        assert pending[..n][k] == pending[k];
      }
    }
  }

  lemma {:induction false} SeenKeepsRecent(seen: seq<Seen>, now: int) returns (ks: seq<nat>)
    ensures PicksSeen(seen, StillSeen(seen, now), ks, now)
    decreases |seen|
  {
    if seen == [] {
      ks := [];
    } else {
      var n := |seen| - 1;
      ks := SeenKeepsRecent(seen[..n], now);
      if now - seen[n].at <= SeenForMs {
        ks := ks + [n];
        assert n in ks;
      }
      forall k | 0 <= k < n ensures k in ks <==> now - seen[k].at <= SeenForMs {
        assert seen[..n][k] == seen[k];
      }
    }
  }

  lemma HousekeepingMeaning(r: Receiver, now: int)
    ensures KeepsFresh(r.pending, Housekept(r, now).pending, now) && KeepsRecent(r.seen, Housekept(r, now).seen, now)
  {
    var ks := ExpireKeepsFresh(r.pending, r.pendingBytes, now);
    var seen := SeenKeepsRecent(r.seen, now);
  }

  // ----- The class of the source -----

  class RelayReceiver {
    var pendingPackets: seq<PendingPacket>
    var pendingPacketBytes: int
    var seenPacketIds: seq<Seen>

    ghost function State(): Receiver
      reads this
    {
      Receiver(pendingPackets, pendingPacketBytes, seenPacketIds)
    }

    constructor ()
      ensures State() == Receiver([], 0, [])
    {
      pendingPackets, pendingPacketBytes, seenPacketIds := [], 0, [];
    }

    method HasSeen(key: PacketKey) returns (r: bool)
      ensures r == IsSeen(seenPacketIds, key)
    {
      for i := 0 to |seenPacketIds|
        invariant forall j :: 0 <= j < i ==> seenPacketIds[j].key != key
      {
        if seenPacketIds[i].key == key {
          return true;
        }
      }
      return false;
    }

    method RememberSeen(key: PacketKey, now: int)
      modifies this`seenPacketIds
      ensures seenPacketIds == Remembered(old(seenPacketIds), key, now)
    {
      var kept := [];
      for i := 0 to |seenPacketIds|
        invariant kept == Forgotten(seenPacketIds[..i], key)
      {
        assert seenPacketIds[..i + 1][..i] == seenPacketIds[..i];
        if seenPacketIds[i].key != key {
          kept := kept + [seenPacketIds[i]];
        }
      }
      assert seenPacketIds[..|seenPacketIds|] == seenPacketIds;
      seenPacketIds := kept + [Seen(key, now)];
      ghost var all := seenPacketIds;
      ghost var dropped := 0;
      while |seenPacketIds| > MaxSeenPacketIds
        invariant 0 <= dropped <= |all| && seenPacketIds == all[dropped..]
        invariant |seenPacketIds| >= MaxSeenPacketIds || dropped == 0
      {
        seenPacketIds := seenPacketIds[1..];
        dropped := dropped + 1;
      }
    }

    method StoreChunk(i: nat, index: nat, total: nat, sequence: int, chunk: seq<Byte>, now: int)
      returns (complete: Option<PendingPacket>)
      requires i < |pendingPackets|
      modifies this
      ensures (State(), complete) == StoredAt(old(State()), i, index, total, sequence, chunk, now)
    {
      var pending := pendingPackets[i];
      if pending.total != total || pending.sequence != sequence || index in pending.chunks {
        return None;
      }
      if pendingPacketBytes + |chunk| > MaxPendingPacketBytes {
        return None;
      }
      pending := pending.(chunks := pending.chunks[index := chunk], bytes := pending.bytes + |chunk|);
      pendingPackets := pendingPackets[i := pending];
      pendingPacketBytes := pendingPacketBytes + |chunk|;
      if |pending.chunks| < pending.total {
        return None;
      }
      pendingPackets := pendingPackets[..i] + pendingPackets[i + 1..];
      pendingPacketBytes := pendingPacketBytes - pending.bytes;
      RememberSeen(pending.key, now);
      return Some(pending);
    }

    method AcceptChunk(key: PacketKey, index: nat, total: nat, sequence: int, chunk: seq<Byte>, now: int)
      returns (complete: Option<PendingPacket>)
      modifies this
      ensures (State(), complete) == Received(old(State()), key, index, total, sequence, chunk, now)
    {
      var seen := HasSeen(key);
      if seen || |chunk| == 0 || |chunk| > ChunkTargetBytes {
        return None;
      }
      var found := Find(pendingPackets, key, 0);
      if found.None? {
        if |pendingPackets| >= MaxPendingPackets {
          return None;
        }
        pendingPackets := pendingPackets + [PendingPacket(key, map[], total, sequence, now, 0)];
        found := Some(|pendingPackets| - 1);
      }
      complete := StoreChunk(found.value, index, total, sequence, chunk, now);
    }

    method Housekeeping(now: int)
      modifies this
      ensures State() == Housekept(old(State()), now)
      ensures KeepsFresh(old(pendingPackets), pendingPackets, now)
      ensures KeepsRecent(old(seenPacketIds), seenPacketIds, now)
    {
      HousekeepingMeaning(State(), now);
      var keptSeen := [];
      for i := 0 to |seenPacketIds|
        invariant State() == old(State()) && keptSeen == StillSeen(seenPacketIds[..i], now)
      {
        assert seenPacketIds[..i + 1][..i] == seenPacketIds[..i];
        if now - seenPacketIds[i].at <= SeenForMs {
          keptSeen := keptSeen + [seenPacketIds[i]];
        }
      }
      assert seenPacketIds[..|seenPacketIds|] == seenPacketIds;
      seenPacketIds := keptSeen;
      ExpirePending(now);
    }

    method ExpirePending(now: int)
      modifies this`pendingPackets, this`pendingPacketBytes
      ensures (pendingPackets, pendingPacketBytes) == Expire(old(pendingPackets), old(pendingPacketBytes), now)
    {
      var kept := [];
      for i := 0 to |pendingPackets|
        invariant pendingPackets == old(pendingPackets)
        invariant (kept, pendingPacketBytes) == Expire(pendingPackets[..i], old(pendingPacketBytes), now)
      {
        assert pendingPackets[..i + 1][..i] == pendingPackets[..i];
        if now - pendingPackets[i].firstSeenAt <= PendingForMs {
          kept := kept + [pendingPackets[i]];
        } else {
          pendingPacketBytes := pendingPacketBytes - pendingPackets[i].bytes;
        }
      }
      assert pendingPackets[..|pendingPackets|] == pendingPackets;
      pendingPackets := kept;
    }
  }

  // ----- The outbox -----

  datatype QueuedMessage = QueuedMessage(wire: string, bytes: nat)

  function TotalBytes(messages: seq<QueuedMessage>): nat {
    if messages == [] then 0 else TotalBytes(messages[..|messages| - 1]) + messages[|messages| - 1].bytes
  }

  lemma {:induction false} TotalBytesConcat(a: seq<QueuedMessage>, b: seq<QueuedMessage>)
    ensures TotalBytes(a + b) == TotalBytes(a) + TotalBytes(b)
  {
    if b == [] {
      assert a + b == a;
    } else {
      assert (a + b)[..|a + b| - 1] == a + b[..|b| - 1];
      TotalBytesConcat(a, b[..|b| - 1]);
    }
  }

  /** The brokers still ready after `n` messages, where `refusing(k)` are those whose client throws on message `k`. */
  function Left(ready: set<nat>, refusing: nat -> set<nat>, n: nat): set<nat> {
    if n == 0 then ready else Left(ready, refusing, n - 1) - refusing(n - 1)
  }

  /** How many of `n` messages some broker takes. */
  function Taken(ready: set<nat>, refusing: nat -> set<nat>, n: nat): nat {
    if n == 0 then 0 else Taken(ready, refusing, n - 1) + if Left(ready, refusing, n) != {} then 1 else 0
  }

  lemma {:induction false} LeftShrinks(ready: set<nat>, refusing: nat -> set<nat>, k: nat, n: nat)
    requires k <= n
    ensures Left(ready, refusing, n) <= Left(ready, refusing, k)
  {
    if k < n {
      LeftShrinks(ready, refusing, k, n - 1);
    }
  }

  lemma {:induction false} AllTaken(ready: set<nat>, refusing: nat -> set<nat>, n: nat)
    ensures Taken(ready, refusing, n) <= n
    ensures Left(ready, refusing, n) != {} ==> Taken(ready, refusing, n) == n
  {
    if n > 0 {
      AllTaken(ready, refusing, n - 1);
    }
  }

  /**
   A broker that refuses is not asked again, so the messages taken are the first ones: those before no broker is left.
   */
  lemma {:induction false} TakenAreFirst(ready: set<nat>, refusing: nat -> set<nat>, k: nat, n: nat)
    requires k < n
    ensures k < Taken(ready, refusing, n) <==> Left(ready, refusing, k + 1) != {}
  {
    AllTaken(ready, refusing, n);
    AllTaken(ready, refusing, n - 1);
    LeftShrinks(ready, refusing, k + 1, n);
    if k < n - 1 {
      TakenAreFirst(ready, refusing, k, n - 1);
    }
  }

  /** As long as some broker is left nothing is lost, and only then. */
  lemma NothingLost(ready: set<nat>, refusing: nat -> set<nat>, n: nat)
    requires ready != {}
    ensures Taken(ready, refusing, n) == n <==> Left(ready, refusing, n) != {}
  {
    AllTaken(ready, refusing, n);
    if n > 0 {
      AllTaken(ready, refusing, n - 1);
    }
  }

  /** Message `i` joins those published or those lost. */
  lemma OneMoreTaken(ready: set<nat>, refusing: nat -> set<nat>, messages: seq<QueuedMessage>, i: nat)
    requires i < |messages|
    ensures var n, more := Taken(ready, refusing, i), Taken(ready, refusing, i + 1);
      && n <= i && more <= i + 1
      && (Left(ready, refusing, i + 1) != {} ==> (
            messages[..n] + [messages[i]] == messages[..more] && messages[n..i] == messages[more..i + 1]))
      && (Left(ready, refusing, i + 1) == {} ==> more == n && messages[n..i] + [messages[i]] == messages[more..i + 1])
  {
    AllTaken(ready, refusing, i);
    AllTaken(ready, refusing, i + 1);
  }

  lemma {:induction false} NobodyLeft(refusing: nat -> set<nat>, n: nat)
    ensures Left({}, refusing, n) == {}
  {
    if n > 0 {
      NobodyLeft(refusing, n - 1);
    }
  }

  /** Messages wait while no broker is ready and are published in the order they were sent. */
  class Outbox {
    var ready: set<nat>
    var outbox: seq<QueuedMessage>
    var outboxBytes: nat
    var stopped: bool
    /** What was handed to at least one broker, and what was taken off the outbox for none, oldest first. */
    var published: seq<QueuedMessage>
    var lost: seq<QueuedMessage>

    ghost predicate Valid()
      reads this
    {
      && outboxBytes == TotalBytes(outbox) <= MaxOutboxBytes && |outbox| <= MaxOutboxMessages
      && (ready != {} ==> outbox == [])
    }

    constructor ()
      ensures Valid() && ready == {} && outbox == [] && published == [] && lost == [] && !stopped
    {
      ready, outbox, outboxBytes, stopped, published, lost := {}, [], 0, false, [], [];
    }

    /** One message to every ready broker; a broker whose client throws is ready no longer. */
    method PublishAll(message: QueuedMessage, refusing: set<nat>)
      modifies this`ready, this`published, this`lost
      ensures ready == old(ready) - refusing
      ensures ready != {} ==> published == old(published) + [message] && lost == old(lost)
      ensures ready == {} ==> published == old(published) && lost == old(lost) + [message]
    {
      var reached := false;
      var todo := ready;
      while todo != {}
        invariant todo <= old(ready) && ready == old(ready) - (refusing - todo)
        invariant published == old(published) && lost == old(lost)
        invariant reached <==> exists c :: c in old(ready) - todo && c !in refusing
      {
        var client :| client in todo;
        todo := todo - {client};
        if client in refusing {
          ready := ready - {client};
        } else {
          reached := true;
        }
      }
      if reached {
        published := published + [message];
      } else {
        lost := lost + [message];
      }
    }

    /** Messages one after the other: the first are published, and from where no broker is left the rest is lost. */
    method PublishEach(messages: seq<QueuedMessage>, refusing: nat -> set<nat>)
      modifies this`ready, this`published, this`lost
      ensures ready == Left(old(ready), refusing, |messages|)
      ensures var n := Taken(old(ready), refusing, |messages|);
        n <= |messages| && published == old(published) + messages[..n] && lost == old(lost) + messages[n..]
    {
      ghost var brokers := ready;
      for i := 0 to |messages|
        invariant ready == Left(brokers, refusing, i) && Taken(brokers, refusing, i) <= i
        invariant published == old(published) + messages[..Taken(brokers, refusing, i)]
        invariant lost == old(lost) + messages[Taken(brokers, refusing, i)..i]
      {
        OneMoreTaken(brokers, refusing, messages, i);
        PublishAll(messages[i], refusing(i));
      }
      assert messages[..|messages|] == messages;
    }

    /** Without a broker all messages are queued or none; with one, they are published as far as one is left. */
    method ExecuteOrQueue(messages: seq<QueuedMessage>, refusing: nat -> set<nat>) returns (ok: bool)
      requires Valid()
      modifies this
      ensures Valid() && ready == (if stopped then old(ready) else Left(old(ready), refusing, |messages|))
      ensures stopped == old(stopped)
      ensures !ok <==> !stopped && old(ready) == {} && (|old(outbox)| + |messages| > MaxOutboxMessages
                                                        || old(outboxBytes) + TotalBytes(messages) > MaxOutboxBytes)
      ensures outbox == old(outbox) + if ok && !stopped && old(ready) == {} then messages else []
      ensures var n := if stopped || old(ready) == {} then 0 else Taken(old(ready), refusing, |messages|); (
        && n <= |messages| && published == old(published) + messages[..n]
        && lost == old(lost) + if stopped || old(ready) == {} then [] else messages[n..])
    {
      if stopped {
        return true;
      }
      if ready == {} {
        NobodyLeft(refusing, |messages|);
        var addedBytes := 0;
        for i := 0 to |messages|
          invariant addedBytes == TotalBytes(messages[..i])
        {
          assert messages[..i + 1][..i] == messages[..i];
          addedBytes := addedBytes + messages[i].bytes;
        }
        assert messages[..|messages|] == messages;
        if |outbox| + |messages| > MaxOutboxMessages || outboxBytes + addedBytes > MaxOutboxBytes {
          return false;
        }
        TotalBytesConcat(outbox, messages);
        outbox := outbox + messages;
        outboxBytes := outboxBytes + addedBytes;
        return true;
      }
      PublishEach(messages, refusing);
      return true;
    }

    /**
     What waits is taken off and published. When the last ready broker refuses in the middle, exactly the messages from
     there on are lost: they are neither published nor in the outbox any more.
     */
    method FlushOutbox(refusing: nat -> set<nat>)
      requires outboxBytes == TotalBytes(outbox)
      modifies this
      ensures stopped == old(stopped) && outboxBytes == TotalBytes(outbox)
      ensures old(ready) == {} ==> (
          ready == {} && outbox == old(outbox) && published == old(published) && lost == old(lost))
      ensures old(ready) != {} ==> (
                && outbox == [] && ready == Left(old(ready), refusing, |old(outbox)|)
                && var n := Taken(old(ready), refusing, |old(outbox)|);
                  && n <= |old(outbox)| && published == old(published) + old(outbox)[..n]
                  && lost == old(lost) + old(outbox)[n..])
    {
      if |outbox| == 0 || ready == {} {
        return;
      }
      var queued := outbox;
      outbox, outboxBytes := [], 0;
      PublishEach(queued, refusing);
    }

    /** A broker proved that it delivers: it counts as ready and what waited is published as far as one is left. */
    method BecomeReady(client: nat, refusing: nat -> set<nat>)
      requires Valid()
      modifies this
      ensures Valid() && stopped == old(stopped) && outbox == []
      ensures ready == Left(old(ready) + {client}, refusing, |old(outbox)|)
      ensures var n := Taken(old(ready) + {client}, refusing, |old(outbox)|);
        n <= |old(outbox)| && published == old(published) + old(outbox)[..n] && lost == old(lost) + old(outbox)[n..]
    {
      ready := ready + {client};
      FlushOutbox(refusing);
    }

    method Stop()
      modifies this
      ensures Valid() && stopped && ready == {} && outbox == [] && published == old(published) && lost == old(lost)
    {
      ready, outbox, outboxBytes, stopped := {}, [], 0, true;
    }

    method Drop(client: nat)
      requires Valid()
      modifies this`ready
      ensures Valid() && ready == old(ready) - {client}
    {
      ready := ready - {client};
    }
  }
}

/**
 The emergency frame relay (src/runtime/mqttFrameRelay.ts, and with sequence numbers src/runtime/nostrRelay.ts):
 cutting a sealed frame into messages, the receiver's checks, reassembly, expiry, and the outbox.

 Base64 text is either the encoding of some bytes or something else of a known length. Encryption is a pair of
 functions given by the user of this model. A relay without sequence numbers sends 1 in every message.
 */
module FrameRelay {
  import opened Bytes
  import opened Outcomes
  import HostElection

  const ChunkTargetBytes: nat := 32 * 1024
  const MaxWireFrameBytes: nat := 64 * 1024 * 1024 + 1024 * 1024 + 5
  const SealBytes: nat := 12 + 16
  const MaxRelayChunks: nat := (MaxWireFrameBytes + SealBytes + ChunkTargetBytes - 1) / ChunkTargetBytes
  const MaxChunkTextLength: nat := (ChunkTargetBytes * 4 + 2) / 3 + 4
  const MaxPendingPackets: nat := 256
  const MaxPendingPacketBytes: nat := 128 * 1024 * 1024
  const MaxSeenPacketIds: nat := 32_768
  const MaxOutboxMessages: nat := 8_192
  const MaxOutboxBytes: nat := 256 * 1024 * 1024
  const SeenForMs := 120_000
  const PendingForMs := 30_000

  datatype Base64 = Encoded(bytes: seq<Byte>) | Malformed(length: nat)

  function TextLength(d: Base64): nat { if d.Encoded? then 4 * ((|d.bytes| + 2) / 3) else d.length }

  datatype DataMessage = DataMessage(from: string, to: Option<string>, packet: string, sequence: int, index: int,
                                     total: int, data: Base64)

  function Digits(n: nat): nat { if n < 10 then 1 else 1 + Digits(n / 10) }

  /** The length of a message's JSON text, field names, quotes and separators included; ids need no escapes. */
  function WireLength(m: DataMessage): nat
    requires m.index >= 0 && m.total >= 0 && m.sequence >= 0
  {
    80 + |m.from| + (if m.to.Some? then 8 + |m.to.value| else 0) + |m.packet| + Digits(m.sequence) + Digits(m.index)
    + Digits(m.total) + TextLength(m.data)
  }

  predicate IsPacketId(id: string) {
    |id| == 24 && forall i :: 0 <= i < |id| ==> 'a' <= id[i] <= 'f' || '0' <= id[i] <= '9'
  }

  /** The receiver's checks on a message that reached it. */
  predicate Accepts(local: string, m: DataMessage) {
    && HostElection.IsPeerId(m.from) && m.from != local && (m.to.Some? ==> m.to.value == local)
    && IsPacketId(m.packet) && m.data.Encoded? && m.data.bytes != [] && TextLength(m.data) <= MaxChunkTextLength
    && 0 <= m.index < m.total && 1 <= m.total <= MaxRelayChunks && m.sequence >= 1
    && WireLength(m) <= MaxChunkTextLength + 1024
  }

  // ----- Cutting -----

  function Min(a: nat, b: nat): nat { if a < b then a else b }

  function ChunkCount(size: nat): (n: nat)
    ensures n >= 1 && size <= n * ChunkTargetBytes && (size > 0 ==> (n - 1) * ChunkTargetBytes < size)
  {
    if size == 0 then 1 else (size + ChunkTargetBytes - 1) / ChunkTargetBytes
  }

  /** Where chunk `i` of `size` bytes starts. */
  function ChunkStart(size: nat, i: nat): nat { Min(i * ChunkTargetBytes, size) }

  function Chunk(sealed: seq<Byte>, i: nat): seq<Byte> { sealed[ChunkStart(|sealed|, i)..ChunkStart(|sealed|, i + 1)] }

  lemma ChunkFits(sealed: seq<Byte>, i: nat)
    requires sealed != [] && i < ChunkCount(|sealed|)
    ensures 0 < |Chunk(sealed, i)| <= ChunkTargetBytes
  {
    assert i * ChunkTargetBytes <= (ChunkCount(|sealed|) - 1) * ChunkTargetBytes < |sealed|;
  }

  datatype Packet = Packet(from: string, to: Option<string>, id: string, sequence: int, sealed: seq<Byte>)

  function MessageAt(p: Packet, i: nat): DataMessage
    requires i < ChunkCount(|p.sealed|)
  {
    DataMessage(p.from, p.to, p.id, p.sequence, i, ChunkCount(|p.sealed|), Encoded(Chunk(p.sealed, i)))
  }

  /** The first `n` messages of a packet. */
  function Messages(p: Packet, n: nat): seq<DataMessage>
    requires n <= ChunkCount(|p.sealed|)
  {
    if n == 0 then [] else Messages(p, n - 1) + [MessageAt(p, n - 1)]
  }

  /** The cutting loop of the sender; frames over the wire limit are refused. */
  method Cut(p: Packet, frameSize: nat) returns (r: Option<seq<DataMessage>>)
    requires |p.sealed| == frameSize + SealBytes
    ensures r.None? <==> frameSize > MaxWireFrameBytes
    ensures r.Some? ==> r.value == Messages(p, ChunkCount(|p.sealed|))
  {
    if frameSize > MaxWireFrameBytes {
      return None;
    }
    var total := ChunkCount(|p.sealed|);
    var messages := [];
    for index := 0 to total
      invariant messages == Messages(p, index)
    {
      ChunkFits(p.sealed, index);
      var chunk := p.sealed[index * ChunkTargetBytes..Min((index + 1) * ChunkTargetBytes, |p.sealed|)];
      messages := messages + [DataMessage(p.from, p.to, p.id, p.sequence, index, total, Encoded(chunk))];
    }
    return Some(messages);
  }

  lemma {:induction false} DigitsBound(n: nat, digits: nat, bound: nat)
    requires n < bound && bound <= Power10(digits) && digits >= 1
    ensures Digits(n) <= digits
  {
    if n >= 10 {
      DigitsBound(n / 10, digits - 1, Power10(digits - 1));
    }
  }

  function Power10(n: nat): nat { if n == 0 then 1 else 10 * Power10(n - 1) }

  lemma PowersOfTen()
    ensures Power10(4) == 10_000 && Power10(16) == 10_000_000_000_000_000
  {
    assert Power10(2) == 100;
    assert Power10(4) == 10_000;
    assert Power10(6) == 1_000_000;
    assert Power10(8) == 100_000_000;
    assert Power10(10) == 10_000_000_000;
    assert Power10(12) == 1_000_000_000_000;
    assert Power10(14) == 100_000_000_000_000;
  }

  /** An address a sender may put on a packet for `local`. */
  predicate IsAddressed(p: Packet, local: string) {
    && HostElection.IsPeerId(p.from) && HostElection.IsPeerId(local) && p.from != local
    && (p.to.None? || p.to == Some(local)) && IsPacketId(p.id) && 1 <= p.sequence < 0x20_0000_0000_0000
  }

  /** Every message of a frame within the wire limit passes the receiver's checks. */
  lemma SentIsAccepted(p: Packet, local: string, frameSize: nat, i: nat)
    requires IsAddressed(p, local) && frameSize <= MaxWireFrameBytes && |p.sealed| == frameSize + SealBytes
    requires i < ChunkCount(|p.sealed|)
    ensures Accepts(local, MessageAt(p, i))
  {
    ChunkFits(p.sealed, i);
    assert ChunkCount(|p.sealed|) <= MaxRelayChunks;
    FewDigits(p.sequence, i, ChunkCount(|p.sealed|));
    PartsAccepted(local, MessageAt(p, i));
  }

  lemma FewDigits(sequence: nat, index: nat, total: nat)
    requires sequence < 0x20_0000_0000_0000 && index < 10_000 && total < 10_000
    ensures Digits(sequence) <= 16 && Digits(index) <= 4 && Digits(total) <= 4
  {
    PowersOfTen();
    DigitsBound(sequence, 16, 0x20_0000_0000_0000);
    DigitsBound(index, 4, 10_000);
    DigitsBound(total, 4, 10_000);
  }

  lemma PartsAccepted(local: string, m: DataMessage)
    requires HostElection.IsPeerId(m.from) && HostElection.IsPeerId(local) && m.from != local
    requires (m.to.Some? ==> m.to.value == local) && IsPacketId(m.packet)
    requires m.data.Encoded? && 0 < |m.data.bytes| <= ChunkTargetBytes
    requires 0 <= m.index < m.total <= MaxRelayChunks && 1 <= m.sequence
    requires Digits(m.sequence) <= 16 && Digits(m.index) <= 4 && Digits(m.total) <= 4
    ensures Accepts(local, m)
  {
  }

  /** The chunks put together again are the packet. */
  function Joined(chunks: map<nat, seq<Byte>>, n: nat): seq<Byte>
    requires forall i :: 0 <= i < n ==> i in chunks
  {
    if n == 0 then [] else Joined(chunks, n - 1) + chunks[n - 1]
  }

  lemma {:induction false} JoinedChunks(sealed: seq<Byte>, chunks: map<nat, seq<Byte>>, n: nat)
    requires forall i :: 0 <= i < n ==> i in chunks && chunks[i] == Chunk(sealed, i)
    ensures Joined(chunks, n) == sealed[..ChunkStart(|sealed|, n)]
  {
    if n > 0 {
      JoinedChunks(sealed, chunks, n - 1);
      var a, b := ChunkStart(|sealed|, n - 1), ChunkStart(|sealed|, n);
      assert a <= b <= |sealed|;
      assert sealed[..a] + sealed[a..b] == sealed[..b];
    }
  }
}

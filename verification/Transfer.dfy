/** Incoming transfers (src/core/transfer.ts): the shape of a transfer and the sizes of its chunks. */
module Transfer {
  import opened Bytes
  import opened FiniteSets
  import opened Outcomes

  const MaxTransferChunkSize: nat := 1024 * 1024
  const MaxTransferBytes: nat := 2 * 1024 * 1024 * 1024
  const MaxTransferChunks: nat := 128 * 1024

  /** The declaration of a transfer as it arrives; a digest that is not hexadecimal SHA-256 is None. */
  datatype Declaration = Declaration(size: int, chunkSize: int, chunks: int, hash: Option<Digest>)

  datatype Shape = Shape(size: nat, chunkSize: nat, expectedChunks: nat, hash: Digest)

  function RequiredChunks(size: nat, chunkSize: nat): nat
    requires chunkSize > 0
  {
    if size == 0 then 1 else (size + chunkSize - 1) / chunkSize
  }

  function Validated(d: Declaration): Option<Shape> {
    if !(0 <= d.size <= MaxTransferBytes) || !(1 <= d.chunkSize <= MaxTransferChunkSize) then None
    else if RequiredChunks(d.size, d.chunkSize) > MaxTransferChunks then None
    else if d.chunks != RequiredChunks(d.size, d.chunkSize) || d.hash.None? then None
    else Some(Shape(d.size, d.chunkSize, d.chunks, d.hash.value))
  }

  function ExpectedChunkBytes(shape: Shape, index: int): int {
    if index < 0 || index >= shape.expectedChunks then -1
    else if index < shape.expectedChunks - 1 then shape.chunkSize
    else shape.size - shape.chunkSize * index
  }

  /** Where a chunk starts. */
  function Offset(shape: Shape, index: int): int { shape.chunkSize * index }

  predicate IsValid(shape: Shape) {
    shape.chunkSize > 0 && shape.expectedChunks == RequiredChunks(shape.size, shape.chunkSize)
  }

  lemma ValidatedIsValid(d: Declaration)
    requires Validated(d).Some?
    ensures IsValid(Validated(d).value) && Validated(d).value.expectedChunks <= MaxTransferChunks
  {
  }

  lemma RequiredChunksBound(size: nat, chunkSize: nat)
    requires chunkSize > 0 && size > 0
    ensures var n := RequiredChunks(size, chunkSize); n >= 1 && (n - 1) * chunkSize < size <= n * chunkSize
  {
    var n := (size + chunkSize - 1) / chunkSize;
    DivisionBounds(size + chunkSize - 1, chunkSize);
    assert (n - 1) * chunkSize == n * chunkSize - chunkSize;
  }

  lemma DivisionBounds(a: nat, b: nat)
    requires b > 0
    ensures b * (a / b) <= a < b * (a / b) + b
  {
  }

  /**
   Chunks follow one another without gap or overlap: the first starts at 0, each ends where the next starts, the last
   ends at the size.
   */
  lemma ChunksTile(shape: Shape, index: int)
    requires IsValid(shape) && 0 <= index < shape.expectedChunks
    ensures Offset(shape, 0) == 0
    ensures ExpectedChunkBytes(shape, index) >= 0 && (shape.size > 0 ==> ExpectedChunkBytes(shape, index) > 0)
    ensures ExpectedChunkBytes(shape, index) <= shape.chunkSize
    ensures Offset(shape, index) + ExpectedChunkBytes(shape, index)
         == if index == shape.expectedChunks - 1 then shape.size else Offset(shape, index + 1)
  {
    var n := shape.expectedChunks;
    if shape.size > 0 {
      RequiredChunksBound(shape.size, shape.chunkSize);
      assert (n - 1) * shape.chunkSize == shape.chunkSize * (n - 1);
      assert n * shape.chunkSize == shape.chunkSize * (n - 1) + shape.chunkSize;
    }
    assert shape.chunkSize * (index + 1) == shape.chunkSize * index + shape.chunkSize;
  }

  predicate Covers(shape: Shape, index: int, byte: int) {
    Offset(shape, index) <= byte < Offset(shape, index) + ExpectedChunkBytes(shape, index)
  }

  /** Every byte of the file lies in exactly one chunk. */
  lemma EachByteInOneChunk(shape: Shape, byte: int) returns (index: int)
    requires IsValid(shape) && 0 <= byte < shape.size
    ensures 0 <= index < shape.expectedChunks && Covers(shape, index, byte)
    ensures forall other :: 0 <= other < shape.expectedChunks && Covers(shape, other, byte) ==> other == index
  {
    index := byte / shape.chunkSize;
    DivisionBounds(byte, shape.chunkSize);
    RequiredChunksBound(shape.size, shape.chunkSize);
    IndexInRange(shape, byte, index);
    ChunksTile(shape, index);
    forall other | 0 <= other < shape.expectedChunks && Covers(shape, other, byte) ensures other == index {
      ChunksTile(shape, other);
      Ordered(shape, other, index, byte);
    }
  }

  lemma IndexInRange(shape: Shape, byte: int, index: int)
    requires IsValid(shape) && 0 <= byte < shape.size && shape.chunkSize * index <= byte && index >= 0
    ensures index < shape.expectedChunks
  {
    RequiredChunksBound(shape.size, shape.chunkSize);
    if index >= shape.expectedChunks {
      MulMonotone(shape.chunkSize, shape.expectedChunks, index);
    }
  }

  lemma MulMonotone(c: nat, a: int, b: int)
    requires a <= b
    ensures c * a <= c * b
  {
  }

  lemma Ordered(shape: Shape, a: int, b: int, byte: int)
    requires shape.chunkSize > 0
    requires shape.chunkSize * a <= byte < shape.chunkSize * a + shape.chunkSize
    requires shape.chunkSize * b <= byte < shape.chunkSize * b + shape.chunkSize
    ensures a == b
  {
    if a < b {
      MulMonotone(shape.chunkSize, a + 1, b);
    } else if b < a {
      MulMonotone(shape.chunkSize, b + 1, a);
    }
  }

  // ----- Writing chunks at their places -----

  function Zeros(n: nat): (r: seq<Byte>)
    ensures |r| == n
  {
    seq(n, _ => 0 as Byte)
  }

  /** A write at an offset; a gap before it is filled with zeros. */
  function WriteAt(file: seq<Byte>, offset: nat, payload: seq<Byte>): (r: seq<Byte>)
    ensures |r| == if |file| > offset + |payload| then |file| else offset + |payload|
    ensures forall i :: 0 <= i < |payload| ==> r[offset + i] == payload[i]
    ensures forall i :: 0 <= i < |file| && !(offset <= i < offset + |payload|) ==> r[i] == file[i]
  {
    var padded := if |file| >= offset then file else file + Zeros(offset - |file|);
    padded[..offset] + payload + if offset + |payload| < |padded| then padded[offset + |payload|..] else []
  }

  /** The bytes in the chunks received among the first `n`. */
  function ReceivedBytes(shape: Shape, received: set<nat>, n: nat): int {
    if n == 0 then 0 else ReceivedBytes(shape, received, n - 1) + if n - 1 in received then ExpectedChunkBytes(shape,
        n - 1) else 0
  }

  lemma {:induction false} ReceivingAddsBytes(shape: Shape, received: set<nat>, index: nat, n: nat)
    requires index !in received
    ensures ReceivedBytes(shape, received + {index}, n)
         == ReceivedBytes(shape, received, n) + if index < n then ExpectedChunkBytes(shape, index) else 0
  {
    if n > 0 {
      ReceivingAddsBytes(shape, received, index, n - 1);
    }
  }

  lemma {:induction false} BytesUpTo(shape: Shape, received: set<nat>, n: nat)
    requires IsValid(shape) && n <= shape.expectedChunks && forall i :: 0 <= i < n ==> i in received
    ensures ReceivedBytes(shape, received, n) == if n == shape.expectedChunks then shape.size else Offset(shape, n)
  {
    if n > 0 {
      BytesUpTo(shape, received, n - 1);
      ChunksTile(shape, n - 1);
    } else {
      ChunksTile(shape, 0);
    }
  }

  /** All chunks together are as many bytes as the file. */
  lemma AllChunksAreTheSize(shape: Shape, received: set<nat>)
    requires IsValid(shape) && received == IndexesBelow(shape.expectedChunks)
    ensures ReceivedBytes(shape, received, shape.expectedChunks) == shape.size
  {
    BytesUpTo(shape, received, shape.expectedChunks);
  }

  /** The part of the original file that chunk `index` carries. */
  function Slice(shape: Shape, source: seq<Byte>, index: nat): seq<Byte>
    requires IsValid(shape) && |source| == shape.size && index < shape.expectedChunks
  {
    ChunksTile(shape, index);
    SliceInRange(shape, index);
    source[Offset(shape, index)..Offset(shape, index) + ExpectedChunkBytes(shape, index)]
  }

  lemma SliceInRange(shape: Shape, index: nat)
    requires IsValid(shape) && index < shape.expectedChunks
    ensures 0 <= Offset(shape, index) <= Offset(shape, index) + ExpectedChunkBytes(shape, index) <= shape.size
  {
    ChunksTile(shape, index);
    var n := shape.expectedChunks;
    if index < n - 1 {
      ChunksTile(shape, n - 1);
      MulMonotone(shape.chunkSize, index + 1, n - 1);
    }
  }

  /** Where the received chunks lie, the file agrees with the source. */
  ghost predicate Agrees(shape: Shape, source: seq<Byte>, file: seq<Byte>, received: set<nat>)
    requires |source| == shape.size
  {
    && |file| <= shape.size
    && forall i, b :: i in received && Covers(shape, i, b) && 0 <= b < shape.size ==> b < |file| && file[b] == source[b]
  }

  /** The right chunk written at its place keeps the agreement, in whatever order and however often. */
  lemma WritingAgrees(shape: Shape, source: seq<Byte>, file: seq<Byte>, received: set<nat>, index: nat)
    requires IsValid(shape) && |source| == shape.size && Agrees(shape, source, file, received)
    requires index < shape.expectedChunks
    ensures Agrees(shape, source, WriteAt(file, Offset(shape, index), Slice(shape, source, index)), received + {index})
  {
    SliceInRange(shape, index);
    var offset := Offset(shape, index);
    var slice := Slice(shape, source, index);
    var v := WriteAt(file, offset, slice);
    forall i, b | i in received + {index} && Covers(shape, i, b) && 0 <= b < shape.size
      ensures b < |v| && v[b] == source[b]
    {
      if offset <= b < offset + |slice| {
        assert v[offset + (b - offset)] == slice[b - offset] == source[b];
      } else {
        assert i in received;
      }
    }
  }

  /** With all chunks written the file is the source. */
  lemma CompleteFileIsSource(shape: Shape, source: seq<Byte>, file: seq<Byte>, received: set<nat>)
    requires IsValid(shape) && |source| == shape.size && Agrees(shape, source, file, received)
    requires received == IndexesBelow(shape.expectedChunks)
    ensures file == source
  {
    forall b | 0 <= b < shape.size ensures b < |file| && file[b] == source[b] {
      var i := EachByteInOneChunk(shape, b);
      assert i in received;
    }
    if shape.size > 0 {
      var i := EachByteInOneChunk(shape, shape.size - 1);
      assert i in received;
    }
  }
}

/**
 The stdout line splitter of the kernel bridge (src/core/pythonKernel.ts).

 Lines are byte sequences: decoding them is not part of this model. What a line makes its consumer do is a predicate
 on all lines handed on so far, which says whether the stream stops after the last of them.
 */
module LineReader {
  import opened Bytes

  type Line = seq<Byte>

  const LF: Byte := 0x0a
  const CR: Byte := 0x0d
  const MaxLineBytes: nat := 32 * 1024 * 1024

  datatype End = Running | TooLong | Stopped

  datatype Reader = Reader(buffer: seq<Byte>, lines: seq<Line>, end: End)

  const Start := Reader([], [], Running)

  type Consumer = seq<Line> -> bool

  function WithoutCR(raw: Line): Line {
    if raw != [] && raw[|raw| - 1] == CR then raw[..|raw| - 1] else raw
  }

  /** The end of one raw line. */
  function Handed(s: Reader, raw: Line, stops: Consumer): Reader {
    var line := WithoutCR(raw);
    if line == [] then Reader([], s.lines, Running)
    else Reader([], s.lines + [line], if stops(s.lines + [line]) then Stopped else Running)
  }

  function Fed(s: Reader, b: Byte, stops: Consumer): Reader {
    if !s.end.Running? then s
    else if b == LF then Handed(s, s.buffer, stops)
    else if |s.buffer| == MaxLineBytes then Reader([], s.lines, TooLong)
    else s.(buffer := s.buffer + [b])
  }

  /** The stream fed byte by byte. */
  function FedAll(s: Reader, bytes: seq<Byte>, stops: Consumer): Reader
    decreases |bytes|
  {
    if bytes == [] then s else FedAll(Fed(s, bytes[0], stops), bytes[1..], stops)
  }

  lemma {:induction false} FedConcat(s: Reader, a: seq<Byte>, b: seq<Byte>, stops: Consumer)
    ensures FedAll(s, a + b, stops) == FedAll(FedAll(s, a, stops), b, stops)
    decreases |a|
  {
    if a == [] {
      assert a + b == b;
    } else {
      assert (a + b)[1..] == a[1..] + b;
      FedConcat(Fed(s, a[0], stops), a[1..], b, stops);
    }
  }

  lemma {:induction false} EndedStays(s: Reader, bytes: seq<Byte>, stops: Consumer)
    requires !s.end.Running?
    ensures FedAll(s, bytes, stops) == s
  {
    if bytes != [] {
      EndedStays(s, bytes[1..], stops);
    }
  }

  /** A stretch without newline is buffered whole, or is the end of the stream if the line grows too long. */
  lemma {:induction false} FedSegment(s: Reader, segment: seq<Byte>, stops: Consumer)
    requires s.end.Running? && LF !in segment && |s.buffer| <= MaxLineBytes
    ensures FedAll(s, segment, stops) == if |s.buffer| + |segment| <= MaxLineBytes then
                                           s.(buffer := s.buffer + segment)
                                         else Reader([], s.lines, TooLong)
    decreases |segment|
  {
    if segment == [] {
      assert s.buffer + [] == s.buffer;
    } else if |s.buffer| == MaxLineBytes {
      EndedStays(Fed(s, segment[0], stops), segment[1..], stops);
    } else {
      FedSegment(Fed(s, segment[0], stops), segment[1..], stops);
      assert s.buffer + [segment[0]] + segment[1..] == s.buffer + segment;
    }
  }

  function Joined(chunks: seq<seq<Byte>>): seq<Byte> {
    if chunks == [] then [] else Joined(chunks[..|chunks| - 1]) + chunks[|chunks| - 1]
  }

  lemma JoinedAppend(chunks: seq<seq<Byte>>, segment: seq<Byte>)
    ensures Joined(chunks + [segment]) == Joined(chunks) + segment
  {
    assert (chunks + [segment])[..|chunks|] == chunks;
  }

  method IndexOf(chunk: seq<Byte>, offset: nat) returns (newline: nat, found: bool)
    requires offset <= |chunk|
    ensures offset <= newline <= |chunk| && LF !in chunk[offset..newline]
    ensures found <==> newline < |chunk|
    ensures found ==> chunk[newline] == LF
  {
    newline := offset;
    while newline < |chunk|
      invariant offset <= newline <= |chunk| && LF !in chunk[offset..newline]
    {
      if chunk[newline] == LF {
        return newline, true;
      }
      newline := newline + 1;
    }
    found := false;
  }

  class LineSplitter {
    const stops: Consumer
    var stdoutChunks: seq<seq<Byte>>
    var stdoutLineBytes: nat
    var lines: seq<Line>
    var end: End

    ghost predicate Valid()
      reads this
    {
      && stdoutLineBytes == |Joined(stdoutChunks)| <= MaxLineBytes
      && (!end.Running? ==> stdoutChunks == [])
    }

    ghost function State(): Reader
      reads this
    {
      Reader(Joined(stdoutChunks), lines, end)
    }

    constructor (stops: Consumer)
      ensures Valid() && State() == Start && this.stops == stops
    {
      this.stops := stops;
      stdoutChunks, stdoutLineBytes, lines, end := [], 0, [], Running;
    }

    method FailTooLong()
      modifies this
      ensures Valid() && State() == Reader([], old(lines), TooLong)
    {
      stdoutChunks, stdoutLineBytes, end := [], 0, TooLong;
    }

    method AcceptLine(segment: seq<Byte>)
      requires Valid() && end.Running? && stdoutLineBytes + |segment| <= MaxLineBytes
      modifies this
      ensures Valid() && State() == Handed(old(State()), old(State()).buffer + segment, stops)
    {
      JoinedAppend(stdoutChunks, segment);
      assert [] + segment == segment;
      var raw := if stdoutChunks != [] then Joined(stdoutChunks + [segment]) else segment;
      stdoutChunks, stdoutLineBytes := [], 0;
      var line := WithoutCR(raw);
      if line != [] {
        lines := lines + [line];
        if stops(lines) {
          end := Stopped;
        }
      }
    }

    /** Handling a chunk is feeding its bytes one at a time. */
    method Data(chunk: seq<Byte>)
      requires Valid()
      modifies this
      ensures Valid() && State() == FedAll(old(State()), chunk, stops)
    {
      if !end.Running? {
        EndedStays(State(), chunk, stops);
        return;
      }
      var offset := 0;
      ghost var before := State();
      while offset < |chunk|
        invariant Valid() && end.Running? && 0 <= offset <= |chunk|
        invariant FedAll(State(), chunk[offset..], stops) == FedAll(before, chunk, stops)
      {
        var newline, found := IndexOf(chunk, offset);
        var segment := chunk[offset..newline];
        SegmentFed(State(), chunk, offset, newline, stops);
        if stdoutLineBytes + |segment| > MaxLineBytes {
          FailTooLong();
          return;
        }
        if !found {
          JoinedAppend(stdoutChunks, segment);
          stdoutChunks := stdoutChunks + [segment];
          stdoutLineBytes := stdoutLineBytes + |segment|;
          return;
        }
        AcceptLine(segment);
        if !end.Running? {
          EndedStays(State(), chunk[newline + 1..], stops);
          return;
        }
        offset := newline + 1;
      }
    }
  }

  /** What one segment of a chunk does to the reader. */
  lemma SegmentFed(s: Reader, chunk: seq<Byte>, offset: nat, newline: nat, stops: Consumer)
    requires s.end.Running? && |s.buffer| <= MaxLineBytes && offset <= newline <= |chunk|
    requires LF !in chunk[offset..newline] && (newline < |chunk| ==> chunk[newline] == LF)
    ensures |s.buffer| + newline - offset > MaxLineBytes
      ==> FedAll(s, chunk[offset..], stops) == Reader([], s.lines, TooLong)
    ensures |s.buffer| + newline - offset <= MaxLineBytes && newline == |chunk|
      ==> FedAll(s, chunk[offset..], stops) == s.(buffer := s.buffer + chunk[offset..newline])
    ensures |s.buffer| + newline - offset <= MaxLineBytes && newline < |chunk|
      ==> FedAll(s, chunk[offset..], stops)
          == FedAll(Handed(s, s.buffer + chunk[offset..newline], stops), chunk[newline + 1..], stops)
  {
    var segment, rest := chunk[offset..newline], chunk[newline..];
    assert chunk[offset..] == segment + rest;
    FedConcat(s, segment, rest, stops);
    FedSegment(s, segment, stops);
    if |s.buffer| + |segment| > MaxLineBytes {
      EndedStays(FedAll(s, segment, stops), rest, stops);
    } else if newline < |chunk| {
      assert rest[1..] == chunk[newline + 1..];
    }
  }

  // ----- What the reader hands on -----

  /** The newline-terminated lines of a stream. */
  function RawLines(bytes: seq<Byte>): (r: seq<Line>)
    ensures |r| <= |bytes|
  {
    if LF !in bytes then [] else
      var n := FirstNewline(bytes);
      [bytes[..n]] + RawLines(bytes[n + 1..])
  }

  function Unfinished(bytes: seq<Byte>): seq<Byte> {
    if LF !in bytes then bytes else Unfinished(bytes[FirstNewline(bytes) + 1..])
  }

  function FirstNewline(bytes: seq<Byte>): (n: nat)
    requires LF in bytes
    ensures n < |bytes| && bytes[n] == LF && LF !in bytes[..n]
  {
    if bytes[0] == LF then 0 else
      var n := FirstNewline(bytes[1..]);
      assert bytes[..n + 1] == [bytes[0]] + bytes[1..][..n];
      n + 1
  }

  function Terminated(lines: seq<Line>): seq<Byte> {
    if lines == [] then [] else lines[0] + [LF] + Terminated(lines[1..])
  }

  ghost predicate NoNewlines(lines: seq<Line>) { forall l :: l in lines ==> LF !in l }

  lemma CutAtNewline(first: Line, rest: seq<Line>, unfinished: seq<Byte>, bytes: seq<Byte>)
    requires Terminated(rest) + unfinished == bytes
    ensures Terminated([first] + rest) + unfinished == first + [LF] + bytes
  {
    assert ([first] + rest)[1..] == rest;
    assert first + [LF] + Terminated(rest) + unfinished == first + [LF] + (Terminated(rest) + unfinished);
  }

  lemma CutAt(bytes: seq<Byte>, n: nat)
    requires n < |bytes|
    ensures bytes == bytes[..n] + [bytes[n]] + bytes[n + 1..]
  {
  }

  lemma HeadAndTail(first: Line, rest: seq<Line>)
    ensures ([first] + rest)[0] == first && ([first] + rest)[1..] == rest
  {
  }

  /** The raw lines and the unfinished rest are the stream cut at every newline. */
  lemma {:induction false} RawLinesCutTheStream(bytes: seq<Byte>)
    ensures Terminated(RawLines(bytes)) + Unfinished(bytes) == bytes
    ensures NoNewlines(RawLines(bytes)) && LF !in Unfinished(bytes)
  {
    if LF !in bytes {
      assert [] + bytes == bytes;
    } else {
      var n := FirstNewline(bytes);
      var after := bytes[n + 1..];
      RawLinesCutTheStream(after);
      CutAtNewline(bytes[..n], RawLines(after), Unfinished(after), after);
      CutAt(bytes, n);
    }
  }

  /** Lines in order, one trailing carriage return dropped, empty ones skipped, until one is too long or stops. */
  function HandedOn(lines: seq<Line>, raws: seq<Line>, rest: seq<Byte>, stops: Consumer): Reader
    decreases |raws|
  {
    if raws == [] then (if |rest| <= MaxLineBytes then Reader(rest, lines, Running) else Reader([], lines, TooLong))
    else if |raws[0]| > MaxLineBytes then Reader([], lines, TooLong)
    else
      var line := WithoutCR(raws[0]);
      if line == [] then HandedOn(lines, raws[1..], rest, stops)
      else if stops(lines + [line]) then Reader([], lines + [line], Stopped)
      else HandedOn(lines + [line], raws[1..], rest, stops)
  }

  lemma FirstLineFed(lines: seq<Line>, bytes: seq<Byte>, stops: Consumer)
    requires LF in bytes
    ensures var n := FirstNewline(bytes); var s := Reader([], lines, Running);
      FedAll(s, bytes, stops) == if n > MaxLineBytes then Reader([], lines, TooLong)
                                 else FedAll(Handed(s, bytes[..n], stops), bytes[n + 1..], stops)
  {
    var n := FirstNewline(bytes);
    SegmentFed(Reader([], lines, Running), bytes, 0, n, stops);
    assert bytes[0..] == bytes && bytes[0..n] == bytes[..n] && [] + bytes[..n] == bytes[..n];
  }

  lemma {:induction false} ReaderHandsOnLines(lines: seq<Line>, bytes: seq<Byte>, stops: Consumer)
    ensures FedAll(Reader([], lines, Running), bytes, stops)
         == HandedOn(lines, RawLines(bytes), Unfinished(bytes), stops)
    decreases |bytes|
  {
    var s := Reader([], lines, Running);
    if LF !in bytes {
      FedSegment(s, bytes, stops);
    } else {
      var n := FirstNewline(bytes);
      var after := bytes[n + 1..];
      FirstLineFed(lines, bytes, stops);
      HeadAndTail(bytes[..n], RawLines(after));
      var next := Handed(s, bytes[..n], stops);
      if next.end.Running? {
        ReaderHandsOnLines(next.lines, after, stops);
      } else {
        EndedStays(next, after, stops);
      }
    }
  }

  function Whole(chunks: seq<seq<Byte>>): seq<Byte> {
    if chunks == [] then [] else chunks[0] + Whole(chunks[1..])
  }

  /** The reader after chunks that arrive one after another. */
  function AfterChunks(s: Reader, chunks: seq<seq<Byte>>, stops: Consumer): Reader
    decreases |chunks|
  {
    if chunks == [] then s else AfterChunks(FedAll(s, chunks[0], stops), chunks[1..], stops)
  }

  lemma {:induction false} ChunksAreOneStream(s: Reader, chunks: seq<seq<Byte>>, stops: Consumer)
    ensures AfterChunks(s, chunks, stops) == FedAll(s, Whole(chunks), stops)
    decreases |chunks|
  {
    if chunks != [] {
      ChunksAreOneStream(FedAll(s, chunks[0], stops), chunks[1..], stops);
      FedConcat(s, chunks[0], Whole(chunks[1..]), stops);
    }
  }

  /** However the stream is cut, the same lines are handed on, the same bytes stay buffered and it ends the same way. */
  lemma CutsDoNotMatter(a: seq<seq<Byte>>, b: seq<seq<Byte>>, stops: Consumer)
    requires Whole(a) == Whole(b)
    ensures AfterChunks(Start, a, stops) == AfterChunks(Start, b, stops)
    ensures AfterChunks(Start, a, stops) == HandedOn([], RawLines(Whole(a)), Unfinished(Whole(a)), stops)
  {
    ChunksAreOneStream(Start, a, stops);
    ChunksAreOneStream(Start, b, stops);
    ReaderHandsOnLines([], Whole(a), stops);
  }

  ghost predicate IsLine(l: Line) { 0 < |l| <= MaxLineBytes && LF !in l }

  ghost predicate AreLines(lines: seq<Line>) { forall l :: l in lines ==> IsLine(l) }

  ghost predicate Bounded(s: Reader) { AreLines(s.lines) && |s.buffer| <= MaxLineBytes && LF !in s.buffer }

  lemma StaysBounded(s: Reader, b: Byte, stops: Consumer)
    requires Bounded(s)
    ensures Bounded(Fed(s, b, stops)) && s.lines <= Fed(s, b, stops).lines
  {
    var line := WithoutCR(s.buffer);
    assert line == s.buffer || line == s.buffer[..|s.buffer| - 1];
  }

  /** No line handed on is empty, holds a newline or exceeds the limit, nothing handed on is taken back, and the
      buffer never exceeds the limit. */
  lemma {:induction false} ReaderIsBounded(s: Reader, bytes: seq<Byte>, stops: Consumer)
    requires Bounded(s)
    ensures Bounded(FedAll(s, bytes, stops)) && s.lines <= FedAll(s, bytes, stops).lines
    decreases |bytes|
  {
    if bytes != [] {
      StaysBounded(s, bytes[0], stops);
      ReaderIsBounded(Fed(s, bytes[0], stops), bytes[1..], stops);
    }
  }
}

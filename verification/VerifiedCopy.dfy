/**
 The resumable staging of an owner's dataset (scripts/pair-notebook-agent.py, copy_verified_data): a partial file is
 continued where an earlier attempt stopped, and only a complete file with the declared digest is published.

 `quiet` is how often the copy may still ask whether it was cancelled before the answer is yes. What the owner's file
 says about its size and what reading it gives need not agree: it may change meanwhile. Links are not part of this
 model.
 */
module VerifiedCopy {
  import opened Bytes
  import opened Outcomes
  import opened ProjectPaths

  const BlockSize: nat := 64 * 1024

  datatype Item = Item(path: Path, size: nat, digest: Digest)

  datatype Origin = Missing | Present(size: nat, content: seq<Byte>)

  /** The published file and the partial one of an item. */
  datatype Slot = Slot(target: Option<seq<Byte>>, partial: Option<seq<Byte>>)

  datatype Ending = EndOfFile | TooLarge | Stopped

  datatype Verdict = Done | Failed | Cancelled

  predicate IsVerified(item: Item, bytes: seq<Byte>, hash: Hash) { |bytes| == item.size && hash(bytes) == item.digest }

  /** In how many blocks a file is read. */
  function Blocks(n: nat): nat { (n + BlockSize - 1) / BlockSize }

  function Min(a: nat, b: nat): nat { if a < b then a else b }

  /** What is read from `offset` on; past the end nothing. */
  function Rest(content: seq<Byte>, offset: nat): seq<Byte> { if offset <= |content| then content[offset..] else [] }

  /** The copying loop: how far the partial file gets, why the loop ends, and the questions left. */
  function Grown(partial: seq<Byte>, rest: seq<Byte>, size: nat, quiet: nat): (seq<Byte>, Ending, nat)
    decreases |rest|
  {
    if quiet == 0 then (partial, Stopped, 0)
    else if rest == [] then (partial, EndOfFile, quiet - 1)
    else
      var n := Min(BlockSize, |rest|);
      if |partial| + n > size then (partial + rest[..n], TooLarge, quiet - 1)
      else Grown(partial + rest[..n], rest[n..], size, quiet - 1)
  }

  function Retained(s: Slot): seq<Byte> {
    if s.target.Some? then s.target.value else if s.partial.Some? then s.partial.value else []
  }

  /** What is left of `quiet` after reading back what an earlier attempt left; nothing if the copy is stopped there. */
  function AfterReading(s: Slot, quiet: nat): Option<nat> {
    if quiet < 1 + Blocks(|Retained(s)|) then None else Some(quiet - 1 - Blocks(|Retained(s)|))
  }

  function Copied(s: Slot, item: Item, content: seq<Byte>, hash: Hash, quiet: nat): (Slot, Verdict, nat) {
    var grown := Grown(Retained(s), Rest(content, |Retained(s)|), item.size, quiet);
    match grown.1
    case Stopped => (s.(partial := Some(grown.0)), Cancelled, grown.2)
    case TooLarge => (s.(partial := Some(grown.0)), Failed, grown.2)
    case EndOfFile =>
      if IsVerified(item, grown.0, hash) then (Slot(Some(grown.0), None), Done, grown.2)
      else (s.(partial := Some(grown.0)), Failed, grown.2)
  }

  /** One attempt at one item. */
  function Attempted(s: Slot, item: Item, origin: Origin, hash: Hash, quiet: nat): (Slot, Verdict, nat) {
    if quiet == 0 then (s, Cancelled, 0)
    else if origin.Missing? || origin.size != item.size then (s, Failed, quiet - 1)
    else
      var left := AfterReading(s, quiet);
      if left.None? then (s, Cancelled, 0)
      else if s.target.Some? then (s, if IsVerified(item, s.target.value, hash) then Done else Failed, left.value)
      else if |Retained(s)| > item.size then (s, Failed, left.value)
      else Copied(s, item, origin.content, hash, left.value)
  }

  // ----- The staging directory -----

  class Staging {
    var targets: map<Path, seq<Byte>>
    var partials: map<Path, seq<Byte>>
    /** How many questions about cancellation are still answered with no. */
    var quiet: nat

    constructor (targets: map<Path, seq<Byte>>, partials: map<Path, seq<Byte>>, quiet: nat)
      ensures this.targets == targets && this.partials == partials && this.quiet == quiet
    {
      this.targets, this.partials, this.quiet := targets, partials, quiet;
    }

    ghost function At(p: Path): Slot
      reads this
    {
      Slot(if p in targets then Some(targets[p]) else None, if p in partials then Some(partials[p]) else None)
    }

    method IsCancelled() returns (yes: bool)
      modifies this`quiet
      ensures yes <==> old(quiet) == 0
      ensures quiet == if yes then 0 else old(quiet) - 1
    {
      yes := quiet == 0;
      if !yes {
        quiet := quiet - 1;
      }
    }

    /** Reads the retained bytes block by block. */
    method ReadBack(bytes: seq<Byte>) returns (cancelled: bool)
      modifies this`quiet
      ensures cancelled <==> old(quiet) < Blocks(|bytes|)
      ensures quiet == if cancelled then 0 else old(quiet) - Blocks(|bytes|)
    {
      var offset := 0;
      while offset < |bytes|
        invariant 0 <= offset <= |bytes|
        invariant quiet + Blocks(|bytes|) == old(quiet) + Blocks(|bytes| - offset)
      {
        var n := Min(BlockSize, |bytes| - offset);
        OneBlockLess(|bytes| - offset);
        cancelled := IsCancelled();
        if cancelled {
          return;
        }
        offset := offset + n;
      }
      cancelled := false;
    }

    /** The copying loop on the partial file. */
    method CopyRest(p: Path, rest: seq<Byte>, size: nat) returns (ending: Ending)
      requires p in partials
      modifies this`partials, this`quiet
      ensures p in partials
      ensures (partials[p], ending, quiet) == Grown(old(partials[p]), rest, size, old(quiet))
      ensures partials == old(partials)[p := partials[p]]
    {
      var left := rest;
      while true
        invariant p in partials && partials == old(partials)[p := partials[p]]
        invariant Grown(partials[p], left, size, quiet) == Grown(old(partials[p]), rest, size, old(quiet))
        decreases |left|
      {
        var cancelled := IsCancelled();
        if cancelled {
          return Stopped;
        }
        if left == [] {
          return EndOfFile;
        }
        var n := Min(BlockSize, |left|);
        partials := partials[p := partials[p] + left[..n]];
        left := left[n..];
        if |partials[p]| > size {
          return TooLarge;
        }
      }
    }

    method CopyItem(item: Item, origin: Origin, hash: Hash) returns (verdict: Verdict)
      modifies this
      ensures (At(item.path), verdict, quiet) == Attempted(old(At(item.path)), item, origin, hash, old(quiet))
      ensures forall p :: p != item.path ==> At(p) == old(At(p))
    {
      var p := item.path;
      ghost var s := At(p);
      var cancelled := IsCancelled();
      if cancelled {
        return Cancelled;
      }
      if origin.Missing? || origin.size != item.size {
        return Failed;
      }
      var retained := if p in targets then targets[p] else if p in partials then partials[p] else [];
      assert retained == Retained(s);
      cancelled := ReadBack(retained);
      if cancelled {
        return Cancelled;
      }
      assert AfterReading(s, old(quiet)) == Some(quiet) && s == At(p);
      if |retained| > item.size || (p in targets && !IsVerified(item, retained, hash)) {
        return Failed;
      }
      if p in targets {
        return Done;
      }
      partials := partials[p := retained];
      assert Attempted(s, item, origin, hash, old(quiet)) == Copied(s, item, origin.content, hash, quiet);
      verdict := Finish(item, Rest(origin.content, |retained|), hash);
    }

    method Finish(item: Item, rest: seq<Byte>, hash: Hash) returns (verdict: Verdict)
      requires item.path in partials && item.path !in targets
      modifies this
      ensures var grown := Grown(old(partials[item.path]), rest, item.size, old(quiet));
        && quiet == grown.2
        && verdict == (if grown.1.Stopped? then Cancelled
                       else if grown.1.EndOfFile? && IsVerified(item, grown.0, hash) then Done else Failed)
        && At(item.path) == if verdict.Done? then Slot(Some(grown.0), None) else Slot(None, Some(grown.0))
      ensures forall p :: p != item.path ==> At(p) == old(At(p))
    {
      var p := item.path;
      var ending := CopyRest(p, rest, item.size);
      if ending.Stopped? {
        return Cancelled;
      }
      if ending.TooLarge? || !IsVerified(item, partials[p], hash) {
        return Failed;
      }
      targets := targets[p := partials[p]];
      partials := partials - {p};
      return Done;
    }

    /** All files of the manifest in order, up to the first that fails. */
    method CopyVerifiedData(items: seq<Item>, origins: map<Path, Origin>, hash: Hash) returns (verdict: Verdict)
      modifies this
      ensures verdict.Done? ==> forall i :: 0 <= i < |items| ==> (
                items[i].path in targets && IsVerified(items[i], targets[items[i].path], hash))
      ensures forall p :: p in old(targets) ==> p in targets && targets[p] == old(targets)[p]
      ensures forall p :: p in targets && p !in old(targets) ==> exists i :: 0 <= i < |items| && items[i].path == p && (
                                                                            IsVerified(items[i], targets[p], hash))
    {
      for n := 0 to |items|
        invariant forall i :: 0 <= i < n ==> (
            items[i].path in targets && IsVerified(items[i], targets[items[i].path], hash))
        invariant forall p :: p in old(targets) ==> p in targets && targets[p] == old(targets)[p]
        invariant forall p :: p in targets && p !in old(targets) ==> (
            exists i :: 0 <= i < |items| && items[i].path == p && IsVerified(items[i], targets[p], hash))
      {
        label Before:
        var item := items[n];
        var origin := if item.path in origins then origins[item.path] else Missing;
        AttemptPublishesVerified(At(item.path), item, origin, hash, quiet);
        verdict := CopyItem(item, origin, hash);
        assert forall p :: At(p).target.Some? <==> p in targets;
        assert forall p :: old@Before(At(p)).target.Some? <==> p in old@Before(targets);
        if !verdict.Done? {
          return;
        }
      }
      verdict := Done;
    }
  }

  lemma OneBlockLess(n: nat)
    requires n > 0
    ensures Blocks(n) == 1 + Blocks(n - Min(BlockSize, n))
  {
  }

  // ----- One attempt -----

  /**
   The partial file only ever grows by what comes next in the owner's file; the end is reached when nothing stops it.
   */
  lemma {:induction false} GrownMeaning(partial: seq<Byte>, rest: seq<Byte>, size: nat, quiet: nat)
    requires |partial| <= size
    ensures var grown := Grown(partial, rest, size, quiet);
      && partial <= grown.0 <= partial + rest
      && (grown.1.EndOfFile? <==> quiet > Blocks(|rest|) && |partial| + |rest| <= size)
      && (grown.1.EndOfFile? ==> grown.0 == partial + rest)
      && (grown.1.TooLarge? <==> |grown.0| > size)
      && (grown.1.Stopped? ==> quiet <= Blocks(|rest|))
    decreases |rest|
  {
    if quiet > 0 && rest != [] {
      var n := Min(BlockSize, |rest|);
      OneBlockLess(|rest|);
      RestSplit(partial, rest, n);
      if |partial| + n <= size {
        GrownMeaning(partial + rest[..n], rest[n..], size, quiet - 1);
      }
    }
  }

  lemma RestSplit(partial: seq<Byte>, rest: seq<Byte>, n: nat)
    requires n <= |rest|
    ensures partial + rest[..n] + rest[n..] == partial + rest
    ensures partial <= partial + rest[..n] <= partial + rest
  {
    assert rest == rest[..n] + rest[n..];
  }

  /** What an attempt publishes has the declared size and digest, and what is published is never replaced. */
  lemma AttemptPublishesVerified(s: Slot, item: Item, origin: Origin, hash: Hash, quiet: nat)
    ensures var after := Attempted(s, item, origin, hash, quiet);
      && (s.target.Some? ==> after.0 == s)
      && (after.0.target.Some? && s.target.None? ==> after.1.Done? && IsVerified(item, after.0.target.value, hash))
      && (after.1.Done? ==> after.0.target.Some? && IsVerified(item, after.0.target.value, hash))
  {
  }

  /** An attempt is not cut short when it may ask often enough. */
  predicate IsPatient(s: Slot, origin: Origin, quiet: nat) {
    origin.Present? ==> quiet > 1 + Blocks(|Retained(s)|) + Blocks(|Rest(origin.content, |Retained(s)|)|)
  }

  /** The bytes an uninterrupted attempt ends with. */
  function Continued(s: Slot, origin: Origin): seq<Byte>
    requires origin.Present?
  {
    Retained(s) + Rest(origin.content, |Retained(s)|)
  }

  /**
   An uninterrupted attempt publishes exactly when the owner's file has the declared size and the bytes left by earlier
   attempts, continued from the owner's file, have the declared size and digest; these bytes are what it publishes.
   */
  lemma PublishesExactlyWhen(s: Slot, item: Item, origin: Origin, hash: Hash, quiet: nat)
    requires s.target.None? && quiet > 0 && IsPatient(s, origin, quiet)
    ensures var after := Attempted(s, item, origin, hash, quiet);
      && (after.1.Done? <==> origin.Present? && origin.size == item.size && IsVerified(item, Continued(s, origin),
                                                                                       hash))
      && (after.1.Done? ==> after.0 == Slot(Some(Continued(s, origin)), None))
  {
    if origin.Present? && origin.size == item.size && |Retained(s)| <= item.size {
      GrownMeaning(Retained(s), Rest(origin.content, |Retained(s)|), item.size, AfterReading(s, quiet).value);
    }
  }

  // ----- Many attempts -----

  /** An attempt runs to one of its ends, or the process dies when the partial file has grown to some length. */
  datatype Step = Try(origin: Origin, quiet: nat) | Crash(origin: Origin, cut: nat)

  predicate Enabled(s: Slot, item: Item, e: Step) {
    e.Crash? ==> s.target.None? && e.origin.Present? && e.origin.size == item.size && |Retained(s)| <= item.size
                 && e.cut <= |Rest(e.origin.content, |Retained(s)|)|
  }

  function Next(s: Slot, item: Item, hash: Hash, e: Step): Slot
    requires Enabled(s, item, e)
  {
    match e
    case Try(origin, quiet) => Attempted(s, item, origin, hash, quiet).0
    case Crash(origin, cut) => s.(partial := Some(Retained(s) + Rest(origin.content, |Retained(s)|)[..cut]))
  }

  predicate IsRun(s: Slot, item: Item, hash: Hash, steps: seq<Step>)
    decreases |steps|
  {
    steps == [] || (Enabled(s, item, steps[0]) && IsRun(Next(s, item, hash, steps[0]), item, hash, steps[1..]))
  }

  function Ran(s: Slot, item: Item, hash: Hash, steps: seq<Step>): Slot
    requires IsRun(s, item, hash, steps)
    decreases |steps|
  {
    if steps == [] then s else Ran(Next(s, item, hash, steps[0]), item, hash, steps[1..])
  }

  /** Whatever happens to the owner's file and to the process, only verified bytes are ever published, and they stay. */
  lemma {:induction false} PublishedIsVerified(s: Slot, item: Item, hash: Hash, steps: seq<Step>)
    requires IsRun(s, item, hash, steps) && (s.target.Some? ==> IsVerified(item, s.target.value, hash))
    ensures var after := Ran(s, item, hash, steps);
      && (after.target.Some? ==> IsVerified(item, after.target.value, hash))
      && (s.target.Some? ==> after == s)
    decreases |steps|
  {
    if steps != [] {
      if steps[0].Try? {
        AttemptPublishesVerified(s, item, steps[0].origin, hash, steps[0].quiet);
      }
      PublishedIsVerified(Next(s, item, hash, steps[0]), item, hash, steps[1..]);
    }
  }

  /** The bytes kept are a beginning of the wanted ones. */
  predicate IsOnTrack(s: Slot, wanted: seq<Byte>) { Retained(s) <= wanted }

  /** In every step the owner's file reads as `wanted`, where it can be read. */
  predicate StaysSame(steps: seq<Step>, wanted: seq<Byte>) {
    forall i :: 0 <= i < |steps| ==> steps[i].origin.Present? ==> steps[i].origin.content == wanted
  }

  lemma RestContinues(kept: seq<Byte>, wanted: seq<Byte>)
    requires kept <= wanted
    ensures kept + Rest(wanted, |kept|) == wanted
  {
  }

  lemma StepKeepsOnTrack(s: Slot, item: Item, hash: Hash, e: Step, wanted: seq<Byte>)
    requires Enabled(s, item, e) && IsOnTrack(s, wanted) && (e.origin.Present? ==> e.origin.content == wanted)
    ensures IsOnTrack(Next(s, item, hash, e), wanted) && Retained(s) <= Retained(Next(s, item, hash, e))
  {
    var kept := Retained(s);
    RestContinues(kept, wanted);
    match e
    case Crash(origin, cut) => RestSplit(kept, Rest(wanted, |kept|), cut);
    case Try(origin, quiet) =>
      if |kept| <= item.size && AfterReading(s, quiet).Some? {
        GrownMeaning(kept, Rest(wanted, |kept|), item.size, AfterReading(s, quiet).value);
      }
  }

  /**
   While the owner's file stays as declared, interrupted and crashed attempts lose nothing: what is kept only grows
   towards the wanted bytes, and the first attempt that is not interrupted publishes exactly these.
   */
  lemma {:induction false} AttemptsAddUp(s: Slot, item: Item, hash: Hash, steps: seq<Step>, wanted: seq<Byte>)
    requires IsRun(s, item, hash, steps) && IsOnTrack(s, wanted) && StaysSame(steps, wanted)
    ensures IsOnTrack(Ran(s, item, hash, steps), wanted) && Retained(s) <= Retained(Ran(s, item, hash, steps))
    decreases |steps|
  {
    if steps != [] {
      StepKeepsOnTrack(s, item, hash, steps[0], wanted);
      AttemptsAddUp(Next(s, item, hash, steps[0]), item, hash, steps[1..], wanted);
    }
  }

  lemma ResumedCopyCompletes(item: Item, hash: Hash, steps: seq<Step>, wanted: seq<Byte>, quiet: nat)
    requires IsVerified(item, wanted, hash)
    requires IsRun(Slot(None, None), item, hash, steps) && StaysSame(steps, wanted)
    requires var s := Ran(Slot(None, None), item, hash, steps);
      s.target.None? && IsPatient(s, Present(item.size, wanted), quiet)
    ensures var s := Ran(Slot(None, None), item, hash, steps);
      Attempted(s, item, Present(item.size, wanted), hash, quiet).0 == Slot(Some(wanted), None)
  {
    var s := Ran(Slot(None, None), item, hash, steps);
    AttemptsAddUp(Slot(None, None), item, hash, steps, wanted);
    RestContinues(Retained(s), wanted);
    PublishesExactlyWhen(s, item, Present(item.size, wanted), hash, quiet);
  }

  // ----- A partial file of something else -----

  /** Only the wanted bytes have the declared size and digest. */
  ghost predicate IsUnique(item: Item, hash: Hash, wanted: seq<Byte>) {
    forall bytes :: IsVerified(item, bytes, hash) ==> bytes == wanted
  }

  lemma StepKeepsStale(s: Slot, item: Item, hash: Hash, e: Step, wanted: seq<Byte>)
    requires Enabled(s, item, e) && IsUnique(item, hash, wanted) && s.target.None? && !IsOnTrack(s, wanted)
    ensures var next := Next(s, item, hash, e); next.target.None? && !IsOnTrack(next, wanted)
  {
    var next := Next(s, item, hash, e);
    match e
    case Crash(origin, cut) =>
    case Try(origin, quiet) =>
      AttemptPublishesVerified(s, item, origin, hash, quiet);
      if origin.Present? && |Retained(s)| <= item.size && AfterReading(s, quiet).Some? {
        GrownMeaning(Retained(s), Rest(origin.content, |Retained(s)|), item.size, AfterReading(s, quiet).value);
      }
      assert Retained(s) <= Retained(next);
  }

  /**
   A partial file that is not a beginning of the wanted bytes, left when the owner's file was different, is never
   thrown away: no number of attempts publishes the file, even when the owner's file is right again.
   */
  lemma {:induction false} StalePartialBlocks(s: Slot, item: Item, hash: Hash, steps: seq<Step>, wanted: seq<Byte>)
    requires IsRun(s, item, hash, steps) && IsUnique(item, hash, wanted) && s.target.None? && !IsOnTrack(s, wanted)
    ensures Ran(s, item, hash, steps).target.None? && !IsOnTrack(Ran(s, item, hash, steps), wanted)
    decreases |steps|
  {
    if steps != [] {
      StepKeepsStale(s, item, hash, steps[0], wanted);
      StalePartialBlocks(Next(s, item, hash, steps[0]), item, hash, steps[1..], wanted);
    }
  }

  /**
   Such a partial file arises from nothing: the owner's file has the declared size but other bytes, and the process
   dies where these no longer agree with the wanted ones. From then on nothing is ever published.
   */
  lemma ChangedFileLeavesStale(item: Item, hash: Hash, other: seq<Byte>, cut: nat, later: seq<Step>, wanted: seq<Byte>)
    requires IsUnique(item, hash, wanted) && cut <= |other| && !(other[..cut] <= wanted)
    requires IsRun(Slot(None, Some(other[..cut])), item, hash, later)
    ensures var steps := [Crash(Present(item.size, other), cut)] + later;
      IsRun(Slot(None, None), item, hash, steps) && Ran(Slot(None, None), item, hash, steps).target.None?
  {
    var s, died := Slot(None, None), Crash(Present(item.size, other), cut);
    assert Rest(other, 0) == other && [] + other[..cut] == other[..cut];
    assert Next(s, item, hash, died) == Slot(None, Some(other[..cut]));
    assert ([died] + later)[1..] == later;
    StalePartialBlocks(Slot(None, Some(other[..cut])), item, hash, later, wanted);
  }
}

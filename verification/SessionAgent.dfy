/**
 The interactive execution agent (scripts/pair-notebook-session-agent.py): durable receipts of accepted
 commands and the reports made from them.

 The kernel bridge, the workspace scan and the transport appear through what they hand back. A receipt file is
 replaced atomically. Error texts and artifact contents are names.
 */
module SessionAgent {
  import opened Outcomes

  const MAX_EVENT_BYTES := 4 * 1024 * 1024
  const MAX_JOURNAL_BYTES := 8 * 1024 * 1024 - 32 * 1024
  const MAX_REPLY_BYTES := 16 * 1024
  const MAX_REPORT_EVENTS := 512
  const MAX_DRAINED_EVENTS := 128

  type Id = nat

  datatype EventKind = Complete | CommandResult | CommandError | Fatal | BridgeExited | Other | OutputLimit

  /** `size` is the encoded size, `noticeSize` that of the notice which replaces an oversized event. */
  datatype Event = Event(kind: EventKind, requestId: Id, size: nat, noticeSize: nat, success: bool)

  datatype RunState = Running | Completed | Failed | Interrupted

  datatype Artifact = Artifact(path: Id, staged: bool)

  datatype Outcome = Outcome(error: string, files: seq<Artifact>, removed: seq<Id>)

  /** One report: a slice of the journal, and the result when it is the last one. */
  datatype Body = Body(offset: nat, events: seq<Event>, state: RunState, outcome: Option<Outcome>)

  datatype Receipt = Receipt(events: seq<Event>, offset: nat, state: RunState, journalBytes: nat, outputLimited: bool,
                             outcome: Outcome, pending: Option<Body>, authorityLost: bool)

  datatype CommandKind = Execute | Restart | Interrupt | Release | OtherCommand

  /** The accepted command in memory; `launching` until its code was written or preparation failed. */
  datatype Active = Active(command: Id, receipt: Receipt, bridge: bool, launching: bool, requestId: Id,
                           kind: CommandKind)

  /** `inputs` counts how often a command's code was written to a kernel. */
  datatype Agent = Agent(disk: map<Id, Receipt>, active: Option<Active>, inputs: map<Id, nat>)

  datatype Scan = Scan(files: seq<Artifact>, removed: seq<Id>, warnings: seq<Event>)

  function FreshReceipt(): Receipt {
    Receipt([], 0, Running, 0, false, Outcome("", [], []), None, false)
  }

  // ----- The journal -----

  /** Replies are always kept, at worst shortened; other output past the limit is replaced by one notice. */
  function Appended(r: Receipt, e: Event): Receipt {
    if e.kind == Complete then
      var kept := if e.size > MAX_REPLY_BYTES then Event(Complete, e.requestId, e.noticeSize, e.noticeSize, false)
        else e;
      r.(events := r.events + [kept], journalBytes := r.journalBytes + kept.size)
    else if e.size > MAX_EVENT_BYTES || r.journalBytes + e.size > MAX_JOURNAL_BYTES then
      if r.outputLimited then r else
        r.(events := r.events + [Event(OutputLimit, e.requestId, e.noticeSize, e.noticeSize, false)],
           journalBytes := r.journalBytes + e.noticeSize, outputLimited := true)
    else r.(events := r.events + [e], journalBytes := r.journalBytes + e.size)
  }

  function AppendedAll(r: Receipt, es: seq<Event>): Receipt {
    if es == [] then r else Appended(AppendedAll(r, es[..|es| - 1]), es[|es| - 1])
  }

  predicate Finishes(e: Event, requestId: Id, kind: CommandKind) {
    && (e.kind == Complete || (e.kind == CommandResult && (kind == Restart || kind == Interrupt)))
    && e.requestId == requestId
  }

  function Finished(r: Receipt, e: Event, scan: Scan): Receipt {
    var done := r.(state := if e.kind == Complete && !e.success then Failed else Completed,
                   outcome := Outcome(r.outcome.error, scan.files, scan.removed));
    var warned := AppendedAll(done, scan.warnings);
    if scan.warnings == [] then warned else
      warned.(state := Failed, outcome := Outcome("files could not be synchronized", scan.files, scan.removed))
  }

  /** Events `i..` of the queue, up to the per-call limit or the one that ends the command. */
  function DrainedFrom(r: Receipt, a: Active, queue: seq<Event>, i: nat, scan: Scan): Receipt
    decreases |queue| - i
  {
    if i >= |queue| || i >= MAX_DRAINED_EVENTS then r
    else if queue[i].kind == BridgeExited then
      r.(state := Interrupted, outcome := r.outcome.(error := "kernel exited"))
    else
      var failed := if queue[i].kind == Fatal then r.(state := Failed, outcome := r.outcome.(error := "kernel failed"))
        else r;
      var next := Appended(failed, queue[i]);
      if Finishes(queue[i], a.requestId, a.kind) then Finished(next, queue[i], scan)
      else if queue[i].kind == CommandError && queue[i].requestId == a.requestId then
        next.(state := Failed, outcome := next.outcome.(error := "command rejected"))
      else DrainedFrom(next, a, queue, i + 1, scan)
  }

  // ----- What the journal keeps of what the kernel said -----

  function SizeOf(es: seq<Event>): nat { if es == [] then 0 else SizeOf(es[..|es| - 1]) + es[|es| - 1].size }

  function Flat(entries: seq<seq<Event>>): seq<Event> {
    if entries == [] then [] else Flat(entries[..|entries| - 1]) + entries[|entries| - 1]
  }

  /** An event other than a reply that finds room when `bytes` are in the journal. */
  predicate Fits(bytes: nat, e: Event) { e.size <= MAX_EVENT_BYTES && bytes + e.size <= MAX_JOURNAL_BYTES }

  /** A reply as it goes into the journal: itself, or shortened to a failure. */
  predicate IsReply(e: Event, kept: Event) {
    if e.size <= MAX_REPLY_BYTES then kept == e
    else kept == Event(Complete, e.requestId, e.noticeSize, e.noticeSize, false)
  }

  /** What one event leaves in the journal: a reply or what fits itself, and for the first that does not a notice. */
  predicate IsEntry(bytes: nat, limited: bool, e: Event, entry: seq<Event>) {
    if e.kind == Complete then |entry| == 1 && IsReply(e, entry[0])
    else if Fits(bytes, e) then entry == [e]
    else if limited then entry == []
    else entry == [Event(OutputLimit, e.requestId, e.noticeSize, e.noticeSize, false)]
  }

  /** The bytes in the journal before event `i` is added. */
  function BytesBefore(r: Receipt, entries: seq<seq<Event>>, i: nat): nat
    requires i <= |entries|
  {
    r.journalBytes + SizeOf(Flat(entries[..i]))
  }

  /** One of the first `n` events found no room, now or earlier. */
  predicate IsLimited(r: Receipt, es: seq<Event>, entries: seq<seq<Event>>, n: nat)
    requires n <= |es| == |entries|
  {
    r.outputLimited || exists i :: 0 <= i < n && es[i].kind != Complete && !Fits(BytesBefore(r, entries, i), es[i])
  }

  predicate EntryAt(r: Receipt, es: seq<Event>, entries: seq<seq<Event>>, i: nat)
    requires i < |es| == |entries|
  {
    IsEntry(BytesBefore(r, entries, i), IsLimited(r, es, entries, i), es[i], entries[i])
  }

  /** The journal of `v` is that of `r` with `es` added in order, each leaving its entry. */
  ghost predicate IsJournal(r: Receipt, es: seq<Event>, v: Receipt, entries: seq<seq<Event>>) {
    && |entries| == |es| && HasContents(r, v, entries) && (v.outputLimited <==> IsLimited(r, es, entries, |es|))
    && AllEntries(r, es, entries)
  }

  predicate HasContents(r: Receipt, v: Receipt, entries: seq<seq<Event>>) {
    v.events == r.events + Flat(entries) && v.journalBytes == r.journalBytes + SizeOf(Flat(entries))
  }

  ghost predicate AllEntries(r: Receipt, es: seq<Event>, entries: seq<seq<Event>>)
    requires |es| == |entries|
  {
    forall i :: 0 <= i < |es| ==> EntryAt(r, es, entries, i)
  }

  lemma {:induction false} SizeOfConcat(a: seq<Event>, b: seq<Event>)
    ensures SizeOf(a + b) == SizeOf(a) + SizeOf(b)
  {
    if b == [] {
      assert a + b == a;
    } else {
      assert (a + b)[..|a + b| - 1] == a + b[..|b| - 1];
      SizeOfConcat(a, b[..|b| - 1]);
    }
  }

  lemma FlatMore(entries: seq<seq<Event>>, entry: seq<Event>)
    ensures Flat(entries + [entry]) == Flat(entries) + entry
    ensures SizeOf(Flat(entries + [entry])) == SizeOf(Flat(entries)) + SizeOf(entry)
  {
    assert (entries + [entry])[..|entries|] == entries;
    SizeOfConcat(Flat(entries), entry);
  }

  lemma BytesSame(r: Receipt, entries: seq<seq<Event>>, entry: seq<Event>, i: nat)
    requires i <= |entries|
    ensures BytesBefore(r, entries + [entry], i) == BytesBefore(r, entries, i)
  {
    assert (entries + [entry])[..i] == entries[..i];
  }

  lemma LimitedSame(r: Receipt, es: seq<Event>, entries: seq<seq<Event>>, e: Event, entry: seq<Event>, n: nat)
    requires n <= |es| == |entries|
    ensures IsLimited(r, es + [e], entries + [entry], n) == IsLimited(r, es, entries, n)
  {
    forall i | 0 <= i < n ensures BytesBefore(r, entries + [entry], i) == BytesBefore(r, entries, i) {
      BytesSame(r, entries, entry, i);
    }
    assert forall i :: 0 <= i < n ==> (es + [e])[i] == es[i];
  }

  lemma LimitedMore(r: Receipt, es: seq<Event>, entries: seq<seq<Event>>, n: nat)
    requires n < |es| == |entries|
    ensures IsLimited(r, es, entries, n + 1)
         == (IsLimited(r, es, entries, n) || (es[n].kind != Complete && !Fits(BytesBefore(r, entries, n), es[n])))
  {
  }

  lemma EntrySame(r: Receipt, es: seq<Event>, entries: seq<seq<Event>>, e: Event, entry: seq<Event>, i: nat)
    requires i < |es| == |entries| && EntryAt(r, es, entries, i)
    ensures EntryAt(r, es + [e], entries + [entry], i)
  {
    BytesSame(r, entries, entry, i);
    LimitedSame(r, es, entries, e, entry, i);
  }

  lemma EntryLast(r: Receipt, es: seq<Event>, entries: seq<seq<Event>>, e: Event, entry: seq<Event>)
    requires |entries| == |es|
    requires IsEntry(r.journalBytes + SizeOf(Flat(entries)), IsLimited(r, es, entries, |es|), e, entry)
    ensures EntryAt(r, es + [e], entries + [entry], |es|)
  {
    BytesSame(r, entries, entry, |es|);
    LimitedSame(r, es, entries, e, entry, |es|);
    assert entries[..|es|] == entries;
  }

  /** One more event and its entry. */
  lemma JournalGoesOn(r: Receipt, es: seq<Event>, u: Receipt, entries: seq<seq<Event>>, e: Event, entry: seq<Event>,
                      v: Receipt)
    requires IsJournal(r, es, u, entries) && v.events == u.events + entry
    requires IsEntry(u.journalBytes, u.outputLimited, e, entry) && v.journalBytes == u.journalBytes + SizeOf(entry)
    requires v.outputLimited == (u.outputLimited || (e.kind != Complete && !Fits(u.journalBytes, e)))
    ensures IsJournal(r, es + [e], v, entries + [entry])
  {
    ContentsGoOn(r, u, entries, entry, v);
    LimitGoesOn(r, es, entries, e, entry);
    EntryLast(r, es, entries, e, entry);
    EntriesGoOn(r, es, entries, e, entry);
  }

  lemma ContentsGoOn(r: Receipt, u: Receipt, entries: seq<seq<Event>>, entry: seq<Event>, v: Receipt)
    requires HasContents(r, u, entries) && v.events == u.events + entry
    requires v.journalBytes == u.journalBytes + SizeOf(entry)
    ensures HasContents(r, v, entries + [entry])
  {
    FlatMore(entries, entry);
    assert r.events + (Flat(entries) + entry) == r.events + Flat(entries) + entry;
  }

  lemma LimitGoesOn(r: Receipt, es: seq<Event>, entries: seq<seq<Event>>, e: Event, entry: seq<Event>)
    requires |entries| == |es|
    ensures IsLimited(r, es + [e], entries + [entry], |es| + 1)
        <==> IsLimited(r, es, entries, |es|) || (e.kind != Complete && !Fits(BytesBefore(r, entries, |es|), e))
    ensures BytesBefore(r, entries, |es|) == r.journalBytes + SizeOf(Flat(entries))
  {
    LimitedSame(r, es, entries, e, entry, |es|);
    LimitedMore(r, es + [e], entries + [entry], |es|);
    BytesSame(r, entries, entry, |es|);
    assert entries[..|es|] == entries;
  }

  lemma EntriesGoOn(r: Receipt, es: seq<Event>, entries: seq<seq<Event>>, e: Event, entry: seq<Event>)
    requires |entries| == |es| && EntryAt(r, es + [e], entries + [entry], |es|) && AllEntries(r, es, entries)
    ensures AllEntries(r, es + [e], entries + [entry])
  {
    forall i | 0 <= i < |es + [e]| ensures EntryAt(r, es + [e], entries + [entry], i) {
      if i < |es| {
        assert EntryAt(r, es, entries, i);
        EntrySame(r, es, entries, e, entry, i);
      }
    }
  }

  lemma EmptyJournal(r: Receipt)
    ensures IsJournal(r, [], r, [])
  {
    assert r.events + [] == r.events;
  }

  /** One event leaves its entry, and nothing else of the receipt changes. */
  lemma AppendedIsEntry(r: Receipt, e: Event) returns (entry: seq<Event>)
    ensures var v := Appended(r, e);
      && v == r.(events := r.events + entry, journalBytes := r.journalBytes + SizeOf(entry),
                 outputLimited := v.outputLimited)
      && IsEntry(r.journalBytes, r.outputLimited, e, entry)
      && v.outputLimited == (r.outputLimited || (e.kind != Complete && !Fits(r.journalBytes, e)))
  {
    var v := Appended(r, e);
    if v == r {
      entry := [];
      assert r.events + [] == r.events;
    } else {
      entry := [v.events[|r.events|]];
      assert entry[..0] == [] && SizeOf(entry) == entry[0].size;
    }
  }

  lemma {:induction false} AppendedAllIsJournal(r: Receipt, es: seq<Event>) returns (entries: seq<seq<Event>>)
    ensures IsJournal(r, es, AppendedAll(r, es), entries)
    ensures var v := AppendedAll(r, es);
      v == r.(events := v.events, journalBytes := v.journalBytes, outputLimited := v.outputLimited)
  {
    if es == [] {
      EmptyJournal(r);
      entries := [];
    } else {
      var before := es[..|es| - 1];
      var e := es[|es| - 1];
      entries := AppendedAllIsJournal(r, before);
      var entry := AppendedIsEntry(AppendedAll(r, before), e);
      JournalGoesOn(r, before, AppendedAll(r, before), entries, e, entry, AppendedAll(r, es));
      assert before + [e] == es;
      entries := entries + [entry];
    }
  }

  // ----- What a drain keeps and how it ends -----

  /** The event after which nothing more is taken from the queue. */
  predicate Ends(e: Event, a: Active) {
    || e.kind == BridgeExited || Finishes(e, a.requestId, a.kind)
    || (e.kind == CommandError && e.requestId == a.requestId)
  }

  /** `n` events are taken: up to the first that ends the command, the end of the queue, or the limit of one call. */
  predicate IsTaken(a: Active, queue: seq<Event>, n: nat) {
    && n <= |queue| && n <= MAX_DRAINED_EVENTS
    && (forall i :: 0 <= i < n - 1 ==> !Ends(queue[i], a))
    && (n == |queue| || n == MAX_DRAINED_EVENTS || (n > 0 && Ends(queue[n - 1], a)))
  }

  /** What goes into the journal of the first `n` events: all but the bridge's exit, and the warnings at the end. */
  function Heard(a: Active, queue: seq<Event>, n: nat, scan: Scan): seq<Event>
    requires n <= |queue|
  {
    if n > 0 && queue[n - 1].kind == BridgeExited then queue[..n - 1]
    else if n > 0 && Finishes(queue[n - 1], a.requestId, a.kind) then queue[..n] + scan.warnings
    else queue[..n]
  }

  predicate FinishesWell(a: Active, e: Event, scan: Scan) {
    Finishes(e, a.requestId, a.kind) && scan.warnings == [] && (e.kind == Complete ==> e.success)
  }

  /** The state of a running command after `n` events, read off the last of them, the warnings and fatal events. */
  predicate IsStateAfter(a: Active, queue: seq<Event>, n: nat, scan: Scan, state: RunState)
    requires n <= |queue|
  {
    var ended := n > 0 && Ends(queue[n - 1], a);
    && (state == Completed <==> ended && FinishesWell(a, queue[n - 1], scan))
    && (state == Interrupted <==> ended && queue[n - 1].kind == BridgeExited)
    && (state == Running <==> !ended && forall i :: 0 <= i < n ==> queue[i].kind != Fatal)
  }

  /** The files of the workspace are reported exactly when the command finished. */
  predicate HasFiles(a: Active, queue: seq<Event>, n: nat, scan: Scan, r: Receipt, v: Receipt)
    requires n <= |queue|
  {
    if n > 0 && Finishes(queue[n - 1], a.requestId, a.kind) then
      v.outcome.files == scan.files && v.outcome.removed == scan.removed
    else v.outcome.files == r.outcome.files && v.outcome.removed == r.outcome.removed
  }

  ghost predicate DrainedBy(r: Receipt, a: Active, queue: seq<Event>, scan: Scan, v: Receipt, n: nat,
                            entries: seq<seq<Event>>)
  {
    && IsTaken(a, queue, n) && IsJournal(r, Heard(a, queue, n, scan), v, entries)
    && IsStateAfter(a, queue, n, scan, v.state) && HasFiles(a, queue, n, scan, r, v)
    && v == r.(events := v.events, journalBytes := v.journalBytes, outputLimited := v.outputLimited, state := v.state,
               outcome := v.outcome)
  }

  /** A drain of a running command takes events in order, keeps what fits of them, and ends as they say. */
  ghost predicate IsDrained(r: Receipt, a: Active, queue: seq<Event>, scan: Scan, v: Receipt) {
    exists n, entries :: DrainedBy(r, a, queue, scan, v, n, entries)
  }

  /** Where a drain that has come to event `i` stops. */
  function StopsAt(a: Active, queue: seq<Event>, i: nat): (n: nat)
    requires i <= |queue|
    ensures i <= n <= |queue|
    decreases |queue| - i
  {
    if i >= |queue| || i >= MAX_DRAINED_EVENTS then i
    else if Ends(queue[i], a) then i + 1
    else StopsAt(a, queue, i + 1)
  }

  lemma {:induction false} StopsWhereTaken(a: Active, queue: seq<Event>, i: nat)
    requires i <= |queue| && i <= MAX_DRAINED_EVENTS && forall k :: 0 <= k < i ==> !Ends(queue[k], a)
    ensures IsTaken(a, queue, StopsAt(a, queue, i))
    decreases |queue| - i
  {
    if i < |queue| && i < MAX_DRAINED_EVENTS && !Ends(queue[i], a) {
      StopsWhereTaken(a, queue, i + 1);
    }
  }

  /** State and outcome do not matter for the journal. */
  lemma AppendedApart(r: Receipt, e: Event, state: RunState, outcome: Outcome)
    ensures Appended(r.(state := state, outcome := outcome), e) == Appended(r, e).(state := state, outcome := outcome)
  {
  }

  lemma {:induction false} AppendedAllApart(r: Receipt, es: seq<Event>, state: RunState, outcome: Outcome)
    ensures AppendedAll(r.(state := state, outcome := outcome), es)
         == AppendedAll(r, es).(state := state, outcome := outcome)
  {
    if es != [] {
      AppendedAllApart(r, es[..|es| - 1], state, outcome);
      AppendedApart(AppendedAll(r, es[..|es| - 1]), es[|es| - 1], state, outcome);
    }
  }

  lemma {:induction false} AppendedFirst(r: Receipt, e: Event, es: seq<Event>)
    ensures AppendedAll(r, [e] + es) == AppendedAll(Appended(r, e), es)
  {
    if es == [] {
      assert [e] + es == [e] && [e][..0] == [];
    } else {
      assert ([e] + es)[..|es|] == [e] + es[..|es| - 1];
      AppendedFirst(r, e, es[..|es| - 1]);
    }
  }

  /** What is heard from event `i` on. */
  function HeardFrom(a: Active, queue: seq<Event>, i: nat, scan: Scan): seq<Event>
    requires i <= |queue|
  {
    var n := StopsAt(a, queue, i);
    if n > i && queue[n - 1].kind == BridgeExited then queue[i..n - 1]
    else if n > i && Finishes(queue[n - 1], a.requestId, a.kind) then queue[i..n] + scan.warnings
    else queue[i..n]
  }

  lemma SliceFirst(queue: seq<Event>, i: nat, n: nat)
    requires i < n <= |queue|
    ensures queue[i..n] == [queue[i]] + queue[i + 1..n]
  {
  }

  lemma HeardOneMore(a: Active, queue: seq<Event>, i: nat, scan: Scan)
    requires i < |queue| && i < MAX_DRAINED_EVENTS && !Ends(queue[i], a)
    ensures HeardFrom(a, queue, i, scan) == [queue[i]] + HeardFrom(a, queue, i + 1, scan)
  {
    var n := StopsAt(a, queue, i + 1);
    SliceFirst(queue, i, n);
    if n > i + 1 {
      SliceFirst(queue, i, n - 1);
    }
    assert [queue[i]] + (queue[i + 1..n] + scan.warnings) == [queue[i]] + queue[i + 1..n] + scan.warnings;
  }

  /** How the rest of a drain ends, from the state it is in. */
  predicate EndsAs(a: Active, queue: seq<Event>, i: nat, scan: Scan, r: Receipt, v: Receipt)
    requires i <= |queue|
  {
    var n := StopsAt(a, queue, i);
    var ended := n > i && Ends(queue[n - 1], a);
    && (if ended then
          v.state == (if queue[n - 1].kind == BridgeExited then Interrupted
                      else if FinishesWell(a, queue[n - 1], scan) then Completed else Failed)
        else v.state == if exists k :: i <= k < n && queue[k].kind == Fatal then Failed else r.state)
    && (if ended && Finishes(queue[n - 1], a.requestId, a.kind) then
          v.outcome.files == scan.files && v.outcome.removed == scan.removed
        else v.outcome.files == r.outcome.files && v.outcome.removed == r.outcome.removed)
  }

  /** An event that does not end the drain only counts when it is fatal. */
  lemma EndsLater(r: Receipt, next: Receipt, a: Active, queue: seq<Event>, i: nat, scan: Scan, v: Receipt)
    requires i < |queue| && i < MAX_DRAINED_EVENTS && !Ends(queue[i], a) && EndsAs(a, queue, i + 1, scan, next, v)
    requires next.state == if queue[i].kind == Fatal then Failed else r.state
    requires next.outcome.files == r.outcome.files && next.outcome.removed == r.outcome.removed
    ensures EndsAs(a, queue, i, scan, r, v)
  {
    var n := StopsAt(a, queue, i + 1);
    assert (exists k :: i <= k < n && queue[k].kind == Fatal)
      <==> queue[i].kind == Fatal || exists k :: i + 1 <= k < n && queue[k].kind == Fatal;
  }

  lemma FinishedJournal(r: Receipt, a: Active, queue: seq<Event>, i: nat, scan: Scan)
    requires i < |queue| && i < MAX_DRAINED_EVENTS && Finishes(queue[i], a.requestId, a.kind)
    ensures var v := Finished(Appended(r, queue[i]), queue[i], scan);
      v == AppendedAll(r, HeardFrom(a, queue, i, scan)).(state := v.state, outcome := v.outcome)
      && EndsAs(a, queue, i, scan, r, v)
  {
    assert queue[i..i + 1] == [queue[i]];
    FinishedAdds(r, queue[i], scan);
    assert HeardFrom(a, queue, i, scan) == [queue[i]] + scan.warnings;
  }

  lemma FinishedAdds(r: Receipt, e: Event, scan: Scan)
    ensures var v := Finished(Appended(r, e), e, scan);
      && v == AppendedAll(r, [e] + scan.warnings).(state := v.state, outcome := v.outcome)
      && v.outcome.files == scan.files && v.outcome.removed == scan.removed
      && v.state == if scan.warnings == [] && (e.kind == Complete ==> e.success) then Completed else Failed
  {
    var next := Appended(r, e);
    var done := next.(state := if e.kind == Complete && !e.success then Failed else Completed,
                      outcome := Outcome(next.outcome.error, scan.files, scan.removed));
    AppendedAllApart(next, scan.warnings, done.state, done.outcome);
    AppendedFirst(r, e, scan.warnings);
  }

  lemma OneHeard(r: Receipt, queue: seq<Event>, i: nat)
    requires i < |queue|
    ensures queue[i..i] == [] && queue[i..i + 1] == [queue[i]] && AppendedAll(r, [queue[i]]) == Appended(r, queue[i])
  {
    assert [queue[i]][..0] == [];
  }

  /** A drain adds what it hears, and ends as its last event says. */
  lemma {:induction false} DrainedFromMeans(r: Receipt, a: Active, queue: seq<Event>, i: nat, scan: Scan)
    requires i <= |queue|
    ensures var v := DrainedFrom(r, a, queue, i, scan);
      v == AppendedAll(r, HeardFrom(a, queue, i, scan)).(state := v.state, outcome := v.outcome)
      && EndsAs(a, queue, i, scan, r, v)
    decreases |queue| - i
  {
    if i < |queue| && i < MAX_DRAINED_EVENTS {
      OneHeard(r, queue, i);
      var failed := if queue[i].kind == Fatal then r.(state := Failed, outcome := r.outcome.(error := "kernel failed"))
        else r;
      AppendedApart(r, queue[i], failed.state, failed.outcome);
      if !Ends(queue[i], a) {
        DrainGoesOn(r, failed, a, queue, i, scan);
      } else if Finishes(queue[i], a.requestId, a.kind) {
        FinishedJournal(r, a, queue, i, scan);
      }
    } else {
      assert queue[i..i] == [];
    }
  }

  lemma DrainGoesOn(r: Receipt, failed: Receipt, a: Active, queue: seq<Event>, i: nat, scan: Scan)
    requires i < |queue| && i < MAX_DRAINED_EVENTS && !Ends(queue[i], a)
    requires failed
          == if queue[i].kind == Fatal then r.(state := Failed, outcome := r.outcome.(error := "kernel failed")) else r
    ensures var v := DrainedFrom(Appended(failed, queue[i]), a, queue, i + 1, scan);
      v == AppendedAll(r, HeardFrom(a, queue, i, scan)).(state := v.state, outcome := v.outcome)
      && EndsAs(a, queue, i, scan, r, v)
    decreases |queue| - i, 0
  {
    var next := Appended(failed, queue[i]);
    DrainedFromMeans(next, a, queue, i + 1, scan);
    AppendedApart(r, queue[i], failed.state, failed.outcome);
    EndsLater(r, next, a, queue, i, scan, DrainedFrom(next, a, queue, i + 1, scan));
    HeardOneMore(a, queue, i, scan);
    HeardFirst(r, queue[i], HeardFrom(a, queue, i + 1, scan), failed.state, failed.outcome);
  }

  lemma HeardFirst(r: Receipt, e: Event, rest: seq<Event>, state: RunState, outcome: Outcome)
    ensures AppendedAll(Appended(r, e).(state := state, outcome := outcome), rest)
         == AppendedAll(r, [e] + rest).(state := state, outcome := outcome)
  {
    AppendedAllApart(Appended(r, e), rest, state, outcome);
    AppendedFirst(r, e, rest);
  }

  lemma HeardFromStart(a: Active, queue: seq<Event>, scan: Scan)
    ensures HeardFrom(a, queue, 0, scan) == Heard(a, queue, StopsAt(a, queue, 0), scan)
  {
    var n := StopsAt(a, queue, 0);
    assert queue[0..n] == queue[..n] && (n > 0 ==> queue[0..n - 1] == queue[..n - 1]);
  }

  lemma EndsFromStart(a: Active, queue: seq<Event>, scan: Scan, r: Receipt, v: Receipt)
    requires EndsAs(a, queue, 0, scan, r, v) && r.state == Running
    ensures var n := StopsAt(a, queue, 0); IsStateAfter(a, queue, n, scan, v.state) && HasFiles(a, queue, n, scan, r, v)
  {
  }

  /** The drain of a running command. */
  lemma DrainMeaning(r: Receipt, a: Active, queue: seq<Event>, scan: Scan)
    requires r.state == Running
    ensures IsDrained(r, a, queue, scan, DrainedFrom(r, a, queue, 0, scan))
  {
    var n, v := StopsAt(a, queue, 0), DrainedFrom(r, a, queue, 0, scan);
    StopsWhereTaken(a, queue, 0);
    DrainedFromMeans(r, a, queue, 0, scan);
    var heard := Heard(a, queue, n, scan);
    HeardFromStart(a, queue, scan);
    EndsFromStart(a, queue, scan, r, v);
    var entries := AppendedAllIsJournal(r, heard);
    SameJournal(r, heard, AppendedAll(r, heard), v, entries);
    assert DrainedBy(r, a, queue, scan, v, n, entries);
  }

  lemma SameJournal(r: Receipt, es: seq<Event>, u: Receipt, v: Receipt, entries: seq<seq<Event>>)
    requires IsJournal(r, es, u, entries) && v == u.(state := v.state, outcome := v.outcome)
    ensures IsJournal(r, es, v, entries)
  {
  }

  /** When everything heard fits, nothing is omitted or changed. */
  lemma {:induction false} NothingIsOmitted(r: Receipt, es: seq<Event>)
    requires r.journalBytes + SizeOf(es) <= MAX_JOURNAL_BYTES
    requires forall i :: 0 <= i < |es| ==>
               es[i].size <= if es[i].kind == Complete then MAX_REPLY_BYTES else MAX_EVENT_BYTES
    ensures AppendedAll(r, es) == r.(events := r.events + es, journalBytes := r.journalBytes + SizeOf(es))
  {
    if es == [] {
      assert r.events + [] == r.events;
    } else {
      NothingIsOmitted(r, es[..|es| - 1]);
      assert r.events + es[..|es| - 1] + [es[|es| - 1]] == r.events + es;
    }
  }

  // ----- Reports -----

  /** End of the batch that starts at `from` and already holds `from..i`. */
  function BatchEnd(events: seq<Event>, from: nat, i: nat, size: nat): (end: nat)
    requires from <= i <= |events|
    ensures i <= end <= |events| && (i < |events| && i == from ==> i < end)
    decreases |events| - i
  {
    if i == |events| || i - from >= MAX_REPORT_EVENTS || (i > from && size + events[i].size > MAX_EVENT_BYTES) then i
    else BatchEnd(events, from, i + 1, size + events[i].size)
  }

  /** The next report, if there is anything to say. */
  function NextBody(r: Receipt): Option<Body>
    requires r.offset <= |r.events|
  {
    var end := BatchEnd(r.events, r.offset, r.offset, 0);
    var final := end == |r.events| && r.state != Running;
    if end == r.offset && !final then None
    else Some(Body(r.offset, r.events[r.offset..end], if final then r.state else Running,
                   if final then Some(r.outcome) else None))
  }

  lemma {:induction false} BatchEndFits(events: seq<Event>, from: nat, i: nat, size: nat)
    requires from <= i <= |events| && size == SizeOf(events[from..i]) && i - from <= MAX_REPORT_EVENTS
    requires i - from <= 1 || size <= MAX_EVENT_BYTES
    ensures var end := BatchEnd(events, from, i, size);
      && end - from <= MAX_REPORT_EVENTS && (end - from <= 1 || SizeOf(events[from..end]) <= MAX_EVENT_BYTES)
      && (end < |events| && end - from < MAX_REPORT_EVENTS ==>
            SizeOf(events[from..end]) + events[end].size > MAX_EVENT_BYTES)
    decreases |events| - i
  {
    if i < |events| && i - from < MAX_REPORT_EVENTS && (i == from || size + events[i].size <= MAX_EVENT_BYTES) {
      assert events[from..i + 1][..i - from] == events[from..i];
      BatchEndFits(events, from, i + 1, size + events[i].size);
    }
  }

  /**
   The next report: there is none exactly while a running command has nothing new. It continues at the offset, is as
   long as the limits on number and bytes allow, and carries state and result exactly if it reaches the journal's end.
   */
  lemma NextBodyMeaning(r: Receipt)
    requires r.offset <= |r.events|
    ensures NextBody(r).None? <==> r.offset == |r.events| && r.state == Running
    ensures NextBody(r).Some? ==> (
      var b := NextBody(r).value; var end := r.offset + |b.events|;
      && b.offset == r.offset && end <= |r.events| && b.events == r.events[r.offset..end]
      && (b.events == [] ==> r.offset == |r.events|)
      && |b.events| <= MAX_REPORT_EVENTS && (|b.events| <= 1 || SizeOf(b.events) <= MAX_EVENT_BYTES)
      && (end < |r.events| && |b.events| < MAX_REPORT_EVENTS ==>
            SizeOf(b.events) + r.events[end].size > MAX_EVENT_BYTES)
      && b.state == (if end == |r.events| then r.state else Running)
      && b.outcome == (if end == |r.events| && r.state != Running then Some(r.outcome) else None))
  {
    assert r.events[r.offset..r.offset] == [];
    BatchEndFits(r.events, r.offset, r.offset, 0);
  }

  /** Staged artifacts go out before any further report. */
  predicate AllUploaded(r: Receipt) {
    forall k :: 0 <= k < |r.outcome.files| ==> !r.outcome.files[k].staged
  }

  function Uploaded(r: Receipt, k: nat): Receipt
    requires k < |r.outcome.files|
  {
    r.(outcome := r.outcome.(files := r.outcome.files[k := r.outcome.files[k].(staged := false)]))
  }

  function KeepUploaded(files: seq<Artifact>): (kept: seq<Artifact>)
    ensures forall k :: 0 <= k < |kept| ==> !kept[k].staged
  {
    if files == [] then [] else (if files[0].staged then [] else [files[0]]) + KeepUploaded(files[1..])
  }

  lemma {:induction false} KeepUploadedConcat(files: seq<Artifact>, more: seq<Artifact>)
    ensures KeepUploaded(files + more) == KeepUploaded(files) + KeepUploaded(more)
  {
    if files == [] {
      assert files + more == more;
    } else {
      assert (files + more)[1..] == files[1..] + more;
      KeepUploadedConcat(files[1..], more);
    }
  }

  lemma {:induction false} KeepUploadedCounts(files: seq<Artifact>, f: Artifact)
    ensures multiset(KeepUploaded(files))[f] == if f.staged then 0 else multiset(files)[f]
  {
    if files != [] {
      assert files == [files[0]] + files[1..];
      KeepUploadedCounts(files[1..], f);
    }
  }

  /** What is kept are exactly the artifacts not waiting to be uploaded, in their order. */
  lemma KeepUploadedMeaning(files: seq<Artifact>, more: seq<Artifact>, f: Artifact)
    ensures multiset(KeepUploaded(files))[f] == if f.staged then 0 else multiset(files)[f]
    ensures KeepUploaded(files + more) == KeepUploaded(files) + KeepUploaded(more)
  {
    KeepUploadedCounts(files, f);
    KeepUploadedConcat(files, more);
  }

  function Rejected(r: Receipt): Receipt {
    r.(state := Failed, outcome := r.outcome.(error := "artifact rejected", files := KeepUploaded(r.outcome.files)))
  }

  // ----- Steps of the agent; each makes at most one durable write -----

  function Persisted(g: Agent): Agent
    requires g.active.Some?
  {
    g.(disk := g.disk[g.active.value.command := g.active.value.receipt])
  }

  function WithReceipt(g: Agent, r: Receipt): Agent
    requires g.active.Some?
  {
    g.(active := Some(g.active.value.(receipt := r)))
  }

  /** The active command's receipt becomes `r` in memory and on disk. */
  function Saved(g: Agent, r: Receipt): Agent
    requires g.active.Some?
  {
    Persisted(WithReceipt(g, r))
  }

  /** The receipt of a new command is on disk before anything else happens. */
  function Created(g: Agent, command: Id, requestId: Id, kind: CommandKind): Agent {
    Persisted(g.(active := Some(Active(command, FreshReceipt(), false, true, requestId, kind))))
  }

  /** A command known from an earlier process is never rerun. */
  function Resumed(g: Agent, command: Id): Agent
    requires command in g.disk
  {
    var r := g.disk[command];
    var resumed :=
      if r.state == Running then r.(state := Interrupted, outcome := r.outcome.(error := "executor restarted")) else r;
    Persisted(g.(active := Some(Active(command, resumed, false, false, 0, OtherCommand))))
  }

  function RecoveredOnly(g: Agent): Agent
    requires g.active.Some?
  {
    var a := g.active.value;
    Persisted(g.(active := Some(a.(launching := false,
      receipt := a.receipt.(state := Interrupted, outcome := a.receipt.outcome.(error := "receipt unavailable"))))))
  }

  function Released(g: Agent, notices: seq<Event>): Agent
    requires g.active.Some?
  {
    var a := g.active.value;
    var receipt := AppendedAll(a.receipt, notices).(state := Completed);
    Persisted(g.(active := Some(a.(launching := false, receipt := receipt))))
  }

  /** Notices stay in memory; then the code is written to the kernel. */
  function Launched(g: Agent, notices: seq<Event>): Agent
    requires g.active.Some?
  {
    var a := g.active.value;
    g.(active := Some(a.(launching := false, bridge := true, receipt := AppendedAll(a.receipt, notices))),
       inputs := g.inputs[a.command := Inputs(g, a.command) + 1])
  }

  function Inputs(g: Agent, command: Id): nat { if command in g.inputs then g.inputs[command] else 0 }

  /** Preparation failed, possibly while the code was being written. */
  function LaunchFailed(g: Agent, notices: seq<Event>, written: bool): Agent
    requires g.active.Some?
  {
    var a := g.active.value;
    var u := if written then g.(inputs := g.inputs[a.command := Inputs(g, a.command) + 1]) else g;
    var r := AppendedAll(a.receipt, notices);
    var failed := r.(state := Failed, outcome := r.outcome.(error := "preparation failed"));
    Persisted(u.(active := Some(a.(launching := false, receipt := failed))))
  }

  function Drained(g: Agent, queue: seq<Event>, scan: Scan): Agent
    requires g.active.Some?
  {
    var a := g.active.value;
    if !a.bridge || a.receipt.state != Running || queue == [] then g
    else Saved(g, DrainedFrom(a.receipt, a, queue, 0, scan))
  }

  /** Makes the next report durable, unless one is already waiting for its acknowledgement. */
  function Prepared(g: Agent): Agent
    requires g.active.Some? && g.active.value.receipt.offset <= |g.active.value.receipt.events|
  {
    var r := g.active.value.receipt;
    if r.pending.Some? || NextBody(r).None? then g
    else Saved(g, r.(pending := NextBody(r)))
  }

  function AcknowledgedReceipt(r: Receipt): Receipt
    requires r.pending.Some?
  {
    r.(offset := r.pending.value.offset + |r.pending.value.events|, pending := None)
  }

  function Acknowledged(g: Agent): Agent
    requires g.active.Some? && g.active.value.receipt.pending.Some?
  {
    var r := g.active.value.receipt;
    var u := Saved(g, AcknowledgedReceipt(r));
    if r.pending.value.state != Running then u.(active := None) else u
  }

  function AuthorityLost(g: Agent): Agent
    requires g.active.Some?
  {
    Saved(g, g.active.value.receipt.(authorityLost := true))
  }

  function RetainedLocally(g: Agent): Agent
    requires g.active.Some?
  {
    Saved(g, g.active.value.receipt.(pending := None)).(active := None)
  }

  function Closed(g: Agent): Agent
    requires g.active.Some?
  {
    var a := g.active.value;
    if a.receipt.state != Running then g.(active := Some(a.(bridge := false)))
    else
      Persisted(g.(active := Some(a.(bridge := false, launching := false,
        receipt := a.receipt.(state := Interrupted, outcome := a.receipt.outcome.(error := "executor stopped"))))))
  }

  // ----- The class of the source -----

  class SessionAgent {
    var disk: map<Id, Receipt>
    var active: Option<Active>
    var inputs: map<Id, nat>

    ghost function State(): Agent
      reads this
    {
      Agent(disk, active, inputs)
    }

    /** A process that starts over the files of its predecessors. */
    constructor (disk: map<Id, Receipt>, inputs: map<Id, nat>)
      ensures State() == Agent(disk, None, inputs)
    {
      this.disk, active, this.inputs := disk, None, inputs;
    }

    method Persist()
      requires active.Some?
      modifies this`disk
      ensures State() == Persisted(old(State()))
    {
      disk := disk[active.value.command := active.value.receipt];
    }

    method Update(r: Receipt)
      requires active.Some?
      modifies this`active
      ensures State() == WithReceipt(old(State()), r)
    {
      active := Some(active.value.(receipt := r));
    }

    method Append(event: Event)
      requires active.Some?
      modifies this`active
      ensures State() == WithReceipt(old(State()), Appended(old(active).value.receipt, event))
      ensures active.Some? && active.value == old(active).value.(receipt := active.value.receipt)
      ensures event.kind == Complete ==> exists kept ::
          IsReply(event, kept) && active.value.receipt == old(active).value.receipt.(
            events := old(active).value.receipt.events + [kept],
            journalBytes := old(active).value.receipt.journalBytes + kept.size)
      ensures event.kind != Complete && Fits(old(active).value.receipt.journalBytes, event) ==>
                active.value.receipt == old(active).value.receipt.(
                  events := old(active).value.receipt.events + [event],
                  journalBytes := old(active).value.receipt.journalBytes + event.size)
      ensures event.kind != Complete && !Fits(old(active).value.receipt.journalBytes, event) ==> (
                && active.value.receipt.outputLimited
                && (old(active).value.receipt.outputLimited ==> active == old(active))
                && (!old(active).value.receipt.outputLimited ==>
                      active.value.receipt.events == old(active).value.receipt.events
                        + [Event(OutputLimit, event.requestId, event.noticeSize, event.noticeSize, false)]))
    {
      var receipt := active.value.receipt;
      if event.kind == Complete {
        var kept := event;
        if event.size > MAX_REPLY_BYTES {
          kept := Event(Complete, event.requestId, event.noticeSize, event.noticeSize, false);
        }
        Update(receipt.(events := receipt.events + [kept], journalBytes := receipt.journalBytes + kept.size));
        return;
      }
      if event.size > MAX_EVENT_BYTES || receipt.journalBytes + event.size > MAX_JOURNAL_BYTES {
        if receipt.outputLimited {
          return;
        }
        var notice := Event(OutputLimit, event.requestId, event.noticeSize, event.noticeSize, false);
        Update(receipt.(events := receipt.events + [notice], journalBytes := receipt.journalBytes + notice.size,
                        outputLimited := true));
        return;
      }
      Update(receipt.(events := receipt.events + [event], journalBytes := receipt.journalBytes + event.size));
    }

    method AppendAll(events: seq<Event>)
      requires active.Some?
      modifies this`active
      ensures State() == WithReceipt(old(State()), AppendedAll(old(active).value.receipt, events))
    {
      var i := 0;
      while i < |events|
        invariant 0 <= i <= |events|
        invariant active.Some?
        invariant State() == WithReceipt(old(State()), AppendedAll(old(active).value.receipt, events[..i]))
      {
        Append(events[i]);
        assert events[..i + 1][..i] == events[..i];
        i := i + 1;
      }
      assert events[..i] == events;
    }

    /** Takes over the events the bridge has queued and makes the result durable. */
    method Drain(queue: seq<Event>, scan: Scan)
      requires active.Some?
      modifies this`active, this`disk
      ensures State() == Drained(old(State()), queue, scan)
      ensures old(active).value.bridge && old(active).value.receipt.state == Running && queue != [] ==> (
                && active.Some?
                && IsDrained(old(active).value.receipt, old(active).value, queue, scan, active.value.receipt)
                && active.value == old(active).value.(receipt := active.value.receipt)
                && disk == old(disk)[active.value.command := active.value.receipt])
    {
      if !active.value.bridge || active.value.receipt.state != Running || queue == [] {
        return;
      }
      ghost var a := active.value;
      DrainMeaning(a.receipt, a, queue, scan);
      var i := 0;
      var done := false;
      while !done && i < |queue| && i < MAX_DRAINED_EVENTS
        invariant 0 <= i <= |queue| && active.Some? && disk == old(disk) && inputs == old(inputs)
        invariant active.value == a.(receipt := active.value.receipt)
        invariant DrainedFrom(a.receipt, a, queue, 0, scan)
          == if done then active.value.receipt else DrainedFrom(active.value.receipt, a, queue, i, scan)
        decreases !done, |queue| - i
      {
        var event := queue[i];
        var receipt := active.value.receipt;
        if event.kind == BridgeExited {
          Update(receipt.(state := Interrupted, outcome := receipt.outcome.(error := "kernel exited")));
          done := true;
        } else {
          if event.kind == Fatal {
            Update(receipt.(state := Failed, outcome := receipt.outcome.(error := "kernel failed")));
          }
          Append(event);
          if Finishes(event, active.value.requestId, active.value.kind) {
            Finish(event, scan);
            done := true;
          } else if event.kind == CommandError && event.requestId == active.value.requestId {
            receipt := active.value.receipt;
            Update(receipt.(state := Failed, outcome := receipt.outcome.(error := "command rejected")));
            done := true;
          } else {
            i := i + 1;
          }
        }
      }
      Persist();
    }

    method Finish(event: Event, scan: Scan)
      requires active.Some?
      modifies this`active
      ensures State() == WithReceipt(old(State()), Finished(old(active).value.receipt, event, scan))
    {
      var receipt := active.value.receipt;
      Update(receipt.(state := if event.kind == Complete && !event.success then Failed else Completed,
                      outcome := Outcome(receipt.outcome.error, scan.files, scan.removed)));
      AppendAll(scan.warnings);
      if scan.warnings != [] {
        receipt := active.value.receipt;
        Update(receipt.(state := Failed, outcome := Outcome("files could not be synchronized", scan.files,
                                                            scan.removed)));
      }
    }

    /** The batch loop of a report. */
    method CollectBatch() returns (pending: seq<Event>)
      requires active.Some? && active.value.receipt.offset <= |active.value.receipt.events|
      ensures var r := active.value.receipt;
        pending == r.events[r.offset..BatchEnd(r.events, r.offset, r.offset, 0)]
    {
      var events, offset := active.value.receipt.events, active.value.receipt.offset;
      pending := [];
      var size: nat, i := 0, offset;
      while i < |events| && |pending| < MAX_REPORT_EVENTS && (pending == [] || size + events[i].size <= MAX_EVENT_BYTES)
        invariant offset <= i <= |events| && pending == events[offset..i]
        invariant BatchEnd(events, offset, i, size) == BatchEnd(events, offset, offset, 0)
      {
        pending := pending + [events[i]];
        size := size + events[i].size;
        i := i + 1;
      }
    }

    /** The first half of a report: the body to send, durable before it is sent. */
    method PrepareReport() returns (body: Option<Body>)
      requires active.Some? && active.value.receipt.offset <= |active.value.receipt.events|
      modifies this`active, this`disk
      ensures State() == Prepared(old(State()))
      ensures active.Some? && body == active.value.receipt.pending
    {
      var receipt := active.value.receipt;
      if receipt.pending.Some? {
        return receipt.pending;
      }
      var pending := CollectBatch();
      var final := receipt.offset + |pending| == |receipt.events| && receipt.state != Running;
      if pending == [] && !final {
        return None;
      }
      body := Some(Body(receipt.offset, pending, if final then receipt.state else Running,
                        if final then Some(receipt.outcome) else None));
      Update(receipt.(pending := body));
      Persist();
    }

    /** The second half: the server acknowledged the body. */
    method AcknowledgeReport(acknowledged: nat) returns (ok: bool)
      requires active.Some? && active.value.receipt.pending.Some?
      modifies this`active, this`disk
      ensures ok <==> acknowledged == old(active).value.receipt.pending.value.offset
                                      + |old(active).value.receipt.pending.value.events|
      ensures State() == if ok then Acknowledged(old(State())) else old(State())
    {
      var body := active.value.receipt.pending.value;
      if acknowledged != body.offset + |body.events| {
        return false;
      }
      Update(active.value.receipt.(offset := acknowledged, pending := None));
      Persist();
      if body.state != Running {
        active := None;
      }
      return true;
    }

    /** Accepts a command: one already known is resumed without running it, a new one gets its receipt first. */
    method Claim(command: Id, recoverOnly: bool, requestId: Id, kind: CommandKind)
      requires active.None? || active.value.command == command
      modifies this`active, this`disk
      ensures State() ==
        if command in old(disk) then
          if old(active).Some? then old(State()) else Resumed(old(State()), command)
        else
          (var created := Created(old(State()), command, requestId, kind);
           if recoverOnly then RecoveredOnly(created) else created)
    {
      if command in disk {
        if active.Some? {
          return;
        }
        var receipt := disk[command];
        if receipt.state == Running {
          receipt := receipt.(state := Interrupted, outcome := receipt.outcome.(error := "executor restarted"));
          disk := disk[command := receipt];
        }
        active := Some(Active(command, receipt, false, false, 0, OtherCommand));
        assert disk == disk[command := receipt];
        return;
      }
      active := Some(Active(command, FreshReceipt(), false, true, requestId, kind));
      Persist();
      if recoverOnly {
        var receipt := active.value.receipt;
        active := Some(active.value.(launching := false,
          receipt := receipt.(state := Interrupted, outcome := receipt.outcome.(error := "receipt unavailable"))));
        Persist();
      }
    }

    method Close()
      requires active.Some?
      modifies this`active, this`disk
      ensures State() == Closed(old(State()))
    {
      var a := active.value;
      if a.receipt.state == Running {
        active := Some(a.(bridge := false, launching := false,
          receipt := a.receipt.(state := Interrupted, outcome := a.receipt.outcome.(error := "executor stopped"))));
        Persist();
      } else {
        active := Some(a.(bridge := false));
      }
    }
  }
}

/**
 Whole runs of an execution agent and its session server: reports may be lost, delayed, repeated and reordered,
 acknowledgements may be lost, and the agent may crash between any two durable writes and start over.

 The server is a log per command that appends a report offered at its own length and re-acknowledges an
 identical replay.
 */
module SessionRun {
  import opened Outcomes
  import opened SessionAgent

  /** `bodies` holds the report accepted at each offset. */
  datatype Log = Log(events: seq<Event>, bodies: map<nat, Body>)

  datatype World = World(agent: Agent, sent: set<(Id, Body)>, server: map<Id, Log>)

  datatype Step =
    | Create(command: Id, requestId: Id, kind: CommandKind)
    | Resume(command: Id)
    | RecoverOnly
    | Release(notices: seq<Event>)
    | Launch(notices: seq<Event>)
    | FailLaunch(notices: seq<Event>, written: bool)
    | Drain(queue: seq<Event>, scan: Scan)
    | Upload(k: nat)
    | RejectArtifact
    | Prepare
    | Send
    | ServerReceives(command: Id, body: Body)
    | Acknowledge
    | LoseAuthority
    | Retain
    | Close
    | Crash

  function LogOf(server: map<Id, Log>, c: Id): Log { if c in server then server[c] else Log([], map[]) }

  /** Offered at the log's length a report is appended; anything else leaves the log alone. */
  function Received(log: Log, body: Body): Log {
    if body.offset == |log.events| && body.offset !in log.bodies then
      Log(log.events + body.events, log.bodies[body.offset := body])
    else log
  }

  /** The server would confirm this report. */
  predicate Confirms(log: Log, body: Body) {
    body.offset in log.bodies && log.bodies[body.offset] == body
  }

  predicate MayReport(g: Agent) { g.active.Some? && !g.active.value.launching && !g.active.value.receipt.authorityLost }

  predicate Enabled(w: World, s: Step) {
    var g := w.agent;
    match s
    case Create(command, _, _) => g.active.None? && command !in g.disk
    case Resume(command) => g.active.None? && command in g.disk
    case RecoverOnly => g.active.Some? && g.active.value.launching
    case Release(_) => g.active.Some? && g.active.value.launching && g.active.value.kind == CommandKind.Release
    case Launch(_) => g.active.Some? && g.active.value.launching && g.active.value.kind != CommandKind.Release
    case FailLaunch(_, _) => g.active.Some? && g.active.value.launching && g.active.value.kind != CommandKind.Release
    case Drain(_, _) => g.active.Some? && !g.active.value.launching
    case Upload(k) =>
      MayReport(g) && k < |g.active.value.receipt.outcome.files| && g.active.value.receipt.outcome.files[k].staged
    case RejectArtifact => MayReport(g) && !AllUploaded(g.active.value.receipt)
    case Prepare =>
      && MayReport(g) && AllUploaded(g.active.value.receipt)
      && g.active.value.receipt.offset <= |g.active.value.receipt.events|
    case Send => MayReport(g) && g.active.value.receipt.pending.Some?
    case ServerReceives(command, body) => (command, body) in w.sent
    case Acknowledge => MayReport(g) && g.active.value.receipt.pending.Some?
        && Confirms(LogOf(w.server, g.active.value.command), g.active.value.receipt.pending.value)
    case LoseAuthority => g.active.Some? && !g.active.value.launching
    case Retain => g.active.Some? && g.active.value.receipt.authorityLost && g.active.value.receipt.state != Running
    case Close => g.active.Some? && !g.active.value.launching
    case Crash => true
  }

  function AfterSend(w: World): World
    requires w.agent.active.Some? && w.agent.active.value.receipt.pending.Some?
  {
    w.(sent := w.sent + {(w.agent.active.value.command, w.agent.active.value.receipt.pending.value)})
  }

  function Next(w: World, s: Step): World
    requires Enabled(w, s)
  {
    var g := w.agent;
    match s
    case Create(command, requestId, kind) => w.(agent := Created(g, command, requestId, kind))
    case Resume(command) => w.(agent := Resumed(g, command))
    case RecoverOnly => w.(agent := RecoveredOnly(g))
    case Release(notices) => w.(agent := Released(g, notices))
    case Launch(notices) => w.(agent := Launched(g, notices))
    case FailLaunch(notices, written) => w.(agent := LaunchFailed(g, notices, written))
    case Drain(queue, scan) => w.(agent := Drained(g, queue, scan))
    case Upload(k) => w.(agent := Saved(g, Uploaded(g.active.value.receipt, k)))
    case RejectArtifact => w.(agent := Saved(g, Rejected(g.active.value.receipt)))
    case Prepare => w.(agent := Prepared(g))
    case Send => AfterSend(w)
    case ServerReceives(c, body) => w.(server := w.server[c := Received(LogOf(w.server, c), body)])
    case Acknowledge => w.(agent := Acknowledged(g))
    case LoseAuthority => w.(agent := AuthorityLost(g))
    case Retain => w.(agent := RetainedLocally(g))
    case Close => w.(agent := Closed(g))
    case Crash => w.(agent := g.(active := None))
  }

  predicate IsRun(w: World, steps: seq<Step>)
    decreases |steps|
  {
    steps == [] || (Enabled(w, steps[0]) && IsRun(Next(w, steps[0]), steps[1..]))
  }

  function After(w: World, steps: seq<Step>): World
    requires IsRun(w, steps)
    decreases |steps|
  {
    if steps == [] then w else After(Next(w, steps[0]), steps[1..])
  }

  const Start := World(Agent(map[], None, map[]), {}, map[])

  // ----- What every step keeps -----

  /** A report is a slice of the journal, and a final one closes it with the durable result. */
  ghost predicate IsSlice(r: Receipt, b: Body) {
    && b.offset + |b.events| <= |r.events|
    && b.events == r.events[b.offset..b.offset + |b.events|]
    && (b.state != Running ==> (
          b.offset + |b.events| == |r.events| && b.state == r.state && b.outcome == Some(r.outcome) && AllUploaded(r)))
    && (b.events == [] ==> b.state != Running)
    && (b.state == Running ==> b.outcome.None?)
  }

  /** A report once sent: settled before the acknowledged offset, or the one still waiting there. */
  ghost predicate SentOK(r: Receipt, b: Body) {
    && IsSlice(r, b)
    && b.offset <= r.offset
    && (b.offset < r.offset ==> b.offset + |b.events| <= r.offset)
    && (b.offset == r.offset && !r.authorityLost ==>
          if r.pending.Some? then r.pending == Some(b) else b.events == [])
  }

  ghost predicate ReceiptOK(r: Receipt) {
    && r.offset <= |r.events|
    && (r.pending.Some? ==> r.pending.value.offset == r.offset && IsSlice(r, r.pending.value))
  }

  /** At one offset one report. */
  ghost predicate Unique(sent: set<(Id, Body)>) {
    forall x, y :: x in sent && y in sent && x.0 == y.0 && x.1.offset == y.1.offset ==> x.1 == y.1
  }

  /** The server's log is the journal up to the acknowledged offset, or one report further. */
  ghost predicate LogOK(sent: set<(Id, Body)>, c: Id, r: Receipt, log: Log) {
    && |log.events| <= |r.events| && log.events == r.events[..|log.events|]
    && r.offset <= |log.events|
    && (forall o :: o in log.bodies ==>
          (c, log.bodies[o]) in sent && log.bodies[o].offset == o && o + |log.bodies[o].events| <= |log.events|)
    && (forall x :: x in sent && x.0 == c && x.1.offset < r.offset ==> Confirms(log, x.1))
    && (|log.events| > r.offset ==> r.offset in log.bodies)
    && (r.authorityLost || |log.events| == r.offset ||
          (r.pending.Some? && Confirms(log, r.pending.value) && |log.events| == r.offset + |r.pending.value.events|))
  }

  ghost predicate CommandOK(sent: set<(Id, Body)>, c: Id, r: Receipt, log: Log) {
    && ReceiptOK(r)
    && (forall x :: x in sent && x.0 == c ==> SentOK(r, x.1))
    && LogOK(sent, c, r, log)
  }

  /** Memory runs ahead of the disk only by unsaved journal entries of a running command. */
  ghost predicate MemoryOK(r: Receipt, m: Receipt) {
    if r.state == Running then m.state == Running && m.outcome == r.outcome && Grows(r, m) else m == r
  }

  /** More journal; what was reported and acknowledged stays. */
  ghost predicate Grows(r: Receipt, m: Receipt) {
    && |r.events| <= |m.events| && r.events == m.events[..|r.events|]
    && m.offset == r.offset && m.pending == r.pending && m.authorityLost == r.authorityLost
  }

  ghost predicate ActiveOK(g: Agent) {
    g.active.Some? ==>
      && g.active.value.command in g.disk
      && MemoryOK(g.disk[g.active.value.command], g.active.value.receipt)
      && (g.active.value.launching ==> g.active.value.command !in g.inputs && g.active.value.receipt.state == Running)
  }

  ghost predicate InputsOK(g: Agent) {
    forall c :: c in g.inputs ==> c in g.disk && g.inputs[c] <= 1
  }

  ghost predicate CommandsOK(w: World) {
    && (forall c :: c in w.agent.disk ==> CommandOK(w.sent, c, w.agent.disk[c], LogOf(w.server, c)))
    && (forall x :: x in w.sent ==> x.0 in w.agent.disk)
    && (forall c :: c in w.server ==> c in w.agent.disk)
  }

  ghost predicate Inv(w: World) {
    ActiveOK(w.agent) && InputsOK(w.agent) && CommandsOK(w) && Unique(w.sent)
  }

  lemma StartHolds()
    ensures Inv(Start)
  {
  }

  // ----- The journal only grows -----

  lemma {:induction false} AppendedAllGrows(r: Receipt, es: seq<Event>)
    ensures Grows(r, AppendedAll(r, es))
    ensures AppendedAll(r, es).state == r.state && AppendedAll(r, es).outcome == r.outcome
  {
    if es != [] {
      AppendedAllGrows(r, es[..|es| - 1]);
    }
  }

  lemma {:induction false} DrainedGrows(r: Receipt, a: Active, queue: seq<Event>, i: nat, scan: Scan)
    ensures Grows(r, DrainedFrom(r, a, queue, i, scan))
    decreases |queue| - i
  {
    if i < |queue| && i < MAX_DRAINED_EVENTS && queue[i].kind != BridgeExited {
      var failed := if queue[i].kind == Fatal then r.(state := Failed, outcome := r.outcome.(error := "kernel failed"))
        else r;
      var next := Appended(failed, queue[i]);
      assert Grows(r, next);
      if Finishes(queue[i], a.requestId, a.kind) {
        var done := next.(state := if queue[i].kind == Complete && !queue[i].success then Failed else Completed,
                          outcome := Outcome(next.outcome.error, scan.files, scan.removed));
        AppendedAllGrows(done, scan.warnings);
        GrowsTransitive(r, next, Finished(next, queue[i], scan));
      } else if !(queue[i].kind == CommandError && queue[i].requestId == a.requestId) {
        DrainedGrows(next, a, queue, i + 1, scan);
        GrowsTransitive(r, next, DrainedFrom(next, a, queue, i + 1, scan));
      }
    }
  }

  lemma GrowsTransitive(a: Receipt, b: Receipt, c: Receipt)
    requires Grows(a, b) && Grows(b, c)
    ensures Grows(a, c)
  {
    assert c.events[..|b.events|][..|a.events|] == c.events[..|a.events|];
  }

  /** Nothing final was reported for a running command, so its journal and result may still change. */
  lemma GrowthKeeps(sent: set<(Id, Body)>, c: Id, r: Receipt, r': Receipt, log: Log)
    requires CommandOK(sent, c, r, log) && r.state == Running && Grows(r, r')
    ensures CommandOK(sent, c, r', log)
  {
    forall b | IsSlice(r, b) ensures IsSlice(r', b) {
      SliceOfPrefix(r'.events, |r.events|, b.offset, b.offset + |b.events|);
    }
    SliceOfPrefix(r'.events, |r.events|, 0, |log.events|);
  }

  lemma SliceOfPrefix(s: seq<Event>, n: nat, i: nat, j: nat)
    requires i <= j <= n <= |s|
    ensures s[..n][i..j] == s[i..j]
  {
  }

  lemma SaveKeeps(w: World, g: Agent, a: Active)
    requires Inv(w) && a.command in w.agent.disk && !a.launching
    requires g.disk == w.agent.disk[a.command := a.receipt] && g.active == Some(a)
    requires CommandOK(w.sent, a.command, a.receipt, LogOf(w.server, a.command))
    requires InputsOK(g)
    ensures Inv(w.(agent := g))
  {
  }

  /** A running command's receipt is replaced by one that grew. */
  lemma RunningSaveKeeps(w: World, g: Agent, a: Active)
    requires Inv(w) && w.agent.active.Some? && a.command == w.agent.active.value.command && !a.launching
    requires w.agent.active.value.receipt.state == Running && Grows(w.agent.active.value.receipt, a.receipt)
    requires g.disk == w.agent.disk[a.command := a.receipt] && g.active == Some(a)
    requires InputsOK(g)
    ensures Inv(w.(agent := g))
  {
    var c := a.command;
    var r := w.agent.disk[c];
    assert r.state == Running;
    GrowsTransitive(r, w.agent.active.value.receipt, a.receipt);
    GrowthKeeps(w.sent, c, r, a.receipt, LogOf(w.server, c));
    SaveKeeps(w, g, a);
  }

  // ----- Steps -----

  lemma CreateKeeps(w: World, command: Id, requestId: Id, kind: CommandKind)
    requires Inv(w) && Enabled(w, Create(command, requestId, kind))
    ensures Inv(w.(agent := Created(w.agent, command, requestId, kind)))
  {
    assert command !in w.agent.inputs;
    assert CommandOK(w.sent, command, FreshReceipt(), LogOf(w.server, command));
  }

  lemma ResumeKeeps(w: World, command: Id)
    requires Inv(w) && Enabled(w, Resume(command))
    ensures Inv(w.(agent := Resumed(w.agent, command)))
  {
    var r := w.agent.disk[command];
    var g := Resumed(w.agent, command);
    assert CommandOK(w.sent, command, r, LogOf(w.server, command));
    if r.state == Running {
      GrowthKeeps(w.sent, command, r, g.disk[command], LogOf(w.server, command));
    }
    assert g.disk == w.agent.disk[command := g.active.value.receipt];
    SaveKeeps(w, g, g.active.value);
  }

  lemma LaunchKeeps(w: World, notices: seq<Event>)
    requires Inv(w) && Enabled(w, Launch(notices))
    ensures Inv(w.(agent := Launched(w.agent, notices)))
  {
    var a := w.agent.active.value;
    AppendedAllGrows(a.receipt, notices);
    GrowsTransitive(w.agent.disk[a.command], a.receipt, AppendedAll(a.receipt, notices));
  }

  lemma RecoverOnlyKeeps(w: World)
    requires Inv(w) && Enabled(w, RecoverOnly)
    ensures Inv(Next(w, RecoverOnly))
  {
    var g := Next(w, RecoverOnly).agent;
    RunningSaveKeeps(w, g, g.active.value);
  }

  lemma LaunchEndsKeep(w: World, s: Step)
    requires Inv(w) && Enabled(w, s) && (s.Release? || s.FailLaunch?)
    ensures Inv(Next(w, s))
  {
    var a := w.agent.active.value;
    var g := Next(w, s).agent;
    AppendedAllGrows(a.receipt, s.notices);
    assert InputsOK(g);
    RunningSaveKeeps(w, g, g.active.value);
  }

  lemma DrainKeeps(w: World, queue: seq<Event>, scan: Scan)
    requires Inv(w) && Enabled(w, Drain(queue, scan))
    ensures Inv(w.(agent := Drained(w.agent, queue, scan)))
  {
    var a := w.agent.active.value;
    if a.bridge && a.receipt.state == Running && queue != [] {
      DrainedGrows(a.receipt, a, queue, 0, scan);
      var g := Drained(w.agent, queue, scan);
      RunningSaveKeeps(w, g, g.active.value);
    }
  }

  lemma CloseKeeps(w: World)
    requires Inv(w) && Enabled(w, Close)
    ensures Inv(w.(agent := Closed(w.agent)))
  {
    if w.agent.active.value.receipt.state == Running {
      var g := Closed(w.agent);
      RunningSaveKeeps(w, g, g.active.value);
    }
  }

  /** What memory knows of the active command holds for its receipt on disk. */
  lemma ActiveCommand(w: World) returns (c: Id, r: Receipt, m: Receipt)
    requires Inv(w) && w.agent.active.Some?
    ensures c == w.agent.active.value.command && c in w.agent.disk
    ensures r == w.agent.disk[c] && m == w.agent.active.value.receipt && MemoryOK(r, m)
    ensures CommandOK(w.sent, c, r, LogOf(w.server, c)) && CommandOK(w.sent, c, m, LogOf(w.server, c))
  {
    c, m := w.agent.active.value.command, w.agent.active.value.receipt;
    r := w.agent.disk[c];
    if r.state == Running {
      GrowthKeeps(w.sent, c, r, m, LogOf(w.server, c));
    }
  }

  /** Artifacts are settled only while no final report was prepared. */
  lemma UploadKeeps(w: World, r': Receipt)
    requires Inv(w) && w.agent.active.Some? && !w.agent.active.value.launching
    requires !AllUploaded(w.agent.active.value.receipt)
    requires var m := w.agent.active.value.receipt; r' == m.(state := r'.state, outcome := r'.outcome)
    ensures Inv(w.(agent := Saved(w.agent, r')))
  {
    var c, r, m := ActiveCommand(w);
    forall b | IsSlice(m, b) ensures IsSlice(r', b) {
    }
    assert CommandOK(w.sent, c, r', LogOf(w.server, c));
    var g := Saved(w.agent, r');
    SaveKeeps(w, g, g.active.value);
  }

  lemma NextBodyIsSlice(m: Receipt)
    requires m.offset <= |m.events| && AllUploaded(m) && NextBody(m).Some?
    ensures IsSlice(m, NextBody(m).value) && NextBody(m).value.offset == m.offset
    ensures m.offset == |m.events| && m.state != Running ==>
      NextBody(m) == Some(Body(m.offset, [], m.state, Some(m.outcome)))
  {
    var end := BatchEnd(m.events, m.offset, m.offset, 0);
    assert m.events[m.offset..end] == [] <==> end == m.offset;
  }

  lemma PrepareKeeps(w: World)
    requires Inv(w) && Enabled(w, Prepare)
    ensures Inv(w.(agent := Prepared(w.agent)))
  {
    var c, r, m := ActiveCommand(w);
    if m.pending.None? && NextBody(m).Some? {
      NextBodyIsSlice(m);
      var r' := m.(pending := NextBody(m));
      forall b | IsSlice(m, b) ensures IsSlice(r', b) {
      }
      assert CommandOK(w.sent, c, r', LogOf(w.server, c));
      var g := Prepared(w.agent);
      SaveKeeps(w, g, g.active.value);
    }
  }

  /** Sending the waiting report, again or for the first time. */
  lemma SendCommand(sent: set<(Id, Body)>, c: Id, r: Receipt, log: Log, b: Body)
    requires CommandOK(sent, c, r, log) && r.pending == Some(b) && !r.authorityLost && Unique(sent)
    ensures CommandOK(sent + {(c, b)}, c, r, log) && Unique(sent + {(c, b)})
  {
    forall x | x in sent && x.0 == c && x.1.offset == b.offset ensures x.1 == b {
      assert SentOK(r, x.1);
    }
  }

  lemma OtherCommandSends(sent: set<(Id, Body)>, d: Id, r: Receipt, log: Log, x: (Id, Body))
    requires CommandOK(sent, d, r, log) && x.0 != d
    ensures CommandOK(sent + {x}, d, r, log)
  {
  }

  lemma SendKeeps(w: World)
    requires Inv(w) && Enabled(w, Send)
    ensures Inv(AfterSend(w))
  {
    var c, r, m := ActiveCommand(w);
    var v := AfterSend(w);
    var b := m.pending.value;
    SendCommand(w.sent, c, r, LogOf(w.server, c), b);
    forall d | d in v.agent.disk ensures CommandOK(v.sent, d, v.agent.disk[d], LogOf(v.server, d)) {
      assert CommandOK(w.sent, d, w.agent.disk[d], LogOf(w.server, d));
      if d != c {
        OtherCommandSends(w.sent, d, w.agent.disk[d], LogOf(w.server, d), (c, b));
      }
    }
  }

  lemma LogReceives(sent: set<(Id, Body)>, c: Id, r: Receipt, log: Log, body: Body)
    requires CommandOK(sent, c, r, log) && (c, body) in sent
    ensures LogOK(sent, c, r, Received(log, body))
  {
    assert SentOK(r, body);
    var end := body.offset + |body.events|;
    assert r.events[..end] == r.events[..body.offset] + r.events[body.offset..end];
  }

  lemma ServerKeeps(w: World, c: Id, body: Body)
    requires Inv(w) && (c, body) in w.sent
    ensures Inv(w.(server := w.server[c := Received(LogOf(w.server, c), body)]))
  {
    var log' := Received(LogOf(w.server, c), body);
    assert c in w.agent.disk;
    assert CommandOK(w.sent, c, w.agent.disk[c], LogOf(w.server, c));
    LogReceives(w.sent, c, w.agent.disk[c], LogOf(w.server, c), body);
    NewLogKeeps(w, c, log');
  }

  lemma NewLogKeeps(w: World, c: Id, log: Log)
    requires Inv(w) && c in w.agent.disk && CommandOK(w.sent, c, w.agent.disk[c], log)
    ensures Inv(w.(server := w.server[c := log]))
  {
    var v := w.(server := w.server[c := log]);
    forall d | d in v.agent.disk ensures CommandOK(v.sent, d, v.agent.disk[d], LogOf(v.server, d)) {
      assert d != c ==> LogOf(v.server, d) == LogOf(w.server, d);
    }
  }

  lemma AcknowledgedCommand(sent: set<(Id, Body)>, c: Id, m: Receipt, log: Log)
    requires CommandOK(sent, c, m, log) && m.pending.Some? && !m.authorityLost && Confirms(log, m.pending.value)
    ensures CommandOK(sent, c, AcknowledgedReceipt(m), log)
  {
    forall x | x in sent && x.0 == c ensures SentOK(AcknowledgedReceipt(m), x.1) {
      assert SentOK(m, x.1);
    }
  }

  lemma AcknowledgedActive(w: World)
    requires Inv(w) && Enabled(w, Acknowledge)
    ensures CommandOK(w.sent, w.agent.active.value.command, AcknowledgedReceipt(w.agent.active.value.receipt),
                      LogOf(w.server, w.agent.active.value.command))
  {
    var c, r, m := ActiveCommand(w);
    AcknowledgedCommand(w.sent, c, m, LogOf(w.server, c));
  }

  lemma AcknowledgeKeeps(w: World)
    requires Inv(w) && Enabled(w, Acknowledge)
    ensures Inv(w.(agent := Acknowledged(w.agent)))
  {
    AcknowledgedActive(w);
    var r := AcknowledgedReceipt(w.agent.active.value.receipt);
    SavedKeeps(w, r);
    assert Acknowledged(w.agent) == Saved(w.agent, r) || Acknowledged(w.agent) == Saved(w.agent, r).(active := None);
  }

  lemma SavedKeeps(w: World, r: Receipt)
    requires Inv(w) && w.agent.active.Some? && !w.agent.active.value.launching
    requires CommandOK(w.sent, w.agent.active.value.command, r, LogOf(w.server, w.agent.active.value.command))
    ensures Inv(w.(agent := Saved(w.agent, r))) && Inv(w.(agent := Saved(w.agent, r).(active := None)))
  {
    var g := Saved(w.agent, r);
    SaveKeeps(w, g, g.active.value);
    ForgetActive(w.(agent := g));
  }

  lemma ForgetActive(w: World)
    requires Inv(w)
    ensures Inv(w.(agent := w.agent.(active := None)))
  {
  }

  lemma AuthorityKeeps(w: World)
    requires Inv(w) && Enabled(w, LoseAuthority)
    ensures Inv(w.(agent := AuthorityLost(w.agent)))
  {
    var c, r, m := ActiveCommand(w);
    assert CommandOK(w.sent, c, m.(authorityLost := true), LogOf(w.server, c));
    var g := AuthorityLost(w.agent);
    SaveKeeps(w, g, g.active.value);
  }

  lemma RetainKeeps(w: World)
    requires Inv(w) && Enabled(w, Retain)
    ensures Inv(w.(agent := RetainedLocally(w.agent)))
  {
    var c, r, m := ActiveCommand(w);
    var r' := m.(pending := None);
    forall x | x in w.sent && x.0 == c ensures SentOK(r', x.1) {
      assert SentOK(m, x.1);
    }
    assert CommandOK(w.sent, c, r', LogOf(w.server, c));
  }

  lemma StepKeeps(w: World, s: Step)
    requires Inv(w) && Enabled(w, s)
    ensures Inv(Next(w, s))
  {
    match s
    case Create(command, requestId, kind) => CreateKeeps(w, command, requestId, kind);
    case Resume(command) => ResumeKeeps(w, command);
    case RecoverOnly => RecoverOnlyKeeps(w);
    case Release(_) => LaunchEndsKeep(w, s);
    case Launch(notices) => LaunchKeeps(w, notices);
    case FailLaunch(_, _) => LaunchEndsKeep(w, s);
    case Drain(queue, scan) => DrainKeeps(w, queue, scan);
    case Upload(k) => UploadKeeps(w, Uploaded(w.agent.active.value.receipt, k));
    case RejectArtifact => UploadKeeps(w, Rejected(w.agent.active.value.receipt));
    case Prepare => PrepareKeeps(w);
    case Send => SendKeeps(w);
    case ServerReceives(c, body) => ServerKeeps(w, c, body);
    case Acknowledge => AcknowledgeKeeps(w);
    case LoseAuthority => AuthorityKeeps(w);
    case Retain => RetainKeeps(w);
    case Close => CloseKeeps(w);
    case Crash =>
  }

  lemma {:induction false} RunKeeps(w: World, steps: seq<Step>)
    requires Inv(w) && IsRun(w, steps)
    ensures Inv(After(w, steps))
    decreases |steps|
  {
    if steps != [] {
      StepKeeps(w, steps[0]);
      RunKeeps(Next(w, steps[0]), steps[1..]);
    }
  }

  // ----- Main results -----

  /**
   In every run the server's log of a command is a prefix of its durable journal, and covers at least what the
   agent believes acknowledged: no event is lost, repeated or reordered.
   */
  lemma ServerLogIsPrefix(steps: seq<Step>, c: Id)
    requires IsRun(Start, steps) && c in After(Start, steps).server
    ensures var w := After(Start, steps);
      && c in w.agent.disk
      && w.agent.disk[c].offset <= |w.server[c].events| <= |w.agent.disk[c].events|
      && w.server[c].events == w.agent.disk[c].events[..|w.server[c].events|]
  {
    RunKeeps(Start, steps);
    var w := After(Start, steps);
    assert CommandOK(w.sent, c, w.agent.disk[c], LogOf(w.server, c));
  }

  /**
   Whatever is sent at an offset, by this process or a later one, equals the first report sent there, and a
   terminal state is only ever sent with the last event of the journal and its durable result.
   */
  lemma ResendsAreIdentical(steps: seq<Step>, c: Id, a: Body, b: Body)
    requires IsRun(Start, steps) && (c, a) in After(Start, steps).sent && (c, b) in After(Start, steps).sent
    ensures a.offset == b.offset ==> a == b
    ensures c in After(Start, steps).agent.disk
    ensures var r := After(Start, steps).agent.disk[c];
      a.state != Running ==> a.offset + |a.events| == |r.events| && a.state == r.state && a.outcome == Some(r.outcome)
  {
    RunKeeps(Start, steps);
    var w := After(Start, steps);
    assert CommandOK(w.sent, c, w.agent.disk[c], LogOf(w.server, c));
    var x, y := (c, a), (c, b);
    assert x in w.sent && y in w.sent && SentOK(w.agent.disk[c], x.1);
  }

  /** A command's code reaches a kernel at most once, and only after its receipt is on disk. */
  lemma CodeRunsAtMostOnce(steps: seq<Step>, c: Id)
    requires IsRun(Start, steps)
    ensures Inputs(After(Start, steps).agent, c) <= 1
    ensures Inputs(After(Start, steps).agent, c) > 0 ==> c in After(Start, steps).agent.disk
  {
    RunKeeps(Start, steps);
  }

  /** Once the final report is confirmed the server holds the whole journal. */
  lemma FinalAcknowledgementIsComplete(steps: seq<Step>)
    requires IsRun(Start, steps) && Enabled(After(Start, steps), Acknowledge)
    requires After(Start, steps).agent.active.value.receipt.pending.value.state != Running
    ensures var w := After(Start, steps);
      var c := w.agent.active.value.command;
      c in w.agent.disk && LogOf(w.server, c).events == w.agent.disk[c].events
  {
    RunKeeps(Start, steps);
    FinalIsComplete(After(Start, steps));
  }

  lemma FinalIsComplete(w: World)
    requires Inv(w) && Enabled(w, Acknowledge) && w.agent.active.value.receipt.pending.value.state != Running
    ensures var c := w.agent.active.value.command;
      c in w.agent.disk && LogOf(w.server, c).events == w.agent.disk[c].events
  {
    var c, r, m := ActiveCommand(w);
    assert SentOK(r, m.pending.value);
  }

  lemma ReceivedIsConfirmed(w: World, c: Id, b: Body)
    requires Inv(w) && (c, b) in w.sent
    ensures Confirms(Received(LogOf(w.server, c), b), b)
  {
    var log := LogOf(w.server, c);
    assert CommandOK(w.sent, c, w.agent.disk[c], log) && SentOK(w.agent.disk[c], b);
    if b.offset in log.bodies {
      assert (c, log.bodies[b.offset]) in w.sent;
    }
  }

  /** A report the server receives is never turned away for good: it extends the log or is already in it. */
  lemma ServerNeverSeesConflict(steps: seq<Step>, c: Id, b: Body)
    requires IsRun(Start, steps) && (c, b) in After(Start, steps).sent
    ensures Confirms(Received(LogOf(After(Start, steps).server, c), b), b)
  {
    RunKeeps(Start, steps);
    ReceivedIsConfirmed(After(Start, steps), c, b);
  }

  // ----- Getting on -----

  /** The code of a new command that is launched has reached a kernel exactly once. */
  lemma LaunchRunsOnce(steps: seq<Step>, command: Id, requestId: Id, kind: CommandKind, notices: seq<Event>)
    requires IsRun(Start, steps) && Enabled(After(Start, steps), Create(command, requestId, kind))
    requires kind != CommandKind.Release
    ensures var w := Next(After(Start, steps), Create(command, requestId, kind));
      && Enabled(w, Launch(notices)) && w.agent.disk[command] == FreshReceipt()
      && Inputs(Next(w, Launch(notices)).agent, command) == 1
  {
    RunKeeps(Start, steps);
    assert command !in After(Start, steps).agent.inputs;
  }

  predicate IsReporting(s: Step) { s.Prepare? || s.Send? || s.ServerReceives? || s.Acknowledge? }

  predicate Reports(steps: seq<Step>) { forall i :: 0 <= i < |steps| ==> IsReporting(steps[i]) }

  lemma RunFirst(w: World, s: Step, rest: seq<Step>) returns (steps: seq<Step>)
    requires Enabled(w, s) && IsRun(Next(w, s), rest) && IsReporting(s) && Reports(rest)
    ensures steps == [s] + rest && IsRun(w, steps) && After(w, steps) == After(Next(w, s), rest) && Reports(steps)
  {
    steps := [s] + rest;
    assert steps[1..] == rest;
  }

  /** A command that is over, with its artifacts settled, and still to be reported. */
  predicate IsOver(w: World) {
    && MayReport(w.agent) && AllUploaded(w.agent.active.value.receipt) && w.agent.active.value.receipt.state != Running
    && w.agent.active.value.receipt.offset <= |w.agent.active.value.receipt.events|
  }

  /** The report that waits is sent, received and acknowledged. */
  lemma RoundTrip(w: World) returns (v: World)
    requires Inv(w) && IsOver(w) && w.agent.active.value.receipt.pending.Some?
    ensures var c, b := w.agent.active.value.command, w.agent.active.value.receipt.pending.value;
      && v == Next(AfterSend(w), ServerReceives(c, b)) && Inv(v) && Enabled(v, Acknowledge) && v.agent == w.agent
  {
    var c, b := w.agent.active.value.command, w.agent.active.value.receipt.pending.value;
    SendKeeps(w);
    var u := AfterSend(w);
    assert (c, b) in u.sent;
    ServerKeeps(u, c, b);
    ReceivedIsConfirmed(u, c, b);
    v := Next(u, ServerReceives(c, b));
  }

  /** What preparing does to the agent: only the report that waits is new. */
  predicate IsPrepared(g: Agent, h: Agent) {
    && g.active.Some? && h.active.Some? && h.active.value.receipt.pending.Some?
    && h.active.value == g.active.value.(receipt := h.active.value.receipt)
    && h.active.value.receipt == g.active.value.receipt.(pending := h.active.value.receipt.pending)
    && h.disk.Keys == g.disk.Keys
  }

  lemma PreparingPrepares(g: Agent)
    requires MayReport(g) && g.active.value.receipt.state != Running && g.active.value.command in g.disk
    requires g.active.value.receipt.offset <= |g.active.value.receipt.events|
    ensures IsPrepared(g, Prepared(g))
  {
    NextBodyMeaning(g.active.value.receipt);
  }

  lemma WaitingIsSlice(v: World)
    requires Inv(v) && v.agent.active.Some? && v.agent.active.value.receipt.pending.Some?
    ensures var r := v.agent.active.value.receipt; IsSlice(r, r.pending.value) && r.pending.value.offset == r.offset
  {
    var c, r, m := ActiveCommand(v);
  }

  /** Preparing leaves a report of a command that is over, with events or final. */
  lemma PreparedIsOver(w: World)
    requires Inv(w) && IsOver(w)
    ensures Inv(Next(w, Prepare)) && IsOver(Next(w, Prepare)) && IsPrepared(w.agent, Next(w, Prepare).agent)
    ensures var r := Next(w, Prepare).agent.active.value.receipt;
      IsSlice(r, r.pending.value) && r.pending.value.offset == r.offset
  {
    PrepareKeeps(w);
    var c, r, m := ActiveCommand(w);
    PreparingPrepares(w.agent);
    WaitingIsSlice(Next(w, Prepare));
  }

  /** What the acknowledgement of a waiting report does to the agent: the command is closed, or there is more. */
  predicate IsAcknowledged(g: Agent, h: Agent)
    requires g.active.Some? && g.active.value.receipt.pending.Some?
  {
    var m := g.active.value.receipt;
    if m.pending.value.state != Running then
      h.active.None? && g.active.value.command in h.disk && h.disk[g.active.value.command].events == m.events
    else
      && h.active.Some? && h.active.value == g.active.value.(receipt := h.active.value.receipt)
      && h.active.value.receipt == m.(offset := h.active.value.receipt.offset, pending := None)
      && h.active.value.receipt.offset == m.pending.value.offset + |m.pending.value.events|
  }

  lemma AcknowledgingCloses(g: Agent)
    requires g.active.Some? && g.active.value.receipt.pending.Some?
    ensures IsAcknowledged(g, Acknowledged(g))
  {
  }

  /** A final report that was acknowledged brought all events of the receipt in memory to the server. */
  lemma FinalIsAll(v: World)
    requires Inv(v) && Enabled(v, Acknowledge) && v.agent.active.value.receipt.pending.value.state != Running
    ensures LogOf(v.server, v.agent.active.value.command).events == v.agent.active.value.receipt.events
  {
    FinalIsComplete(v);
    var c, r, m := ActiveCommand(v);
  }

  /** The command is closed and the server has all its events, or the command is further on. */
  predicate IsFurther(v: World, u: World)
    requires v.agent.active.Some? && v.agent.active.value.receipt.pending.Some?
  {
    var c, m := v.agent.active.value.command, v.agent.active.value.receipt;
    if m.pending.value.state != Running then
      && u.agent.active.None? && c in u.agent.disk
      && LogOf(u.server, c).events == u.agent.disk[c].events == m.events
    else
      && IsOver(u) && u.agent.active.value.command == c && u.agent.active.value.receipt.events == m.events
      && u.agent.active.value.receipt.offset > m.offset
  }

  lemma AcknowledgedGoesOn(v: World)
    requires Inv(v) && IsOver(v) && Enabled(v, Acknowledge)
    ensures Inv(Next(v, Acknowledge)) && IsFurther(v, Next(v, Acknowledge))
  {
    AcknowledgeKeeps(v);
    AcknowledgingCloses(v.agent);
    WaitingIsSlice(v);
    if v.agent.active.value.receipt.pending.value.state != Running {
      FinalIsAll(v);
    }
    AcknowledgedIsFurther(v, Next(v, Acknowledge));
  }

  lemma AcknowledgedIsFurther(v: World, u: World)
    requires IsOver(v) && v.agent.active.value.receipt.pending.Some? && IsAcknowledged(v.agent, u.agent)
    requires u.server == v.server
    requires var r := v.agent.active.value.receipt; IsSlice(r, r.pending.value) && r.pending.value.offset == r.offset
    requires v.agent.active.value.receipt.pending.value.state != Running ==>
               LogOf(v.server, v.agent.active.value.command).events == v.agent.active.value.receipt.events
    ensures IsFurther(v, u)
  {
  }

  /**
   Whatever happened before, once a command is over and its artifacts are settled, reporting alone gets its whole
   journal to the server: if nothing is lost any more, some rounds of reports end with the command closed.
   */
  lemma {:induction false} ReportingFinishes(w: World) returns (steps: seq<Step>)
    requires Inv(w) && IsOver(w)
    ensures IsRun(w, steps) && Reports(steps)
    ensures var c := w.agent.active.value.command; var v := After(w, steps);
      && v.agent.active.None? && c in v.agent.disk
      && LogOf(v.server, c).events == v.agent.disk[c].events == w.agent.active.value.receipt.events
    decreases |w.agent.active.value.receipt.events| - w.agent.active.value.receipt.offset
  {
    var c := w.agent.active.value.command;
    PreparedIsOver(w);
    var p := Next(w, Prepare);
    var b := p.agent.active.value.receipt.pending.value;
    var v := RoundTrip(p);
    AcknowledgedGoesOn(v);
    var u := Next(v, Acknowledge);
    if b.state != Running {
      steps := [];
    } else {
      steps := ReportingFinishes(u);
    }
    steps := RunFirst(v, Acknowledge, steps);
    steps := RunFirst(AfterSend(p), ServerReceives(c, b), steps);
    steps := RunFirst(p, Send, steps);
    steps := RunFirst(w, Prepare, steps);
  }

  // ----- How a command ends -----

  /** The state a step leaves a running command in, told from the step alone. */
  ghost predicate StepEndsAs(a: Active, s: Step, state: RunState) {
    match s
    case Release(_) => state == Completed
    case FailLaunch(_, _) => state == Failed
    case RejectArtifact => state == Failed
    case RecoverOnly => state == Interrupted
    case Close => state == Interrupted
    case Drain(queue, scan) => if a.bridge && queue != [] then DrainEndsAs(a, queue, scan, state) else state == Running
    case _ => state == Running
  }

  /** What is taken from the queue decides. */
  ghost predicate DrainEndsAs(a: Active, queue: seq<Event>, scan: Scan, state: RunState) {
    exists n :: TakenEndsAs(a, queue, scan, state, n)
  }

  predicate TakenEndsAs(a: Active, queue: seq<Event>, scan: Scan, state: RunState, n: nat) {
    IsTaken(a, queue, n) && IsStateAfter(a, queue, n, scan, state)
  }

  lemma AppendingKeepsState(r: Receipt, es: seq<Event>)
    ensures AppendedAll(r, es).state == r.state
  {
    AppendedAllGrows(r, es);
  }

  lemma DrainEnds(g: Agent, queue: seq<Event>, scan: Scan)
    requires g.active.Some? && g.active.value.receipt.state == Running
    ensures Drained(g, queue, scan).active.Some?
    ensures StepEndsAs(g.active.value, Drain(queue, scan), Drained(g, queue, scan).active.value.receipt.state)
  {
    var a := g.active.value;
    if a.bridge && queue != [] {
      var v := Drained(g, queue, scan).active.value.receipt;
      DrainMeaning(a.receipt, a, queue, scan);
      var n, entries :| DrainedBy(a.receipt, a, queue, scan, v, n, entries);
      assert TakenEndsAs(a, queue, scan, v.state, n);
    }
  }

  /** A step changes the state of a running command only to what it stands for. */
  lemma RunningEndsAs(w: World, s: Step)
    requires Enabled(w, s) && w.agent.active.Some? && w.agent.active.value.receipt.state == Running
    requires Next(w, s).agent.active.Some?
    ensures StepEndsAs(w.agent.active.value, s, Next(w, s).agent.active.value.receipt.state)
  {
    var r := w.agent.active.value.receipt;
    match s
    case Drain(queue, scan) => DrainEnds(w.agent, queue, scan);
    case Launch(notices) => AppendingKeepsState(r, notices);
    case _ =>
  }

  /** A command that is over: on disk, and with its final state. */
  predicate IsEnded(g: Agent, c: Id, state: RunState) { c in g.disk && g.disk[c].state == state && state != Running }

  lemma OtherStays(g: Agent, r: Receipt, c: Id, state: RunState)
    requires IsEnded(g, c, state) && g.active.Some?
    requires c == g.active.value.command ==> r.state == state || r.state == Failed
    ensures IsEnded(Saved(g, r), c, state) || IsEnded(Saved(g, r), c, Failed)
  {
  }

  /** What memory holds of a command that is over is what is on disk. */
  lemma EndedInMemory(w: World, c: Id, state: RunState)
    requires Inv(w) && IsEnded(w.agent, c, state) && w.agent.active.Some? && w.agent.active.value.command == c
    ensures w.agent.active.value.receipt == w.agent.disk[c] && !w.agent.active.value.launching
  {
    var d, r, m := ActiveCommand(w);
  }

  predicate StaysEnded(g: Agent, c: Id, state: RunState) { IsEnded(g, c, state) || IsEnded(g, c, Failed) }

  lemma LaunchingLeavesEnded(w: World, s: Step, c: Id, state: RunState)
    requires Inv(w) && Enabled(w, s) && IsEnded(w.agent, c, state)
    requires s.RecoverOnly? || s.Release? || s.FailLaunch?
    ensures StaysEnded(Next(w, s).agent, c, state)
  {
    if w.agent.active.value.command == c {
      EndedInMemory(w, c, state);
    }
  }

  lemma StartingLeavesEnded(w: World, s: Step, c: Id, state: RunState)
    requires Inv(w) && Enabled(w, s) && IsEnded(w.agent, c, state)
    requires s.Create? || s.Resume? || s.Launch? || s.Send? || s.ServerReceives? || s.Crash?
    ensures StaysEnded(Next(w, s).agent, c, state)
  {
  }

  lemma SavingLeavesEnded(w: World, s: Step, c: Id, state: RunState)
    requires Inv(w) && Enabled(w, s) && IsEnded(w.agent, c, state)
    requires s.Upload? || s.RejectArtifact? || s.Acknowledge?
    ensures StaysEnded(Next(w, s).agent, c, state)
  {
    if w.agent.active.value.command == c {
      EndedInMemory(w, c, state);
    }
    match s
    case Upload(k) => OtherStays(w.agent, Uploaded(w.agent.active.value.receipt, k), c, state);
    case RejectArtifact => OtherStays(w.agent, Rejected(w.agent.active.value.receipt), c, state);
    case Acknowledge => OtherStays(w.agent, AcknowledgedReceipt(w.agent.active.value.receipt), c, state);
  }

  lemma PreparingLeavesEnded(w: World, c: Id, state: RunState)
    requires Inv(w) && Enabled(w, Prepare) && IsEnded(w.agent, c, state)
    ensures StaysEnded(Prepared(w.agent), c, state)
  {
    var r := w.agent.active.value.receipt;
    if w.agent.active.value.command == c {
      EndedInMemory(w, c, state);
    }
    OtherStays(w.agent, r.(pending := NextBody(r)), c, state);
  }

  lemma LosingLeavesEnded(w: World, c: Id, state: RunState)
    requires Inv(w) && w.agent.active.Some? && IsEnded(w.agent, c, state)
    ensures StaysEnded(AuthorityLost(w.agent), c, state) && StaysEnded(RetainedLocally(w.agent), c, state)
  {
    var r := w.agent.active.value.receipt;
    if w.agent.active.value.command == c {
      EndedInMemory(w, c, state);
    }
    OtherStays(w.agent, r.(authorityLost := true), c, state);
    OtherStays(w.agent, r.(pending := None), c, state);
  }

  lemma EndingLeavesEnded(w: World, s: Step, c: Id, state: RunState)
    requires Inv(w) && Enabled(w, s) && IsEnded(w.agent, c, state)
    requires s.Drain? || s.Close?
    ensures StaysEnded(Next(w, s).agent, c, state)
  {
    if w.agent.active.value.command == c {
      EndedInMemory(w, c, state);
    }
  }

  lemma StepLeavesEnded(w: World, s: Step, c: Id, state: RunState)
    requires Inv(w) && Enabled(w, s) && IsEnded(w.agent, c, state)
    ensures StaysEnded(Next(w, s).agent, c, state)
  {
    if s.RecoverOnly? || s.Release? || s.FailLaunch? {
      LaunchingLeavesEnded(w, s, c, state);
    } else if s.Upload? || s.RejectArtifact? || s.Acknowledge? {
      SavingLeavesEnded(w, s, c, state);
    } else if s.Prepare? {
      PreparingLeavesEnded(w, c, state);
    } else if s.LoseAuthority? || s.Retain? {
      LosingLeavesEnded(w, c, state);
    } else if s.Drain? || s.Close? {
      EndingLeavesEnded(w, s, c, state);
    } else {
      StartingLeavesEnded(w, s, c, state);
    }
  }

  /** A command that is over never runs again: its state stays, or turns to failed when an artifact is rejected. */
  lemma {:induction false} EndedStaysEnded(w: World, steps: seq<Step>, c: Id, state: RunState)
    requires Inv(w) && IsRun(w, steps) && IsEnded(w.agent, c, state)
    ensures StaysEnded(After(w, steps).agent, c, state)
    decreases |steps|
  {
    if steps != [] {
      StepKeeps(w, steps[0]);
      StepLeavesEnded(w, steps[0], c, state);
      if IsEnded(Next(w, steps[0]).agent, c, state) {
        EndedStaysEnded(Next(w, steps[0]), steps[1..], c, state);
      } else {
        EndedStaysEnded(Next(w, steps[0]), steps[1..], c, Failed);
      }
    }
  }
}

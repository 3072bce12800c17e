/**
 Whole runs of the bridge's threads (media/jupyter_kernel_bridge.py): the command loop, the shell, iopub and monitor
 threads and the interrupt timers interleave between critical sections and between the messages they emit.

 The channels may hand over any message at any time. A thread's `hand` holds the executions it has taken out of the
 table and not yet reported. `entered` records every execution ever entered.
 */
module KernelBridgeRun {
  import opened KernelBridge
  import opened Outcomes

  datatype Outcome = Answered(reply: Reply) | Aborted

  datatype Completion = Completion(id: Id, request: Request, outcome: Outcome)

  datatype Interrupt = Interrupt(id: Id, busy: bool)

  datatype Command =
    | Reading
    | Interrupting(ids: set<Id>)
    | FailingForRestart
    | Restarting
    | Stopping
    | FailingForStop
    | Exited

  datatype Worker = Top | Polling | Scheduling(id: Id) | Checking(id: Id) | Emitting

  datatype Monitor = Waiting | Looking | Failing | Ended

  datatype World = World(t: Table, command: Command, shell: Worker, iopub: Worker, monitor: Monitor,
                         commandHand: map<Id, Entry>, shellHand: map<Id, Entry>, iopubHand: map<Id, Entry>,
                         monitorHand: map<Id, Entry>, timers: multiset<Id>, stop: bool, paused: bool,
                         completions: seq<Completion>, interrupts: seq<Interrupt>, entered: map<Id, Request>,
                         used: set<Id>)

  /** The command loop outside restart and shutdown. */
  datatype CommandEvent =
    | Execute(id: Id, request: Request)
    | Ask(id: Id, request: Request)
    | AskInterrupt
    | CommandSchedules(id: Id)
    | InterruptAsked

  /** The command loop during restart and shutdown. */
  datatype LifecycleEvent = Restart | CommandEmits(id: Id) | Pause | Restarted | Shutdown | FailForStop | Exit

  datatype ShellEvent =
    | ShellPolls
    | ShellReceives(id: Id, isReply: bool, reply: Reply)
    | ShellChecks
    | ShellEmits(id: Id)

  datatype IopubEvent =
    | IopubPolls
    | IopubReceives(id: Id, status: Status)
    | IopubSchedules
    | IopubChecks
    | IopubEmits(id: Id)

  datatype MonitorEvent = MonitorLooks | KernelAlive | KernelDead | MonitorEnds | MonitorEmits(id: Id) | MonitorStops

  datatype Event =
    | OfCommand(c: CommandEvent)
    | OfLifecycle(l: LifecycleEvent)
    | OfShell(s: ShellEvent)
    | OfIopub(i: IopubEvent)
    | OfMonitor(m: MonitorEvent)
    | TimerFires(id: Id, kernelOk: bool)

  /** The lifecycle lock is held by a restart or by the monitor's look at the kernel. */
  predicate LifecycleFree(w: World) {
    !w.command.FailingForRestart? && !w.command.Restarting? && !w.monitor.Looking? && !w.monitor.Failing?
  }

  predicate CommandEnabled(w: World, e: CommandEvent) {
    match e
    case Execute(id, _) => w.command.Reading? && id !in w.used && |w.t.pending| < MaxPendingExecutions
    case Ask(id, _) => w.command.Reading? && id !in w.used && |w.t.auxiliary| < MaxPendingAuxiliary
    case AskInterrupt => w.command.Reading?
    case CommandSchedules(id) => w.command.Interrupting? && id in w.command.ids
    case InterruptAsked => w.command == Interrupting({})
  }

  predicate LifecycleEnabled(w: World, e: LifecycleEvent) {
    match e
    case Restart => w.command.Reading? && LifecycleFree(w)
    case CommandEmits(id) => id in w.commandHand
    case Pause => w.command.FailingForRestart? && w.commandHand == map[]
    case Restarted => w.command.Restarting?
    case Shutdown => w.command.Reading?
    case FailForStop => w.command.Stopping?
    case Exit => w.command.FailingForStop? && w.commandHand == map[]
  }

  predicate ShellEnabled(w: World, e: ShellEvent) {
    match e
    case ShellPolls => w.shell.Top? && !w.stop && !w.paused
    case ShellReceives(_, _, _) => w.shell.Polling?
    case ShellChecks => w.shell.Checking?
    case ShellEmits(id) => id in w.shellHand
  }

  predicate IopubEnabled(w: World, e: IopubEvent) {
    match e
    case IopubPolls => w.iopub.Top? && !w.stop && !w.paused
    case IopubReceives(_, _) => w.iopub.Polling?
    case IopubSchedules => w.iopub.Scheduling?
    case IopubChecks => w.iopub.Checking?
    case IopubEmits(id) => id in w.iopubHand
  }

  predicate MonitorEnabled(w: World, e: MonitorEvent) {
    match e
    case MonitorLooks => w.monitor.Waiting? && LifecycleFree(w)
    case KernelAlive => w.monitor.Looking?
    case KernelDead => w.monitor.Looking?
    case MonitorEnds => w.stop && (w.monitor.Waiting? || w.monitor.Looking?)
    case MonitorEmits(id) => id in w.monitorHand
    case MonitorStops => w.monitor.Failing? && w.monitorHand == map[]
  }

  /** When the command loop has returned, the process is gone and with it every other thread. */
  predicate Enabled(w: World, e: Event) {
    !w.command.Exited? &&
    match e
    case OfCommand(c) => CommandEnabled(w, c)
    case OfLifecycle(l) => LifecycleEnabled(w, l)
    case OfShell(s) => ShellEnabled(w, s)
    case OfIopub(i) => IopubEnabled(w, i)
    case OfMonitor(m) => MonitorEnabled(w, m)
    case TimerFires(id, _) => id in w.timers
  }

  function Report(e: Entry): Outcome { if e.reply.Some? && e.idle then Answered(e.reply.value) else Aborted }

  function Told(w: World, id: Id, e: Entry, outcome: Outcome): World {
    w.(completions := w.completions + [Completion(id, e.request, outcome)])
  }

  function AfterExecute(w: World, id: Id, request: Request): World {
    w.(t := Entered(w.t, id, request), used := w.used + {id}, entered := w.entered[id := request])
  }

  function AfterAsk(w: World, id: Id, request: Request): World {
    w.(t := Asked(w.t, id, request), used := w.used + {id})
  }

  function AfterSchedule(w: World, id: Id): World {
    w.(t := Scheduled(w.t, id), timers := if MaySchedule(w.t, id) then w.timers + multiset{id} else w.timers)
  }

  /** Everything pending moves into one thread's hand. */
  function Emptied(w: World): World { w.(t := Table(map[], map[])) }

  function AfterRestart(w: World): World {
    Emptied(w).(command := FailingForRestart, commandHand := w.t.pending)
  }

  function AfterFailForStop(w: World): World {
    Emptied(w).(command := FailingForStop, commandHand := w.t.pending)
  }

  function AfterKernelDead(w: World): World {
    Emptied(w).(monitor := Failing, monitorHand := w.t.pending)
  }

  function AfterShellReceives(w: World, id: Id, isReply: bool, reply: Reply): World {
    w.(t := Replied(w.t, id, isReply, reply),
       shell := if id !in w.t.auxiliary && id in w.t.pending && isReply then Checking(id) else Top)
  }

  function AfterShellChecks(w: World): World
    requires w.shell.Checking?
  {
    if IsReady(w.t, w.shell.id) then
      w.(t := Taken(w.t, w.shell.id), shellHand := map[w.shell.id := w.t.pending[w.shell.id]], shell := Emitting)
    else w.(shell := Top)
  }

  function AfterIopubReceives(w: World, id: Id, status: Status): World {
    w.(t := StatusSeen(w.t, id, status),
       iopub := if status.IdleStatus? then Checking(id)
                else if status.Busy? && id in w.t.pending && w.t.pending[id].requested
                        && !w.t.pending[id].delivered then
                  Scheduling(id)
                else Top)
  }

  function AfterIopubChecks(w: World): World
    requires w.iopub.Checking?
  {
    if IsReady(w.t, w.iopub.id) then
      w.(t := Taken(w.t, w.iopub.id), iopubHand := map[w.iopub.id := w.t.pending[w.iopub.id]], iopub := Emitting)
    else w.(iopub := Top)
  }

  predicate MayFire(w: World, id: Id) { id in w.t.pending && w.t.pending[id].busy && !w.stop && !w.paused }

  function AfterAttempt(w: World, id: Id, kernelOk: bool): World
    requires id in w.t.pending
  {
    w.(t := Delivered(w.t, id, kernelOk),
       interrupts := if kernelOk then w.interrupts + [Interrupt(id, w.t.pending[id].busy)] else w.interrupts)
  }

  function WithoutTimer(w: World, id: Id): World { w.(timers := w.timers - multiset{id}) }

  function AfterFire(w: World, id: Id, kernelOk: bool): World {
    if MayFire(w, id) then AfterAttempt(WithoutTimer(w, id), id, kernelOk) else WithoutTimer(w, id)
  }

  function AfterCommandEmits(w: World, id: Id): World
    requires id in w.commandHand
  {
    Told(w, id, w.commandHand[id], Aborted).(commandHand := w.commandHand - {id})
  }

  function AfterShellEmits(w: World, id: Id): World
    requires id in w.shellHand
  {
    Told(w, id, w.shellHand[id], Report(w.shellHand[id])).(shellHand := w.shellHand - {id}, shell := Top)
  }

  function AfterIopubEmits(w: World, id: Id): World
    requires id in w.iopubHand
  {
    Told(w, id, w.iopubHand[id], Report(w.iopubHand[id])).(iopubHand := w.iopubHand - {id}, iopub := Top)
  }

  function AfterMonitorEmits(w: World, id: Id): World
    requires id in w.monitorHand
  {
    Told(w, id, w.monitorHand[id], Aborted).(monitorHand := w.monitorHand - {id})
  }

  function AfterAskInterrupt(w: World): World {
    w.(t := Requested(w.t), command := Interrupting(set id | id in w.t.pending && Interruptible(w.t, id)))
  }

  function CommandNext(w: World, e: CommandEvent): World
    requires CommandEnabled(w, e)
  {
    match e
    case Execute(id, request) => AfterExecute(w, id, request)
    case Ask(id, request) => AfterAsk(w, id, request)
    case AskInterrupt => AfterAskInterrupt(w)
    case CommandSchedules(id) => AfterSchedule(w, id).(command := Interrupting(w.command.ids - {id}))
    case InterruptAsked => w.(command := Reading)
  }

  function LifecycleNext(w: World, e: LifecycleEvent): World
    requires LifecycleEnabled(w, e)
  {
    match e
    case Restart => AfterRestart(w)
    case CommandEmits(id) => AfterCommandEmits(w, id)
    case Pause => w.(command := Restarting, paused := true)
    case Restarted => w.(command := Reading, paused := false)
    case Shutdown => w.(command := Stopping, stop := true)
    case FailForStop => AfterFailForStop(w)
    case Exit => w.(command := Exited)
  }

  function ShellNext(w: World, e: ShellEvent): World
    requires ShellEnabled(w, e)
  {
    match e
    case ShellPolls => w.(shell := Polling)
    case ShellReceives(id, isReply, reply) => AfterShellReceives(w, id, isReply, reply)
    case ShellChecks => AfterShellChecks(w)
    case ShellEmits(id) => AfterShellEmits(w, id)
  }

  function IopubNext(w: World, e: IopubEvent): World
    requires IopubEnabled(w, e)
  {
    match e
    case IopubPolls => w.(iopub := Polling)
    case IopubReceives(id, status) => AfterIopubReceives(w, id, status)
    case IopubSchedules => AfterSchedule(w, w.iopub.id).(iopub := Top)
    case IopubChecks => AfterIopubChecks(w)
    case IopubEmits(id) => AfterIopubEmits(w, id)
  }

  function MonitorNext(w: World, e: MonitorEvent): World
    requires MonitorEnabled(w, e)
  {
    match e
    case MonitorLooks => w.(monitor := Looking)
    case KernelAlive => w.(monitor := Waiting)
    case KernelDead => AfterKernelDead(w)
    case MonitorEnds => w.(monitor := Ended)
    case MonitorEmits(id) => AfterMonitorEmits(w, id)
    case MonitorStops => w.(monitor := Ended, stop := true)
  }

  function Next(w: World, e: Event): World
    requires Enabled(w, e)
  {
    match e
    case OfCommand(c) => CommandNext(w, c)
    case OfLifecycle(l) => LifecycleNext(w, l)
    case OfShell(s) => ShellNext(w, s)
    case OfIopub(i) => IopubNext(w, i)
    case OfMonitor(m) => MonitorNext(w, m)
    case TimerFires(id, kernelOk) => AfterFire(w, id, kernelOk)
  }

  predicate IsRun(w: World, events: seq<Event>)
    decreases |events|
  {
    events == [] || (Enabled(w, events[0]) && IsRun(Next(w, events[0]), events[1..]))
  }

  function Ran(w: World, events: seq<Event>): World
    requires IsRun(w, events)
    decreases |events|
  {
    if events == [] then w else Ran(Next(w, events[0]), events[1..])
  }

  const Start := World(Table(map[], map[]), Reading, Top, Top, Waiting, map[], map[], map[], map[], multiset{}, false,
                       false, [], [], map[], {})

  // ----- Every execution is in exactly one place -----

  function Times(completions: seq<Completion>, id: Id): nat {
    if completions == [] then 0 else
      Times(completions[..|completions| - 1], id) + if completions[|completions| - 1].id == id then 1 else 0
  }

  lemma TimesAppend(completions: seq<Completion>, c: Completion, id: Id)
    ensures Times(completions + [c], id) == Times(completions, id) + if c.id == id then 1 else 0
  {
    assert (completions + [c])[..|completions|] == completions;
  }

  function Held(hand: map<Id, Entry>, id: Id): nat { if id in hand then 1 else 0 }

  function Hands(w: World, id: Id): nat {
    Held(w.commandHand, id) + Held(w.shellHand, id) + Held(w.iopubHand, id) + Held(w.monitorHand, id)
  }

  /** In how many places an execution is: pending, in a thread's hand, or reported. */
  function Places(w: World, id: Id): nat { Held(w.t.pending, id) + Hands(w, id) + Times(w.completions, id) }

  ghost predicate Conserved(w: World) {
    forall id :: Places(w, id) == if id in w.entered then 1 else 0
  }

  predicate Knows(entered: map<Id, Request>, table: map<Id, Entry>) {
    forall id :: id in table ==> id in entered && table[id].request == entered[id]
  }

  predicate IsSingle(hand: map<Id, Entry>) { forall a, b :: a in hand && b in hand ==> a == b }

  predicate IsFinished(e: Entry) { e.reply.Some? && e.idle }

  /** Hands agree with the threads that hold them. */
  predicate HandsOK(w: World) {
    && (w.commandHand != map[] ==> w.command.FailingForRestart? || w.command.FailingForStop?)
    && (w.monitorHand != map[] ==> w.monitor.Failing?)
    && (w.shellHand != map[] ==> w.shell.Emitting?) && IsSingle(w.shellHand)
    && (w.iopubHand != map[] ==> w.iopub.Emitting?) && IsSingle(w.iopubHand)
    && (forall id :: id in w.shellHand ==> IsFinished(w.shellHand[id]))
    && (forall id :: id in w.iopubHand ==> IsFinished(w.iopubHand[id]))
    && (w.command.FailingForStop? || w.command.Exited? ==> w.t.pending == map[])
    && (w.command.Exited? ==> w.commandHand == map[])
  }

  ghost predicate KnownOK(w: World) {
    && Knows(w.entered, w.t.pending) && Knows(w.entered, w.commandHand) && Knows(w.entered, w.shellHand)
    && Knows(w.entered, w.iopubHand) && Knows(w.entered, w.monitorHand)
    && (forall c :: c in w.completions ==> c.id in w.entered && c.request == w.entered[c.id])
    && w.entered.Keys <= w.used && w.t.auxiliary.Keys <= w.used && w.entered.Keys !! w.t.auxiliary.Keys
  }

  /** A finished execution that is still pending is about to be taken out. */
  ghost predicate FinishedOK(w: World) {
    forall id :: IsReady(w.t, id) ==> w.shell == Checking(id) || w.iopub == Checking(id)
  }

  function Interruptions(interrupts: seq<Interrupt>, id: Id): nat {
    if interrupts == [] then 0 else
      Interruptions(interrupts[..|interrupts| - 1], id) + if interrupts[|interrupts| - 1].id == id then 1 else 0
  }

  lemma InterruptionsAppend(interrupts: seq<Interrupt>, i: Interrupt, id: Id)
    ensures Interruptions(interrupts + [i], id) == Interruptions(interrupts, id) + if i.id == id then 1 else 0
  {
    assert (interrupts + [i])[..|interrupts|] == interrupts;
  }

  /** A pending execution has at most one timer, none once it was interrupted, and was interrupted at most once. */
  predicate InterruptOK(w: World, id: Id) {
    && Interruptions(w.interrupts, id) <= 1
    && (id !in w.used ==> Interruptions(w.interrupts, id) == 0 && id !in w.timers)
    && (id in w.t.pending && w.t.pending[id].delivered ==> id !in w.timers)
    && (id in w.t.pending && !w.t.pending[id].delivered ==> Interruptions(w.interrupts, id) == 0 && w.timers[id] <= 1)
    && (id in w.t.pending && id in w.timers ==> w.t.pending[id].scheduled)
  }

  ghost predicate InterruptsOK(w: World) {
    && (forall id :: InterruptOK(w, id))
    && (forall i :: i in w.interrupts ==> i.busy)
  }

  ghost predicate PlacesOK(w: World) { Conserved(w) && HandsOK(w) && KnownOK(w) }

  ghost predicate Inv(w: World) { PlacesOK(w) && FinishedOK(w) && InterruptsOK(w) }

  // ----- Conservation -----

  lemma SamePlaces(w: World, v: World)
    requires Conserved(w) && v.t.pending.Keys == w.t.pending.Keys && v.completions == w.completions
    requires v.commandHand == w.commandHand && v.shellHand == w.shellHand && v.iopubHand == w.iopubHand
    requires v.monitorHand == w.monitorHand && v.entered == w.entered
    ensures Conserved(v)
  {
    forall id ensures Places(v, id) == if id in v.entered then 1 else 0 {
      assert Places(v, id) == Places(w, id);
    }
  }

  lemma EnteringConserves(w: World, id: Id, request: Request)
    requires PlacesOK(w) && id !in w.used
    ensures Conserved(AfterExecute(w, id, request))
  {
    var v := AfterExecute(w, id, request);
    assert Places(w, id) == 0;
    forall other ensures Places(v, other) == if other in v.entered then 1 else 0 {
      assert other != id ==> Places(v, other) == Places(w, other);
    }
  }

  /** Taking an execution out of one place and reporting it. */
  lemma TellingConserves(w: World, v: World, id: Id, c: Completion)
    requires Conserved(w) && v.completions == w.completions + [c] && c.id == id && v.entered == w.entered
    requires v.t == w.t
    requires forall other :: Hands(v, other) == Hands(w, other) - if other == id then 1 else 0
    ensures Conserved(v)
  {
    forall other ensures Places(v, other) == if other in v.entered then 1 else 0 {
      TimesAppend(w.completions, c, other);
      assert Places(v, other) == Places(w, other);
    }
  }

  /** Moving executions from the table into an empty hand. */
  lemma TakingConserves(w: World, v: World)
    requires Conserved(w) && v.completions == w.completions && v.entered == w.entered
    requires forall id :: Held(v.t.pending, id) + Hands(v, id) == Held(w.t.pending, id) + Hands(w, id)
    ensures Conserved(v)
  {
    forall id ensures Places(v, id) == if id in v.entered then 1 else 0 {
      assert Places(v, id) == Places(w, id);
    }
  }

  /** Changing the progress of one pending execution moves nothing. */
  lemma Touching(w: World, v: World, id: Id, e: Entry)
    requires PlacesOK(w) && id in w.t.pending && e.request == w.t.pending[id].request
    requires v.t.pending == w.t.pending[id := e] && v.t.auxiliary.Keys <= w.t.auxiliary.Keys
    requires Carried(w, v)
    ensures PlacesOK(v)
  {
    SamePlaces(w, v);
  }

  lemma Leaving(w: World, v: World)
    requires PlacesOK(w) && v.t.pending == w.t.pending && v.t.auxiliary.Keys <= w.t.auxiliary.Keys && Carried(w, v)
    ensures PlacesOK(v)
  {
    SamePlaces(w, v);
  }

  /** The same hands, reports and records, and threads that may hold those hands. */
  predicate Carried(w: World, v: World) {
    && v.commandHand == w.commandHand && v.shellHand == w.shellHand && v.iopubHand == w.iopubHand
    && v.monitorHand == w.monitorHand && v.completions == w.completions && v.entered == w.entered && v.used == w.used
    && v.monitor == w.monitor
    && (v.shell == w.shell || w.shellHand == map[]) && (v.iopub == w.iopub || w.iopubHand == map[])
    && (v.command == w.command || (!v.command.Exited? && !v.command.FailingForStop? && w.commandHand == map[]))
  }

  lemma ShellReceivesKeeps(w: World, id: Id, isReply: bool, reply: Reply)
    requires PlacesOK(w) && w.shell.Polling?
    ensures PlacesOK(AfterShellReceives(w, id, isReply, reply))
  {
    var v := AfterShellReceives(w, id, isReply, reply);
    if id in w.t.pending && isReply {
      Touching(w, v, id, w.t.pending[id].(reply := Some(reply)));
    } else {
      Leaving(w, v);
    }
  }

  lemma IopubReceivesKeeps(w: World, id: Id, status: Status)
    requires PlacesOK(w) && w.iopub.Polling?
    ensures PlacesOK(AfterIopubReceives(w, id, status))
  {
    var v := AfterIopubReceives(w, id, status);
    if id in w.t.pending {
      Touching(w, v, id, WithStatus(w.t.pending[id], status));
    } else {
      Leaving(w, v);
    }
  }

  lemma TakingOne(w: World, v: World, id: Id)
    requires Conserved(w) && id in w.t.pending && v.t.pending == w.t.pending - {id}
    requires v.completions == w.completions && v.entered == w.entered
    requires forall other :: Hands(v, other) == Hands(w, other) + if other == id then 1 else 0
    ensures Conserved(v)
  {
    TakingConserves(w, v);
  }

  lemma TakenIsKnown(entered: map<Id, Request>, table: map<Id, Entry>, id: Id)
    requires Knows(entered, table) && id in table
    ensures Knows(entered, map[id := table[id]]) && Knows(entered, table - {id})
  {
  }

  lemma ShellTakes(w: World)
    requires PlacesOK(w) && w.shell.Checking? && IsReady(w.t, w.shell.id)
    ensures PlacesOK(AfterShellChecks(w))
  {
    var v := AfterShellChecks(w);
    TakingOne(w, v, w.shell.id);
    TakenIsKnown(w.entered, w.t.pending, w.shell.id);
  }

  lemma ShellChecksKeeps(w: World)
    requires PlacesOK(w) && w.shell.Checking?
    ensures PlacesOK(AfterShellChecks(w))
  {
    if IsReady(w.t, w.shell.id) {
      ShellTakes(w);
    } else {
      Leaving(w, AfterShellChecks(w));
    }
  }

  lemma IopubTakes(w: World)
    requires PlacesOK(w) && w.iopub.Checking? && IsReady(w.t, w.iopub.id)
    ensures PlacesOK(AfterIopubChecks(w))
  {
    var v := AfterIopubChecks(w);
    TakingOne(w, v, w.iopub.id);
    TakenIsKnown(w.entered, w.t.pending, w.iopub.id);
  }

  lemma IopubChecksKeeps(w: World)
    requires PlacesOK(w) && w.iopub.Checking?
    ensures PlacesOK(AfterIopubChecks(w))
  {
    if IsReady(w.t, w.iopub.id) {
      IopubTakes(w);
    } else {
      Leaving(w, AfterIopubChecks(w));
    }
  }

  lemma ShellEmitsKeeps(w: World, id: Id)
    requires PlacesOK(w) && id in w.shellHand
    ensures PlacesOK(AfterShellEmits(w, id))
  {
    var c := Completion(id, w.shellHand[id].request, Report(w.shellHand[id]));
    assert AfterShellEmits(w, id).completions == w.completions + [c];
    TellingConserves(w, AfterShellEmits(w, id), id, c);
  }

  lemma IopubEmitsKeeps(w: World, id: Id)
    requires PlacesOK(w) && id in w.iopubHand
    ensures PlacesOK(AfterIopubEmits(w, id))
  {
    var c := Completion(id, w.iopubHand[id].request, Report(w.iopubHand[id]));
    assert AfterIopubEmits(w, id).completions == w.completions + [c];
    TellingConserves(w, AfterIopubEmits(w, id), id, c);
  }

  lemma ScheduleKeeps(w: World, id: Id, v: World)
    requires PlacesOK(w) && v.t == Scheduled(w.t, id) && Carried(w, v)
    ensures PlacesOK(v)
  {
    if MaySchedule(w.t, id) {
      Touching(w, v, id, w.t.pending[id].(scheduled := true));
    } else {
      Leaving(w, v);
    }
  }

  lemma AttemptKeeps(w: World, v: World, id: Id, kernelOk: bool)
    requires PlacesOK(w) && id in w.t.pending && v.t == Delivered(w.t, id, kernelOk) && Carried(w, v)
    ensures PlacesOK(v)
  {
    var e := w.t.pending[id];
    Touching(w, v, id, if kernelOk then e.(delivered := true) else e.(scheduled := false));
  }

  lemma FireKeeps(w: World, id: Id, kernelOk: bool)
    requires PlacesOK(w)
    ensures PlacesOK(AfterFire(w, id, kernelOk))
  {
    if MayFire(w, id) {
      AttemptKeeps(w, AfterFire(w, id, kernelOk), id, kernelOk);
    } else {
      Leaving(w, AfterFire(w, id, kernelOk));
    }
  }

  lemma ExecuteKeeps(w: World, id: Id, request: Request)
    requires PlacesOK(w) && CommandEnabled(w, Execute(id, request))
    ensures PlacesOK(AfterExecute(w, id, request))
  {
    EnteringConserves(w, id, request);
    EnteringIsKnown(w, id, request);
  }

  lemma EnteringIsKnown(w: World, id: Id, request: Request)
    requires KnownOK(w) && id !in w.used
    ensures KnownOK(AfterExecute(w, id, request))
  {
    KnowsMore(w.entered, w.t.pending, id, request);
    KnowsMore(w.entered, w.commandHand, id, request);
    KnowsMore(w.entered, w.shellHand, id, request);
    KnowsMore(w.entered, w.iopubHand, id, request);
    KnowsMore(w.entered, w.monitorHand, id, request);
  }

  lemma KnowsMore(entered: map<Id, Request>, table: map<Id, Entry>, id: Id, request: Request)
    requires Knows(entered, table) && id !in entered
    ensures Knows(entered[id := request], table)
  {
  }

  lemma AskKeeps(w: World, id: Id, request: Request)
    requires PlacesOK(w) && CommandEnabled(w, Ask(id, request))
    ensures PlacesOK(AfterAsk(w, id, request))
  {
    SamePlaces(w, AfterAsk(w, id, request));
  }

  lemma AskInterruptKeeps(w: World)
    requires PlacesOK(w) && w.command.Reading?
    ensures PlacesOK(AfterAskInterrupt(w))
  {
    SamePlaces(w, AfterAskInterrupt(w));
  }

  lemma CommandKeeps(w: World, e: CommandEvent)
    requires PlacesOK(w) && CommandEnabled(w, e)
    ensures PlacesOK(CommandNext(w, e))
  {
    match e
    case Execute(id, request) => ExecuteKeeps(w, id, request);
    case Ask(id, request) => AskKeeps(w, id, request);
    case AskInterrupt => AskInterruptKeeps(w);
    case CommandSchedules(id) => ScheduleKeeps(w, id, CommandNext(w, e));
    case InterruptAsked => Leaving(w, CommandNext(w, e));
  }

  lemma FailingKeeps(w: World)
    requires PlacesOK(w)
    ensures w.command.Reading? ==> PlacesOK(AfterRestart(w))
    ensures w.command.Stopping? ==> PlacesOK(AfterFailForStop(w))
  {
    if w.command.Reading? {
      TakingConserves(w, AfterRestart(w));
    } else if w.command.Stopping? {
      TakingConserves(w, AfterFailForStop(w));
    }
  }

  lemma CommandEmitsKeeps(w: World, id: Id)
    requires PlacesOK(w) && id in w.commandHand
    ensures PlacesOK(AfterCommandEmits(w, id))
  {
    var c := Completion(id, w.commandHand[id].request, Aborted);
    assert AfterCommandEmits(w, id).completions == w.completions + [c];
    TellingConserves(w, AfterCommandEmits(w, id), id, c);
  }

  lemma LifecycleKeeps(w: World, e: LifecycleEvent)
    requires PlacesOK(w) && LifecycleEnabled(w, e)
    ensures PlacesOK(LifecycleNext(w, e))
  {
    match e
    case Restart => FailingKeeps(w);
    case FailForStop => FailingKeeps(w);
    case CommandEmits(id) => CommandEmitsKeeps(w, id);
    case _ => SamePlaces(w, LifecycleNext(w, e));
  }

  lemma ShellKeeps(w: World, e: ShellEvent)
    requires PlacesOK(w) && ShellEnabled(w, e)
    ensures PlacesOK(ShellNext(w, e))
  {
    match e
    case ShellPolls => Leaving(w, ShellNext(w, e));
    case ShellReceives(id, isReply, reply) => ShellReceivesKeeps(w, id, isReply, reply);
    case ShellChecks => ShellChecksKeeps(w);
    case ShellEmits(id) => ShellEmitsKeeps(w, id);
  }

  lemma IopubKeeps(w: World, e: IopubEvent)
    requires PlacesOK(w) && IopubEnabled(w, e)
    ensures PlacesOK(IopubNext(w, e))
  {
    match e
    case IopubPolls => Leaving(w, IopubNext(w, e));
    case IopubReceives(id, status) => IopubReceivesKeeps(w, id, status);
    case IopubSchedules => ScheduleKeeps(w, w.iopub.id, IopubNext(w, e));
    case IopubChecks => IopubChecksKeeps(w);
    case IopubEmits(id) => IopubEmitsKeeps(w, id);
  }

  lemma KernelDeadKeeps(w: World)
    requires PlacesOK(w) && w.monitor.Looking?
    ensures PlacesOK(AfterKernelDead(w))
  {
    TakingConserves(w, AfterKernelDead(w));
  }

  lemma MonitorEmitsKeeps(w: World, id: Id)
    requires PlacesOK(w) && id in w.monitorHand
    ensures PlacesOK(AfterMonitorEmits(w, id))
  {
    var c := Completion(id, w.monitorHand[id].request, Aborted);
    assert AfterMonitorEmits(w, id).completions == w.completions + [c];
    TellingConserves(w, AfterMonitorEmits(w, id), id, c);
  }

  lemma MonitorKeeps(w: World, e: MonitorEvent)
    requires PlacesOK(w) && MonitorEnabled(w, e)
    ensures PlacesOK(MonitorNext(w, e))
  {
    match e
    case KernelDead => KernelDeadKeeps(w);
    case MonitorEmits(id) => MonitorEmitsKeeps(w, id);
    case _ => SamePlaces(w, MonitorNext(w, e));
  }

  lemma StepKeepsPlaces(w: World, e: Event)
    requires PlacesOK(w) && Enabled(w, e)
    ensures PlacesOK(Next(w, e))
  {
    match e
    case OfCommand(c) => CommandKeeps(w, c);
    case OfLifecycle(l) => LifecycleKeeps(w, l);
    case OfShell(s) => ShellKeeps(w, s);
    case OfIopub(i) => IopubKeeps(w, i);
    case OfMonitor(m) => MonitorKeeps(w, m);
    case TimerFires(id, kernelOk) => FireKeeps(w, id, kernelOk);
  }

  // ----- Finished executions are taken out -----

  /** Nothing becomes finished, and threads that are about to look stay so. */
  lemma StillFinished(w: World, v: World)
    requires FinishedOK(w) && forall id :: IsReady(v.t, id) ==> IsReady(w.t, id)
    requires forall id :: IsReady(v.t, id) && w.shell == Checking(id) ==> v.shell == Checking(id)
    requires forall id :: IsReady(v.t, id) && w.iopub == Checking(id) ==> v.iopub == Checking(id)
    ensures FinishedOK(v)
  {
  }

  lemma CommandFinishes(w: World, e: CommandEvent)
    requires FinishedOK(w) && CommandEnabled(w, e)
    ensures FinishedOK(CommandNext(w, e))
  {
    StillFinished(w, CommandNext(w, e));
  }

  lemma LifecycleFinishes(w: World, e: LifecycleEvent)
    requires FinishedOK(w) && LifecycleEnabled(w, e)
    ensures FinishedOK(LifecycleNext(w, e))
  {
    StillFinished(w, LifecycleNext(w, e));
  }

  lemma ShellReceivesFinishes(w: World, id: Id, isReply: bool, reply: Reply)
    requires HandsOK(w) && KnownOK(w) && FinishedOK(w) && w.shell.Polling?
    ensures FinishedOK(AfterShellReceives(w, id, isReply, reply))
  {
    var v := AfterShellReceives(w, id, isReply, reply);
    forall other | IsReady(v.t, other) ensures v.shell == Checking(other) || v.iopub == Checking(other) {
      if other != id || !isReply {
        assert IsReady(w.t, other);
      } else {
        assert id in w.entered;
      }
    }
  }

  lemma ShellChecksFinishes(w: World)
    requires FinishedOK(w) && w.shell.Checking?
    ensures FinishedOK(AfterShellChecks(w))
  {
    var v := AfterShellChecks(w);
    forall id | IsReady(v.t, id) ensures v.iopub == Checking(id) {
      assert IsReady(w.t, id) && id != w.shell.id;
    }
  }

  lemma ShellFinishes(w: World, e: ShellEvent)
    requires HandsOK(w) && KnownOK(w) && FinishedOK(w) && ShellEnabled(w, e)
    ensures FinishedOK(ShellNext(w, e))
  {
    match e
    case ShellReceives(id, isReply, reply) => ShellReceivesFinishes(w, id, isReply, reply);
    case ShellChecks => ShellChecksFinishes(w);
    case _ => StillFinished(w, ShellNext(w, e));
  }

  lemma IopubReceivesFinishes(w: World, id: Id, status: Status)
    requires FinishedOK(w) && w.iopub.Polling?
    ensures FinishedOK(AfterIopubReceives(w, id, status))
  {
    var v := AfterIopubReceives(w, id, status);
    forall other | IsReady(v.t, other) ensures v.shell == Checking(other) || v.iopub == Checking(other) {
      assert other != id || !status.IdleStatus? ==> IsReady(w.t, other);
    }
  }

  lemma IopubChecksFinishes(w: World)
    requires FinishedOK(w) && w.iopub.Checking?
    ensures FinishedOK(AfterIopubChecks(w))
  {
    var v := AfterIopubChecks(w);
    forall id | IsReady(v.t, id) ensures v.shell == Checking(id) {
      assert IsReady(w.t, id) && id != w.iopub.id;
    }
  }

  lemma IopubFinishes(w: World, e: IopubEvent)
    requires HandsOK(w) && KnownOK(w) && FinishedOK(w) && IopubEnabled(w, e)
    ensures FinishedOK(IopubNext(w, e))
  {
    match e
    case IopubReceives(id, status) => IopubReceivesFinishes(w, id, status);
    case IopubChecks => IopubChecksFinishes(w);
    case _ => StillFinished(w, IopubNext(w, e));
  }

  lemma FireFinishes(w: World, id: Id, kernelOk: bool)
    requires FinishedOK(w)
    ensures FinishedOK(AfterFire(w, id, kernelOk))
  {
    var v := AfterFire(w, id, kernelOk);
    if MayFire(w, id) {
      assert v.t == Delivered(w.t, id, kernelOk);
    } else {
      assert v.t == w.t;
    }
    forall other | IsReady(v.t, other) ensures v.shell == Checking(other) || v.iopub == Checking(other) {
      assert IsReady(w.t, other);
    }
  }

  lemma MonitorFinishes(w: World, e: MonitorEvent)
    requires FinishedOK(w) && MonitorEnabled(w, e)
    ensures FinishedOK(MonitorNext(w, e))
  {
    StillFinished(w, MonitorNext(w, e));
  }

  lemma StepKeepsFinished(w: World, e: Event)
    requires Inv(w) && Enabled(w, e)
    ensures FinishedOK(Next(w, e))
  {
    match e
    case OfCommand(c) => CommandFinishes(w, c);
    case OfLifecycle(l) => LifecycleFinishes(w, l);
    case OfShell(s) => ShellFinishes(w, s);
    case OfIopub(i) => IopubFinishes(w, i);
    case OfMonitor(m) => MonitorFinishes(w, m);
    case TimerFires(id, kernelOk) => FireFinishes(w, id, kernelOk);
  }

  // ----- Interrupts -----

  predicate SameFlags(before: map<Id, Entry>, now: map<Id, Entry>) {
    forall id :: id in now ==> id in before && now[id].delivered == before[id].delivered
                               && now[id].scheduled == before[id].scheduled
  }

  lemma TakenKeepsFlags(t: Table, id: Id)
    requires id in t.pending
    ensures SameFlags(t.pending, Taken(t, id).pending)
  {
  }

  /** No timer is started, none fires, and what stays pending keeps its interrupt flags. */
  lemma SameInterrupts(w: World, v: World)
    requires InterruptsOK(w) && v.interrupts == w.interrupts && v.timers == w.timers && v.used == w.used
    requires SameFlags(w.t.pending, v.t.pending)
    ensures InterruptsOK(v)
  {
    forall id ensures InterruptOK(v, id) {
      assert InterruptOK(w, id);
    }
  }

  lemma FreshInterrupts(w: World, v: World, id: Id)
    requires InterruptsOK(w) && id !in w.used && v.interrupts == w.interrupts && v.timers == w.timers
    requires v.used == w.used + {id}
    requires forall other :: other in v.t.pending && other != id ==> (
        other in w.t.pending && v.t.pending[other] == w.t.pending[other])
    requires id in v.t.pending ==> !v.t.pending[id].delivered
    ensures InterruptsOK(v)
  {
    forall other ensures InterruptOK(v, other) {
      assert InterruptOK(w, other);
    }
  }

  lemma SchedulingKeepsInterrupts(w: World, id: Id, v: World)
    requires KnownOK(w) && InterruptsOK(w) && v.t == Scheduled(w.t, id) && v.timers == AfterSchedule(w, id).timers
    requires v.interrupts == w.interrupts && v.used == w.used
    ensures InterruptsOK(v)
  {
    forall other ensures InterruptOK(v, other) {
      assert InterruptOK(w, other);
    }
  }

  lemma TimerGone(w: World, id: Id)
    requires InterruptsOK(w)
    ensures InterruptsOK(WithoutTimer(w, id))
  {
    forall other ensures InterruptOK(WithoutTimer(w, id), other) {
      assert InterruptOK(w, other);
    }
  }

  lemma AttemptKeepsInterrupts(w: World, id: Id, kernelOk: bool)
    requires InterruptsOK(w) && MayFire(w, id) && id !in w.timers && id in w.used && !w.t.pending[id].delivered
    ensures InterruptsOK(AfterAttempt(w, id, kernelOk))
  {
    var v := AfterAttempt(w, id, kernelOk);
    forall other ensures InterruptOK(v, other) {
      assert InterruptOK(w, other);
      InterruptionsAppend(w.interrupts, Interrupt(id, true), other);
    }
  }

  lemma FiringKeepsInterrupts(w: World, id: Id, kernelOk: bool)
    requires InterruptsOK(w) && id in w.timers
    ensures InterruptsOK(AfterFire(w, id, kernelOk))
  {
    TimerGone(w, id);
    assert InterruptOK(w, id);
    if MayFire(w, id) {
      assert WithoutTimer(w, id).t == w.t && id !in WithoutTimer(w, id).timers;
      AttemptKeepsInterrupts(WithoutTimer(w, id), id, kernelOk);
    }
  }

  lemma CommandKeepsInterrupts(w: World, e: CommandEvent)
    requires KnownOK(w) && InterruptsOK(w) && CommandEnabled(w, e)
    ensures InterruptsOK(CommandNext(w, e))
  {
    match e
    case Execute(id, request) => FreshInterrupts(w, AfterExecute(w, id, request), id);
    case Ask(id, request) => FreshInterrupts(w, AfterAsk(w, id, request), id);
    case CommandSchedules(id) => SchedulingKeepsInterrupts(w, id, CommandNext(w, e));
    case _ => SameInterrupts(w, CommandNext(w, e));
  }

  lemma LifecycleKeepsInterrupts(w: World, e: LifecycleEvent)
    requires InterruptsOK(w) && LifecycleEnabled(w, e)
    ensures InterruptsOK(LifecycleNext(w, e))
  {
    SameInterrupts(w, LifecycleNext(w, e));
  }

  lemma ShellReceivesKeepsInterrupts(w: World, id: Id, isReply: bool, reply: Reply)
    requires InterruptsOK(w)
    ensures InterruptsOK(AfterShellReceives(w, id, isReply, reply))
  {
    SameInterrupts(w, AfterShellReceives(w, id, isReply, reply));
  }

  lemma ShellChecksKeepsInterrupts(w: World)
    requires InterruptsOK(w) && w.shell.Checking?
    ensures InterruptsOK(AfterShellChecks(w))
  {
    var v := AfterShellChecks(w);
    if IsReady(w.t, w.shell.id) {
      TakenKeepsFlags(w.t, w.shell.id);
      assert v.t == Taken(w.t, w.shell.id);
    } else {
      assert v.t == w.t;
    }
    SameInterrupts(w, v);
  }

  lemma ShellKeepsInterrupts(w: World, e: ShellEvent)
    requires InterruptsOK(w) && ShellEnabled(w, e)
    ensures InterruptsOK(ShellNext(w, e))
  {
    match e
    case ShellReceives(id, isReply, reply) => ShellReceivesKeepsInterrupts(w, id, isReply, reply);
    case ShellChecks => ShellChecksKeepsInterrupts(w);
    case ShellEmits(id) => SameInterrupts(w, AfterShellEmits(w, id));
    case ShellPolls => SameInterrupts(w, ShellNext(w, e));
  }

  lemma IopubReceivesKeepsInterrupts(w: World, id: Id, status: Status)
    requires InterruptsOK(w)
    ensures InterruptsOK(AfterIopubReceives(w, id, status))
  {
    SameInterrupts(w, AfterIopubReceives(w, id, status));
  }

  lemma IopubChecksKeepsInterrupts(w: World)
    requires InterruptsOK(w) && w.iopub.Checking?
    ensures InterruptsOK(AfterIopubChecks(w))
  {
    var v := AfterIopubChecks(w);
    if IsReady(w.t, w.iopub.id) {
      TakenKeepsFlags(w.t, w.iopub.id);
      assert v.t == Taken(w.t, w.iopub.id);
    } else {
      assert v.t == w.t;
    }
    SameInterrupts(w, v);
  }

  lemma IopubKeepsInterrupts(w: World, e: IopubEvent)
    requires KnownOK(w) && InterruptsOK(w) && IopubEnabled(w, e)
    ensures InterruptsOK(IopubNext(w, e))
  {
    match e
    case IopubSchedules => SchedulingKeepsInterrupts(w, w.iopub.id, IopubNext(w, e));
    case IopubReceives(id, status) => IopubReceivesKeepsInterrupts(w, id, status);
    case IopubChecks => IopubChecksKeepsInterrupts(w);
    case IopubEmits(id) => SameInterrupts(w, AfterIopubEmits(w, id));
    case IopubPolls => SameInterrupts(w, IopubNext(w, e));
  }

  lemma MonitorKeepsInterrupts(w: World, e: MonitorEvent)
    requires InterruptsOK(w) && MonitorEnabled(w, e)
    ensures InterruptsOK(MonitorNext(w, e))
  {
    SameInterrupts(w, MonitorNext(w, e));
  }

  lemma StepKeepsInterrupts(w: World, e: Event)
    requires Inv(w) && Enabled(w, e)
    ensures InterruptsOK(Next(w, e))
  {
    match e
    case OfCommand(c) => CommandKeepsInterrupts(w, c);
    case OfLifecycle(l) => LifecycleKeepsInterrupts(w, l);
    case OfShell(s) => ShellKeepsInterrupts(w, s);
    case OfIopub(i) => IopubKeepsInterrupts(w, i);
    case OfMonitor(m) => MonitorKeepsInterrupts(w, m);
    case TimerFires(id, kernelOk) => FiringKeepsInterrupts(w, id, kernelOk);
  }

  lemma StepKeeps(w: World, e: Event)
    requires Inv(w) && Enabled(w, e)
    ensures Inv(Next(w, e))
  {
    StepKeepsPlaces(w, e);
    StepKeepsFinished(w, e);
    StepKeepsInterrupts(w, e);
  }

  lemma StartOK()
    ensures Inv(Start)
  {
    forall id ensures Places(Start, id) == 0 && InterruptOK(Start, id) {
    }
  }

  lemma {:induction false} RunKeeps(w: World, events: seq<Event>)
    requires Inv(w) && IsRun(w, events)
    ensures Inv(Ran(w, events))
    decreases |events|
  {
    if events != [] {
      StepKeeps(w, events[0]);
      RunKeeps(Next(w, events[0]), events[1..]);
    }
  }

  // ----- Main results -----

  /** An execution entered in the table is pending, in one thread's hand, or reported once: never two of these. */
  lemma EachExecutionInOnePlace(events: seq<Event>, id: Id)
    requires IsRun(Start, events)
    ensures var w := Ran(Start, events); (
      && (id in w.entered ==> Held(w.t.pending, id) + Hands(w, id) + Times(w.completions, id) == 1)
      && (id !in w.entered ==> Times(w.completions, id) == 0))
  {
    StartOK();
    RunKeeps(Start, events);
    var w := Ran(Start, events);
    assert Places(w, id) == if id in w.entered then 1 else 0;
  }

  /**
   When the process has ended, an execution was reported exactly once if and only if no other thread was cut off
   between taking it out of the table and reporting it; otherwise it was not reported at all.
   */
  lemma ReportedOnceAtExit(events: seq<Event>, id: Id)
    requires IsRun(Start, events) && Ran(Start, events).command.Exited? && id in Ran(Start, events).entered
    ensures var w := Ran(Start, events); (
      && (Times(w.completions, id) == 1 <==> id !in w.shellHand && id !in w.iopubHand && id !in w.monitorHand)
      && Times(w.completions, id) <= 1)
  {
    StartOK();
    RunKeeps(Start, events);
    var w := Ran(Start, events);
    assert Places(w, id) == 1;
  }

  /** A report names the request the execution was entered for. */
  lemma ReportsNameTheirRequest(events: seq<Event>, c: Completion)
    requires IsRun(Start, events) && c in Ran(Start, events).completions
    ensures c.id in Ran(Start, events).entered && c.request == Ran(Start, events).entered[c.id]
  {
    StartOK();
    RunKeeps(Start, events);
  }

  /** Once both threads are done handling its reply and its idle status, an execution is no longer pending. */
  lemma FinishedIsNotPending(events: seq<Event>, id: Id)
    requires IsRun(Start, events)
    requires Ran(Start, events).shell != Checking(id) && Ran(Start, events).iopub != Checking(id)
    ensures !IsReady(Ran(Start, events).t, id)
  {
    StartOK();
    RunKeeps(Start, events);
  }

  /** No execution is interrupted twice, and none is interrupted while it is not busy. */
  lemma InterruptedAtMostOnce(events: seq<Event>, id: Id)
    requires IsRun(Start, events)
    ensures Interruptions(Ran(Start, events).interrupts, id) <= 1
    ensures forall i :: i in Ran(Start, events).interrupts ==> i.busy
  {
    StartOK();
    RunKeeps(Start, events);
    assert InterruptOK(Ran(Start, events), id);
  }

  // ----- What a report says -----

  /** What arrived for executions while they were pending: the last reply, and whether they were seen idle. */
  datatype Heard = Heard(replies: map<Id, Reply>, idle: set<Id>)

  function HeardIn(w: World, events: seq<Event>, heard: Heard): Heard
    requires IsRun(w, events)
    decreases |events|
  {
    if events == [] then heard else HeardIn(Next(w, events[0]), events[1..], HeardNow(w, events[0], heard))
  }

  function HeardNow(w: World, e: Event, heard: Heard): Heard {
    match e
    case OfShell(ShellReceives(id, true, reply)) =>
      if id in w.t.pending then heard.(replies := heard.replies[id := reply]) else heard
    case OfIopub(IopubReceives(id, IdleStatus)) =>
      if id in w.t.pending then heard.(idle := heard.idle + {id}) else heard
    case _ => heard
  }

  const NothingHeard := Heard(map[], {})

  predicate HasReplies(table: map<Id, Entry>, heard: Heard) {
    forall id :: id in table ==>
      table[id].reply == (if id in heard.replies then Some(heard.replies[id]) else None)
      && (table[id].idle <==> id in heard.idle)
  }

  /** What is recorded of an execution is what was heard for it. */
  predicate RepliesOK(w: World, heard: Heard) {
    && heard.replies.Keys <= w.used && heard.idle <= w.used && HasReplies(w.t.pending, heard)
    && HasReplies(w.shellHand, heard) && HasReplies(w.iopubHand, heard)
  }

  lemma HeldOnce(w: World, id: Id)
    requires Conserved(w) && id in w.t.pending
    ensures id !in w.shellHand && id !in w.iopubHand
  {
    assert Places(w, id) <= 1;
  }

  lemma ReceivingHears(w: World, heard: Heard, id: Id, isReply: bool, reply: Reply)
    requires PlacesOK(w) && RepliesOK(w, heard)
    ensures RepliesOK(AfterShellReceives(w, id, isReply, reply),
                      HeardNow(w, OfShell(ShellReceives(id, isReply, reply)), heard))
  {
    if id in w.t.pending {
      HeldOnce(w, id);
    }
  }

  function Progress(e: Entry): (Option<Reply>, bool) { (e.reply, e.idle) }

  /** Nothing is recorded: executions only move from the table into hands, or out of both. */
  predicate SameReplies(w: World, v: World) {
    && w.used <= v.used
    && (forall id :: id in v.t.pending ==> id in w.t.pending && Progress(v.t.pending[id]) == Progress(w.t.pending[id]))
    && FromTable(w.t.pending, w.shellHand, v.shellHand) && FromTable(w.t.pending, w.iopubHand, v.iopubHand)
  }

  predicate FromTable(table: map<Id, Entry>, hand: map<Id, Entry>, next: map<Id, Entry>) {
    forall id :: id in next ==> (id in hand && next[id] == hand[id]) || (id in table && next[id] == table[id])
  }

  lemma SameRepliesHear(w: World, v: World, heard: Heard)
    requires RepliesOK(w, heard) && SameReplies(w, v)
    ensures RepliesOK(v, heard)
  {
  }

  lemma EnteringHears(w: World, heard: Heard, id: Id, request: Request)
    requires RepliesOK(w, heard) && id !in w.used
    ensures RepliesOK(AfterExecute(w, id, request), heard)
  {
  }

  lemma CommandHears(w: World, heard: Heard, e: CommandEvent)
    requires RepliesOK(w, heard) && CommandEnabled(w, e)
    ensures RepliesOK(CommandNext(w, e), heard)
  {
    match e
    case Execute(id, request) => EnteringHears(w, heard, id, request);
    case Ask(id, request) => SameRepliesHear(w, AfterAsk(w, id, request), heard);
    case AskInterrupt => SameRepliesHear(w, AfterAskInterrupt(w), heard);
    case CommandSchedules(id) => SameRepliesHear(w, CommandNext(w, e), heard);
    case InterruptAsked => SameRepliesHear(w, CommandNext(w, e), heard);
  }

  lemma ShellHears(w: World, heard: Heard, e: ShellEvent)
    requires PlacesOK(w) && RepliesOK(w, heard) && ShellEnabled(w, e)
    ensures RepliesOK(ShellNext(w, e), HeardNow(w, OfShell(e), heard))
  {
    match e
    case ShellReceives(id, isReply, reply) => ReceivingHears(w, heard, id, isReply, reply);
    case ShellPolls => SameRepliesHear(w, ShellNext(w, e), heard);
    case ShellChecks => CheckingHears(w, heard);
    case ShellEmits(id) => SameRepliesHear(w, AfterShellEmits(w, id), heard);
  }

  lemma CheckingHears(w: World, heard: Heard)
    requires RepliesOK(w, heard) && w.shell.Checking?
    ensures RepliesOK(AfterShellChecks(w), heard)
  {
    SameRepliesHear(w, AfterShellChecks(w), heard);
  }

  lemma StatusHears(w: World, heard: Heard, id: Id, status: Status)
    requires PlacesOK(w) && RepliesOK(w, heard)
    ensures RepliesOK(AfterIopubReceives(w, id, status), HeardNow(w, OfIopub(IopubReceives(id, status)), heard))
  {
    if id in w.t.pending {
      HeldOnce(w, id);
    }
  }

  lemma IopubHears(w: World, heard: Heard, e: IopubEvent)
    requires PlacesOK(w) && RepliesOK(w, heard) && IopubEnabled(w, e)
    ensures RepliesOK(IopubNext(w, e), HeardNow(w, OfIopub(e), heard))
  {
    match e
    case IopubReceives(id, status) => StatusHears(w, heard, id, status);
    case IopubPolls => SameRepliesHear(w, IopubNext(w, e), heard);
    case IopubSchedules => IopubSchedulingHears(w, heard);
    case IopubChecks => IopubCheckingHears(w, heard);
    case IopubEmits(id) => SameRepliesHear(w, AfterIopubEmits(w, id), heard);
  }

  lemma IopubSchedulingHears(w: World, heard: Heard)
    requires RepliesOK(w, heard) && w.iopub.Scheduling?
    ensures RepliesOK(IopubNext(w, IopubSchedules), heard)
  {
    SameRepliesHear(w, IopubNext(w, IopubSchedules), heard);
  }

  lemma IopubCheckingHears(w: World, heard: Heard)
    requires RepliesOK(w, heard) && w.iopub.Checking?
    ensures RepliesOK(AfterIopubChecks(w), heard)
  {
    SameRepliesHear(w, AfterIopubChecks(w), heard);
  }

  lemma LifecycleHears(w: World, heard: Heard, e: LifecycleEvent)
    requires RepliesOK(w, heard) && LifecycleEnabled(w, e)
    ensures RepliesOK(LifecycleNext(w, e), heard)
  {
    SameRepliesHear(w, LifecycleNext(w, e), heard);
  }

  lemma MonitorHears(w: World, heard: Heard, e: MonitorEvent)
    requires RepliesOK(w, heard) && MonitorEnabled(w, e)
    ensures RepliesOK(MonitorNext(w, e), heard)
  {
    SameRepliesHear(w, MonitorNext(w, e), heard);
  }

  lemma FiringHears(w: World, heard: Heard, id: Id, kernelOk: bool)
    requires RepliesOK(w, heard)
    ensures RepliesOK(AfterFire(w, id, kernelOk), heard)
  {
    SameRepliesHear(w, WithoutTimer(w, id), heard);
    if MayFire(w, id) {
      SameRepliesHear(WithoutTimer(w, id), AfterAttempt(WithoutTimer(w, id), id, kernelOk), heard);
    }
  }

  lemma StepHears(w: World, heard: Heard, e: Event)
    requires PlacesOK(w) && RepliesOK(w, heard) && Enabled(w, e)
    ensures RepliesOK(Next(w, e), HeardNow(w, e, heard))
  {
    match e
    case OfCommand(c) => CommandHears(w, heard, c);
    case OfLifecycle(l) => LifecycleHears(w, heard, l);
    case OfShell(s) => ShellHears(w, heard, s);
    case OfIopub(i) => IopubHears(w, heard, i);
    case OfMonitor(m) => MonitorHears(w, heard, m);
    case TimerFires(id, kernelOk) => FiringHears(w, heard, id, kernelOk);
  }

  lemma {:induction false} RunHears(w: World, events: seq<Event>, heard: Heard)
    requires Inv(w) && RepliesOK(w, heard) && IsRun(w, events)
    ensures RepliesOK(Ran(w, events), HeardIn(w, events, heard))
    decreases |events|
  {
    if events != [] {
      StepKeeps(w, events[0]);
      StepHears(w, heard, events[0]);
      RunHears(Next(w, events[0]), events[1..], HeardNow(w, events[0], heard));
    }
  }

  /** Whether the event reports an execution. */
  predicate IsReporting(e: Event) {
    match e
    case OfShell(s) => s.ShellEmits?
    case OfIopub(i) => i.IopubEmits?
    case OfLifecycle(l) => l.CommandEmits?
    case OfMonitor(m) => m.MonitorEmits?
    case _ => false
  }

  predicate IsTold(w: World, v: World, id: Id, outcome: Outcome) {
    id in w.entered && v.completions == w.completions + [Completion(id, w.entered[id], outcome)]
  }

  lemma ShellAnswers(w: World, heard: Heard, id: Id)
    requires PlacesOK(w) && RepliesOK(w, heard) && id in w.shellHand
    ensures id in heard.replies && IsTold(w, AfterShellEmits(w, id), id, Answered(heard.replies[id]))
  {
  }

  lemma IopubAnswers(w: World, heard: Heard, id: Id)
    requires PlacesOK(w) && RepliesOK(w, heard) && id in w.iopubHand
    ensures id in heard.replies && IsTold(w, AfterIopubEmits(w, id), id, Answered(heard.replies[id]))
  {
  }

  lemma CommandSaysNothing(w: World, e: CommandEvent)
    requires CommandEnabled(w, e)
    ensures CommandNext(w, e).completions == w.completions
  {
  }

  lemma LifecycleSaysNothing(w: World, e: LifecycleEvent)
    requires LifecycleEnabled(w, e) && !e.CommandEmits?
    ensures LifecycleNext(w, e).completions == w.completions
  {
  }

  lemma ReceivingSaysNothing(w: World, id: Id, isReply: bool, reply: Reply, status: Status)
    ensures AfterShellReceives(w, id, isReply, reply).completions == w.completions
    ensures AfterIopubReceives(w, id, status).completions == w.completions
  {
  }

  lemma CheckingSaysNothing(w: World)
    ensures w.shell.Checking? ==> AfterShellChecks(w).completions == w.completions
    ensures w.iopub.Checking? ==> AfterIopubChecks(w).completions == w.completions
  {
  }

  lemma ShellSaysNothing(w: World, e: ShellEvent)
    requires ShellEnabled(w, e) && !e.ShellEmits?
    ensures ShellNext(w, e).completions == w.completions
  {
    match e
    case ShellPolls =>
    case ShellReceives(id, isReply, reply) => ReceivingSaysNothing(w, id, isReply, reply, Other);
    case ShellChecks => CheckingSaysNothing(w);
  }

  lemma IopubSaysNothing(w: World, e: IopubEvent)
    requires IopubEnabled(w, e) && !e.IopubEmits?
    ensures IopubNext(w, e).completions == w.completions
  {
    match e
    case IopubPolls =>
    case IopubReceives(id, status) => ReceivingSaysNothing(w, id, false, Reply(0), status);
    case IopubSchedules =>
    case IopubChecks => CheckingSaysNothing(w);
  }

  lemma MonitorSaysNothing(w: World, e: MonitorEvent)
    requires MonitorEnabled(w, e) && !e.MonitorEmits?
    ensures MonitorNext(w, e).completions == w.completions
  {
  }

  lemma OthersSayNothing(w: World, e: Event)
    requires Enabled(w, e) && !IsReporting(e)
    ensures Next(w, e).completions == w.completions
  {
    match e
    case OfCommand(c) => CommandSaysNothing(w, c);
    case OfLifecycle(l) => LifecycleSaysNothing(w, l);
    case OfShell(s) => ShellSaysNothing(w, s);
    case OfIopub(i) => IopubSaysNothing(w, i);
    case OfMonitor(m) => MonitorSaysNothing(w, m);
    case TimerFires(id, kernelOk) =>
  }

  /**
   The shell and iopub threads report an execution with the last reply received for it while it was pending; on a
   restart, a stop or the death of the kernel it is reported as aborted. No other step reports anything.
   */
  lemma ReportsSayWhatHappened(events: seq<Event>, e: Event)
    requires IsRun(Start, events) && Enabled(Ran(Start, events), e)
    ensures var w := Ran(Start, events); var v := Next(w, e); var heard := HeardIn(Start, events, NothingHeard); (
      match e
      case OfShell(ShellEmits(id)) => id in heard.replies && IsTold(w, v, id, Answered(heard.replies[id]))
      case OfIopub(IopubEmits(id)) => id in heard.replies && IsTold(w, v, id, Answered(heard.replies[id]))
      case OfLifecycle(CommandEmits(id)) => IsTold(w, v, id, Aborted)
      case OfMonitor(MonitorEmits(id)) => IsTold(w, v, id, Aborted)
      case _ => v.completions == w.completions)
  {
    StartOK();
    RunKeeps(Start, events);
    RunHears(Start, events, NothingHeard);
    var w, heard := Ran(Start, events), HeardIn(Start, events, NothingHeard);
    match e
    case OfShell(ShellEmits(id)) => ShellAnswers(w, heard, id);
    case OfIopub(IopubEmits(id)) => IopubAnswers(w, heard, id);
    case OfLifecycle(CommandEmits(id)) =>
    case OfMonitor(MonitorEmits(id)) =>
    case _ => OthersSayNothing(w, e);
  }

  /**
   An execution whose reply and idle status both arrived is no longer pending once no thread is about to look at it
   again.
   */
  lemma AnsweredAndIdleIsTaken(events: seq<Event>, id: Id)
    requires IsRun(Start, events)
    requires var heard := HeardIn(Start, events, NothingHeard); id in heard.replies && id in heard.idle
    requires Ran(Start, events).shell != Checking(id) && Ran(Start, events).iopub != Checking(id)
    ensures id !in Ran(Start, events).t.pending
  {
    StartOK();
    RunHears(Start, events, NothingHeard);
    FinishedIsNotPending(events, id);
  }

  // ----- An interrupt reaches a busy execution -----

  lemma StartsWith(w: World, e: Event, rest: seq<Event>)
    requires Enabled(w, e) && IsRun(Next(w, e), rest)
    ensures IsRun(w, [e] + rest) && Ran(w, [e] + rest) == Ran(Next(w, e), rest)
  {
    assert ([e] + rest)[1..] == rest;
  }

  lemma RunOfThree(w: World, a: Event, b: Event, c: Event)
    requires Enabled(w, a) && Enabled(Next(w, a), b) && Enabled(Next(Next(w, a), b), c)
    ensures IsRun(w, [a, b, c]) && Ran(w, [a, b, c]) == Next(Next(Next(w, a), b), c)
  {
    var v := Next(Next(w, a), b);
    StartsWith(v, c, []);
    StartsWith(Next(w, a), b, [c]);
    StartsWith(w, a, [b, c]);
    assert [c] + [] == [c] && [b] + [c] == [b, c] && [a] + [b, c] == [a, b, c];
  }

  /** An execution that was not interrupted and for which no timer runs yet. */
  predicate IsUntouched(w: World, id: Id) {
    id in w.t.pending && !w.t.pending[id].scheduled && !w.t.pending[id].delivered
  }

  predicate IsRunning(w: World) { !w.command.Exited? && !w.stop && !w.paused }

  /** A busy execution is interrupted when the user asks for it and the timer that starts then fires. */
  lemma AskingInterruptsBusy(w: World, id: Id)
    requires IsRunning(w) && w.command.Reading? && IsUntouched(w, id) && w.t.pending[id].busy
    ensures var events := [OfCommand(AskInterrupt), OfCommand(CommandSchedules(id)), TimerFires(id, true)]; (
      IsRun(w, events) && Ran(w, events).interrupts == w.interrupts + [Interrupt(id, true)])
  {
    var a := AfterAskInterrupt(w);
    assert Interruptible(w.t, id);
    var b := AfterSchedule(a, id).(command := Interrupting(a.command.ids - {id}));
    assert MaySchedule(a.t, id) && MayFire(WithoutTimer(b, id), id);
    RunOfThree(w, OfCommand(AskInterrupt), OfCommand(CommandSchedules(id)), TimerFires(id, true));
  }

  /** One that was not busy yet when it was asked for is interrupted once it is. */
  lemma BusyIsInterruptedLater(w: World, id: Id)
    requires IsRunning(w) && w.iopub.Polling? && IsUntouched(w, id) && w.t.pending[id].requested
    ensures var events := [OfIopub(IopubReceives(id, Busy)), OfIopub(IopubSchedules), TimerFires(id, true)]; (
      IsRun(w, events) && Ran(w, events).interrupts == w.interrupts + [Interrupt(id, true)])
  {
    var a := AfterIopubReceives(w, id, Busy);
    assert a.iopub == Scheduling(id) && MaySchedule(a.t, id);
    var b := AfterSchedule(a, id).(iopub := Top);
    assert MayFire(WithoutTimer(b, id), id);
    RunOfThree(w, OfIopub(IopubReceives(id, Busy)), OfIopub(IopubSchedules), TimerFires(id, true));
  }

  // ----- A thread may be cut off -----

  ghost predicate Reachable(w: World) {
    exists events :: IsRun(Start, events) && Ran(Start, events) == w
  }

  lemma {:induction false} RunExtends(w: World, events: seq<Event>, e: Event)
    requires IsRun(w, events) && Enabled(Ran(w, events), e)
    ensures IsRun(w, events + [e]) && Ran(w, events + [e]) == Next(Ran(w, events), e)
    decreases |events|
  {
    if events == [] {
      assert [] + [e] == [e] && [e][1..] == [];
    } else {
      assert (events + [e])[1..] == events[1..] + [e];
      RunExtends(Next(w, events[0]), events[1..], e);
    }
  }

  lemma Follow(w: World, e: Event)
    requires Reachable(w) && Enabled(w, e)
    ensures Reachable(Next(w, e))
  {
    var events :| IsRun(Start, events) && Ran(Start, events) == w;
    RunExtends(Start, events, e);
  }

  const TheId := Id(0)
  const TheRequest := Request(0)
  const Replying := Entry(TheRequest, Some(Reply(0)), false, false, false, false, false)

  /** The reply of the one execution was handled. */
  const AfterReply :=
    Start.(t := Table(map[TheId := Replying], map[]), entered := map[TheId := TheRequest], used := {TheId})

  lemma ReplyReachable()
    ensures Reachable(AfterReply)
  {
    assert IsRun(Start, []) && Ran(Start, []) == Start;
    var e1 := OfCommand(Execute(TheId, TheRequest));
    assert |Start.t.pending| == 0;
    Follow(Start, e1);
    var w1 := Next(Start, e1);
    Follow(w1, OfShell(ShellPolls));
    var w2 := Next(w1, OfShell(ShellPolls));
    var e3 := OfShell(ShellReceives(TheId, true, Reply(0)));
    Follow(w2, e3);
    var w3 := Next(w2, e3);
    assert w3.t == Table(map[TheId := Replying], map[]) && w3.shell == Checking(TheId);
    Follow(w3, OfShell(ShellChecks));
    assert Next(w3, OfShell(ShellChecks)) == AfterReply;
  }

  /** The iopub thread holds the finished execution and has not reported it when the process ends. */
  lemma CutOffThreadReportsNothing() returns (w: World)
    ensures Reachable(w) && w.command.Exited? && TheId in w.entered && TheId in w.iopubHand
    ensures Times(w.completions, TheId) == 0
  {
    ReplyReachable();
    Follow(AfterReply, OfIopub(IopubPolls));
    var w1 := Next(AfterReply, OfIopub(IopubPolls));
    var idle := OfIopub(IopubReceives(TheId, IdleStatus));
    Follow(w1, idle);
    var w2 := Next(w1, idle);
    assert IsReady(w2.t, TheId) && w2.iopub == Checking(TheId);
    Follow(w2, OfIopub(IopubChecks));
    var w3 := Next(w2, OfIopub(IopubChecks));
    Follow(w3, OfLifecycle(Shutdown));
    var w4 := Next(w3, OfLifecycle(Shutdown));
    Follow(w4, OfLifecycle(FailForStop));
    var w5 := Next(w4, OfLifecycle(FailForStop));
    assert w5.commandHand == map[];
    Follow(w5, OfLifecycle(Exit));
    w := Next(w5, OfLifecycle(Exit));
  }
}

/**
 The pending tables of the Jupyter bridge (media/jupyter_kernel_bridge.py): one method per critical section of the
 state lock.

 Messages are reduced to the identifier of the request they answer and the few fields the bridge looks at.
 Identifiers given out by the client are fresh.
 */
module KernelBridge {
  import opened Outcomes

  datatype Id = Id(n: nat)

  datatype Request = Request(n: nat)

  datatype Reply = Reply(n: nat)

  datatype Status = Busy | IdleStatus | Other

  datatype Entry = Entry(request: Request, reply: Option<Reply>, idle: bool, busy: bool,
                         requested: bool, scheduled: bool, delivered: bool)

  datatype Table = Table(pending: map<Id, Entry>, auxiliary: map<Id, Request>)

  const MaxPendingExecutions := 128
  const MaxPendingAuxiliary := 128

  function NewEntry(request: Request): Entry { Entry(request, None, false, false, false, false, false) }

  function Entered(t: Table, id: Id, request: Request): Table { t.(pending := t.pending[id := NewEntry(request)]) }

  function Asked(t: Table, id: Id, request: Request): Table { t.(auxiliary := t.auxiliary[id := request]) }

  /** The reply of an execution is kept; the answer to an auxiliary request is taken out of its table. */
  function Replied(t: Table, id: Id, isReply: bool, reply: Reply): Table {
    t.(auxiliary := t.auxiliary - {id},
       pending := if id in t.pending && isReply then t.pending[id := t.pending[id].(reply := Some(reply))]
         else t.pending)
  }

  function WithStatus(e: Entry, status: Status): Entry {
    match status
    case Busy => e.(busy := true)
    case IdleStatus => e.(busy := false, idle := true)
    case Other => e
  }

  function StatusSeen(t: Table, id: Id, status: Status): Table {
    if id in t.pending then t.(pending := t.pending[id := WithStatus(t.pending[id], status)]) else t
  }

  predicate IsReady(t: Table, id: Id) { id in t.pending && t.pending[id].reply.Some? && t.pending[id].idle }

  function Taken(t: Table, id: Id): Table { t.(pending := t.pending - {id}) }

  function Requested(t: Table): Table {
    t.(pending := map id | id in t.pending :: t.pending[id].(requested := true))
  }

  predicate Interruptible(t: Table, id: Id) { id in t.pending && t.pending[id].busy && !t.pending[id].delivered }

  predicate MaySchedule(t: Table, id: Id) { id in t.pending && !t.pending[id].scheduled && !t.pending[id].delivered }

  function Scheduled(t: Table, id: Id): Table {
    if MaySchedule(t, id) then t.(pending := t.pending[id := t.pending[id].(scheduled := true)]) else t
  }

  /** A delivery that fails may be scheduled again; one that succeeds is final. */
  function Delivered(t: Table, id: Id, ok: bool): Table
    requires id in t.pending
  {
    if ok then t.(pending := t.pending[id := t.pending[id].(delivered := true)])
    else t.(pending := t.pending[id := t.pending[id].(scheduled := false)])
  }

  class Bridge {
    var pending: map<Id, Entry>
    var auxiliary: map<Id, Request>

    ghost function State(): Table
      reads this
    {
      Table(pending, auxiliary)
    }

    constructor ()
      ensures State() == Table(map[], map[])
    {
      pending, auxiliary := map[], map[];
    }

    method Execute(id: Id, request: Request) returns (ok: bool)
      modifies this
      ensures ok <==> |old(pending)| < MaxPendingExecutions
      ensures State() == if ok then Entered(old(State()), id, request) else old(State())
    {
      if |pending| >= MaxPendingExecutions {
        return false;
      }
      pending := pending[id := Entry(request, None, false, false, false, false, false)];
      return true;
    }

    method Ask(id: Id, request: Request) returns (ok: bool)
      modifies this
      ensures ok <==> |old(auxiliary)| < MaxPendingAuxiliary
      ensures State() == if ok then Asked(old(State()), id, request) else old(State())
    {
      if |auxiliary| >= MaxPendingAuxiliary {
        return false;
      }
      auxiliary := auxiliary[id := request];
      return true;
    }

    /** The shell thread's section: tells whether the message answered an auxiliary request or an execution. */
    method HandleReply(id: Id, isReply: bool, reply: Reply) returns (answered: Option<Request>, execution: bool)
      modifies this
      ensures State() == Replied(old(State()), id, isReply, reply)
      ensures answered == if id in old(auxiliary) then Some(old(auxiliary)[id]) else None
      ensures execution <==> id in old(pending) && isReply
    {
      answered := if id in auxiliary then Some(auxiliary[id]) else None;
      auxiliary := auxiliary - {id};
      execution := id in pending && isReply;
      if execution {
        pending := pending[id := pending[id].(reply := Some(reply))];
      }
    }

    /** The iopub thread's section: a busy notification may release an interrupt asked for before. */
    method HandleStatus(id: Id, status: Status) returns (deliverInterrupt: bool)
      modifies this
      ensures State() == StatusSeen(old(State()), id, status)
      ensures deliverInterrupt
        <==> status.Busy? && id in old(pending) && old(pending)[id].requested && !old(pending)[id].delivered
    {
      deliverInterrupt := false;
      if id in pending && status.Busy? {
        pending := pending[id := pending[id].(busy := true)];
        deliverInterrupt := pending[id].requested && !pending[id].delivered;
      } else if id in pending && status.IdleStatus? {
        pending := pending[id := pending[id].(busy := false, idle := true)];
      }
    }

    /** The execution is taken out once both its reply and its idle status are in. */
    method MaybeComplete(id: Id) returns (taken: Option<Entry>)
      modifies this
      ensures taken.Some? <==> IsReady(old(State()), id)
      ensures taken.Some? ==> taken.value == old(pending)[id] && State() == Taken(old(State()), id)
      ensures taken.None? ==> State() == old(State())
    {
      if id !in pending || pending[id].reply.None? || !pending[id].idle {
        return None;
      }
      taken := Some(pending[id]);
      pending := pending - {id};
    }

    method FailPending() returns (failed: map<Id, Entry>)
      modifies this
      ensures failed == old(pending) && State() == Table(map[], map[])
    {
      failed := pending;
      pending, auxiliary := map[], map[];
    }

    method RequestInterrupt() returns (ids: set<Id>)
      modifies this
      ensures State() == Requested(old(State()))
      ensures ids == set id | id in old(pending) && Interruptible(old(State()), id)
    {
      var todo := pending.Keys;
      ids := {};
      while todo != {}
        invariant todo <= old(pending).Keys && auxiliary == old(auxiliary)
        invariant pending == map id | id in old(pending)
                    :: if id in todo then old(pending)[id] else old(pending)[id].(requested := true)
        invariant ids == set id | id in old(pending) && id !in todo && Interruptible(old(State()), id)
      {
        var id :| id in todo;
        todo := todo - {id};
        pending := pending[id := pending[id].(requested := true)];
        if pending[id].busy && !pending[id].delivered {
          ids := ids + {id};
        }
      }
    }

    method ScheduleInterrupt(id: Id) returns (timer: bool)
      modifies this
      ensures timer <==> MaySchedule(old(State()), id)
      ensures State() == Scheduled(old(State()), id)
    {
      if id !in pending || pending[id].scheduled || pending[id].delivered {
        return false;
      }
      pending := pending[id := pending[id].(scheduled := true)];
      return true;
    }

    /** The timer's section. `kernelOk` says whether the kernel manager could be told. */
    method Deliver(id: Id, stopped: bool, paused: bool, kernelOk: bool) returns (interrupted: bool)
      modifies this
      ensures var attempt := id in old(pending) && old(pending)[id].busy && !stopped && !paused; (
        && (interrupted <==> attempt && kernelOk)
        && State() == if attempt then Delivered(old(State()), id, kernelOk) else old(State()))
    {
      if id !in pending || !pending[id].busy || stopped || paused {
        return false;
      }
      if kernelOk {
        pending := pending[id := pending[id].(delivered := true)];
        return true;
      }
      pending := pending[id := pending[id].(scheduled := false)];
      return false;
    }
  }
}

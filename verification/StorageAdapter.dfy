/**
 The bookkeeping of the storage adapter (src/core/persistence.ts): paths waiting to be written, redirects of
 renames in flight, removal marks and the serialized queue of operations.

 The pending and removed tables are sets: the order in which paths of one batch are written is left open. Timers
 only decide when a flush is issued.
 */
module StorageAdapter {
  import opened ProjectPaths
  import opened StorageRedirects

  /**
   Operations behind the queue. Mirror stands for every call that publishes one path by itself; which version of the
   file it publishes is fixed by the call.
   */
  datatype Op =
    | Flush(outstanding: set<Path>)
    | Rename(redirect: Redirect)
    | Remove(path: Path)
    | Mirror(path: Path, version: nat)

  datatype Adapter = Adapter(pending: set<Path>, redirects: seq<Redirect>, removed: set<Path>, queue: seq<Op>)

  predicate IsRemoved(removed: set<Path>, p: Path) {
    exists r :: r in removed && SameOrChild(p, r)
  }

  function Cleared(removed: set<Path>, p: Path): set<Path> {
    set r | r in removed && !Comparable(p, r)
  }

  function Remapped(pending: set<Path>, r: Redirect): set<Path> {
    set p | p in pending :: Moved(p, r)
  }

  function Outside(pending: set<Path>, root: Path): set<Path> {
    set p | p in pending && !SameOrChild(p, root)
  }

  /** A table keyed by source in insertion order: setting a present key keeps its place. */
  function SetRedirect(rs: seq<Redirect>, r: Redirect): seq<Redirect> {
    if rs == [] then [r] else if rs[0].from == r.from then [r] + rs[1..] else [rs[0]] + SetRedirect(rs[1..], r)
  }

  /** A finished rename removes its redirect unless a newer one took its place. */
  function DropRedirect(rs: seq<Redirect>, r: Redirect): seq<Redirect> {
    if rs == [] then [] else if rs[0].from == r.from then (if rs[0].to == r.to then rs[1..] else rs)
    else [rs[0]] + DropRedirect(rs[1..], r)
  }

  function Scheduled(a: Adapter, p: Path): Adapter {
    a.(removed := Cleared(a.removed, p), pending := a.pending + {p})
  }

  function FlushIssued(a: Adapter): Adapter {
    a.(pending := {}, queue := a.queue + [Flush(a.pending)])
  }

  function RemoveIssued(a: Adapter, p: Path): Adapter {
    a.(removed := a.removed + {p}, pending := Outside(a.pending, p), queue := a.queue + [Remove(p)])
  }

  function RenameIssued(a: Adapter, r: Redirect): Adapter {
    a.(redirects := SetRedirect(a.redirects, r), removed := Cleared(a.removed + {r.from}, r.to),
       pending := Remapped(a.pending, r), queue := a.queue + [Rename(r)])
  }

  function MirrorIssued(a: Adapter, p: Path, version: nat): Adapter {
    a.(removed := Cleared(a.removed, p), queue := a.queue + [Mirror(p, version)])
  }

  /** Paths of a failed batch return to pending under the names they were taken with. */
  function Requeued(a: Adapter, paths: set<Path>): Adapter {
    a.(pending := a.pending + set o | o in paths && !IsRemoved(a.removed, Replay(a.redirects, o)))
  }

  // ----- The class of the source -----

  class StorageAdapter {
    var pending: set<Path>
    var redirects: seq<Redirect>
    var removed: set<Path>
    var queue: seq<Op>

    ghost function State(): Adapter
      reads this
    {
      Adapter(pending, redirects, removed, queue)
    }

    constructor ()
      ensures State() == Adapter({}, [], {}, [])
    {
      pending, redirects, removed, queue := {}, [], {}, [];
    }

    method ClearRemoved(p: Path)
      modifies this`removed
      ensures removed == Cleared(old(removed), p)
    {
      var todo := removed;
      while todo != {}
        invariant todo <= old(removed)
        invariant removed == set r | r in old(removed) && (r in todo || !Comparable(p, r))
      {
        var r :| r in todo;
        todo := todo - {r};
        if SameOrChild(p, r) || SameOrChild(r, p) {
          removed := removed - {r};
        }
      }
    }

    method Schedule(p: Path)
      modifies this
      ensures State() == Scheduled(old(State()), p)
    {
      ClearRemoved(p);
      pending := pending + {p};
    }

    method IssueFlush()
      modifies this
      ensures State() == FlushIssued(old(State()))
    {
      var paths := pending;
      pending := {};
      queue := queue + [Flush(paths)];
    }

    method IssueRemove(p: Path)
      modifies this
      ensures State() == RemoveIssued(old(State()), p)
    {
      removed := removed + {p};
      var todo := pending;
      while todo != {}
        invariant todo <= old(pending) && State() == old(State()).(removed := old(removed) + {p}, pending := pending)
        invariant pending == set q | q in old(pending) && (q in todo || !SameOrChild(q, p))
      {
        var q :| q in todo;
        todo := todo - {q};
        if SameOrChild(q, p) {
          pending := pending - {q};
        }
      }
      queue := queue + [Remove(p)];
    }

    method IssueRename(r: Redirect)
      requires !Comparable(r.from, r.to)
      modifies this
      ensures State() == RenameIssued(old(State()), r)
    {
      redirects := SetRedirect(redirects, r);
      removed := removed + {r.from};
      ClearRemoved(r.to);
      var todo := pending;
      while todo != {}
        invariant todo <= old(pending)
        invariant redirects == SetRedirect(old(redirects), r) && queue == old(queue)
        invariant removed == Cleared(old(removed) + {r.from}, r.to)
        invariant pending == set q | q in old(pending) :: if q in todo then q else Moved(q, r)
      {
        var p :| p in todo;
        RemapStep(old(pending), todo, p, r);
        todo := todo - {p};
        if SameOrChild(p, r.from) {
          pending := pending - {p} + {Moved(p, r)};
        }
      }
      queue := queue + [Rename(r)];
    }

    method IssueMirror(p: Path, version: nat)
      modifies this
      ensures State() == MirrorIssued(old(State()), p, version)
    {
      ClearRemoved(p);
      queue := queue + [Mirror(p, version)];
    }

    method IsRemovedNow(p: Path) returns (r: bool)
      ensures r == IsRemoved(removed, p)
    {
      var todo := removed;
      while todo != {}
        invariant todo <= removed && forall m :: m in removed && m !in todo ==> !SameOrChild(p, m)
      {
        var m :| m in todo;
        if SameOrChild(p, m) {
          return true;
        }
        todo := todo - {m};
      }
      return false;
    }

    method Requeue(paths: set<Path>)
      requires Independent(redirects)
      modifies this`pending
      ensures State() == Requeued(old(State()), paths)
    {
      var todo := paths;
      while todo != {}
        invariant todo <= paths
        invariant pending
               == old(pending) + set o | o in paths && o !in todo && !IsRemoved(removed, Replay(redirects, o))
      {
        var o :| o in todo;
        todo := todo - {o};
        var current := ResolveCurrentPath(redirects, o);
        var gone := IsRemovedNow(current);
        if !gone {
          pending := pending + {o};
        }
      }
    }

    /** The cleanup of a rename that reached the head of the queue, whether or not it succeeded. */
    method FinishRename(r: Redirect)
      modifies this`redirects
      ensures redirects == DropRedirect(old(redirects), r)
    {
      redirects := DropRedirect(redirects, r);
    }
  }

  lemma RemapStep(pending: set<Path>, todo: set<Path>, p: Path, r: Redirect)
    requires p in todo && todo <= pending && !Comparable(r.from, r.to)
    ensures var was := set q | q in pending :: if q in todo then q else Moved(q, r);
      var now := set q | q in pending :: if q in todo - {p} then q else Moved(q, r);
      now == if SameOrChild(p, r.from) then was - {p} + {Moved(p, r)} else was
  {
    var was := set q | q in pending :: if q in todo then q else Moved(q, r);
    var now := set q | q in pending :: if q in todo - {p} then q else Moved(q, r);
    forall q | q in pending ensures SameOrChild(p, r.from) && q != p ==> (if q in todo then q else Moved(q, r)) != p {
      if SameOrChild(p, r.from) && SameOrChild(q, r.from) && Moved(q, r) == p {
        PrefixesComparable(r.from, r.to, p);
      }
    }
    forall x ensures x in now <==> x in (if SameOrChild(p, r.from) then was - {p} + {Moved(p, r)} else was) {
      if x in now {
        var q :| q in pending && x == if q in todo - {p} then q else Moved(q, r);
        if q != p {
          assert x == if q in todo then q else Moved(q, r);
          assert x in was;
        }
      }
      if x in was && (SameOrChild(p, r.from) ==> x != p) {
        var q :| q in pending && x == if q in todo then q else Moved(q, r);
        assert x == if q in todo - {p} then q else Moved(q, r);
      }
      if x == Moved(p, r) {
        assert p in pending && x == if p in todo - {p} then p else Moved(p, r);
      }
    }
  }
}

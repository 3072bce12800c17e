/**
 Host authority of one participant (src/core/election.ts, and the clock checks of src/core/types.ts).

 Peers are strings. The locale order of two host names is a parameter. Events for the user interface are not part
 of this model.
 */
module HostElection {
  import opened Outcomes

  type PeerId = string

  datatype HostClock = HostClock(sessionEpoch: int, hostEpoch: int, hostId: PeerId)

  /** A clock as it arrives: any value at all, or a record with numbers and a name. */
  datatype RawClock = Malformed | Raw(sessionEpoch: int, hostEpoch: int, hostId: string)

  datatype ConnectionState = Connected | Recovering | Disconnected

  datatype PeerRuntime = PeerRuntime(online: bool, connectionState: Option<ConnectionState>)

  const MaxSafeInteger: int := 0x1F_FFFF_FFFF_FFFF

  predicate IsPeerIdCharacter(c: char) {
    'A' <= c <= 'Z' || 'a' <= c <= 'z' || '0' <= c <= '9' || c == '_' || c == '-'
  }

  predicate IsPeerId(id: string) {
    1 <= |id| <= 128 && forall i :: 0 <= i < |id| ==> IsPeerIdCharacter(id[i])
  }

  function Normalized(raw: RawClock, expectedSessionEpoch: int): Option<HostClock> {
    if !raw.Raw? || !(0 < raw.sessionEpoch <= MaxSafeInteger) || !(0 <= raw.hostEpoch <= MaxSafeInteger)
       || !IsPeerId(raw.hostId) || raw.sessionEpoch != expectedSessionEpoch then None
    else Some(HostClock(raw.sessionEpoch, raw.hostEpoch, raw.hostId))
  }

  type Collation = (string, string) -> int

  function CompareClock(a: HostClock, b: HostClock, collate: Collation): int {
    if a.sessionEpoch != b.sessionEpoch then a.sessionEpoch - b.sessionEpoch
    else if a.hostEpoch != b.hostEpoch then a.hostEpoch - b.hostEpoch
    else collate(a.hostId, b.hostId)
  }

  datatype Coordinator = Coordinator(clock: HostClock, closed: bool, peers: map<PeerId, PeerRuntime>)

  predicate IsHost(s: Coordinator, self: PeerId) { s.clock.hostId == self && !s.closed }

  function NextClock(clock: HostClock, target: PeerId): HostClock {
    clock.(hostEpoch := clock.hostEpoch + 1, hostId := target)
  }

  predicate MayTransfer(s: Coordinator, self: PeerId, target: PeerId) {
    IsHost(s, self) && target in s.peers && s.peers[target].online
  }

  /** An announcement counts only from the current host, and only for the very next host epoch of this session. */
  predicate Accepts(clock: HostClock, incoming: RawClock, sender: PeerId) {
    && sender == clock.hostId && Normalized(incoming, clock.sessionEpoch).Some?
    && incoming.hostEpoch == clock.hostEpoch + 1
  }

  function Followed(s: Coordinator, incoming: RawClock, sender: PeerId): Coordinator {
    if Accepts(s.clock, incoming, sender) then s.(clock := Normalized(incoming, s.clock.sessionEpoch).value) else s
  }

  /** The host is lost for good: not known, disconnected, or offline without being recovered. */
  predicate HardLoss(s: Coordinator) {
    s.clock.hostId !in s.peers || (
      var host := s.peers[s.clock.hostId];
      host.connectionState != Some(Recovering) && (host.connectionState == Some(Disconnected) || !host.online))
  }

  function Evaluated(s: Coordinator, self: PeerId): Coordinator {
    s.(closed := s.closed || (s.clock.hostId != self && HardLoss(s)))
  }

  class SessionCoordinator {
    const selfId: PeerId
    const collate: Collation
    var peers: map<PeerId, PeerRuntime>
    var clock: HostClock
    var closed: bool

    ghost function State(): Coordinator
      reads this
    {
      Coordinator(clock, closed, peers)
    }

    constructor (selfId: PeerId, clock: HostClock, collate: Collation)
      ensures State() == Coordinator(clock, false, map[])
      ensures this.selfId == selfId && this.collate == collate
    {
      this.selfId, this.collate, this.clock, this.closed, this.peers := selfId, collate, clock, false, map[];
    }

    method UpsertPeer(peer: PeerId, runtime: PeerRuntime)
      modifies this`peers
      ensures peers == old(peers)[peer := runtime]
    {
      peers := peers[peer := runtime];
    }

    method MarkHeartbeat(peer: PeerId)
      modifies this`peers
      ensures peers.Keys == old(peers).Keys && forall p :: p in peers && p != peer ==> peers[p] == old(peers)[p]
      ensures peer in peers ==> peers[peer] == old(peers)[peer].(online := true)
    {
      if peer in peers {
        peers := peers[peer := peers[peer].(online := true)];
      }
    }

    method MarkDisconnected(peer: PeerId)
      modifies this`peers
      ensures peers.Keys == old(peers).Keys && forall p :: p in peers && p != peer ==> peers[p] == old(peers)[p]
      ensures peer in peers ==> peers[peer] == PeerRuntime(false, Some(Disconnected))
    {
      if peer in peers {
        peers := peers[peer := PeerRuntime(false, Some(Disconnected))];
      }
    }

    method IsCurrentHost() returns (r: bool)
      ensures r == IsHost(State(), selfId)
    {
      r := clock.hostId == selfId && !closed;
    }

    /** Closes on the loss of another host; never changes who the host is. */
    method Evaluate()
      modifies this`closed
      ensures State() == Evaluated(old(State()), selfId)
    {
      if closed || clock.hostId == selfId {
        return;
      }
      if clock.hostId in peers && peers[clock.hostId].connectionState == Some(Recovering) {
        return;
      }
      var hardLoss := clock.hostId !in peers || peers[clock.hostId].connectionState == Some(Disconnected)
        || !peers[clock.hostId].online;
      if !hardLoss {
        return;
      }
      closed := true;
    }

    /** Fails for anyone but the host, and for a target that is not online. */
    method ManualTransfer(target: PeerId) returns (r: Option<HostClock>)
      modifies this`clock
      ensures r.Some? <==> MayTransfer(old(State()), selfId, target)
      ensures r.Some? ==> State() == old(State()).(clock := NextClock(old(clock), target)) && r.value == clock
      ensures r.None? ==> State() == old(State())
    {
      var isHost := IsCurrentHost();
      if !isHost || target !in peers || !peers[target].online {
        return None;
      }
      clock := clock.(hostEpoch := clock.hostEpoch + 1, hostId := target);
      return Some(clock);
    }

    method ApplyAnnouncement(incoming: RawClock, announcedBy: PeerId) returns (accepted: bool)
      modifies this`clock
      ensures accepted <==> Accepts(old(clock), incoming, announcedBy)
      ensures State() == Followed(old(State()), incoming, announcedBy)
    {
      var normalized := Normalized(incoming, clock.sessionEpoch);
      if announcedBy != clock.hostId || normalized.None? || normalized.value.hostEpoch != clock.hostEpoch + 1
         || CompareClock(normalized.value, clock, collate) <= 0
      {
        return false;
      }
      clock := normalized.value;
      return true;
    }
  }
}

/**
 A whole group: members join, the host hands over, announcements are delivered late, twice, in any order or never,
 and members notice losses as they like. `chain` records the host of every epoch since the first.
 */
module HostGroup {
  import opened HostElection
  import opened Outcomes

  /** What a host said when it left its epoch. Senders are authenticated. */
  datatype Announcement = Announcement(sender: PeerId, clock: HostClock)

  datatype World = World(members: map<PeerId, Coordinator>, announced: set<Announcement>, first: int,
                         chain: seq<PeerId>)

  datatype Event =
    | Transfer(p: PeerId, target: PeerId)
    | Commit(p: PeerId, next: RawClock)
    | Deliver(a: Announcement, p: PeerId)
    | Notice(p: PeerId, peers: map<PeerId, PeerRuntime>)
    | Evaluate(p: PeerId)
    | Join(p: PeerId, from: PeerId)

  function AsRaw(c: HostClock): RawClock { Raw(c.sessionEpoch, c.hostEpoch, c.hostId) }

  /** Not older than `c`, and of the same session. */
  predicate NoOlder(d: HostClock, c: HostClock) { d.sessionEpoch == c.sessionEpoch && d.hostEpoch >= c.hostEpoch }

  /** Whoever joins is new, or comes back with a clock no older than its own. */
  predicate MayJoin(w: World, p: PeerId, from: PeerId) {
    from in w.members && (p in w.members ==> NoOlder(w.members[from].clock, w.members[p].clock))
  }

  predicate Enabled(w: World, e: Event) {
    match e
    case Transfer(p, target) => p in w.members && MayTransfer(w.members[p], p, target)
    case Commit(p, next) => p in w.members && IsHost(w.members[p], p) && Accepts(w.members[p].clock, next, p)
    case Deliver(a, p) => a in w.announced && p in w.members
    case Notice(p, _) => p in w.members
    case Evaluate(p) => p in w.members
    case Join(p, from) => MayJoin(w, p, from)
  }

  function Changed(w: World, p: PeerId, s: Coordinator): World { w.(members := w.members[p := s]) }

  /** A member starts afresh with the clock of another. */
  function Joined(w: World, p: PeerId, from: PeerId): World
    requires from in w.members
  {
    Changed(w, p, Coordinator(w.members[from].clock, false, map[]))
  }

  /** The host moves to the next epoch first and announces it then. */
  function HandedOver(w: World, p: PeerId, next: HostClock): World
    requires p in w.members
  {
    Changed(w, p, w.members[p].(clock := next))
      .(announced := w.announced + {Announcement(p, next)}, chain := w.chain + [next.hostId])
  }

  function Next(w: World, e: Event): World
    requires Enabled(w, e)
  {
    match e
    case Transfer(p, target) => HandedOver(w, p, NextClock(w.members[p].clock, target))
    case Commit(p, next) => HandedOver(w, p, Followed(w.members[p], next, p).clock)
    case Deliver(a, p) => Changed(w, p, Followed(w.members[p], AsRaw(a.clock), a.sender))
    case Notice(p, peers) => Changed(w, p, w.members[p].(peers := peers))
    case Evaluate(p) => Changed(w, p, Evaluated(w.members[p], p))
    case Join(p, from) => Joined(w, p, from)
  }

  function Start(host: PeerId, clock: HostClock): World {
    World(map[host := Coordinator(clock, false, map[])], {}, clock.hostEpoch, [host])
  }

  predicate IsRun(w: World, events: seq<Event>)
    decreases |events|
  {
    events == [] || (Enabled(w, events[0]) && IsRun(Next(w, events[0]), events[1..]))
  }

  function Ran(w: World, events: seq<Event>): World
    requires IsRun(w, events)
    decreases |events|
  {
    if events == [] then w else Ran(Next(w, events[0]), events[1..])
  }

  /** A clock names the host that its epoch had. */
  predicate OnChain(w: World, c: HostClock) {
    0 <= c.hostEpoch - w.first < |w.chain| && w.chain[c.hostEpoch - w.first] == c.hostId
  }

  predicate MemberOK(w: World, p: PeerId)
    requires p in w.members
  {
    OnChain(w, w.members[p].clock)
  }

  predicate AnnouncementOK(w: World, a: Announcement) {
    OnChain(w, a.clock) && a.clock.hostEpoch > w.first && w.chain[a.clock.hostEpoch - w.first - 1] == a.sender
  }

  /** Whoever was host of an epoch before the last has taken part and left that epoch. */
  predicate HasLeft(w: World, i: int)
    requires 0 <= i < |w.chain| - 1
  {
    w.chain[i] in w.members && w.members[w.chain[i]].clock.hostEpoch - w.first > i
  }

  ghost predicate Inv(w: World) {
    && w.chain != []
    && (forall p :: p in w.members ==> MemberOK(w, p))
    && (forall a :: a in w.announced ==> AnnouncementOK(w, a))
    && (forall i :: 0 <= i < |w.chain| - 1 ==> HasLeft(w, i))
  }

  /** A host is at the last epoch. */
  lemma HostIsLast(w: World, p: PeerId)
    requires Inv(w) && p in w.members && IsHost(w.members[p], p)
    ensures w.members[p].clock.hostEpoch - w.first == |w.chain| - 1 && p == w.chain[|w.chain| - 1]
  {
    var i := w.members[p].clock.hostEpoch - w.first;
    assert 0 <= i < |w.chain| - 1 ==> HasLeft(w, i);
    assert MemberOK(w, p);
  }

  lemma HandOverKeeps(w: World, p: PeerId, next: HostClock)
    requires Inv(w) && p in w.members && IsHost(w.members[p], p)
    requires next.hostEpoch == w.members[p].clock.hostEpoch + 1
    ensures Inv(HandedOver(w, p, next))
  {
    HostIsLast(w, p);
    var v := HandedOver(w, p, next);
    forall q | q in v.members ensures MemberOK(v, q) {
      assert q != p ==> MemberOK(w, q);
    }
    forall a | a in v.announced ensures AnnouncementOK(v, a) {
      assert a in w.announced ==> AnnouncementOK(w, a);
    }
    forall i | 0 <= i < |v.chain| - 1 ensures HasLeft(v, i) {
      assert i < |w.chain| - 1 ==> HasLeft(w, i);
    }
  }

  /** A member may move forward along the chain, or stay. */
  lemma MoveKeeps(w: World, p: PeerId, s: Coordinator)
    requires Inv(w) && OnChain(w, s.clock)
    requires if p in w.members then s.clock.hostEpoch >= w.members[p].clock.hostEpoch else true
    ensures Inv(Changed(w, p, s))
  {
    var v := Changed(w, p, s);
    forall q | q in v.members ensures MemberOK(v, q) {
      assert q != p ==> MemberOK(w, q);
    }
    forall a | a in v.announced ensures AnnouncementOK(v, a) {
      assert AnnouncementOK(w, a);
    }
    forall i | 0 <= i < |v.chain| - 1 ensures HasLeft(v, i) {
      assert HasLeft(w, i);
    }
  }

  lemma StepKeeps(w: World, e: Event)
    requires Inv(w) && Enabled(w, e)
    ensures Inv(Next(w, e))
  {
    match e
    case Transfer(p, target) => HandOverKeeps(w, p, NextClock(w.members[p].clock, target));
    case Commit(p, next) => HandOverKeeps(w, p, Followed(w.members[p], next, p).clock);
    case Deliver(a, p) =>
      assert MemberOK(w, p) && AnnouncementOK(w, a);
      MoveKeeps(w, p, Followed(w.members[p], AsRaw(a.clock), a.sender));
    case Notice(p, peers) =>
      assert MemberOK(w, p);
      MoveKeeps(w, p, w.members[p].(peers := peers));
    case Evaluate(p) =>
      assert MemberOK(w, p);
      MoveKeeps(w, p, Evaluated(w.members[p], p));
    case Join(p, from) =>
      assert MemberOK(w, from);
      MoveKeeps(w, p, Coordinator(w.members[from].clock, false, map[]));
  }

  lemma {:induction false} RunKeeps(w: World, events: seq<Event>)
    requires Inv(w) && IsRun(w, events)
    ensures Inv(Ran(w, events))
    decreases |events|
  {
    if events != [] {
      StepKeeps(w, events[0]);
      RunKeeps(Next(w, events[0]), events[1..]);
    }
  }

  // ----- Main results -----

  /** In every reachable state at most one member considers itself host. */
  lemma AtMostOneHost(host: PeerId, clock: HostClock, events: seq<Event>, p: PeerId, q: PeerId)
    requires clock.hostId == host && IsRun(Start(host, clock), events)
    requires var w := Ran(Start(host, clock), events);
      p in w.members && q in w.members && IsHost(w.members[p], p) && IsHost(w.members[q], q)
    ensures p == q
  {
    RunKeeps(Start(host, clock), events);
    HostIsLast(Ran(Start(host, clock), events), p);
    HostIsLast(Ran(Start(host, clock), events), q);
  }

  /** Two members at the same host epoch name the same host. */
  lemma EpochsAgree(host: PeerId, clock: HostClock, events: seq<Event>, p: PeerId, q: PeerId)
    requires clock.hostId == host && IsRun(Start(host, clock), events)
    requires var w := Ran(Start(host, clock), events);
      p in w.members && q in w.members && w.members[p].clock.hostEpoch == w.members[q].clock.hostEpoch
    ensures var w := Ran(Start(host, clock), events); w.members[p].clock.hostId == w.members[q].clock.hostId
  {
    RunKeeps(Start(host, clock), events);
    var w := Ran(Start(host, clock), events);
    assert MemberOK(w, p) && MemberOK(w, q);
  }

  /** A member's host epoch never goes back, and it keeps its session. */
  lemma {:induction false} EpochNeverGoesBack(w: World, events: seq<Event>, p: PeerId)
    requires IsRun(w, events) && p in w.members
    ensures p in Ran(w, events).members
    ensures w.members[p].clock.hostEpoch <= Ran(w, events).members[p].clock.hostEpoch
    ensures w.members[p].clock.sessionEpoch == Ran(w, events).members[p].clock.sessionEpoch
    decreases |events|
  {
    if events != [] {
      EpochNeverGoesBack(Next(w, events[0]), events[1..], p);
    }
  }

  // ----- Who has fallen behind can catch up -----

  /** The announcement with which epoch `i` of the chain began. */
  function Opening(w: World, session: int, i: int): Announcement
    requires 0 < i < |w.chain|
  {
    Announcement(w.chain[i - 1], HostClock(session, w.first + i, w.chain[i]))
  }

  predicate IsOpened(w: World, session: int, i: int)
    requires 0 < i < |w.chain|
  {
    Opening(w, session, i) in w.announced
  }

  /** One session, and every epoch after the first was announced by the host before. */
  ghost predicate AllAnnounced(w: World, session: int) {
    && (forall p :: p in w.members ==> w.members[p].clock.sessionEpoch == session)
    && forall i :: 0 < i < |w.chain| ==> IsOpened(w, session, i)
  }

  lemma HandOverAnnounces(w: World, p: PeerId, next: HostClock, session: int)
    requires Inv(w) && AllAnnounced(w, session) && p in w.members && IsHost(w.members[p], p)
    requires next.hostEpoch == w.members[p].clock.hostEpoch + 1 && next.sessionEpoch == session
    ensures AllAnnounced(HandedOver(w, p, next), session)
  {
    HostIsLast(w, p);
    var v := HandedOver(w, p, next);
    forall i | 0 < i < |v.chain| ensures IsOpened(v, session, i) {
      assert i < |w.chain| ==> IsOpened(w, session, i) && Opening(v, session, i) == Opening(w, session, i);
    }
  }

  lemma MoveAnnounces(w: World, p: PeerId, s: Coordinator, session: int)
    requires AllAnnounced(w, session) && s.clock.sessionEpoch == session
    ensures AllAnnounced(Changed(w, p, s), session)
  {
    forall i | 0 < i < |w.chain| ensures IsOpened(Changed(w, p, s), session, i) {
      assert IsOpened(w, session, i);
    }
  }

  lemma StepAnnounces(w: World, e: Event, session: int)
    requires Inv(w) && AllAnnounced(w, session) && Enabled(w, e)
    ensures AllAnnounced(Next(w, e), session)
  {
    match e
    case Transfer(p, target) => HandOverAnnounces(w, p, NextClock(w.members[p].clock, target), session);
    case Commit(p, next) => HandOverAnnounces(w, p, Followed(w.members[p], next, p).clock, session);
    case Deliver(a, p) => MoveAnnounces(w, p, Followed(w.members[p], AsRaw(a.clock), a.sender), session);
    case Notice(p, peers) => MoveAnnounces(w, p, w.members[p].(peers := peers), session);
    case Evaluate(p) => MoveAnnounces(w, p, Evaluated(w.members[p], p), session);
    case Join(p, from) => MoveAnnounces(w, p, Coordinator(w.members[from].clock, false, map[]), session);
  }

  lemma {:induction false} RunAnnounces(w: World, events: seq<Event>, session: int)
    requires Inv(w) && AllAnnounced(w, session) && IsRun(w, events)
    ensures AllAnnounced(Ran(w, events), session)
    decreases |events|
  {
    if events != [] {
      StepKeeps(w, events[0]);
      StepAnnounces(w, events[0], session);
      RunAnnounces(Next(w, events[0]), events[1..], session);
    }
  }

  /** Clocks that are well formed: the session is a number the protocol can carry, and so are epochs and names. */
  predicate AreWellFormed(w: World, session: int) {
    && 0 < session <= MaxSafeInteger && 0 <= w.first && w.first + |w.chain| - 1 <= MaxSafeInteger
    && forall i :: 0 <= i < |w.chain| ==> IsPeerId(w.chain[i])
  }

  /** The announcement of the next epoch moves a member there. */
  lemma OpeningIsFollowed(w: World, p: PeerId, session: int)
    requires Inv(w) && AllAnnounced(w, session) && AreWellFormed(w, session) && p in w.members
    requires w.members[p].clock.hostEpoch - w.first < |w.chain| - 1
    ensures var i := w.members[p].clock.hostEpoch - w.first + 1; (
      && 0 < i && Enabled(w, Deliver(Opening(w, session, i), p))
      && Next(w, Deliver(Opening(w, session, i), p))
      == Changed(w, p, w.members[p].(clock := Opening(w, session, i).clock)))
  {
    assert MemberOK(w, p);
    var i := w.members[p].clock.hostEpoch - w.first + 1;
    assert IsOpened(w, session, i);
  }

  predicate AreDeliveries(events: seq<Event>, p: PeerId) {
    forall k :: 0 <= k < |events| ==> events[k].Deliver? && events[k].p == p
  }

  lemma {:induction false} MemberCatchesUp(w: World, p: PeerId, session: int) returns (more: seq<Event>)
    requires Inv(w) && AllAnnounced(w, session) && AreWellFormed(w, session) && p in w.members
    ensures AreDeliveries(more, p) && IsRun(w, more)
    ensures Ran(w, more).chain == w.chain && p in Ran(w, more).members
    ensures Ran(w, more).members[p].clock
         == HostClock(session, w.first + |w.chain| - 1, w.chain[|w.chain| - 1])
    decreases w.first + |w.chain| - w.members[p].clock.hostEpoch
  {
    assert MemberOK(w, p);
    var i := w.members[p].clock.hostEpoch - w.first;
    if i == |w.chain| - 1 {
      more := [];
    } else {
      OpeningIsFollowed(w, p, session);
      var e := Deliver(Opening(w, session, i + 1), p);
      StepKeeps(w, e);
      StepAnnounces(w, e, session);
      var rest := MemberCatchesUp(Next(w, e), p, session);
      more := StartsWith(w, e, rest);
    }
  }

  /**
   In every reachable state a member that has fallen behind reaches the last epoch and its host by hearing what was
   announced, whatever it missed.
   */
  lemma EveryoneCatchesUp(host: PeerId, clock: HostClock, events: seq<Event>, p: PeerId) returns (more: seq<Event>)
    requires clock.hostId == host && IsRun(Start(host, clock), events) && p in Ran(Start(host, clock), events).members
    requires AreWellFormed(Ran(Start(host, clock), events), clock.sessionEpoch)
    ensures var w := Ran(Start(host, clock), events); (
      && AreDeliveries(more, p) && IsRun(w, more) && w.chain != [] && p in Ran(w, more).members
      && Ran(w, more).members[p].clock
      == HostClock(clock.sessionEpoch, w.first + |w.chain| - 1, w.chain[|w.chain| - 1]))
  {
    RunKeeps(Start(host, clock), events);
    RunAnnounces(Start(host, clock), events, clock.sessionEpoch);
    more := MemberCatchesUp(Ran(Start(host, clock), events), p, clock.sessionEpoch);
  }

  // ----- Coming back with an old clock -----

  /** Who still takes `p` for the host has heard less than `p` itself. */
  lemma FormerHostIsAhead(w: World, p: PeerId, q: PeerId, from: PeerId)
    requires Inv(w) && q in w.members && from in w.members && p != q
    requires w.members[from].clock.hostId == p && IsHost(w.members[q], q)
    ensures p in w.members && w.members[from].clock.hostEpoch < w.members[p].clock.hostEpoch
  {
    HostIsLast(w, q);
    assert MemberOK(w, from);
    assert HasLeft(w, w.members[from].clock.hostEpoch - w.first);
  }

  /**
   While another member is host, coming back with a clock that names oneself makes a second host, and such a clock is
   always older than one's own: whoever has heard as much as the member itself does not take it for the host any more.
   */
  lemma RejoinMakesTwoHosts(w: World, p: PeerId, q: PeerId, from: PeerId)
    requires Inv(w) && p in w.members && q in w.members && from in w.members && p != q && IsHost(w.members[q], q)
    ensures var v := Joined(w, p, from); var own, got := w.members[p].clock, w.members[from].clock; (
      && (IsHost(v.members[p], p) && IsHost(v.members[q], q) ==> got.hostEpoch < own.hostEpoch)
      && (got.hostEpoch >= own.hostEpoch ==> forall r :: r in v.members && IsHost(v.members[r], r) ==> r == q))
  {
    if w.members[from].clock.hostId == p {
      FormerHostIsAhead(w, p, q, from);
    }
    forall r | r in w.members && IsHost(w.members[r], r) ensures r == q {
      HostIsLast(w, r);
      HostIsLast(w, q);
    }
  }

  /**
   Among clocks older than its own, those that take the member for the host are exactly the ones that make it a second
   one.
   */
  lemma OlderClockAlone(w: World, p: PeerId, q: PeerId, from: PeerId)
    requires Inv(w) && p in w.members && q in w.members && from in w.members && p != q && IsHost(w.members[q], q)
    ensures IsHost(Joined(w, p, from).members[p], p) <==> (
      w.chain[w.members[from].clock.hostEpoch - w.first] == p
      && w.members[from].clock.hostEpoch < w.members[p].clock.hostEpoch)
  {
    assert MemberOK(w, from);
    if w.members[from].clock.hostId == p {
      FormerHostIsAhead(w, p, q, from);
    }
  }

  /**
   It can happen: `a` hands over to `b`, who has heard of it, while `c` has not. Were `a` let in again with the clock
   of `c`, both `a` and `b` would be host.
   */
  lemma OldClockMakesTwoHosts(a: PeerId, b: PeerId, c: PeerId, clock: HostClock) returns (events: seq<Event>)
    requires a != b && b != c && c != a && clock.hostId == a && IsPeerId(b) && 0 < clock.sessionEpoch <= MaxSafeInteger
    requires 0 <= clock.hostEpoch < MaxSafeInteger
    ensures IsRun(Start(a, clock), events)
    ensures var w := Ran(Start(a, clock), events); (
      && a in w.members && b in w.members && c in w.members && !MayJoin(w, a, c)
      && IsHost(Joined(w, a, c).members[a], a) && IsHost(Joined(w, a, c).members[b], b))
  {
    var said := Announcement(a, NextClock(clock, b));
    var w1 := Next(Start(a, clock), Join(b, a));
    var w2 := Next(w1, Join(c, a));
    var w3 := Next(w2, Notice(a, map[b := PeerRuntime(true, None)]));
    var w4 := Next(w3, Transfer(a, b));
    events := StartsWith(w4, Deliver(said, b), []);
    events := StartsWith(w3, Transfer(a, b), events);
    events := StartsWith(w2, Notice(a, map[b := PeerRuntime(true, None)]), events);
    events := StartsWith(w1, Join(c, a), events);
    events := StartsWith(Start(a, clock), Join(b, a), events);
  }

  lemma StartsWith(w: World, e: Event, rest: seq<Event>) returns (events: seq<Event>)
    requires Enabled(w, e) && IsRun(Next(w, e), rest)
    ensures events == [e] + rest && IsRun(w, events) && Ran(w, events) == Ran(Next(w, e), rest)
  {
    events := [e] + rest;
    assert events[1..] == rest;
  }
}

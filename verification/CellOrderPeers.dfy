/**
 Duplicate removal on several peers (src/core/crdt.ts).

 The shared array is a list of items in one fixed document order, each with the entry it carries; `doc` lists every
 item that is ever inserted. A peer's view is the items it knows and those it knows to be deleted, and merging two
 views unites both.
 */
module CellOrderPeers {
  import opened CellOrder
  import opened FiniteSets

  type Document = seq<OrderEntry>

  datatype View = View(known: set<nat>, deleted: set<nat>)

  function Visible(v: View): set<nat> { v.known - v.deleted }

  function Merged(a: View, b: View): View { View(a.known + b.known, a.deleted + b.deleted) }

  /** The entries of some items, in document order, up to item `n`. */
  function Shown(doc: Document, items: set<nat>, n: nat): seq<OrderEntry>
    requires n <= |doc|
  {
    if n == 0 then [] else if n - 1 in items then Shown(doc, items, n - 1) + [doc[n - 1]] else Shown(doc, items, n - 1)
  }

  function Order(doc: Document, v: View): seq<OrderEntry> { Shown(doc, Visible(v), |doc|) }

  ghost predicate Within(doc: Document, items: set<nat>) { forall i :: i in items ==> i < |doc| }

  /** Item `i` carries no valid id, or one that an earlier item carries. */
  ghost predicate IsDuplicate(doc: Document, items: set<nat>, i: nat)
    requires i < |doc|
  {
    !IsCellId(doc[i]) || exists j :: 0 <= j < i && j in items && doc[j] == doc[i]
  }

  ghost function Firsts(doc: Document, items: set<nat>): set<nat>
    requires Within(doc, items)
  {
    set i | i in items && !IsDuplicate(doc, items, i)
  }

  /** The valid ids some items carry. */
  ghost function Ids(doc: Document, items: set<nat>): set<OrderEntry>
    requires Within(doc, items)
  {
    set i | i in items && IsCellId(doc[i]) :: doc[i]
  }

  ghost predicate BelowLimit(doc: Document, items: set<nat>) {
    Within(doc, items) && |Ids(doc, items)| <= MaxNotebookCells
  }

  /** What normalization deletes at a peer. */
  ghost function Normalized(doc: Document, v: View): View
    requires Within(doc, v.known)
  {
    v.(deleted := v.deleted + (Visible(v) - Firsts(doc, Visible(v))))
  }

  // ----- Normalization of a view is the algorithm on the order it shows -----

  lemma {:induction false} FirstExists(doc: Document, items: set<nat>, i: nat)
    requires Within(doc, items) && i in items && IsCellId(doc[i])
    ensures exists j :: 0 <= j <= i && j in Firsts(doc, items) && doc[j] == doc[i]
    decreases i
  {
    if IsDuplicate(doc, items, i) {
      var j :| 0 <= j < i && j in items && doc[j] == doc[i];
      FirstExists(doc, items, j);
    } else {
      assert i in Firsts(doc, items);
    }
  }

  lemma {:induction false} ShownEntries(doc: Document, items: set<nat>, n: nat, e: OrderEntry)
    requires n <= |doc|
    ensures e in Shown(doc, items, n) <==> exists j :: 0 <= j < n && j in items && doc[j] == e
  {
    if n > 0 {
      ShownEntries(doc, items, n - 1, e);
    }
  }

  ghost function Entries(order: seq<OrderEntry>): set<OrderEntry> { set e | e in order }

  lemma {:induction false} DistinctCount(order: seq<OrderEntry>)
    requires AllDistinct(order)
    ensures |Entries(order)| == |order|
  {
    if order == [] {
      assert Entries(order) == {};
    } else {
      var last := order[|order| - 1];
      DistinctCount(order[..|order| - 1]);
      assert Entries(order) == Entries(order[..|order| - 1]) + {last};
      assert last !in order[..|order| - 1];
    }
  }

  /** Below the limit there is always room for one more id. */
  lemma RoomForOne(doc: Document, items: set<nat>, kept: seq<OrderEntry>, e: OrderEntry)
    requires BelowLimit(doc, items) && AllDistinct(kept) && e !in kept && e in Ids(doc, items)
    requires forall k :: k in kept ==> k in Ids(doc, items)
    ensures |kept| < MaxNotebookCells
  {
    DistinctCount(kept);
    SubsetIsSmaller(Entries(kept) + {e}, Ids(doc, items));
  }

  lemma FirstOccurrencesAreIds(doc: Document, items: set<nat>, n: nat)
    requires n <= |doc| && Within(doc, items)
    ensures forall k :: k in FirstOccurrences(Shown(doc, items, n)) ==> k in Ids(doc, items)
  {
    forall k | k in FirstOccurrences(Shown(doc, items, n)) ensures k in Ids(doc, items) {
      ShownEntries(doc, items, n, k);
    }
  }

  /** Whether the algorithm deletes item `n` is whether it is a duplicate among the items. */
  lemma RepeatIsDuplicate(doc: Document, items: set<nat>, n: nat)
    requires n < |doc| && BelowLimit(doc, items) && n in items
    requires FirstOccurrences(Shown(doc, items, n)) == Shown(doc, Firsts(doc, items), n)
    ensures IsRepeat(FirstOccurrences(Shown(doc, items, n)), doc[n]) <==> IsDuplicate(doc, items, n)
  {
    var kept := FirstOccurrences(Shown(doc, items, n));
    var e := doc[n];
    ShownEntries(doc, Firsts(doc, items), n, e);
    if IsCellId(e) {
      if e !in kept {
        FirstOccurrencesAreDistinct(Shown(doc, items, n));
        FirstOccurrencesAreIds(doc, items, n);
        RoomForOne(doc, items, kept, e);
      }
      if IsDuplicate(doc, items, n) {
        var j :| 0 <= j < n && j in items && doc[j] == e;
        FirstExists(doc, items, j);
      }
    }
  }

  lemma {:induction false} AlgorithmKeepsFirsts(doc: Document, items: set<nat>, n: nat)
    requires n <= |doc| && BelowLimit(doc, items)
    ensures FirstOccurrences(Shown(doc, items, n)) == Shown(doc, Firsts(doc, items), n)
  {
    if n > 0 {
      AlgorithmKeepsFirsts(doc, items, n - 1);
      var before := Shown(doc, items, n - 1);
      if n - 1 in items {
        RepeatIsDuplicate(doc, items, n - 1);
        assert (before + [doc[n - 1]])[..|before|] == before;
      }
    }
  }

  lemma {:induction false} AscendingIsBounded(positions: seq<nat>, limit: nat, p: nat)
    requires Ascending(positions, limit) && p in positions
    ensures p < limit
  {
    var last := positions[|positions| - 1];
    if p != last {
      AscendingIsBounded(positions[..|positions| - 1], last, p);
    }
  }

  lemma DuplicatesAreInside(order: seq<OrderEntry>)
    ensures |order| !in Duplicates(order)
  {
    if |order| in Duplicates(order) {
      AscendingIsBounded(Duplicates(order), |order|, |order|);
    }
  }

  lemma DuplicatesAppend(order: seq<OrderEntry>, e: OrderEntry)
    ensures var repeat := if IsRepeat(FirstOccurrences(order), e) then [|order|] else [];
      Duplicates(order + [e]) == Duplicates(order) + repeat
  {
    assert (order + [e])[..|order|] == order;
  }

  lemma EarlierPosition(order: seq<OrderEntry>, e: OrderEntry, p: nat)
    requires p < |order|
    ensures p in Duplicates(order + [e]) <==> p in Duplicates(order)
  {
    DuplicatesAppend(order, e);
  }

  lemma LastPosition(order: seq<OrderEntry>, e: OrderEntry)
    ensures |order| in Duplicates(order + [e]) <==> IsRepeat(FirstOccurrences(order), e)
  {
    DuplicatesAppend(order, e);
    DuplicatesAreInside(order);
  }

  lemma {:induction false} ShownGrows(doc: Document, items: set<nat>, i: nat, n: nat)
    requires i < n <= |doc| && i in items
    ensures |Shown(doc, items, i)| < |Shown(doc, items, n)|
  {
    if i < n - 1 {
      ShownGrows(doc, items, i, n - 1);
    }
  }

  /** The positions the algorithm deletes are those of the items that are duplicates. */
  lemma {:induction false} DeletedPositionsAreDuplicates(doc: Document, items: set<nat>, n: nat, i: nat)
    requires n <= |doc| && BelowLimit(doc, items) && i < n && i in items
    ensures |Shown(doc, items, i)| in Duplicates(Shown(doc, items, n)) <==> IsDuplicate(doc, items, i)
  {
    if i == n - 1 {
      AlgorithmKeepsFirsts(doc, items, i);
      RepeatIsDuplicate(doc, items, i);
      LastPosition(Shown(doc, items, i), doc[i]);
    } else {
      DeletedPositionsAreDuplicates(doc, items, n - 1, i);
      if n - 1 in items {
        ShownGrows(doc, items, i, n - 1);
        EarlierPosition(Shown(doc, items, n - 1), doc[n - 1], |Shown(doc, items, i)|);
      }
    }
  }

  /** A normalized view shows the first occurrence of each valid id of the view. */
  lemma NormalizedShowsFirsts(doc: Document, v: View)
    requires BelowLimit(doc, Visible(v)) && Within(doc, v.known)
    ensures Visible(Normalized(doc, v)) == Firsts(doc, Visible(v))
    ensures Order(doc, Normalized(doc, v)) == FirstOccurrences(Order(doc, v))
  {
    AlgorithmKeepsFirsts(doc, Visible(v), |doc|);
    assert Visible(Normalized(doc, v)) == Firsts(doc, Visible(v));
  }

  // ----- Confluence -----

  /** Duplicates stay duplicates among more items. */
  lemma StaysDuplicate(doc: Document, fewer: set<nat>, more: set<nat>, i: nat)
    requires fewer <= more && i < |doc| && IsDuplicate(doc, fewer, i)
    ensures IsDuplicate(doc, more, i)
  {
  }

  /** Dropping duplicates changes no first occurrence. */
  lemma DroppingDuplicates(doc: Document, items: set<nat>, rest: set<nat>)
    requires Within(doc, items) && rest <= items && Firsts(doc, items) <= rest
    ensures Firsts(doc, rest) == Firsts(doc, items)
  {
    forall i | i in Firsts(doc, rest) ensures i in Firsts(doc, items) {
      if IsDuplicate(doc, items, i) {
        var j :| 0 <= j < i && j in items && doc[j] == doc[i];
        FirstExists(doc, items, j);
      }
    }
  }

  /**
   Normalizing two views, merging and normalizing again keeps the same items as merging first, exactly when neither
   normalization deleted an item that comes first once both views' deletions are known.
   */
  lemma NormalizeThenMerge(doc: Document, a: View, b: View)
    requires Within(doc, a.known) && Within(doc, b.known)
    ensures var direct := Firsts(doc, Visible(Merged(a, b)));
      Firsts(doc, Visible(Merged(Normalized(doc, a), Normalized(doc, b)))) == direct
      <==> direct !! (Visible(a) - Firsts(doc, Visible(a))) + (Visible(b) - Firsts(doc, Visible(b)))
  {
    var items := Visible(Merged(a, b));
    var dropped := (Visible(a) - Firsts(doc, Visible(a))) + (Visible(b) - Firsts(doc, Visible(b)));
    var rest := Visible(Merged(Normalized(doc, a), Normalized(doc, b)));
    assert rest == items - dropped;
    if Firsts(doc, items) !! dropped {
      DroppingDuplicates(doc, items, rest);
    } else {
      assert exists i :: i in Firsts(doc, items) && i !in rest;
    }
  }

  /** Views that differ only by insertions: normalizing before merging makes no difference. */
  lemma NormalizationIsConfluent(doc: Document, a: View, b: View)
    requires Within(doc, a.known) && Within(doc, b.known) && a.deleted == b.deleted
    requires BelowLimit(doc, Visible(Merged(a, b)))
    ensures var early := Merged(Normalized(doc, a), Normalized(doc, b)); (
      && Visible(Normalized(doc, early)) == Visible(Normalized(doc, Merged(a, b)))
      && Order(doc, Normalized(doc, early)) == FirstOccurrences(Order(doc, Merged(a, b))))
  {
    var items := Visible(Merged(a, b));
    var early := Merged(Normalized(doc, a), Normalized(doc, b));
    forall i | i in Firsts(doc, items)
      ensures i !in Visible(a) - Firsts(doc, Visible(a)) && i !in Visible(b) - Firsts(doc, Visible(b))
    {
      if i in Visible(a) && IsDuplicate(doc, Visible(a), i) {
        StaysDuplicate(doc, Visible(a), items, i);
      }
      if i in Visible(b) && IsDuplicate(doc, Visible(b), i) {
        StaysDuplicate(doc, Visible(b), items, i);
      }
    }
    NormalizeThenMerge(doc, a, b);
    FewerBelowLimit(doc, items, Visible(early));
    NormalizedShowsFirsts(doc, early);
    NormalizedShowsFirsts(doc, Merged(a, b));
  }

  lemma FewerBelowLimit(doc: Document, items: set<nat>, fewer: set<nat>)
    requires BelowLimit(doc, items) && fewer <= items
    ensures BelowLimit(doc, fewer)
  {
    SubsetIsSmaller(Ids(doc, fewer), Ids(doc, items));
  }

  // ----- Any number of peers -----

  datatype Peer = Peer(n: nat)

  datatype Event = Insert(p: Peer, i: nat) | Delete(p: Peer, i: nat) | Normalize(p: Peer) | Receive(p: Peer, q: Peer)

  type Views = map<Peer, View>

  /**
   An item is inserted once, anywhere in the document, and deleted by a user who sees it; what a peer receives is all
   another peer has.
   */
  predicate Enabled(doc: Document, views: Views, e: Event) {
    match e
    case Insert(p, i) => p in views && i < |doc| && forall q :: q in views ==> i !in views[q].known
    case Delete(p, i) => p in views && i in Visible(views[p])
    case Normalize(p) => p in views
    case Receive(p, q) => p in views && q in views
  }

  ghost function Next(doc: Document, views: Views, e: Event): Views
    requires AllWithin(doc, views) && Enabled(doc, views, e)
  {
    match e
    case Insert(p, i) => views[p := views[p].(known := views[p].known + {i})]
    case Delete(p, i) => views[p := views[p].(deleted := views[p].deleted + {i})]
    case Normalize(p) => views[p := Normalized(doc, views[p])]
    case Receive(p, q) => views[p := Merged(views[p], views[q])]
  }

  ghost predicate AllWithin(doc: Document, views: Views) { forall p :: p in views ==> Within(doc, views[p].known) }

  ghost predicate IsRun(doc: Document, views: Views, events: seq<Event>)
    decreases |events|
  {
    AllWithin(doc, views)
    && (events == [] || (Enabled(doc, views, events[0]) && IsRun(doc, Next(doc, views, events[0]), events[1..])))
  }

  ghost function Ran(doc: Document, views: Views, events: seq<Event>): Views
    requires IsRun(doc, views, events)
    decreases |events|
  {
    if events == [] then views else Ran(doc, Next(doc, views, events[0]), events[1..])
  }

  /** No user deletes a cell. */
  predicate NoDeletion(events: seq<Event>) { forall k :: 0 <= k < |events| ==> !events[k].Delete? }

  /** A view has deleted only duplicates of what it knows. */
  ghost predicate OnlyDuplicates(doc: Document, v: View) {
    Within(doc, v.known) && v.deleted <= v.known && forall i :: i in v.deleted ==> IsDuplicate(doc, v.known, i)
  }

  lemma ReceiveKeeps(doc: Document, a: View, b: View)
    requires OnlyDuplicates(doc, a) && OnlyDuplicates(doc, b)
    ensures OnlyDuplicates(doc, Merged(a, b))
  {
    var m := Merged(a, b);
    forall i | i in m.deleted ensures IsDuplicate(doc, m.known, i) {
      if i in a.deleted {
        StaysDuplicate(doc, a.known, m.known, i);
      } else {
        StaysDuplicate(doc, b.known, m.known, i);
      }
    }
  }

  lemma NormalizeKeeps(doc: Document, v: View)
    requires OnlyDuplicates(doc, v)
    ensures OnlyDuplicates(doc, Normalized(doc, v))
  {
    forall i | i in Normalized(doc, v).deleted ensures i in v.known && IsDuplicate(doc, v.known, i) {
      if i !in v.deleted {
        StaysDuplicate(doc, Visible(v), v.known, i);
      }
    }
  }

  lemma InsertKeeps(doc: Document, v: View, i: nat)
    requires OnlyDuplicates(doc, v) && i < |doc|
    ensures OnlyDuplicates(doc, v.(known := v.known + {i}))
  {
    forall d | d in v.deleted ensures IsDuplicate(doc, v.known + {i}, d) {
      StaysDuplicate(doc, v.known, v.known + {i}, d);
    }
  }

  ghost predicate Inv(doc: Document, views: Views) { forall p :: p in views ==> OnlyDuplicates(doc, views[p]) }

  lemma StepKeeps(doc: Document, views: Views, e: Event)
    requires Inv(doc, views) && AllWithin(doc, views) && Enabled(doc, views, e) && !e.Delete?
    ensures Inv(doc, Next(doc, views, e))
  {
    match e
    case Insert(p, i) => InsertKeeps(doc, views[p], i);
    case Normalize(p) => NormalizeKeeps(doc, views[p]);
    case Receive(p, q) => ReceiveKeeps(doc, views[p], views[q]);
  }

  lemma {:induction false} RunKeeps(doc: Document, views: Views, events: seq<Event>)
    requires Inv(doc, views) && IsRun(doc, views, events) && NoDeletion(events)
    ensures Inv(doc, Ran(doc, views, events))
    decreases |events|
  {
    if events != [] {
      StepKeeps(doc, views, events[0]);
      RunKeeps(doc, Next(doc, views, events[0]), events[1..]);
    }
  }

  /**
   However insertions, normalizations and exchanges interleave, while no user deletes a cell, what a peer shows once
   normalized depends only on the items it knows: the first occurrence of each valid id. Two peers that know the same
   items show the same order.
   */
  lemma PeersConverge(doc: Document, views: Views, events: seq<Event>, p: Peer)
    requires forall q :: q in views ==> views[q] == View({}, {})
    requires IsRun(doc, views, events) && p in Ran(doc, views, events) && NoDeletion(events)
    requires BelowLimit(doc, Ran(doc, views, events)[p].known)
    ensures var v := Ran(doc, views, events)[p];
      Order(doc, Normalized(doc, v)) == FirstOccurrences(Shown(doc, v.known, |doc|))
  {
    RunKeeps(doc, views, events);
    var v := Ran(doc, views, events)[p];
    forall i | i in Firsts(doc, v.known) ensures i in Visible(v) {
    }
    DroppingDuplicates(doc, v.known, Visible(v));
    FewerBelowLimit(doc, v.known, Visible(v));
    NormalizedShowsFirsts(doc, v);
    AlgorithmKeepsFirsts(doc, v.known, |doc|);
  }

  // ----- With deletions by users -----

  /** Whatever changes a peer's view, its observer normalizes the view at once. */
  predicate IsPrompt(events: seq<Event>) {
    forall k :: 0 <= k < |events| && !events[k].Normalize? ==> (
        k + 1 < |events| && events[k + 1] == Normalize(events[k].p))
  }

  ghost predicate PromptRun(doc: Document, views: Views, events: seq<Event>) {
    IsRun(doc, views, events) && IsPrompt(events)
  }

  lemma StartsWith(doc: Document, views: Views, e: Event, rest: seq<Event>) returns (events: seq<Event>)
    requires AllWithin(doc, views) && Enabled(doc, views, e) && IsRun(doc, Next(doc, views, e), rest)
    ensures events == [e] + rest && IsRun(doc, views, events)
    ensures Ran(doc, views, events) == Ran(doc, Next(doc, views, e), rest)
  {
    events := [e] + rest;
    assert events[1..] == rest;
  }

  lemma PromptConcat(e: Event, rest: seq<Event>)
    requires !e.Normalize? && IsPrompt(rest)
    ensures IsPrompt([e, Normalize(e.p)] + rest)
  {
    var events := [e, Normalize(e.p)] + rest;
    forall k | 0 <= k < |events| && !events[k].Normalize?
      ensures k + 1 < |events| && events[k + 1] == Normalize(events[k].p)
    {
      assert k >= 2 ==> events[k] == rest[k - 2];
    }
  }

  /** A run that starts with a change, which leads to `after` once it is normalized. */
  lemma ChangesFirst(doc: Document, views: Views, e: Event, after: Views, rest: seq<Event>) returns (events: seq<Event>)
    requires AllWithin(doc, views) && Enabled(doc, views, e) && !e.Normalize? && AllWithin(doc, Next(doc, views, e))
    requires Next(doc, Next(doc, views, e), Normalize(e.p)) == after && PromptRun(doc, after, rest)
    ensures events == [e, Normalize(e.p)] + rest && PromptRun(doc, views, events)
    ensures Ran(doc, views, events) == Ran(doc, after, rest)
  {
    events := StartsWith(doc, Next(doc, views, e), Normalize(e.p), rest);
    events := StartsWith(doc, views, e, events);
    PromptConcat(e, rest);
    assert events == [e, Normalize(e.p)] + rest;
  }

  lemma FirstsOfTwo(e: OrderEntry)
    requires IsCellId(e)
    ensures Firsts([e, e], {0, 1}) == {0} && Firsts([e, e], {1}) == {1} && Firsts([e, e], {0}) == {0}
    ensures Firsts([e, e], {}) == {} && Shown([e, e], {}, 2) == [] && Shown([e, e], {1}, 2) == [e]
  {
    var doc := [e, e];
    assert IsDuplicate(doc, {0, 1}, 1) by {
      assert 0 in {0, 1} && doc[0] == doc[1];
    }
    assert !IsDuplicate(doc, {1}, 1) && !IsDuplicate(doc, {0, 1}, 0) && !IsDuplicate(doc, {0}, 0);
    assert Shown(doc, {1}, 1) == [] && Shown(doc, {}, 1) == [];
  }

  /** What normalization makes of the views that occur below. */
  lemma NormalizedViews(e: OrderEntry)
    requires IsCellId(e)
    ensures Normalized([e, e], View({0}, {})) == View({0}, {}) && Normalized([e, e], View({1}, {})) == View({1}, {})
    ensures Normalized([e, e], View({0}, {0})) == View({0}, {0})
    ensures Normalized([e, e], View({0, 1}, {})) == View({0, 1}, {1})
    ensures Normalized([e, e], View({0, 1}, {0})) == View({0, 1}, {0})
    ensures Normalized([e, e], View({0, 1}, {0, 1})) == View({0, 1}, {0, 1})
    ensures Visible(View({0, 1}, {0, 1})) == {} && Visible(View({0, 1}, {0})) == {1}
  {
    FirstsOfTwo(e);
    assert Visible(View({0}, {})) == {0} && Visible(View({1}, {})) == {1} && Visible(View({0}, {0})) == {};
    assert Visible(View({0, 1}, {})) == {0, 1};
  }

  function Both(p: Peer, q: Peer, a: View, b: View): Views { map[p := a, q := b] }

  const Empty := View({}, {})
  const HasFirst := View({0}, {})
  const HasSecond := View({1}, {})

  /** Both peers insert the same cell, as two concurrent moves of it do. */
  lemma BothInsert(e: OrderEntry, p: Peer, q: Peer, rest: seq<Event>) returns (events: seq<Event>)
    requires IsCellId(e) && p != q && PromptRun([e, e], Both(p, q, HasFirst, HasSecond), rest)
    ensures events == [Insert(p, 0), Normalize(p), Insert(q, 1), Normalize(q)] + rest
    ensures PromptRun([e, e], Both(p, q, Empty, Empty), events)
    ensures Ran([e, e], Both(p, q, Empty, Empty), events) == Ran([e, e], Both(p, q, HasFirst, HasSecond), rest)
  {
    NormalizedViews(e);
    assert {} + {0} == {0} && {} + {1} == {1};
    events := ChangesFirst([e, e], Both(p, q, HasFirst, Empty), Insert(q, 1), Both(p, q, HasFirst, HasSecond), rest);
    events := ChangesFirst([e, e], Both(p, q, Empty, Empty), Insert(p, 0), Both(p, q, HasFirst, Empty), events);
  }

  /** The user of `p` deletes the cell after `q` has received it: `q` has given up its own item for that of `p`. */
  lemma LosesCell(e: OrderEntry, p: Peer, q: Peer) returns (events: seq<Event>)
    requires IsCellId(e) && p != q
    ensures events == [Receive(q, p), Normalize(q), Delete(p, 0), Normalize(p), Receive(p, q), Normalize(p)]
    ensures PromptRun([e, e], Both(p, q, HasFirst, HasSecond), events)
    ensures Ran([e, e], Both(p, q, HasFirst, HasSecond), events)
         == Both(p, q, View({0, 1}, {0, 1}), View({0, 1}, {1}))
  {
    var doc := [e, e];
    NormalizedViews(e);
    var v1 := Both(p, q, HasFirst, View({0, 1}, {1}));
    var v2 := Both(p, q, View({0}, {0}), View({0, 1}, {1}));
    var v3 := Both(p, q, View({0, 1}, {0, 1}), View({0, 1}, {1}));
    assert Merged(HasSecond, HasFirst) == View({0, 1}, {}) && {} + {0} == {0};
    assert Merged(View({0}, {0}), View({0, 1}, {1})) == View({0, 1}, {0, 1});
    events := ChangesFirst(doc, v2, Receive(p, q), v3, []);
    events := ChangesFirst(doc, v1, Delete(p, 0), v2, events);
    events := ChangesFirst(doc, Both(p, q, HasFirst, HasSecond), Receive(q, p), v1, events);
  }

  /** The same deletion before the first exchange: `q` keeps its item, and `p` gets it. */
  lemma KeepsCell(e: OrderEntry, p: Peer, q: Peer) returns (events: seq<Event>)
    requires IsCellId(e) && p != q
    ensures events == [Delete(p, 0), Normalize(p), Receive(q, p), Normalize(q), Receive(p, q), Normalize(p)]
    ensures PromptRun([e, e], Both(p, q, HasFirst, HasSecond), events)
    ensures Ran([e, e], Both(p, q, HasFirst, HasSecond), events) == Both(p, q, View({0, 1}, {0}), View({0, 1}, {0}))
  {
    var doc := [e, e];
    NormalizedViews(e);
    var v1 := Both(p, q, View({0}, {0}), HasSecond);
    var v2 := Both(p, q, View({0}, {0}), View({0, 1}, {0}));
    var v3 := Both(p, q, View({0, 1}, {0}), View({0, 1}, {0}));
    assert {} + {0} == {0} && Merged(HasSecond, View({0}, {0})) == View({0, 1}, {0});
    assert Merged(View({0}, {0}), View({0, 1}, {0})) == View({0, 1}, {0});
    events := ChangesFirst(doc, v2, Receive(p, q), v3, []);
    events := ChangesFirst(doc, v1, Receive(q, p), v2, events);
    events := ChangesFirst(doc, Both(p, q, HasFirst, HasSecond), Delete(p, 0), v1, events);
  }

  ghost predicate ShowsAfter(doc: Document, views: Views, events: seq<Event>, p: Peer, order: seq<OrderEntry>) {
    PromptRun(doc, views, events) && p in Ran(doc, views, events) && Order(doc, Ran(doc, views, events)[p]) == order
  }

  /**
   With a concurrent deletion by a user a cell can be lost. Two peers insert it, and every view is normalized after each
   change. If the second peer receives the first one's item before its deletion, it deletes its own as a duplicate, and
   in the end the cell is gone; with the deletion received together with the item, it stays.
   */
  lemma DeletionLosesCell(e: OrderEntry, p: Peer, q: Peer) returns (lost: seq<Event>, kept: seq<Event>)
    requires IsCellId(e) && p != q
    ensures lost == [Insert(p, 0), Normalize(p), Insert(q, 1), Normalize(q)]
                    + [Receive(q, p), Normalize(q), Delete(p, 0), Normalize(p), Receive(p, q), Normalize(p)]
    ensures kept == [Insert(p, 0), Normalize(p), Insert(q, 1), Normalize(q)]
                    + [Delete(p, 0), Normalize(p), Receive(q, p), Normalize(q), Receive(p, q), Normalize(p)]
    ensures ShowsAfter([e, e], Both(p, q, Empty, Empty), lost, p, [])
    ensures ShowsAfter([e, e], Both(p, q, Empty, Empty), kept, p, [e])
  {
    FirstsOfTwo(e);
    NormalizedViews(e);
    var losing := LosesCell(e, p, q);
    lost := BothInsert(e, p, q, losing);
    var keeping := KeepsCell(e, p, q);
    kept := BothInsert(e, p, q, keeping);
  }
}

/**
 The redirect table of the storage adapter (src/core/persistence.ts): renames that were issued but have not yet
 reached the head of the serialized queue.
 */
module StorageRedirects {
  import opened Outcomes
  import opened ProjectPaths

  datatype Redirect = Redirect(from: Path, to: Path)

  function Moved(p: Path, r: Redirect): Path {
    if SameOrChild(p, r.from) then r.to + p[|r.from|..] else p
  }

  /** The renames applied once each, in the order they were issued. */
  function Replay(rs: seq<Redirect>, p: Path): Path {
    if rs == [] then p else Replay(rs[1..], Moved(p, rs[0]))
  }

  /** No rename stays inside its own tree, and no later target touches an earlier source. */
  ghost predicate Independent(rs: seq<Redirect>) {
    && (forall i :: 0 <= i < |rs| ==> !Comparable(rs[i].from, rs[i].to))
    && (forall i, j :: 0 <= i < j < |rs| ==> !Comparable(rs[j].to, rs[i].from))
  }

  /** Nothing among the first `k` redirects applies. */
  ghost predicate Settled(rs: seq<Redirect>, k: int, p: Path)
    requires 0 <= k <= |rs|
  {
    forall i :: 0 <= i < k ==> !SameOrChild(p, rs[i].from)
  }

  lemma {:induction false} ReplaySkips(rs: seq<Redirect>, k: int, p: Path)
    requires 0 <= k <= |rs| && Settled(rs, k, p)
    ensures Replay(rs, p) == Replay(rs[k..], p)
  {
    if k == 0 {
      assert rs[0..] == rs;
    } else {
      assert !SameOrChild(p, rs[0].from);
      ReplaySkips(rs[1..], k - 1, p);
      assert rs[1..][k - 1..] == rs[k..];
    }
  }

  /** After the first applicable redirect none up to and including it applies again. */
  lemma MoveSettles(rs: seq<Redirect>, k: int, p: Path)
    requires Independent(rs) && 0 <= k < |rs| && Settled(rs, k, p) && SameOrChild(p, rs[k].from)
    ensures Settled(rs, k + 1, Moved(p, rs[k]))
    ensures Replay(rs[k..], p) == Replay(rs[k + 1..], Moved(p, rs[k]))
  {
    var q := Moved(p, rs[k]);
    forall i | 0 <= i < k + 1 ensures !SameOrChild(q, rs[i].from) {
      if SameOrChild(q, rs[i].from) {
        PrefixesComparable(rs[i].from, rs[k].to, q);
        assert false;
      }
    }
    assert rs[k..][1..] == rs[k + 1..];
  }

  lemma {:induction false} ReplayConcat(a: seq<Redirect>, b: seq<Redirect>, p: Path)
    ensures Replay(a + b, p) == Replay(b, Replay(a, p))
  {
    if a == [] {
      assert a + b == b;
    } else {
      assert (a + b)[1..] == a[1..] + b;
      ReplayConcat(a[1..], b, Moved(p, a[0]));
    }
  }

  /** The first redirect that applies to `p`, from index `i` on. */
  function FirstMatch(rs: seq<Redirect>, i: nat, p: Path): (r: Option<nat>)
    requires i <= |rs|
    ensures r.Some? ==> i <= r.value < |rs| && SameOrChild(p, rs[r.value].from)
    ensures r.Some? ==> forall j :: i <= j < r.value ==> !SameOrChild(p, rs[j].from)
    ensures r.None? ==> forall j :: i <= j < |rs| ==> !SameOrChild(p, rs[j].from)
    decreases |rs| - i
  {
    if i == |rs| then None else if SameOrChild(p, rs[i].from) then Some(i) else FirstMatch(rs, i + 1, p)
  }

  /** The scan over the table. */
  method Scan(redirects: seq<Redirect>, current: Path) returns (found: Option<nat>)
    ensures found == FirstMatch(redirects, 0, current)
  {
    var i := 0;
    while i < |redirects|
      invariant 0 <= i <= |redirects| && FirstMatch(redirects, 0, current) == FirstMatch(redirects, i, current)
    {
      if SameOrChild(current, redirects[i].from) {
        return Some(i);
      }
      i := i + 1;
    }
    return None;
  }

  /**
   Restarting from the first applicable redirect until none applies ends, and gives the path's place after all
   renames in issue order.
   */
  method ResolveCurrentPath(redirects: seq<Redirect>, relativePath: Path) returns (current: Path)
    requires Independent(redirects)
    ensures current == Replay(redirects, relativePath)
  {
    current := relativePath;
    var visited: set<Path> := {};
    ghost var k := 0;
    StartsResolving(redirects, relativePath);
    while current !in visited
      invariant Resolving(redirects, relativePath, k, current, visited)
      decreases |redirects| - k
    {
      var next := Scan(redirects, current);
      if next.None? {
        AllSettled(redirects, k, current);
        return;
      }
      Advance(redirects, relativePath, k, next.value, current, visited);
      visited := visited + {current};
      current := Moved(current, redirects[next.value]);
      k := next.value + 1;
    }
  }

  lemma AllSettled(rs: seq<Redirect>, k: int, p: Path)
    requires 0 <= k <= |rs| && Settled(rs, |rs|, p)
    ensures Replay(rs[k..], p) == p
  {
    var rest := rs[k..];
    forall j | 0 <= j < |rest| ensures !SameOrChild(p, rest[j].from) {
      assert rest[j] == rs[k + j];
    }
    ReplaySkips(rest, |rest|, p);
    assert rest[|rest|..] == [];
  }

  /**
   Where the search stands: the first `k` redirects do not apply, the others lead on to the path's place, and to every
   path seen before one of the first `k` does apply.
   */
  ghost predicate Resolving(rs: seq<Redirect>, start: Path, k: int, current: Path, visited: set<Path>) {
    && 0 <= k <= |rs| && Settled(rs, k, current) && Replay(rs[k..], current) == Replay(rs, start)
    && forall v :: v in visited ==> !Settled(rs, k, v)
  }

  lemma StartsResolving(rs: seq<Redirect>, start: Path)
    ensures Resolving(rs, start, 0, start, {})
  {
    assert rs[0..] == rs;
  }

  lemma Advance(rs: seq<Redirect>, start: Path, k: int, i: int, p: Path, visited: set<Path>)
    requires Independent(rs) && Resolving(rs, start, k, p, visited) && 0 <= i < |rs| && Settled(rs, i, p)
    requires SameOrChild(p, rs[i].from)
    ensures k <= i && Resolving(rs, start, i + 1, Moved(p, rs[i]), visited + {p})
  {
    StepForward(rs, k, i, p);
    forall v | v in visited + {p} ensures !Settled(rs, i + 1, v) {
    }
  }

  lemma StepForward(rs: seq<Redirect>, k: int, i: int, p: Path)
    requires Independent(rs) && 0 <= k <= |rs| && 0 <= i < |rs|
    requires Settled(rs, k, p) && Settled(rs, i, p) && SameOrChild(p, rs[i].from)
    ensures k <= i && Settled(rs, i + 1, Moved(p, rs[i]))
    ensures Replay(rs[k..], p) == Replay(rs[i + 1..], Moved(p, rs[i]))
  {
    MoveSettles(rs, i, p);
    forall j | 0 <= j < i - k ensures !SameOrChild(p, rs[k..][j].from) {
      assert rs[k..][j] == rs[k + j];
    }
    ReplaySkips(rs[k..], i - k, p);
    assert rs[k..][i - k..] == rs[i..];
  }

  // ----- Two redirects: when the search never ends -----

  const A := Segment("a")
  const B := Segment("b")
  const X := Segment("x")
  const Y := Segment("y")

  /** One round of the source's loop. */
  function Round(rs: seq<Redirect>, p: Path): Path {
    var m := FirstMatch(rs, 0, p);
    if m.Some? then Moved(p, rs[m.value]) else p
  }

  function Rounds(rs: seq<Redirect>, p: Path, n: nat): Path
    decreases n
  {
    if n == 0 then p else Rounds(rs, Round(rs, p), n - 1)
  }

  /** After `n` rounds the search stops: nothing applies, or the path was seen after `m` rounds. */
  predicate StopsAt(rs: seq<Redirect>, p: Path, m: nat, n: nat) {
    FirstMatch(rs, 0, Rounds(rs, p, n)).None? || (m < n && Rounds(rs, p, m) == Rounds(rs, p, n))
  }

  ghost predicate Ends(rs: seq<Redirect>, p: Path) { exists m: nat, n: nat :: StopsAt(rs, p, m, n) }

  /** No rename moves a folder into itself. */
  predicate AreProper(r: Redirect, s: Redirect) { !Comparable(r.from, r.to) && !Comparable(s.from, s.to) }

  /** `r` and then `s`, where `s` applies to what `r` gives. */
  function Composed(r: Redirect, s: Redirect): Redirect
    requires Comparable(r.to, s.from)
  {
    if s.from <= r.to then Redirect(r.from, s.to + r.to[|s.from|..]) else Redirect(r.from + s.from[|r.to|..], s.to)
  }

  /** Together the two renames move a folder into itself. */
  predicate Nests(r: Redirect, s: Redirect) { Comparable(r.to, s.from) && Composed(r, s).from < Composed(r, s).to }

  lemma Cancel(a: Path, b: Path)
    requires a <= b
    ensures a + b[|a|..] == b
  {
  }

  lemma BelowConcat(a: Path, b: Path, x: Path)
    ensures a <= a + x && (a + x)[|a|..] == x && (a <= b ==> a <= b + x && (b + x)[|a|..] == b[|a|..] + x)
    ensures a <= b && b <= x ==> a <= x
  {
    assert a <= b ==> a + b[|a|..] == b;
    assert (b + x)[..|b|] == b;
  }

  /** A moved path is under the new folder and no longer under the old one. */
  lemma MovedAway(p: Path, r: Redirect)
    requires r.from <= p && !Comparable(r.from, r.to)
    ensures r.to <= Moved(p, r) && !SameOrChild(Moved(p, r), r.from)
  {
    if r.from <= Moved(p, r) {
      PrefixesComparable(r.from, r.to, Moved(p, r));
    }
  }

  /**
   `s` applies to what `r` gives exactly below the source of the composition, and then both move a path as it does.
   */
  lemma ComposedMoves(p: Path, r: Redirect, s: Redirect)
    requires r.from <= p && Comparable(r.to, s.from)
    ensures SameOrChild(Moved(p, r), s.from) <==> SameOrChild(p, Composed(r, s).from)
    ensures SameOrChild(p, Composed(r, s).from) ==> Moved(Moved(p, r), s) == Moved(p, Composed(r, s))
    ensures r.from <= Composed(r, s).from
  {
    var x := p[|r.from|..];
    assert p == r.from + x;
    if s.from <= r.to {
      var u := r.to[|s.from|..];
      assert r.to == s.from + u && r.to + x == s.from + (u + x);
      assert s.to + (u + x) == s.to + u + x;
    } else {
      var u := s.from[|r.to|..];
      assert s.from == r.to + u;
      if u <= x {
        var y := x[|u|..];
        assert x == u + y && r.to + x == s.from + y && p == r.from + u + y;
      }
      if s.from <= r.to + x {
        assert u == (r.to + x)[|r.to|..|s.from|] == x[..|u|];
      }
      if r.from + u <= p {
        assert u == p[|r.from|..|r.from + u|] == x[..|u|];
      }
    }
  }

  // One round, for a path under the first or only under the second source.

  lemma RoundFirst(r: Redirect, s: Redirect, p: Path)
    requires SameOrChild(p, r.from)
    ensures FirstMatch([r, s], 0, p) == Some(0) && Round([r, s], p) == Moved(p, r)
  {
  }

  lemma RoundSecond(r: Redirect, s: Redirect, p: Path)
    requires !SameOrChild(p, r.from) && SameOrChild(p, s.from)
    ensures FirstMatch([r, s], 0, p) == Some(1) && Round([r, s], p) == Moved(p, s)
  {
    assert FirstMatch([r, s], 0, p) == FirstMatch([r, s], 1, p);
  }

  lemma RoundNone(r: Redirect, s: Redirect, p: Path)
    requires !SameOrChild(p, r.from) && !SameOrChild(p, s.from)
    ensures FirstMatch([r, s], 0, p) == None && Ends([r, s], p)
  {
    assert FirstMatch([r, s], 0, p) == FirstMatch([r, s], 1, p) == FirstMatch([r, s], 2, p);
    assert StopsAt([r, s], p, 0, 0);
  }

  lemma EndsLater(rs: seq<Redirect>, p: Path)
    requires Ends(rs, Round(rs, p))
    ensures Ends(rs, p)
  {
    var m: nat, n: nat :| StopsAt(rs, Round(rs, p), m, n);
    assert StopsAt(rs, p, m + 1, n + 1);
  }

  /** A path that comes back after two rounds. */
  lemma EndsAgain(rs: seq<Redirect>, p: Path)
    requires Round(rs, Round(rs, p)) == p
    ensures Ends(rs, p)
  {
    assert Rounds(rs, p, 2) == Rounds(rs, Round(rs, p), 1) == Rounds(rs, Round(rs, Round(rs, p)), 0) == p;
    assert StopsAt(rs, p, 0, 2);
  }

  // The search ends unless the renames nest.

  /** From a path under the first source. */
  lemma {:induction false} EndsFromFirst(r: Redirect, s: Redirect, p: Path)
    requires AreProper(r, s) && !Nests(r, s) && SameOrChild(p, r.from)
    ensures Ends([r, s], p)
    decreases |p|, 1
  {
    var q := Moved(p, r);
    RoundFirst(r, s, p);
    MovedAway(p, r);
    if SameOrChild(q, s.from) {
      PrefixesComparable(r.to, s.from, q);
      EndsFromComposed(r, s, p);
    } else {
      RoundNone(r, s, q);
    }
    EndsLater([r, s], p);
  }

  /** Where the composition applies the path comes back, gets shorter, or leaves its place for good. */
  lemma {:induction false} EndsFromComposed(r: Redirect, s: Redirect, p: Path)
    requires AreProper(r, s) && !Nests(r, s) && SameOrChild(p, r.from) && Comparable(r.to, s.from)
    requires SameOrChild(Moved(p, r), s.from)
    ensures Ends([r, s], Moved(p, r))
    decreases |p|, 0
  {
    var q, c := Moved(p, r), Composed(r, s);
    var back := Moved(q, s);
    MovedAway(p, r);
    MovedAway(q, s);
    ComposedMoves(p, r, s);
    RoundFirst(r, s, p);
    RoundSecond(r, s, q);
    if !SameOrChild(back, r.from) {
      RoundNone(r, s, back);
    } else if c.to == c.from {
      Cancel(c.from, p);
      EndsAgain([r, s], q);
    } else if c.to <= c.from {
      EndsFromFirst(r, s, back);
    } else {
      LeavesForGood(r, s, back);
    }
    if c.to != c.from || !SameOrChild(back, r.from) {
      EndsLater([r, s], q);
    }
  }

  lemma LeavesForGood(r: Redirect, s: Redirect, p: Path)
    requires AreProper(r, s) && SameOrChild(p, r.from) && Comparable(r.to, s.from)
    requires SameOrChild(p, Composed(r, s).to) && !Comparable(Composed(r, s).from, Composed(r, s).to)
    ensures Ends([r, s], p)
  {
    RoundFirst(r, s, p);
    MovedAway(p, r);
    ComposedMoves(p, r, s);
    if SameOrChild(p, Composed(r, s).from) {
      PrefixesComparable(Composed(r, s).from, Composed(r, s).to, p);
    }
    RoundNone(r, s, Moved(p, r));
    EndsLater([r, s], p);
  }

  /** From anywhere. */
  lemma EndsUnlessNesting(r: Redirect, s: Redirect, p: Path)
    requires AreProper(r, s) && !Nests(r, s)
    ensures Ends([r, s], p)
  {
    if SameOrChild(p, r.from) {
      EndsFromFirst(r, s, p);
    } else if SameOrChild(p, s.from) {
      RoundSecond(r, s, p);
      MovedAway(p, s);
      if SameOrChild(Moved(p, s), r.from) {
        EndsFromFirst(r, s, Moved(p, s));
      } else {
        RoundNone(r, s, Moved(p, s));
      }
      EndsLater([r, s], p);
    } else {
      RoundNone(r, s, p);
    }
  }

  // It never ends if they do.

  /** Both rounds from below the source of the composition: the path gets longer by as much as the renames nest. */
  lemma TwoRounds(r: Redirect, s: Redirect, p: Path)
    requires AreProper(r, s) && Nests(r, s) && SameOrChild(p, Composed(r, s).from)
    ensures FirstMatch([r, s], 0, p).Some? && FirstMatch([r, s], 0, Round([r, s], p)).Some?
    ensures SameOrChild(p, r.from) && !SameOrChild(Round([r, s], p), r.from)
    ensures |Round([r, s], p)| == |p| + |r.to| - |r.from|
    ensures var c := Composed(r, s); var back := Round([r, s], Round([r, s], p)); (
      SameOrChild(back, c.from) && |back| == |p| + |c.to| - |c.from|)
  {
    var q, c := Moved(p, r), Composed(r, s);
    BelowConcat(r.from, c.from, p);
    assert r.from <= c.from by {
      ComposedFrom(r, s);
    }
    RoundFirst(r, s, p);
    MovedAway(p, r);
    ComposedMoves(p, r, s);
    RoundSecond(r, s, q);
    BelowConcat(c.from, c.to, p[|c.from|..]);
  }

  lemma ComposedFrom(r: Redirect, s: Redirect)
    requires Comparable(r.to, s.from)
    ensures r.from <= Composed(r, s).from
  {
  }

  /** After `n` rounds: a redirect applies, and the length tells how many rounds there were. */
  lemma {:induction false} GrowsOn(r: Redirect, s: Redirect, p: Path, n: nat)
    requires AreProper(r, s) && Nests(r, s) && SameOrChild(p, Composed(r, s).from)
    ensures var q, c := Rounds([r, s], p, n), Composed(r, s); (
      && FirstMatch([r, s], 0, q).Some? && (SameOrChild(q, r.from) <==> n % 2 == 0)
      && |q| == |p| + (n / 2) * (|c.to| - |c.from|) + if n % 2 == 0 then 0 else |r.to| - |r.from|)
    decreases n
  {
    TwoRounds(r, s, p);
    if n >= 2 {
      var rs := [r, s];
      var back := Round(rs, Round(rs, p));
      assert Rounds(rs, p, n) == Rounds(rs, Round(rs, p), n - 1) == Rounds(rs, back, n - 2);
      GrowsOn(r, s, back, n - 2);
      OneMore(n, |Composed(r, s).to| - |Composed(r, s).from|);
    } else if n == 1 {
      assert Rounds([r, s], p, 1) == Rounds([r, s], Round([r, s], p), 0) == Round([r, s], p);
    }
  }

  lemma OneMore(n: nat, d: int)
    requires n >= 2
    ensures (n / 2) * d == ((n - 2) / 2) * d + d && n % 2 == (n - 2) % 2
  {
    assert n / 2 == (n - 2) / 2 + 1;
  }

  lemma NeverEnds(r: Redirect, s: Redirect, p: Path)
    requires AreProper(r, s) && Nests(r, s) && SameOrChild(p, Composed(r, s).from)
    ensures !Ends([r, s], p)
  {
    forall m: nat, n: nat ensures !StopsAt([r, s], p, m, n) {
      GrowsOn(r, s, p, n);
      GrowsOn(r, s, p, m);
      if m < n && m % 2 == n % 2 {
        MoreIsLonger(m / 2, n / 2, |Composed(r, s).to| - |Composed(r, s).from|);
      }
    }
  }

  lemma MoreIsLonger(j: nat, k: nat, d: nat)
    requires j < k && d > 0
    ensures j * d < k * d
  {
  }

  /**
   With two redirects, neither of which moves a folder into itself, the search of the source ends from every path
   exactly unless the first rename followed by the second moves a folder into itself; then it never ends for that
   folder.
   */
  lemma SearchEndsExactlyWhen(r: Redirect, s: Redirect)
    requires AreProper(r, s)
    ensures (forall p :: Ends([r, s], p)) <==> !Nests(r, s)
    ensures Nests(r, s) ==> !Ends([r, s], Composed(r, s).from)
  {
    if Nests(r, s) {
      NeverEnds(r, s, Composed(r, s).from);
    } else {
      forall p ensures Ends([r, s], p) {
        EndsUnlessNesting(r, s, p);
      }
    }
  }

  /** The renames a to b/x and b to a/y: together a goes to a/y/x, and its place is never found. */
  lemma CrossingNeverSettles()
    ensures var r, s := Redirect([A], [B, X]), Redirect([B], [A, Y]); (
      AreProper(r, s) && Nests(r, s) && !Ends([r, s], [A]) && !Independent([r, s]))
  {
    var r, s := Redirect([A], [B, X]), Redirect([B], [A, Y]);
    assert A.name[0] != B.name[0];
    assert r.from[0] != r.to[0] && s.from[0] != s.to[0];
    assert r.to[..1] == s.from && s.to[..1] == r.from;
    assert Composed(r, s) == Redirect([A], [A, Y] + [X]);
    assert ([A, Y] + [X])[..1] == [A];
    assert Comparable([r, s][1].to, [r, s][0].from);
    SearchEndsExactlyWhen(r, s);
  }
}

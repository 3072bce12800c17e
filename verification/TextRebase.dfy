/**
 Rebasing of immutable edits from one text baseline onto another (src/core/textChanges.ts).

 The character diff is any edit script between the two baselines; the source falls back to the script that
 removes everything and adds everything when its diff library times out, which is one more such script.
 */
module TextRebase {
  import opened TextEdits
  import opened Utf16

  datatype Part = Kept(value: Text) | Removed(value: Text) | Added(value: Text)

  /** A stretch the two baselines share. */
  datatype Run = Run(oldStart: nat, newStart: nat, length: nat)

  function Before(parts: seq<Part>): Text {
    if parts == [] then [] else
      var last := parts[|parts| - 1];
      Before(parts[..|parts| - 1]) + if last.Added? then [] else last.value
  }

  function Target(parts: seq<Part>): Text {
    if parts == [] then [] else
      var last := parts[|parts| - 1];
      Target(parts[..|parts| - 1]) + if last.Removed? then [] else last.value
  }

  function Runs(parts: seq<Part>): seq<Run> {
    if parts == [] then [] else
      var init, last := parts[..|parts| - 1], parts[|parts| - 1];
      Runs(init) + if last.Kept? then [Run(|Before(init)|, |Target(init)|, |last.value|)] else []
  }

  /** Runs are inside both texts, in order and disjoint in both. */
  ghost predicate InOrder(runs: seq<Run>, oldLength: nat, newLength: nat) {
    && (forall r :: 0 <= r < |runs| ==>
          runs[r].oldStart + runs[r].length <= oldLength && runs[r].newStart + runs[r].length <= newLength)
    && (forall r, q :: 0 <= r < q < |runs| ==>
          && runs[r].oldStart + runs[r].length <= runs[q].oldStart
          && runs[r].newStart + runs[r].length <= runs[q].newStart)
  }

  /** Old unit `i` survives as unit `j` of the target. */
  ghost predicate Aligned(runs: seq<Run>, i: int, j: int) {
    exists r :: 0 <= r < |runs| && runs[r].oldStart <= i < runs[r].oldStart + runs[r].length
             && j == runs[r].newStart + i - runs[r].oldStart
  }

  lemma {:induction false} RunsInOrder(parts: seq<Part>)
    ensures InOrder(Runs(parts), |Before(parts)|, |Target(parts)|)
  {
    if parts != [] {
      RunsInOrder(parts[..|parts| - 1]);
    }
  }

  /** Runs line up equal units. */
  lemma {:induction false} RunsAreAligned(parts: seq<Part>, i: int, j: int)
    requires Aligned(Runs(parts), i, j)
    ensures 0 <= i < |Before(parts)| && 0 <= j < |Target(parts)| && Before(parts)[i] == Target(parts)[j]
  {
    var now := Runs(parts);
    var r :| 0 <= r < |now| && now[r].oldStart <= i < now[r].oldStart + now[r].length
           && j == now[r].newStart + i - now[r].oldStart;
    var init, last := parts[..|parts| - 1], parts[|parts| - 1];
    if r < |Runs(init)| {
      assert now[r] == Runs(init)[r];
      assert Aligned(Runs(init), i, j);
      RunsAreAligned(init, i, j);
    }
  }

  /** Where an insertion at old offset `offset` goes in a target of length `n`. */
  function Position(runs: seq<Run>, n: nat, offset: int): nat {
    if runs == [] then n
    else if offset < runs[0].oldStart then runs[0].newStart
    else if offset < runs[0].oldStart + runs[0].length then runs[0].newStart + offset - runs[0].oldStart
    else Position(runs[1..], n, offset)
  }

  lemma {:induction false} PositionBounds(runs: seq<Run>, oldLength: nat, n: nat, offset: int)
    requires InOrder(runs, oldLength, n)
    ensures Position(runs, n, offset) <= n
    ensures runs != [] ==> runs[0].newStart <= Position(runs, n, offset)
  {
    if runs != [] {
      PositionBounds(runs[1..], oldLength, n, offset);
    }
  }

  /** An insertion stays on its side of every unit the two baselines share. */
  lemma {:induction false} PositionKeepsSides(runs: seq<Run>, oldLength: nat, n: nat, offset: int, i: int, j: int)
    requires InOrder(runs, oldLength, n) && Aligned(runs, i, j)
    ensures Position(runs, n, offset) <= j <==> offset <= i
  {
    var r :| 0 <= r < |runs| && runs[r].oldStart <= i < runs[r].oldStart + runs[r].length
           && j == runs[r].newStart + i - runs[r].oldStart;
    if offset < runs[0].oldStart {
    } else if offset < runs[0].oldStart + runs[0].length {
    } else if r == 0 {
      PositionBounds(runs[1..], oldLength, n, offset);
    } else {
      assert runs[1..][r - 1] == runs[r];
      PositionKeepsSides(runs[1..], oldLength, n, offset, i, j);
    }
  }

  lemma {:induction false} PositionMonotone(runs: seq<Run>, oldLength: nat, n: nat, a: int, b: int)
    requires InOrder(runs, oldLength, n) && a <= b
    ensures Position(runs, n, a) <= Position(runs, n, b)
  {
    if runs != [] {
      PositionBounds(runs[1..], oldLength, n, a);
      PositionBounds(runs[1..], oldLength, n, b);
      PositionMonotone(runs[1..], oldLength, n, a, b);
    }
  }

  // ----- The rebased batch -----

  function CutStart(c: TextChange, r: Run): int { if c.offset < r.oldStart then r.oldStart else c.offset }

  function CutEnd(c: TextChange, r: Run): int {
    if End(c) < r.oldStart + r.length then End(c) else r.oldStart + r.length
  }

  /** The deletion left of `c` inside a run. */
  function Cut(c: TextChange, r: Run): TextChange {
    TextChange(r.newStart + CutStart(c, r) - r.oldStart, CutEnd(c, r) - CutStart(c, r), [])
  }

  function CutsOf(c: TextChange, runs: seq<Run>): seq<TextChange> {
    if runs == [] then [] else
      var last := runs[|runs| - 1];
      CutsOf(c, runs[..|runs| - 1]) + if CutEnd(c, last) > CutStart(c, last) then [Cut(c, last)] else []
  }

  function MovedInsert(c: TextChange, runs: seq<Run>, n: nat): seq<TextChange> {
    if c.insertText == [] then [] else [TextChange(Position(runs, n, c.offset), 0, c.insertText)]
  }

  /** All additions to the result, in the order the source makes them. */
  function Additions(changes: seq<TextChange>, runs: seq<Run>, n: nat): seq<TextChange> {
    if changes == [] then [] else
      var last := changes[|changes| - 1];
      Additions(changes[..|changes| - 1], runs, n) + (MovedInsert(last, runs, n) + CutsOf(last, runs))
  }

  /** One addition to the insertion-ordered table keyed by offset. */
  function Put(table: seq<TextChange>, a: TextChange): (r: seq<TextChange>) {
    if table == [] then [a]
    else if table[0].offset == a.offset then
      [TextChange(a.offset, table[0].deleteCount + a.deleteCount, table[0].insertText + a.insertText)] + table[1..]
    else [table[0]] + Put(table[1..], a)
  }

  function PutAll(table: seq<TextChange>, adds: seq<TextChange>): (r: seq<TextChange>) {
    if adds == [] then table else Put(PutAll(table, adds[..|adds| - 1]), adds[|adds| - 1])
  }

  lemma {:induction false} PutAllConcat(table: seq<TextChange>, a: seq<TextChange>, b: seq<TextChange>)
    ensures PutAll(table, a + b) == PutAll(PutAll(table, a), b)
  {
    if b == [] {
      assert a + b == a;
    } else {
      assert (a + b)[..|a + b| - 1] == a + b[..|b| - 1];
      PutAllConcat(table, a, b[..|b| - 1]);
    }
  }

  /** The result for two different baselines; the table's keys are distinct, so one sort key decides. */
  function Rebased(changes: seq<TextChange>, runs: seq<Run>, n: nat): seq<TextChange> {
    SortChanges(PutAll([], Additions(changes, runs, n)))
  }

  // ----- The table and the list of additions say the same -----

  ghost predicate Distinct(table: seq<TextChange>) {
    forall k, l :: 0 <= k < l < |table| ==> table[k].offset != table[l].offset
  }

  lemma {:induction false} InsertedAtConcat(a: seq<TextChange>, b: seq<TextChange>, g: int)
    ensures InsertedAt(a + b, g) == InsertedAt(a, g) + InsertedAt(b, g)
  {
    if a == [] {
      assert a + b == b;
    } else {
      assert (a + b)[1..] == a[1..] + b;
      InsertedAtConcat(a[1..], b, g);
    }
  }

  /** Total length deleted at key `g`. */
  ghost function DeletedAt(cs: seq<TextChange>, g: int): int {
    if cs == [] then 0 else (if cs[0].offset == g then cs[0].deleteCount else 0) + DeletedAt(cs[1..], g)
  }

  ghost predicate HasKey(cs: seq<TextChange>, g: int) {
    exists k :: 0 <= k < |cs| && cs[k].offset == g
  }

  lemma {:induction false} DeletedAtConcat(a: seq<TextChange>, b: seq<TextChange>, g: int)
    ensures DeletedAt(a + b, g) == DeletedAt(a, g) + DeletedAt(b, g)
  {
    if a == [] {
      assert a + b == b;
    } else {
      assert (a + b)[1..] == a[1..] + b;
      DeletedAtConcat(a[1..], b, g);
    }
  }

  lemma {:induction false} AbsentKey(cs: seq<TextChange>, g: int)
    requires !HasKey(cs, g)
    ensures DeletedAt(cs, g) == 0 && InsertedAt(cs, g) == []
  {
    if cs != [] {
      assert cs[0].offset != g;
      forall k | 0 <= k < |cs[1..]| ensures cs[1..][k].offset != g {
        assert cs[1..][k] == cs[k + 1];
      }
      AbsentKey(cs[1..], g);
    }
  }

  /** In a table with distinct keys the totals at a key are those of its only entry. */
  lemma {:induction false} EntryAtKey(table: seq<TextChange>, k: int)
    requires Distinct(table) && 0 <= k < |table|
    ensures DeletedAt(table, table[k].offset) == table[k].deleteCount
    ensures InsertedAt(table, table[k].offset) == table[k].insertText
  {
    if k == 0 {
      forall l | 0 <= l < |table[1..]| ensures table[1..][l].offset != table[0].offset {
        assert table[1..][l] == table[l + 1];
      }
      AbsentKey(table[1..], table[0].offset);
    } else {
      EntryAtKey(table[1..], k - 1);
    }
  }

  lemma DistinctTail(s: seq<TextChange>)
    requires Distinct(s) && s != []
    ensures Distinct(s[1..]) && !HasKey(s[1..], s[0].offset)
  {
    forall l | 0 <= l < |s[1..]| ensures s[1..][l].offset != s[0].offset {
      assert s[1..][l] == s[l + 1];
    }
  }

  lemma DistinctCons(x: TextChange, s: seq<TextChange>)
    requires Distinct(s) && !HasKey(s, x.offset)
    ensures Distinct([x] + s)
  {
    var r := [x] + s;
    forall k, l | 0 <= k < l < |r| ensures r[k].offset != r[l].offset {
      assert r[l] == s[l - 1];
    }
  }

  lemma PutAddsToHead(table: seq<TextChange>, a: TextChange, g: int)
    requires Distinct(table) && table != [] && table[0].offset == a.offset
    ensures IsPut(table, a, g) && Distinct(Put(table, a))
  {
    var rest := table[1..];
    var merged := Put(table, a)[0];
    assert table == [table[0]] + rest && Put(table, a) == [merged] + rest;
    assert Put(table, a)[1..] == rest;
    DistinctTail(table);
    DistinctCons(merged, rest);
    HasKeyCons(table[0], rest, g);
    HasKeyCons(merged, rest, g);
    AbsentKey(rest, a.offset);
  }

  lemma {:induction false} PutAdds(table: seq<TextChange>, a: TextChange, g: int)
    requires Distinct(table)
    ensures IsPut(table, a, g) && Distinct(Put(table, a))
  {
    if table == [] {
      assert Put(table, a) == [a] + [];
      HasKeyCons(a, [], g);
    } else if table[0].offset == a.offset {
      PutAddsToHead(table, a, g);
    } else {
      DistinctTail(table);
      PutAdds(table[1..], a, g);
      PutAdds(table[1..], a, table[0].offset);
      PutAddsBehindHead(table, a, g);
    }
  }

  ghost predicate IsPut(table: seq<TextChange>, a: TextChange, g: int) {
    && InsertedAt(Put(table, a), g) == InsertedAt(table, g) + (if a.offset == g then a.insertText else [])
    && DeletedAt(Put(table, a), g) == DeletedAt(table, g) + (if a.offset == g then a.deleteCount else 0)
    && (HasKey(Put(table, a), g) <==> HasKey(table, g) || a.offset == g)
  }

  lemma PutAddsBehindHead(table: seq<TextChange>, a: TextChange, g: int)
    requires table != [] && table[0].offset != a.offset && Distinct(table)
    requires IsPut(table[1..], a, g) && IsPut(table[1..], a, table[0].offset) && Distinct(Put(table[1..], a))
    ensures IsPut(table, a, g) && Distinct(Put(table, a))
  {
    var rest := Put(table[1..], a);
    assert table == [table[0]] + table[1..];
    assert Put(table, a) == [table[0]] + rest && Put(table, a)[1..] == rest;
    DistinctTail(table);
    DistinctCons(table[0], rest);
    HasKeyCons(table[0], table[1..], g);
    HasKeyCons(table[0], rest, g);
    InsertedFirst(table[0], InsertedAt(table[1..], g), if a.offset == g then a.insertText else [], g);
  }

  lemma InsertedFirst(x: TextChange, rest: Text, more: Text, g: int)
    ensures (if x.offset == g then x.insertText else []) + (rest + more)
         == (if x.offset == g then x.insertText else []) + rest + more
  {
  }

  lemma HasKeyCons(x: TextChange, s: seq<TextChange>, g: int)
    ensures HasKey([x] + s, g) <==> x.offset == g || HasKey(s, g)
  {
    HasKeyConcat([x], s, g);
    assert HasKey([x], g) <==> [x][0].offset == g;
  }

  lemma HasKeyConcat(a: seq<TextChange>, b: seq<TextChange>, g: int)
    ensures HasKey(a + b, g) <==> HasKey(a, g) || HasKey(b, g)
  {
    var s := a + b;
    if HasKey(a, g) {
      var k :| 0 <= k < |a| && a[k].offset == g;
      assert s[k].offset == g;
    }
    if HasKey(b, g) {
      var k :| 0 <= k < |b| && b[k].offset == g;
      assert s[|a| + k].offset == g;
    }
    if HasKey(s, g) {
      var k :| 0 <= k < |s| && s[k].offset == g;
      assert if k < |a| then a[k].offset == g else b[k - |a|].offset == g;
    }
  }

  lemma {:induction false} TableMatchesAdditions(adds: seq<TextChange>, g: int)
    ensures Distinct(PutAll([], adds))
    ensures InsertedAt(PutAll([], adds), g) == InsertedAt(adds, g)
    ensures DeletedAt(PutAll([], adds), g) == DeletedAt(adds, g)
    ensures HasKey(PutAll([], adds), g) <==> HasKey(adds, g)
  {
    if adds != [] {
      var init, a := adds[..|adds| - 1], adds[|adds| - 1];
      assert adds == init + [a];
      TableMatchesAdditions(init, g);
      PutAdds(PutAll([], init), a, g);
      InsertedAtConcat(init, [a], g);
      DeletedAtConcat(init, [a], g);
      HasKeyConcat(init, [a], g);
      assert HasKey([a], g) <==> [a][0].offset == g;
    }
  }

  // ----- Additions never disturb each other -----

  /** Neither of two additions reaches into the other's deletion. */
  ghost predicate Compatible(x: TextChange, y: TextChange) {
    && (x.deleteCount > 0 && y.offset > x.offset ==> y.offset >= End(x))
    && (y.deleteCount > 0 && x.offset > y.offset ==> x.offset >= End(y))
    && (x.deleteCount > 0 && y.deleteCount > 0 ==> x.offset != y.offset)
  }

  ghost predicate InRange(s: seq<TextChange>, n: nat) {
    forall k :: 0 <= k < |s| ==> 0 <= s[k].offset && 0 <= s[k].deleteCount && End(s[k]) <= n
  }

  ghost predicate AllCompatible(s: seq<TextChange>) {
    forall k, l :: 0 <= k < l < |s| ==> Compatible(s[k], s[l])
  }

  /** The deletion total at a key is that of one addition, all others there delete nothing. */
  lemma {:induction false} OneDeletionPerKey(s: seq<TextChange>, n: nat, k: int)
    requires InRange(s, n) && AllCompatible(s) && 0 <= k < |s|
    ensures s[k].deleteCount <= DeletedAt(s, s[k].offset)
    ensures s[k].deleteCount > 0 ==> DeletedAt(s, s[k].offset) == s[k].deleteCount
    ensures DeletedAt(s, s[k].offset) > 0 ==>
      exists l :: 0 <= l < |s| && s[l].offset == s[k].offset && s[l].deleteCount == DeletedAt(s, s[k].offset)
  {
    var g := s[k].offset;
    if exists l :: 0 <= l < |s| && s[l].offset == g && s[l].deleteCount > 0 {
      var l :| 0 <= l < |s| && s[l].offset == g && s[l].deleteCount > 0;
      forall m | 0 <= m < |s| && m != l && s[m].offset == g ensures s[m].deleteCount == 0 {
        assert if m < l then Compatible(s[m], s[l]) else Compatible(s[l], s[m]);
      }
      OnlyDeletion(s, g, l);
    } else {
      NoDeletion(s, g);
    }
  }

  lemma {:induction false} NoDeletion(s: seq<TextChange>, g: int)
    requires forall m :: 0 <= m < |s| && s[m].offset == g ==> s[m].deleteCount == 0
    ensures DeletedAt(s, g) == 0
  {
    if s != [] {
      NoDeletion(s[1..], g);
    }
  }

  lemma {:induction false} OnlyDeletion(s: seq<TextChange>, g: int, l: int)
    requires 0 <= l < |s| && s[l].offset == g
    requires forall m :: 0 <= m < |s| && m != l && s[m].offset == g ==> s[m].deleteCount == 0
    ensures DeletedAt(s, g) == s[l].deleteCount
  {
    if l == 0 {
      NoDeletion(s[1..], g);
    } else {
      OnlyDeletion(s[1..], g, l - 1);
    }
  }

  // ----- Sorting the table -----

  lemma {:induction false} InsertStableAdds(c: TextChange, s: seq<TextChange>, g: int)
    requires Distinct(s) && !HasKey(s, c.offset)
    ensures Distinct(InsertStable(c, s))
    ensures HasKey(InsertStable(c, s), g) <==> c.offset == g || HasKey(s, g)
    ensures InsertedAt(InsertStable(c, s), g) == if c.offset == g then c.insertText else InsertedAt(s, g)
    ensures DeletedAt(InsertStable(c, s), g) == if c.offset == g then c.deleteCount else DeletedAt(s, g)
  {
    AbsentKey(s, c.offset);
    if s == [] || !SortsBefore(s[0], c) {
      var r := [c] + s;
      assert r[1..] == s;
      HasKeyCons(c, s, g);
      DistinctCons(c, s);
    } else {
      assert s == [s[0]] + s[1..];
      HasKeyCons(s[0], s[1..], g);
      HasKeyCons(s[0], s[1..], c.offset);
      DistinctTail(s);
      InsertStableAdds(c, s[1..], g);
      InsertStableAdds(c, s[1..], s[0].offset);
      var rest := InsertStable(c, s[1..]);
      var r := [s[0]] + rest;
      assert r[1..] == rest;
      HasKeyCons(s[0], rest, g);
      DistinctCons(s[0], rest);
    }
  }

  lemma {:induction false} SortKeepsTable(s: seq<TextChange>, g: int)
    requires Distinct(s)
    ensures Distinct(SortChanges(s))
    ensures HasKey(SortChanges(s), g) <==> HasKey(s, g)
    ensures InsertedAt(SortChanges(s), g) == InsertedAt(s, g)
    ensures DeletedAt(SortChanges(s), g) == DeletedAt(s, g)
  {
    if s != [] {
      var rest := s[1..];
      assert s == [s[0]] + rest;
      DistinctTail(s);
      SortKeepsTable(rest, g);
      SortKeepsTable(rest, s[0].offset);
      HasKeyCons(s[0], rest, g);
      InsertStableAdds(s[0], SortChanges(rest), g);
      AbsentKey(rest, s[0].offset);
    }
  }

  /** Totals decide what is covered, whatever the number of entries behind them. */
  lemma CoveredByTotals(s: seq<TextChange>, n: nat, j: int)
    requires InRange(s, n) && AllCompatible(s)
    ensures Covered(s, j) <==> exists g :: HasKey(s, g) && g <= j < g + DeletedAt(s, g)
  {
    if Covered(s, j) {
      var k :| 0 <= k < |s| && s[k].offset <= j < End(s[k]);
      OneDeletionPerKey(s, n, k);
      assert HasKey(s, s[k].offset);
    }
    if exists g :: HasKey(s, g) && g <= j < g + DeletedAt(s, g) {
      var g :| HasKey(s, g) && g <= j < g + DeletedAt(s, g);
      var k :| 0 <= k < |s| && s[k].offset == g;
      OneDeletionPerKey(s, n, k);
      var l :| 0 <= l < |s| && s[l].offset == g && s[l].deleteCount == DeletedAt(s, g);
      assert s[l].offset <= j < End(s[l]);
    }
  }

  /** The sorted table: valid on the target, with the insertions and deletions of the additions. */
  lemma SortedTable(adds: seq<TextChange>, n: nat)
    requires InRange(adds, n) && AllCompatible(adds)
    ensures Ascending(SortChanges(PutAll([], adds)), 0, n)
    ensures forall g :: InsertedAt(SortChanges(PutAll([], adds)), g) == InsertedAt(adds, g)
    ensures forall j :: Covered(SortChanges(PutAll([], adds)), j) <==> Covered(adds, j)
  {
    var table := PutAll([], adds);
    var sorted := SortChanges(table);
    TableMatchesAdditions(adds, 0);
    SortKeepsTable(table, 0);
    SortChangesSorts(table);
    forall g
      ensures InsertedAt(sorted, g) == InsertedAt(adds, g)
      ensures DeletedAt(sorted, g) == DeletedAt(adds, g)
      ensures HasKey(sorted, g) <==> HasKey(adds, g)
    {
      TableMatchesAdditions(adds, g);
      SortKeepsTable(table, g);
    }
    forall k | 0 <= k < |sorted|
      ensures 0 <= sorted[k].offset && 0 <= sorted[k].deleteCount && End(sorted[k]) <= n
    {
      var a := EntryBehind(sorted, adds, n, k);
    }
    forall k, l | 0 <= k < l < |sorted|
      ensures End(sorted[k]) <= sorted[l].offset && Compatible(sorted[k], sorted[l])
    {
      var a := EntryBehind(sorted, adds, n, k);
      var b := EntryBehind(sorted, adds, n, l);
      assert !SortsBefore(sorted[l], sorted[k]);
      assert sorted[k].offset < sorted[l].offset;
      assert if a <= b then a == b || Compatible(adds[a], adds[b]) else Compatible(adds[b], adds[a]);
    }
    AscendingPairwise(sorted, 0, n);
    forall j ensures Covered(sorted, j) <==> Covered(adds, j) {
      CoveredByTotals(sorted, n, j);
      CoveredByTotals(adds, n, j);
    }
  }

  /** Every entry deletes exactly what one addition at its key deletes. */
  lemma EntryBehind(sorted: seq<TextChange>, adds: seq<TextChange>, n: nat, k: int) returns (a: int)
    requires Distinct(sorted) && 0 <= k < |sorted| && InRange(adds, n) && AllCompatible(adds)
    requires forall g :: DeletedAt(sorted, g) == DeletedAt(adds, g)
    requires forall g :: HasKey(sorted, g) <==> HasKey(adds, g)
    ensures 0 <= a < |adds| && adds[a].offset == sorted[k].offset && adds[a].deleteCount == sorted[k].deleteCount
  {
    EntryAtKey(sorted, k);
    assert HasKey(sorted, sorted[k].offset);
    var c :| 0 <= c < |adds| && adds[c].offset == sorted[k].offset;
    OneDeletionPerKey(adds, n, c);
    if DeletedAt(adds, adds[c].offset) > 0 {
      a :| 0 <= a < |adds| && adds[a].offset == adds[c].offset
           && adds[a].deleteCount == DeletedAt(adds, adds[c].offset);
    } else {
      a := c;
    }
  }

  // ----- The additions of one change and of two -----

  /** A change inside its text. */
  ghost predicate Within(c: TextChange, n: nat) {
    0 <= c.offset && 0 <= c.deleteCount && End(c) <= n
  }

  ghost predicate IsCut(x: TextChange, c: TextChange, runs: seq<Run>, r: int) {
    0 <= r < |runs| && CutEnd(c, runs[r]) > CutStart(c, runs[r]) && x == Cut(c, runs[r])
  }

  ghost predicate IsMove(x: TextChange, c: TextChange, runs: seq<Run>, n: nat) {
    x == TextChange(Position(runs, n, c.offset), 0, c.insertText)
  }

  ghost predicate IsAddition(x: TextChange, c: TextChange, runs: seq<Run>, n: nat) {
    IsMove(x, c, runs, n) || exists r :: IsCut(x, c, runs, r)
  }

  lemma {:induction false} CutsAreCuts(c: TextChange, runs: seq<Run>, k: int)
    requires 0 <= k < |CutsOf(c, runs)|
    ensures exists r :: IsCut(CutsOf(c, runs)[k], c, runs, r)
  {
    var init, last := runs[..|runs| - 1], runs[|runs| - 1];
    if k < |CutsOf(c, init)| {
      CutsAreCuts(c, init, k);
      var r :| IsCut(CutsOf(c, init)[k], c, init, r);
      assert IsCut(CutsOf(c, runs)[k], c, runs, r);
    } else {
      assert IsCut(CutsOf(c, runs)[k], c, runs, |runs| - 1);
    }
  }

  lemma CutInRange(x: TextChange, c: TextChange, runs: seq<Run>, r: int, oldLength: nat, n: nat)
    requires InOrder(runs, oldLength, n) && IsCut(x, c, runs, r)
    ensures 0 <= x.offset && 0 < x.deleteCount && End(x) <= n && x.insertText == []
    ensures Aligned(runs, CutStart(c, runs[r]), x.offset) && Aligned(runs, CutEnd(c, runs[r]) - 1, End(x) - 1)
  {
    var run := runs[r];
    assert run.oldStart <= CutStart(c, run) < run.oldStart + run.length;
    assert run.oldStart <= CutEnd(c, run) - 1 < run.oldStart + run.length;
  }

  /** Later old text is later in the target. */
  lemma CutsInOrder(x: TextChange, c: TextChange, r: int, y: TextChange, d: TextChange, q: int,
                    runs: seq<Run>, oldLength: nat, n: nat)
    requires InOrder(runs, oldLength, n) && IsCut(x, c, runs, r) && IsCut(y, d, runs, q)
    requires CutEnd(c, runs[r]) <= CutStart(d, runs[q])
    ensures x.offset < End(x) <= y.offset
  {
  }

  lemma MoveBeforeCut(x: TextChange, c: TextChange, y: TextChange, d: TextChange, q: int, runs: seq<Run>,
                      oldLength: nat, n: nat)
    requires InOrder(runs, oldLength, n) && IsMove(x, c, runs, n) && IsCut(y, d, runs, q) && c.offset <= d.offset
    ensures x.offset <= y.offset
  {
    CutInRange(y, d, runs, q, oldLength, n);
    PositionKeepsSides(runs, oldLength, n, c.offset, CutStart(d, runs[q]), y.offset);
  }

  lemma CutBeforeMove(x: TextChange, c: TextChange, r: int, y: TextChange, d: TextChange, runs: seq<Run>,
                      oldLength: nat, n: nat)
    requires InOrder(runs, oldLength, n) && IsCut(x, c, runs, r) && IsMove(y, d, runs, n) && End(c) <= d.offset
    ensures End(x) <= y.offset
  {
    CutInRange(x, c, runs, r, oldLength, n);
    PositionKeepsSides(runs, oldLength, n, d.offset, CutEnd(c, runs[r]) - 1, End(x) - 1);
  }

  lemma CutAndAddition(x: TextChange, c: TextChange, r: int, y: TextChange, d: TextChange, runs: seq<Run>,
                       oldLength: nat, n: nat)
    requires InOrder(runs, oldLength, n) && IsCut(x, c, runs, r) && IsAddition(y, d, runs, n) && End(c) <= d.offset
    ensures x.offset < End(x) <= y.offset
  {
    if IsMove(y, d, runs, n) {
      CutBeforeMove(x, c, r, y, d, runs, oldLength, n);
    } else {
      var q :| IsCut(y, d, runs, q);
      CutsInOrder(x, c, r, y, d, q, runs, oldLength, n);
    }
  }

  lemma AdditionsOfTwo(x: TextChange, c: TextChange, y: TextChange, d: TextChange, runs: seq<Run>, oldLength: nat,
                       n: nat)
    requires InOrder(runs, oldLength, n) && IsAddition(x, c, runs, n) && IsAddition(y, d, runs, n)
    requires Within(c, oldLength) && End(c) <= d.offset
    ensures Compatible(x, y)
  {
    if !IsMove(x, c, runs, n) {
      var r :| IsCut(x, c, runs, r);
      CutAndAddition(x, c, r, y, d, runs, oldLength, n);
    } else if !IsMove(y, d, runs, n) {
      var q :| IsCut(y, d, runs, q);
      MoveBeforeCut(x, c, y, d, q, runs, oldLength, n);
    }
  }

  lemma CutsInRange(c: TextChange, runs: seq<Run>, oldLength: nat, n: nat)
    requires InOrder(runs, oldLength, n) && Within(c, oldLength)
    ensures InRange(CutsOf(c, runs), n)
  {
    var cuts := CutsOf(c, runs);
    forall k | 0 <= k < |cuts| ensures 0 <= cuts[k].offset && 0 <= cuts[k].deleteCount && End(cuts[k]) <= n {
      CutsAreCuts(c, runs, k);
      var r :| IsCut(cuts[k], c, runs, r);
      CutInRange(cuts[k], c, runs, r, oldLength, n);
    }
  }

  lemma {:induction false} CutsOfOne(c: TextChange, runs: seq<Run>, oldLength: nat, n: nat)
    requires InOrder(runs, oldLength, n) && Within(c, oldLength)
    ensures InRange(CutsOf(c, runs), n) && AllCompatible(CutsOf(c, runs))
  {
    var cuts := CutsOf(c, runs);
    CutsInRange(c, runs, oldLength, n);
    if runs != [] {
      var init := runs[..|runs| - 1];
      CutsOfOne(c, init, oldLength, n);
      forall k, l | 0 <= k < l < |cuts| ensures Compatible(cuts[k], cuts[l]) {
        if l < |CutsOf(c, init)| {
          assert Compatible(CutsOf(c, init)[k], CutsOf(c, init)[l]);
        } else {
          LastCutIsBehind(c, runs, oldLength, n, k);
        }
      }
    }
  }

  lemma LastCutIsBehind(c: TextChange, runs: seq<Run>, oldLength: nat, n: nat, k: int)
    requires InOrder(runs, oldLength, n) && Within(c, oldLength) && runs != []
    requires 0 <= k < |CutsOf(c, runs[..|runs| - 1])| < |CutsOf(c, runs)|
    ensures Compatible(CutsOf(c, runs)[k], CutsOf(c, runs)[|CutsOf(c, runs)| - 1])
  {
    var cuts, init := CutsOf(c, runs), runs[..|runs| - 1];
    CutsAreCuts(c, init, k);
    var r :| IsCut(cuts[k], c, init, r);
    assert IsCut(cuts[k], c, runs, r);
    CutsInOrder(cuts[k], c, r, cuts[|cuts| - 1], c, |runs| - 1, runs, oldLength, n);
  }

  ghost function AdditionsOf(c: TextChange, runs: seq<Run>, n: nat): seq<TextChange> {
    MovedInsert(c, runs, n) + CutsOf(c, runs)
  }

  lemma AdditionsOfOne(c: TextChange, runs: seq<Run>, oldLength: nat, n: nat)
    requires InOrder(runs, oldLength, n) && Within(c, oldLength)
    ensures InRange(AdditionsOf(c, runs, n), n) && AllCompatible(AdditionsOf(c, runs, n))
    ensures forall k :: 0 <= k < |AdditionsOf(c, runs, n)| ==> IsAddition(AdditionsOf(c, runs, n)[k], c, runs, n)
  {
    var own := AdditionsOf(c, runs, n);
    var move, cuts := MovedInsert(c, runs, n), CutsOf(c, runs);
    CutsOfOne(c, runs, oldLength, n);
    PositionBounds(runs, oldLength, n, c.offset);
    forall k | 0 <= k < |own|
      ensures IsAddition(own[k], c, runs, n) && 0 <= own[k].offset && 0 <= own[k].deleteCount && End(own[k]) <= n
    {
      if |move| <= k {
        CutsAreCuts(c, runs, k - |move|);
        assert own[k] == cuts[k - |move|];
      } else {
        assert IsMove(own[k], c, runs, n);
      }
    }
    forall k, l | 0 <= k < l < |own| ensures Compatible(own[k], own[l]) {
      assert own[l] == cuts[l - |move|];
      if |move| <= k {
        assert Compatible(cuts[k - |move|], cuts[l - |move|]);
      } else {
        CutsAreCuts(c, runs, l - |move|);
        var q :| IsCut(own[l], c, runs, q);
        MoveBeforeCut(own[k], c, own[l], c, q, runs, oldLength, n);
      }
    }
  }

  /** Every addition comes from one of the changes. */
  ghost predicate FromChanges(s: seq<TextChange>, changes: seq<TextChange>, runs: seq<Run>, n: nat) {
    forall k :: 0 <= k < |s| ==> FromSome(s[k], changes, runs, n)
  }

  ghost predicate FromSome(x: TextChange, changes: seq<TextChange>, runs: seq<Run>, n: nat) {
    exists m :: 0 <= m < |changes| && IsAddition(x, changes[m], runs, n)
  }

  /** The last of ascending changes lies behind all others. */
  lemma LastChangeIsLatest(changes: seq<TextChange>, oldLength: nat)
    requires changes != [] && Ascending(changes, 0, oldLength)
    ensures var init, d := changes[..|changes| - 1], changes[|changes| - 1];
      && Ascending(init, 0, oldLength) && Within(d, oldLength)
      && forall m :: 0 <= m < |init| ==> Within(init[m], oldLength) && init[m].offset <= End(init[m]) <= d.offset
  {
    AscendingPairwise(changes, 0, oldLength);
    AscendingPairwise(changes[..|changes| - 1], 0, oldLength);
  }

  /** Inside the text, pairwise compatible, and each made by one of the changes. */
  ghost predicate WellAdded(s: seq<TextChange>, changes: seq<TextChange>, runs: seq<Run>, n: nat) {
    InRange(s, n) && AllCompatible(s) && FromChanges(s, changes, runs, n)
  }

  lemma {:induction false} AdditionsAreCompatible(changes: seq<TextChange>, runs: seq<Run>, oldLength: nat, n: nat)
    requires InOrder(runs, oldLength, n) && Ascending(changes, 0, oldLength)
    ensures WellAdded(Additions(changes, runs, n), changes, runs, n)
  {
    if changes != [] {
      var init, d := changes[..|changes| - 1], changes[|changes| - 1];
      LastChangeIsLatest(changes, oldLength);
      AdditionsAreCompatible(init, runs, oldLength, n);
      AddLastChange(Additions(init, runs, n), init, d, runs, oldLength, n);
      assert changes == init + [d];
    }
  }

  lemma AddLastChange(before: seq<TextChange>, init: seq<TextChange>, d: TextChange, runs: seq<Run>, oldLength: nat,
                      n: nat)
    requires InOrder(runs, oldLength, n) && WellAdded(before, init, runs, n) && Within(d, oldLength)
    requires forall m :: 0 <= m < |init| ==> Within(init[m], oldLength) && End(init[m]) <= d.offset
    ensures WellAdded(before + AdditionsOf(d, runs, n), init + [d], runs, n)
  {
    var own := AdditionsOf(d, runs, n);
    AdditionsOfOne(d, runs, oldLength, n);
    EarlierAdditions(before, init, own, d, runs, oldLength, n);
    CompatibleConcat(before, own, n);
    FromChangesSnoc(before, init, own, d, runs, n);
  }

  lemma EarlierAdditions(before: seq<TextChange>, init: seq<TextChange>, own: seq<TextChange>, d: TextChange,
                         runs: seq<Run>, oldLength: nat, n: nat)
    requires InOrder(runs, oldLength, n) && FromChanges(before, init, runs, n)
    requires forall m :: 0 <= m < |init| ==> Within(init[m], oldLength) && End(init[m]) <= d.offset
    requires forall l :: 0 <= l < |own| ==> IsAddition(own[l], d, runs, n)
    ensures forall k, l :: 0 <= k < |before| && 0 <= l < |own| ==> Compatible(before[k], own[l])
  {
    forall k, l | 0 <= k < |before| && 0 <= l < |own| ensures Compatible(before[k], own[l]) {
      assert FromSome(before[k], init, runs, n);
      var m :| 0 <= m < |init| && IsAddition(before[k], init[m], runs, n);
      AdditionsOfTwo(before[k], init[m], own[l], d, runs, oldLength, n);
    }
  }

  lemma FromChangesSnoc(before: seq<TextChange>, init: seq<TextChange>, own: seq<TextChange>, d: TextChange,
                        runs: seq<Run>, n: nat)
    requires FromChanges(before, init, runs, n)
    requires forall l :: 0 <= l < |own| ==> IsAddition(own[l], d, runs, n)
    ensures FromChanges(before + own, init + [d], runs, n)
  {
    var all, changes := before + own, init + [d];
    forall k | 0 <= k < |all| ensures FromSome(all[k], changes, runs, n) {
      if k < |before| {
        assert FromSome(before[k], init, runs, n);
        var m :| 0 <= m < |init| && IsAddition(before[k], init[m], runs, n);
        assert changes[m] == init[m] && all[k] == before[k];
        assert IsAddition(all[k], changes[m], runs, n);
      } else {
        assert all[k] == own[k - |before|] && changes[|init|] == d;
        assert IsAddition(all[k], changes[|init|], runs, n);
      }
    }
  }

  lemma CompatibleConcat(a: seq<TextChange>, b: seq<TextChange>, n: nat)
    requires InRange(a, n) && AllCompatible(a) && InRange(b, n) && AllCompatible(b)
    requires forall k, l :: 0 <= k < |a| && 0 <= l < |b| ==> Compatible(a[k], b[l])
    ensures InRange(a + b, n) && AllCompatible(a + b)
  {
    var s := a + b;
    forall k, l | 0 <= k < l < |s| ensures Compatible(s[k], s[l]) {
      if k >= |a| {
        assert Compatible(b[k - |a|], b[l - |a|]);
      } else if l >= |a| {
        assert s[l] == b[l - |a|];
      }
    }
  }

  // ----- What rebasing means -----

  /** The insertions that go to target gap `g`, in batch order. */
  ghost function MovedTo(changes: seq<TextChange>, runs: seq<Run>, n: nat, g: int): Text {
    if changes == [] then [] else
      var last := changes[|changes| - 1];
      MovedTo(changes[..|changes| - 1], runs, n, g) + if Position(runs, n, last.offset) == g then last.insertText
        else []
  }

  /** Target unit `j` is shared with the old text and the user deleted it there. */
  ghost predicate UserDeleted(changes: seq<TextChange>, runs: seq<Run>, j: int) {
    exists i :: Aligned(runs, i, j) && Covered(changes, i)
  }

  lemma {:induction false} AdditionsInsert(changes: seq<TextChange>, runs: seq<Run>, n: nat, g: int)
    ensures InsertedAt(Additions(changes, runs, n), g) == MovedTo(changes, runs, n, g)
  {
    if changes != [] {
      var init, last := changes[..|changes| - 1], changes[|changes| - 1];
      AdditionsInsert(init, runs, n, g);
      InsertedAtConcat(Additions(init, runs, n), AdditionsOf(last, runs, n), g);
      InsertedAtConcat(MovedInsert(last, runs, n), CutsOf(last, runs), g);
      CutsInsertNothing(last, runs, g);
    }
  }

  lemma {:induction false} CutsInsertNothing(c: TextChange, runs: seq<Run>, g: int)
    ensures InsertedAt(CutsOf(c, runs), g) == []
  {
    if runs != [] {
      var init, last := runs[..|runs| - 1], runs[|runs| - 1];
      CutsInsertNothing(c, init, g);
      InsertedAtConcat(CutsOf(c, init), if CutEnd(c, last) > CutStart(c, last) then [Cut(c, last)] else [], g);
    }
  }

  lemma CoveredConcat(a: seq<TextChange>, b: seq<TextChange>, j: int)
    ensures Covered(a + b, j) <==> Covered(a, j) || Covered(b, j)
  {
    var s := a + b;
    if Covered(a, j) {
      var k :| 0 <= k < |a| && a[k].offset <= j < End(a[k]);
      assert s[k] == a[k];
    }
    if Covered(b, j) {
      var k :| 0 <= k < |b| && b[k].offset <= j < End(b[k]);
      assert s[|a| + k] == b[k];
    }
    if Covered(s, j) {
      var k :| 0 <= k < |s| && s[k].offset <= j < End(s[k]);
      assert if k < |a| then s[k] == a[k] else s[k] == b[k - |a|];
    }
  }

  ghost predicate DeletedBy(c: TextChange, runs: seq<Run>, j: int) {
    exists i :: Aligned(runs, i, j) && c.offset <= i < End(c)
  }

  lemma {:induction false} CutsCover(c: TextChange, runs: seq<Run>, j: int)
    ensures Covered(CutsOf(c, runs), j) <==> DeletedBy(c, runs, j)
  {
    if runs != [] {
      var init, last := runs[..|runs| - 1], runs[|runs| - 1];
      var own := if CutEnd(c, last) > CutStart(c, last) then [Cut(c, last)] else [];
      CutsCover(c, init, j);
      CoveredConcat(CutsOf(c, init), own, j);
      assert Covered(own, j) <==> own != [] && own[0].offset <= j < End(own[0]);
      var i0 := last.oldStart + j - last.newStart;
      forall i ensures Aligned(runs, i, j) <==>
          Aligned(init, i, j) || (i == i0 && last.oldStart <= i < last.oldStart + last.length)
      {
        AlignedSnoc(runs, i, j);
      }
      if Covered(own, j) {
        assert Aligned(runs, i0, j) && c.offset <= i0 < End(c);
      }
      if exists i :: Aligned(runs, i, j) && c.offset <= i < End(c) {
        var i :| Aligned(runs, i, j) && c.offset <= i < End(c);
        assert Aligned(init, i, j) || Covered(own, j);
      }
    }
  }

  lemma AlignedSnoc(runs: seq<Run>, i: int, j: int)
    requires runs != []
    ensures var init, last := runs[..|runs| - 1], runs[|runs| - 1];
      Aligned(runs, i, j) <==>
        (Aligned(init, i,
                 j) || (i == last.oldStart + j - last.newStart && last.oldStart <= i < last.oldStart + last.length))
  {
    var init, last := runs[..|runs| - 1], runs[|runs| - 1];
    if Aligned(init, i, j) {
      var r :| 0 <= r < |init| && init[r].oldStart <= i < init[r].oldStart + init[r].length
             && j == init[r].newStart + i - init[r].oldStart;
      assert runs[r] == init[r];
    }
    if Aligned(runs, i, j) {
      var r :| 0 <= r < |runs| && runs[r].oldStart <= i < runs[r].oldStart + runs[r].length
             && j == runs[r].newStart + i - runs[r].oldStart;
      if r < |init| {
        assert runs[r] == init[r];
      }
    }
    if i == last.oldStart + j - last.newStart && last.oldStart <= i < last.oldStart + last.length {
      assert runs[|runs| - 1] == last;
    }
  }

  lemma UserDeletedSnoc(init: seq<TextChange>, last: TextChange, runs: seq<Run>, j: int)
    ensures UserDeleted(init + [last], runs, j) <==>
      UserDeleted(init, runs, j) || DeletedBy(last, runs, j)
  {
    forall i ensures Covered(init + [last], i) <==> Covered(init, i) || last.offset <= i < End(last) {
      CoveredConcat(init, [last], i);
      assert Covered([last], i) <==> [last][0].offset <= i < End([last][0]);
    }
  }

  lemma AdditionsOfCover(c: TextChange, runs: seq<Run>, n: nat, j: int)
    ensures Covered(AdditionsOf(c, runs, n), j) <==> DeletedBy(c, runs, j)
  {
    CoveredConcat(MovedInsert(c, runs, n), CutsOf(c, runs), j);
    CutsCover(c, runs, j);
  }

  lemma {:induction false} AdditionsCover(changes: seq<TextChange>, runs: seq<Run>, n: nat, j: int)
    ensures Covered(Additions(changes, runs, n), j) <==> UserDeleted(changes, runs, j)
  {
    if changes != [] {
      var init, last := changes[..|changes| - 1], changes[|changes| - 1];
      AdditionsCover(init, runs, n, j);
      CoveredConcat(Additions(init, runs, n), AdditionsOf(last, runs, n), j);
      AdditionsOfCover(last, runs, n, j);
      assert changes == init + [last];
      UserDeletedSnoc(init, last, runs, j);
    }
  }

  ghost function MovedGaps(changes: seq<TextChange>, runs: seq<Run>, n: nat): (r: seq<Text>) {
    seq(n + 1, g => MovedTo(changes, runs, n, g))
  }

  ghost function UserGone(changes: seq<TextChange>, runs: seq<Run>, n: nat): (r: seq<bool>) {
    seq(n, j => UserDeleted(changes, runs, j))
  }

  /**
   Rebasing non-overlapping ascending edits gives edits that are valid on the target; applying them keeps
   every unit only the target has, drops exactly the shared units the user deleted, and puts every insertion,
   in batch order, into the gap Position assigns to it.
   */
  lemma RebaseMeaning(changes: seq<TextChange>, parts: seq<Part>)
    requires Ascending(changes, 0, |Before(parts)|)
    ensures var target, runs := Target(parts), Runs(parts);
      var rebased := Rebased(changes, runs, |target|);
      && Ascending(rebased, 0, |target|)
      && Substitute(target, 0, rebased)
         == Weave(target, MovedGaps(changes, runs, |target|), UserGone(changes, runs, |target|), 0)
  {
    var target, runs := Target(parts), Runs(parts);
    var n := |target|;
    var rebased := Rebased(changes, runs, n);
    RunsInOrder(parts);
    AdditionsAreCompatible(changes, runs, |Before(parts)|, n);
    SortedTable(Additions(changes, runs, n), n);
    SubstituteMeaning(target, rebased);
    RebasedGaps(changes, runs, rebased, n);
  }

  lemma RebasedGaps(changes: seq<TextChange>, runs: seq<Run>, rebased: seq<TextChange>, n: nat)
    requires forall g :: InsertedAt(rebased, g) == InsertedAt(Additions(changes, runs, n), g)
    requires forall j :: Covered(rebased, j) <==> Covered(Additions(changes, runs, n), j)
    ensures Gaps(rebased, n) == MovedGaps(changes, runs, n)
    ensures Gone(rebased, n) == UserGone(changes, runs, n)
  {
    forall g ensures InsertedAt(rebased, g) == MovedTo(changes, runs, n, g) {
      AdditionsInsert(changes, runs, n, g);
    }
    forall j ensures Covered(rebased, j) <==> UserDeleted(changes, runs, j) {
      AdditionsCover(changes, runs, n, j);
    }
  }

  // ----- Insertions keep their order across gaps -----

  ghost function Flatten(gaps: seq<Text>): Text {
    if gaps == [] then [] else Flatten(gaps[..|gaps| - 1]) + gaps[|gaps| - 1]
  }

  ghost function AllInserts(changes: seq<TextChange>): Text {
    if changes == [] then [] else AllInserts(changes[..|changes| - 1]) + changes[|changes| - 1].insertText
  }

  lemma {:induction false} FlattenAppendAt(gaps: seq<Text>, g: nat, t: Text)
    requires g < |gaps| && forall k :: g < k < |gaps| ==> gaps[k] == []
    ensures Flatten(gaps[g := gaps[g] + t]) == Flatten(gaps) + t
  {
    var m := |gaps| - 1;
    var now := gaps[g := gaps[g] + t];
    if g == m {
      assert now[..m] == gaps[..m];
    } else {
      FlattenAppendAt(gaps[..m], g, t);
      assert now[..m] == gaps[..m][g := gaps[g] + t];
    }
  }

  lemma {:induction false} FlattenEmpty(gaps: seq<Text>)
    requires forall k :: 0 <= k < |gaps| ==> gaps[k] == []
    ensures Flatten(gaps) == []
  {
    if gaps != [] {
      FlattenEmpty(gaps[..|gaps| - 1]);
    }
  }

  lemma {:induction false} NothingMovedBeyond(changes: seq<TextChange>, runs: seq<Run>, oldLength: nat, n: nat,
                                              offset: int, g: int)
    requires InOrder(runs, oldLength, n) && Position(runs, n, offset) < g
    requires forall k :: 0 <= k < |changes| ==> changes[k].offset <= offset
    ensures MovedTo(changes, runs, n, g) == []
  {
    if changes != [] {
      NothingMovedBeyond(changes[..|changes| - 1], runs, oldLength, n, offset, g);
      PositionMonotone(runs, oldLength, n, changes[|changes| - 1].offset, offset);
    }
  }

  /** Read from left to right, the rebased insertions are the original ones, none lost, repeated or reordered. */
  lemma {:induction false} RebaseKeepsInsertOrder(changes: seq<TextChange>, runs: seq<Run>, oldLength: nat, n: nat)
    requires InOrder(runs, oldLength, n) && Ascending(changes, 0, oldLength)
    ensures Flatten(MovedGaps(changes, runs, n)) == AllInserts(changes)
  {
    var gaps := MovedGaps(changes, runs, n);
    if changes == [] {
      FlattenEmpty(gaps);
    } else {
      var init, last := changes[..|changes| - 1], changes[|changes| - 1];
      LastChangeIsLatest(changes, oldLength);
      RebaseKeepsInsertOrder(init, runs, oldLength, n);
      var was, p := MovedGaps(init, runs, n), Position(runs, n, last.offset);
      PositionBounds(runs, oldLength, n, last.offset);
      forall k | p < k < |was| ensures was[k] == [] {
        NothingMovedBeyond(init, runs, oldLength, n, last.offset, k);
      }
      FlattenAppendAt(was, p, last.insertText);
      MovedGapsSnoc(changes, runs, n, p);
    }
  }

  lemma MovedGapsSnoc(changes: seq<TextChange>, runs: seq<Run>, n: nat, p: nat)
    requires changes != [] && p == Position(runs, n, changes[|changes| - 1].offset) && p <= n
    ensures var was := MovedGaps(changes[..|changes| - 1], runs, n);
      MovedGaps(changes, runs, n) == was[p := was[p] + changes[|changes| - 1].insertText]
  {
    var was := MovedGaps(changes[..|changes| - 1], runs, n);
    forall g | 0 <= g <= n && g != p ensures MovedGaps(changes, runs, n)[g] == was[g] {
      assert was[g] + [] == was[g];
    }
  }

  // ----- The loops of the source -----

  method RetainedRuns(parts: seq<Part>) returns (retained: seq<Run>)
    ensures retained == Runs(parts)
  {
    retained := [];
    var oldOffset, newOffset, i := 0, 0, 0;
    while i < |parts|
      invariant 0 <= i <= |parts|
      invariant retained == Runs(parts[..i])
      invariant oldOffset == |Before(parts[..i])| && newOffset == |Target(parts[..i])|
    {
      var part := parts[i];
      assert parts[..i + 1][..i] == parts[..i];
      if part.Kept? {
        retained := retained + [Run(oldOffset, newOffset, |part.value|)];
      }
      if !part.Added? {
        oldOffset := oldOffset + |part.value|;
      }
      if !part.Removed? {
        newOffset := newOffset + |part.value|;
      }
      i := i + 1;
    }
    assert parts[..i] == parts;
  }

  /** Adds what one change becomes to the table of results. */
  method AddChange(table: seq<TextChange>, change: TextChange, retained: seq<Run>, n: nat)
    returns (result: seq<TextChange>)
    ensures result == PutAll(table, AdditionsOf(change, retained, n))
  {
    result := table;
    if change.insertText != [] {
      result := Put(result, TextChange(Position(retained, n, change.offset), 0, change.insertText));
    }
    ghost var move := MovedInsert(change, retained, n);
    assert result == PutAll(table, move) by {
      if move != [] {
        PutAllSnoc(table, [], move[0]);
        assert [] + [move[0]] == move;
      }
    }
    result := AddCuts(result, change, retained);
    PutAllConcat(table, move, CutsOf(change, retained));
  }

  method AddCuts(table: seq<TextChange>, change: TextChange, retained: seq<Run>) returns (result: seq<TextChange>)
    ensures result == PutAll(table, CutsOf(change, retained))
  {
    result := table;
    var r := 0;
    while r < |retained|
      invariant 0 <= r <= |retained|
      invariant result == PutAll(table, CutsOf(change, retained[..r]))
    {
      var run := retained[r];
      AddCutsStep(table, change, retained, r);
      var start, end := CutStart(change, run), CutEnd(change, run);
      if end > start {
        result := Put(result, TextChange(run.newStart + start - run.oldStart, end - start, []));
      }
      r := r + 1;
    }
    assert retained[..r] == retained;
  }

  lemma AddCutsStep(table: seq<TextChange>, change: TextChange, retained: seq<Run>, r: int)
    requires 0 <= r < |retained|
    ensures PutAll(table, CutsOf(change, retained[..r + 1])) ==
      (var sofar := PutAll(table, CutsOf(change, retained[..r]));
       if CutEnd(change, retained[r]) > CutStart(change, retained[r]) then Put(sofar, Cut(change, retained[r]))
       else sofar)
  {
    var earlier := CutsOf(change, retained[..r]);
    assert retained[..r + 1][..r] == retained[..r];
    if CutEnd(change, retained[r]) > CutStart(change, retained[r]) {
      PutAllSnoc(table, earlier, Cut(change, retained[r]));
    } else {
      assert earlier + [] == earlier;
    }
  }

  lemma PutAllSnoc(table: seq<TextChange>, adds: seq<TextChange>, a: TextChange)
    ensures PutAll(table, adds + [a]) == Put(PutAll(table, adds), a)
  {
    assert (adds + [a])[..|adds|] == adds;
  }

  method AddChanges(changes: seq<TextChange>, retained: seq<Run>, n: nat) returns (result: seq<TextChange>)
    ensures result == PutAll([], Additions(changes, retained, n))
  {
    result := [];
    var k := 0;
    while k < |changes|
      invariant 0 <= k <= |changes|
      invariant result == PutAll([], Additions(changes[..k], retained, n))
    {
      result := AddChange(result, changes[k], retained, n);
      assert changes[..k + 1][..k] == changes[..k];
      PutAllConcat([], Additions(changes[..k], retained, n), AdditionsOf(changes[k], retained, n));
      k := k + 1;
    }
    assert changes[..k] == changes;
  }

  method RebaseTextChanges(before: Text, target: Text, parts: seq<Part>, changes: seq<TextChange>)
    returns (result: seq<TextChange>)
    requires Before(parts) == before && Target(parts) == target
    ensures before == target ==> result == changes
    ensures before != target ==> result == Rebased(changes, Runs(parts), |target|)
  {
    if before == target {
      return changes;
    }
    var retained := RetainedRuns(parts);
    var table := AddChanges(changes, retained, |target|);
    return SortChanges(table);
  }
}

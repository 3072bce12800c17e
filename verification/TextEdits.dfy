/**
 Validated in-place text edits of the collaborative project (src/core/crdt.ts).

 Texts are sequences of UTF-16 units and sizes are counted in those units.
 */
module TextEdits {
  import opened Outcomes
  import opened Utf16

  const MAX_TEXT_CHANGES_PER_EVENT := 100_000

  datatype TextChange = TextChange(offset: int, deleteCount: int, insertText: Text)

  /** Comparison used by the source's stable sort: by offset, then by deleted length. */
  predicate SortsBefore(a: TextChange, b: TextChange) {
    a.offset < b.offset || (a.offset == b.offset && a.deleteCount < b.deleteCount)
  }

  function InsertStable(c: TextChange, s: seq<TextChange>): (r: seq<TextChange>)
    ensures |r| == |s| + 1
  {
    if s == [] || !SortsBefore(s[0], c) then [c] + s else [s[0]] + InsertStable(c, s[1..])
  }

  /** A stable sort: equal keys keep their order. */
  function SortChanges(s: seq<TextChange>): (r: seq<TextChange>)
    ensures |r| == |s|
  {
    if s == [] then [] else InsertStable(s[0], SortChanges(s[1..]))
  }

  ghost predicate Sorted(s: seq<TextChange>) {
    forall i, j :: 0 <= i < j < |s| ==> !SortsBefore(s[j], s[i])
  }

  lemma {:induction false} InsertStableSorts(c: TextChange, s: seq<TextChange>)
    requires Sorted(s)
    ensures Sorted(InsertStable(c, s))
    ensures multiset(InsertStable(c, s)) == multiset(s) + multiset{c}
    ensures forall x :: x in InsertStable(c, s) <==> x == c || x in s
  {
    if s == [] || !SortsBefore(s[0], c) {
    } else {
      InsertStableSorts(c, s[1..]);
      assert s == [s[0]] + s[1..];
      var r := InsertStable(c, s[1..]);
      forall j | 0 <= j < |r| ensures !SortsBefore(r[j], s[0]) {
        assert r[j] in r;
        assert r[j] == c || r[j] in s[1..];
      }
    }
  }

  lemma {:induction false} SortChangesSorts(s: seq<TextChange>)
    ensures Sorted(SortChanges(s))
    ensures multiset(SortChanges(s)) == multiset(s)
    ensures forall x :: x in SortChanges(s) <==> x in s
  {
    if s != [] {
      SortChangesSorts(s[1..]);
      InsertStableSorts(s[0], SortChanges(s[1..]));
      assert s == [s[0]] + s[1..];
    }
  }

  /** Neither comes before the other. */
  predicate SameKey(a: TextChange, b: TextChange) { a.offset == b.offset && a.deleteCount == b.deleteCount }

  function WithKey(s: seq<TextChange>, key: TextChange): seq<TextChange> {
    if s == [] then [] else (if SameKey(s[0], key) then [s[0]] else []) + WithKey(s[1..], key)
  }

  lemma {:induction false} InsertKeepsKeys(c: TextChange, s: seq<TextChange>, key: TextChange)
    ensures WithKey(InsertStable(c, s), key) == (if SameKey(c, key) then [c] else []) + WithKey(s, key)
  {
    if s != [] && SortsBefore(s[0], c) {
      InsertKeepsKeys(c, s[1..], key);
      assert InsertStable(c, s)[1..] == InsertStable(c, s[1..]);
    } else {
      assert ([c] + s)[1..] == s;
    }
  }

  /** Sorting is stable: changes of one key keep their order, whatever stands between them. */
  lemma {:induction false} SortIsStable(s: seq<TextChange>, key: TextChange)
    ensures WithKey(SortChanges(s), key) == WithKey(s, key)
  {
    if s != [] {
      SortIsStable(s[1..], key);
      InsertKeepsKeys(s[0], SortChanges(s[1..]), key);
    }
  }

  /** Sorting leaves a list that is already in order alone, so equal keys are never swapped. */
  lemma {:induction false} SortedIsFixed(s: seq<TextChange>)
    requires Sorted(s)
    ensures SortChanges(s) == s
  {
    if s != [] {
      SortedIsFixed(s[1..]);
      assert s == [s[0]] + s[1..];
    }
  }

  /** Changes from `from` on that are inside a text of length `n`, in order and pairwise disjoint. */
  ghost predicate Ascending(cs: seq<TextChange>, from: int, n: int) {
    cs == [] ||
    (from <= cs[0].offset && 0 <= cs[0].deleteCount && End(cs[0]) <= n && Ascending(cs[1..], End(cs[0]), n))
  }

  function End(c: TextChange): int { c.offset + c.deleteCount }

  /** The same, pair by pair. */
  lemma {:induction false} AscendingPairwise(cs: seq<TextChange>, from: int, n: int)
    ensures Ascending(cs, from, n) <==>
      && (forall k :: 0 <= k < |cs| ==> from <= cs[k].offset && 0 <= cs[k].deleteCount && End(cs[k]) <= n)
      && (forall k, l :: 0 <= k < l < |cs| ==> End(cs[k]) <= cs[l].offset)
  {
    if cs != [] {
      AscendingPairwise(cs[1..], End(cs[0]), n);
      if Ascending(cs, from, n) {
        forall k, l | 0 <= k < l < |cs| ensures End(cs[k]) <= cs[l].offset {
          assert cs[1..][l - 1] == cs[l];
          assert k > 0 ==> cs[1..][k - 1] == cs[k];
        }
        forall k | 0 <= k < |cs| ensures from <= cs[k].offset && 0 <= cs[k].deleteCount && End(cs[k]) <= n {
          assert k > 0 ==> cs[1..][k - 1] == cs[k];
        }
      }
    }
  }

  lemma {:induction false} AscendingSplit(a: seq<TextChange>, b: seq<TextChange>, from: int, mid: int, n: int)
    requires mid == if a == [] then from else End(a[|a| - 1])
    ensures Ascending(a + b, from, n) <==> Ascending(a, from, n) && Ascending(b, mid, n)
    decreases |a|
  {
    if a == [] {
      assert a + b == b;
    } else {
      assert (a + b)[1..] == a[1..] + b;
      AscendingSplit(a[1..], b, End(a[0]), mid, n);
    }
  }

  /** The length the validation predicts: every change adds its insertion and drops its deletion. */
  function Growth(cs: seq<TextChange>): int {
    if cs == [] then 0 else Growth(cs[..|cs| - 1]) + |cs[|cs| - 1].insertText| - cs[|cs| - 1].deleteCount
  }

  /** Simultaneous substitution: all changes are read against the same original text. */
  ghost function Substitute(text: Text, pos: int, cs: seq<TextChange>): (r: Text)
    requires 0 <= pos <= |text| && Ascending(cs, pos, |text|)
    decreases |cs|
  {
    if cs == [] then text[pos..]
    else text[pos..cs[0].offset] + cs[0].insertText + Substitute(text, End(cs[0]), cs[1..])
  }

  lemma {:induction false} SubstituteSkips(text: Text, pos: int, mid: int, cs: seq<TextChange>)
    requires 0 <= pos <= mid <= |text| && Ascending(cs, mid, |text|)
    ensures Substitute(text, pos, cs) == text[pos..mid] + Substitute(text, mid, cs)
  {
    if cs == [] {
      SliceSplit(text, pos, mid, |text|);
      assert text[pos..] == text[pos..|text|] && text[mid..] == text[mid..|text|];
    } else {
      SliceSplit(text, pos, mid, cs[0].offset);
      ConcatAssociative(text[pos..mid], text[mid..cs[0].offset], cs[0].insertText,
                        Substitute(text, End(cs[0]), cs[1..]));
    }
  }

  lemma SliceSplit(text: Text, a: int, b: int, c: int)
    requires 0 <= a <= b <= c <= |text|
    ensures text[a..c] == text[a..b] + text[b..c]
  {
  }

  /** Performing change `m` in place after all later ones extends the substitution by that change. */
  lemma SubstituteStep(text: Text, cs: seq<TextChange>, m: int)
    requires Ascending(cs, 0, |text|) && 0 <= m < |cs|
    ensures Ascending(cs[m + 1..], 0, |text|) && Ascending(cs[m..], 0, |text|)
    ensures var c, was := cs[m], Substitute(text, 0, cs[m + 1..]);
      && 0 <= c.offset && 0 <= c.deleteCount && c.offset + c.deleteCount <= |was|
      && Substitute(text, 0, cs[m..]) == was[..c.offset] + c.insertText + was[c.offset + c.deleteCount..]
  {
    var c, later := cs[m], cs[m + 1..];
    var end := c.offset + c.deleteCount;
    AscendingTail(cs, m, |text|);
    SubstituteSkips(text, 0, end, later);
    assert cs[m..][1..] == later;
    var was, rest := Substitute(text, 0, later), Substitute(text, end, later);
    assert was == text[..end] + rest;
    assert was[..c.offset] == text[0..c.offset];
    assert was[end..] == rest;
  }

  lemma AscendingTail(cs: seq<TextChange>, m: int, n: int)
    requires Ascending(cs, 0, n) && 0 <= m < |cs|
    ensures Ascending(cs[m + 1..], End(cs[m]), n)
    ensures Ascending(cs[m + 1..], 0, n) && Ascending(cs[m..], 0, n)
    ensures 0 <= cs[m].offset && 0 <= cs[m].deleteCount && End(cs[m]) <= n
  {
    AscendingPairwise(cs, 0, n);
    AscendingPairwise(cs[m + 1..], End(cs[m]), n);
    AscendingPairwise(cs[m + 1..], 0, n);
    AscendingPairwise(cs[m..], 0, n);
  }

  lemma {:induction false} SubstituteLength(text: Text, pos: int, cs: seq<TextChange>)
    requires 0 <= pos <= |text| && Ascending(cs, pos, |text|)
    ensures |Substitute(text, pos, cs)| == |text| - pos + Growth(cs)
    decreases |cs|
  {
    if cs != [] {
      SubstituteLength(text, End(cs[0]), cs[1..]);
      GrowthFromFront(cs);
    }
  }

  lemma {:induction false} GrowthFromFront(cs: seq<TextChange>)
    requires cs != []
    ensures Growth(cs) == |cs[0].insertText| - cs[0].deleteCount + Growth(cs[1..])
  {
    if |cs| == 1 {
      assert Growth(cs[..0]) == 0;
      assert Growth(cs[1..]) == 0;
    } else {
      var init := cs[..|cs| - 1];
      GrowthFromFront(init);
      assert init[1..] == cs[1..][..|cs| - 2];
      assert cs[1..][|cs| - 2] == cs[|cs| - 1];
    }
  }

  /** No change inserts more than `maximum` units. */
  ghost predicate AllWithin(cs: seq<TextChange>, maximum: nat) {
    cs == [] || (|cs[0].insertText| <= maximum && AllWithin(cs[1..], maximum))
  }

  lemma {:induction false} AllWithinPointwise(cs: seq<TextChange>, maximum: nat)
    ensures AllWithin(cs, maximum) <==> forall c :: c in cs ==> |c.insertText| <= maximum
  {
    if cs != [] {
      AllWithinPointwise(cs[1..], maximum);
      assert cs == [cs[0]] + cs[1..];
    }
  }

  /** The batches the validation lets through. */
  ghost predicate Acceptable(changes: seq<TextChange>, length: nat, maximum: nat) {
    && |changes| <= MAX_TEXT_CHANGES_PER_EVENT
    && Ascending(SortChanges(changes), 0, length)
    && (forall c :: c in changes ==> |c.insertText| <= maximum)
    && length + Growth(SortChanges(changes)) <= maximum
  }

  /** Sorting does not change the sizes. */
  lemma SameSizes(changes: seq<TextChange>, maximum: nat)
    ensures AllWithin(SortChanges(changes), maximum) <==> forall c :: c in changes ==> |c.insertText| <= maximum
  {
    SortChangesSorts(changes);
    AllWithinPointwise(SortChanges(changes), maximum);
  }

  /** What checking one more change adds. */
  lemma NextChange(cs: seq<TextChange>, i: nat, pos: int, n: int, maximum: nat)
    requires i < |cs|
    ensures Ascending(cs[i..], pos, n)
      <==> pos <= cs[i].offset && 0 <= cs[i].deleteCount && End(cs[i]) <= n && Ascending(cs[i + 1..], End(cs[i]), n)
    ensures AllWithin(cs[i..], maximum) <==> |cs[i].insertText| <= maximum && AllWithin(cs[i + 1..], maximum)
    ensures Growth(cs[..i + 1]) == Growth(cs[..i]) + |cs[i].insertText| - cs[i].deleteCount
  {
    assert cs[i..][1..] == cs[i + 1..];
    assert cs[..i + 1][..i] == cs[..i];
  }

  function Reversed(s: seq<TextChange>): (r: seq<TextChange>)
    ensures |r| == |s|
  {
    seq(|s|, k requires 0 <= k < |s| => s[|s| - 1 - k])
  }

  /** Walks the sorted changes once, with the end of the previous one and the length they lead to. */
  method CheckChanges(ascending: seq<TextChange>, length: nat, maximum: nat) returns (r: Result<int>)
    ensures r.Ok? <==> Ascending(ascending, 0, length) && AllWithin(ascending, maximum)
    ensures r.Ok? ==> r.value == length + Growth(ascending)
  {
    var previousEnd := 0;
    var nextLength: int := length;
    var i := 0;
    assert ascending[0..] == ascending;
    while i < |ascending|
      invariant 0 <= i <= |ascending| && 0 <= previousEnd
      invariant Ascending(ascending, 0, length) <==> Ascending(ascending[i..], previousEnd, length)
      invariant AllWithin(ascending, maximum) <==> AllWithin(ascending[i..], maximum)
      invariant nextLength == length + Growth(ascending[..i])
    {
      var change := ascending[i];
      NextChange(ascending, i, previousEnd, length, maximum);
      if change.offset < 0 || change.deleteCount < 0 || change.offset + change.deleteCount > length
        || |change.insertText| > maximum {
        return Err("outside");
      }
      if change.offset < previousEnd {
        return Err("overlap");
      }
      previousEnd := change.offset + change.deleteCount;
      nextLength := nextLength + |change.insertText| - change.deleteCount;
      i := i + 1;
    }
    assert ascending[..i] == ascending;
    return Ok(nextLength);
  }

  /**
   Sorts the changes, rejects anything outside the text, overlapping or too large,
   and returns them highest offset first.
   */
  method ValidatedTextChanges(changes: seq<TextChange>, current: Text, maximum: nat)
    returns (r: Result<seq<TextChange>>)
    ensures r.Ok? <==> Acceptable(changes, |current|, maximum)
    ensures r.Ok? ==> r.value == Reversed(SortChanges(changes))
  {
    if |changes| > MAX_TEXT_CHANGES_PER_EVENT {
      return Err("too many text changes");
    }
    var ascending := SortChanges(changes);
    var checked := CheckChanges(ascending, |current|, maximum);
    SameSizes(changes, maximum);
    if checked.Err? {
      return Err(checked.message);
    }
    if checked.value > maximum {
      return Err("size limit");
    }
    return Ok(Reversed(ascending));
  }

  /** The shared text of one document, edited in place. */
  class SharedText {
    var content: Text

    constructor (initial: Text)
      ensures content == initial
    {
      content := initial;
    }

    method Delete(offset: int, count: int)
      requires 0 <= offset && 0 <= count && offset + count <= |content|
      modifies this
      ensures content == old(content)[..offset] + old(content)[offset + count..]
    {
      content := content[..offset] + content[offset + count..];
    }

    method Insert(offset: int, text: Text)
      requires 0 <= offset <= |content|
      modifies this
      ensures content == old(content)[..offset] + text + old(content)[offset..]
    {
      content := content[..offset] + text + content[offset..];
    }

    /**
     The edits, applied one after the other from the highest offset down, have the effect of
     substituting all of them at once in the original text; a rejected batch changes nothing.
     The bounds check the source repeats before each edit is the precondition of ApplyOne: it cannot fail.
     */
    method ApplyTextChanges(changes: seq<TextChange>, maximum: nat) returns (ok: bool)
      modifies this
      ensures ok <==> Acceptable(changes, |old(content)|, maximum)
      ensures ok ==> content == Substitute(old(content), 0, SortChanges(changes))
      ensures ok ==> |content| == |old(content)| + Growth(SortChanges(changes))
      ensures !ok ==> content == old(content)
    {
      var validated := ValidatedTextChanges(changes, content, maximum);
      if validated.Err? {
        return false;
      }
      ApplyDescending(validated.value, SortChanges(changes));
      SubstituteLength(old(content), 0, SortChanges(changes));
      return true;
    }

    method ApplyDescending(ordered: seq<TextChange>, ghost ascending: seq<TextChange>)
      requires Ascending(ascending, 0, |content|) && ordered == Reversed(ascending)
      modifies this
      ensures content == Substitute(old(content), 0, ascending)
    {
      ghost var m := |ascending|;
      assert ascending[m..] == [];
      var i := 0;
      while i < |ordered|
        invariant 0 <= i <= |ordered| && m == |ascending| - i
        invariant Ascending(ascending[m..], 0, |old(content)|)
        invariant content == Substitute(old(content), 0, ascending[m..])
      {
        m := m - 1;
        SubstituteStep(old(content), ascending, m);
        ApplyOne(ordered[i]);
        i := i + 1;
      }
      assert ascending[m..] == ascending;
    }

    method ApplyOne(change: TextChange)
      requires 0 <= change.offset && 0 <= change.deleteCount && End(change) <= |content|
      modifies this
      ensures content == old(content)[..change.offset] + change.insertText + old(content)[End(change)..]
    {
      if change.deleteCount != 0 {
        Delete(change.offset, change.deleteCount);
      }
      if change.insertText != [] {
        Insert(change.offset, change.insertText);
      }
    }
  }

  // ----- What a batch of changes means, position by position -----

  /** Everything inserted in front of unit `g` (or at the end), in list order. */
  ghost function InsertedAt(cs: seq<TextChange>, g: int): Text {
    if cs == [] then [] else (if cs[0].offset == g then cs[0].insertText else []) + InsertedAt(cs[1..], g)
  }

  /** Unit `j` is deleted by some change. */
  ghost predicate Covered(cs: seq<TextChange>, j: int) {
    exists k :: 0 <= k < |cs| && cs[k].offset <= j < End(cs[k])
  }

  /**
   The text in which gap `g` holds `gaps[g]` and unit `j` is kept exactly when it is not in `gone`,
   from gap `j` on.
   */
  ghost function Weave(text: Text, gaps: seq<Text>, gone: seq<bool>, j: nat): Text
    requires |gaps| == |text| + 1 && |gone| == |text| && j <= |text|
    decreases |text| - j
  {
    if j == |text| then gaps[j]
    else gaps[j] + (if gone[j] then [] else [text[j]]) + Weave(text, gaps, gone, j + 1)
  }

  ghost function Gaps(cs: seq<TextChange>, n: nat): (r: seq<Text>) {
    seq(n + 1, g => InsertedAt(cs, g))
  }

  ghost function Gone(cs: seq<TextChange>, n: nat): (r: seq<bool>) {
    seq(n, j => Covered(cs, j))
  }

  lemma {:induction false} InsertedAtNone(cs: seq<TextChange>, g: int)
    requires forall k :: 0 <= k < |cs| ==> cs[k].offset != g
    ensures InsertedAt(cs, g) == []
  {
    if cs != [] {
      InsertedAtNone(cs[1..], g);
    }
  }

  /** A stretch with nothing to insert and everything deleted vanishes. */
  lemma {:induction false} WeaveErases(text: Text, gaps: seq<Text>, gone: seq<bool>, j: nat, end: nat)
    requires |gaps| == |text| + 1 && |gone| == |text| && j <= end <= |text|
    requires forall k :: j <= k < end ==> gaps[k] == [] && gone[k]
    ensures Weave(text, gaps, gone, j) == Weave(text, gaps, gone, end)
    decreases end - j
  {
    if j < end {
      WeaveErases(text, gaps, gone, j + 1, end);
    }
  }

  /** A stretch with nothing to insert and nothing deleted is copied. */
  lemma {:induction false} WeaveCopies(text: Text, gaps: seq<Text>, gone: seq<bool>, j: nat, end: nat)
    requires |gaps| == |text| + 1 && |gone| == |text| && j <= end <= |text|
    requires forall k :: j <= k < end ==> gaps[k] == [] && !gone[k]
    ensures Weave(text, gaps, gone, j) == text[j..end] + Weave(text, gaps, gone, end)
    decreases end - j
  {
    if j < end {
      WeaveCopies(text, gaps, gone, j + 1, end);
      SliceSplit(text, j, j + 1, end);
      CopyUnit([text[j]], text[j + 1..end], Weave(text, gaps, gone, end));
      assert text[j..j + 1] == [text[j]];
    }
  }

  lemma CopyUnit(unit: Text, rest: Text, tail: Text)
    ensures [] + unit + (rest + tail) == unit + rest + tail
  {
  }

  lemma NothingBetween(insert: Text, tail: Text)
    ensures insert + [] + tail == insert + tail
  {
  }

  /** Only the gaps and marks from `j` on matter. */
  lemma {:induction false} WeaveAgrees(text: Text, g1: seq<Text>, d1: seq<bool>, g2: seq<Text>, d2: seq<bool>, j: nat)
    requires |g1| == |text| + 1 == |g2| && |d1| == |text| == |d2| && j <= |text|
    requires forall k :: j <= k <= |text| ==> g1[k] == g2[k]
    requires forall k :: j <= k < |text| ==> d1[k] == d2[k]
    ensures Weave(text, g1, d1, j) == Weave(text, g2, d2, j)
    decreases |text| - j
  {
    if j < |text| {
      WeaveAgrees(text, g1, d1, g2, d2, j + 1);
    }
  }

  /** Dropping the first change only affects the gap in front of it and the units it deletes. */
  lemma {:induction false} FirstChangeIsLocal(cs: seq<TextChange>, n: nat)
    requires cs != [] && Ascending(cs, 0, n)
    ensures forall g :: cs[0].offset < g <= n ==> Gaps(cs, n)[g] == Gaps(cs[1..], n)[g]
    ensures forall j :: End(cs[0]) <= j < n ==> Gone(cs, n)[j] == Gone(cs[1..], n)[j]
    ensures forall j :: cs[0].offset <= j < End(cs[0]) ==> Gone(cs, n)[j]
    ensures forall g :: cs[0].offset < g < End(cs[0]) ==> Gaps(cs, n)[g] == []
    ensures Gaps(cs, n)[cs[0].offset] == cs[0].insertText + Gaps(cs[1..], n)[cs[0].offset]
    ensures cs[0].deleteCount > 0 ==> Gaps(cs[1..], n)[cs[0].offset] == []
  {
    AscendingPairwise(cs[1..], End(cs[0]), n);
    forall j | 0 <= j < n
      ensures Covered(cs, j) <==> (cs[0].offset <= j < End(cs[0])) || Covered(cs[1..], j)
    {
      if Covered(cs, j) {
        var k :| 0 <= k < |cs| && cs[k].offset <= j < End(cs[k]);
        if k > 0 {
          assert cs[1..][k - 1] == cs[k];
        }
      }
      if Covered(cs[1..], j) {
        var k :| 0 <= k < |cs[1..]| && cs[1..][k].offset <= j < cs[1..][k].offset + cs[1..][k].deleteCount;
        assert cs[k + 1] == cs[1..][k];
      }
    }
    forall g | cs[0].offset <= g < End(cs[0]) ensures InsertedAt(cs[1..], g) == [] {
      InsertedAtNone(cs[1..], g);
    }
  }

  lemma {:induction false} WeaveIsSubstituteFrom(text: Text, cs: seq<TextChange>, pos: nat)
    requires pos <= |text| && Ascending(cs, pos, |text|)
    ensures Weave(text, Gaps(cs, |text|), Gone(cs, |text|), pos) == Substitute(text, pos, cs)
    decreases |cs|
  {
    var n := |text|;
    var gaps, gone := Gaps(cs, n), Gone(cs, n);
    if cs == [] {
      WeaveCopies(text, gaps, gone, pos, n);
      assert text[pos..n] == text[pos..];
    } else {
      var at, end := cs[0].offset, End(cs[0]);
      NothingBeforeFirst(cs, pos, n);
      WeaveCopies(text, gaps, gone, pos, at);
      WeaveFirstChange(text, cs);
      WeaveIsSubstituteFrom(text, cs[1..], end);
    }
  }

  lemma NothingBeforeFirst(cs: seq<TextChange>, pos: nat, n: nat)
    requires cs != [] && Ascending(cs, pos, n)
    ensures forall g :: pos <= g < cs[0].offset ==> Gaps(cs, n)[g] == [] && !Gone(cs, n)[g]
  {
    AscendingPairwise(cs, pos, n);
    forall g | pos <= g < cs[0].offset ensures Gaps(cs, n)[g] == [] && !Gone(cs, n)[g] {
      InsertedAtNone(cs, g);
    }
  }

  lemma ConcatAssociative(a: Text, b: Text, c: Text, d: Text)
    ensures (a + b) + c + d == a + (b + c + d)
  {
  }

  /** Two weaves that differ only by one insertion at `at`. */
  lemma WeaveAroundInsertion(text: Text, gaps: seq<Text>, gone: seq<bool>, gaps': seq<Text>, gone': seq<bool>,
                             insert: Text, at: nat)
    requires |gaps| == |text| + 1 == |gaps'| && |gone| == |text| == |gone'| && at <= |text|
    requires forall g :: at < g <= |text| ==> gaps[g] == gaps'[g]
    requires forall j :: at <= j < |text| ==> gone[j] == gone'[j]
    requires gaps[at] == insert + gaps'[at]
    ensures Weave(text, gaps, gone, at) == insert + Weave(text, gaps', gone', at)
  {
    if at < |text| {
      WeaveAgrees(text, gaps, gone, gaps', gone', at + 1);
      ConcatAssociative(insert, gaps'[at], if gone[at] then [] else [text[at]], Weave(text, gaps', gone', at + 1));
    }
  }

  /** Two weaves that differ only by one insertion at `at` and the deletion of `at..end`. */
  lemma WeaveAroundDeletion(text: Text, gaps: seq<Text>, gone: seq<bool>, gaps': seq<Text>, gone': seq<bool>,
                            insert: Text, at: nat, end: nat)
    requires |gaps| == |text| + 1 == |gaps'| && |gone| == |text| == |gone'| && at < end <= |text|
    requires forall g :: at < g <= |text| ==> gaps[g] == gaps'[g]
    requires forall j :: end <= j < |text| ==> gone[j] == gone'[j]
    requires forall j :: at <= j < end ==> gone[j]
    requires forall g :: at < g < end ==> gaps[g] == []
    requires gaps[at] == insert
    ensures Weave(text, gaps, gone, at) == insert + Weave(text, gaps', gone', end)
  {
    WeaveErases(text, gaps, gone, at + 1, end);
    WeaveAgrees(text, gaps, gone, gaps', gone', end);
    NothingBetween(insert, Weave(text, gaps, gone, end));
  }

  lemma WeaveFirstChange(text: Text, cs: seq<TextChange>)
    requires cs != [] && Ascending(cs, 0, |text|)
    ensures Weave(text, Gaps(cs, |text|), Gone(cs, |text|), cs[0].offset)
         == cs[0].insertText + Weave(text, Gaps(cs[1..], |text|), Gone(cs[1..], |text|), End(cs[0]))
  {
    var n := |text|;
    FirstChangeIsLocal(cs, n);
    var gaps, gone, gaps', gone' := Gaps(cs, n), Gone(cs, n), Gaps(cs[1..], n), Gone(cs[1..], n);
    if cs[0].deleteCount == 0 {
      WeaveAroundInsertion(text, gaps, gone, gaps', gone', cs[0].insertText, cs[0].offset);
    } else {
      assert cs[0].insertText + [] == cs[0].insertText;
      WeaveAroundDeletion(text, gaps, gone, gaps', gone', cs[0].insertText, cs[0].offset, End(cs[0]));
    }
  }

  /**
   The batch puts every insertion in front of the unit it names, in batch order, and keeps exactly
   the units no change deletes.
   */
  lemma SubstituteMeaning(text: Text, cs: seq<TextChange>)
    requires Ascending(cs, 0, |text|)
    ensures Substitute(text, 0, cs) == Weave(text, Gaps(cs, |text|), Gone(cs, |text|), 0)
  {
    WeaveIsSubstituteFrom(text, cs, 0);
  }
}

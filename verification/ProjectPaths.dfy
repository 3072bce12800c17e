/** Project-relative paths as sequences of segments. */
module ProjectPaths {
  datatype Segment = Segment(name: string)

  type Path = seq<Segment>

  /** `value` is `parent` or lies below it. */
  predicate SameOrChild(value: Path, parent: Path) { parent <= value }

  /** One of the two contains the other. */
  predicate Comparable(a: Path, b: Path) { a <= b || b <= a }

  /** Two prefixes of one path are comparable. */
  lemma PrefixesComparable(a: Path, b: Path, p: Path)
    requires a <= p && b <= p
    ensures Comparable(a, b)
  {
    if |a| <= |b| {
      assert a == p[..|a|] == b[..|a|];
    } else {
      assert b == p[..|b|] == a[..|b|];
    }
  }
}

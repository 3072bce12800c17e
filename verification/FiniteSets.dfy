/** Sizes of finite sets, and the numbers below a bound as a set. */
module FiniteSets {
  lemma SubsetIsSmaller<T>(small: set<T>, large: set<T>)
    requires small <= large
    ensures |small| <= |large| && (small != large ==> |small| < |large|)
  {
    assert large == small + (large - small);
  }

  /** A loop that moves `x` from what is to do to what is done. */
  lemma MoveOne<T>(todo: set<T>, done: set<T>, x: T)
    requires x in todo && todo !! done
    ensures (todo - {x}) + (done + {x}) == todo + done && todo - {x} !! done + {x}
  {
  }

  function IndexesBelow(n: nat): (r: set<nat>)
    ensures |r| == n && forall i :: i in r <==> 0 <= i < n
  {
    if n == 0 then {} else IndexesBelow(n - 1) + {n - 1}
  }

  /** A set of indexes below `n` that is as large as `n` holds them all. */
  lemma AllPresent(s: set<nat>, n: nat)
    requires |s| >= n && forall i :: i in s ==> i < n
    ensures s == IndexesBelow(n)
  {
    assert s <= IndexesBelow(n);
    SubsetIsSmaller(s, IndexesBelow(n));
  }
}

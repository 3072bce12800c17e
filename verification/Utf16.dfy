/** UTF-16 text, the unit in which the editor and the terminal count. */
module Utf16 {
  newtype CodeUnit = c: int | 0 <= c < 0x10000
  type Text = seq<CodeUnit>

  predicate IsHigh(c: CodeUnit) { 0xd800 <= c <= 0xdbff }

  predicate IsLow(c: CodeUnit) { 0xdc00 <= c <= 0xdfff }

  /** Every surrogate is half of a pair; such text survives encoding as UTF-8. */
  predicate WellFormed(s: Text) {
    s == [] ||
    if IsHigh(s[0]) then |s| >= 2 && IsLow(s[1]) && WellFormed(s[2..])
    else !IsLow(s[0]) && WellFormed(s[1..])
  }

  lemma {:induction false} WellFormedPairs(s: Text, k: nat)
    requires WellFormed(s) && k < |s|
    ensures IsLow(s[k]) ==> k > 0 && IsHigh(s[k - 1])
    ensures IsHigh(s[k]) ==> k + 1 < |s| && IsLow(s[k + 1])
  {
    if IsHigh(s[0]) {
      if k >= 2 {
        WellFormedPairs(s[2..], k - 2);
      }
    } else if k >= 1 {
      WellFormedPairs(s[1..], k - 1);
    }
  }

  lemma {:induction false} WellFormedConcat(a: Text, b: Text)
    requires WellFormed(a) && WellFormed(b)
    ensures WellFormed(a + b)
  {
    if a == [] {
      assert a + b == b;
    } else if IsHigh(a[0]) {
      WellFormedConcat(a[2..], b);
      assert (a + b)[2..] == a[2..] + b;
    } else {
      WellFormedConcat(a[1..], b);
      assert (a + b)[1..] == a[1..] + b;
    }
  }

  /** Cutting anywhere but inside a pair leaves two well-formed texts. */
  lemma {:induction false} WellFormedSplit(s: Text, k: nat)
    requires WellFormed(s) && k <= |s| && (k == |s| || !IsLow(s[k]))
    ensures WellFormed(s[..k]) && WellFormed(s[k..])
  {
    if k == 0 {
      assert s[k..] == s;
    } else if IsHigh(s[0]) {
      WellFormedSplit(s[2..], k - 2);
      assert s[..k][2..] == s[2..][..k - 2];
      assert s[k..] == s[2..][k - 2..];
    } else {
      WellFormedSplit(s[1..], k - 1);
      assert s[..k][1..] == s[1..][..k - 1];
      assert s[k..] == s[1..][k - 1..];
    }
  }
}

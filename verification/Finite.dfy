/** Counting facts about finite sets and repeat-free sequences. */
module Finite {

  lemma SmallerSet<T>(a: set<T>, b: set<T>)
    requires a < b
    ensures |a| < |b|
  {
    assert b == a + (b - a);
    assert b - a != {};
  }

  /** The first position of an element, or the length. */
  function Position<T(==)>(list: seq<T>, x: T): (i: nat)
    ensures i <= |list| && (i < |list| <==> x in list)
    ensures i < |list| ==> list[i] == x && x !in list[..i]
  {
    if list == [] || list[0] == x then 0 else 1 + Position(list[1..], x)
  }

  ghost predicate NoRepeats<T>(s: seq<T>) {
    forall i, j :: 0 <= i < j < |s| ==> s[i] != s[j]
  }

  /** A repeat-free sequence drawn from a set is no longer than the set. */
  lemma {:induction false} FitsIn<T>(s: seq<T>, within: set<T>)
    requires NoRepeats(s)
    requires forall i :: 0 <= i < |s| ==> s[i] in within
    ensures |s| <= |within|
  {
    if s == [] {
    } else {
      var n := |s| - 1;
      FitsIn(s[..n], within - {s[n]});
    }
  }
}

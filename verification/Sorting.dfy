/** Sorted lists of distinct elements under any strict order. */
module Sorting {

  ghost predicate StrictOrder<T(!new)>(before: (T, T) -> bool) {
    && (forall a :: !before(a, a))
    && (forall a, b, c :: before(a, b) && before(b, c) ==> before(a, c))
  }

  ghost predicate Sorted<T>(before: (T, T) -> bool, s: seq<T>) {
    forall i, j :: 0 <= i < j < |s| ==> before(s[i], s[j])
  }

  lemma TailMembers<T(!new)>(before: (T, T) -> bool, s: seq<T>, x: T)
    requires StrictOrder(before) && Sorted(before, s) && s != []
    ensures x in s[1..] <==> x in s && x != s[0]
    ensures x in s[1..] ==> before(s[0], x)
  {
    if x in s[1..] {
      var i :| 1 <= i < |s| && s[i] == x;
      assert before(s[0], s[i]);
    }
    assert s == [s[0]] + s[1..];
  }

  /** Two sorted lists of the same elements are the same list. */
  lemma {:induction false} SortedUnique<T(!new)>(before: (T, T) -> bool, s: seq<T>, t: seq<T>)
    requires StrictOrder(before) && Sorted(before, s) && Sorted(before, t)
    requires forall x :: x in s <==> x in t
    ensures s == t
  {
    if s != [] { assert s[0] in t; }
    if t != [] { assert t[0] in s; }
    if s == [] || t == [] {
    } else {
      TailMembers(before, s, t[0]);
      TailMembers(before, t, s[0]);
      assert s[0] == t[0];
      forall x ensures x in s[1..] <==> x in t[1..] {
        TailMembers(before, s, x);
        TailMembers(before, t, x);
      }
      SortedUnique(before, s[1..], t[1..]);
      assert s == [s[0]] + s[1..] && t == [t[0]] + t[1..];
    }
  }

  method Insert<T(!new)>(before: (T, T) -> bool, s: seq<T>, x: T) returns (t: seq<T>)
    requires StrictOrder(before) && Sorted(before, s)
    requires forall y :: y in s ==> before(y, x) || before(x, y)
    ensures Sorted(before, t) && forall y :: y in t <==> y in s || y == x
  {
    var i := 0;
    while i < |s| && before(s[i], x)
      invariant i <= |s| && forall j :: 0 <= j < i ==> before(s[j], x)
    {
      i := i + 1;
    }
    forall j | i <= j < |s| ensures before(x, s[j]) {
      assert s[i] in s;
      if i < j { assert before(s[i], s[j]); }
    }
    t := s[..i] + [x] + s[i..];
    assert s == s[..i] + s[i..];
  }
}

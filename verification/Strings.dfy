/** Strings in code-point order, the order `sorted` puts them in. */
module Strings {
  import opened Sorting

  predicate Less(a: string, b: string) {
    b != "" && (a == "" || a[0] < b[0] || (a[0] == b[0] && Less(a[1..], b[1..])))
  }

  lemma {:induction false} LessIrreflexive(a: string)
    ensures !Less(a, a)
  {
    if a == "" {
    } else {
      LessIrreflexive(a[1..]);
    }
  }

  lemma {:induction false} LessTransitive(a: string, b: string, c: string)
    requires Less(a, b) && Less(b, c)
    ensures Less(a, c)
  {
    if a != "" && a[0] == b[0] == c[0] { LessTransitive(a[1..], b[1..], c[1..]); }
  }

  lemma {:induction false} LessTotal(a: string, b: string)
    ensures Less(a, b) || a == b || Less(b, a)
  {
    if a != "" && b != "" && a[0] == b[0] {
      LessTotal(a[1..], b[1..]);
      if a[1..] == b[1..] { assert a == [a[0]] + a[1..] == b; }
    }
  }

  lemma LessAsymmetric(a: string, b: string)
    requires Less(a, b)
    ensures !Less(b, a)
  {
  }

  // ---- sorted lists of distinct strings ---------------------------------------------------

  ghost predicate InOrder(ids: seq<string>) {
    Sorted(Less, ids)
  }

  lemma LessIsOrder()
    ensures StrictOrder(Less)
  {
    forall a ensures !Less(a, a) { LessIrreflexive(a); }
    forall a, b, c | Less(a, b) && Less(b, c) ensures Less(a, c) { LessTransitive(a, b, c); }
  }

  method Insert(ids: seq<string>, x: string) returns (out: seq<string>)
    requires InOrder(ids) && x !in ids
    ensures InOrder(out) && forall y :: y in out <==> y in ids || y == x
  {
    LessIsOrder();
    forall y | y in ids ensures Less(y, x) || Less(x, y) { LessTotal(y, x); }
    out := Sorting.Insert(Less, ids, x);
  }
}

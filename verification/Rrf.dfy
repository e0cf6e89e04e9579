/** Reciprocal rank fusion (runtime/rrf.py), in exact arithmetic with scores rounded to six decimals. */
module Rrf {
  import opened Wrappers
  import opened Finite
  import opened Json
  import opened Rounding
  import opened Sorting
  import opened Strings

  // ---- scores -----------------------------------------------------------------------------

  /** 1 / (rrf_k + rank), ranks counted from one. */
  function Share(k: nat, index: nat): real {
    1.0 / (k + index + 1) as real
  }

  function Term(k: nat, list: seq<string>, id: string): real {
    if id in list then Share(k, Position(list, id)) else 0.0
  }

  function Score(k: nat, lists: seq<seq<string>>, id: string): real {
    if lists == [] then 0.0
    else Score(k, lists[..|lists| - 1], id) + Term(k, lists[|lists| - 1], id)
  }

  /** The published score, in millionths. */
  function Millionths(ties: Ties, k: nat, lists: seq<seq<string>>, id: string): int {
    RoundBy(ties, 1000000.0 * Score(k, lists, id))
  }

  predicate Occurs(lists: seq<seq<string>>, id: string) {
    exists i :: 0 <= i < |lists| && id in lists[i]
  }

  // ---- the fused ranking ------------------------------------------------------------------

  type Scored = (string, int)

  /** Higher score first, ties by id. */
  predicate Before(a: Scored, b: Scored) {
    a.1 > b.1 || (a.1 == b.1 && Less(a.0, b.0))
  }

  /** `out` lists every id that occurs, once, with its rounded score, best first. */
  ghost predicate Ranks(ties: Ties, out: seq<Scored>, k: nat, lists: seq<seq<string>>) {
    Sorted(Before, out) && forall x :: x in out <==> Occurs(lists, x.0) && x.1 == Millionths(ties, k, lists, x.0)
  }

  lemma BeforeTransitive(a: Scored, b: Scored, c: Scored)
    requires Before(a, b) && Before(b, c)
    ensures Before(a, c)
  {
    if a.1 == b.1 == c.1 { LessTransitive(a.0, b.0, c.0); }
  }

  lemma BeforeAsymmetric(a: Scored, b: Scored)
    requires Before(a, b)
    ensures !Before(b, a)
  {
    if a.1 == b.1 { LessAsymmetric(a.0, b.0); }
  }

  lemma BeforeIsOrder()
    ensures StrictOrder(Before)
  {
    forall a ensures !Before(a, a) { LessIrreflexive(a.0); }
    forall a, b, c | Before(a, b) && Before(b, c) ensures Before(a, c) { BeforeTransitive(a, b, c); }
  }

  /** The ranking is determined by the lists. */
  lemma RankingUnique(ties: Ties, out: seq<Scored>, out': seq<Scored>, k: nat, lists: seq<seq<string>>)
    requires Ranks(ties, out, k, lists) && Ranks(ties, out', k, lists)
    ensures out == out'
  {
    BeforeIsOrder();
    SortedUnique(Before, out, out');
  }

  /** Of any two neighbours or others in the ranking, the earlier scores higher, or the same with the lesser id. */
  lemma BestFirst(ties: Ties, out: seq<Scored>, k: nat, lists: seq<seq<string>>, i: nat, j: nat)
    requires Ranks(ties, out, k, lists) && i < j < |out|
    ensures out[i].1 > out[j].1 || (out[i].1 == out[j].1 && Less(out[i].0, out[j].0))
  {
  }

  /** One more list adds the reciprocal of k plus the rank, counted from one, of the id's first place in it; and the
      published score lies within half a millionth of the sum. */
  lemma OneMoreList(ties: Ties, k: nat, lists: seq<seq<string>>, list: seq<string>, i: nat)
    requires i < |list| && list[i] !in list[..i]
    ensures Score(k, lists + [list], list[i]) == Score(k, lists, list[i]) + 1.0 / (k + (i + 1)) as real
    ensures forall id :: id !in list ==> Score(k, lists + [list], id) == Score(k, lists, id)
    ensures forall id :: -0.5 <= Millionths(ties, k, lists, id) as real - 1000000.0 * Score(k, lists, id) <= 0.5
  {
    FirstIs(list, i, list[i]);
    assert (lists + [list])[..|lists|] == lists;
  }

  // ---- fuse -------------------------------------------------------------------------------

  /** The scores after the first i lists. */
  ghost predicate Accumulated(k: nat, lists: seq<seq<string>>, i: nat, scores: map<string, real>)
    requires i <= |lists|
  {
    forall id :: (id in scores <==> Occurs(lists[..i], id)) && (id in scores ==> scores[id] == Score(k, lists[..i], id))
  }

  lemma ScoreNone(k: nat, lists: seq<seq<string>>, id: string)
    requires !Occurs(lists, id)
    ensures Score(k, lists, id) == 0.0
  {
  }

  lemma TermPrefix(k: nat, list: seq<string>, j: nat, id: string)
    requires j < |list|
    ensures Term(k, list[..j + 1], id)
         == if id in list[..j] then Term(k, list[..j], id) else if id == list[j] then Share(k, j) else 0.0
  {
  }

  lemma FirstIs(list: seq<string>, i: nat, id: string)
    requires i < |list| && list[i] == id && id !in list[..i]
    ensures Position(list, id) == i
  {
  }

  /** One list's contributions: the first occurrence of an id earns its share, later ones nothing. */
  method AddList(k: nat, ghost lists: seq<seq<string>>, ghost i: nat, list: seq<string>, scores: map<string, real>)
    returns (scores': map<string, real>)
    requires i < |lists| && list == lists[i] && Accumulated(k, lists, i, scores)
    ensures Accumulated(k, lists, i + 1, scores')
  {
    scores' := scores;
    var seen := {};
    for j := 0 to |list|
      invariant forall id :: id in seen <==> id in list[..j]
      invariant forall id :: id in scores' <==> id in scores || id in list[..j]
      invariant forall id :: id in scores' ==> scores'[id] == (if id in scores then scores[id] else 0.0) + Term(k, list[..j], id)
    {
      assert list[..j + 1] == list[..j] + [list[j]];
      forall id ensures Term(k, list[..j + 1], id)
                     == if id in list[..j] then Term(k, list[..j], id) else if id == list[j] then Share(k, j) else 0.0 {
        TermPrefix(k, list, j, id);
      }
      var cid := list[j];
      if cid in seen { continue; }
      seen := seen + {cid};
      scores' := scores'[cid := (if cid in scores' then scores'[cid] else 0.0) + 1.0 / (k + (j + 1)) as real];
    }
    assert list[..|list|] == list;
    var p, q := lists[..i], lists[..i + 1];
    assert q[..|q| - 1] == p && q[|q| - 1] == list;
    forall id ensures (id in scores' <==> Occurs(q, id)) && (id in scores' ==> scores'[id] == Score(k, q, id)) {
      OccursLast(lists, i, id);
      if !Occurs(p, id) { ScoreNone(k, p, id); }
    }
  }

  lemma OccursLast(lists: seq<seq<string>>, i: nat, id: string)
    requires i < |lists|
    ensures Occurs(lists[..i + 1], id) <==> Occurs(lists[..i], id) || id in lists[i]
  {
  }

  method Fuse(ties: Ties, k: nat, lists: seq<seq<string>>) returns (out: seq<Scored>)
    ensures Ranks(ties, out, k, lists)
  {
    var scores: map<string, real> := map[];
    for i := 0 to |lists|
      invariant Accumulated(k, lists, i, scores)
    {
      scores := AddList(k, lists, i, lists[i], scores);
    }
    assert lists[..|lists|] == lists;
    out := [];
    BeforeIsOrder();
    var todo := scores.Keys;
    while todo != {}
      invariant todo <= scores.Keys && Sorted(Before, out)
      invariant forall x :: x in out <==> x.0 in scores && x.0 !in todo && x.1 == RoundBy(ties, 1000000.0 * scores[x.0])
      decreases todo
    {
      var id :| id in todo;
      var x := (id, RoundBy(ties, 1000000.0 * scores[id]));
      forall y | y in out ensures Before(y, x) || Before(x, y) { LessTotal(y.0, x.0); }
      out := Sorting.Insert(Before, out, x);
      todo := todo - {id};
    }
  }

  // ---- order of the signal lists ----------------------------------------------------------

  function Without<T>(s: seq<T>, i: nat): seq<T>
    requires i < |s|
  {
    s[..i] + s[i + 1..]
  }

  lemma {:induction false} ScoreWithout(k: nat, lists: seq<seq<string>>, i: nat, id: string)
    requires i < |lists|
    ensures Score(k, lists, id) == Score(k, Without(lists, i), id) + Term(k, lists[i], id)
  {
    var n := |lists| - 1;
    if i == n {
      assert Without(lists, i) == lists[..n];
    } else {
      ScoreWithout(k, lists[..n], i, id);
      var w := Without(lists, i);
      assert w[..|w| - 1] == Without(lists[..n], i) && w[|w| - 1] == lists[n];
    }
  }

  lemma MultisetWithout<T>(s: seq<T>, i: nat)
    requires i < |s|
    ensures multiset(Without(s, i)) == multiset(s) - multiset{s[i]}
  {
    assert s == s[..i] + [s[i]] + s[i + 1..];
  }

  lemma {:induction false} ScorePermuted(k: nat, lists: seq<seq<string>>, lists': seq<seq<string>>, id: string)
    requires multiset(lists) == multiset(lists')
    ensures Score(k, lists, id) == Score(k, lists', id)
  {
    if lists == [] {
      assert |lists'| == |multiset(lists')| == 0;
    } else {
      var n := |lists| - 1;
      assert lists[n] in multiset(lists');
      var i :| 0 <= i < |lists'| && lists'[i] == lists[n];
      assert lists[..n] == Without(lists, n);
      MultisetWithout(lists, n);
      MultisetWithout(lists', i);
      ScorePermuted(k, lists[..n], Without(lists', i), id);
      ScoreWithout(k, lists', i, id);
    }
  }

  /** Permuting the signal lists changes nothing. */
  lemma ListOrderIrrelevant(ties: Ties, k: nat, lists: seq<seq<string>>, lists': seq<seq<string>>, out: seq<Scored>)
    requires multiset(lists) == multiset(lists') && Ranks(ties, out, k, lists)
    ensures Ranks(ties, out, k, lists')
  {
    forall id ensures Occurs(lists, id) <==> Occurs(lists', id) {
      OccursInMultiset(lists, lists', id);
      OccursInMultiset(lists', lists, id);
    }
    forall id ensures Millionths(ties, k, lists, id) == Millionths(ties, k, lists', id) {
      ScorePermuted(k, lists, lists', id);
    }
  }

  lemma OccursInMultiset(lists: seq<seq<string>>, lists': seq<seq<string>>, id: string)
    requires multiset(lists) == multiset(lists')
    ensures Occurs(lists, id) ==> Occurs(lists', id)
  {
    if Occurs(lists, id) {
      var i :| 0 <= i < |lists| && id in lists[i];
      assert lists[i] in multiset(lists');
    }
  }

  // ---- moving an id up --------------------------------------------------------------------

  /** The list with its j-th element moved up to place i. */
  function MoveUp(list: seq<string>, i: nat, j: nat): seq<string>
    requires i <= j < |list|
  {
    list[..i] + [list[j]] + list[i..j] + list[j + 1..]
  }

  lemma ShareDecreases(k: nat, a: nat, b: nat)
    requires a <= b
    ensures 0.0 < Share(k, b) <= Share(k, a)
  {
    ReciprocalDecreases((k + a + 1) as real, (k + b + 1) as real);
  }

  lemma MoveUpTerm(k: nat, list: seq<string>, i: nat, j: nat, id: string)
    requires NoRepeats(list) && i <= j < |list|
    ensures id == list[j] ==> Term(k, MoveUp(list, i, j), id) >= Term(k, list, id)
    ensures id != list[j] ==> Term(k, MoveUp(list, i, j), id) <= Term(k, list, id)
  {
    var moved := MoveUp(list, i, j);
    assert moved[i] == list[j];
    if id in list {
      var f := Position(list, id);
      var g := if f == j then i else if i <= f < j then f + 1 else f;
      assert moved[g] == id;
      forall m | 0 <= m < g ensures moved[m] != id {
        assert moved[m] == list[if m < i then m else if m == i then j else if m <= j then m - 1 else m];
      }
      FirstIs(moved, g, id);
      if f == j { FirstIs(list, j, id); ShareDecreases(k, g, f); } else { ShareDecreases(k, f, g); }
    } else {
      assert forall m :: 0 <= m < |moved| ==> moved[m] in list;
    }
  }

  lemma {:induction false} MoveUpScore(ties: Ties, k: nat, lists: seq<seq<string>>, s: nat, i: nat, j: nat, id: string)
    requires s < |lists| && NoRepeats(lists[s]) && i <= j < |lists[s]|
    ensures var lists' := lists[s := MoveUp(lists[s], i, j)];
            if id == lists[s][j] then Millionths(ties, k, lists', id) >= Millionths(ties, k, lists, id)
            else Millionths(ties, k, lists', id) <= Millionths(ties, k, lists, id)
  {
    var lists' := lists[s := MoveUp(lists[s], i, j)];
    ScoreWithout(k, lists, s, id);
    ScoreWithout(k, lists', s, id);
    assert Without(lists, s) == Without(lists', s);
    MoveUpTerm(k, lists[s], i, j, id);
    var x, x' := Score(k, lists, id), Score(k, lists', id);
    if id == lists[s][j] {
      RoundMonotone(ties, 1000000.0 * x, 1000000.0 * x');
    } else {
      RoundMonotone(ties, 1000000.0 * x', 1000000.0 * x);
    }
  }

  lemma MoveUpOccurs(lists: seq<seq<string>>, s: nat, i: nat, j: nat, id: string)
    requires s < |lists| && i <= j < |lists[s]|
    ensures Occurs(lists[s := MoveUp(lists[s], i, j)], id) <==> Occurs(lists, id)
  {
    var list, moved := lists[s], MoveUp(lists[s], i, j);
    var lists' := lists[s := moved];
    assert list == list[..i] + list[i..j] + [list[j]] + list[j + 1..];
    assert id in moved <==> id in list;
    if Occurs(lists, id) {
      var m :| 0 <= m < |lists| && id in lists[m];
      assert id in lists'[m];
    }
    if Occurs(lists', id) {
      var m :| 0 <= m < |lists'| && id in lists'[m];
      assert id in lists[m];
    }
  }

  /** Moving an id up in one repeat-free signal list never worsens its place in the fused order, rounding and the
      tie-break notwithstanding. */
  lemma MoveUpNeverHurts(ties: Ties, k: nat, lists: seq<seq<string>>, s: nat, i: nat, j: nat,
                         out: seq<Scored>, out': seq<Scored>, a: nat, b: nat)
    requires s < |lists| && NoRepeats(lists[s]) && i <= j < |lists[s]|
    requires Ranks(ties, out, k, lists) && Ranks(ties, out', k, lists[s := MoveUp(lists[s], i, j)])
    requires a < |out| && b < |out'| && out[a].0 == out'[b].0 == lists[s][j]
    ensures b <= a
  {
    var lists' := lists[s := MoveUp(lists[s], i, j)];
    var ahead := seq(b, m requires 0 <= m < b => out'[m].0);
    var bound := set m | 0 <= m < a :: out[m].0;
    assert out[a] in out && out'[b] in out';
    MoveUpScore(ties, k, lists, s, i, j, out[a].0);
    forall m | 0 <= m < b ensures ahead[m] in bound {
      StillAhead(ties, k, lists, s, i, j, out, out', a, b, m);
    }
    forall m, n | 0 <= m < n < b ensures ahead[m] != ahead[n] {
      assert out'[m] in out' && out'[n] in out' && Before(out'[m], out'[n]);
      LessIrreflexive(out'[m].0);
    }
    FitsIn(ahead, bound);
    PrefixSize(out, a);
  }

  /** Whatever stands before the moved id afterwards stood before it already. */
  lemma StillAhead(ties: Ties, k: nat, lists: seq<seq<string>>, s: nat, i: nat, j: nat,
                   out: seq<Scored>, out': seq<Scored>, a: nat, b: nat, m: nat)
    requires s < |lists| && NoRepeats(lists[s]) && i <= j < |lists[s]| && m < b
    requires Ranks(ties, out, k, lists) && Ranks(ties, out', k, lists[s := MoveUp(lists[s], i, j)])
    requires a < |out| && b < |out'| && out[a].0 == out'[b].0 == lists[s][j]
    ensures exists n :: 0 <= n < a && out[n].0 == out'[m].0
  {
    hide Millionths, Occurs, Less, MoveUp;
    var y, x := out'[m].0, out[a].0;
    assert out'[m] in out' && out'[b] in out' && out[a] in out && Before(out'[m], out'[b]);
    if y == x { LessIrreflexive(x); }
    MoveUpOccurs(lists, s, i, j, y);
    MoveUpScore(ties, k, lists, s, i, j, y);
    MoveUpScore(ties, k, lists, s, i, j, x);
    var old' := (y, Millionths(ties, k, lists, y));
    assert old' in out;
    var n :| 0 <= n < |out| && out[n] == old';
    assert Before(old', out[a]);
    if n >= a { BeforeAsymmetric(old', out[a]); }
  }

  lemma {:induction false} PrefixSize(out: seq<Scored>, a: nat)
    requires a <= |out|
    ensures |set m | 0 <= m < a :: out[m].0| <= a
  {
    var s := set m | 0 <= m < a :: out[m].0;
    if a > 0 {
      PrefixSize(out, a - 1);
      var t := set m | 0 <= m < a - 1 :: out[m].0;
      assert s == t + {out[a - 1].0};
    } else {
      assert s == {};
    }
  }

  // ---- one signal list --------------------------------------------------------------------

  function IdsOf(out: seq<Scored>): seq<string> {
    seq(|out|, i requires 0 <= i < |out| => out[i].0)
  }

  /** The published score of the place with this index in a single list. */
  function Place(ties: Ties, k: nat, index: nat): int {
    RoundBy(ties, 1000000.0 * Share(k, index))
  }

  lemma PlaceIs(ties: Ties, k: nat, list: seq<string>, r: nat)
    requires NoRepeats(list) && r < |list|
    ensures Occurs([list], list[r]) && Millionths(ties, k, [list], list[r]) == Place(ties, k, r)
  {
    FirstIs(list, r, list[r]);
    assert [list][0] == list && [list][..0] == [];
    assert Score(k, [list], list[r]) == Score(k, [], list[r]) + Share(k, r);
  }

  lemma PlaceDecreases(ties: Ties, k: nat, a: nat, b: nat)
    requires a <= b
    ensures 0 <= Place(ties, k, b) <= Place(ties, k, a)
  {
    ShareDecreases(k, a, b);
    RoundMonotone(ties, 1000000.0 * Share(k, b), 1000000.0 * Share(k, a));
    RoundMonotone(ties, 0.0, 1000000.0 * Share(k, b));
  }

  /** Neighbours whose scores round alike stand in id order. */
  ghost predicate TiesInOrder(ties: Ties, k: nat, list: seq<string>) {
    forall r :: 0 <= r < |list| - 1 && Place(ties, k, r) == Place(ties, k, r + 1) ==> Less(list[r], list[r + 1])
  }

  lemma {:induction false} ChainSorted(s: seq<Scored>, i: nat, j: nat)
    requires i < j < |s| && forall r :: 0 <= r < |s| - 1 ==> Before(s[r], s[r + 1])
    ensures Before(s[i], s[j])
    decreases j
  {
    assert Before(s[j - 1], s[j - 1 + 1]);
    if i < j - 1 {
      ChainSorted(s, i, j - 1);
      BeforeTransitive(s[i], s[j - 1], s[j]);
    }
  }

  lemma OwnRanking(ties: Ties, k: nat, list: seq<string>) returns (out: seq<Scored>)
    requires NoRepeats(list) && TiesInOrder(ties, k, list)
    ensures Ranks(ties, out, k, [list]) && IdsOf(out) == list
  {
    out := seq(|list|, r requires 0 <= r < |list| => (list[r], Place(ties, k, r)));
    forall r | 0 <= r < |out| - 1 ensures Before(out[r], out[r + 1]) { PlaceDecreases(ties, k, r, r + 1); }
    forall i, j | 0 <= i < j < |out| ensures Before(out[i], out[j]) { ChainSorted(out, i, j); }
    forall x ensures x in out <==> Occurs([list], x.0) && x.1 == Millionths(ties, k, [list], x.0) {
      if x in out {
        var r :| 0 <= r < |out| && out[r] == x;
        PlaceIs(ties, k, list, r);
      } else if Occurs([list], x.0) {
        var r :| 0 <= r < |list| && list[r] == x.0;
        PlaceIs(ties, k, list, r);
        assert out[r] == (x.0, Place(ties, k, r));
      }
    }
  }

  /** A repeat-free list comes back in its own order exactly when the ids of its rounding ties are in order. */
  lemma IdentityExactly(ties: Ties, k: nat, list: seq<string>, out: seq<Scored>)
    requires NoRepeats(list) && Ranks(ties, out, k, [list])
    ensures IdsOf(out) == list <==> TiesInOrder(ties, k, list)
  {
    if TiesInOrder(ties, k, list) {
      var own := OwnRanking(ties, k, list);
      RankingUnique(ties, out, own, k, [list]);
    }
    if IdsOf(out) == list {
      forall r | 0 <= r < |list| - 1 && Place(ties, k, r) == Place(ties, k, r + 1) ensures Less(list[r], list[r + 1]) {
        assert out[r].0 == IdsOf(out)[r] && out[r + 1].0 == IdsOf(out)[r + 1];
        assert out[r] in out && out[r + 1] in out && Before(out[r], out[r + 1]);
        PlaceIs(ties, k, list, r);
        PlaceIs(ties, k, list, r + 1);
      }
    }
  }

  lemma PlacesApart(ties: Ties, k: nat, r: nat)
    requires (k + r + 1) * (k + r + 2) < 1000000
    ensures Place(ties, k, r) > Place(ties, k, r + 1)
  {
    var x, y := (k + r + 1) as real, (k + r + 2) as real;
    assert x * y == ((k + r + 1) * (k + r + 2)) as real;
    var p, q := Share(k, r), Share(k, r + 1);
    assert p * x == 1.0 && q * y == 1.0 && y == x + 1.0;
    Gap(x, y, p, q);
    RoundSeparates(ties, 1000000.0 * p, 1000000.0 * q);
  }

  lemma Gap(x: real, y: real, p: real, q: real)
    requires x > 0.0 && y == x + 1.0 && p * x == 1.0 && q * y == 1.0 && x * y < 1000000.0
    ensures 1000000.0 * p > 1000000.0 * q + 1.0
  {
    var w := x * y;
    Reassociate(p, x, y);
    Reassociate(q, y, x);
    assert p * w == y && q * w == x;
    var d := p - q;
    assert d * w == 1.0;
    TimesStrict(0.0, y, x);
    Reassociate(1000000.0, d, w);
    if 1000000.0 * d <= 1.0 { TimesMonotone(1000000.0 * d, 1.0, w); }
  }

  lemma Reassociate(a: real, b: real, c: real)
    ensures a * (b * c) == (a * b) * c
  {
  }

  /** Up to this length every repeat-free list comes back unchanged; 940 at the default rrf_k of 60. */
  lemma SingleListIdentity(ties: Ties, k: nat, list: seq<string>, out: seq<Scored>)
    requires NoRepeats(list) && Ranks(ties, out, k, [list])
    requires |list| <= 1 || (k + |list| - 1) * (k + |list|) < 1000000
    ensures IdsOf(out) == list
  {
    forall r | 0 <= r < |list| - 1 ensures Place(ties, k, r) > Place(ties, k, r + 1) {
      ProductMonotone(k + r + 1, k + |list| - 1);
      PlacesApart(ties, k, r);
    }
    IdentityExactly(ties, k, list, out);
  }

  lemma ProductMonotone(a: nat, b: nat)
    requires a <= b
    ensures a * (a + 1) <= b * (b + 1)
  {
  }

  // ---- long lists -------------------------------------------------------------------------

  /** The first index whose share is at most a thousandth. */
  function Thin(k: nat): nat {
    if k <= 999 then 999 - k else 0
  }

  lemma ThinPlace(ties: Ties, k: nat)
    ensures Place(ties, k, Thin(k)) <= 1000
  {
  }

  /** Scores that fall by less than the distance stall somewhere on the way. */
  lemma {:induction false} Stalls(ties: Ties, k: nat, m: nat, n: nat) returns (r: nat)
    requires m < n && Place(ties, k, m) < Place(ties, k, n) + (n - m)
    ensures m <= r < n && Place(ties, k, r) <= Place(ties, k, r + 1)
    decreases n - m
  {
    if Place(ties, k, m) <= Place(ties, k, m + 1) { r := m; } else { r := Stalls(ties, k, m + 1, n); }
  }

  /** More places than values: in a list this long two neighbours' scores round alike. */
  lemma LongListsTie(ties: Ties, k: nat, n: nat) returns (r: nat)
    requires n >= Thin(k) + 1002
    ensures r < n - 1 && Place(ties, k, r) == Place(ties, k, r + 1)
  {
    ThinPlace(ties, k);
    PlaceDecreases(ties, k, n - 1, n - 1);
    r := Stalls(ties, k, Thin(k), n - 1);
    PlaceDecreases(ties, k, r, r + 1);
  }

  /** So identity fails for some arrangement of any ids of that number: the list itself, or the one with two
      neighbours exchanged. */
  lemma IdentityFailsWhenLong(ties: Ties, k: nat, ids: seq<string>) returns (list: seq<string>)
    requires NoRepeats(ids) && |ids| >= Thin(k) + 1002
    ensures NoRepeats(list) && |list| == |ids| && forall id :: id in list <==> id in ids
    ensures forall out :: Ranks(ties, out, k, [list]) ==> IdsOf(out) != list
  {
    var r := LongListsTie(ties, k, |ids|);
    LessTotal(ids[r], ids[r + 1]);
    if Less(ids[r], ids[r + 1]) {
      LessAsymmetric(ids[r], ids[r + 1]);
      list := ids[r := ids[r + 1]][r + 1 := ids[r]];
      assert forall i :: 0 <= i < |ids| ==> list[i] == ids[if i == r then r + 1 else if i == r + 1 then r else i];
      assert forall i :: 0 <= i < |ids| ==> ids[i] == list[if i == r then r + 1 else if i == r + 1 then r else i];
    } else {
      list := ids;
    }
    assert !TiesInOrder(ties, k, list);
    forall out | Ranks(ties, out, k, [list]) ensures IdsOf(out) != list {
      IdentityExactly(ties, k, list, out);
    }
  }

  // ---- fusing chunks ----------------------------------------------------------------------

  datatype Hit = Hit(id: string, fields: Fields)

  datatype Fused = Fused(fields: Fields, score: int)

  function HitIds(list: seq<Hit>): seq<string> {
    seq(|list|, i requires 0 <= i < |list| => list[i].id)
  }

  function IdLists(signals: seq<seq<Hit>>): seq<seq<string>> {
    seq(|signals|, i requires 0 <= i < |signals| => HitIds(signals[i]))
  }

  /** All chunks in the order the loops meet them. */
  function Flat(signals: seq<seq<Hit>>): seq<Hit> {
    if signals == [] then [] else Flat(signals[..|signals| - 1]) + signals[|signals| - 1]
  }

  /** A later chunk only fills the gaps of the earlier ones. */
  function Merged(all: seq<Hit>, id: string): Fields {
    if all == [] then map[]
    else
      var c, before := all[|all| - 1], Merged(all[..|all| - 1], id);
      if c.id == id then c.fields + before else before
  }

  /** The first chunk of this id that has the field, null or not. */
  function Bearer(all: seq<Hit>, id: string, key: string): Option<Value> {
    if all == [] then None
    else if all[0].id == id && key in all[0].fields then Some(all[0].fields[key])
    else Bearer(all[1..], id, key)
  }

  lemma {:induction false} BearerSnoc(all: seq<Hit>, c: Hit, id: string, key: string)
    ensures Bearer(all + [c], id, key)
         == if Bearer(all, id, key).Some? then Bearer(all, id, key)
            else if c.id == id && key in c.fields then Some(c.fields[key]) else None
  {
    if all == [] {
    } else {
      assert (all + [c])[1..] == all[1..] + [c];
      BearerSnoc(all[1..], c, id, key);
    }
  }

  /** The merged chunk carries, for each field, what the first chunk that has the field says. */
  lemma {:induction false} FirstFieldWins(all: seq<Hit>, id: string, key: string)
    ensures (if key in Merged(all, id) then Some(Merged(all, id)[key]) else None) == Bearer(all, id, key)
  {
    if all == [] {
    } else {
      var n := |all| - 1;
      FirstFieldWins(all[..n], id, key);
      BearerSnoc(all[..n], all[n], id, key);
      assert all == all[..n] + [all[n]];
    }
  }

  /** The first chunk of this id whose field is not null: what the documentation says wins. */
  function FirstNonNull(all: seq<Hit>, id: string, key: string): Option<Value> {
    if all == [] then None
    else if all[0].id == id && key in all[0].fields && all[0].fields[key] != Null then Some(all[0].fields[key])
    else FirstNonNull(all[1..], id, key)
  }

  /** The merge keeps the first non-null value exactly when the field's first bearer is not null, or no chunk of
      the id has a non-null value at all: an early null hides every later value. */
  lemma {:induction false} NonNullWinsExactly(all: seq<Hit>, id: string, key: string)
    ensures Get(Merged(all, id), key) == FirstNonNull(all, id, key).GetOr(Null)
       <==> (Bearer(all, id, key) == Some(Null) ==> FirstNonNull(all, id, key).None?)
  {
    FirstFieldWins(all, id, key);
    BearerNonNull(all, id, key);
  }

  /** A null first, a value second: the null stays. */
  lemma NullHides(id: string, key: string, v: Value) returns (all: seq<Hit>)
    requires v != Null
    ensures |all| == 2 && FirstNonNull(all, id, key) == Some(v) && Get(Merged(all, id), key) == Null
  {
    all := [Hit(id, map[key := Null]), Hit(id, map[key := v])];
    assert all[1..] == [all[1]];
    NonNullWinsExactly(all, id, key);
    FirstFieldWins(all, id, key);
  }

  lemma {:induction false} BearerNonNull(all: seq<Hit>, id: string, key: string)
    ensures Bearer(all, id, key).None? ==> FirstNonNull(all, id, key).None?
    ensures Bearer(all, id, key).Some? && Bearer(all, id, key).value != Null ==>
              FirstNonNull(all, id, key) == Bearer(all, id, key)
    ensures FirstNonNull(all, id, key).Some? ==> FirstNonNull(all, id, key).value != Null
  {
    if all == [] {
    } else {
      BearerNonNull(all[1..], id, key);
    }
  }

  /** The chunks merged so far, by id. */
  ghost predicate MergedInto(all: seq<Hit>, byId: map<string, Fields>) {
    forall id :: Merged(all, id) == if id in byId then byId[id] else map[]
  }

  method MergeAll(signals: seq<seq<Hit>>) returns (byId: map<string, Fields>)
    ensures MergedInto(Flat(signals), byId)
  {
    byId := map[];
    for i := 0 to |signals|
      invariant MergedInto(Flat(signals[..i]), byId)
    {
      var list := signals[i];
      assert signals[..i + 1][..i] == signals[..i];
      assert Flat(signals[..i]) + list[..0] == Flat(signals[..i]);
      for j := 0 to |list|
        invariant MergedInto(Flat(signals[..i]) + list[..j], byId)
      {
        var c, all := list[j], Flat(signals[..i]) + list[..j];
        MergedSnoc(all, c, byId);
        assert Flat(signals[..i]) + list[..j + 1] == all + [c];
        byId := byId[c.id := if c.id in byId then c.fields + byId[c.id] else c.fields];
      }
      assert list[..|list|] == list;
    }
    assert signals[..|signals|] == signals;
  }

  lemma MergedSnoc(all: seq<Hit>, c: Hit, byId: map<string, Fields>)
    requires MergedInto(all, byId)
    ensures MergedInto(all + [c], byId[c.id := if c.id in byId then c.fields + byId[c.id] else c.fields])
  {
  }

  /** The first `top` places of a ranking, each with its merged chunk, its score and its provenance. */
  ghost predicate IsFusion(chunks: seq<Fused>, provenance: seq<Value>, out: seq<Scored>, all: seq<Hit>, top: nat) {
    && |chunks| == |provenance| == (if |out| < top then |out| else top)
    && forall i :: 0 <= i < |chunks| ==>
         chunks[i] == Fused(Merged(all, out[i].0), out[i].1) && provenance[i] == Get(chunks[i].fields, "provenance")
  }

  method FuseResults(ties: Ties, k: nat, signals: seq<seq<Hit>>, top: nat) returns (chunks: seq<Fused>, provenance: seq<Value>)
    ensures exists out :: Ranks(ties, out, k, IdLists(signals)) && IsFusion(chunks, provenance, out, Flat(signals), top)
  {
    hide Ranks, Merged, Flat;
    var byId := MergeAll(signals);
    var ranked := Fuse(ties, k, IdLists(signals));
    chunks, provenance := [], [];
    var n := if |ranked| < top then |ranked| else top;
    for i := 0 to n
      invariant IsFusion(chunks, provenance, ranked, Flat(signals), i)
    {
      var (cid, score) := ranked[i];
      var fields := if cid in byId then byId[cid] else map[];
      chunks := chunks + [Fused(fields, score)];
      provenance := provenance + [Get(fields, "provenance")];
    }
  }
}

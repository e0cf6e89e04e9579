/** The web client's timeline reducer (nc-web/src/lib/timeline.ts). */
module Timeline {
  import opened Finite
  import opened Sorting

  datatype Message = Message(id: string, ts: real, body: string)

  /** Whether the first id collates before the second. */
  type Collation = (string, string) -> bool

  /** Any collation: ids that are not the same may still compare equal, as canonically equal strings do. */
  ghost predicate Weak(less: Collation) {
    && (forall a :: !less(a, a))
    && (forall a, b, c :: less(a, b) && less(b, c) ==> less(a, c))
    && (forall a, b, c :: less(a, c) ==> less(a, b) || less(b, c))
  }

  /** A collation that tells all ids apart. */
  ghost predicate Total(less: Collation) {
    Weak(less) && forall a, b :: less(a, b) || a == b || less(b, a)
  }

  // ---- what a timeline shows ------------------------------------------------------------------

  /** The last message written under each id. */
  function Latest(all: seq<Message>): map<string, Message> {
    if all == [] then map[] else Latest(all[..|all| - 1])[all[|all| - 1].id := all[|all| - 1]]
  }

  /** The keys of the map as it fills: each id where it was first written. */
  function FirstOrder(all: seq<Message>): seq<string> {
    if all == [] then []
    else
      var before, id := FirstOrder(all[..|all| - 1]), all[|all| - 1].id;
      if id in before then before else before + [id]
  }

  /** The comparator: by time, then by id. */
  predicate Before(less: Collation, a: Message, b: Message) {
    a.ts < b.ts || (a.ts == b.ts && less(a.id, b.id))
  }

  /** The order of the sorted array: the sort is stable, so what the comparator leaves equal keeps the map's order. */
  function Shown(less: Collation, order: seq<string>): (Message, Message) -> bool {
    (a: Message, b: Message) => Before(less, a, b) || (!Before(less, b, a) && Position(order, a.id) < Position(order, b.id))
  }

  /** `list` shows the last write of every id in `all`, once each, in order. */
  ghost predicate Shows(less: Collation, list: seq<Message>, all: seq<Message>) {
    Sorted(Shown(less, FirstOrder(all)), list) && HoldsLatest(list, all)
  }

  ghost predicate HoldsLatest(list: seq<Message>, all: seq<Message>) {
    forall m :: m in list <==> m.id in Latest(all) && Latest(all)[m.id] == m
  }

  lemma ShownIsOrder(less: Collation, order: seq<string>)
    requires Weak(less)
    ensures StrictOrder(Shown(less, order))
  {
    var shown := Shown(less, order);
    forall a, b, c | shown(a, b) && shown(b, c) ensures shown(a, c) {
      if Before(less, a, b) && !Before(less, b, c) {
        assert Before(less, a, c);
      } else if !Before(less, a, b) && Before(less, b, c) {
        assert Before(less, a, c);
      }
    }
  }

  lemma Comparable(less: Collation, order: seq<string>, a: Message, b: Message)
    requires a.id in order && b.id in order && a.id != b.id
    ensures Shown(less, order)(a, b) || Shown(less, order)(b, a)
  {
  }

  /** The last writes and the map's order determine the list. */
  lemma ShownUnique(less: Collation, r: seq<Message>, s: seq<Message>, all: seq<Message>)
    requires Weak(less) && Shows(less, r, all) && Shows(less, s, all)
    ensures r == s
  {
    ShownIsOrder(less, FirstOrder(all));
    SortedUnique(Shown(less, FirstOrder(all)), r, s);
  }

  /** A timeline shows the oldest first, and among messages of one time no id before one that collates before it. */
  lemma OldestFirst(less: Collation, list: seq<Message>, all: seq<Message>, i: nat, j: nat)
    requires Weak(less) && Shows(less, list, all) && i < j < |list|
    ensures list[i].ts <= list[j].ts && (list[i].ts == list[j].ts ==> !less(list[j].id, list[i].id))
    ensures list[i].id != list[j].id
  {
    assert Shown(less, FirstOrder(all))(list[i], list[j]);
    assert list[i] in list && list[j] in list;
  }

  // ---- the reducer ----------------------------------------------------------------------------

  lemma FirstOrderWith(all: seq<Message>, m: Message)
    ensures FirstOrder(all + [m]) == if m.id in FirstOrder(all) then FirstOrder(all) else FirstOrder(all) + [m.id]
  {
    assert (all + [m])[..|all|] == all;
  }

  lemma LatestWith(list: seq<Message>, m: Message)
    ensures Latest(list + [m]) == Latest(list)[m.id := m]
  {
    assert (list + [m])[..|list|] == list;
  }

  lemma {:induction false} FirstOrderKeys(all: seq<Message>)
    ensures forall id :: id in FirstOrder(all) <==> id in Latest(all)
    ensures forall j, k :: 0 <= j < k < |FirstOrder(all)| ==> FirstOrder(all)[j] != FirstOrder(all)[k]
  {
    if all == [] {
    } else {
      FirstOrderKeys(all[..|all| - 1]);
    }
  }

  /** The map filled in insertion order; `order` lists its keys. */
  method LastWrites(all: seq<Message>) returns (byId: map<string, Message>, order: seq<string>)
    ensures byId == Latest(all) && order == FirstOrder(all)
  {
    byId, order := map[], [];
    for i := 0 to |all|
      invariant byId == Latest(all[..i]) && order == FirstOrder(all[..i])
    {
      FirstOrderWith(all[..i], all[i]);
      LatestWith(all[..i], all[i]);
      FirstOrderKeys(all[..i]);
      assert all[..i + 1] == all[..i] + [all[i]];
      if all[i].id !in byId { order := order + [all[i].id]; }
      byId := byId[all[i].id := all[i]];
    }
    assert all[..|all|] == all;
  }

  /** Last write per id, then the values sorted. */
  method MergeMessages(less: Collation, existing: seq<Message>, incoming: seq<Message>) returns (list: seq<Message>)
    requires Weak(less)
    ensures Shows(less, list, existing + incoming)
  {
    hide Weak, Shown, StrictOrder, FirstOrder, Latest;
    var byId, order := LastWrites(existing + incoming);
    LatestIds(existing + incoming);
    FirstOrderKeys(existing + incoming);
    ShownIsOrder(less, order);
    list := [];
    for i := 0 to |order|
      invariant Sorted(Shown(less, order), list)
      invariant forall m :: m in list <==> m.id in order[..i] && byId[m.id] == m
    {
      assert order[..i + 1] == order[..i] + [order[i]];
      var m := byId[order[i]];
      forall y | y in list ensures Shown(less, order)(y, m) || Shown(less, order)(m, y) { Comparable(less, order, y, m); }
      list := Insert(Shown(less, order), list, m);
    }
    assert order[..|order|] == order;
  }

  method AddOptimistic(less: Collation, list: seq<Message>, pending: Message) returns (out: seq<Message>)
    requires Weak(less)
    ensures Shows(less, out, list + [pending])
  {
    out := MergeMessages(less, list, [pending]);
  }

  function Without(list: seq<Message>, id: string): (r: seq<Message>)
    ensures forall m :: m in r <==> m in list && m.id != id
  {
    if list == [] then []
    else
      var n := |list| - 1;
      assert list == list[..n] + [list[n]];
      if list[n].id == id then Without(list[..n], id) else Without(list[..n], id) + [list[n]]
  }

  method ReconcileOptimistic(less: Collation, list: seq<Message>, echo: Message, localId: string)
      returns (out: seq<Message>)
    requires Weak(less)
    ensures Shows(less, out, Without(list, localId) + [echo])
  {
    var kept := [];
    for i := 0 to |list|
      invariant kept == Without(list[..i], localId)
    {
      assert list[..i + 1][..i] == list[..i];
      if list[i].id != localId { kept := kept + [list[i]]; }
    }
    assert list[..|list|] == list;
    out := MergeMessages(less, kept, [echo]);
  }

  // ---- a shown list read as writes ------------------------------------------------------------

  lemma {:induction false} LatestIds(all: seq<Message>)
    ensures forall id :: id in Latest(all) ==> Latest(all)[id] in all && Latest(all)[id].id == id
    ensures forall m :: m in all ==> m.id in Latest(all)
  {
    if all == [] {
    } else {
      var n := |all| - 1;
      LatestIds(all[..n]);
      assert all == all[..n] + [all[n]];
    }
  }

  lemma {:induction false} LatestConcat(a: seq<Message>, b: seq<Message>)
    ensures Latest(a + b) == Latest(a) + Latest(b)
  {
    if b == [] {
      assert a + b == a;
    } else {
      var n := |b| - 1;
      LatestConcat(a, b[..n]);
      assert (a + b)[..|a + b| - 1] == a + b[..n];
    }
  }

  /** A shown list, read as writes, has the last writes it shows, each id once. */
  lemma ShownLatest(list: seq<Message>, all: seq<Message>)
    requires HoldsLatest(list, all)
    ensures Latest(list) == Latest(all)
  {
    LatestIds(list);
    LatestIds(all);
    forall id | id in Latest(all) ensures id in Latest(list) { assert Latest(all)[id] in list; }
    forall id | id in Latest(list) ensures id in Latest(all) && Latest(all)[id] == Latest(list)[id] {
      assert Latest(list)[id] in list;
    }
  }

  lemma DistinctIds(less: Collation, list: seq<Message>, all: seq<Message>, i: nat, j: nat)
    requires Weak(less) && Shows(less, list, all) && i < j < |list|
    ensures list[i].id != list[j].id
  {
    ShownIsOrder(less, FirstOrder(all));
    assert list[i] in list && list[j] in list;
    assert Shown(less, FirstOrder(all))(list[i], list[j]);
  }

  ghost predicate Distinct(list: seq<Message>) {
    forall i, j :: 0 <= i < j < |list| ==> list[i].id != list[j].id
  }

  /** A shown list is written in its own order. */
  lemma {:induction false} OwnOrder(list: seq<Message>)
    requires Distinct(list)
    ensures |FirstOrder(list)| == |list| && forall i :: 0 <= i < |list| ==> FirstOrder(list)[i] == list[i].id
  {
    if list == [] {
    } else {
      var n := |list| - 1;
      OwnOrder(list[..n]);
      assert list == list[..n] + [list[n]];
      FirstOrderWith(list[..n], list[n]);
    }
  }

  lemma {:induction false} PositionIs(order: seq<string>, i: nat)
    requires i < |order| && forall j, k :: 0 <= j < k < |order| ==> order[j] != order[k]
    ensures Position(order, order[i]) == i
  {
    if i == 0 {
    } else {
      PositionIs(order[1..], i - 1);
    }
  }

  lemma {:induction false} NothingNew(list: seq<Message>, batch: seq<Message>)
    requires forall m :: m in batch ==> m in list
    ensures FirstOrder(list + batch) == FirstOrder(list)
  {
    if batch == [] {
      assert list + batch == list;
    } else {
      var n := |batch| - 1;
      NothingNew(list, batch[..n]);
      assert list + batch == (list + batch[..n]) + [batch[n]];
      FirstOrderWith(list + batch[..n], batch[n]);
      FirstOrderKeys(list);
      LatestIds(list);
      assert batch[n] in batch;
    }
  }

  /** Merging messages already shown changes nothing, under any collation. */
  lemma MergeIdempotent(less: Collation, list: seq<Message>, seen: seq<Message>, batch: seq<Message>, next: seq<Message>)
    requires Weak(less) && Shows(less, list, seen) && Shows(less, next, list + batch)
    requires forall m :: m in batch ==> m in list
    ensures next == list
  {
    NothingNew(list, batch);
    StaysSorted(less, list, seen);
    StaysLatest(list, seen, batch);
    ShownUnique(less, next, list, list + batch);
  }

  lemma StaysSorted(less: Collation, list: seq<Message>, seen: seq<Message>)
    requires Weak(less) && Shows(less, list, seen)
    ensures Sorted(Shown(less, FirstOrder(list)), list)
  {
    forall i, j | 0 <= i < j < |list| ensures list[i].id != list[j].id { DistinctIds(less, list, seen, i, j); }
    OwnOrder(list);
    FirstOrderKeys(list);
    forall i, j | 0 <= i < j < |list| ensures Shown(less, FirstOrder(list))(list[i], list[j]) {
      assert Shown(less, FirstOrder(seen))(list[i], list[j]);
      PositionIs(FirstOrder(list), i);
      PositionIs(FirstOrder(list), j);
    }
  }

  lemma StaysLatest(list: seq<Message>, seen: seq<Message>, batch: seq<Message>)
    requires HoldsLatest(list, seen) && forall m :: m in batch ==> m in list
    ensures HoldsLatest(list, list + batch)
  {
    LatestConcat(list, batch);
    ShownLatest(list, seen);
    LatestIds(batch);
    LatestIds(list);
    forall id | id in Latest(batch) ensures id in Latest(list) && Latest(batch)[id] == Latest(list)[id] {
      assert Latest(batch)[id] in list;
    }
    assert Latest(list + batch) == Latest(list);
  }

  // ---- a collation that tells ids apart -------------------------------------------------------

  lemma ApartSorted(less: Collation, list: seq<Message>, all: seq<Message>, order: seq<string>)
    requires Total(less) && Shows(less, list, all)
    ensures Sorted(Shown(less, order), list)
  {
    forall i, j | 0 <= i < j < |list| ensures Shown(less, order)(list[i], list[j]) {
      DistinctIds(less, list, all, i, j);
      assert Shown(less, FirstOrder(all))(list[i], list[j]);
    }
  }

  lemma SameLatestSameList(less: Collation, r: seq<Message>, a: seq<Message>, s: seq<Message>, b: seq<Message>)
    requires Total(less) && Shows(less, r, a) && Shows(less, s, b)
    ensures r == s <==> Latest(a) == Latest(b)
  {
    ShownLatest(r, a);
    ShownLatest(s, b);
    if Latest(a) == Latest(b) {
      ApartSorted(less, s, b, FirstOrder(a));
      ShownUnique(less, r, s, a);
    }
  }

  lemma MergeAbsorbs(less: Collation, list: seq<Message>, seen: seq<Message>, batch: seq<Message>, next: seq<Message>)
    requires Total(less) && Shows(less, list, seen) && Shows(less, next, list + batch)
    ensures Shows(less, next, seen + batch)
  {
    ShownLatest(list, seen);
    LatestConcat(list, batch);
    LatestConcat(seen, batch);
    ApartSorted(less, next, list + batch, FirstOrder(seen + batch));
  }

  function Flatten(batches: seq<seq<Message>>): seq<Message> {
    if batches == [] then [] else Flatten(batches[..|batches| - 1]) + batches[|batches| - 1]
  }

  /** `states` is the run of the reducer over `batches`, starting empty. */
  ghost predicate Folds(less: Collation, states: seq<seq<Message>>, batches: seq<seq<Message>>) {
    && |states| == |batches| + 1 && states[0] == []
    && forall i :: 0 <= i < |batches| ==> Shows(less, states[i + 1], states[i] + batches[i])
  }

  /** Folding over batches is one merge of their concatenation. */
  lemma {:induction false} FoldShowsAll(less: Collation, states: seq<seq<Message>>, batches: seq<seq<Message>>)
    requires Total(less) && Folds(less, states, batches)
    ensures Shows(less, states[|batches|], Flatten(batches))
  {
    if batches == [] {
    } else {
      var n := |batches| - 1;
      FoldShowsAll(less, states[..n + 1], batches[..n]);
      MergeAbsorbs(less, states[n], Flatten(batches[..n]), batches[n], states[n + 1]);
    }
  }

  /** However a stream is cut into batches, the timeline ends up the same. */
  ghost predicate BatchingIrrelevant(less: Collation) {
    forall states, batches, states', batches' ::
      Folds(less, states, batches) && Folds(less, states', batches') && Flatten(batches) == Flatten(batches') ==>
        states[|batches|] == states'[|batches'|]
  }

  /** That is so exactly for the collations that tell all ids apart. */
  lemma BatchingExactly(less: Collation)
    requires Weak(less)
    ensures BatchingIrrelevant(less) <==> Total(less)
  {
    if Total(less) {
      forall states, batches, states', batches' | Folds(less, states, batches) && Folds(less, states', batches')
                                                  && Flatten(batches) == Flatten(batches')
        ensures states[|batches|] == states'[|batches'|]
      {
        FoldShowsAll(less, states, batches);
        FoldShowsAll(less, states', batches');
        SameLatestSameList(less, states[|batches|], Flatten(batches), states'[|batches'|], Flatten(batches'));
      }
    } else {
      var a, b :| !(less(a, b) || a == b || less(b, a));
      BatchingMatters(less, a, b);
    }
  }

  /** Two ids that collate equal: the first one's message moves to the second one's time. Merged at once the first
      stays in front, where it was first written; merged in two steps it falls behind. */
  lemma BatchingMatters(less: Collation, a: string, b: string)
    requires Weak(less) && a != b && !less(a, b) && !less(b, a)
    ensures !BatchingIrrelevant(less)
  {
    var late, other, moved := Message(a, 5.0, ""), Message(b, 3.0, ""), Message(a, 3.0, "");
    hide Weak, Shows, FirstOrder, Latest, Folds, Flatten, BatchingIrrelevant;
    FirstPair(less, late, other);
    MovedPair(less, late, other, moved);
    OneStep(less, [late, other, moved], [moved, other]);
    assert [late, other] + [moved] == [late, other, moved] && [other, late] + [moved] == [other, late, moved];
    TwoSteps(less, [late, other], [moved], [other, late], [other, moved]);
    Differ(less, [late, other], [moved], [moved, other], [other, late], [other, moved]);
  }

  lemma OneStep(less: Collation, batch: seq<Message>, list: seq<Message>)
    requires Shows(less, list, batch)
    ensures Folds(less, [[], list], [batch]) && Flatten([batch]) == batch
  {
    assert [] + batch == batch && [batch][..0] == [];
  }

  lemma TwoSteps(less: Collation, b1: seq<Message>, b2: seq<Message>, l1: seq<Message>, l2: seq<Message>)
    requires Shows(less, l1, b1) && Shows(less, l2, l1 + b2)
    ensures Folds(less, [[], l1, l2], [b1, b2]) && Flatten([b1, b2]) == b1 + b2
  {
    hide Shows;
    assert [] + b1 == b1 && [b1, b2][..1] == [b1] && [b1][..0] == [];
    assert Flatten([b1]) == [] + b1;
  }

  lemma Differ(less: Collation, b1: seq<Message>, b2: seq<Message>, l: seq<Message>, l1: seq<Message>, l2: seq<Message>)
    requires Folds(less, [[], l], [b1 + b2]) && Folds(less, [[], l1, l2], [b1, b2])
    requires Flatten([b1 + b2]) == b1 + b2 == Flatten([b1, b2]) && l != l2
    ensures !BatchingIrrelevant(less)
  {
    hide Folds, Flatten;
    var once, twice, all, cut := [[], l], [[], l1, l2], [b1 + b2], [b1, b2];
    assert once[|all|] != twice[|cut|];
  }

  lemma FirstPair(less: Collation, late: Message, other: Message)
    requires late.id != other.id && other.ts < late.ts
    ensures Shows(less, [other, late], [late, other])
  {
    PairOrder(late, other);
    PairShows(less, other, late, [late, other]);
  }

  /** Two messages, and one of them written anew at the other's time: the map keeps its place. */
  lemma MovedShows(less: Collation, m: Message, n: Message, moved: Message)
    requires m.id != n.id && (moved.id == m.id || moved.id == n.id)
    requires moved.ts == (if moved.id == m.id then n.ts else m.ts) && !less(m.id, n.id) && !less(n.id, m.id)
    ensures var first, second := if moved.id == m.id then moved else m, if moved.id == n.id then moved else n;
            Shows(less, [first, second], [m, n, moved])
  {
    PairOrder(m, n);
    FirstOrderWith([m, n], moved);
    LatestWith([m, n], moved);
    assert [m, n] + [moved] == [m, n, moved];
    hide FirstOrder, Latest;
    PairShows(less, if moved.id == m.id then moved else m, if moved.id == n.id then moved else n, [m, n, moved]);
  }

  lemma MovedPair(less: Collation, late: Message, other: Message, moved: Message)
    requires late.id == moved.id != other.id && moved.ts == other.ts
    requires !less(late.id, other.id) && !less(other.id, late.id)
    ensures Shows(less, [moved, other], [late, other, moved]) && Shows(less, [other, moved], [other, late, moved])
  {
    hide Shows;
    MovedShows(less, late, other, moved);
    MovedShows(less, other, late, moved);
  }

  lemma PairOrder(m: Message, n: Message)
    requires m.id != n.id
    ensures FirstOrder([m, n]) == [m.id, n.id] && Latest([m, n]) == map[m.id := m, n.id := n]
  {
    FirstOrderWith([], m);
    FirstOrderWith([m], n);
    LatestWith([], m);
    LatestWith([m], n);
    assert [] + [m] == [m] && [m] + [n] == [m, n];
  }

  lemma PairShows(less: Collation, m: Message, n: Message, all: seq<Message>)
    requires Latest(all) == map[m.id := m, n.id := n] && m.id != n.id && Shown(less, FirstOrder(all))(m, n)
    ensures Shows(less, [m, n], all)
  {
  }

  // ---- optimistic sends -----------------------------------------------------------------------

  lemma RemoveAfterPut(base: map<string, Message>, m: Message, id: string)
    ensures base[m.id := m] - {id} == if m.id == id then base - {id} else (base - {id})[m.id := m]
  {
  }

  lemma {:induction false} WithoutLatest(list: seq<Message>, id: string)
    ensures Latest(Without(list, id)) == Latest(list) - {id}
  {
    if list == [] {
      assert Latest(list) == map[];
    } else {
      hide Latest;
      var init, m := list[..|list| - 1], list[|list| - 1];
      assert list == init + [m];
      WithoutLatest(init, id);
      LatestWith(init, m);
      LatestWith(Without(init, id), m);
      RemoveAfterPut(Latest(init), m, id);
    }
  }

  // ---- what a pending message leaves behind ----------------------------------------------------

  predicate HasId(list: seq<Message>, id: string) {
    exists i :: 0 <= i < |list| && list[i].id == id
  }

  predicate Tied(less: Collation, a: Message, b: Message) {
    !Before(less, a, b) && !Before(less, b, a)
  }

  /** The temporary id was free; or it is the echo's own, and nothing behind its old message ties with the echo. */
  predicate EchoKeepsPlace(less: Collation, list: seq<Message>, id: string, echo: Message) {
    HasId(list, id) ==>
      id == echo.id && forall i, j :: 0 <= i < j < |list| && list[i].id == id ==> !Tied(less, list[j], echo)
  }

  lemma {:induction false} WithoutSorted(before: (Message, Message) -> bool, list: seq<Message>, id: string)
    requires Sorted(before, list)
    ensures Sorted(before, Without(list, id))
  {
    if list == [] {
    } else {
      var n := |list| - 1;
      WithoutSorted(before, list[..n], id);
      forall m | m in Without(list[..n], id) ensures before(m, list[n]) {
        var k :| 0 <= k < n && list[k] == m;
      }
    }
  }

  /** Removing the pending message from what is shown with it gives back the list, without the id. */
  lemma PendingRemoved(less: Collation, list: seq<Message>, seen: seq<Message>, pending: Message, shown: seq<Message>)
    requires Weak(less) && Shows(less, list, seen) && Shows(less, shown, list + [pending])
    ensures Without(shown, pending.id) == Without(list, pending.id)
    ensures Sorted(Shown(less, FirstOrder(list)), Without(list, pending.id))
  {
    var order, id := FirstOrder(list + [pending]), pending.id;
    StaysSorted(less, list, seen);
    WithoutSorted(Shown(less, FirstOrder(list)), list, id);
    WithoutSorted(Shown(less, order), shown, id);
    SameOrder(less, Without(list, id), list, pending);
    ShownLatest(list, seen);
    LatestWith(list, pending);
    forall m ensures m in Without(shown, id) <==> m in Without(list, id) {
      assert m.id != id ==> (m in shown <==> m in list);
    }
    ShownIsOrder(less, order);
    SortedUnique(Shown(less, order), Without(shown, id), Without(list, id));
  }

  /** What is sorted by the list's own order stays so when a message is appended to the map. */
  lemma SameOrder(less: Collation, part: seq<Message>, list: seq<Message>, m: Message)
    requires Sorted(Shown(less, FirstOrder(list)), part) && forall x :: x in part ==> x in list
    ensures Sorted(Shown(less, FirstOrder(list + [m])), part)
  {
    FirstOrderWith(list, m);
    FirstOrderKeys(list);
    LatestIds(list);
    forall i, j | 0 <= i < j < |part| ensures Shown(less, FirstOrder(list + [m]))(part[i], part[j]) {
      assert Shown(less, FirstOrder(list))(part[i], part[j]);
      assert part[i] in list && part[j] in list;
      Appended(FirstOrder(list), m.id, part[i].id);
      Appended(FirstOrder(list), m.id, part[j].id);
    }
  }

  lemma {:induction false} Appended(order: seq<string>, id: string, x: string)
    requires x in order
    ensures Position(order + [id], x) == Position(order, x)
  {
    if order[0] == x {
    } else {
      assert (order + [id])[1..] == order[1..] + [id];
      Appended(order[1..], id, x);
    }
  }

  lemma {:induction false} WithoutAbsent(list: seq<Message>, id: string)
    requires !HasId(list, id)
    ensures Without(list, id) == list
  {
    if list == [] {
    } else {
      var n := |list| - 1;
      assert list == list[..n] + [list[n]];
      forall i | 0 <= i < n ensures list[..n][i].id != id { assert list[i].id != id; }
      WithoutAbsent(list[..n], id);
    }
  }

  /** A pending message, shown and then reconciled with its echo, leaves the timeline that the echo alone would have
      given exactly when the temporary id was free, or is the echo's own and no tie gives its place away. */
  lemma OptimisticEcho(less: Collation, list: seq<Message>, seen: seq<Message>, pending: Message, echo: Message,
                       shown: seq<Message>, final: seq<Message>, direct: seq<Message>)
    requires Weak(less) && Shows(less, list, seen)
    requires Shows(less, shown, list + [pending])
    requires Shows(less, final, Without(shown, pending.id) + [echo])
    requires Shows(less, direct, list + [echo])
    ensures final == direct <==> EchoKeepsPlace(less, list, pending.id, echo)
  {
    PendingRemoved(less, list, seen, pending, shown);
    if !HasId(list, pending.id) {
      WithoutAbsent(list, pending.id);
      ShownUnique(less, final, direct, list + [echo]);
    } else if pending.id != echo.id {
      IdGone(less, list, pending.id, echo, final, direct);
    } else {
      EchoInPlace(less, list, seen, echo, final, direct);
    }
  }

  lemma IdGone(less: Collation, list: seq<Message>, id: string, echo: Message, final: seq<Message>, direct: seq<Message>)
    requires HasId(list, id) && id != echo.id
    requires Shows(less, final, Without(list, id) + [echo]) && Shows(less, direct, list + [echo])
    ensures final != direct
  {
    ShownLatest(final, Without(list, id) + [echo]);
    ShownLatest(direct, list + [echo]);
    WithoutLatest(list, id);
    LatestWith(list, echo);
    LatestWith(Without(list, id), echo);
    LatestIds(list);
    var i :| 0 <= i < |list| && list[i].id == id;
    assert list[i] in list;
    assert id in Latest(direct) && id !in Latest(final);
  }

  /** The map's order when the echo's id is taken out and put back at the end. */
  lemma Requeued(less: Collation, list: seq<Message>, seen: seq<Message>, echo: Message)
    requires Weak(less) && Shows(less, list, seen) && HasId(list, echo.id)
    ensures FirstOrder(list + [echo]) == FirstOrder(list)
    ensures var rest := Without(list, echo.id);
            FirstOrder(rest + [echo]) == FirstOrder(rest) + [echo.id] && echo.id !in FirstOrder(rest)
  {
    var rest := Without(list, echo.id);
    FirstOrderWith(list, echo);
    FirstOrderWith(rest, echo);
    FirstOrderKeys(list);
    FirstOrderKeys(rest);
    LatestIds(list);
    LatestIds(rest);
    var i :| 0 <= i < |list| && list[i].id == echo.id;
    assert list[i] in list;
  }

  /** Both shown lists hold the same messages: those of the list with other ids, and the echo. */
  lemma SameMembers(less: Collation, list: seq<Message>, echo: Message, final: seq<Message>, direct: seq<Message>)
    requires Shows(less, final, Without(list, echo.id) + [echo]) && Shows(less, direct, list + [echo])
    ensures forall m :: m in final <==> m in direct
    ensures echo in direct
  {
    WithoutLatest(list, echo.id);
    LatestWith(list, echo);
    LatestWith(Without(list, echo.id), echo);
    hide Latest, Shown, Without;
    assert (Latest(list) - {echo.id})[echo.id := echo] == Latest(list)[echo.id := echo];
  }

  lemma InOrderOf(before: (Message, Message) -> bool, s: seq<Message>, i: nat, j: nat)
    requires StrictOrder(before) && Sorted(before, s) && i < |s| && j < |s| && before(s[i], s[j])
    ensures i < j
  {
  }

  /** A shown list's messages stand at their own positions. */
  lemma OwnPosition(less: Collation, list: seq<Message>, seen: seq<Message>, i: nat)
    requires Weak(less) && Shows(less, list, seen) && i < |list|
    ensures Position(FirstOrder(list), list[i].id) == i
  {
    forall j, k | 0 <= j < k < |list| ensures list[j].id != list[k].id { DistinctIds(less, list, seen, j, k); }
    OwnOrder(list);
    FirstOrderKeys(list);
    PositionIs(FirstOrder(list), i);
  }

  lemma {:induction false} WithoutDistinct(list: seq<Message>, id: string)
    requires Distinct(list)
    ensures Distinct(Without(list, id))
  {
    if list == [] {
    } else {
      var n := |list| - 1;
      var m, rest := list[n], Without(list[..n], id);
      WithoutDistinct(list[..n], id);
      forall x | x in rest ensures x.id != m.id {
        var k :| 0 <= k < n && list[k] == x;
      }
      DistinctSnoc(rest, m);
    }
  }

  lemma DistinctSnoc(list: seq<Message>, m: Message)
    requires Distinct(list) && forall x :: x in list ==> x.id != m.id
    ensures Distinct(list + [m])
  {
    var s := list + [m];
    forall i, j | 0 <= i < j < |s| ensures s[i].id != s[j].id { assert s[i] in list; }
  }

  /** Requeued at the end: the others keep their relative places, and all stand before the echo. */
  lemma RestPosition(less: Collation, list: seq<Message>, seen: seq<Message>, echo: Message, i: nat)
    requires Weak(less) && Shows(less, list, seen) && HasId(list, echo.id)
    ensures var rest := Without(list, echo.id);
            var order := FirstOrder(rest + [echo]);
            Position(order, echo.id) == |rest| && (i < |rest| ==> Position(order, rest[i].id) == i)
  {
    var rest := Without(list, echo.id);
    forall j, k | 0 <= j < k < |list| ensures list[j].id != list[k].id { DistinctIds(less, list, seen, j, k); }
    WithoutDistinct(list, echo.id);
    OwnOrder(rest);
    FirstOrderKeys(rest);
    Requeued(less, list, seen, echo);
    LastPosition(FirstOrder(rest), echo.id);
    if i < |rest| {
      PositionIs(FirstOrder(rest), i);
      Appended(FirstOrder(rest), echo.id, rest[i].id);
    }
  }

  lemma {:induction false} LastPosition(order: seq<string>, id: string)
    requires id !in order
    ensures Position(order + [id], id) == |order|
  {
    if order == [] {
    } else {
      assert (order + [id])[1..] == order[1..] + [id];
      LastPosition(order[1..], id);
    }
  }

  /** Two other messages compare alike under both orders. */
  lemma RestAgrees(less: Collation, list: seq<Message>, seen: seq<Message>, echo: Message, a: Message, b: Message)
    requires Weak(less) && Shows(less, list, seen) && HasId(list, echo.id)
    requires a in Without(list, echo.id) && b in Without(list, echo.id) && Shown(less, FirstOrder(list))(a, b)
    ensures Shown(less, FirstOrder(Without(list, echo.id) + [echo]))(a, b)
  {
    var rest := Without(list, echo.id);
    var i :| 0 <= i < |rest| && rest[i] == a;
    var j :| 0 <= j < |rest| && rest[j] == b;
    StaysSorted(less, list, seen);
    WithoutSorted(Shown(less, FirstOrder(list)), list, echo.id);
    ShownIsOrder(less, FirstOrder(list));
    InOrderOf(Shown(less, FirstOrder(list)), rest, i, j);
    RestPosition(less, list, seen, echo, i);
    RestPosition(less, list, seen, echo, j);
  }

  lemma OtherStays(less: Collation, list: seq<Message>, seen: seq<Message>, echo: Message, p: nat, j: nat)
    requires Weak(less) && Shows(less, list, seen) && p < |list| && j < |list| && p != j && list[p].id == echo.id
    ensures var order := FirstOrder(Without(list, echo.id) + [echo]);
            Position(order, list[j].id) < Position(order, echo.id)
  {
    var rest := Without(list, echo.id);
    DistinctIds(less, list, seen, if p < j then p else j, if p < j then j else p);
    assert list[j] in list && list[j] in rest;
    var i :| 0 <= i < |rest| && rest[i] == list[j];
    RestPosition(less, list, seen, echo, i);
  }

  /** Against the echo: before it moved to the end, and after. */
  lemma EchoAgainst(less: Collation, list: seq<Message>, seen: seq<Message>, echo: Message, p: nat, j: nat)
    requires Weak(less) && Shows(less, list, seen) && p < |list| && j < |list| && p != j && list[p].id == echo.id
    ensures var o, o' := Shown(less, FirstOrder(list)), Shown(less, FirstOrder(Without(list, echo.id) + [echo]));
            var m := list[j];
            && (o(echo, m) <==> Before(less, echo, m) || (!Before(less, m, echo) && p < j))
            && (o(m, echo) <==> Before(less, m, echo) || (!Before(less, echo, m) && j < p))
            && (o'(echo, m) <==> Before(less, echo, m))
            && (o'(m, echo) <==> !Before(less, echo, m))
  {
    OwnPosition(less, list, seen, p);
    OwnPosition(less, list, seen, j);
    OtherStays(less, list, seen, echo, p, j);
    hide Position, FirstOrder, Without;
  }

  lemma EchoInPlace(less: Collation, list: seq<Message>, seen: seq<Message>, echo: Message,
                    final: seq<Message>, direct: seq<Message>)
    requires Weak(less) && Shows(less, list, seen) && HasId(list, echo.id)
    requires Shows(less, final, Without(list, echo.id) + [echo]) && Shows(less, direct, list + [echo])
    ensures final == direct <==> EchoKeepsPlace(less, list, echo.id, echo)
  {
    var p :| 0 <= p < |list| && list[p].id == echo.id;
    Requeued(less, list, seen, echo);
    SameMembers(less, list, echo, final, direct);
    if EchoKeepsPlace(less, list, echo.id, echo) {
      DirectRequeued(less, list, seen, echo, direct, p);
      ShownIsOrder(less, FirstOrder(Without(list, echo.id) + [echo]));
      SortedUnique(Shown(less, FirstOrder(Without(list, echo.id) + [echo])), final, direct);
    } else {
      var i, j :| 0 <= i < j < |list| && list[i].id == echo.id && Tied(less, list[j], echo);
      PlaceLost(less, list, seen, echo, final, direct, i, j);
    }
  }

  lemma DirectRequeued(less: Collation, list: seq<Message>, seen: seq<Message>, echo: Message, direct: seq<Message>, p: nat)
    requires Weak(less) && Shows(less, list, seen) && p < |list| && list[p].id == echo.id
    requires Shows(less, direct, list + [echo]) && EchoKeepsPlace(less, list, echo.id, echo)
    ensures Sorted(Shown(less, FirstOrder(Without(list, echo.id) + [echo])), direct)
  {
    var rest := Without(list, echo.id);
    var o, o' := Shown(less, FirstOrder(list)), Shown(less, FirstOrder(rest + [echo]));
    Requeued(less, list, seen, echo);
    forall x, y | 0 <= x < y < |direct| ensures o'(direct[x], direct[y]) {
      var a, b := direct[x], direct[y];
      assert o(a, b);
      DirectMember(list, seen, echo, direct, a);
      DirectMember(list, seen, echo, direct, b);
      ShownIsOrder(less, FirstOrder(list));
      if a == echo {
        var j :| 0 <= j < |list| && list[j] == b;
        EchoAgainst(less, list, seen, echo, p, j);
      } else if b == echo {
        var j :| 0 <= j < |list| && list[j] == a;
        EchoAgainst(less, list, seen, echo, p, j);
      } else {
        RestAgrees(less, list, seen, echo, a, b);
      }
    }
  }

  lemma DirectMember(list: seq<Message>, seen: seq<Message>, echo: Message, direct: seq<Message>, m: Message)
    requires HoldsLatest(list, seen) && HoldsLatest(direct, list + [echo]) && m in direct
    ensures m == echo || (m in list && m in Without(list, echo.id) && m.id != echo.id)
  {
    LatestWith(list, echo);
    ShownLatest(list, seen);
  }

  /** A later message that ties with the echo: it stood behind the old message, and stands before the requeued one. */
  lemma PlaceLost(less: Collation, list: seq<Message>, seen: seq<Message>, echo: Message,
                  final: seq<Message>, direct: seq<Message>, p: nat, j: nat)
    requires Weak(less) && Shows(less, list, seen) && p < j < |list| && list[p].id == echo.id
    requires Tied(less, list[j], echo)
    requires Shows(less, final, Without(list, echo.id) + [echo]) && Shows(less, direct, list + [echo])
    ensures final != direct
  {
    var m := list[j];
    DistinctIds(less, list, seen, p, j);
    Requeued(less, list, seen, echo);
    SameMembers(less, list, echo, final, direct);
    EchoAgainst(less, list, seen, echo, p, j);
    LatestWith(list, echo);
    ShownLatest(list, seen);
    assert m in list && m in direct;
    var x :| 0 <= x < |direct| && direct[x] == echo;
    var y :| 0 <= y < |direct| && direct[y] == m;
    ShownIsOrder(less, FirstOrder(list));
    InOrderOf(Shown(less, FirstOrder(list)), direct, x, y);
    if final == direct {
      ShownIsOrder(less, FirstOrder(Without(list, echo.id) + [echo]));
      InOrderOf(Shown(less, FirstOrder(Without(list, echo.id) + [echo])), direct, y, x);
    }
  }

  /** Under a collation that tells ids apart nothing else ties: free or the echo's own is then enough. */
  lemma EchoApart(less: Collation, list: seq<Message>, seen: seq<Message>, id: string, echo: Message)
    requires Total(less) && Shows(less, list, seen)
    ensures EchoKeepsPlace(less, list, id, echo) <==> !HasId(list, id) || id == echo.id
  {
    forall i, j | 0 <= i < j < |list| && list[i].id == echo.id ensures !Tied(less, list[j], echo) {
      DistinctIds(less, list, seen, i, j);
    }
  }
}

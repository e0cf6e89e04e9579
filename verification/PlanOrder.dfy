/** What the plan's execution order guarantees, and the imperative walk that computes it. */
module PlanOrder {
  import opened Wrappers
  import opened Finite
  import opened Plans

  // ---- what a good order is ---------------------------------------------------------------

  predicate Earlier(order: seq<Task>, k: nat, id: string)
    requires k <= |order|
  {
    exists j :: 0 <= j < k && order[j].id == id
  }

  ghost predicate Distinct(order: seq<Task>) {
    forall i, j :: 0 <= i < j < |order| ==> order[i].id != order[j].id
  }

  /** Every task is the plan's task of that id, and follows all its in-plan dependencies. */
  ghost predicate Respects(m: Index, order: seq<Task>) {
    && (forall k :: 0 <= k < |order| ==> order[k].id in m && order[k] == m[order[k].id])
    && (forall k, d :: 0 <= k < |order| && Edge(m, order[k].id, d) ==> Earlier(order, k, d))
  }

  ghost predicate Topological(tasks: seq<Task>, order: seq<Task>) {
    && Distinct(order)
    && Respects(ById(tasks), order)
    && (forall id :: id in ById(tasks) ==> Earlier(order, |order|, id))
  }

  /** A closed chain of dependencies starting at c[0]. */
  ghost predicate IsCycle(m: Index, c: seq<string>) {
    && c != []
    && (forall i :: 0 <= i < |c| - 1 ==> Edge(m, c[i], c[i + 1]))
    && Edge(m, c[|c| - 1], c[0])
  }

  ghost predicate Cyclic(m: Index) {
    exists c :: IsCycle(m, c)
  }

  // ---- soundness of the walk --------------------------------------------------------------

  ghost predicate WalkInv(m: Index, w: Walk) {
    && w.temp <= m.Keys
    && w.temp !! w.done
    && Distinct(w.order)
    && Respects(m, w.order)
    && (forall id :: id in w.done <==> Earlier(w.order, |w.order|, id))
  }

  lemma {:induction false} VisitSound(m: Index, tid: string, w: Walk)
    requires tid in m && WalkInv(m, w) && Visit(m, tid, w).Success?
    requires forall k :: k in m ==> m[k].id == k
    ensures var w' := Visit(m, tid, w).value;
            WalkInv(m, w') && w.order <= w'.order && tid in w'.done
    decreases |m.Keys - w.temp|, 0
  {
    if tid !in w.done {
      var w1 := w.(temp := w.temp + {tid});
      SmallerSet(m.Keys - w1.temp, m.Keys - w.temp);
      VisitAllSound(m, m[tid].deps, w1);
      var w2 := VisitAll(m, m[tid].deps, w1).value;
      AppendSound(m, tid, w2);
    }
  }

  lemma AppendSound(m: Index, tid: string, w: Walk)
    requires WalkInv(m, w) && tid in w.temp
    requires forall k :: k in m ==> m[k].id == k
    requires forall d :: d in m[tid].deps && d in m ==> d in w.done
    ensures WalkInv(m, Walk(w.order + [m[tid]], w.done + {tid}, w.temp - {tid}))
  {
    var order := w.order + [m[tid]];
    forall k, d | 0 <= k < |order| && Edge(m, order[k].id, d)
      ensures Earlier(order, k, d)
    {
      if k < |w.order| {
        assert Earlier(w.order, k, d);
      } else {
        assert Earlier(w.order, |w.order|, d);
      }
      var j :| 0 <= j < k && w.order[j].id == d;
      assert order[j].id == d;
    }
    forall id | id in w.done + {tid} ensures Earlier(order, |order|, id) {
      if id in w.done {
        var j :| 0 <= j < |w.order| && w.order[j].id == id;
        assert order[j].id == id;
      } else {
        assert order[|w.order|].id == id;
      }
    }
    forall j | 0 <= j < |w.order| ensures w.order[j].id in w.done {
      assert Earlier(w.order, |w.order|, w.order[j].id);
    }
  }

  lemma {:induction false} VisitAllSound(m: Index, ids: seq<string>, w: Walk)
    requires WalkInv(m, w) && VisitAll(m, ids, w).Success?
    requires forall k :: k in m ==> m[k].id == k
    ensures var w' := VisitAll(m, ids, w).value;
            WalkInv(m, w') && w.order <= w'.order && (forall d :: d in ids && d in m ==> d in w'.done)
    decreases |m.Keys - w.temp|, 1 + |ids|
  {
    if ids == [] {
    } else if ids[0] !in m {
      VisitAllSound(m, ids[1..], w);
    } else {
      VisitSound(m, ids[0], w);
      var w1 := Visit(m, ids[0], w).value;
      VisitAllSound(m, ids[1..], w1);
      var w' := VisitAll(m, ids[1..], w1).value;
      var j :| 0 <= j < |w1.order| && w1.order[j].id == ids[0];
      assert w'.order[j].id == ids[0];
    }
  }

  /** Success means a topological order holding each task id exactly once. */
  lemma OrderIsTopological(tasks: seq<Task>)
    requires TopoOrder(tasks).Success?
    ensures Topological(tasks, TopoOrder(tasks).value)
  {
    var m := ById(tasks);
    VisitAllSound(m, Ids(tasks), START);
    forall id | id in m ensures Earlier(TopoOrder(tasks).value, |TopoOrder(tasks).value|, id) {
      var i :| 0 <= i < |tasks| && tasks[i].id == id;
      assert Ids(tasks)[i] == id;
    }
  }

  // ---- a failure names a real cycle -------------------------------------------------------

  /** `stack` lists the ids under visit, each depending on the next. */
  ghost predicate IsStack(m: Index, temp: set<string>, stack: seq<string>) {
    && (forall x :: x in temp ==> x in stack)
    && (forall i :: 0 <= i < |stack| - 1 ==> Edge(m, stack[i], stack[i + 1]))
  }

  lemma CycleOnStack(m: Index, temp: set<string>, stack: seq<string>, i: nat)
    requires IsStack(m, temp, stack) && i < |stack| && Edge(m, stack[|stack| - 1], stack[i])
    ensures IsCycle(m, stack[i..])
  {
  }

  lemma PushStack(m: Index, temp: set<string>, stack: seq<string>, tid: string)
    requires IsStack(m, temp, stack) && (stack != [] ==> Edge(m, stack[|stack| - 1], tid))
    ensures IsStack(m, temp + {tid}, stack + [tid])
  {
  }

  lemma {:induction false} VisitFailure(m: Index, tid: string, w: Walk, stack: seq<string>) returns (c: seq<string>)
    requires tid in m && w.temp <= m.Keys && IsStack(m, w.temp, stack)
    requires stack != [] ==> Edge(m, stack[|stack| - 1], tid)
    requires Visit(m, tid, w).Failure?
    ensures IsCycle(m, c) && c[0] == Visit(m, tid, w).error
    decreases |m.Keys - w.temp|, 0
  {
    if tid in w.temp {
      var i :| 0 <= i < |stack| && stack[i] == tid;
      c := stack[i..];
      CycleOnStack(m, w.temp, stack, i);
    } else {
      var w1 := w.(temp := w.temp + {tid});
      SmallerSet(m.Keys - w1.temp, m.Keys - w.temp);
      PushStack(m, w.temp, stack, tid);
      c := VisitAllFailure(m, m[tid].deps, w1, stack + [tid]);
    }
  }

  lemma {:induction false} VisitAllFailure(m: Index, ids: seq<string>, w: Walk, stack: seq<string>) returns (c: seq<string>)
    requires w.temp <= m.Keys && IsStack(m, w.temp, stack)
    requires stack != [] ==> forall d :: d in ids && d in m ==> Edge(m, stack[|stack| - 1], d)
    requires VisitAll(m, ids, w).Failure?
    ensures IsCycle(m, c) && c[0] == VisitAll(m, ids, w).error
    decreases |m.Keys - w.temp|, 1 + |ids|
  {
    if ids[0] !in m {
      c := VisitAllFailure(m, ids[1..], w, stack);
    } else if Visit(m, ids[0], w).Failure? {
      c := VisitFailure(m, ids[0], w, stack);
    } else {
      c := VisitAllFailure(m, ids[1..], Visit(m, ids[0], w).value, stack);
    }
  }

  /** The "cycle" error comes with a dependency cycle through the task it names. */
  lemma FailureHasCycle(tasks: seq<Task>) returns (c: seq<string>)
    requires TopoOrder(tasks).Failure?
    ensures IsCycle(ById(tasks), c) && c[0] == TopoOrder(tasks).error
  {
    c := VisitAllFailure(ById(tasks), Ids(tasks), START, []);
  }

  // ---- no order exists for a cyclic plan --------------------------------------------------

  lemma {:induction false} CycleDescends(m: Index, order: seq<Task>, c: seq<string>, pos: seq<nat>, i: nat)
    requires Distinct(order) && Respects(m, order) && IsCycle(m, c) && i < |c| == |pos|
    requires forall n :: 0 <= n < |c| ==> pos[n] < |order| && order[pos[n]].id == c[n]
    ensures pos[i] + i <= pos[0]
  {
    if i == 0 {
    } else {
      CycleDescends(m, order, c, pos, i - 1);
      StepDown(m, order, pos[i - 1], pos[i]);
    }
  }

  lemma StepDown(m: Index, order: seq<Task>, k: nat, l: nat)
    requires Distinct(order) && Respects(m, order) && k < |order| && l < |order|
    requires Edge(m, order[k].id, order[l].id)
    ensures l < k
  {
  }

  lemma OrderRefutesCycle(tasks: seq<Task>, order: seq<Task>, c: seq<string>)
    requires Topological(tasks, order)
    ensures !IsCycle(ById(tasks), c)
  {
    var m := ById(tasks);
    if IsCycle(m, c) {
      forall i | 0 <= i < |c| ensures exists k: nat :: k < |order| && order[k].id == c[i] {
        assert c[i] in m by { if i < |c| - 1 { assert Edge(m, c[i], c[i + 1]); } }
        assert Earlier(order, |order|, c[i]);
      }
      var pos := seq(|c|, i requires 0 <= i < |c| => PositionOf(order, c[i]));
      CycleDescends(m, order, c, pos, |c| - 1);
      assert false;
    }
  }

  ghost function PositionOf(order: seq<Task>, id: string): (k: nat)
    requires exists k: nat :: k < |order| && order[k].id == id
    ensures k < |order| && order[k].id == id
  {
    var k: nat :| k < |order| && order[k].id == id; k
  }

  /** The order exists exactly when the in-plan dependency graph is acyclic. */
  lemma OrderIffAcyclic(tasks: seq<Task>)
    ensures TopoOrder(tasks).Success? <==> !Cyclic(ById(tasks))
  {
    if TopoOrder(tasks).Success? {
      OrderIsTopological(tasks);
      forall c ensures !IsCycle(ById(tasks), c) {
        OrderRefutesCycle(tasks, TopoOrder(tasks).value, c);
      }
    } else {
      var c := FailureHasCycle(tasks);
    }
  }

  // ---- stability --------------------------------------------------------------------------

  lemma {:induction false} VisitAllDone(m: Index, ids: seq<string>, w: Walk)
    requires w.temp <= m.Keys
    requires forall d :: d in ids && d in m ==> d in w.done
    ensures VisitAll(m, ids, w) == Success(w)
  {
    if ids == [] {
    } else {
      VisitAllDone(m, ids[1..], w);
    }
  }

  /** The walk stands after the first i tasks of a list already in order. */
  ghost predicate After(tasks: seq<Task>, i: nat, w: Walk)
    requires i <= |tasks|
  {
    w.order == tasks[..i] && w.temp == {} && forall id :: id in w.done <==> Earlier(tasks, i, id)
  }

  lemma SortedStep(tasks: seq<Task>, i: nat, w: Walk)
    requires i < |tasks| && Distinct(tasks) && Respects(ById(tasks), tasks) && After(tasks, i, w)
    ensures var r := Visit(ById(tasks), tasks[i].id, w);
            r.Success? && After(tasks, i + 1, r.value)
  {
    var m, t := ById(tasks), tasks[i];
    forall d | d in t.deps && d in m ensures d in w.done {
      assert Edge(m, t.id, d);
    }
    VisitAllDone(m, t.deps, w.(temp := w.temp + {t.id}));
    var w1 := Visit(m, t.id, w).value;
    assert !Earlier(tasks, i, t.id);
    assert w1 == Walk(w.order + [t], w.done + {t.id}, {});
    AfterStep(tasks, i, w);
  }

  lemma AfterStep(tasks: seq<Task>, i: nat, w: Walk)
    requires i < |tasks| && After(tasks, i, w)
    ensures After(tasks, i + 1, Walk(w.order + [tasks[i]], w.done + {tasks[i].id}, {}))
  {
  }

  lemma {:induction false} SortedStays(tasks: seq<Task>, i: nat, w: Walk)
    requires i <= |tasks| && Distinct(tasks) && Respects(ById(tasks), tasks) && After(tasks, i, w)
    ensures var r := VisitAll(ById(tasks), Ids(tasks)[i..], w);
            r.Success? && r.value.order == tasks
    decreases |tasks| - i
  {
    if i == |tasks| {
    } else {
      var rest := Ids(tasks)[i..];
      assert rest[0] == tasks[i].id && rest[1..] == Ids(tasks)[i + 1..];
      SortedStep(tasks, i, w);
      SortedStays(tasks, i + 1, Visit(ById(tasks), tasks[i].id, w).value);
    }
  }

  /** A list already in dependency order, with distinct ids, comes back unchanged. */
  lemma SortedUnchanged(tasks: seq<Task>)
    requires Distinct(tasks) && Respects(ById(tasks), tasks)
    ensures TopoOrder(tasks) == Success(tasks)
  {
    assert Ids(tasks)[0..] == Ids(tasks);
    SortedStays(tasks, 0, START);
  }

  /** Of several tasks with one id the last counts. */
  lemma {:induction false} LastOfAnIdCounts(tasks: seq<Task>, i: nat)
    requires i < |tasks| && forall j :: i < j < |tasks| ==> tasks[j].id != tasks[i].id
    ensures tasks[i].id in ById(tasks) && ById(tasks)[tasks[i].id] == tasks[i]
  {
    var n := |tasks| - 1;
    if i < n {
      var init := tasks[..n];
      assert init[i] == tasks[i] && forall j :: i < j < n ==> init[j].id == tasks[j].id;
      LastOfAnIdCounts(init, i);
      assert tasks[n].id != tasks[i].id;
    }
  }

  lemma {:induction false} IndexSize(tasks: seq<Task>)
    ensures |ById(tasks)| <= |tasks|
  {
    if tasks == [] {
    } else {
      var n := |tasks| - 1;
      IndexSize(tasks[..n]);
      assert ById(tasks).Keys == ById(tasks[..n]).Keys + {tasks[n].id};
    }
  }

  /** The order is no longer than the plan. */
  lemma TopoLength(tasks: seq<Task>)
    requires TopoOrder(tasks).Success?
    ensures |TopoOrder(tasks).value| <= |tasks|
  {
    var order := TopoOrder(tasks).value;
    OrderIsTopological(tasks);
    FitsIn(Ids(order), ById(tasks).Keys);
    IndexSize(tasks);
  }

  // ---- the walk as the runtime runs it ----------------------------------------------------

  /** `_topo_order`'s working variables; `visit` recurses over them. */
  class Sorter {
    const byId: Index
    var order: seq<Task>
    var done: set<string>
    var temp: set<string>

    constructor (tasks: seq<Task>)
      ensures byId == ById(tasks) && Abs() == START
    {
      byId := ById(tasks);
      order, done, temp := [], {}, {};
    }

    ghost function Abs(): Walk
      reads this
    {
      Walk(order, done, temp)
    }

    /** Returns the id at which a cycle was met, if any. */
    method Visit(tid: string) returns (cycle: Option<string>)
      requires tid in byId && temp <= byId.Keys
      modifies this
      ensures var r := Plans.Visit(byId, tid, old(Abs()));
              if r.Failure? then cycle == Some(r.error) else cycle == None && Abs() == r.value
      decreases |byId.Keys - temp|
    {
      if tid in done { return None; }
      if tid in temp { return Some(tid); }
      ghost var w := Abs();
      SmallerSet(byId.Keys - (temp + {tid}), byId.Keys - temp);
      temp := temp + {tid};
      ghost var w1 := Abs();
      var deps := byId[tid].deps;
      var i := 0;
      while i < |deps|
        invariant 0 <= i <= |deps|
        invariant temp == w1.temp
        invariant VisitAll(byId, deps, w1) == VisitAll(byId, deps[i..], Abs())
      {
        assert deps[i..][0] == deps[i] && deps[i..][1..] == deps[i + 1..];
        if deps[i] in byId {
          cycle := Visit(deps[i]);
          if cycle.Some? { return; }
        }
        i := i + 1;
      }
      temp := temp - {tid};
      done := done + {tid};
      order := order + [byId[tid]];
      cycle := None;
    }
  }

  method Sort(tasks: seq<Task>) returns (r: Result<seq<Task>, string>)
    ensures r == TopoOrder(tasks)
    ensures r.Success? ==> Topological(tasks, r.value)
    ensures r.Failure? ==> exists c :: IsCycle(ById(tasks), c) && c[0] == r.error
  {
    var s := new Sorter(tasks);
    var i := 0;
    assert Ids(tasks)[0..] == Ids(tasks);
    ghost var walk := VisitAll(ById(tasks), Ids(tasks), START);
    while i < |tasks|
      invariant 0 <= i <= |tasks|
      invariant s.byId == ById(tasks) && s.temp == {}
      invariant walk == VisitAll(ById(tasks), Ids(tasks)[i..], s.Abs())
    {
      assert Ids(tasks)[i..][0] == tasks[i].id && Ids(tasks)[i..][1..] == Ids(tasks)[i + 1..];
      var cycle := s.Visit(tasks[i].id);
      if cycle.Some? {
        r := Failure(cycle.value);
        assert TopoOrder(tasks) == r;
        var c := FailureHasCycle(tasks);
        return;
      }
      i := i + 1;
    }
    r := Success(s.order);
    OrderIsTopological(tasks);
  }
}

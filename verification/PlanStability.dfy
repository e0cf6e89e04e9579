/** How far the execution order keeps the order in which a plan lists its tasks (runtime/core.py `_topo_order`). */
module PlanStability {
  import opened Wrappers
  import opened Finite
  import opened Plans
  import opened PlanOrder

  // ---- what a task needs --------------------------------------------------------------------

  /** Each depends on the next. */
  ghost predicate Path(m: Index, p: seq<string>) {
    p != [] && (forall i :: 0 <= i < |p| ==> p[i] in m) && forall i :: 0 <= i < |p| - 1 ==> Edge(m, p[i], p[i + 1])
  }

  /** Task a is task b, or depends on it through others. */
  ghost predicate Needs(m: Index, a: string, b: string) {
    exists p :: Path(m, p) && p[0] == a && p[|p| - 1] == b
  }

  /** One of these tasks needs it. */
  ghost predicate NeededBy(m: Index, ids: seq<string>, id: string) {
    exists h :: 0 <= h < |ids| && ids[h] in m && Needs(m, ids[h], id)
  }

  lemma NeedsItself(m: Index, a: string)
    requires a in m
    ensures Needs(m, a, a)
  {
    assert Path(m, [a]);
  }

  lemma NeedsDeeper(m: Index, a: string, d: string, b: string)
    requires Edge(m, a, d) && Needs(m, d, b)
    ensures Needs(m, a, b)
  {
    var p :| Path(m, p) && p[0] == d && p[|p| - 1] == b;
    var q := [a] + p;
    forall i | 0 <= i < |q| - 1 ensures Edge(m, q[i], q[i + 1]) {
      if i > 0 { assert Edge(m, p[i - 1], p[i]); }
    }
    assert Path(m, q);
  }

  // ---- a walk places exactly what is needed -------------------------------------------------

  lemma {:induction false} VisitAdds(m: Index, tid: string, w: Walk)
    requires tid in m && w.temp <= m.Keys && Visit(m, tid, w).Success?
    ensures forall id :: id in Visit(m, tid, w).value.done && id !in w.done ==> Needs(m, tid, id)
    decreases |m.Keys - w.temp|, 0
  {
    if tid !in w.done {
      var w1 := w.(temp := w.temp + {tid});
      SmallerSet(m.Keys - w1.temp, m.Keys - w.temp);
      VisitAllAdds(m, m[tid].deps, w1);
      NeedsItself(m, tid);
      forall id | NeededBy(m, m[tid].deps, id) ensures Needs(m, tid, id) {
        var h :| 0 <= h < |m[tid].deps| && m[tid].deps[h] in m && Needs(m, m[tid].deps[h], id);
        NeedsDeeper(m, tid, m[tid].deps[h], id);
      }
    }
  }

  lemma {:induction false} VisitAllAdds(m: Index, ids: seq<string>, w: Walk)
    requires w.temp <= m.Keys && VisitAll(m, ids, w).Success?
    ensures forall id :: id in VisitAll(m, ids, w).value.done && id !in w.done ==> NeededBy(m, ids, id)
    decreases |m.Keys - w.temp|, 1 + |ids|
  {
    if ids == [] {
    } else {
      var w1 := if ids[0] in m then Visit(m, ids[0], w).value else w;
      if ids[0] in m { VisitAdds(m, ids[0], w); }
      VisitAllAdds(m, ids[1..], w1);
      forall id | NeededBy(m, ids[1..], id) ensures NeededBy(m, ids, id) {
        var h :| 0 <= h < |ids[1..]| && ids[1..][h] in m && Needs(m, ids[1..][h], id);
        assert ids[h + 1] == ids[1..][h];
      }
      forall id | ids[0] in m && Needs(m, ids[0], id) ensures NeededBy(m, ids, id) {
      }
    }
  }

  /** What is placed has all it needs placed. */
  lemma {:induction false} DoneCloses(m: Index, w: Walk, p: seq<string>)
    requires WalkInv(m, w) && Path(m, p) && p[0] in w.done
    ensures p[|p| - 1] in w.done
  {
    if |p| == 1 {
    } else {
      assert Edge(m, p[0], p[1]);
      var k :| 0 <= k < |w.order| && w.order[k].id == p[0];
      assert Earlier(w.order, k, p[1]);
      var j :| 0 <= j < k && w.order[j].id == p[1];
      assert Earlier(w.order, |w.order|, p[1]);
      var q := p[1..];
      forall i | 0 <= i < |q| - 1 ensures Edge(m, q[i], q[i + 1]) { assert Edge(m, p[i + 1], p[i + 2]); }
      DoneCloses(m, w, q);
    }
  }

  lemma DoneIs(m: Index, ids: seq<string>, w: Walk)
    requires WalkInv(m, w) && VisitAll(m, ids, w).Success? && forall k :: k in m ==> m[k].id == k
    ensures forall id :: id in VisitAll(m, ids, w).value.done <==> id in w.done || NeededBy(m, ids, id)
  {
    VisitAllAdds(m, ids, w);
    VisitAllSound(m, ids, w);
    var r := VisitAll(m, ids, w).value;
    forall id | NeededBy(m, ids, id) ensures id in r.done {
      var h :| 0 <= h < |ids| && ids[h] in m && Needs(m, ids[h], id);
      var p :| Path(m, p) && p[0] == ids[h] && p[|p| - 1] == id;
      DoneCloses(m, r, p);
    }
    DoneStays(m, w, r);
  }

  lemma DoneStays(m: Index, w: Walk, r: Walk)
    requires WalkInv(m, w) && WalkInv(m, r) && w.order <= r.order
    ensures w.done <= r.done
  {
    forall id | id in w.done ensures id in r.done {
      var j :| 0 <= j < |w.order| && w.order[j].id == id;
      assert r.order[j].id == id;
    }
  }

  lemma {:induction false} VisitAllSplits(m: Index, ids: seq<string>, w: Walk, i: nat)
    requires w.temp <= m.Keys && i <= |ids| && VisitAll(m, ids, w).Success?
    ensures VisitAll(m, ids[..i], w).Success?
    ensures VisitAll(m, ids, w) == VisitAll(m, ids[i..], VisitAll(m, ids[..i], w).value)
    decreases |ids|
  {
    if i == 0 {
      assert ids[0..] == ids;
    } else {
      var w1 := if ids[0] in m then Visit(m, ids[0], w).value else w;
      VisitAllSplits(m, ids[1..], w1, i - 1);
      assert ids[..i][0] == ids[0] && ids[..i][1..] == ids[1..][..i - 1] && ids[1..][i - 1..] == ids[i..];
    }
  }

  // ---- the order of tasks listed together ---------------------------------------------------

  /** Task a comes before task b. */
  ghost predicate Before(order: seq<Task>, a: string, b: string) {
    exists k, l :: 0 <= k < l < |order| && order[k].id == a && order[l].id == b
  }

  /** The walk just after ids[x] got its turn: it stands last, and what stands is what was there or is needed so far. */
  lemma AtItsTurn(m: Index, ids: seq<string>, w: Walk, x: nat)
    requires WalkInv(m, w) && VisitAll(m, ids, w).Success? && forall k :: k in m ==> m[k].id == k
    requires x < |ids| && ids[x] in m && ids[x] !in w.done && !NeededBy(m, ids[..x], ids[x])
    ensures VisitAll(m, ids[..x + 1], w).Success?
    ensures var v := VisitAll(m, ids[..x + 1], w).value;
            && WalkInv(m, v) && v.order != [] && v.order[|v.order| - 1].id == ids[x]
            && v.order <= VisitAll(m, ids, w).value.order
            && forall id :: id in v.done <==> id in w.done || NeededBy(m, ids[..x + 1], id)
  {
    VisitAllSplits(m, ids, w, x + 1);
    VisitAllSplits(m, ids[..x + 1], w, x);
    assert ids[..x + 1][..x] == ids[..x] && ids[..x + 1][x..] == [ids[x]];
    DoneIs(m, ids[..x], w);
    VisitAllSound(m, ids[..x], w);
    var u := VisitAll(m, ids[..x], w).value;
    VisitSound(m, ids[x], u);
    var v := VisitAll(m, ids[..x + 1], w).value;
    assert VisitAll(m, [ids[x]], u) == Visit(m, ids[x], u) by { assert [ids[x]][1..] == []; }
    DoneIs(m, ids[..x + 1], w);
    VisitAllSound(m, ids[x + 1..], v);
  }

  /** Of two tasks listed together, the first not needed before its turn, neither placed yet: the listed order is kept
      exactly unless the second is needed by the first, or by one listed before it. */
  lemma SiblingOrder(m: Index, ids: seq<string>, w: Walk, x: nat, y: nat)
    requires WalkInv(m, w) && VisitAll(m, ids, w).Success? && forall k :: k in m ==> m[k].id == k
    requires x < y < |ids| && ids[x] in m && ids[y] in m && ids[x] != ids[y] && ids[x] !in w.done && ids[y] !in w.done
    requires !NeededBy(m, ids[..x], ids[x])
    ensures WalkInv(m, VisitAll(m, ids, w).value)
    ensures Before(VisitAll(m, ids, w).value.order, ids[x], ids[y]) <==> !NeededBy(m, ids[..x + 1], ids[y])
  {
    hide NeededBy;
    AtItsTurn(m, ids, w, x);
    VisitAllSound(m, ids, w);
    var v, r := VisitAll(m, ids[..x + 1], w).value, VisitAll(m, ids, w).value;
    var n := |v.order| - 1;
    assert r.order[n].id == ids[x];
    assert ids[y] in ids && ids[y] in r.done;
    var l :| 0 <= l < |r.order| && r.order[l].id == ids[y];
    if ids[y] in v.done {
      var k :| 0 <= k < |v.order| && v.order[k].id == ids[y];
      assert r.order[k].id == ids[y] && k < n;
    } else {
      assert forall k :: 0 <= k <= n ==> Earlier(v.order, |v.order|, v.order[k].id) && r.order[k] == v.order[k];
    }
  }

  lemma BeforeStays(part: seq<Task>, order: seq<Task>, a: string, b: string)
    requires part <= order && Distinct(order) && Earlier(part, |part|, a) && Earlier(part, |part|, b)
    ensures Before(part, a, b) <==> Before(order, a, b)
  {
    var k :| 0 <= k < |part| && part[k].id == a;
    var l :| 0 <= l < |part| && part[l].id == b;
    assert order[k] == part[k] && order[l] == part[l];
  }

  // ---- plans --------------------------------------------------------------------------------

  lemma StartIsSound(m: Index)
    ensures WalkInv(m, START)
  {
  }

  /** Of two tasks of a plan, the first not needed by any listed before it: the order keeps them as listed exactly if the
      second is not needed by the first, nor by any listed before it. */
  lemma ListedOrderKept(tasks: seq<Task>, i: nat, j: nat)
    requires TopoOrder(tasks).Success? && i < j < |tasks| && tasks[i].id != tasks[j].id
    requires !NeededBy(ById(tasks), Ids(tasks)[..i], tasks[i].id)
    ensures Before(TopoOrder(tasks).value, tasks[i].id, tasks[j].id)
       <==> !NeededBy(ById(tasks), Ids(tasks)[..i + 1], tasks[j].id)
  {
    hide NeededBy, Before, Visit, VisitAll, ById, Distinct, Respects;
    assert tasks[i].id in ById(tasks) && tasks[j].id in ById(tasks);
    StartIsSound(ById(tasks));
    SiblingOrder(ById(tasks), Ids(tasks), START, i, j);
  }

  /** The walk inside the turn of a task that nothing listed before it needs: where it starts, and that it all stays. */
  lemma InItsTurn(tasks: seq<Task>, i: nat) returns (u: Walk)
    requires TopoOrder(tasks).Success? && i < |tasks| && ById(tasks)[tasks[i].id] == tasks[i]
    requires !NeededBy(ById(tasks), Ids(tasks)[..i], tasks[i].id)
    ensures var m, t := ById(tasks), tasks[i];
            && WalkInv(m, u) && VisitAll(m, t.deps, u).Success?
            && VisitAll(m, t.deps, u).value.order <= TopoOrder(tasks).value
            && forall id :: id in u.done <==> NeededBy(m, Ids(tasks)[..i], id)
  {
    hide NeededBy, ById, Distinct, Respects;
    var m, ids, t := ById(tasks), Ids(tasks), tasks[i];
    StartIsSound(m);
    VisitAllSplits(m, ids, START, i);
    DoneIs(m, ids[..i], START);
    VisitAllSound(m, ids[..i], START);
    var v := VisitAll(m, ids[..i], START).value;
    u := v.(temp := v.temp + {t.id});
    assert ids[i..][0] == t.id && ids[i..][1..] == ids[i + 1..];
    var w := Visit(m, t.id, v).value;
    VisitSound(m, t.id, v);
    VisitAllSound(m, ids[i + 1..], w);
    assert w.order == VisitAll(m, t.deps, u).value.order + [t];
  }

  /** And of two dependencies of a task that is itself not needed before its turn, neither of them needed by a task listed
      before it: the same holds for the order in which the task lists them. */
  lemma DependenciesKept(tasks: seq<Task>, i: nat, x: nat, y: nat)
    requires TopoOrder(tasks).Success? && i < |tasks| && ById(tasks)[tasks[i].id] == tasks[i]
    requires !NeededBy(ById(tasks), Ids(tasks)[..i], tasks[i].id)
    requires var deps := tasks[i].deps;
             && x < y < |deps| && deps[x] in ById(tasks) && deps[y] in ById(tasks) && deps[x] != deps[y]
             && !NeededBy(ById(tasks), Ids(tasks)[..i], deps[x]) && !NeededBy(ById(tasks), Ids(tasks)[..i], deps[y])
             && !NeededBy(ById(tasks), deps[..x], deps[x])
    ensures var deps := tasks[i].deps;
            Before(TopoOrder(tasks).value, deps[x], deps[y]) <==> !NeededBy(ById(tasks), deps[..x + 1], deps[y])
  {
    hide NeededBy, Before, Visit, VisitAll;
    var m, deps := ById(tasks), tasks[i].deps;
    var u := InItsTurn(tasks, i);
    SiblingOrder(m, deps, u, x, y);
    VisitAllSound(m, deps, u);
    OrderIsTopological(tasks);
    assert deps[x] in deps && deps[y] in deps;
    BeforeStays(VisitAll(m, deps, u).value.order, TopoOrder(tasks).value, deps[x], deps[y]);
  }

  // ---- independent tasks may change places --------------------------------------------------

  const WRITE := Task("write", ["read"], None, None, None)
  const CHECK := Task("check", [], None, None, None)
  const READ := Task("read", [], None, None, None)

  lemma NeedsNothing(m: Index, a: string, b: string)
    requires a in m && m[a].deps == [] && a != b
    ensures !Needs(m, a, b)
  {
    forall p | Path(m, p) && p[0] == a ensures p[|p| - 1] != b {
      assert |p| > 1 ==> Edge(m, p[0], p[1]);
    }
  }

  /** A task without dependencies is placed as it is visited. */
  lemma VisitLeaf(m: Index, tid: string, w: Walk)
    requires tid in m && m[tid].deps == [] && w.temp <= m.Keys && tid !in w.done && tid !in w.temp
    ensures Visit(m, tid, w) == Success(Walk(w.order + [m[tid]], w.done + {tid}, w.temp))
  {
    assert w.temp + {tid} - {tid} == w.temp;
  }

  lemma VisitNext(m: Index, ids: seq<string>, w: Walk, v: Walk)
    requires w.temp <= m.Keys && ids != [] && ids[0] in m && Visit(m, ids[0], w) == Success(v)
    ensures VisitAll(m, ids, w) == VisitAll(m, ids[1..], v)
    ensures |ids| == 1 ==> VisitAll(m, ids, w) == Success(v)
  {
    hide Visit;
    if |ids| == 1 { assert ids[1..] == []; }
  }

  lemma WalkThree(m: Index)
    requires m.Keys == {"write", "check", "read"} && m["write"] == WRITE && m["check"] == CHECK && m["read"] == READ
    ensures var r := VisitAll(m, ["write", "check", "read"], START);
            r.Success? && r.value.order == [READ, WRITE, CHECK]
  {
    var w, w1 := Walk([], {}, {"write"}), Walk([READ], {"read"}, {"write"});
    var w2, w3 := Walk([READ, WRITE], {"read", "write"}, {}), Walk([READ, WRITE, CHECK], {"read", "write", "check"}, {});
    VisitLeaf(m, "read", w);
    assert w.order + [READ] == [READ] && w.done + {"read"} == {"read"};
    VisitNext(m, ["read"], w, w1);
    assert START.(temp := START.temp + {"write"}) == w && w1.temp - {"write"} == {};
    assert w1.order + [WRITE] == w2.order && w1.done + {"write"} == w2.done;
    assert Visit(m, "write", START) == Success(w2);
    VisitLeaf(m, "check", w2);
    assert w2.order + [CHECK] == w3.order && w2.done + {"check"} == w3.done;
    assert Visit(m, "read", w3) == Success(w3);
    hide Visit, VisitAll;
    assert ["write", "check", "read"][1..] == ["check", "read"] && ["check", "read"][1..] == ["read"];
    VisitNext(m, ["write", "check", "read"], START, w2);
    VisitNext(m, ["check", "read"], w2, w3);
    VisitNext(m, ["read"], w3, w3);
  }

  /** Two tasks that need nothing, listed check before read: read comes first, a task listed earlier needing it. */
  lemma IndependentsSwapped()
    ensures var tasks := [WRITE, CHECK, READ];
            && TopoOrder(tasks) == Success([READ, WRITE, CHECK])
            && !Needs(ById(tasks), "check", "read") && !Needs(ById(tasks), "read", "check")
  {
    hide VisitAll, Visit;
    var tasks := [WRITE, CHECK, READ];
    LastOfAnIdCounts(tasks, 0);
    LastOfAnIdCounts(tasks, 1);
    LastOfAnIdCounts(tasks, 2);
    hide ById;
    assert ById(tasks).Keys == {"write", "check", "read"};
    assert Ids(tasks) == ["write", "check", "read"];
    WalkThree(ById(tasks));
    NeedsNothing(ById(tasks), "check", "read");
    NeedsNothing(ById(tasks), "read", "check");
  }
}

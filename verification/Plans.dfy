/** Plans and their execution order (runtime/core.py, `_topo_order`). */
module Plans {
  import opened Wrappers
  import opened Finite

  /** `tool` None or "" means the task calls no tool; `scope` None reads as "tool". */
  datatype Task = Task(id: string, deps: seq<string>, tool: Option<string>, scope: Option<string>, target: Option<string>)
  {
    predicate HasTool() { tool.Some? && tool.value != "" }
  }

  datatype Plan = Plan(planId: Option<string>, tasks: seq<Task>)

  type Index = map<string, Task>

  /** `{t["task_id"]: t for t in tasks}`: the last task of an id wins. */
  function ById(tasks: seq<Task>): (m: Index)
    ensures forall k :: k in m ==> m[k].id == k
    ensures forall k :: k in m <==> exists i :: 0 <= i < |tasks| && tasks[i].id == k
  {
    if tasks == [] then map[]
    else
      var t := tasks[|tasks| - 1];
      ById(tasks[..|tasks| - 1])[t.id := t]
  }

  function Ids(tasks: seq<Task>): seq<string> {
    seq(|tasks|, i requires 0 <= i < |tasks| => tasks[i].id)
  }

  /** Task a depends on task b, both in the plan. */
  predicate Edge(m: Index, a: string, b: string) {
    a in m && b in m && b in m[a].deps
  }

  // ---- the depth-first walk --------------------------------------------------------------

  datatype Walk = Walk(order: seq<Task>, done: set<string>, temp: set<string>)

  function Visit(m: Index, tid: string, w: Walk): (r: Result<Walk, string>)
    requires tid in m && w.temp <= m.Keys
    ensures r.Success? ==> r.value.temp == w.temp
    decreases |m.Keys - w.temp|, 0
  {
    if tid in w.done then Success(w)
    else if tid in w.temp then Failure(tid)
    else
      assert m.Keys - (w.temp + {tid}) < m.Keys - w.temp by { assert tid in m.Keys - w.temp; }
      SmallerSet(m.Keys - (w.temp + {tid}), m.Keys - w.temp);
      var r := VisitAll(m, m[tid].deps, w.(temp := w.temp + {tid}));
      if r.Failure? then r
      else Success(Walk(r.value.order + [m[tid]], r.value.done + {tid}, r.value.temp - {tid}))
  }

  /** Visit those of `ids` that are in the plan, in order. */
  function VisitAll(m: Index, ids: seq<string>, w: Walk): (r: Result<Walk, string>)
    requires w.temp <= m.Keys
    ensures r.Success? ==> r.value.temp == w.temp
    decreases |m.Keys - w.temp|, 1 + |ids|
  {
    if ids == [] then Success(w)
    else if ids[0] !in m then VisitAll(m, ids[1..], w)
    else
      var r := Visit(m, ids[0], w);
      if r.Failure? then r else VisitAll(m, ids[1..], r.value)
  }

  const START := Walk([], {}, {})

  function TopoOrder(tasks: seq<Task>): Result<seq<Task>, string> {
    var r := VisitAll(ById(tasks), Ids(tasks), START);
    if r.Failure? then Failure(r.error) else Success(r.value.order)
  }
}

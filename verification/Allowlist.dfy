/** What a tool outside the allowlist would do makes no difference to any run. */
module Allowlist {
  import opened Wrappers
  import opened Json
  import opened Approval
  import opened Plans
  import opened Memory
  import opened Agent
  import opened Transparency

  type Tools = (nat, string, Inputs) -> Reply<Value>

  /** The two answer alike wherever the allowlist lets a call through. */
  ghost predicate AlikeOn(listed: set<string>, f: Tools, g: Tools) {
    forall k, tool, inputs :: tool in listed ==> f(k, tool, inputs) == g(k, tool, inputs)
  }

  /** The same NEop with other tools behind the same names. */
  function With(n: Neop, g: Tools): Neop {
    n.(tool := g)
  }

  lemma SameTask(n: Neop, g: Tools, b: Broker, r: Run, t: Task, skip: bool)
    requires AlikeOn(n.allowlist, n.tool, g)
    ensures ExecTask(With(n, g), b, r, t, skip) == ExecTask(n, b, r, t, skip)
  {
    var n' := With(n, g);
    var r0 := r.(state := Executing);
    var (go, r1) := GateTask(n, b, r0, t, skip);
    assert GateTask(n', b, r0, t, skip) == (go, r1);
    if go && t.HasTool() {
      assert CallTool(n', r1, t) == CallTool(n, r1, t);
    }
  }

  lemma {:induction false} SameExec(n: Neop, g: Tools, b: Broker, r: Run, tasks: seq<Task>, skip: bool)
    requires AlikeOn(n.allowlist, n.tool, g)
    ensures ExecFrom(With(n, g), b, r, tasks, skip) == ExecFrom(n, b, r, tasks, skip)
    decreases |tasks|
  {
    hide ExecTask;
    if tasks == [] {
    } else {
      SameTask(n, g, b, r, tasks[0], skip);
      var (ok, r1) := ExecTask(n, b, r, tasks[0], skip);
      if ok { SameExec(n, g, b, r1, tasks[1..], false); }
    }
  }

  lemma SameExecute(n: Neop, g: Tools, b: Broker, r: Run, from: Option<string>)
    requires AlikeOn(n.allowlist, n.tool, g)
    ensures Execute(With(n, g), b, r, from) == Execute(n, b, r, from)
  {
    hide ExecFrom, TopoOrder;
    var r0 := if from.Some? then r else r.(core := r.core.(outputs := []));
    var order := TopoOrder(r.core.plan.tasks);
    if order.Success? {
      if from.None? {
        SameExec(n, g, b, r0, order.value, false);
      } else if IndexOf(order.value, from.value) < |order.value| {
        SameExec(n, g, b, r0, order.value[IndexOf(order.value, from.value)..], true);
      }
    }
  }

  lemma SameReplan(n: Neop, g: Tools, b: Broker, r: Run)
    ensures Replan(With(n, g), b, r) == Replan(n, b, r)
    ensures GatePlan(With(n, g), b, r) == GatePlan(n, b, r)
  {
    hide Consult, Decide;
  }

  lemma {:induction false} SameDrive(n: Neop, g: Tools, b: Broker, r: Run, from: Option<string>)
    requires AlikeOn(n.allowlist, n.tool, g)
    ensures Drive(With(n, g), b, r, from) == Drive(n, b, r, from)
    decreases Budget(n, r)
  {
    hide Execute, Gate;
    SameExecute(n, g, b, r, from);
    var out := Execute(n, b, r, from);
    SameReplan(n, g, b, out.1);
    if Replans(n, out) {
      var (go, r1) := Replan(n, b, out.1);
      if go { SameDrive(n, g, b, r1, None); }
    }
  }

  lemma SameStart(n: Neop, g: Tools, mem: Mem, msg: Msg)
    ensures Start(With(n, g), mem, msg) == Start(n, mem, msg)
  {
  }

  lemma SameConclude(n: Neop, g: Tools, mem: Mem, r: Run)
    ensures Conclude(With(n, g), mem, r) == Conclude(n, mem, r)
  {
  }

  /** Put any other tools behind the names outside the allowlist: every dispatch stays as it was, trace and all. */
  lemma UnlistedToolsNeverMatter(n: Neop, g: Tools, b: Broker, mem: Mem, msg: Msg)
    requires AlikeOn(n.allowlist, n.tool, g)
    ensures Dispatch(n.(tool := g), b, mem, msg) == Dispatch(n, b, mem, msg)
  {
    hide Start, GatePlan, Drive, Conclude;
    SameStart(n, g, mem, msg);
    var r := Start(n, mem, msg);
    SameReplan(n, g, b, r);
    var (go, r1) := GatePlan(n, b, r);
    if go { SameDrive(n, g, b, r1, None); }
    SameConclude(n, g, mem, if go then Drive(n, b, r1, None) else r1);
  }

  /** And so does every resume. */
  lemma UnlistedToolsNeverMatterLater(n: Neop, g: Tools, b: Broker, mem: Mem, snap: Snapshot)
    requires b.On? && AlikeOn(n.allowlist, n.tool, g)
    ensures Resume(n.(tool := g), b, mem, snap) == Resume(n, b, mem, snap)
  {
    hide Regrant, Drive, Conclude;
    var (go, r) := Regrant(b, snap);
    var from := if snap.scope == ActionPause then snap.taskId else None;
    if go { SameDrive(n, g, b, r, from); }
    SameConclude(n, g, mem, if !go then r else Drive(n, b, r, from));
  }
}

/** Actions no policy is asked about: a blank plan id, a task whose scope is unknown or whose tool name is blank.
    The gate raises on them, also while only observing (runtime/approval_gate.py:106-118, acp/approval.py:44-48). */
module Malformed {
  import opened Wrappers
  import opened Approval
  import opened Plans
  import opened PlanOrder
  import opened Memory
  import opened Agent
  import opened Transparency
  import opened Observe

  /** A gate raises exactly on an action of a scope there is not, or whose name is nothing but white space. */
  lemma GateRaisesExactly(n: Neop, b: Broker, r: Run, scope: PauseScope, action: Action, taskId: Option<string>)
    requires b.On? && r.err.None?
    ensures Gate(n, b, r, scope, action, taskId).1.err == Some(MalformedAction)
       <==> || (action.scope != "command" && action.scope != "tool" && action.scope != "neop" && action.scope != "plan")
            || (forall i :: 0 <= i < |action.name| ==> IsSpace(action.name[i]))
    ensures Gate(n, b, r, scope, action, taskId).1.err in {None, Some(MalformedAction)}
  {
    hide Decide;
  }

  predicate NamedTask(t: Task) {
    t.HasTool() ==> t.scope.GetOr("tool") in SCOPES && !Blank(t.tool.value)
  }

  predicate NamedPlan(p: Plan) {
    !Blank(p.planId.GetOr("plan")) && forall i :: 0 <= i < |p.tasks| ==> NamedTask(p.tasks[i])
  }

  /** Every plan this NEop can come up with names its plan, its scopes and its tools. */
  ghost predicate NamesWell(n: Neop) {
    if n.plans then forall k, twin, msg :: n.planner(k, twin, msg).Returns? ==> NamedPlan(n.planner(k, twin, msg).value)
    else NamedPlan(ImplicitPlan(n))
  }

  /** The run has met no malformed action. */
  predicate Spared(r: Run) {
    r.err != Some(MalformedAction)
  }

  lemma SparedTask(n: Neop, b: Broker, r: Run, t: Task, skip: bool)
    requires r.err.None? && NamedTask(t)
    ensures var (ok, r1) := ExecTask(n, b, r, t, skip); Spared(r1) && (ok ==> r1.err.None?)
  {
    var r0 := r.(state := Executing);
    if b.On? && t.HasTool() { GateOutcome(n, b, r0, ActionPause, TaskAction(r.core.who, t), Some(t.id)); }
    hide Gate;
    var (go, r1) := GateTask(n, b, r0, t, skip);
    if go { SparedBody(n, r1, t); }
  }

  lemma SparedBody(n: Neop, r: Run, t: Task)
    requires r.err.None?
    ensures var (ok, r1) := Body(n, r, t); Spared(r1) && (ok ==> r1.err.None?)
  {
  }

  lemma {:induction false} SparedExec(n: Neop, b: Broker, r: Run, tasks: seq<Task>, skip: bool)
    requires r.err.None? && forall i :: 0 <= i < |tasks| ==> NamedTask(tasks[i])
    ensures Spared(ExecFrom(n, b, r, tasks, skip).1)
    decreases |tasks|
  {
    if tasks == [] {
    } else {
      SparedTask(n, b, r, tasks[0], skip);
      var (ok, r1) := ExecTask(n, b, r, tasks[0], skip);
      if ok { SparedExec(n, b, r1, tasks[1..], false); }
    }
  }

  lemma {:induction false} FromPlan(tasks: seq<Task>, id: string)
    requires id in ById(tasks)
    ensures ById(tasks)[id] in tasks
  {
    var n := |tasks| - 1;
    if tasks[n].id == id {
    } else {
      FromPlan(tasks[..n], id);
    }
  }

  lemma OrderNamed(p: Plan, order: seq<Task>)
    requires NamedPlan(p) && TopoOrder(p.tasks) == Success(order)
    ensures forall i :: 0 <= i < |order| ==> NamedTask(order[i])
  {
    OrderIsTopological(p.tasks);
    forall i | 0 <= i < |order| ensures NamedTask(order[i]) { FromPlan(p.tasks, order[i].id); }
  }

  lemma SparedExecute(n: Neop, b: Broker, r: Run, from: Option<string>)
    requires r.err.None? && NamedPlan(r.core.plan)
    ensures Spared(Execute(n, b, r, from).1)
  {
    var order := TopoOrder(r.core.plan.tasks);
    if order.Success? {
      OrderNamed(r.core.plan, order.value);
      if from.None? {
        SparedExec(n, b, r.(core := r.core.(outputs := [])), order.value, false);
      } else {
        var k := IndexOf(order.value, from.value);
        if k < |order.value| { SparedExec(n, b, r, order.value[k..], true); }
      }
    }
  }

  lemma SparedPlanGate(n: Neop, b: Broker, r: Run)
    requires r.err.None? && r.state == Planning && !Blank(r.core.plan.planId.GetOr("plan"))
    ensures var (go, r1) := GatePlan(n, b, r); Spared(r1) && r1.core == r.core && (go ==> r1.err.None?)
  {
    if b.On? { GateOutcome(n, b, r, PlanPause, PlanAction(n, r.core), None); }
  }

  lemma SparedReplan(n: Neop, b: Broker, r: Run)
    requires n.plans && NamesWell(n) && r.err.None?
    ensures var (go, r1) := Replan(n, b, r); Spared(r1) && (go ==> r1.err.None? && NamedPlan(r1.core.plan))
  {
    hide GatePlan, Blank;
    var k := r.core.replans + 1;
    if k <= n.maxReplans {
      var r2 := MakePlan(n, Emit(r.(core := r.core.(replans := k)), ReplanStarted(k)).(state := Replanning));
      if r2.err.None? { SparedPlanGate(n, b, r2); }
    }
  }

  lemma {:induction false} SparedDrive(n: Neop, b: Broker, r: Run, from: Option<string>)
    requires NamesWell(n) && r.err.None? && NamedPlan(r.core.plan)
    ensures Spared(Drive(n, b, r, from))
    decreases Budget(n, r)
  {
    SparedExecute(n, b, r, from);
    hide Execute, NamedPlan;
    var out := Execute(n, b, r, from);
    if Replans(n, out) {
      SparedReplan(n, b, out.1);
      var (go, r1) := Replan(n, b, out.1);
      if go { SparedDrive(n, b, r1, None); }
    }
  }

  lemma SparedConclude(n: Neop, mem: Mem, r: Run)
    requires Spared(r)
    ensures Spared(Conclude(n, mem, r).run)
  {
  }

  lemma SparedStart(n: Neop, mem: Mem, msg: Msg)
    requires NamesWell(n)
    ensures var r := Start(n, mem, msg); Spared(r) && (r.err.None? ==> NamedPlan(r.core.plan))
    ensures Start(n, mem, msg).state in {Planning, Assembling}
  {
    hide Assemble, NamedPlan;
    AssembleEmits(n, mem, msg);
  }

  /** A NEop whose plans are well named meets no malformed action, whatever the broker. */
  lemma NamedNeverMalformed(n: Neop, b: Broker, mem: Mem, msg: Msg)
    requires NamesWell(n)
    ensures Spared(Dispatch(n, b, mem, msg).run)
  {
    var r := Start(n, mem, msg);
    SparedStart(n, mem, msg);
    if r.err.None? {
      if b.On? { GateOutcome(n, b, r, PlanPause, PlanAction(n, r.core), None); }
      hide Gate, Drive, Conclude, Start;
      var (go, r1) := GatePlan(n, b, r);
      if go { SparedDrive(n, b, r1, None); }
      SparedConclude(n, mem, if go then Drive(n, b, r1, None) else r1);
    }
  }

  /** So while only observing (or under an all-allow policy) its runs are the runs without a broker. */
  lemma SilentForNamed(n: Neop, b: Broker, mem: Mem, msg: Msg)
    requires Passive(b) && NamesWell(n)
    ensures var rep := Dispatch(n, b, mem, msg); SameEnd(rep, rep.run.log, Dispatch(n, Off, mem, msg))
  {
    NamedNeverMalformed(n, b, mem, msg);
    SilentGate(n, b, mem, msg);
  }

  // ---- a run that is stopped while it is only observed ------------------------------------------

  /** A planner that leaves the plan id blank. */
  function Nameless(): Neop {
    Neop("nameless", true, false, 0, [], {}, false, false, false, false, false,
         (k, t, m) => Returns(Plan(Some(" "), [])), (k, t, m, task, o) => Returns(true), (k, tool, i) => Raises)
  }

  lemma NothingToDo(n: Neop, r: Run)
    requires r.err.None? && r.core.plan.tasks == []
    ensures Drive(n, Off, r, None) == r.(core := r.core.(outputs := []), state := Done)
  {
    assert TopoOrder([]) == Success([]);
    var r0 := r.(core := r.core.(outputs := []));
    assert ExecFrom(n, Off, r0, [], false) == (true, r0);
  }

  /** Without a broker the run finishes; under any report-only broker it raises. */
  lemma ObservedRunRaises(b: Broker, mem: Mem, msg: Msg)
    requires b.On? && b.mode == ReportOnly
    ensures Dispatch(Nameless(), b, mem, msg).run.err == Some(MalformedAction)
    ensures var r := Dispatch(Nameless(), Off, mem, msg).run; r.err.None? && r.state == Done
  {
    hide Assemble;
    AssembleEmits(Nameless(), mem, msg);
    var r := Start(Nameless(), mem, msg);
    assert Blank(" ");
    NothingToDo(Nameless(), r);
    assert GatePlan(Nameless(), b, r).1.err == Some(MalformedAction);
  }
}

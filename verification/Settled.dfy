/** What it means that a run is done: every task of its last plan called and verified on its final outputs. */
module Settled {
  import opened Wrappers
  import opened Json
  import opened Approval
  import opened Plans
  import opened PlanOrder
  import opened Memory
  import opened Agent
  import opened Transparency
  import opened Threading
  import World

  // ---- a task done, judged by the final outputs alone ---------------------------------------

  /** The message text and the output of each dependency, null where it has none; and nothing else. */
  ghost predicate Handed(c: Core, t: Task, inputs: Inputs) {
    && inputs.Keys == {"text"} + (set d | d in t.deps)
    && (forall d :: d in t.deps ==> inputs[d] == Lookup(c.outputs, d).GetOr(Null))
    && ("text" !in t.deps ==> inputs["text"] == c.who.msg.text)
  }

  /** The answer is a dict whose `_blocked` is set. */
  predicate Blocks(out: Value) {
    out.Obj? && "_blocked" in out.fields && Truthy(out.fields["_blocked"])
  }

  /** The task's output is what its tool, a listed one, answers in this attempt, and it is no block. */
  ghost predicate Called(n: Neop, c: Core, t: Task, inputs: Inputs)
    requires t.HasTool()
  {
    && Handed(c, t, inputs) && t.tool.value in n.allowlist
    && Lookup(c.outputs, t.id).Some? && !Blocks(Lookup(c.outputs, t.id).value)
    && n.tool(c.replans, t.tool.value, inputs) == Returns(Lookup(c.outputs, t.id).value)
  }

  /** The verifier, if there is one, says yes to the task's output. */
  ghost predicate Verified(n: Neop, c: Core, t: Task) {
    n.verifies ==> n.verifier(c.replans, c.twin, c.who.msg, t, Lookup(c.outputs, t.id)) == Returns(true)
  }

  ghost predicate TaskDone(n: Neop, c: Core, t: Task) {
    (t.HasTool() ==> exists inputs :: Called(n, c, t, inputs)) && Verified(n, c, t)
  }

  /** Every task of the plan is done, and the outputs are those of its tools. */
  ghost predicate AllDone(n: Neop, c: Core) {
    var m := ById(c.plan.tasks);
    && (forall id :: id in m ==> TaskDone(n, c, m[id]))
    && (forall id :: Lookup(c.outputs, id).Some? <==> id in m && m[id].HasTool())
  }

  lemma {:induction false} InputsKeys(text: Value, deps: seq<string>, outputs: Dict)
    ensures InputsOf(text, deps, outputs).Keys == {"text"} + (set d | d in deps)
    ensures "text" !in deps ==> InputsOf(text, deps, outputs)["text"] == text
  {
    if deps == [] {
    } else {
      var k := |deps| - 1;
      InputsKeys(text, deps[..k], outputs);
      assert deps == deps[..k] + [deps[k]];
    }
  }

  /** What the run hands a task is what the description says, and nothing else is. */
  lemma HandedExactly(c: Core, t: Task, inputs: Inputs)
    ensures Handed(c, t, inputs) <==> inputs == InputsOf(c.who.msg.text, t.deps, c.outputs)
  {
    var m := InputsOf(c.who.msg.text, t.deps, c.outputs);
    InputsKeys(c.who.msg.text, t.deps, c.outputs);
    forall d | d in t.deps ensures m[d] == Lookup(c.outputs, d).GetOr(Null) {
      InputsAt(c.who.msg.text, t.deps, c.outputs, d);
    }
    if Handed(c, t, inputs) {
      forall k | k in m ensures inputs[k] == m[k] {
        if k !in t.deps { assert k == "text"; }
      }
      assert inputs == m;
    }
  }

  /** The two cores are of one attempt, and task t and its dependencies have the same outputs in both. */
  ghost predicate Alike(c: Core, c': Core, t: Task) {
    SameButOutputs(c, c') && forall d :: d == t.id || d in t.deps ==> Lookup(c'.outputs, d) == Lookup(c.outputs, d)
  }

  lemma DoneAlike(n: Neop, c: Core, c': Core, t: Task)
    requires TaskDone(n, c, t) && Alike(c, c', t)
    ensures TaskDone(n, c', t)
  {
    if t.HasTool() {
      var inputs :| Called(n, c, t, inputs);
      assert Called(n, c', t, inputs);
    }
  }

  // ---- the first tasks of an order done -----------------------------------------------------

  /** One of the first j tasks has this id and calls a tool. */
  ghost predicate Ran(order: seq<Task>, j: nat, id: string)
    requires j <= |order|
  {
    exists i :: 0 <= i < j && order[i].id == id && order[i].HasTool()
  }

  /** The ids of those tasks that call a tool, in order. */
  function ToolIds(tasks: seq<Task>): seq<string> {
    if tasks == [] then []
    else
      var t := tasks[|tasks| - 1];
      ToolIds(tasks[..|tasks| - 1]) + (if t.HasTool() then [t.id] else [])
  }

  function Keys(d: Dict): seq<string> {
    seq(|d|, i requires 0 <= i < |d| => d[i].0)
  }

  ghost predicate DoneTo(n: Neop, c: Core, order: seq<Task>, j: nat) {
    && j <= |order|
    && (forall i :: 0 <= i < j ==> TaskDone(n, c, order[i]))
    && (forall id :: Lookup(c.outputs, id).Some? <==> Ran(order, j, id))
    && Keys(c.outputs) == ToolIds(order[..j])
  }

  lemma ToolIdsStep(order: seq<Task>, j: nat)
    requires j < |order|
    ensures ToolIds(order[..j + 1]) == ToolIds(order[..j]) + (if order[j].HasTool() then [order[j].id] else [])
  {
    assert order[..j + 1][..j] == order[..j];
  }

  /** A task later in the order is no dependency of an earlier one, nor of itself. */
  lemma NoLaterDep(tasks: seq<Task>, order: seq<Task>, i: nat, j: nat)
    requires Topological(tasks, order) && i <= j < |order|
    ensures order[j].id !in order[i].deps && (i < j ==> order[j].id != order[i].id)
  {
    assert order[j].id in order[i].deps <==> Edge(ById(tasks), order[i].id, order[j].id);
  }

  /** What a call that goes on has done. */
  lemma CallMeans(n: Neop, r: Run, t: Task) returns (out: Value)
    requires t.HasTool()
    ensures var (ok, r1) := CallTool(n, r, t);
            var inputs := InputsOf(r.core.who.msg.text, t.deps, r.core.outputs);
            ok ==>
              && r1.core == r.core.(outputs := Put(r.core.outputs, t.id, out))
              && t.tool.value in n.allowlist && !Blocks(out) && n.tool(r.core.replans, t.tool.value, inputs) == Returns(out)
  {
    var inputs := InputsOf(r.core.who.msg.text, t.deps, r.core.outputs);
    var reply := Invoke(n, r.core.replans, t.tool.value, inputs);
    out := if reply.Returns? then reply.value else Null;
  }

  /** The call of order[j] leaves the tasks before it done, and it is the next output. */
  lemma DoneCall(n: Neop, r: Run, order: seq<Task>, j: nat)
    requires Topological(r.core.plan.tasks, order) && j < |order| && DoneTo(n, r.core, order, j) && order[j].HasTool()
    ensures var (ok, r1) := CallTool(n, r, order[j]);
            ok ==>
              && (forall i :: 0 <= i < j ==> TaskDone(n, r1.core, order[i]))
              && (exists inputs :: Called(n, r1.core, order[j], inputs))
              && (forall id :: Lookup(r1.core.outputs, id).Some? <==> Ran(order, j + 1, id))
              && Keys(r1.core.outputs) == Keys(r.core.outputs) + [order[j].id]
  {
    hide TaskDone, ToolIds, CallTool, Ran;
    var t := order[j];
    var (ok, r1) := CallTool(n, r, t);
    var out := CallMeans(n, r, t);
    if ok {
      forall d ensures Lookup(r1.core.outputs, d) == if d == t.id then Some(out) else Lookup(r.core.outputs, d) {
        LookupPut(r.core.outputs, t.id, out, d);
      }
      forall i | 0 <= i < j ensures TaskDone(n, r1.core, order[i]) {
        NoLaterDep(r.core.plan.tasks, order, i, j);
        DoneAlike(n, r.core, r1.core, order[i]);
      }
      forall id ensures Ran(order, j + 1, id) <==> Ran(order, j, id) || id == t.id {
        RanStep(order, j, id);
      }
      CalledNow(n, r.core, t, out, order, j);
      NotRunYet(r.core.plan.tasks, order, j);
      PutNew(r.core.outputs, t.id, out);
    }
  }

  lemma NotRunYet(tasks: seq<Task>, order: seq<Task>, j: nat)
    requires Topological(tasks, order) && j < |order|
    ensures !Ran(order, j, order[j].id)
  {
  }

  lemma CalledNow(n: Neop, c: Core, t: Task, out: Value, order: seq<Task>, j: nat)
    requires Topological(c.plan.tasks, order) && j < |order| && t == order[j] && t.HasTool()
    requires t.tool.value in n.allowlist && !Blocks(out)
    requires n.tool(c.replans, t.tool.value, InputsOf(c.who.msg.text, t.deps, c.outputs)) == Returns(out)
    ensures exists inputs :: Called(n, c.(outputs := Put(c.outputs, t.id, out)), t, inputs)
  {
    var c1, inputs := c.(outputs := Put(c.outputs, t.id, out)), InputsOf(c.who.msg.text, t.deps, c.outputs);
    NoLaterDep(c.plan.tasks, order, j, j);
    forall d ensures Lookup(c1.outputs, d) == if d == t.id then Some(out) else Lookup(c.outputs, d) {
      LookupPut(c.outputs, t.id, out, d);
    }
    HandedExactly(c, t, inputs);
    assert Called(n, c1, t, inputs);
  }

  lemma RanStep(order: seq<Task>, j: nat, id: string)
    requires j < |order|
    ensures Ran(order, j + 1, id) <==> Ran(order, j, id) || (id == order[j].id && order[j].HasTool())
  {
    if Ran(order, j, id) || (id == order[j].id && order[j].HasTool()) { assert Ran(order, j + 1, id); }
  }

  lemma DoneSkip(n: Neop, c: Core, order: seq<Task>, j: nat)
    requires j < |order| && DoneTo(n, c, order, j) && !order[j].HasTool() && Verified(n, c, order[j])
    ensures DoneTo(n, c, order, j + 1)
  {
    hide Ran, Verified, ToolIds;
    ToolIdsStep(order, j);
    forall id ensures Ran(order, j + 1, id) <==> Ran(order, j, id) { RanStep(order, j, id); }
    assert TaskDone(n, c, order[j]) by { assert Verified(n, c, order[j]); }
  }

  lemma VerifyMeans(n: Neop, r: Run, t: Task)
    ensures var (ok, r1) := Verify(n, r, t); r1.core == r.core && (ok ==> Verified(n, r.core, t))
  {
  }

  lemma DoneBody(n: Neop, r: Run, order: seq<Task>, j: nat)
    requires Topological(r.core.plan.tasks, order) && j < |order| && DoneTo(n, r.core, order, j)
    ensures var (ok, r1) := Body(n, r, order[j]); ok ==> DoneTo(n, r1.core, order, j + 1)
  {
    hide CallTool, Verify, Verified, Called, Ran, Topological, ToolIds;
    var t := order[j];
    if t.HasTool() {
      DoneCall(n, r, order, j);
      ToolIdsStep(order, j);
      VerifyMeans(n, CallTool(n, r, t).1, t);
    } else {
      VerifyMeans(n, r, t);
      if Verify(n, r, t).0 { DoneSkip(n, r.core, order, j); }
    }
  }

  lemma DoneTask(n: Neop, b: Broker, r: Run, order: seq<Task>, j: nat, skip: bool)
    requires Topological(r.core.plan.tasks, order) && j < |order| && DoneTo(n, r.core, order, j) && r.err.None?
    ensures var (ok, r1) := ExecTask(n, b, r, order[j], skip);
            && (ok ==> DoneTo(n, r1.core, order, j + 1) && r1.err.None?)
            && (Paused(r1) ==> !ok && DoneTo(n, r1.core, order, j) && r1.saved.Some? && r1.saved.value.taskId == Some(order[j].id))
  {
    hide Body, DoneTo;
    var t, r0 := order[j], r.(state := Executing);
    var (go, r1) := GateTask(n, b, r0, t, skip);
    if b.On? { GateOutcome(n, b, r0, ActionPause, TaskAction(r.core.who, t), Some(t.id)); }
    if go {
      DoneBody(n, r1, order, j);
      BodyGoesOn(n, r1, t);
    }
  }

  lemma BodyGoesOn(n: Neop, r: Run, t: Task)
    requires r.err.None? && !Stopped(r)
    ensures var (ok, r1) := Body(n, r, t); !Stopped(r1) && (ok ==> r1.err.None?)
  {
  }

  lemma {:induction false} DoneExec(n: Neop, b: Broker, r: Run, order: seq<Task>, j: nat, skip: bool)
    requires j <= |order| && Distinct(order)
    requires Topological(r.core.plan.tasks, order) && DoneTo(n, r.core, order, j) && r.err.None?
    ensures var (ok, r1) := ExecFrom(n, b, r, order[j..], skip);
            && (ok ==> DoneTo(n, r1.core, order, |order|))
            && (!ok && Paused(r1) ==> r1.saved.Some? && r1.saved.value.taskId.Some?
                                      && DoneTo(n, r1.core, order, IndexOf(order, r1.saved.value.taskId.value)))
    decreases |order| - j
  {
    hide ExecTask, DoneTo, Topological;
    if j < |order| {
      DoneTask(n, b, r, order, j, skip);
      var (ok, r1) := ExecTask(n, b, r, order[j], skip);
      assert order[j..][0] == order[j] && order[j..][1..] == order[j + 1..];
      if ok { DoneExec(n, b, r1, order, j + 1, false); } else { IndexOfAt(order, j); }
    }
  }

  // ---- whole runs ---------------------------------------------------------------------------

  /** The plan is the planner's answer in this attempt, or the one-task plan of a role that does not plan. */
  ghost predicate PlannedBy(n: Neop, c: Core) {
    if n.plans then n.planner(c.replans, c.twin, c.who.msg) == Returns(c.plan) else c.plan == ImplicitPlan(n)
  }

  /** A run paused inside an attempt has done all the tasks before the pending one. */
  ghost predicate PausedDone(n: Neop, r: Run) {
    Paused(r) && r.saved.Some? && r.saved.value.scope == ActionPause ==>
      && r.saved.value.taskId.Some?
      && TopoOrder(r.core.plan.tasks).Success?
      && var order := TopoOrder(r.core.plan.tasks).value;
         DoneTo(n, r.core, order, IndexOf(order, r.saved.value.taskId.value))
  }

  /** The outputs came in the plan's order. */
  ghost predicate InPlanOrder(c: Core) {
    TopoOrder(c.plan.tasks).Success? && Keys(c.outputs) == ToolIds(TopoOrder(c.plan.tasks).value)
  }

  lemma OrderDone(n: Neop, c: Core, order: seq<Task>)
    requires TopoOrder(c.plan.tasks) == Success(order) && Topological(c.plan.tasks, order) && DoneTo(n, c, order, |order|)
    ensures AllDone(n, c) && InPlanOrder(c)
  {
    assert order[..|order|] == order;
    hide TaskDone;
    var m := ById(c.plan.tasks);
    forall id | id in m ensures TaskDone(n, c, m[id]) {
      assert Earlier(order, |order|, id);
    }
    forall id ensures Ran(order, |order|, id) <==> id in m && m[id].HasTool() {
      if id in m && m[id].HasTool() { assert Earlier(order, |order|, id); }
    }
  }

  /** An attempt that succeeds has done all of its plan. */
  lemma DoneExecute(n: Neop, b: Broker, r: Run)
    requires r.err.None?
    ensures var (ok, r1) := Execute(n, b, r, None);
            (ok ==> AllDone(n, r1.core) && InPlanOrder(r1.core)) && (!ok ==> PausedDone(n, r1))
  {
    hide ExecFrom, TopoOrder, DoneTo, AllDone, Topological;
    var order := TopoOrder(r.core.plan.tasks);
    if order.Success? {
      OrderIsTopological(r.core.plan.tasks);
      DoneNothing(n, r.core, order.value);
      assert order.value[0..] == order.value;
      var r0 := r.(core := r.core.(outputs := []));
      TopologicalIsDistinct(r.core.plan.tasks, order.value);
      DoneExec(n, b, r0, order.value, 0, false);
      var (ok, r1) := ExecFrom(n, b, r0, order.value, false);
      if ok { OrderDone(n, r1.core, order.value); }
    }
  }

  lemma TopologicalIsDistinct(tasks: seq<Task>, order: seq<Task>)
    requires Topological(tasks, order)
    ensures Distinct(order)
  {
  }

  lemma DoneNothing(n: Neop, c: Core, order: seq<Task>)
    ensures DoneTo(n, c.(outputs := []), order, 0)
  {
  }

  /** Done means done, for a run that may yet be taken up again. */
  ghost predicate RunDone(n: Neop, r: Run) {
    && PausedDone(n, r)
    && (r.err.None? && r.state == Done ==> AllDone(n, r.core) && InPlanOrder(r.core))
    && (r.err.None? && (r.state == Done || Paused(r)) ==> PlannedBy(n, r.core))
  }

  lemma PlanMeans(n: Neop, r: Run)
    requires n.plans && r.err.None?
    ensures var r1 := MakePlan(n, r);
            && r1.core == r.core.(plan := r1.core.plan) && r1.state == Planning
            && (r1.err.None? ==> PlannedBy(n, r1.core))
            && (r1.err.Some? ==> r1.err == Some(PlannerRaised)
                                 && n.planner(r1.core.replans, r1.core.twin, r1.core.who.msg) == Raises)
  {
  }

  lemma ReplanDone(n: Neop, b: Broker, r: Run)
    requires r.err.None? && n.plans
    ensures var (go, r1) := Replan(n, b, r);
            && (go ==> r1.err.None? && PlannedBy(n, r1.core))
            && (!go ==> RunDone(n, r1) && (r1.err.None? ==> r1.state != Done))
  {
    hide AllDone, DoneTo, Gate, TopoOrder, MakePlan, PlannedBy;
    var r0 := r.(core := r.core.(replans := r.core.replans + 1));
    if r0.core.replans <= n.maxReplans {
      var r1 := Emit(r0, ReplanStarted(r0.core.replans)).(state := Replanning);
      PlanMeans(n, r1);
      var r2 := MakePlan(n, r1);
      if b.On? && r2.err.None? { GateOutcome(n, b, r2, PlanPause, PlanAction(n, r2.core), None); }
    }
  }

  lemma {:induction false} AfterDone(n: Neop, b: Broker, out: (bool, Run))
    requires out.1.err.None? ==> PlannedBy(n, out.1.core)
    requires if out.0 then AllDone(n, out.1.core) && InPlanOrder(out.1.core) else PausedDone(n, out.1)
    ensures RunDone(n, AfterAttempt(n, b, out))
    decreases Budget(n, out.1), 0
  {
    hide AllDone, DoneTo, TopoOrder, Gate;
    if Replans(n, out) {
      ReplanDone(n, b, out.1);
      var (go, r1) := Replan(n, b, out.1);
      if go { DriveDone(n, b, r1); }
    }
  }

  lemma {:induction false} DriveDone(n: Neop, b: Broker, r: Run)
    requires r.err.None? && PlannedBy(n, r.core)
    ensures RunDone(n, Drive(n, b, r, None))
    decreases Budget(n, r), 1
  {
    hide AllDone, DoneTo, TopoOrder, ExecFrom;
    DoneExecute(n, b, r);
    AfterDone(n, b, Execute(n, b, r, None));
  }

  lemma ConcludeDone(n: Neop, mem: Mem, r: Run)
    requires RunDone(n, r)
    ensures RunDone(n, Conclude(n, mem, r).run)
  {
    hide AllDone, DoneTo, TopoOrder;
    World.ConcludeKeeps(n, mem, r);
    if !Stopped(r) { ConcludeKeepsEnded(n, mem, r); }
  }

  lemma DispatchDone(n: Neop, b: Broker, mem: Mem, msg: Msg)
    ensures RunDone(n, Dispatch(n, b, mem, msg).run)
  {
    hide Assemble, AllDone, DoneTo, TopoOrder, Gate, Drive, Conclude;
    AssembleEmits(n, mem, msg);
    var r := Start(n, mem, msg);
    if r.err.None? {
      if b.On? { GateOutcome(n, b, r, PlanPause, PlanAction(n, r.core), None); }
      var (go, r1) := GatePlan(n, b, r);
      if go { DriveDone(n, b, r1); }
      ConcludeDone(n, mem, if go then Drive(n, b, r1, None) else r1);
    }
  }

  /** A resumed attempt goes on from the pending task. */
  lemma ResumedDone(n: Neop, b: Broker, r: Run, snap: Snapshot)
    requires Genuine(snap) && snap.scope == ActionPause && CoreOf(snap) == r.core && r.err.None? && PlannedBy(n, r.core)
    requires var order := TopoOrder(snap.plan.tasks).value; DoneTo(n, r.core, order, IndexOf(order, snap.taskId.value))
    ensures RunDone(n, Drive(n, b, r, snap.taskId))
  {
    hide AllDone, DoneTo, TopoOrder, ExecFrom, RunDone, InPlanOrder, PlannedBy, Topological;
    var order := TopoOrder(snap.plan.tasks).value;
    var k := IndexOf(order, snap.taskId.value);
    OrderIsTopological(snap.plan.tasks);
    TopologicalIsDistinct(snap.plan.tasks, order);
    DoneExec(n, b, r, order, k, true);
    var (ok, r2) := ExecFrom(n, b, r, order[k..], true);
    PlannedStill(n, r.core, r2.core);
    if ok { OrderDone(n, r2.core, order); }
    AfterDone(n, b, Execute(n, b, r, snap.taskId));
  }

  lemma PlannedStill(n: Neop, c: Core, c': Core)
    requires SameButOutputs(c', c) && PlannedBy(n, c)
    ensures PlannedBy(n, c')
  {
  }

  lemma ResumeDone(n: Neop, b: Broker, mem: Mem, r: Run)
    requires b.On? && Paused(r) && Resumable(r) && RunDone(n, r)
    ensures RunDone(n, Resume(n, b, mem, r.saved.value).run)
  {
    hide AllDone, DoneTo, TopoOrder, Resolve, Drive, Conclude, InPlanOrder;
    var snap := r.saved.value;
    var (go, r1) := Regrant(b, snap);
    if go {
      if snap.scope == ActionPause {
        ResumedDone(n, b, r1, snap);
        ConcludeDone(n, mem, Drive(n, b, r1, snap.taskId));
      } else {
        DriveDone(n, b, r1);
        ConcludeDone(n, mem, Drive(n, b, r1, None));
      }
    } else {
      ConcludeDone(n, mem, r1);
    }
  }

  lemma {:induction false} PlayDone(n: Neop, mem: Mem, rep: Report, bs: seq<Broker>, before: seq<Entry>)
    requires AllOn(bs) && Resumable(rep.run) && RunDone(n, rep.run)
    ensures var r := Play(n, mem, rep, bs, before).0.run; RunDone(n, r) && r.core.who == rep.run.core.who
    decreases |bs|
  {
    hide Resume, RunDone;
    if bs != [] && Paused(rep.run) {
      ResumeDone(n, bs[0], mem, rep.run);
      ResumeResumable(n, bs[0], mem, rep.run.saved.value);
      World.ResumeKeepsWho(n, bs[0], mem, rep.run.saved.value);
      PlayDone(n, mem, Resume(n, bs[0], mem, rep.run.saved.value), bs[1..], before + rep.run.log);
    }
  }

  /** A run that ends done, however often it paused and replanned, ends on a plan its planner made in that very
      attempt, every task of which is done: on the final outputs its listed tool gave the output to exactly the inputs
      described, and the verifier said yes; and the outputs stand in the plan's order. So a verifier that says no to any task of that plan keeps it from ending
      done. */
  lemma DoneMeansDone(n: Neop, b: Broker, bs: seq<Broker>, mem: Mem, msg: Msg)
    requires AllOn(bs)
    requires var r := Play(n, mem, Dispatch(n, b, mem, msg), bs, []).0.run; r.err.None? && r.state == Done
    ensures var c := Play(n, mem, Dispatch(n, b, mem, msg), bs, []).0.run.core;
            c.who == WhoOf(n, msg) && PlannedBy(n, c) && AllDone(n, c) && InPlanOrder(c)
  {
    hide Dispatch, Play, AllDone, InPlanOrder, PlannedBy, PausedDone;
    DispatchResumable(n, b, mem, msg);
    DispatchDone(n, b, mem, msg);
    World.DispatchKeepsWho(n, b, mem, msg);
    PlayDone(n, mem, Dispatch(n, b, mem, msg), bs, []);
  }

  // ---- an attempt that nobody gates completes exactly when its plan can be done --------------

  /** The outputs a run has after the first j tasks, seen from outputs under which everything is done. */
  ghost predicate Follows(c: Core, whole: Dict, order: seq<Task>, j: nat)
    requires j <= |order|
  {
    forall id :: Lookup(c.outputs, id) == if Ran(order, j, id) then Lookup(whole, id) else None
  }

  lemma DoneAt(n: Neop, c: Core, order: seq<Task>, j: nat)
    requires Topological(c.plan.tasks, order) && j < |order| && AllDone(n, c)
    ensures TaskDone(n, c, order[j])
  {
    hide TaskDone;
  }

  /** The dependencies of the next task have their final outputs already. */
  lemma FollowsDeps(n: Neop, c: Core, whole: Dict, order: seq<Task>, j: nat)
    requires Topological(c.plan.tasks, order) && j < |order| && Follows(c, whole, order, j)
    requires AllDone(n, c.(outputs := whole))
    ensures forall d :: d in order[j].deps ==> Lookup(c.outputs, d) == Lookup(whole, d)
  {
    hide TaskDone;
    var m, t := ById(c.plan.tasks), order[j];
    forall d | d in t.deps ensures Lookup(c.outputs, d) == Lookup(whole, d) {
      if d in m {
        assert Edge(m, t.id, d);
        assert Earlier(order, j, d);
      }
    }
  }

  lemma FollowsStep(c: Core, whole: Dict, order: seq<Task>, j: nat, c': Core)
    requires j < |order| && Follows(c, whole, order, j)
    requires var t := order[j];
             if t.HasTool()
             then Lookup(whole, t.id).Some? && c'.outputs == Put(c.outputs, t.id, Lookup(whole, t.id).value)
             else c'.outputs == c.outputs
    ensures Follows(c', whole, order, j + 1)
  {
    var t := order[j];
    forall id ensures Lookup(c'.outputs, id) == if Ran(order, j + 1, id) then Lookup(whole, id) else None {
      RanStep(order, j, id);
      if t.HasTool() { LookupPut(c.outputs, t.id, Lookup(whole, t.id).value, id); }
    }
  }

  lemma CompletesCall(n: Neop, r: Run, whole: Dict, order: seq<Task>, j: nat)
    requires Topological(r.core.plan.tasks, order) && j < |order| && Follows(r.core, whole, order, j)
    requires AllDone(n, r.core.(outputs := whole)) && order[j].HasTool()
    ensures var (ok, r1) := CallTool(n, r, order[j]);
            ok && r1.err == r.err && Follows(r1.core, whole, order, j + 1)
  {
    hide Topological, ById, TopoOrder, AllDone;
    var t, c := order[j], r.core.(outputs := whole);
    DoneAt(n, c, order, j);
    var inputs :| Called(n, c, t, inputs);
    FollowsDeps(n, r.core, whole, order, j);
    assert Handed(r.core, t, inputs);
    HandedExactly(r.core, t, inputs);
    FollowsStep(r.core, whole, order, j, CallTool(n, r, t).1.core);
  }

  lemma CompletesTask(n: Neop, r: Run, whole: Dict, order: seq<Task>, j: nat)
    requires Topological(r.core.plan.tasks, order) && j < |order| && Follows(r.core, whole, order, j) && r.err.None?
    requires AllDone(n, r.core.(outputs := whole))
    ensures var (ok, r1) := ExecTask(n, Off, r, order[j], false);
            ok && r1.err.None? && Follows(r1.core, whole, order, j + 1)
  {
    hide CallTool;
    var t, c, r0 := order[j], r.core.(outputs := whole), r.(state := Executing);
    DoneAt(n, c, order, j);
    if t.HasTool() {
      CompletesCall(n, r0, whole, order, j);
      VerifiesNow(n, CallTool(n, r0, t).1, whole, order, j);
    } else {
      FollowsStep(r.core, whole, order, j, r.core);
      VerifiesNow(n, r0, whole, order, j);
    }
  }

  lemma VerifiesNow(n: Neop, r: Run, whole: Dict, order: seq<Task>, j: nat)
    requires Topological(r.core.plan.tasks, order) && j < |order| && Follows(r.core, whole, order, j + 1)
    requires AllDone(n, r.core.(outputs := whole))
    ensures var (ok, r1) := Verify(n, r, order[j]); ok && r1.err == r.err && r1.core == r.core
  {
    DoneAt(n, r.core.(outputs := whole), order, j);
    OwnOutput(n, r.core, whole, order, j);
    hide Topological, Follows, AllDone, ById;
  }

  lemma OwnOutput(n: Neop, c: Core, whole: Dict, order: seq<Task>, j: nat)
    requires Topological(c.plan.tasks, order) && j < |order| && Follows(c, whole, order, j + 1)
    requires AllDone(n, c.(outputs := whole))
    ensures Lookup(c.outputs, order[j].id) == Lookup(whole, order[j].id)
  {
    hide TaskDone;
    RanStep(order, j, order[j].id);
    NotRunYet(c.plan.tasks, order, j);
  }

  lemma {:induction false} CompletesExec(n: Neop, r: Run, whole: Dict, order: seq<Task>, j: nat)
    requires Topological(r.core.plan.tasks, order) && j <= |order| && Follows(r.core, whole, order, j) && r.err.None?
    requires AllDone(n, r.core.(outputs := whole))
    ensures ExecFrom(n, Off, r, order[j..], false).0
    decreases |order| - j
  {
    hide ExecTask, Topological, AllDone, Follows;
    if j < |order| {
      CompletesTask(n, r, whole, order, j);
      var (ok, r1) := ExecTask(n, Off, r, order[j], false);
      assert order[j..][0] == order[j] && order[j..][1..] == order[j + 1..];
      CompletesExec(n, r1, whole, order, j + 1);
    }
  }

  /** An attempt at an acyclic plan without a broker succeeds if and only if there are outputs under which every task of
      the plan is done. */
  lemma CompletesExactly(n: Neop, r: Run)
    requires r.err.None? && TopoOrder(r.core.plan.tasks).Success?
    ensures Execute(n, Off, r, None).0 <==> exists whole :: AllDone(n, r.core.(outputs := whole))
  {
    hide ExecFrom, TopoOrder, AllDone, Topological;
    var (ok, r1) := Execute(n, Off, r, None);
    if ok {
      DoneExecute(n, Off, r);
      assert r1.core == r.core.(outputs := r1.core.outputs);
    }
    if whole :| AllDone(n, r.core.(outputs := whole)) {
      var order, r0 := TopoOrder(r.core.plan.tasks).value, r.(core := r.core.(outputs := []));
      OrderIsTopological(r.core.plan.tasks);
      assert order[0..] == order;
      CompletesExec(n, r0, whole, order, 0);
    }
  }
}

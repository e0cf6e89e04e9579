/** Why a run ends as it does: every exception and every failure has its one reason in the plan and the oracles. */
module Endings {
  import opened Wrappers
  import opened Json
  import opened Approval
  import opened Plans
  import opened PlanOrder
  import opened Memory
  import opened Agent
  import opened Transparency
  import opened Settled

  // ---- how a task can come to nothing -------------------------------------------------------

  datatype How = Blocked | NoReason | ToolFails | SaysNo | VerifierFails

  /** The task's tool, a listed one, replies so to what the run hands it. */
  ghost predicate Replies(n: Neop, c: Core, t: Task, reply: Reply<Value>) {
    && t.HasTool() && t.tool.value in n.allowlist
    && exists inputs :: Handed(c, t, inputs) && n.tool(c.replans, t.tool.value, inputs) == reply
  }

  /** The task has its output, if it calls a tool, and the verifier replies so to it. */
  ghost predicate Judges(n: Neop, c: Core, t: Task, reply: Reply<bool>) {
    && (t.HasTool() ==> exists inputs :: Called(n, c, t, inputs))
    && n.verifies && n.verifier(c.replans, c.twin, c.who.msg, t, Lookup(c.outputs, t.id)) == reply
  }

  ghost predicate Fails(n: Neop, c: Core, t: Task, how: How) {
    match how
    case Blocked =>
      t.HasTool() && (t.tool.value !in n.allowlist
                      || exists out :: Replies(n, c, t, Returns(out)) && Blocks(out) && "reason" in out.fields)
    case NoReason => exists out :: Replies(n, c, t, Returns(out)) && Blocks(out) && "reason" !in out.fields
    case ToolFails => Replies(n, c, t, Raises)
    case SaysNo => Judges(n, c, t, Returns(false))
    case VerifierFails => Judges(n, c, t, Raises)
  }

  /** How the run shows it. */
  predicate ShowsAs(r: Run, how: How) {
    match how
    case Blocked => r.err.None? && r.state == Failed
    case NoReason => r.err == Some(BlockedWithoutReason)
    case ToolFails => r.err == Some(ToolRaised)
    case SaysNo => r.err.None? && r.state != Failed
    case VerifierFails => r.err == Some(VerifierRaised)
  }

  /** The tasks before order[j] are done, and order[j] comes to nothing. */
  ghost predicate StuckAt(n: Neop, c: Core, order: seq<Task>, j: nat, how: How) {
    j < |order| && (forall i :: 0 <= i < j ==> TaskDone(n, c, order[i])) && Fails(n, c, order[j], how)
  }

  /** The plan gets stuck so on these outputs. */
  ghost predicate Stuck(n: Neop, c: Core, how: How) {
    TopoOrder(c.plan.tasks).Success? && exists j: nat :: StuckAt(n, c, TopoOrder(c.plan.tasks).value, j, how)
  }

  lemma RepliesOnce(n: Neop, c: Core, t: Task, a: Reply<Value>, b: Reply<Value>)
    requires Replies(n, c, t, a) && Replies(n, c, t, b)
    ensures a == b
  {
    var x :| Handed(c, t, x) && n.tool(c.replans, t.tool.value, x) == a;
    var y :| Handed(c, t, y) && n.tool(c.replans, t.tool.value, y) == b;
    HandedExactly(c, t, x);
    HandedExactly(c, t, y);
  }

  lemma CalledReplies(n: Neop, c: Core, t: Task, inputs: Inputs)
    requires t.HasTool() && Called(n, c, t, inputs)
    ensures Replies(n, c, t, Returns(Lookup(c.outputs, t.id).value))
  {
  }

  /** A task that comes to nothing is not done, and does so in one way only. */
  lemma FailsOnce(n: Neop, c: Core, t: Task, how: How, how': How)
    requires Fails(n, c, t, how)
    ensures !TaskDone(n, c, t) && (Fails(n, c, t, how') ==> how' == how)
  {
    hide Handed;
    forall a, b | Replies(n, c, t, a) && Replies(n, c, t, b) ensures a == b { RepliesOnce(n, c, t, a, b); }
    if t.HasTool() {
      forall inputs | Called(n, c, t, inputs) ensures Replies(n, c, t, Returns(Lookup(c.outputs, t.id).value)) {
        CalledReplies(n, c, t, inputs);
      }
    }
    hide Replies;
  }

  /** Two places of one order cannot both be where the plan gets stuck. */
  lemma StuckAtOnce(n: Neop, c: Core, order: seq<Task>, j: nat, how: How, j': nat, how': How)
    requires StuckAt(n, c, order, j, how) && StuckAt(n, c, order, j', how')
    ensures j' == j && how' == how
  {
    hide Fails, TaskDone;
    FailsOnce(n, c, order[j], how, how');
    FailsOnce(n, c, order[j'], how', how);
  }

  lemma StuckAtNotDone(n: Neop, c: Core, order: seq<Task>, j: nat, how: How)
    requires Topological(c.plan.tasks, order) && StuckAt(n, c, order, j, how)
    ensures !AllDone(n, c)
  {
    hide Fails, TaskDone;
    FailsOnce(n, c, order[j], how, how);
    assert order[j].id in ById(c.plan.tasks) && order[j] == ById(c.plan.tasks)[order[j].id];
  }

  /** A plan gets stuck at one place and in one way only, and a plan that gets stuck is not done. */
  lemma StuckOnce(n: Neop, c: Core, how: How, how': How)
    requires Stuck(n, c, how)
    ensures !AllDone(n, c) && (Stuck(n, c, how') ==> how' == how)
  {
    hide StuckAt, AllDone, TopoOrder, Topological;
    var order := TopoOrder(c.plan.tasks).value;
    var j: nat :| StuckAt(n, c, order, j, how);
    OrderIsTopological(c.plan.tasks);
    StuckAtNotDone(n, c, order, j, how);
    if Stuck(n, c, how') {
      var j': nat :| StuckAt(n, c, order, j', how');
      StuckAtOnce(n, c, order, j, how, j', how');
    }
  }

  // ---- one task, one attempt ----------------------------------------------------------------

  lemma CallFails(n: Neop, r: Run, t: Task) returns (how: How)
    requires t.HasTool() && r.err.None?
    ensures var (ok, r1) := CallTool(n, r, t);
            !ok ==> r1.core == r.core && Fails(n, r.core, t, how) && ShowsAs(r1, how) && how !in {SaysNo, VerifierFails}
  {
    var inputs := InputsOf(r.core.who.msg.text, t.deps, r.core.outputs);
    HandedExactly(r.core, t, inputs);
    var reply := Invoke(n, r.core.replans, t.tool.value, inputs);
    assert t.tool.value in n.allowlist ==> Replies(n, r.core, t, reply);
    how := if reply.Raises? then ToolFails
           else if t.tool.value !in n.allowlist || (reply.value.Obj? && "reason" in reply.value.fields) then Blocked else NoReason;
    hide Handed, Replies, InputsOf;
  }

  lemma VerifyFails(n: Neop, r: Run, t: Task) returns (how: How)
    requires r.err.None? && r.state != Failed && (t.HasTool() ==> exists inputs :: Called(n, r.core, t, inputs))
    ensures var (ok, r1) := Verify(n, r, t);
            !ok ==> r1.core == r.core && Fails(n, r.core, t, how) && ShowsAs(r1, how)
  {
    var reply := n.verifier(r.core.replans, r.core.twin, r.core.who.msg, t, Lookup(r.core.outputs, t.id));
    how := if reply.Raises? then VerifierFails else SaysNo;
    hide Called;
  }

  /** Neither stopped at a gate nor met by a malformed action. */
  predicate Unhindered(r: Run) {
    if r.err.Some? then r.err != Some(MalformedAction) else !Stopped(r)
  }

  lemma BodyFails(n: Neop, r: Run, order: seq<Task>, j: nat) returns (how: How)
    requires Topological(r.core.plan.tasks, order) && j < |order| && DoneTo(n, r.core, order, j)
    requires r.err.None? && r.state == Executing
    ensures var (ok, r1) := Body(n, r, order[j]); !ok ==> StuckAt(n, r1.core, order, j, how) && ShowsAs(r1, how)
  {
    hide CallTool, Verify, Fails, Called, Topological, TaskDone;
    var t := order[j];
    if t.HasTool() {
      how := CallFails(n, r, t);
      var (ok, r1) := CallTool(n, r, t);
      DoneCall(n, r, order, j);
      if ok {
        CallGoesOn(n, r, t);
        how := VerifyFails(n, r1, t);
      }
    } else {
      how := VerifyFails(n, r, t);
    }
  }

  lemma CallGoesOn(n: Neop, r: Run, t: Task)
    requires r.err.None?
    ensures var (ok, r1) := CallTool(n, r, t); ok ==> r1.err.None? && r1.state == r.state
  {
  }

  lemma TaskFails(n: Neop, b: Broker, r: Run, order: seq<Task>, j: nat, skip: bool) returns (how: How)
    requires Topological(r.core.plan.tasks, order) && j < |order| && DoneTo(n, r.core, order, j) && r.err.None?
    ensures var (ok, r1) := ExecTask(n, b, r, order[j], skip);
            !ok && Unhindered(r1) ==> StuckAt(n, r1.core, order, j, how) && ShowsAs(r1, how)
  {
    hide Body, DoneTo, Topological, StuckAt;
    var t, r0 := order[j], r.(state := Executing);
    var (go, r1) := GateTask(n, b, r0, t, skip);
    if b.On? { GateOutcome(n, b, r0, ActionPause, TaskAction(r.core.who, t), Some(t.id)); }
    how := Blocked;
    if go { how := BodyFails(n, r1, order, j); }
  }

  lemma {:induction false} ExecFails(n: Neop, b: Broker, r: Run, order: seq<Task>, j: nat, skip: bool)
    requires j <= |order| && Topological(r.core.plan.tasks, order) && DoneTo(n, r.core, order, j) && r.err.None?
    ensures var (ok, r1) := ExecFrom(n, b, r, order[j..], skip);
            !ok && Unhindered(r1) ==> exists k: nat, how :: StuckAt(n, r1.core, order, k, how) && ShowsAs(r1, how)
    decreases |order| - j
  {
    hide ExecTask, DoneTo, Topological, StuckAt, ShowsAs;
    if j < |order| {
      var how := TaskFails(n, b, r, order, j, skip);
      DoneTask(n, b, r, order, j, skip);
      var (ok, r1) := ExecTask(n, b, r, order[j], skip);
      assert order[j..][0] == order[j] && order[j..][1..] == order[j + 1..];
      if ok { ExecFails(n, b, r1, order, j + 1, false); }
    }
  }

  /** An attempt that fails of itself got stuck, or its plan has a cycle. */
  ghost predicate AttemptFails(n: Neop, r: Run) {
    if r.err.Some? && r.err.value.CycleInPlan?
    then exists cycle :: IsCycle(ById(r.core.plan.tasks), cycle) && cycle[0] == r.err.value.id
    else exists how :: Stuck(n, r.core, how) && ShowsAs(r, how)
  }

  lemma ExecuteFails(n: Neop, b: Broker, r: Run)
    requires r.err.None?
    ensures var (ok, r1) := Execute(n, b, r, None); !ok && Unhindered(r1) ==> AttemptFails(n, r1)
  {
    hide ExecFrom, TopoOrder, DoneTo, Topological, StuckAt, IsCycle;
    var order := TopoOrder(r.core.plan.tasks);
    if order.Success? {
      OrderIsTopological(r.core.plan.tasks);
      DoneNothing(n, r.core, order.value);
      assert order.value[0..] == order.value;
      ExecFails(n, b, r.(core := r.core.(outputs := [])), order.value, 0, false);
    } else {
      var cycle := FailureHasCycle(r.core.plan.tasks);
    }
  }

  // ---- whole runs ---------------------------------------------------------------------------

  /** Why a run stands where it does, before anything is written: its exceptions, FAILED and ESCALATED. */
  ghost predicate Explained(n: Neop, r: Run) {
    var c := r.core;
    match r.err
    case Some(PlannerRaised) => n.plans && n.planner(c.replans, c.twin, c.who.msg) == Raises
    case Some(CycleInPlan(id)) => PlannedBy(n, c) && exists cycle :: IsCycle(ById(c.plan.tasks), cycle) && cycle[0] == id
    case Some(ToolRaised) => PlannedBy(n, c) && Stuck(n, c, ToolFails)
    case Some(VerifierRaised) => PlannedBy(n, c) && Stuck(n, c, VerifierFails)
    case Some(BlockedWithoutReason) => PlannedBy(n, c) && Stuck(n, c, NoReason)
    case Some(MalformedAction) => true
    case Some(BlankGrantor) => true
    case Some(_) => false
    case None =>
      && (r.state == Failed ==> PlannedBy(n, c) && (Stuck(n, c, Blocked) || (!n.plans && Stuck(n, c, SaysNo))))
      && (r.state == Escalated ==>
            && n.plans && c.replans > 0 && c.replans > n.maxReplans
            && PlannedBy(n, c.(replans := c.replans - 1)) && Stuck(n, c.(replans := c.replans - 1), SaysNo))
  }

  lemma ReplanExplained(n: Neop, b: Broker, r: Run)
    requires r.err.None? && n.plans && PlannedBy(n, r.core) && Stuck(n, r.core, SaysNo)
    ensures var (go, r1) := Replan(n, b, r);
            (go ==> r1.err.None? && PlannedBy(n, r1.core)) && (!go ==> Explained(n, r1))
  {
    hide Stuck, Gate, MakePlan, PlannedBy;
    var k := r.core.replans + 1;
    var r0 := r.(core := r.core.(replans := k));
    assert r0.core.(replans := k - 1) == r.core;
    if k <= n.maxReplans {
      var r1 := Emit(r0, ReplanStarted(k)).(state := Replanning);
      PlanMeans(n, r1);
      var r2 := MakePlan(n, r1);
      if b.On? && r2.err.None? { GateOutcome(n, b, r2, PlanPause, PlanAction(n, r2.core), None); }
    }
  }

  lemma {:induction false} AfterExplained(n: Neop, b: Broker, out: (bool, Run))
    requires PlannedBy(n, out.1.core) && (out.0 ==> out.1.err.None?)
    requires !out.0 && Unhindered(out.1) ==> AttemptFails(n, out.1)
    ensures Explained(n, AfterAttempt(n, b, out))
    decreases Budget(n, out.1), 0
  {
    hide Stuck, IsCycle, PlannedBy;
    var r := out.1;
    if Replans(n, out) {
      ReplanExplained(n, b, r);
      var (go, r1) := Replan(n, b, r);
      ReplanCounts(n, b, r);
      if go { DriveExplained(n, b, r1); }
    }
  }

  lemma ReplanCounts(n: Neop, b: Broker, r: Run)
    ensures var (go, r1) := Replan(n, b, r); go ==> r1.core.replans == r.core.replans + 1 <= n.maxReplans
  {
    hide Gate;
  }

  lemma {:induction false} DriveExplained(n: Neop, b: Broker, r: Run)
    requires r.err.None? && PlannedBy(n, r.core)
    ensures Explained(n, Drive(n, b, r, None))
    decreases Budget(n, r), 1
  {
    hide Explained, AttemptFails, Execute, PlannedBy;
    var out := Execute(n, b, r, None);
    ExecuteFails(n, b, r);
    ExecuteSucceeds(n, b, r, None);
    PlannedStill(n, r.core, out.1.core);
    AfterExplained(n, b, out);
  }

  lemma {:induction false} ExecSucceeds(n: Neop, b: Broker, r: Run, tasks: seq<Task>, skip: bool)
    requires r.err.None?
    ensures var (ok, r1) := ExecFrom(n, b, r, tasks, skip); ok ==> r1.err.None?
    decreases |tasks|
  {
    hide Gate;
    if tasks != [] {
      var r0 := r.(state := Executing);
      var (go, r1) := GateTask(n, b, r0, tasks[0], skip);
      if b.On? { GateOutcome(n, b, r0, ActionPause, TaskAction(r.core.who, tasks[0]), Some(tasks[0].id)); }
      if go { BodyGoesOn(n, r1, tasks[0]); }
      var (ok, r2) := ExecTask(n, b, r, tasks[0], skip);
      if ok { ExecSucceeds(n, b, r2, tasks[1..], false); }
    }
  }

  lemma ExecuteSucceeds(n: Neop, b: Broker, r: Run, from: Option<string>)
    requires r.err.None?
    ensures var (ok, r1) := Execute(n, b, r, from); ok ==> r1.err.None?
  {
    hide ExecFrom, TopoOrder;
    var order := TopoOrder(r.core.plan.tasks);
    if order.Success? {
      if from.None? {
        ExecSucceeds(n, b, r.(core := r.core.(outputs := [])), order.value, false);
      } else if IndexOf(order.value, from.value) < |order.value| {
        ExecSucceeds(n, b, r, order.value[IndexOf(order.value, from.value)..], true);
      }
    }
  }

  /** A resumed attempt goes on from the pending task. */
  lemma ResumedExplained(n: Neop, b: Broker, r: Run, snap: Snapshot)
    requires Genuine(snap) && snap.scope == ActionPause && CoreOf(snap) == r.core && r.err.None? && PlannedBy(n, r.core)
    requires var order := TopoOrder(snap.plan.tasks).value; DoneTo(n, r.core, order, IndexOf(order, snap.taskId.value))
    ensures Explained(n, Drive(n, b, r, snap.taskId))
  {
    hide DoneTo, TopoOrder, ExecFrom, PlannedBy, Topological, StuckAt, Explained;
    var order := TopoOrder(snap.plan.tasks).value;
    var k := IndexOf(order, snap.taskId.value);
    OrderIsTopological(snap.plan.tasks);
    ExecFails(n, b, r, order, k, true);
    var (ok, r2) := ExecFrom(n, b, r, order[k..], true);
    PlannedStill(n, r.core, r2.core);
    ExecuteSucceeds(n, b, r, snap.taskId);
    AfterExplained(n, b, Execute(n, b, r, snap.taskId));
  }

  /** Why a report says what it says. */
  ghost predicate ReportExplained(n: Neop, rep: Report) {
    if rep.run.err == Some(DraftNotAnObject)
    then n.twinWrite && rep.run.core.outputs != [] && !rep.run.core.outputs[0].1.Obj?
    else if rep.twinAck.Some? && !rep.twinAck.value.Accepted? then rep.run.err.None? && rep.run.state == Failed
    else Explained(n, rep.run)
  }

  lemma TwinExplained(n: Neop, rep: Report)
    requires rep.twinAck.None? && rep.run.err.None? && Explained(n, rep.run)
    ensures var t := WriteTwin(n, rep); ReportExplained(n, t) && t.run.core == rep.run.core
  {
    hide Stuck, IsCycle, PlannedBy, PutTwin;
  }

  lemma MemoryKeeps(n: Neop, rep: Report)
    ensures var m := WriteMemory(n, rep);
            m.run.core == rep.run.core && m.run.state == rep.run.state && m.run.err == rep.run.err && m.twinAck == rep.twinAck
  {
    hide Write, Consolidate;
  }

  lemma ConcludeExplained(n: Neop, mem: Mem, r: Run)
    requires Explained(n, r)
    ensures ReportExplained(n, Conclude(n, mem, r))
  {
    hide Stuck, IsCycle, PlannedBy, WriteTwin, WriteMemory;
    if r.err.None? && !Stopped(r) {
      var rep := Report(r, mem, None, None);
      MemoryKeeps(n, rep);
      TwinExplained(n, WriteMemory(n, rep));
    }
  }

  lemma DispatchExplained(n: Neop, b: Broker, mem: Mem, msg: Msg)
    ensures ReportExplained(n, Dispatch(n, b, mem, msg))
  {
    hide Assemble, Stuck, IsCycle, Gate, Drive, Conclude;
    AssembleEmits(n, mem, msg);
    var r := Start(n, mem, msg);
    if r.err.None? {
      if b.On? { GateOutcome(n, b, r, PlanPause, PlanAction(n, r.core), None); }
      var (go, r1) := GatePlan(n, b, r);
      if go { DriveExplained(n, b, r1); }
      ConcludeExplained(n, mem, if go then Drive(n, b, r1, None) else r1);
    }
  }

  lemma ResumeExplained(n: Neop, b: Broker, mem: Mem, r: Run)
    requires b.On? && Paused(r) && Resumable(r) && RunDone(n, r)
    ensures ReportExplained(n, Resume(n, b, mem, r.saved.value))
  {
    hide AllDone, DoneTo, TopoOrder, Resolve, Drive, Conclude, InPlanOrder, ReportExplained;
    var snap := r.saved.value;
    var (go, r1) := Regrant(b, snap);
    if go {
      if snap.scope == ActionPause {
        ResumedExplained(n, b, r1, snap);
        ConcludeExplained(n, mem, Drive(n, b, r1, snap.taskId));
      } else {
        DriveExplained(n, b, r1);
        ConcludeExplained(n, mem, Drive(n, b, r1, None));
      }
    } else {
      ConcludeExplained(n, mem, r1);
    }
  }

  lemma {:induction false} PlayExplained(n: Neop, mem: Mem, rep: Report, bs: seq<Broker>, before: seq<Entry>)
    requires AllOn(bs) && Resumable(rep.run) && RunDone(n, rep.run) && ReportExplained(n, rep)
    ensures ReportExplained(n, Play(n, mem, rep, bs, before).0)
    decreases |bs|
  {
    hide Resume, RunDone, ReportExplained;
    if bs != [] && Paused(rep.run) {
      ResumeExplained(n, bs[0], mem, rep.run);
      ResumeDone(n, bs[0], mem, rep.run);
      ResumeResumable(n, bs[0], mem, rep.run.saved.value);
      PlayExplained(n, mem, Resume(n, bs[0], mem, rep.run.saved.value), bs[1..], before + rep.run.log);
    }
  }

  /** Across pauses and replans, a run ends as it does for the one reason there is: FAILED when its plan is blocked (or,
      for a role that does not plan, judged no), or its twin refused; ESCALATED when the last plan within the bound was
      judged no; and each exception when the planner raised, the plan has a cycle, a tool or the verifier raised, or a
      block came without a reason. */
  lemma EveryEndIsExplained(n: Neop, b: Broker, bs: seq<Broker>, mem: Mem, msg: Msg)
    requires AllOn(bs)
    ensures ReportExplained(n, Play(n, mem, Dispatch(n, b, mem, msg), bs, []).0)
  {
    hide Dispatch, Play, ReportExplained;
    DispatchResumable(n, b, mem, msg);
    DispatchDone(n, b, mem, msg);
    DispatchExplained(n, b, mem, msg);
    PlayExplained(n, mem, Dispatch(n, b, mem, msg), bs, []);
  }
}

/** Every run gets somewhere: bounded planning, bounded pausing, and an end. */
module Progress {
  import opened Wrappers
  import opened Approval
  import opened Plans
  import opened PlanOrder
  import opened Memory
  import opened Agent
  import opened Consent
  import opened Transparency

  /** The last attempt a run may make. */
  function LastAttempt(n: Neop): nat {
    Max(0, n.maxReplans)
  }

  // ---- planner calls and escalation -------------------------------------------------------

  function PlannerCalls(log: seq<Entry>): nat {
    if log == [] then 0
    else PlannerCalls(log[..|log| - 1]) + (if log[|log| - 1].Planned? then 1 else 0)
  }

  lemma {:induction false} CallsAppend(a: seq<Entry>, b: seq<Entry>)
    ensures PlannerCalls(a + b) == PlannerCalls(a) + PlannerCalls(b)
    decreases |b|
  {
    if b == [] {
      assert a + b == a;
    } else {
      var k := |b| - 1;
      assert (a + b)[..|a + b| - 1] == a + b[..k];
      CallsAppend(a, b[..k]);
    }
  }

  lemma {:induction false} NoCalls(es: seq<Entry>)
    requires forall i :: 0 <= i < |es| ==> !es[i].Planned?
    ensures PlannerCalls(es) == 0
    decreases |es|
  {
    if es == [] {
    } else {
      NoCalls(es[..|es| - 1]);
    }
  }

  /** r' has come on from r without calling the planner, in the same attempt. */
  ghost predicate Unplanned(r: Run, r': Run) {
    && PlannerCalls(r'.log) == PlannerCalls(r.log) && r'.core.replans == r.core.replans
    && (r'.state == Escalated ==> r.state == Escalated)
  }

  lemma LogUnplanned(r: Run, es: seq<Entry>)
    requires forall i :: 0 <= i < |es| ==> !es[i].Planned?
    ensures Unplanned(r, Log(r, es))
  {
    CallsAppend(r.log, es);
    NoCalls(es);
  }

  lemma UnplannedGate(n: Neop, b: Broker, r: Run, scope: PauseScope, action: Action, taskId: Option<string>)
    requires b.On?
    ensures Unplanned(r, Gate(n, b, r, scope, action, taskId).1)
  {
    if WellFormed(action) {
      var (decision, reason) := Consult(b, action);
      var es := [Consulted(r.core.replans, action, Decide(action, b.policy).0, decision)];
      LogUnplanned(r, es);
      LogUnplanned(Log(r, es), [Ev(DenyEmitted(action, reason, None))]);
      LogUnplanned(Log(r, es), [Ev(AwaitingEmitted(action, scope))]);
    }
  }

  lemma UnplannedCall(n: Neop, r: Run, t: Task)
    ensures Unplanned(r, CallTool(n, r, t).1)
  {
    var tool := t.tool.GetOr("");
    var inputs := InputsOf(r.core.who.msg.text, t.deps, r.core.outputs);
    var es := [Ev(ToolCall(t.id, tool)),
               Invoked(r.core.replans, r.core.plan, t, TaskAction(r.core.who, t), inputs, tool in n.allowlist)];
    LogUnplanned(r, es);
    var reply := Invoke(n, r.core.replans, tool, inputs);
    if reply.Returns? {
      var out := reply.value;
      if IsBlocked(out) {
        if "reason" in out.fields { LogUnplanned(Log(r, es), [Ev(ToolBlocked(t.id, tool, out.fields["reason"]))]); }
      } else {
        LogUnplanned(Log(r, es), [Produced(r.core.replans, t.id, out), Ev(ToolResult(t.id, tool, out))]);
      }
    }
  }

  lemma UnplannedVerify(n: Neop, r: Run, t: Task)
    ensures Unplanned(r, Verify(n, r, t).1)
  {
  }

  lemma UnplannedTask(n: Neop, b: Broker, r: Run, t: Task, skip: bool)
    ensures Unplanned(r, ExecTask(n, b, r, t, skip).1)
  {
    var r0 := r.(state := Executing);
    if b.On? { UnplannedGate(n, b, r0, ActionPause, TaskAction(r.core.who, t), Some(t.id)); }
    var (go, r1) := GateTask(n, b, r0, t, skip);
    if go {
      UnplannedCall(n, r1, t);
      UnplannedVerify(n, if t.HasTool() then CallTool(n, r1, t).1 else r1, t);
    }
  }

  lemma {:induction false} UnplannedExec(n: Neop, b: Broker, r: Run, tasks: seq<Task>, skip: bool)
    ensures Unplanned(r, ExecFrom(n, b, r, tasks, skip).1)
    decreases |tasks|
  {
    if tasks == [] {
    } else {
      UnplannedTask(n, b, r, tasks[0], skip);
      var (ok, r1) := ExecTask(n, b, r, tasks[0], skip);
      if ok { UnplannedExec(n, b, r1, tasks[1..], false); }
    }
  }

  lemma UnplannedExecute(n: Neop, b: Broker, r: Run, from: Option<string>)
    ensures Unplanned(r, Execute(n, b, r, from).1)
  {
    var order := TopoOrder(r.core.plan.tasks);
    if order.Success? {
      if from.None? {
        UnplannedExec(n, b, r.(core := r.core.(outputs := [])), order.value, false);
      } else {
        var k := IndexOf(order.value, from.value);
        if k < |order.value| { UnplannedExec(n, b, r, order.value[k..], true); }
      }
    }
  }

  /** Between r and r' each new attempt was planned once, except the one past the bound, which escalates. */
  ghost predicate Counted(n: Neop, r: Run, r': Run) {
    var calls := PlannerCalls(r'.log) - PlannerCalls(r.log);
    if r'.state == Escalated then r'.core.replans == LastAttempt(n) + 1 && calls == LastAttempt(n) - r.core.replans
    else r'.core.replans <= LastAttempt(n) && calls == r'.core.replans - r.core.replans
  }

  lemma PlanCounts(n: Neop, r: Run)
    ensures var r1 := MakePlan(n, r);
            PlannerCalls(r1.log) == PlannerCalls(r.log) + 1 && r1.core.replans == r.core.replans && r1.state == Planning
  {
    var es := [Ev(PlanStart)] + [Planned(r.core.replans)];
    CallsAppend(r.log, es);
    CallsAppend([Ev(PlanStart)], [Planned(r.core.replans)]);
    assert es == [Ev(PlanStart), Planned(r.core.replans)];
    var reply := n.planner(r.core.replans, r.core.twin, r.core.who.msg);
    if reply.Returns? { LogUnplanned(Log(r, es), [Ev(PlanEnd(Ids(reply.value.tasks)))]); }
  }

  lemma CountedNext(n: Neop, b: Broker, r: Run)
    ensures var r2 := MakePlan(n, r);
            var r3 := if r2.err.Some? then r2 else GatePlan(n, b, r2).1;
            PlannerCalls(r3.log) == PlannerCalls(r.log) + 1 && r3.core.replans == r.core.replans && r3.state != Escalated
  {
    PlanCounts(n, r);
    var r2 := MakePlan(n, r);
    if b.On? { UnplannedGate(n, b, r2, PlanPause, PlanAction(n, r2.core), None); }
  }

  lemma ReplanCalls(n: Neop, b: Broker, r: Run)
    ensures var r1 := Replan(n, b, r).1;
            PlannerCalls(r1.log) == PlannerCalls(r.log) + (if r.core.replans + 1 <= n.maxReplans then 1 else 0)
  {
    var k := r.core.replans + 1;
    var r0 := r.(core := r.core.(replans := k));
    if k <= n.maxReplans {
      LogUnplanned(r0, [Ev(ReplanStarted(k))]);
      CountedNext(n, b, Emit(r0, ReplanStarted(k)).(state := Replanning));
    } else {
      LogUnplanned(r0, [Ev(EscalatedAfter(k))]);
    }
  }

  lemma ReplanShape(n: Neop, b: Broker, r: Run)
    ensures var (go, r1) := Replan(n, b, r);
            var next := r.core.replans + 1 <= n.maxReplans;
            r1.core.replans == r.core.replans + 1 && (r1.state == Escalated <==> !next) && (go ==> next)
  {
  }

  lemma CountedReplan(n: Neop, b: Broker, r: Run)
    requires r.core.replans <= LastAttempt(n)
    ensures var (go, r1) := Replan(n, b, r);
            Counted(n, r, r1) && (go ==> r1.state != Escalated)
  {
    ReplanCalls(n, b, r);
    ReplanShape(n, b, r);
  }

  lemma {:induction false} CountedDrive(n: Neop, b: Broker, r: Run, from: Option<string>)
    requires r.core.replans <= LastAttempt(n) && r.state != Escalated
    ensures Counted(n, r, Drive(n, b, r, from))
    decreases Budget(n, r), 1
  {
    UnplannedExecute(n, b, r, from);
    CountedAfter(n, b, Execute(n, b, r, from));
  }

  lemma {:induction false} CountedAfter(n: Neop, b: Broker, out: (bool, Run))
    requires out.1.core.replans <= LastAttempt(n) && out.1.state != Escalated
    ensures Counted(n, out.1, AfterAttempt(n, b, out))
    decreases Budget(n, out.1), 0
  {
    if Replans(n, out) {
      CountedReplan(n, b, out.1);
      var (go, r1) := Replan(n, b, out.1);
      if go { CountedDrive(n, b, r1, None); }
    }
  }

  lemma UnplannedMemory(n: Neop, rep: Report)
    ensures Unplanned(rep.run, WriteMemory(n, rep).run)
  {
  }

  lemma UnplannedTwin(n: Neop, rep: Report)
    ensures Unplanned(rep.run, WriteTwin(n, rep).run)
  {
  }

  lemma UnplannedShadow(n: Neop, rep: Report)
    ensures Unplanned(rep.run, WriteShadow(n, rep).run)
  {
  }

  lemma UnplannedFinalize(n: Neop, rep: Report)
    ensures Unplanned(rep.run, Finalize(n, rep).run)
  {
    UnplannedMemory(n, rep);
    UnplannedTwin(n, WriteMemory(n, rep));
    UnplannedShadow(n, WriteTwin(n, WriteMemory(n, rep)));
  }

  lemma UnplannedConclude(n: Neop, mem: Mem, r: Run)
    ensures Unplanned(r, Conclude(n, mem, r).run)
  {
    if r.err.None? {
      if Stopped(r) {
        LogUnplanned(r, [Ev(RunEnd(r.state, r.core.replans))]);
      } else {
        UnplannedFinalize(n, Report(r, mem, None, None));
        var f := Finalize(n, Report(r, mem, None, None)).run;
        LogUnplanned(f, [Ev(RunEnd(f.state, f.core.replans))]);
      }
    }
  }

  /** The report is within the planning budget: its state ESCALATED means the bound was passed, and a paused one can
      be resumed within what is left. */
  ghost predicate ReportWithin(n: Neop, before: nat, rep: Report) {
    var calls := before + PlannerCalls(rep.run.log);
    && calls <= LastAttempt(n) + 1
    && (rep.run.state == Escalated ==> rep.run.core.replans == LastAttempt(n) + 1)
    && (Paused(rep.run) ==> rep.run.core.replans <= LastAttempt(n) && calls <= rep.run.core.replans + 1)
  }

  lemma DriveWithin(n: Neop, b: Broker, mem: Mem, before: nat, r: Run, from: Option<string>)
    requires r.core.replans <= LastAttempt(n) && r.state != Escalated
    requires before + PlannerCalls(r.log) <= r.core.replans + 1
    ensures ReportWithin(n, before, Conclude(n, mem, Drive(n, b, r, from)))
  {
    CountedDrive(n, b, r, from);
    CountedWithin(n, mem, before, r, Drive(n, b, r, from));
  }

  lemma CountedWithin(n: Neop, mem: Mem, before: nat, r: Run, r1: Run)
    requires r.core.replans <= LastAttempt(n) && r.state != Escalated && Counted(n, r, r1)
    requires before + PlannerCalls(r.log) <= r.core.replans + 1
    ensures ReportWithin(n, before, Conclude(n, mem, r1))
  {
    UnplannedConclude(n, mem, r1);
    if r1.err.None? && !Stopped(r1) { ConcludeKeepsEnded(n, mem, r1); }
  }

  lemma AssembleCalls(n: Neop, mem: Mem, msg: Msg)
    ensures var r := Assemble(n, mem, msg);
            PlannerCalls(r.log) == 0 && r.core.replans == 0 && r.state == Assembling
  {
  }

  lemma StartCalls(n: Neop, mem: Mem, msg: Msg)
    ensures var r := Start(n, mem, msg);
            PlannerCalls(r.log) <= 1 && r.core.replans == 0 && r.state != Escalated && !Stopped(r)
  {
    AssembleCalls(n, mem, msg);
    PlanCounts(n, Assemble(n, mem, msg));
  }

  lemma DispatchWithin(n: Neop, b: Broker, mem: Mem, msg: Msg)
    ensures ReportWithin(n, 0, Dispatch(n, b, mem, msg))
  {
    var r := Start(n, mem, msg);
    StartCalls(n, mem, msg);
    if r.err.None? {
      var (go, r1) := GatePlan(n, b, r);
      if b.On? { UnplannedGate(n, b, r, PlanPause, PlanAction(n, r.core), None); }
      if go { DriveWithin(n, b, mem, 0, r1, None); } else { CountedWithin(n, mem, 0, r, r1); }
    }
  }

  lemma RegrantUnplanned(b: Broker, snap: Snapshot)
    requires b.On?
    ensures Unplanned(Restore(snap), Regrant(b, snap).1)
  {
  }

  lemma ResumeWithin(n: Neop, b: Broker, mem: Mem, before: nat, snap: Snapshot)
    requires b.On? && snap.replans <= LastAttempt(n) && before <= snap.replans + 1
    ensures ReportWithin(n, before, Resume(n, b, mem, snap))
  {
    var (go, r) := Regrant(b, snap);
    RegrantUnplanned(b, snap);
    if go {
      DriveWithin(n, b, mem, before, r, if snap.scope == ActionPause then snap.taskId else None);
    } else {
      CountedWithin(n, mem, before, r, r);
    }
  }

  lemma {:induction false} PlayWithin(n: Neop, mem: Mem, rep: Report, bs: seq<Broker>, before: seq<Entry>)
    requires AllOn(bs) && ReportWithin(n, PlannerCalls(before), rep)
    requires Resumable(rep.run)
    ensures var (rep', log) := Play(n, mem, rep, bs, before);
            PlannerCalls(log) <= LastAttempt(n) + 1
            && (rep'.run.state == Escalated ==> rep'.run.core.replans == LastAttempt(n) + 1)
    decreases |bs|
  {
    CallsAppend(before, rep.run.log);
    if bs != [] && Paused(rep.run) {
      var snap := rep.run.saved.value;
      ResumeWithin(n, bs[0], mem, PlannerCalls(before + rep.run.log), snap);
      ResumeResumable(n, bs[0], mem, snap);
      PlayWithin(n, mem, Resume(n, bs[0], mem, snap), bs[1..], before + rep.run.log);
    }
  }

  /** Counting across a dispatch and all its resumes, the planner is called at most once more than the replan bound,
      and ESCALATED means the bound was passed by exactly one. */
  lemma PlannerBound(n: Neop, b: Broker, bs: seq<Broker>, mem: Mem, msg: Msg)
    requires AllOn(bs)
    ensures var (rep, log) := Play(n, mem, Dispatch(n, b, mem, msg), bs, []);
            PlannerCalls(log) <= LastAttempt(n) + 1
            && (rep.run.state == Escalated ==> rep.run.core.replans == LastAttempt(n) + 1)
  {
    DispatchWithin(n, b, mem, msg);
    DispatchResumable(n, b, mem, msg);
    PlayWithin(n, mem, Dispatch(n, b, mem, msg), bs, []);
  }

  // ---- where a run can return -------------------------------------------------------------

  predicate Returned(s: State) {
    s in {Done, Failed, Escalated, Rejected, AwaitingApproval}
  }

  lemma PlanGateReturns(n: Neop, b: Broker, r: Run)
    requires r.err.None? && r.state == Planning
    ensures var (go, r1) := GatePlan(n, b, r);
            if go then r1.err.None? else r1.err.None? ==> Returned(r1.state)
  {
  }

  lemma ReplanReturns(n: Neop, b: Broker, r: Run)
    requires r.err.None?
    ensures var (go, r1) := Replan(n, b, r);
            if go then r1.err.None? else r1.err.None? ==> Returned(r1.state)
  {
    hide GatePlan;
    var k := r.core.replans + 1;
    if k <= n.maxReplans {
      var r2 := MakePlan(n, Emit(r.(core := r.core.(replans := k)), ReplanStarted(k)).(state := Replanning));
      if r2.err.None? { PlanGateReturns(n, b, r2); }
    }
  }

  lemma {:induction false} DriveReturns(n: Neop, b: Broker, r: Run, from: Option<string>)
    ensures var r1 := Drive(n, b, r, from); r1.err.None? ==> Returned(r1.state)
    decreases Budget(n, r)
  {
    var out := Execute(n, b, r, from);
    if Replans(n, out) {
      ReplanReturns(n, b, out.1);
      var (go, r1) := Replan(n, b, out.1);
      if go { DriveReturns(n, b, r1, None); }
    }
  }

  lemma ConcludeReturns(n: Neop, mem: Mem, r: Run)
    requires r.err.None? ==> Returned(r.state)
    ensures var r1 := Conclude(n, mem, r).run; r1.err.None? ==> Returned(r1.state)
  {
  }

  /** A dispatch that raises nothing ends DONE, FAILED, ESCALATED, REJECTED or AWAITING_APPROVAL. */
  lemma DispatchReturns(n: Neop, b: Broker, mem: Mem, msg: Msg)
    ensures var r := Dispatch(n, b, mem, msg).run; r.err.None? ==> Returned(r.state)
  {
    hide Assemble, Drive, Conclude, Gate;
    AssembleEmits(n, mem, msg);
    var s := Start(n, mem, msg);
    if s.err.None? {
      var (go, s1) := GatePlan(n, b, s);
      if b.On? { GateOutcome(n, b, s, PlanPause, PlanAction(n, s.core), None); }
      DriveReturns(n, b, s1, None);
      ConcludeReturns(n, mem, if go then Drive(n, b, s1, None) else s1);
    }
  }

  /** So does a resume. */
  lemma ResumeReturns(n: Neop, b: Broker, mem: Mem, snap: Snapshot)
    requires b.On?
    ensures var r := Resume(n, b, mem, snap).run; r.err.None? ==> Returned(r.state)
  {
    var (go, r) := Regrant(b, snap);
    var from := if snap.scope == ActionPause then snap.taskId else None;
    DriveReturns(n, b, r, from);
    ConcludeReturns(n, mem, if !go then r else Drive(n, b, r, from));
  }

  // ---- pauses move forward ----------------------------------------------------------------

  /** The place of a pause: the plan gate of an attempt, then its tasks in order. */
  function Rank(snap: Snapshot, size: nat): nat
    requires Genuine(snap)
  {
    snap.replans * (size + 1)
    + (if snap.scope == PlanPause then 0
       else 1 + IndexOf(TopoOrder(snap.plan.tasks).value, snap.taskId.value))
  }

  /** An upper bound on the pauses of a run: every gate of every attempt. */
  function PauseBound(n: Neop, size: nat): nat {
    (LastAttempt(n) + 1) * (size + 1)
  }

  /** No plan of this NEop has more than `size` tasks. */
  ghost predicate PlansAtMost(n: Neop, size: nat) {
    1 <= size && forall k, twin, msg :: n.planner(k, twin, msg).Returns? ==> |n.planner(k, twin, msg).value.tasks| <= size
  }

  /** The run pauses, if it does, in a later attempt than c's, or in c's own at task `from` or later. */
  ghost predicate PausesFrom(n: Neop, size: nat, c: Core, from: nat, r: Run) {
    Paused(r) && r.saved.Some? && Genuine(r.saved.value) ==>
      var snap := r.saved.value;
      && snap.replans <= LastAttempt(n) && |snap.plan.tasks| <= size
      && (snap.replans > c.replans
          || (snap.replans == c.replans && snap.plan == c.plan && snap.scope == ActionPause
              && IndexOf(TopoOrder(snap.plan.tasks).value, snap.taskId.value) >= from))
  }

  /** A state from which the bounds above hold. */
  ghost predicate Bounded(n: Neop, size: nat, c: Core) {
    PlansAtMost(n, size) && c.replans <= LastAttempt(n) && |c.plan.tasks| <= size
  }

  lemma ExecPausesFrom(n: Neop, b: Broker, size: nat, r: Run, order: seq<Task>, j: nat, skip: bool)
    requires r.err.None? && Bounded(n, size, r.core)
    requires TopoOrder(r.core.plan.tasks) == Success(order) && j <= |order|
    requires skip ==> j < |order| && Cleared(r, order[j])
    ensures var out := ExecFrom(n, b, r, order[j..], skip);
            !out.0 ==> PausesFrom(n, size, r.core, if skip then j + 1 else j, out.1)
  {
    var out := ExecFrom(n, b, r, order[j..], skip);
    assert [] + Erase(r.log) == Erase(r.log);
    var k, s2 := SimExec(n, b, Off, [], r, r, order[j..], skip);
    if !out.0 && Paused(out.1) {
      assert order[j..][k] == order[j + k];
      PauseIsGenuine(n, out.1, order, j + k);
      OrderIsTopological(r.core.plan.tasks);
      IndexOfAt(order, j + k);
    }
  }

  lemma PlanGatePausesFrom(n: Neop, b: Broker, size: nat, c: Core, r: Run)
    requires r.err.None? && !Stopped(r) && Bounded(n, size, r.core) && r.core.replans == c.replans + 1
    ensures var (go, r1) := GatePlan(n, b, r);
            r1.core == r.core && PausesFrom(n, size, c, 0, r1) && (go ==> r1.err.None?)
  {
  }

  lemma PlanKeepsBound(n: Neop, size: nat, r: Run)
    requires PlansAtMost(n, size) && |r.core.plan.tasks| <= size
    ensures var r1 := MakePlan(n, r);
            |r1.core.plan.tasks| <= size && r1.core.replans == r.core.replans && r1.state == Planning
            && (r.err.None? && r1.err.Some? ==> !Paused(r1))
  {
  }

  lemma ReplanPausesFrom(n: Neop, b: Broker, size: nat, r: Run)
    requires r.err.None? && Bounded(n, size, r.core)
    ensures var (go, r1) := Replan(n, b, r);
            && PausesFrom(n, size, r.core, 0, r1)
            && (go ==> r1.err.None? && Bounded(n, size, r1.core) && r1.core.replans == r.core.replans + 1)
  {
    hide GatePlan, MakePlan, TopoOrder;
    var k := r.core.replans + 1;
    if k <= n.maxReplans {
      var r1 := Emit(r.(core := r.core.(replans := k)), ReplanStarted(k)).(state := Replanning);
      PlanKeepsBound(n, size, r1);
      var r2 := MakePlan(n, r1);
      if r2.err.None? { PlanGatePausesFrom(n, b, size, r.core, r2); }
    }
  }

  lemma {:induction false} AfterPausesFrom(n: Neop, b: Broker, size: nat, out: (bool, Run), from: nat)
    requires Bounded(n, size, out.1.core)
    requires !out.0 ==> PausesFrom(n, size, out.1.core, from, out.1)
    ensures PausesFrom(n, size, out.1.core, from, AfterAttempt(n, b, out))
    decreases Budget(n, out.1), 0
  {
    if Replans(n, out) {
      ReplanPausesFrom(n, b, size, out.1);
      var (go, r1) := Replan(n, b, out.1);
      if go { DrivePausesFrom(n, b, size, r1); }
    }
  }

  lemma {:induction false} DrivePausesFrom(n: Neop, b: Broker, size: nat, r: Run)
    requires r.err.None? && Bounded(n, size, r.core)
    ensures PausesFrom(n, size, r.core, 0, Drive(n, b, r, None))
    decreases Budget(n, r), 1
  {
    var order := TopoOrder(r.core.plan.tasks);
    if order.Success? {
      assert order.value[0..] == order.value;
      ExecPausesFrom(n, b, size, r.(core := r.core.(outputs := [])), order.value, 0, false);
      AfterPausesFrom(n, b, size, Execute(n, b, r, None), 0);
    }
  }

  lemma ConcludePausesFrom(n: Neop, mem: Mem, size: nat, c: Core, from: nat, r: Run)
    requires PausesFrom(n, size, c, from, r)
    ensures PausesFrom(n, size, c, from, Conclude(n, mem, r).run)
  {
  }

  /** The task position from which a resumed run may pause again. */
  function NextFrom(snap: Snapshot): nat
    requires Genuine(snap)
  {
    if snap.scope == PlanPause then 0 else IndexOf(TopoOrder(snap.plan.tasks).value, snap.taskId.value) + 1
  }

  lemma ResumePausesFrom(n: Neop, b: Broker, mem: Mem, size: nat, snap: Snapshot)
    requires b.On? && Genuine(snap) && Bounded(n, size, CoreOf(snap))
    ensures PausesFrom(n, size, CoreOf(snap), NextFrom(snap), Resume(n, b, mem, snap).run)
  {
    var (go, r) := Regrant(b, snap);
    if !go {
      ConcludePausesFrom(n, mem, size, CoreOf(snap), NextFrom(snap), r);
    } else if snap.scope == PlanPause {
      DrivePausesFrom(n, b, size, r);
      ConcludePausesFrom(n, mem, size, CoreOf(snap), 0, Drive(n, b, r, None));
    } else {
      var order := TopoOrder(snap.plan.tasks).value;
      ExecPausesFrom(n, b, size, r, order, IndexOf(order, snap.taskId.value), true);
      AfterPausesFrom(n, b, size, Execute(n, b, r, snap.taskId), NextFrom(snap));
      ConcludePausesFrom(n, mem, size, CoreOf(snap), NextFrom(snap), Drive(n, b, r, snap.taskId));
    }
  }

  lemma RankLess(n: Neop, size: nat, snap: Snapshot)
    requires Genuine(snap) && snap.replans <= LastAttempt(n) && |snap.plan.tasks| <= size
    ensures Rank(snap, size) < PauseBound(n, size)
  {
    if snap.scope == ActionPause { TopoLength(snap.plan.tasks); }
    AttemptsFit(snap.replans + 1, LastAttempt(n) + 1, size + 1);
    Distribute(snap.replans, size + 1);
  }

  lemma AttemptsFit(a: nat, b: nat, c: nat)
    requires a <= b
    ensures a * c <= b * c
  {
  }

  lemma Distribute(a: nat, c: nat)
    ensures (a + 1) * c == a * c + c
  {
  }

  /** A later pause has a higher rank. */
  lemma RankGrows(n: Neop, size: nat, snap: Snapshot, r: Run)
    requires Genuine(snap) && |snap.plan.tasks| <= size && Paused(r) && r.saved.Some? && Genuine(r.saved.value)
    requires PausesFrom(n, size, CoreOf(snap), NextFrom(snap), r)
    ensures Rank(r.saved.value, size) > Rank(snap, size)
  {
    var next := r.saved.value;
    if next.replans > snap.replans {
      if snap.scope == ActionPause { TopoLength(snap.plan.tasks); }
      AttemptsFit(snap.replans + 1, next.replans, size + 1);
      Distribute(snap.replans, size + 1);
    }
  }

  /** How many times a run pauses while its brokers last. */
  ghost function Pauses(n: Neop, mem: Mem, rep: Report, bs: seq<Broker>): nat
    requires AllOn(bs)
    decreases |bs|
  {
    if !Paused(rep.run) then 0
    else if bs == [] || rep.run.saved.None? then 1
    else 1 + Pauses(n, mem, Resume(n, bs[0], mem, rep.run.saved.value), bs[1..])
  }

  lemma {:induction false} PausesBounded(n: Neop, mem: Mem, size: nat, rep: Report, bs: seq<Broker>)
    requires AllOn(bs) && Resumable(rep.run)
    requires Paused(rep.run) ==> Bounded(n, size, rep.run.core)
    ensures Paused(rep.run) ==>
              Rank(rep.run.saved.value, size) + Pauses(n, mem, rep, bs) <= PauseBound(n, size)
    ensures Paused(Play(n, mem, rep, bs, []).0.run) ==> Pauses(n, mem, rep, bs) == |bs| + 1
    decreases |bs|
  {
    if Paused(rep.run) {
      var snap := rep.run.saved.value;
      RankLess(n, size, snap);
      if bs != [] {
        var rep1 := Resume(n, bs[0], mem, snap);
        ResumeResumable(n, bs[0], mem, snap);
        ResumePausesFrom(n, bs[0], mem, size, snap);
        if Paused(rep1.run) { RankGrows(n, size, snap, rep1.run); }
        PausesBounded(n, mem, size, rep1, bs[1..]);
        PlayPrefix(n, mem, rep1, bs[1..], [], [] + rep.run.log);
      }
    }
  }

  /** The trace gathered before plays no part in the report. */
  lemma {:induction false} PlayPrefix(n: Neop, mem: Mem, rep: Report, bs: seq<Broker>, before: seq<Entry>, before': seq<Entry>)
    requires AllOn(bs)
    ensures Play(n, mem, rep, bs, before).0 == Play(n, mem, rep, bs, before').0
    decreases |bs|
  {
    if bs != [] && Paused(rep.run) && rep.run.saved.Some? {
      PlayPrefix(n, mem, Resume(n, bs[0], mem, rep.run.saved.value), bs[1..], before + rep.run.log, before' + rep.run.log);
    }
  }

  lemma DispatchBounded(n: Neop, b: Broker, mem: Mem, msg: Msg, size: nat)
    requires PlansAtMost(n, size)
    ensures var r := Dispatch(n, b, mem, msg).run; Paused(r) ==> Resumable(r) && Bounded(n, size, r.core)
  {
    hide Assemble, Drive, TopoOrder, Gate;
    AssembleEmits(n, mem, msg);
    DispatchResumable(n, b, mem, msg);
    var r := Start(n, mem, msg);
    if r.err.None? {
      PlanKeepsBound(n, size, Assemble(n, mem, msg));
      var (go, r1) := GatePlan(n, b, r);
      if b.On? { GateOutcome(n, b, r, PlanPause, PlanAction(n, r.core), None); }
      if go {
        DrivePausesFrom(n, b, size, r1);
        ConcludePausesFrom(n, mem, size, r1.core, 0, Drive(n, b, r1, None));
      }
    }
  }

  /** With plans of at most `size` tasks a run pauses at most (max_replans + 1) * (size + 1) times, so that many
      resumes bring it to a state other than AWAITING_APPROVAL. */
  lemma PausesEnd(n: Neop, b: Broker, bs: seq<Broker>, mem: Mem, msg: Msg, size: nat)
    requires AllOn(bs) && PlansAtMost(n, size)
    ensures var rep := Dispatch(n, b, mem, msg);
            && Pauses(n, mem, rep, bs) <= PauseBound(n, size)
            && (|bs| >= PauseBound(n, size) ==> !Paused(Play(n, mem, rep, bs, []).0.run))
  {
    var rep := Dispatch(n, b, mem, msg);
    DispatchBounded(n, b, mem, msg, size);
    if Paused(rep.run) {
      PausesBounded(n, mem, size, rep, bs);
    }
  }

  // ---- a cooperative history completes the run --------------------------------------------

  /** The policy answers allow or ask on every action. */
  ghost predicate Lenient(b: Broker) {
    b.On? && forall a :: Consult(b, a).0 != Deny
  }

  /** Some gate decided to deny. */
  ghost predicate Denies(log: seq<Entry>) {
    exists i :: 0 <= i < |log| && log[i].Consulted? && log[i].decision == Deny
  }

  lemma DeniesWithin(a: seq<Entry>, b: seq<Entry>, c: seq<Entry>)
    ensures Denies(b) ==> Denies(a + b + c)
  {
    if i :| 0 <= i < |b| && b[i].Consulted? && b[i].decision == Deny { assert (a + b + c)[|a| + i] == b[i]; }
  }

  /** The run is not denied, unless a gate's denial is on its record. */
  ghost predicate Undenied(r: Run) {
    (r.state == Rejected ==> Denies(r.log)) && r.err != Some(BlankGrantor)
  }

  lemma DenialRecorded(n: Neop, b: Broker, r: Run, scope: PauseScope, action: Action, taskId: Option<string>)
    requires b.On? && r.state != Rejected && r.err.None?
    ensures var (go, r1) := Gate(n, b, r, scope, action, taskId);
            Undenied(r1) && (go ==> r1.err.None? && r1.state == r.state)
  {
    if WellFormed(action) && Consult(b, action).0 == Deny {
      var e := Consulted(r.core.replans, action, Decide(action, b.policy).0, Deny);
      var log := Gate(n, b, r, scope, action, taskId).1.log;
      assert log[|r.log|] == e;
    }
  }

  lemma TaskUndenied(n: Neop, b: Broker, r: Run, t: Task, skip: bool)
    requires r.err.None?
    ensures var (ok, r1) := ExecTask(n, b, r, t, skip);
            Undenied(r1) && (ok ==> r1.err.None?)
  {
    var r0 := r.(state := Executing);
    if b.On? { DenialRecorded(n, b, r0, ActionPause, TaskAction(r.core.who, t), Some(t.id)); }
    hide Gate;
    var (go, r1) := GateTask(n, b, r0, t, skip);
    if go { BodyUndenied(n, r1, t); }
  }

  lemma BodyUndenied(n: Neop, r: Run, t: Task)
    requires r.state != Rejected && r.err.None?
    ensures var (ok, r1) := Body(n, r, t);
            Undenied(r1) && (ok ==> r1.err.None?)
  {
  }

  lemma {:induction false} ExecUndenied(n: Neop, b: Broker, r: Run, tasks: seq<Task>, skip: bool)
    requires Undenied(r) && r.err.None?
    ensures Undenied(ExecFrom(n, b, r, tasks, skip).1)
    decreases |tasks|
  {
    if tasks == [] {
    } else {
      TaskUndenied(n, b, r, tasks[0], skip);
      var (ok, r1) := ExecTask(n, b, r, tasks[0], skip);
      if ok { ExecUndenied(n, b, r1, tasks[1..], false); }
    }
  }

  lemma ExecuteUndenied(n: Neop, b: Broker, r: Run, from: Option<string>)
    requires Undenied(r) && r.err.None?
    ensures Undenied(Execute(n, b, r, from).1)
  {
    var order := TopoOrder(r.core.plan.tasks);
    if order.Success? {
      if from.None? {
        ExecUndenied(n, b, r.(core := r.core.(outputs := [])), order.value, false);
      } else {
        var k := IndexOf(order.value, from.value);
        if k < |order.value| { ExecUndenied(n, b, r, order.value[k..], true); }
      }
    }
  }

  lemma PlanGateUndenied(n: Neop, b: Broker, r: Run)
    requires r.state != Rejected && r.err.None?
    ensures var (go, r1) := GatePlan(n, b, r);
            Undenied(r1) && (go ==> r1.err.None? && r1.state == r.state)
  {
    if b.On? { DenialRecorded(n, b, r, PlanPause, PlanAction(n, r.core), None); }
  }

  lemma ReplanUndenied(n: Neop, b: Broker, r: Run)
    requires r.err.None?
    ensures var (go, r1) := Replan(n, b, r);
            Undenied(r1) && (go ==> r1.err.None?)
  {
    hide GatePlan;
    var k := r.core.replans + 1;
    if k <= n.maxReplans {
      var r2 := MakePlan(n, Emit(r.(core := r.core.(replans := k)), ReplanStarted(k)).(state := Replanning));
      if r2.err.None? { PlanGateUndenied(n, b, r2); }
    }
  }

  lemma {:induction false} DriveUndenied(n: Neop, b: Broker, r: Run, from: Option<string>)
    requires Undenied(r) && r.err.None?
    ensures Undenied(Drive(n, b, r, from))
    decreases Budget(n, r), 1
  {
    ExecuteUndenied(n, b, r, from);
    AfterUndenied(n, b, Execute(n, b, r, from));
  }

  lemma {:induction false} AfterUndenied(n: Neop, b: Broker, out: (bool, Run))
    requires Undenied(out.1)
    ensures Undenied(AfterAttempt(n, b, out))
    decreases Budget(n, out.1), 0
  {
    if Replans(n, out) {
      ReplanUndenied(n, b, out.1);
      var (go, r1) := Replan(n, b, out.1);
      if go { DriveUndenied(n, b, r1, None); }
    }
  }

  lemma ConcludeUndenied(n: Neop, mem: Mem, r: Run)
    requires Undenied(r)
    ensures Undenied(Conclude(n, mem, r).run)
  {
    if r.err.None? && Stopped(r) {
      DeniesWithin([], r.log, [Ev(RunEnd(r.state, r.core.replans))]);
      assert [] + r.log + [Ev(RunEnd(r.state, r.core.replans))] == EndRun(r).log;
    } else if r.err.None? {
      ConcludeKeepsEnded(n, mem, r);
    }
  }

  lemma GatedUndenied(n: Neop, b: Broker, mem: Mem, r: Run)
    requires r.state != Rejected && r.err.None?
    ensures var (go, r1) := GatePlan(n, b, r);
            Undenied(Conclude(n, mem, if go then Drive(n, b, r1, None) else r1).run)
  {
    hide GatePlan, Drive, Conclude;
    PlanGateUndenied(n, b, r);
    var (go, r1) := GatePlan(n, b, r);
    if go { DriveUndenied(n, b, r1, None); }
    ConcludeUndenied(n, mem, if go then Drive(n, b, r1, None) else r1);
  }

  lemma DispatchUndenied(n: Neop, b: Broker, mem: Mem, msg: Msg)
    ensures Undenied(Dispatch(n, b, mem, msg).run)
  {
    var r := Start(n, mem, msg);
    if r.err.None? { GatedUndenied(n, b, mem, r); }
  }

  /** Each pause is resumed with a broker that grants the pending action. */
  ghost predicate AllGranted(n: Neop, mem: Mem, rep: Report, bs: seq<Broker>)
    requires AllOn(bs)
    decreases |bs|
  {
    bs == [] || !Paused(rep.run) || rep.run.saved.None? ||
    var snap := rep.run.saved.value;
    && Resolve(bs[0], snap.action).Success? && Resolve(bs[0], snap.action).value.0 == Allow
    && AllGranted(n, mem, Resume(n, bs[0], mem, snap), bs[1..])
  }

  lemma {:induction false} PlayUndenied(n: Neop, mem: Mem, rep: Report, bs: seq<Broker>, before: seq<Entry>)
    requires AllOn(bs) && AllGranted(n, mem, rep, bs) && Undenied(rep.run)
    ensures var (rep', log) := Play(n, mem, rep, bs, before);
            Undenied(rep'.run) && (Denies(rep'.run.log) ==> Denies(log))
    decreases |bs|
  {
    DeniesWithin(before, rep.run.log, []);
    assert before + rep.run.log + [] == before + rep.run.log;
    if bs != [] && Paused(rep.run) && rep.run.saved.Some? {
      var snap := rep.run.saved.value;
      GrantUndenied(n, bs[0], mem, snap);
      PlayUndenied(n, mem, Resume(n, bs[0], mem, snap), bs[1..], before + rep.run.log);
    }
  }

  lemma GrantUndenied(n: Neop, b: Broker, mem: Mem, snap: Snapshot)
    requires b.On? && Resolve(b, snap.action).Success? && Resolve(b, snap.action).value.0 == Allow
    ensures Undenied(Resume(n, b, mem, snap).run)
  {
    hide Drive, Conclude, Denies;
    var (go, r) := Regrant(b, snap);
    var from := if snap.scope == ActionPause then snap.taskId else None;
    DriveUndenied(n, b, r, from);
    ConcludeUndenied(n, mem, Drive(n, b, r, from));
  }

  /** When no gate denies and every pause is granted, a run comes to its end within the bound on pauses, and that end
      is the one of a single uninterrupted run under an all-allow broker. */
  lemma GrantedRunCompletes(n: Neop, b: Broker, bs: seq<Broker>, mem: Mem, msg: Msg, size: nat)
    requires b.On? && AllOn(bs) && PlansAtMost(n, size)
    requires AllGranted(n, mem, Dispatch(n, b, mem, msg), bs) && |bs| >= PauseBound(n, size)
    ensures var (rep, log) := Play(n, mem, Dispatch(n, b, mem, msg), bs, []);
            !Denies(log) ==> Ended(rep.run) && SameEnd(rep, log, Dispatch(n, ALL_ALLOW, mem, msg))
  {
    PausesEnd(n, b, bs, mem, msg, size);
    DispatchUndenied(n, b, mem, msg);
    PlayUndenied(n, mem, Dispatch(n, b, mem, msg), bs, []);
    PauseResumeTransparent(n, b, bs, mem, msg);
  }

  // ---- policies that never deny -----------------------------------------------------------------

  lemma HonestUndenied(b: Broker, log: seq<Entry>)
    requires Lenient(b) && Good(b, log)
    ensures !Denies(log)
  {
    forall i | 0 <= i < |log| && log[i].Consulted? ensures log[i].decision != Deny { assert HonestEntry(b, log[i]); }
  }

  lemma {:induction false} LenientPlay(n: Neop, mem: Mem, b: Broker, rep: Report, bs: seq<Broker>, before: seq<Entry>)
    requires AllOn(bs) && Lenient(b) && (forall i :: 0 <= i < |bs| ==> Lenient(bs[i]))
    requires Good(b, rep.run.log) && Resumable(rep.run) && !Denies(before)
    ensures !Denies(Play(n, mem, rep, bs, before).1)
    decreases |bs|
  {
    HonestUndenied(b, rep.run.log);
    if bs != [] && Paused(rep.run) && rep.run.saved.Some? {
      var snap := rep.run.saved.value;
      FineResume(n, bs[0], mem, snap);
      ResumeResumable(n, bs[0], mem, snap);
      LenientPlay(n, mem, bs[0], Resume(n, bs[0], mem, snap), bs[1..], before + rep.run.log);
    }
  }

  /** Policies that answer only allow or ask leave no denial on any record. */
  lemma LenientNeverDenies(n: Neop, b: Broker, bs: seq<Broker>, mem: Mem, msg: Msg)
    requires AllOn(bs) && Lenient(b) && forall i :: 0 <= i < |bs| ==> Lenient(bs[i])
    ensures !Denies(Play(n, mem, Dispatch(n, b, mem, msg), bs, []).1)
  {
    FineDispatch(n, b, mem, msg);
    DispatchResumable(n, b, mem, msg);
    LenientPlay(n, mem, b, Dispatch(n, b, mem, msg), bs, []);
  }
}

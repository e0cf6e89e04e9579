/** Fresh output threading: what a tool is handed for each of its task's dependencies. */
module Threading {
  import opened Wrappers
  import opened Json
  import opened Approval
  import opened Plans
  import opened PlanOrder
  import opened Memory
  import opened Agent
  import opened Transparency

  /** The output task id produced in attempt k, according to the trace. */
  function ProducedIn(log: seq<Entry>, k: nat, id: string): Option<Value> {
    if log == [] then None
    else
      var e := log[|log| - 1];
      if e.Produced? && e.attempt == k && e.id == id then Some(e.out) else ProducedIn(log[..|log| - 1], k, id)
  }

  /** The call got, for each dependency, what it produced in this same attempt; and a dependency that is in the
      plan and has a tool did produce something. */
  ghost predicate CallThreaded(before: seq<Entry>, e: Entry)
    requires e.Invoked?
  {
    forall d :: d in e.task.deps ==>
      && d in e.inputs && e.inputs[d] == ProducedIn(before, e.attempt, d).GetOr(Null)
      && (d in ById(e.plan.tasks) && ById(e.plan.tasks)[d].HasTool() ==> ProducedIn(before, e.attempt, d).Some?)
  }

  /** Every call is threaded, and no task produces twice in one attempt. */
  ghost predicate Threaded(log: seq<Entry>) {
    forall i :: 0 <= i < |log| ==>
      && (log[i].Invoked? ==> CallThreaded(log[..i], log[i]))
      && (log[i].Produced? ==> ProducedIn(log[..i], log[i].attempt, log[i].id).None?)
  }

  /** All outputs in the trace are of attempts before k. */
  ghost predicate Below(log: seq<Entry>, k: nat) {
    forall i :: 0 <= i < |log| && log[i].Produced? ==> log[i].attempt < k
  }

  lemma {:induction false} BelowProducesNothing(log: seq<Entry>, k: nat, id: string)
    requires Below(log, k)
    ensures ProducedIn(log, k, id).None?
  {
    if log == [] {
    } else {
      BelowProducesNothing(log[..|log| - 1], k, id);
    }
  }

  lemma ThreadedSnoc(log: seq<Entry>, e: Entry)
    requires Threaded(log)
    requires e.Invoked? ==> CallThreaded(log, e)
    requires e.Produced? ==> ProducedIn(log, e.attempt, e.id).None?
    ensures Threaded(log + [e])
    ensures forall k, id :: ProducedIn(log + [e], k, id) ==
                            if e.Produced? && e.attempt == k && e.id == id then Some(e.out) else ProducedIn(log, k, id)
  {
    var log' := log + [e];
    assert log'[..|log|] == log;
    forall i | 0 <= i < |log'|
      ensures log'[i].Invoked? ==> CallThreaded(log'[..i], log'[i])
      ensures log'[i].Produced? ==> ProducedIn(log'[..i], log'[i].attempt, log'[i].id).None?
    {
      assert log'[..i] == log[..i];
    }
  }

  predicate Plain(e: Entry) { !e.Invoked? && !e.Produced? }

  lemma {:induction false} ThreadedPlain(log: seq<Entry>, es: seq<Entry>)
    requires Threaded(log) && forall i :: 0 <= i < |es| ==> Plain(es[i])
    ensures Threaded(log + es)
    ensures forall k, id :: ProducedIn(log + es, k, id) == ProducedIn(log, k, id)
    decreases |es|
  {
    if es == [] {
      assert log + es == log;
    } else {
      var n := |es| - 1;
      ThreadedPlain(log, es[..n]);
      ThreadedSnoc(log + es[..n], es[n]);
      assert log + es == log + es[..n] + [es[n]];
    }
  }

  // ---- the stages of a run ----------------------------------------------------------------

  /** The trace so far is threaded and its outputs are of attempts before k. */
  ghost predicate Idle(before: seq<Entry>, r: Run, k: nat) {
    Threaded(before + r.log) && Below(before + r.log, k)
  }

  /** The run stands before order[j] of its current attempt, its outputs being exactly this attempt's. */
  ghost predicate Stage(before: seq<Entry>, r: Run, order: seq<Task>, j: nat) {
    && Idle(before, r, r.core.replans + 1)
    && TopoOrder(r.core.plan.tasks) == Success(order) && j <= |order|
    && (forall d :: ProducedIn(before + r.log, r.core.replans, d) == Lookup(r.core.outputs, d))
    && (forall i :: 0 <= i < j && order[i].HasTool() ==> Lookup(r.core.outputs, order[i].id).Some?)
    && (forall i :: j <= i < |order| ==> Lookup(r.core.outputs, order[i].id).None?)
  }

  lemma IdleLog(before: seq<Entry>, r: Run, k: nat, es: seq<Entry>)
    requires Idle(before, r, k) && forall i :: 0 <= i < |es| ==> Plain(es[i])
    ensures Idle(before, Log(r, es), k)
    ensures forall a, id :: ProducedIn(before + Log(r, es).log, a, id) == ProducedIn(before + r.log, a, id)
  {
    ThreadedPlain(before + r.log, es);
    assert before + (r.log + es) == before + r.log + es;
  }

  lemma StageLog(before: seq<Entry>, r: Run, order: seq<Task>, j: nat, es: seq<Entry>)
    requires Stage(before, r, order, j) && forall i :: 0 <= i < |es| ==> Plain(es[i])
    ensures Stage(before, Log(r, es), order, j)
  {
    IdleLog(before, r, r.core.replans + 1, es);
  }

  lemma {:induction false} InputsAt(text: Value, deps: seq<string>, outputs: Dict, d: string)
    requires d in deps
    ensures var m := InputsOf(text, deps, outputs);
            d in m && m[d] == Lookup(outputs, d).GetOr(Null)
  {
    var n := |deps| - 1;
    if d != deps[n] {
      assert d in deps[..n];
      InputsAt(text, deps[..n], outputs, d);
    }
  }

  lemma StageGate(n: Neop, b: Broker, before: seq<Entry>, r: Run, order: seq<Task>, j: nat, t: Task)
    requires Stage(before, r, order, j) && b.On?
    ensures Stage(before, Gate(n, b, r, ActionPause, TaskAction(r.core.who, t), Some(t.id)).1, order, j)
  {
    var action := TaskAction(r.core.who, t);
    if WellFormed(action) {
      var (decision, reason) := Consult(b, action);
      var es := [Consulted(r.core.replans, action, Decide(action, b.policy).0, decision)];
      StageLog(before, r, order, j, es);
      if decision == Deny { StageLog(before, Log(r, es), order, j, [Ev(DenyEmitted(action, reason, None))]); }
      if decision == Await { StageLog(before, Log(r, es), order, j, [Ev(AwaitingEmitted(action, ActionPause))]); }
    }
  }

  /** The call made at stage j is threaded. */
  lemma StageCalls(n: Neop, before: seq<Entry>, r: Run, order: seq<Task>, j: nat, allowed: bool)
    requires Stage(before, r, order, j) && j < |order|
    ensures var t := order[j];
            var inputs := InputsOf(r.core.who.msg.text, t.deps, r.core.outputs);
            CallThreaded(before + r.log, Invoked(r.core.replans, r.core.plan, t, TaskAction(r.core.who, t), inputs, allowed))
  {
    var t := order[j];
    var m := ById(r.core.plan.tasks);
    OrderIsTopological(r.core.plan.tasks);
    forall d | d in t.deps
      ensures var inputs := InputsOf(r.core.who.msg.text, t.deps, r.core.outputs);
              && d in inputs && inputs[d] == ProducedIn(before + r.log, r.core.replans, d).GetOr(Null)
              && (d in m && m[d].HasTool() ==> ProducedIn(before + r.log, r.core.replans, d).Some?)
    {
      InputsAt(r.core.who.msg.text, t.deps, r.core.outputs, d);
      if d in m && m[d].HasTool() {
        assert Edge(m, t.id, d);
        var i :| 0 <= i < j && order[i].id == d;
        assert order[i] == m[d];
      }
    }
  }

  /** Recording the output of order[j] moves the stage on. */
  lemma StageProduces(before: seq<Entry>, r: Run, order: seq<Task>, j: nat, out: Value)
    requires Stage(before, r, order, j) && j < |order|
    ensures var id := order[j].id;
            var r1 := r.(core := r.core.(outputs := Put(r.core.outputs, id, out)));
            Stage(before, Log(r1, [Produced(r.core.replans, id, out)]), order, j + 1)
  {
    var id := order[j].id;
    var e := Produced(r.core.replans, id, out);
    ThreadedSnoc(before + r.log, e);
    assert before + (r.log + [e]) == before + r.log + [e];
    forall d ensures Lookup(Put(r.core.outputs, id, out), d) == if d == id then Some(out) else Lookup(r.core.outputs, d) {
      LookupPut(r.core.outputs, id, out, d);
    }
    OrderIsTopological(r.core.plan.tasks);
  }

  /** The run just after the call of order[j] is recorded. */
  function Calling(n: Neop, r: Run, t: Task): Run {
    var inputs := InputsOf(r.core.who.msg.text, t.deps, r.core.outputs);
    var tool := t.tool.GetOr("");
    Log(r, [Ev(ToolCall(t.id, tool)),
            Invoked(r.core.replans, r.core.plan, t, TaskAction(r.core.who, t), inputs, tool in n.allowlist)])
  }

  lemma StageCalling(n: Neop, before: seq<Entry>, r: Run, order: seq<Task>, j: nat)
    requires Stage(before, r, order, j) && j < |order|
    ensures Stage(before, Calling(n, r, order[j]), order, j)
  {
    var t := order[j];
    var tool := t.tool.GetOr("");
    var r0 := Log(r, [Ev(ToolCall(t.id, tool))]);
    StageLog(before, r, order, j, [Ev(ToolCall(t.id, tool))]);
    StageCalls(n, before, r0, order, j, tool in n.allowlist);
    var e := Calling(n, r, t).log[|r.log| + 1];
    StageInvoked(before, r0, order, j, e);
    assert Log(r0, [e]).log == Calling(n, r, t).log;
  }

  lemma StageCall(n: Neop, before: seq<Entry>, r: Run, order: seq<Task>, j: nat)
    requires Stage(before, r, order, j) && j < |order| && r.err.None?
    ensures var (ok, r1) := CallTool(n, r, order[j]);
            Idle(before, r1, r.core.replans + 1) && r1.core.replans == r.core.replans
            && (ok ==> Stage(before, r1, order, j + 1) && r1.err.None?)
  {
    var t := order[j];
    var r1 := Calling(n, r, t);
    StageCalling(n, before, r, order, j);
    var (ok, r2) := CallTool(n, r, t);
    if ok {
      var out := r2.log[|r1.log|].out;
      StageProduced(before, r1, order, j, out);
    } else if r2.log != r1.log {
      IdleLog(before, r1, r.core.replans + 1, [r2.log[|r1.log|]]);
    }
  }

  lemma StageProduced(before: seq<Entry>, r: Run, order: seq<Task>, j: nat, out: Value)
    requires Stage(before, r, order, j) && j < |order|
    ensures var t := order[j];
            Stage(before, Log(r.(core := r.core.(outputs := Put(r.core.outputs, t.id, out))),
                              [Produced(r.core.replans, t.id, out), Ev(ToolResult(t.id, t.tool.GetOr(""), out))]), order, j + 1)
  {
    var t := order[j];
    var es := [Produced(r.core.replans, t.id, out)];
    var fs := [Ev(ToolResult(t.id, t.tool.GetOr(""), out))];
    var r1 := r.(core := r.core.(outputs := Put(r.core.outputs, t.id, out)));
    StageProduces(before, r, order, j, out);
    StageLog(before, Log(r1, es), order, j + 1, fs);
    assert es + fs == [es[0], fs[0]];
    assert Log(Log(r1, es), fs).log == r1.log + [es[0], fs[0]];
  }

  lemma StageInvoked(before: seq<Entry>, r: Run, order: seq<Task>, j: nat, e: Entry)
    requires Stage(before, r, order, j) && e.Invoked? && CallThreaded(before + r.log, e)
    ensures Stage(before, Log(r, [e]), order, j)
  {
    ThreadedSnoc(before + r.log, e);
    assert before + (r.log + [e]) == before + r.log + [e];
  }

  lemma StageVerify(n: Neop, before: seq<Entry>, r: Run, order: seq<Task>, j: nat, t: Task)
    requires Stage(before, r, order, j) && r.err.None?
    ensures var (ok, r1) := Verify(n, r, t);
            Stage(before, r1, order, j) && r1.core == r.core && (ok ==> r1.err.None?)
  {
    if n.verifies {
      StageLog(before, r, order, j, [Ev(VerifyStart(t.id))]);
      var reply := n.verifier(r.core.replans, r.core.twin, r.core.who.msg, t, Lookup(r.core.outputs, t.id));
      if reply.Returns? {
        StageLog(before, Emit(r, VerifyStart(t.id)), order, j, [Ev(VerifyEnd(t.id, reply.value))]);
      }
    }
  }

  lemma StageSkips(before: seq<Entry>, r: Run, order: seq<Task>, j: nat)
    requires Stage(before, r, order, j) && j < |order| && !order[j].HasTool()
    ensures Stage(before, r, order, j + 1)
  {
  }

  lemma StageBody(n: Neop, before: seq<Entry>, r: Run, order: seq<Task>, j: nat)
    requires Stage(before, r, order, j) && j < |order| && r.err.None?
    ensures var (ok, r1) := Body(n, r, order[j]);
            Idle(before, r1, r.core.replans + 1) && (ok ==> Stage(before, r1, order, j + 1) && r1.err.None?)
  {
    var t := order[j];
    if t.HasTool() {
      StageCall(n, before, r, order, j);
      var (ok, r1) := CallTool(n, r, t);
      if ok { StageVerify(n, before, r1, order, j + 1, t); }
    } else {
      StageSkips(before, r, order, j);
      StageVerify(n, before, r, order, j + 1, t);
    }
  }

  lemma StageTask(n: Neop, b: Broker, before: seq<Entry>, r: Run, order: seq<Task>, j: nat, skip: bool)
    requires Stage(before, r, order, j) && j < |order| && r.err.None?
    ensures var (ok, r1) := ExecTask(n, b, r, order[j], skip);
            && Idle(before, r1, r.core.replans + 1)
            && (ok ==> Stage(before, r1, order, j + 1) && r1.err.None?)
            && (Paused(r1) ==> Stage(before, r1, order, j) && r1.saved.Some?
                               && r1.saved.value.taskId == Some(order[j].id) && r1.saved.value.scope == ActionPause)
  {
    var r0 := r.(state := Executing);
    var (go, r1) := GateTask(n, b, r0, order[j], skip);
    if b.On? {
      StageGate(n, b, before, r0, order, j, order[j]);
      GateOutcome(n, b, r0, ActionPause, TaskAction(r.core.who, order[j]), Some(order[j].id));
    }
    if go {
      StageBody(n, before, r1, order, j);
      BodyNeverStops(n, r1, order[j]);
    }
  }

  // ---- whole runs -------------------------------------------------------------------------

  /** Where a run paused: before the pending task of its attempt, or at the gate of a plan not yet begun. */
  ghost predicate PausedStage(before: seq<Entry>, r: Run) {
    Paused(r) && r.saved.Some? && Genuine(r.saved.value) ==>
      var snap := r.saved.value;
      if snap.scope == PlanPause then Idle(before, r, snap.replans)
      else
        var order := TopoOrder(snap.plan.tasks).value;
        CoreOf(snap) == r.core ==> Stage(before, r, order, IndexOf(order, snap.taskId.value))
  }

  lemma {:induction false} StageExec(n: Neop, b: Broker, before: seq<Entry>, r: Run, order: seq<Task>, j: nat, skip: bool)
    requires Stage(before, r, order, j) && r.err.None?
    ensures var (ok, r1) := ExecFrom(n, b, r, order[j..], skip);
            Idle(before, r1, r.core.replans + 1) && (!ok ==> PausedStage(before, r1))
    decreases |order| - j
  {
    if j < |order| {
      StageTask(n, b, before, r, order, j, skip);
      var (ok, r1) := ExecTask(n, b, r, order[j], skip);
      assert order[j..][1..] == order[j + 1..];
      if ok {
        StageExec(n, b, before, r1, order, j + 1, false);
      } else if Paused(r1) {
        OrderIsTopological(r.core.plan.tasks);
        IndexOfAt(order, j);
      }
    }
  }

  lemma IdlePlanGate(n: Neop, b: Broker, before: seq<Entry>, r: Run)
    requires Idle(before, r, r.core.replans) && r.err.None? && !Stopped(r)
    ensures var (go, r1) := GatePlan(n, b, r);
            Idle(before, r1, r.core.replans) && r1.core == r.core && PausedStage(before, r1) && (go ==> r1.err.None?)
  {
    if b.On? {
      var action := PlanAction(n, r.core);
      GateOutcome(n, b, r, PlanPause, action, None);
      if WellFormed(action) {
        var (decision, reason) := Consult(b, action);
        var es := [Consulted(r.core.replans, action, Decide(action, b.policy).0, decision)];
        IdleLog(before, r, r.core.replans, es);
        if decision == Deny { IdleLog(before, Log(r, es), r.core.replans, [Ev(DenyEmitted(action, reason, None))]); }
        if decision == Await { IdleLog(before, Log(r, es), r.core.replans, [Ev(AwaitingEmitted(action, PlanPause))]); }
      }
    }
  }

  lemma IdlePlan(n: Neop, before: seq<Entry>, r: Run, k: nat)
    requires Idle(before, r, k)
    ensures var r1 := MakePlan(n, r);
            Idle(before, r1, k) && r1.core.replans == r.core.replans && r1.state == Planning
  {
    var es := [Ev(PlanStart), Planned(r.core.replans)];
    IdleLog(before, r, k, es);
    var reply := n.planner(r.core.replans, r.core.twin, r.core.who.msg);
    if reply.Returns? { IdleLog(before, Log(r, es), k, [Ev(PlanEnd(Ids(reply.value.tasks)))]); }
  }

  lemma IdleReplan(n: Neop, b: Broker, before: seq<Entry>, r: Run)
    requires Idle(before, r, r.core.replans + 1) && r.err.None?
    ensures var (go, r1) := Replan(n, b, r);
            && Idle(before, r1, r1.core.replans) && PausedStage(before, r1)
            && (go ==> r1.err.None?)
  {
    var k := r.core.replans + 1;
    var r0 := r.(core := r.core.(replans := k));
    if k > n.maxReplans {
      IdleLog(before, r0, k, [Ev(EscalatedAfter(k))]);
    } else {
      var r1 := Emit(r0, ReplanStarted(k)).(state := Replanning);
      IdleLog(before, r0, k, [Ev(ReplanStarted(k))]);
      IdlePlan(n, before, r1, k);
      var r2 := MakePlan(n, r1);
      if r2.err.None? { IdlePlanGate(n, b, before, r2); }
    }
  }

  lemma {:induction false} StageAfter(n: Neop, b: Broker, before: seq<Entry>, out: (bool, Run))
    requires Idle(before, out.1, out.1.core.replans + 1) && (!out.0 ==> PausedStage(before, out.1))
    ensures var r1 := AfterAttempt(n, b, out);
            Threaded(before + r1.log) && PausedStage(before, r1)
    decreases Budget(n, out.1), 0
  {
    if Replans(n, out) {
      IdleReplan(n, b, before, out.1);
      var (go, r1) := Replan(n, b, out.1);
      if go { StageDrive(n, b, before, r1); }
    }
  }

  lemma StageBegins(before: seq<Entry>, r: Run, order: seq<Task>)
    requires Idle(before, r, r.core.replans) && TopoOrder(r.core.plan.tasks) == Success(order) && r.core.outputs == []
    ensures Stage(before, r, order, 0)
  {
    forall d ensures ProducedIn(before + r.log, r.core.replans, d).None? {
      BelowProducesNothing(before + r.log, r.core.replans, d);
    }
  }

  lemma {:induction false} StageDrive(n: Neop, b: Broker, before: seq<Entry>, r: Run)
    requires Idle(before, r, r.core.replans) && r.err.None?
    ensures var r1 := Drive(n, b, r, None);
            Threaded(before + r1.log) && PausedStage(before, r1)
    decreases Budget(n, r), 1
  {
    var order := TopoOrder(r.core.plan.tasks);
    if order.Success? {
      var r0 := r.(core := r.core.(outputs := []));
      StageBegins(before, r0, order.value);
      assert order.value[0..] == order.value;
      StageExec(n, b, before, r0, order.value, 0, false);
      StageAfter(n, b, before, Execute(n, b, r, None));
    }
  }

  /** A concluded run keeps a threaded trace and the stage of its pause. */
  ghost predicate ReportThreaded(before: seq<Entry>, r: Run) {
    Threaded(before + r.log) && PausedStage(before, r)
  }

  lemma PlainEnd(before: seq<Entry>, r: Run)
    requires ReportThreaded(before, r)
    ensures ReportThreaded(before, EndRun(r))
  {
    var es := [Ev(RunEnd(r.state, r.core.replans))];
    ThreadedPlain(before + r.log, es);
    assert before + (r.log + es) == before + r.log + es;
  }

  lemma PlainLog(before: seq<Entry>, r: Run, r1: Run, e: Event)
    requires Threaded(before + r.log) && r1.log == r.log + [Ev(e)]
    ensures Threaded(before + r1.log)
  {
    ThreadedPlain(before + r.log, [Ev(e)]);
    assert before + (r.log + [Ev(e)]) == before + r.log + [Ev(e)];
  }

  lemma ConcludeThreaded(n: Neop, mem: Mem, before: seq<Entry>, r: Run)
    requires ReportThreaded(before, r)
    ensures ReportThreaded(before, Conclude(n, mem, r).run)
  {
    if r.err.None? {
      if Stopped(r) {
        PlainEnd(before, r);
      } else {
        var rep := Report(r, mem, None, None);
        var m := WriteMemory(n, rep);
        if n.memWrite { PlainLog(before, r, m.run, m.run.log[|r.log|].event); }
        var t := WriteTwin(n, m);
        if t.run.log != m.run.log { PlainLog(before, m.run, t.run, t.run.log[|m.run.log|].event); }
        var f := Finalize(n, rep);
        if f.run.log != t.run.log { PlainLog(before, t.run, f.run, f.run.log[|t.run.log|].event); }
        if f.run.err.None? {
          PlainLog(before, f.run, EndRun(f.run), RunEnd(f.run.state, f.run.core.replans));
          ConcludeKeepsEnded(n, mem, r);
        }
      }
    }
  }

  lemma IdleStart(n: Neop, mem: Mem, msg: Msg)
    ensures Idle([], Start(n, mem, msg), 0) && Start(n, mem, msg).core.replans == 0
  {
    hide Assemble;
    var r0 := Assemble(n, mem, msg);
    AssembleEmits(n, mem, msg);
    ThreadedPlain([], r0.log);
    assert [] + r0.log == r0.log;
    IdlePlan(n, [], r0, 0);
  }

  lemma DispatchThreaded(n: Neop, b: Broker, mem: Mem, msg: Msg)
    ensures ReportThreaded([], Dispatch(n, b, mem, msg).run)
  {
    IdleStart(n, mem, msg);
    var r := Start(n, mem, msg);
    if r.err.None? {
      IdlePlanGate(n, b, [], r);
      var (go, r1) := GatePlan(n, b, r);
      if go { StageDrive(n, b, [], r1); }
      ConcludeThreaded(n, mem, [], if go then Drive(n, b, r1, None) else r1);
    }
  }

  lemma ResumeThreaded(n: Neop, b: Broker, mem: Mem, before: seq<Entry>, rep: Report)
    requires b.On? && Paused(rep.run) && Resumable(rep.run) && ReportThreaded(before, rep.run)
    ensures ReportThreaded(before + rep.run.log, Resume(n, b, mem, rep.run.saved.value).run)
  {
    hide ExecFrom, AfterAttempt, Conclude, TopoOrder, Resolve;
    var snap, before1 := rep.run.saved.value, before + rep.run.log;
    var (go, r) := Regrant(b, snap);
    ThreadedPlain(before1, r.log);
    if go {
      if snap.scope == ActionPause {
        var order := TopoOrder(snap.plan.tasks).value;
        var k := IndexOf(order, snap.taskId.value);
        StageExec(n, b, before1, r, order, k, true);
        StageAfter(n, b, before1, Execute(n, b, r, snap.taskId));
        ConcludeThreaded(n, mem, before1, Drive(n, b, r, snap.taskId));
      } else {
        StageDrive(n, b, before1, r);
        ConcludeThreaded(n, mem, before1, Drive(n, b, r, None));
      }
    } else {
      ConcludeThreaded(n, mem, before1, r);
    }
  }

  lemma {:induction false} PlayThreaded(n: Neop, mem: Mem, rep: Report, bs: seq<Broker>, before: seq<Entry>)
    requires AllOn(bs) && Resumable(rep.run) && ReportThreaded(before, rep.run)
    ensures Threaded(Play(n, mem, rep, bs, before).1)
    decreases |bs|
  {
    if bs != [] && Paused(rep.run) {
      ResumeThreaded(n, bs[0], mem, before, rep);
      ResumeResumable(n, bs[0], mem, rep.run.saved.value);
      PlayThreaded(n, mem, Resume(n, bs[0], mem, rep.run.saved.value), bs[1..], before + rep.run.log);
    }
  }

  /** Across a run and all its resumes, whatever the brokers answer: every tool call is handed, for each dependency of
      its task, exactly the output that dependency produced in this same attempt, and nothing from an earlier one; an
      in-plan dependency with a tool has always produced; and no task produces twice in one attempt. */
  lemma FreshOutputs(n: Neop, b: Broker, bs: seq<Broker>, mem: Mem, msg: Msg)
    requires AllOn(bs)
    ensures Threaded(Play(n, mem, Dispatch(n, b, mem, msg), bs, []).1)
  {
    DispatchThreaded(n, b, mem, msg);
    DispatchResumable(n, b, mem, msg);
    PlayThreaded(n, mem, Dispatch(n, b, mem, msg), bs, []);
  }
}

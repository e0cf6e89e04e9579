/** Pausing and resuming changes nothing but the gate's own chatter, and neither does a gate that never stops. */
module Transparency {
  import opened Wrappers
  import opened Json
  import opened Approval
  import opened Plans
  import opened PlanOrder
  import opened Memory
  import opened Agent

  // ---- what is left of a trace without the gate -------------------------------------------

  /** Entries only a gate, a pause or a resume produces. */
  predicate Chatter(e: Entry) {
    match e
    case Consulted(_, _, _, _) => true
    case Resolved(_, _, _) => true
    case Ev(AwaitingEmitted(_, _)) => true
    case Ev(GrantEmitted(_, _, _)) => true
    case Ev(RunEnd(AwaitingApproval, _)) => true
    case _ => false
  }

  function Erase(log: seq<Entry>): seq<Entry> {
    if log == [] then []
    else (if Chatter(log[0]) then [] else [log[0]]) + Erase(log[1..])
  }

  lemma {:induction false} EraseAppend(a: seq<Entry>, b: seq<Entry>)
    ensures Erase(a + b) == Erase(a) + Erase(b)
  {
    if a == [] {
      assert a + b == b;
    } else {
      assert (a + b)[1..] == a[1..] + b;
      EraseAppend(a[1..], b);
    }
  }

  // ---- the simulation ---------------------------------------------------------------------

  /** After the erased prefix p, run r has come exactly as far as run s. */
  ghost predicate Sim(p: seq<Entry>, r: Run, s: Run) {
    r.core == s.core && r.err == s.err && p + Erase(r.log) == Erase(s.log)
  }

  /** Run r neither stopped at a gate nor met an action the gate of `a` would not have seen. */
  ghost predicate Unstopped(a: Broker, r: Run) {
    if r.err.Some? then r.err == Some(MalformedAction) ==> a.On? else !Stopped(r)
  }

  lemma SimLog(p: seq<Entry>, r: Run, s: Run, es: seq<Entry>)
    requires Sim(p, r, s)
    ensures Sim(p, Log(r, es), Log(s, es))
  {
    EraseAppend(r.log, es);
    EraseAppend(s.log, es);
    Associate(p, Erase(r.log), Erase(es));
  }

  lemma Associate(a: seq<Entry>, b: seq<Entry>, c: seq<Entry>)
    ensures a + (b + c) == a + b + c
  {
  }

  lemma SimChatter(p: seq<Entry>, r: Run, s: Run, es: seq<Entry>, fs: seq<Entry>)
    requires Sim(p, r, s) && Erase(es) == Erase(fs) == []
    ensures Sim(p, Log(r, es), Log(s, fs))
  {
    EraseAppend(r.log, es);
    EraseAppend(s.log, fs);
  }

  /** The run waits for a human. */
  predicate Paused(r: Run) {
    r.err.None? && r.state == AwaitingApproval
  }

  /** Run r is paused with the given snapshot, and restoring it comes as far as s1. */
  ghost predicate PausedLike(p: seq<Entry>, r: Run, snap: Snapshot, s1: Run) {
    r.saved == Some(snap) && CoreOf(snap) == r.core == s1.core && s1.err.None? && p + Erase(r.log) == Erase(s1.log)
  }

  lemma RestoreSims(p: seq<Entry>, r: Run, snap: Snapshot, s1: Run)
    requires PausedLike(p, r, snap, s1)
    ensures Sim(p + Erase(r.log), Restore(snap), s1)
  {
  }

  /** What one gate adds to a trace when it lets the action through. */
  function Through(b: Broker, attempt: nat, action: Action): seq<Entry> {
    if b.On? then [Consulted(attempt, action, Decide(action, b.policy).0, Allow)] else []
  }

  /** The gate of a passive broker passes every well-formed action. */
  lemma PassiveGate(n: Neop, a: Broker, s: Run, scope: PauseScope, action: Action, taskId: Option<string>)
    requires a.On? && Passive(a) && WellFormed(action)
    ensures Gate(n, a, s, scope, action, taskId) == (true, Log(s, Through(a, s.core.replans, action)))
  {
  }

  /** A gate's consultation and its announcement of a pause are chatter. */
  lemma AwaitingIsChatter(log: seq<Entry>, e: Entry, f: Entry)
    requires Chatter(e) && Chatter(f)
    ensures Erase(log + [e] + [f]) == Erase(log)
  {
    EraseAppend(log, [e]);
    EraseAppend(log + [e], [f]);
    assert Erase([e]) == [] && Erase([f]) == [];
  }

  /** What every run has recorded when it starts to plan. */
  lemma AssembleEmits(n: Neop, mem: Mem, msg: Msg)
    ensures var r := Assemble(n, mem, msg);
            && (forall i :: 0 <= i < |r.log| ==> r.log[i].Ev?)
            && r.state == Assembling && r.saved.None? && r.err.None?
            && r.core.plan == UNPLANNED && r.core.replans == 0 && r.core.outputs == []
  {
  }

  /** The outcomes of one gate, read off the run it leaves. */
  lemma GateOutcome(n: Neop, b: Broker, r: Run, scope: PauseScope, action: Action, taskId: Option<string>)
    requires b.On? && r.err.None? && !Stopped(r)
    ensures var (go, r1) := Gate(n, b, r, scope, action, taskId);
            && r1.core == r.core
            && (r1.err.Some? <==> !WellFormed(action))
            && (r1.err.Some? ==> !go && r1 == r.(err := Some(MalformedAction)))
            && (go ==> r1 == Log(r, Through(b, r.core.replans, action)))
            && (r1.err.None? ==> go <==> !Stopped(r1))
            && (Paused(r1) ==>
                  && r1.saved == Some(ToState(n, r.core, scope, action, taskId))
                  && Erase(r1.log) == Erase(r.log))
  {
    hide Decide, Erase;
    if WellFormed(action) && Consult(b, action).0 == Await {
      AwaitingIsChatter(r.log, Consulted(r.core.replans, action, Decide(action, b.policy).0, Await),
                        Ev(AwaitingEmitted(action, scope)));
    }
  }

  lemma SimCall(n: Neop, p: seq<Entry>, r: Run, s: Run, t: Task)
    requires Sim(p, r, s) && r.err.None? && r.state == s.state
    ensures var (ok, r1) := CallTool(n, r, t);
            var (ok', s1) := CallTool(n, s, t);
            ok == ok' && Sim(p, r1, s1) && r1.state == s1.state && (ok ==> r1.err.None?)
  {
    var tool := t.tool.GetOr("");
    var inputs := InputsOf(r.core.who.msg.text, t.deps, r.core.outputs);
    var es := [Ev(ToolCall(t.id, tool)),
               Invoked(r.core.replans, r.core.plan, t, TaskAction(r.core.who, t), inputs, tool in n.allowlist)];
    SimLog(p, r, s, es);
    var r1, s1 := Log(r, es), Log(s, es);
    var reply := Invoke(n, r.core.replans, tool, inputs);
    if reply.Returns? {
      var out := reply.value;
      if IsBlocked(out) {
        if "reason" in out.fields {
          SimLog(p, r1, s1, [Ev(ToolBlocked(t.id, tool, out.fields["reason"]))]);
        }
      } else {
        SimLog(p, r1, s1, [Produced(r.core.replans, t.id, out), Ev(ToolResult(t.id, tool, out))]);
      }
    }
  }

  lemma SimVerify(n: Neop, p: seq<Entry>, r: Run, s: Run, t: Task)
    requires Sim(p, r, s) && r.err.None? && r.state == s.state
    ensures var (ok, r1) := Verify(n, r, t);
            var (ok', s1) := Verify(n, s, t);
            ok == ok' && Sim(p, r1, s1) && r1.state == s1.state && (ok ==> r1.err.None?)
  {
    if n.verifies {
      SimLog(p, r, s, [Ev(VerifyStart(t.id))]);
      var r1, s1 := Emit(r.(state := Verifying), VerifyStart(t.id)), Emit(s.(state := Verifying), VerifyStart(t.id));
      var reply := n.verifier(r.core.replans, r.core.twin, r.core.who.msg, t, Lookup(r.core.outputs, t.id));
      if reply.Returns? {
        SimLog(p, r1, s1, [Ev(VerifyEnd(t.id, reply.value))]);
      }
    }
  }

  /** The gate of a task would not raise. */
  predicate Cleared(r: Run, t: Task) {
    t.HasTool() ==> WellFormed(TaskAction(r.core.who, t))
  }

  lemma SimBody(n: Neop, p: seq<Entry>, r: Run, s: Run, t: Task)
    requires Sim(p, r, s) && r.err.None? && r.state == s.state
    ensures var (ok, r1) := Body(n, r, t);
            var (ok', s1) := Body(n, s, t);
            ok == ok' && Sim(p, r1, s1) && r1.state == s1.state && (ok ==> r1.err.None?)
  {
    if t.HasTool() {
      SimCall(n, p, r, s, t);
      var (ok, r1) := CallTool(n, r, t);
      if ok { SimVerify(n, p, r1, CallTool(n, s, t).1, t); }
    } else {
      SimVerify(n, p, r, s, t);
    }
  }

  lemma BodyNeverStops(n: Neop, r: Run, t: Task)
    requires r.err.None? && !Stopped(r)
    ensures !Stopped(Body(n, r, t).1)
  {
  }

  /** Paused at task t with everything needed to take it up again. */
  ghost predicate PausedAt(n: Neop, r: Run, t: Task) {
    && t.HasTool() && Cleared(r, t)
    && r.saved == Some(ToState(n, r.core, ActionPause, TaskAction(r.core.who, t), Some(t.id)))
  }

  /** The two gates of a task that both ask, or neither does: what reaches the traces is chatter. */
  lemma SimThrough(n: Neop, b: Broker, a: Broker, p: seq<Entry>, r: Run, s: Run, action: Action, asks: bool, asks': bool)
    requires Sim(p, r, s) && (asks ==> b.On?) && (asks' ==> a.On?)
    ensures Sim(p, Log(r, if asks then Through(b, r.core.replans, action) else []),
                   Log(s, if asks' then Through(a, s.core.replans, action) else []))
  {
    SimChatter(p, r, s, if asks then Through(b, r.core.replans, action) else [],
               if asks' then Through(a, s.core.replans, action) else []);
  }

  /** The two gates of a task: the passive one lets through whatever the other does. */
  lemma SimGateTask(n: Neop, b: Broker, a: Broker, p: seq<Entry>, r: Run, s: Run, t: Task, skip: bool)
    requires Passive(a) && (a.On? ==> b.On?) && Sim(p, r, s) && r.err.None? && (skip ==> Cleared(r, t))
    requires r.state == s.state == Executing
    ensures var (go, r1) := GateTask(n, b, r, t, skip);
            var (go', s1) := GateTask(n, a, s, t, false);
            && (Paused(r1) ==> !go && !skip && PausedAt(n, r1, t) && Erase(r1.log) == Erase(r.log))
            && (go ==> go' && Sim(p, r1, s1) && r1.state == s1.state == Executing && r1.err.None?)
            && (!go && Unstopped(a, r1) ==> !go' && Sim(p, r1, s1) && r1.state == s1.state)
  {
    var action := TaskAction(r.core.who, t);
    var asks, asks' := b.On? && t.HasTool() && !skip, a.On? && t.HasTool();
    assert Log(r, []) == r && Log(s, []) == s;
    SimThrough(n, b, a, p, r, s, action, asks, asks');
    if asks { GateOutcome(n, b, r, ActionPause, action, Some(t.id)); }
    if asks' && WellFormed(action) { PassiveGate(n, a, s, ActionPause, action, Some(t.id)); }
  }

  lemma SimTask(n: Neop, b: Broker, a: Broker, p: seq<Entry>, r: Run, s: Run, t: Task, skip: bool)
    requires Passive(a) && (a.On? ==> b.On?) && Sim(p, r, s) && r.err.None? && (skip ==> Cleared(r, t))
    ensures var (ok, r1) := ExecTask(n, b, r, t, skip);
            var (ok', s1) := ExecTask(n, a, s, t, false);
            && (Paused(r1) ==> !ok && !skip && PausedAt(n, r1, t) && r1.core == r.core && Erase(r1.log) == Erase(r.log))
            && (Unstopped(a, r1) ==> ok == ok' && Sim(p, r1, s1) && r1.state == s1.state)
            && (ok ==> r1.err.None? && !Stopped(r1))
  {
    var r0, s0 := r.(state := Executing), s.(state := Executing);
    SimGateTask(n, b, a, p, r0, s0, t, skip);
    var (go, r1) := GateTask(n, b, r0, t, skip);
    var (go', s1) := GateTask(n, a, s0, t, false);
    if go {
      SimBody(n, p, r1, s1, t);
      BodyNeverStops(n, r1, t);
    }
  }

  // ---- an attempt -------------------------------------------------------------------------

  /** Either the run stopped at tasks[k], where the passive run stands at s2, or the two ended alike. */
  ghost predicate ExecAgree(n: Neop, a: Broker, p: seq<Entry>, out: (bool, Run), out': (bool, Run),
                            tasks: seq<Task>, k: nat, s2: Run)
  {
    && (!out.0 && Paused(out.1) ==>
          && k < |tasks| && PausedAt(n, out.1, tasks[k]) && PausedLike(p, out.1, out.1.saved.value, s2)
          && out' == ExecFrom(n, a, s2, tasks[k..], false))
    && (!out.0 && Unstopped(a, out.1) ==> !out'.0 && Sim(p, out.1, out'.1) && out.1.state == out'.1.state)
    && (out.0 ==> out'.0 && Sim(p, out.1, out'.1) && out.1.err.None?)
  }

  lemma {:induction false} SimExec(n: Neop, b: Broker, a: Broker, p: seq<Entry>, r: Run, s: Run, tasks: seq<Task>, skip: bool)
    returns (k: nat, s2: Run)
    requires Passive(a) && (a.On? ==> b.On?) && Sim(p, r, s) && r.err.None?
    requires skip ==> tasks != [] && Cleared(r, tasks[0])
    ensures ExecAgree(n, a, p, ExecFrom(n, b, r, tasks, skip), ExecFrom(n, a, s, tasks, false), tasks, k, s2)
    ensures var out := ExecFrom(n, b, r, tasks, skip); skip && !out.0 && Paused(out.1) ==> k > 0
    decreases |tasks|
  {
    hide ExecTask, Erase;
    k, s2 := 0, s;
    if tasks != [] {
      SimTask(n, b, a, p, r, s, tasks[0], skip);
      var (ok, r1) := ExecTask(n, b, r, tasks[0], skip);
      var (_, s1) := ExecTask(n, a, s, tasks[0], false);
      assert tasks[0..] == tasks;
      if ok {
        k, s2 := SimExec(n, b, a, p, r1, s1, tasks[1..], false);
        if k < |tasks| - 1 { assert tasks[1..][k..] == tasks[k + 1..]; }
        k := k + 1;
      }
    }
  }

  // ---- planning ---------------------------------------------------------------------------

  lemma SimPlan(n: Neop, p: seq<Entry>, r: Run, s: Run)
    requires Sim(p, r, s) && r.err.None?
    ensures var r1, s1 := MakePlan(n, r), MakePlan(n, s);
            Sim(p, r1, s1) && r1.state == s1.state == Planning
  {
    var es := [Ev(PlanStart), Planned(r.core.replans)];
    SimLog(p, r, s, es);
    var reply := n.planner(r.core.replans, r.core.twin, r.core.who.msg);
    if reply.Returns? {
      SimLog(p, Log(r, es), Log(s, es), [Ev(PlanEnd(Ids(reply.value.tasks)))]);
    }
  }

  /** Two runs past a plan gate: the passive one has passed it where the other pauses. */
  ghost predicate GateAgree(a: Broker, p: seq<Entry>, out: (bool, Run), out': (bool, Run)) {
    && (out.0 ==> out'.0 && Sim(p, out.1, out'.1) && out.1.err.None?)
    && (!out.0 && Unstopped(a, out.1) ==> !out'.0 && Sim(p, out.1, out'.1) && out.1.state == out'.1.state)
    && (Paused(out.1) ==> !out.0 && out'.0 && out.1.saved.Some? && out.1.saved.value.scope == PlanPause
                          && PausedLike(p, out.1, out.1.saved.value, out'.1))
  }

  lemma SimPlanGate(n: Neop, b: Broker, a: Broker, p: seq<Entry>, r: Run, s: Run)
    requires Passive(a) && (a.On? ==> b.On?) && Sim(p, r, s) && r.err.None? && !Stopped(r) && r.state == s.state
    ensures GateAgree(a, p, GatePlan(n, b, r), GatePlan(n, a, s))
    ensures var (go, r1) := GatePlan(n, b, r); !go && Unstopped(a, r1) ==> r1.err.Some?
  {
    var action := PlanAction(n, r.core);
    if b.On? { GateOutcome(n, b, r, PlanPause, action, None); }
    if WellFormed(action) {
      if a.On? { PassiveGate(n, a, s, PlanPause, action, None); }
      var es := if b.On? then Through(b, r.core.replans, action) else [];
      var fs := if a.On? then Through(a, s.core.replans, action) else [];
      SimChatter(p, r, s, es, fs);
      EraseAppend(s.log, fs);
      assert Log(r, []) == r && Log(s, []) == s;
    } else {
      assert Log(r, []) == r && Log(s, []) == s;
    }
  }

  lemma SimNext(n: Neop, b: Broker, a: Broker, p: seq<Entry>, r: Run, s: Run)
    requires Passive(a) && (a.On? ==> b.On?) && Sim(p, r, s) && r.err.None?
    ensures GateAgree(a, p, NextPlan(n, b, r), NextPlan(n, a, s))
  {
    hide GatePlan, Erase;
    var k := r.core.replans;
    SimLog(p, r, s, [Ev(ReplanStarted(k))]);
    var r1 := Emit(r, ReplanStarted(k)).(state := Replanning);
    var s1 := Emit(s, ReplanStarted(k)).(state := Replanning);
    SimPlan(n, p, r1, s1);
    var r2, s2 := MakePlan(n, r1), MakePlan(n, s1);
    if r2.err.None? { SimPlanGate(n, b, a, p, r2, s2); }
  }

  lemma SimReplan(n: Neop, b: Broker, a: Broker, p: seq<Entry>, r: Run, s: Run)
    requires Passive(a) && (a.On? ==> b.On?) && Sim(p, r, s) && r.err.None?
    ensures GateAgree(a, p, Replan(n, b, r), Replan(n, a, s))
  {
    hide NextPlan, Erase;
    var k := r.core.replans + 1;
    var r0, s0 := r.(core := r.core.(replans := k)), s.(core := s.core.(replans := k));
    if k > n.maxReplans {
      SimLog(p, r0, s0, [Ev(EscalatedAfter(k))]);
    } else {
      SimNext(n, b, a, p, r0, s0);
    }
  }

  // ---- whole runs -------------------------------------------------------------------------

  /** The rest of a run from a list of tasks still to do. */
  function Finish(n: Neop, b: Broker, r: Run, tasks: seq<Task>, skip: bool): Run {
    AfterAttempt(n, b, ExecFrom(n, b, r, tasks, skip))
  }

  /** What is left of the passive run where the other one paused. */
  ghost function Rest(n: Neop, a: Broker, s: Run, snap: Snapshot): Run
    requires Genuine(snap)
  {
    if snap.scope == ActionPause then Finish(n, a, s, Remaining(snap), false) else Drive(n, a, s, None)
  }

  /** r1 paused where the passive run, standing at s2, goes on to s1; or the two ended alike. */
  ghost predicate Agree(n: Neop, a: Broker, p: seq<Entry>, r1: Run, s1: Run, s2: Run) {
    && (Paused(r1) ==>
          && r1.saved.Some? && Genuine(r1.saved.value)
          && PausedLike(p, r1, r1.saved.value, s2) && s1 == Rest(n, a, s2, r1.saved.value))
    && (Unstopped(a, r1) ==> Sim(p, r1, s1) && (r1.err.None? ==> r1.state == s1.state))
  }

  lemma {:induction false} IndexOfAt(order: seq<Task>, k: nat)
    requires k < |order| && Distinct(order)
    ensures IndexOf(order, order[k].id) == k
  {
    if k == 0 {
    } else {
      assert order[0].id != order[k].id;
      IndexOfAt(order[1..], k - 1);
    }
  }

  /** A pause inside a plan's order leaves a genuine snapshot, whose pending tasks are the rest of the order. */
  lemma PauseIsGenuine(n: Neop, r: Run, order: seq<Task>, k: nat)
    requires TopoOrder(r.core.plan.tasks) == Success(order) && k < |order| && PausedAt(n, r, order[k])
    ensures var snap := r.saved.value;
            Genuine(snap) && snap.scope == ActionPause && Remaining(snap) == order[k..]
  {
    OrderIsTopological(r.core.plan.tasks);
    IndexOfAt(order, k);
  }

  /** A failed attempt that is neither blocked nor stopped goes on to a replan. */
  predicate Replans(n: Neop, outcome: (bool, Run)) {
    !outcome.0 && outcome.1.err.None? && !Stopped(outcome.1) && outcome.1.state != Failed && n.plans
  }

  lemma {:induction false} SimFinish(n: Neop, b: Broker, a: Broker, p: seq<Entry>, r: Run, s: Run,
                                     order: seq<Task>, j: nat, skip: bool)
    returns (s2: Run)
    requires Passive(a) && (a.On? ==> b.On?) && Sim(p, r, s) && r.err.None?
    requires TopoOrder(r.core.plan.tasks) == Success(order) && j <= |order|
    requires skip ==> j < |order| && Cleared(r, order[j])
    ensures Agree(n, a, p, Finish(n, b, r, order[j..], skip), Finish(n, a, s, order[j..], false), s2)
    decreases Budget(n, r), 0, 2
  {
    var k;
    k, s2 := SimExec(n, b, a, p, r, s, order[j..], skip);
    s2 := SimAttempt(n, b, a, p, ExecFrom(n, b, r, order[j..], skip), ExecFrom(n, a, s, order[j..], false), order, j, k, s2);
  }

  lemma {:induction false} SimAttempt(n: Neop, b: Broker, a: Broker, p: seq<Entry>, out: (bool, Run), out': (bool, Run),
                                      order: seq<Task>, j: nat, k: nat, s1: Run)
    returns (s2: Run)
    requires Passive(a) && (a.On? ==> b.On?) && j <= |order|
    requires TopoOrder(out.1.core.plan.tasks) == Success(order)
    requires ExecAgree(n, a, p, out, out', order[j..], k, s1)
    ensures Agree(n, a, p, AfterAttempt(n, b, out), AfterAttempt(n, a, out'), s2)
    decreases Budget(n, out.1), 0, 1
  {
    hide ExecFrom, Drive, Execute, Replan, TopoOrder, Erase;
    s2 := s1;
    if !out.0 && Paused(out.1) {
      assert out == (false, out.1) && order[j..][k..] == order[j + k..];
      SimPaused(n, b, a, p, out.1, s2, order, j + k);
    } else if Replans(n, out) {
      assert out == (false, out.1) && out' == (false, out'.1);
      s2 := SimAfterReplan(n, b, a, p, out.1, out'.1);
    } else {
      SimSettled(n, b, a, p, out, out', s2);
    }
  }

  lemma SimPaused(n: Neop, b: Broker, a: Broker, p: seq<Entry>, r: Run, s2: Run, order: seq<Task>, k: nat)
    requires Paused(r) && TopoOrder(r.core.plan.tasks) == Success(order)
    requires k < |order| && PausedAt(n, r, order[k]) && PausedLike(p, r, r.saved.value, s2)
    ensures Agree(n, a, p, AfterAttempt(n, b, (false, r)), Finish(n, a, s2, order[k..], false), s2)
  {
    PauseIsGenuine(n, r, order, k);
  }

  lemma SimSettled(n: Neop, b: Broker, a: Broker, p: seq<Entry>, out: (bool, Run), out': (bool, Run), s2: Run)
    requires !Replans(n, out) && !(!out.0 && Paused(out.1))
    requires out.0 ==> out'.0 && Sim(p, out.1, out'.1) && out.1.err.None?
    requires !out.0 && Unstopped(a, out.1) ==> !out'.0 && Sim(p, out.1, out'.1) && out.1.state == out'.1.state
    ensures Agree(n, a, p, AfterAttempt(n, b, out), AfterAttempt(n, a, out'), s2)
  {
  }

  lemma {:induction false} SimAfterReplan(n: Neop, b: Broker, a: Broker, p: seq<Entry>, r: Run, s: Run) returns (s2: Run)
    requires Passive(a) && (a.On? ==> b.On?) && Sim(p, r, s) && r.state == s.state
    requires Replans(n, (false, r))
    ensures Agree(n, a, p, AfterAttempt(n, b, (false, r)), AfterAttempt(n, a, (false, s)), s2)
    decreases Budget(n, r), 0, 0
  {
    SimReplan(n, b, a, p, r, s);
    var (go, r1) := Replan(n, b, r);
    var (_, s1) := Replan(n, a, s);
    s2 := s1;
    if go {
      s2 := SimDrive(n, b, a, p, r1, s1);
    }
  }

  lemma {:induction false} SimDrive(n: Neop, b: Broker, a: Broker, p: seq<Entry>, r: Run, s: Run) returns (s2: Run)
    requires Passive(a) && (a.On? ==> b.On?) && Sim(p, r, s) && r.err.None?
    ensures Agree(n, a, p, Drive(n, b, r, None), Drive(n, a, s, None), s2)
    decreases Budget(n, r), 1
  {
    var r0, s0 := r.(core := r.core.(outputs := [])), s.(core := s.core.(outputs := []));
    var order := TopoOrder(r.core.plan.tasks);
    if order.Success? {
      assert order.value[0..] == order.value;
      s2 := SimFinish(n, b, a, p, r0, s0, order.value, 0, false);
    } else {
      s2 := s0;
    }
  }

  // ---- concluding -------------------------------------------------------------------------

  /** The reports agree in everything a caller sees, the gate's chatter aside. */
  ghost predicate SameReport(p: seq<Entry>, rep: Report, rep': Report) {
    && Sim(p, rep.run, rep'.run)
    && (rep.run.err.None? ==> rep.run.state == rep'.run.state)
    && rep.mem == rep'.mem && rep.twinAck == rep'.twinAck && rep.shadow == rep'.shadow
  }

  lemma SimFinalize(n: Neop, p: seq<Entry>, rep: Report, rep': Report)
    requires SameReport(p, rep, rep') && rep.run.err.None?
    ensures SameReport(p, Finalize(n, rep), Finalize(n, rep'))
  {
    var m, m' := WriteMemory(n, rep), WriteMemory(n, rep');
    if n.memWrite {
      SimLog(p, rep.run, rep'.run, [m.run.log[|rep.run.log|]]);
    }
    assert SameReport(p, m, m');
    SimWriteTwin(n, p, m, m');
    var t, t' := WriteTwin(n, m), WriteTwin(n, m');
    if t.run.err.None? && n.shadow {
      var predicted, actual := FirstOutput(t.run.core).GetOr(Null), t.run.core.who.msg.actual;
      SimLog(p, t.run, t'.run, [Ev(ShadowPredicted(predicted, actual, PyEq(predicted, actual)))]);
    }
  }

  lemma SimWriteTwin(n: Neop, p: seq<Entry>, rep: Report, rep': Report)
    requires SameReport(p, rep, rep') && rep.run.err.None?
    ensures SameReport(p, WriteTwin(n, rep), WriteTwin(n, rep'))
  {
    var msg := rep.run.core.who.msg;
    var draft := FirstOutput(rep.run.core).GetOr(Obj(map[]));
    if n.twinWrite && draft.Obj? {
      var (_, ack) := PutTwin(rep.mem, TenantOf(msg), OwnerOf(n, msg), draft.fields);
      if ack.Accepted? {
        SimLog(p, rep.run, rep'.run, [Ev(TwinWritten(OwnerOf(n, msg), ack.version))]);
      }
    }
  }

  lemma SimConclude(n: Neop, mem: Mem, p: seq<Entry>, r: Run, s: Run)
    requires Sim(p, r, s) && (r.err.None? ==> r.state == s.state && !Stopped(r))
    ensures SameReport(p, Conclude(n, mem, r), Conclude(n, mem, s))
  {
    if r.err.None? {
      var rep, rep' := Report(r, mem, None, None), Report(s, mem, None, None);
      SimFinalize(n, p, rep, rep');
      var f, f' := Finalize(n, rep), Finalize(n, rep');
      if f.run.err.None? {
        SimLog(p, f.run, f'.run, [Ev(RunEnd(f.run.state, f.run.core.replans))]);
      }
    }
  }

  /** Finishing a run that had ended never makes it look stopped. */
  lemma ConcludeKeepsEnded(n: Neop, mem: Mem, r: Run)
    requires !Stopped(r)
    ensures !Stopped(Conclude(n, mem, r).run)
  {
  }

  lemma ConcludePaused(n: Neop, mem: Mem, p: seq<Entry>, r: Run, s2: Run)
    requires Paused(r) && r.saved.Some? && PausedLike(p, r, r.saved.value, s2)
    ensures var rep := Conclude(n, mem, r);
            rep.mem == mem && Paused(rep.run) && rep.run.saved == r.saved && PausedLike(p, rep.run, r.saved.value, s2)
  {
    EraseAppend(r.log, [Ev(RunEnd(r.state, r.core.replans))]);
  }

  // ---- a run and its resumes --------------------------------------------------------------

  ghost predicate AllOn(bs: seq<Broker>) {
    forall i :: 0 <= i < |bs| ==> bs[i].On?
  }

  /** Resume each pause once, with the next broker, until the run ends or the brokers run out.
      Returns the last report and the trace of all segments in order. */
  ghost function Play(n: Neop, mem: Mem, rep: Report, bs: seq<Broker>, before: seq<Entry>): (Report, seq<Entry>)
    requires AllOn(bs)
    decreases |bs|
  {
    if bs == [] || !Paused(rep.run) || rep.run.saved.None? then (rep, before + rep.run.log)
    else Play(n, mem, Resume(n, bs[0], mem, rep.run.saved.value), bs[1..], before + rep.run.log)
  }

  /** Where a report stands against the passive run's final report u, which goes on from s2 if rep is paused. */
  ghost predicate Tracks(n: Neop, a: Broker, mem: Mem, p: seq<Entry>, rep: Report, u: Report, s2: Run) {
    if Paused(rep.run) then
      && rep.run.saved.Some? && Genuine(rep.run.saved.value)
      && PausedLike(p, rep.run, rep.run.saved.value, s2) && u == Conclude(n, mem, Rest(n, a, s2, rep.run.saved.value))
    else
      Unstopped(a, rep.run) ==> SameReport(p, rep, u)
  }

  lemma TracksConclude(n: Neop, a: Broker, mem: Mem, p: seq<Entry>, r: Run, s1: Run, s2: Run)
    requires Agree(n, a, p, r, s1, s2)
    ensures Tracks(n, a, mem, p, Conclude(n, mem, r), Conclude(n, mem, s1), s2)
  {
    if Paused(r) {
      ConcludePaused(n, mem, p, r, s2);
    } else if Unstopped(a, r) {
      SimConclude(n, mem, p, r, s1);
      if r.err.None? { ConcludeKeepsEnded(n, mem, r); }
    }
  }

  lemma ResumeAction(n: Neop, b: Broker, a: Broker, p: seq<Entry>, r: Run, s: Run, snap: Snapshot) returns (s2: Run)
    requires Passive(a) && b.On? && Sim(p, r, s) && r.err.None?
    requires Genuine(snap) && snap.scope == ActionPause && CoreOf(snap) == r.core
    ensures Agree(n, a, p, Drive(n, b, r, snap.taskId), Rest(n, a, s, snap), s2)
  {
    var order := TopoOrder(snap.plan.tasks).value;
    s2 := SimFinish(n, b, a, p, r, s, order, IndexOf(order, snap.taskId.value), true);
  }

  lemma ResumePoint(b: Broker, p: seq<Entry>, rep: Report, s: Run)
    requires b.On? && rep.run.saved.Some? && PausedLike(p, rep.run, rep.run.saved.value, s)
    ensures var (go, r) := Regrant(b, rep.run.saved.value);
            go ==> Sim(p + Erase(rep.run.log), r, s) && r.err.None? && CoreOf(rep.run.saved.value) == r.core
  {
    hide Erase, Resolve;
    var snap := rep.run.saved.value;
    var (go, r) := Regrant(b, snap);
    if go {
      RestoreSims(p, rep.run, snap, s);
      AwaitingIsChatter([], r.log[0], r.log[1]);
      assert r.log == [] + [r.log[0]] + [r.log[1]];
      SimChatter(p + Erase(rep.run.log), Restore(snap), s, r.log, []);
      assert Log(Restore(snap), r.log) == r && Log(s, []) == s;
    }
  }

  lemma TracksResume(n: Neop, b: Broker, a: Broker, mem: Mem, p: seq<Entry>, rep: Report, u: Report, s: Run)
    returns (s2: Run)
    requires Passive(a) && b.On? && Paused(rep.run) && Tracks(n, a, mem, p, rep, u, s)
    ensures var rep' := Resume(n, b, mem, rep.run.saved.value);
            rep'.run.err != Some(BlankGrantor) ==> Tracks(n, a, mem, p + Erase(rep.run.log), rep', u, s2)
  {
    hide Drive, Erase;
    var snap, p1 := rep.run.saved.value, p + Erase(rep.run.log);
    var (go, r) := Regrant(b, snap);
    ResumePoint(b, p, rep, s);
    s2 := s;
    if go {
      if snap.scope == ActionPause {
        s2 := ResumeAction(n, b, a, p1, r, s, snap);
        TracksConclude(n, a, mem, p1, Drive(n, b, r, snap.taskId), Rest(n, a, s, snap), s2);
      } else {
        s2 := SimDrive(n, b, a, p1, r, s);
        TracksConclude(n, a, mem, p1, Drive(n, b, r, None), Rest(n, a, s, snap), s2);
      }
    }
  }

  lemma TracksDispatch(n: Neop, b: Broker, a: Broker, mem: Mem, msg: Msg) returns (s2: Run)
    requires Passive(a) && (a.On? ==> b.On?)
    ensures Tracks(n, a, mem, [], Dispatch(n, b, mem, msg), Dispatch(n, a, mem, msg), s2)
  {
    hide Assemble, GatePlan, Drive, Conclude, Erase;
    AssembleEmits(n, mem, msg);
    var r := Start(n, mem, msg);
    s2 := r;
    if r.err.None? {
      SimPlanGate(n, b, a, [], r, r);
      var (go, r1) := GatePlan(n, b, r);
      var (go', s1) := GatePlan(n, a, r);
      s2 := s1;
      if go {
        s2 := SimDrive(n, b, a, [], r1, s1);
        TracksConclude(n, a, mem, [], Drive(n, b, r1, None), Drive(n, a, s1, None), s2);
      } else if go' {
        assert Agree(n, a, [], r1, Drive(n, a, s1, None), s2);
        TracksConclude(n, a, mem, [], r1, Drive(n, a, s1, None), s2);
      } else {
        TracksConclude(n, a, mem, [], r1, s1, s2);
      }
    }
  }

  /** What a caller sees of a finished run, and its whole trace, agree with the single run u. */
  ghost predicate SameEnd(rep: Report, log: seq<Entry>, u: Report) {
    && rep.run.core == u.run.core && rep.run.err == u.run.err
    && (rep.run.err.None? ==> rep.run.state == u.run.state)
    && rep.mem == u.mem && rep.twinAck == u.twinAck && rep.shadow == u.shadow
    && Erase(log) == Erase(u.run.log)
  }

  /** The run came to an end of its own: it is not waiting, was not denied, and no blank grantor raised. */
  predicate Ended(r: Run) {
    if r.err.Some? then r.err != Some(BlankGrantor) else !Stopped(r)
  }

  /** A paused run has stored a genuine snapshot of all it carries. */
  ghost predicate Resumable(r: Run) {
    Paused(r) ==> r.saved.Some? && Genuine(r.saved.value) && CoreOf(r.saved.value) == r.core
  }

  lemma DispatchResumable(n: Neop, b: Broker, mem: Mem, msg: Msg)
    ensures Resumable(Dispatch(n, b, mem, msg).run)
  {
    var s := TracksDispatch(n, b, Off, mem, msg);
  }

  lemma ResumeResumable(n: Neop, b: Broker, mem: Mem, snap: Snapshot)
    requires b.On? && Genuine(snap)
    ensures Resumable(Resume(n, b, mem, snap).run)
  {
    var s := Restore(snap);
    var rep := Report(s.(saved := Some(snap)), mem, None, None);
    var s2 := TracksResume(n, b, Off, mem, [], rep, Conclude(n, mem, Rest(n, Off, s, snap)), s);
  }

  lemma {:induction false} TracksPlay(n: Neop, a: Broker, mem: Mem, rep: Report, bs: seq<Broker>, before: seq<Entry>,
                                      u: Report, s: Run)
    requires Passive(a) && AllOn(bs)
    requires rep.run.err != Some(BlankGrantor) ==> Tracks(n, a, mem, Erase(before), rep, u, s)
    ensures var (rep', log) := Play(n, mem, rep, bs, before);
            Ended(rep'.run) && Unstopped(a, rep'.run) ==> SameEnd(rep', log, u)
    decreases |bs|
  {
    EraseAppend(before, rep.run.log);
    if bs != [] && Paused(rep.run) {
      var s2 := TracksResume(n, bs[0], a, mem, Erase(before), rep, u, s);
      TracksPlay(n, a, mem, Resume(n, bs[0], mem, rep.run.saved.value), bs[1..], before + rep.run.log, u, s2);
    }
  }

  /** A run paused any number of times, each pause resumed once, that comes to an end other than a denial has the
      state, plan, outputs, replan count, twin, memory and (gate chatter aside) trace of one uninterrupted run
      under an all-allow broker. */
  lemma PauseResumeTransparent(n: Neop, b: Broker, bs: seq<Broker>, mem: Mem, msg: Msg)
    requires b.On? && AllOn(bs)
    ensures var (rep, log) := Play(n, mem, Dispatch(n, b, mem, msg), bs, []);
            Ended(rep.run) ==> SameEnd(rep, log, Dispatch(n, ALL_ALLOW, mem, msg))
  {
    var u := Dispatch(n, ALL_ALLOW, mem, msg);
    var s := TracksDispatch(n, b, ALL_ALLOW, mem, msg);
    TracksPlay(n, ALL_ALLOW, mem, Dispatch(n, b, mem, msg), bs, [], u, s);
  }
}

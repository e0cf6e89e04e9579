/** The events of a run tell what it did: each stands beside what it reports, and reports it truly. */
module Telling {
  import opened Wrappers
  import opened Json
  import opened Approval
  import opened Plans
  import opened Memory
  import opened Agent
  import opened Transparency
  import opened Calls

  // ---- what the events must say ---------------------------------------------------------------

  /** The tool a call is for. */
  function ToolOf(e: Entry): string
    requires e.Invoked?
  {
    e.task.tool.GetOr("")
  }

  /** Entry e is the call of a tool that is not listed, or whose answer blocks with this reason. */
  ghost predicate BlocksCall(n: Neop, e: Entry, why: Value)
    requires e.Invoked?
  {
    if ToolOf(e) !in n.allowlist then why == Str(ToolOf(e))
    else
      exists out :: n.tool(e.attempt, ToolOf(e), e.inputs) == Returns(Obj(out))
                    && Truthy(Get(out, "_blocked")) && "reason" in out && out["reason"] == why
  }

  /** The verifier has said so of some task of this id. */
  ghost predicate VerifierSaid(n: Neop, who: Who, id: string, pass: bool) {
    exists k, twin, t, out :: n.verifier(k, twin, who.msg, t, out) == Returns(pass) && t.id == id
  }

  /** The planner has answered with tasks of these ids in attempt k. */
  ghost predicate PlannerSaid(n: Neop, who: Who, k: nat, ids: seq<string>) {
    exists twin :: n.planner(k, twin, who.msg).Returns? && ids == Ids(n.planner(k, twin, who.msg).value.tasks)
  }

  /** What the entry just before f must be. */
  ghost predicate Follows(n: Neop, who: Who, e: Entry, f: Entry) {
    match f
    case Invoked(_, _, task, _, _, _) => e == Ev(ToolCall(task.id, task.tool.GetOr("")))
    case Produced(_, _, _) => Answers(n, e, f)
    case Planned(_) => e == Ev(PlanStart)
    case Ev(ToolResult(id, _, out)) => e.Produced? && e.id == id && e.out == out
    case Ev(ToolBlocked(id, tool, why)) => e.Invoked? && e.task.id == id && tool == ToolOf(e) && BlocksCall(n, e, why)
    case Ev(VerifyEnd(id, pass)) => e == Ev(VerifyStart(id)) && VerifierSaid(n, who, id, pass)
    case Ev(PlanEnd(ids)) => e.Planned? && PlannerSaid(n, who, e.attempt, ids)
    case Ev(AwaitingEmitted(action, _)) => e.Consulted? && e.action == action && e.decision == Await
    case Ev(GrantEmitted(action, _, _)) => e.Resolved? && e.action == action && e.verdict == Some(Allow)
    case Ev(DenyEmitted(action, _, grantor)) =>
      || (e.Consulted? && e.action == action && e.decision == Deny && grantor.None?)
      || (e.Resolved? && e.action == action && e.verdict.Some? && e.verdict != Some(Allow))
    case _ => true
  }

  /** Such an entry never comes first. */
  predicate Second(f: Entry) {
    match f
    case Invoked(_, _, _, _, _, _) => true
    case Produced(_, _, _) => true
    case Planned(_) => true
    case Ev(e) => e.ToolResult? || e.ToolBlocked? || e.VerifyEnd? || e.PlanEnd? || e.AwaitingEmitted? || e.GrantEmitted? || e.DenyEmitted?
    case _ => false
  }

  /** What the entry just after e must be. */
  ghost predicate Precedes(n: Neop, e: Entry, f: Entry) {
    match e
    case Ev(ToolCall(_, _)) => f.Invoked?
    case Ev(PlanStart) => f.Planned?
    case Ev(ReplanStarted(_)) => f == Ev(PlanStart)
    case Produced(_, _, _) => f.Ev? && f.event.ToolResult?
    case Consulted(_, _, _, d) =>
      (d == Await ==> f.Ev? && f.event.AwaitingEmitted?) && (d == Deny ==> f.Ev? && f.event.DenyEmitted?)
    case Resolved(_, _, v) =>
      (v == Some(Allow) ==> f.Ev? && f.event.GrantEmitted?) && (v.Some? && v != Some(Allow) ==> f.Ev? && f.event.DenyEmitted?)
    case _ => true
  }

  /** Such an entry never comes last. */
  predicate First(e: Entry) {
    match e
    case Ev(x) => x.ToolCall? || x.PlanStart? || x.ReplanStarted?
    case Produced(_, _, _) => true
    case Consulted(_, _, _, d) => d != Allow
    case Resolved(_, _, v) => v.Some?
    case _ => false
  }

  ghost predicate ToldAt(n: Neop, who: Who, log: seq<Entry>, i: nat)
    requires i < |log|
  {
    && (if i > 0 then Follows(n, who, log[i - 1], log[i]) else !Second(log[i]))
    && (if i + 1 < |log| then Precedes(n, log[i], log[i + 1]) else !First(log[i]))
  }

  /** Every event stands where it belongs and says what was so. */
  ghost predicate Told(n: Neop, who: Who, log: seq<Entry>) {
    forall i: nat :: i < |log| ==> ToldAt(n, who, log, i)
  }

  lemma Loose(n: Neop, who: Who, e: Entry, f: Entry)
    ensures !First(e) ==> Precedes(n, e, f)
    ensures !Second(f) ==> Follows(n, who, e, f)
  {
  }

  lemma ToldJoins(n: Neop, who: Who, es: seq<Entry>, fs: seq<Entry>)
    requires Told(n, who, es) && Told(n, who, fs)
    ensures Told(n, who, es + fs)
  {
    hide Follows, Precedes, First, Second;
    var gs := es + fs;
    forall i: nat | i < |gs| ensures ToldAt(n, who, gs, i) {
      if i < |es| {
        assert ToldAt(n, who, es, i);
        if i + 1 < |gs| { Loose(n, who, gs[i], gs[i + 1]); }
      } else {
        assert ToldAt(n, who, fs, i - |es|);
        if i > 0 { Loose(n, who, gs[i - 1], gs[i]); }
      }
    }
  }

  // ---- pieces of a trace ----------------------------------------------------------------------

  lemma ToldOne(n: Neop, who: Who, e: Entry)
    requires !First(e) && !Second(e)
    ensures Told(n, who, [e])
  {
  }

  lemma ToldTwo(n: Neop, who: Who, e: Entry, f: Entry)
    requires !Second(e) && Precedes(n, e, f) && Follows(n, who, e, f) && !First(f)
    ensures Told(n, who, [e, f])
  {
  }

  lemma ToldThree(n: Neop, who: Who, e: Entry, f: Entry, g: Entry)
    requires !Second(e) && Precedes(n, e, f) && Follows(n, who, e, f) && Precedes(n, f, g) && Follows(n, who, f, g) && !First(g)
    ensures Told(n, who, [e, f, g])
  {
  }

  lemma ToldFour(n: Neop, who: Who, e: Entry, f: Entry, g: Entry, h: Entry)
    requires !Second(e) && Precedes(n, e, f) && Follows(n, who, e, f) && Precedes(n, f, g) && Follows(n, who, f, g)
    requires Precedes(n, g, h) && Follows(n, who, g, h) && !First(h)
    ensures Told(n, who, [e, f, g, h])
  {
  }

  /** Run r1 is run r gone on, its further entries told. */
  ghost predicate Tells(n: Neop, r: Run, r1: Run) {
    r.log <= r1.log && Told(n, r.core.who, r1.log[|r.log|..]) && r1.core.who == r.core.who
  }

  lemma TellsLog(n: Neop, r: Run, r1: Run, es: seq<Entry>)
    requires r1.log == r.log + es && Told(n, r.core.who, es) && r1.core.who == r.core.who
    ensures Tells(n, r, r1)
  {
    assert r1.log[|r.log|..] == es;
  }

  lemma TellsOn(n: Neop, r: Run, r1: Run, r2: Run)
    requires Tells(n, r, r1) && Tells(n, r1, r2)
    ensures Tells(n, r, r2)
  {
    ToldJoins(n, r.core.who, r1.log[|r.log|..], r2.log[|r1.log|..]);
    assert r2.log[|r.log|..] == r1.log[|r.log|..] + r2.log[|r1.log|..];
  }

  lemma TellsNothing(n: Neop, r: Run, r1: Run)
    requires r1.log == r.log && r1.core.who == r.core.who
    ensures Tells(n, r, r1)
  {
  }

  // ---- the steps of a run ---------------------------------------------------------------------

  lemma TellsGate(n: Neop, b: Broker, r: Run, scope: PauseScope, action: Action, taskId: Option<string>)
    requires b.On?
    ensures Tells(n, r, Gate(n, b, r, scope, action, taskId).1)
  {
    hide Decide, Tells, Told;
    var r1 := Gate(n, b, r, scope, action, taskId).1;
    if WellFormed(action) {
      var (decision, reason) := Consult(b, action);
      var e := Consulted(r.core.replans, action, Decide(action, b.policy).0, decision);
      match decision
      case Allow =>
        ToldOne(n, r.core.who, e);
        TellsLog(n, r, r1, [e]);
      case Deny =>
        var f := Ev(DenyEmitted(action, reason, None));
        ToldTwo(n, r.core.who, e, f);
        assert r.log + [e] + [f] == r.log + [e, f];
        TellsLog(n, r, r1, [e, f]);
      case Await =>
        var f := Ev(AwaitingEmitted(action, scope));
        ToldTwo(n, r.core.who, e, f);
        assert r.log + [e] + [f] == r.log + [e, f];
        TellsLog(n, r, r1, [e, f]);
    } else {
      TellsNothing(n, r, r1);
    }
  }

  lemma TellsCall(n: Neop, r: Run, t: Task)
    ensures Tells(n, r, CallTool(n, r, t).1)
  {
    hide Tells, Told, InputsOf;
    var tool, who := t.tool.GetOr(""), r.core.who;
    var inputs := InputsOf(who.msg.text, t.deps, r.core.outputs);
    var e := Ev(ToolCall(t.id, tool));
    var f := Invoked(r.core.replans, r.core.plan, t, TaskAction(who, t), inputs, tool in n.allowlist);
    var r1 := CallTool(n, r, t).1;
    var reply := Invoke(n, r.core.replans, tool, inputs);
    if reply.Raises? || (IsBlocked(reply.value) && "reason" !in reply.value.fields) {
      ToldTwo(n, who, e, f);
      TellsLog(n, r, r1, [e, f]);
    } else if IsBlocked(reply.value) {
      var g := Ev(ToolBlocked(t.id, tool, reply.value.fields["reason"]));
      assert BlocksCall(n, f, reply.value.fields["reason"]);
      ToldThree(n, who, e, f, g);
      assert r.log + [e, f] + [g] == r.log + [e, f, g];
      TellsLog(n, r, r1, [e, f, g]);
    } else {
      var g, h := Produced(r.core.replans, t.id, reply.value), Ev(ToolResult(t.id, tool, reply.value));
      ToldFour(n, who, e, f, g, h);
      assert r.log + [e, f] + [g, h] == r.log + [e, f, g, h];
      TellsLog(n, r, r1, [e, f, g, h]);
    }
  }

  lemma TellsVerify(n: Neop, r: Run, t: Task)
    ensures Tells(n, r, Verify(n, r, t).1)
  {
    hide Tells, Told;
    var r1 := Verify(n, r, t).1;
    if n.verifies {
      var e := Ev(VerifyStart(t.id));
      var reply := n.verifier(r.core.replans, r.core.twin, r.core.who.msg, t, Lookup(r.core.outputs, t.id));
      if reply.Raises? {
        ToldOne(n, r.core.who, e);
        TellsLog(n, r, r1, [e]);
      } else {
        var f := Ev(VerifyEnd(t.id, reply.value));
        assert VerifierSaid(n, r.core.who, t.id, reply.value);
        ToldTwo(n, r.core.who, e, f);
        assert r.log + [e] + [f] == r.log + [e, f];
        TellsLog(n, r, r1, [e, f]);
      }
    } else {
      TellsNothing(n, r, r1);
    }
  }

  lemma TellsTask(n: Neop, b: Broker, r: Run, t: Task, skip: bool)
    ensures Tells(n, r, ExecTask(n, b, r, t, skip).1)
  {
    hide Tells, Gate, CallTool, Verify;
    var r0 := r.(state := Executing);
    var (go, r1) := GateTask(n, b, r0, t, skip);
    TellsNothing(n, r, r0);
    if b.On? && t.HasTool() && !skip { TellsGate(n, b, r0, ActionPause, TaskAction(r.core.who, t), Some(t.id)); }
    else { TellsNothing(n, r0, r1); }
    TellsOn(n, r, r0, r1);
    if go {
      var (ok, r2) := if t.HasTool() then CallTool(n, r1, t) else (true, r1);
      if t.HasTool() { TellsCall(n, r1, t); } else { TellsNothing(n, r1, r2); }
      TellsOn(n, r, r1, r2);
      if ok {
        TellsVerify(n, r2, t);
        TellsOn(n, r, r2, Verify(n, r2, t).1);
      }
    }
  }

  lemma {:induction false} TellsExec(n: Neop, b: Broker, r: Run, tasks: seq<Task>, skip: bool)
    ensures Tells(n, r, ExecFrom(n, b, r, tasks, skip).1)
    decreases |tasks|
  {
    hide Tells, ExecTask;
    if tasks == [] {
      TellsNothing(n, r, r);
    } else {
      TellsTask(n, b, r, tasks[0], skip);
      var (ok, r1) := ExecTask(n, b, r, tasks[0], skip);
      if ok {
        TellsExec(n, b, r1, tasks[1..], false);
        TellsOn(n, r, r1, ExecFrom(n, b, r1, tasks[1..], false).1);
      }
    }
  }

  lemma TellsExecute(n: Neop, b: Broker, r: Run, from: Option<string>)
    ensures Tells(n, r, Execute(n, b, r, from).1)
  {
    hide Tells, ExecFrom, TopoOrder;
    var r0 := if from.Some? then r else r.(core := r.core.(outputs := []));
    var r1 := Execute(n, b, r, from).1;
    TellsNothing(n, r, r0);
    var order := TopoOrder(r.core.plan.tasks);
    if order.Failure? || (from.Some? && IndexOf(order.value, from.value) == |order.value|) {
      TellsNothing(n, r, r1);
    } else {
      if from.None? { TellsExec(n, b, r0, order.value, false); }
      else { TellsExec(n, b, r0, order.value[IndexOf(order.value, from.value)..], true); }
      TellsOn(n, r, r0, r1);
    }
  }

  lemma ToldPlan(n: Neop, r: Run)
    ensures var es := MakePlan(n, r).log[|r.log|..];
            && MakePlan(n, r).log == r.log + es && MakePlan(n, r).core.who == r.core.who
            && Told(n, r.core.who, es) && es != [] && es[0] == Ev(PlanStart)
  {
    hide Told;
    var e, f := Ev(PlanStart), Planned(r.core.replans);
    var reply := n.planner(r.core.replans, r.core.twin, r.core.who.msg);
    if reply.Raises? {
      ToldTwo(n, r.core.who, e, f);
      assert (r.log + [e, f])[|r.log|..] == [e, f];
    } else {
      var g := Ev(PlanEnd(Ids(reply.value.tasks)));
      assert PlannerSaid(n, r.core.who, r.core.replans, Ids(reply.value.tasks));
      ToldThree(n, r.core.who, e, f, g);
      assert (r.log + [e, f] + [g])[|r.log|..] == [e, f, g];
    }
  }

  /** A replan is announced just before it plans. */
  lemma ToldBefore(n: Neop, who: Who, e: Entry, es: seq<Entry>)
    requires Told(n, who, es) && es != [] && es[0] == Ev(PlanStart) && e.Ev? && e.event.ReplanStarted?
    ensures Told(n, who, [e] + es)
  {
    var gs := [e] + es;
    forall i: nat | i < |gs| ensures ToldAt(n, who, gs, i) {
      if i > 0 { assert ToldAt(n, who, es, i - 1); }
    }
  }

  lemma TellsReplan(n: Neop, b: Broker, r: Run)
    ensures Tells(n, r, Replan(n, b, r).1)
  {
    hide Tells, Told, MakePlan, Gate;
    var r0 := r.(core := r.core.(replans := r.core.replans + 1));
    if r0.core.replans > n.maxReplans {
      var e := Ev(EscalatedAfter(r0.core.replans));
      ToldOne(n, r.core.who, e);
      TellsLog(n, r, Replan(n, b, r).1, [e]);
    } else {
      var e := Ev(ReplanStarted(r0.core.replans));
      var r1 := Emit(r0, ReplanStarted(r0.core.replans)).(state := Replanning);
      var r2 := MakePlan(n, r1);
      ToldPlan(n, r1);
      var es := r2.log[|r1.log|..];
      ToldBefore(n, r.core.who, e, es);
      assert r.log + [e] + es == r.log + ([e] + es);
      TellsLog(n, r, r2, [e] + es);
      if r2.err.None? && b.On? {
        TellsGate(n, b, r2, PlanPause, PlanAction(n, r2.core), None);
        TellsOn(n, r, r2, GatePlan(n, b, r2).1);
      }
    }
  }

  lemma {:induction false} TellsDrive(n: Neop, b: Broker, r: Run, from: Option<string>)
    ensures Tells(n, r, Drive(n, b, r, from))
    decreases Budget(n, r)
  {
    hide Tells, Execute, Gate;
    TellsExecute(n, b, r, from);
    var out := Execute(n, b, r, from);
    if Replans(n, out) {
      TellsReplan(n, b, out.1);
      var (go, r1) := Replan(n, b, out.1);
      TellsOn(n, r, out.1, r1);
      if go {
        TellsDrive(n, b, r1, None);
        TellsOn(n, r, r1, Drive(n, b, r1, None));
      }
    } else {
      assert Drive(n, b, r, from) == AfterAttempt(n, b, out);
      TellsNothing(n, out.1, Drive(n, b, r, from));
      TellsOn(n, r, out.1, Drive(n, b, r, from));
    }
  }

  // ---- whole runs -----------------------------------------------------------------------------

  lemma TellsConclude(n: Neop, mem: Mem, r: Run)
    ensures Tells(n, r, Conclude(n, mem, r).run)
  {
    hide Conclude;
    ConcludeEmits(n, mem, r);
  }

  lemma ToldStart(n: Neop, mem: Mem, msg: Msg)
    ensures var r := Start(n, mem, msg); r.core.who == WhoOf(n, msg) && Told(n, r.core.who, r.log)
  {
    hide Told, MakePlan;
    var r := Assemble(n, mem, msg);
    ToldAssembly(n, mem, msg);
    if n.plans {
      ToldPlan(n, r);
      ToldJoins(n, r.core.who, r.log, MakePlan(n, r).log[|r.log|..]);
    }
  }

  lemma ToldAssembly(n: Neop, mem: Mem, msg: Msg)
    ensures var r := Assemble(n, mem, msg); r.core.who == WhoOf(n, msg) && Told(n, r.core.who, r.log)
  {
    hide Retrieve, GetTwin;
    var r := Assemble(n, mem, msg);
    assert forall i :: 0 <= i < |r.log| ==> !First(r.log[i]) && !Second(r.log[i]);
    ToldLoose(n, r.core.who, r.log);
  }

  lemma ToldLoose(n: Neop, who: Who, es: seq<Entry>)
    requires forall i :: 0 <= i < |es| ==> !First(es[i]) && !Second(es[i])
    ensures Told(n, who, es)
  {
    forall i: nat | i < |es| ensures ToldAt(n, who, es, i) {
      if i > 0 { Loose(n, who, es[i - 1], es[i]); }
      if i + 1 < |es| { Loose(n, who, es[i], es[i + 1]); }
    }
  }

  lemma ToldDispatch(n: Neop, b: Broker, mem: Mem, msg: Msg)
    ensures var r := Dispatch(n, b, mem, msg).run; r.core.who == WhoOf(n, msg) && Told(n, r.core.who, r.log)
    ensures Start(n, mem, msg).log <= Dispatch(n, b, mem, msg).run.log
  {
    hide Start, Gate, Drive, Conclude, Told;
    ToldStart(n, mem, msg);
    var r := Start(n, mem, msg);
    if r.err.None? {
      var (go, r1) := GatePlan(n, b, r);
      if b.On? { TellsGate(n, b, r, PlanPause, PlanAction(n, r.core), None); } else { TellsNothing(n, r, r1); }
      var r2 := if go then Drive(n, b, r1, None) else r1;
      if go {
        TellsDrive(n, b, r1, None);
        TellsOn(n, r, r1, r2);
      }
      TellsConclude(n, mem, r2);
      TellsOn(n, r, r2, Conclude(n, mem, r2).run);
      ToldAll(n, r, Conclude(n, mem, r2).run);
    }
  }

  lemma ToldAll(n: Neop, r: Run, r1: Run)
    requires Told(n, r.core.who, r.log) && Tells(n, r, r1)
    ensures Told(n, r.core.who, r1.log) && r1.core.who == r.core.who
  {
    ToldJoins(n, r.core.who, r.log, r1.log[|r.log|..]);
    assert r1.log == r.log + r1.log[|r.log|..];
  }

  lemma ToldRegrant(n: Neop, b: Broker, snap: Snapshot)
    requires b.On?
    ensures var r := Regrant(b, snap).1; r.core.who == CoreOf(snap).who && Told(n, r.core.who, r.log)
  {
    hide Resolve, Told;
    var r, res := Regrant(b, snap).1, Resolve(b, snap.action);
    var e := Resolved(snap.replans, snap.action, if res.Success? then Some(res.value.0) else None);
    if res.Failure? {
      ToldOne(n, r.core.who, e);
      assert [] + [e] == [e];
    } else {
      var f := Ev(if res.value.0 == Allow then GrantEmitted(snap.action, res.value.1, b.grantor)
                  else DenyEmitted(snap.action, res.value.1, b.grantor));
      ToldTwo(n, r.core.who, e, f);
      assert [] + [e] + [f] == [e, f];
    }
  }

  lemma ToldResume(n: Neop, b: Broker, mem: Mem, snap: Snapshot)
    requires b.On?
    ensures var r := Resume(n, b, mem, snap).run; r.core.who == CoreOf(snap).who && Told(n, r.core.who, r.log)
  {
    hide Regrant, Drive, Conclude, Told, Tells;
    ToldRegrant(n, b, snap);
    var (go, r) := Regrant(b, snap);
    var from := if snap.scope == ActionPause then snap.taskId else None;
    var r1 := if !go then r else Drive(n, b, r, from);
    if go { TellsDrive(n, b, r, from); } else { TellsNothing(n, r, r1); }
    TellsConclude(n, mem, r1);
    TellsOn(n, r, r1, Conclude(n, mem, r1).run);
    ToldAll(n, r, Conclude(n, mem, r1).run);
  }

  lemma {:induction false} ToldPlay(n: Neop, mem: Mem, rep: Report, bs: seq<Broker>, before: seq<Entry>)
    requires AllOn(bs) && Resumable(rep.run)
    requires Told(n, rep.run.core.who, before) && Told(n, rep.run.core.who, rep.run.log)
    ensures Told(n, rep.run.core.who, Play(n, mem, rep, bs, before).1)
    decreases |bs|
  {
    hide Resume, Told;
    ToldJoins(n, rep.run.core.who, before, rep.run.log);
    if bs != [] && Paused(rep.run) {
      ToldResume(n, bs[0], mem, rep.run.saved.value);
      ResumeResumable(n, bs[0], mem, rep.run.saved.value);
      ToldPlay(n, mem, Resume(n, bs[0], mem, rep.run.saved.value), bs[1..], before + rep.run.log);
    }
  }

  /** Across a run and all its resumes: every call is announced and every output reported, a block with its own reason; a
      verdict is one the verifier gave of that task and a plan's ids are those the planner gave in that attempt; an
      await, a grant and a denial each report the check just before them, and no such check goes unreported. */
  lemma EventsTellTheTruth(n: Neop, b: Broker, bs: seq<Broker>, mem: Mem, msg: Msg)
    requires AllOn(bs)
    ensures Told(n, WhoOf(n, msg), Play(n, mem, Dispatch(n, b, mem, msg), bs, []).1)
  {
    hide Dispatch, Play;
    DispatchResumable(n, b, mem, msg);
    ToldDispatch(n, b, mem, msg);
    ToldPlay(n, mem, Dispatch(n, b, mem, msg), bs, []);
  }
}

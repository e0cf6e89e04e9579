/** What stands around every tool call of a run and its resumes: the approval of its plan before it, and after it the
    answer of a listed tool. */
module Calls {
  import opened Wrappers
  import opened Json
  import opened Approval
  import opened Plans
  import opened Memory
  import opened Agent
  import opened Transparency

  // ---- what a trace must show ---------------------------------------------------------------

  /** The call is for the task's own action, by the run's seat and tenant. */
  ghost predicate ProperCall(n: Neop, who: Who, e: Entry)
    requires e.Invoked?
  {
    && e.task.HasTool()
    && e.action == Action(e.task.scope.GetOr("tool"), e.task.tool.value, who.seat, who.tenant, e.task.target)
    && (e.allowed <==> e.task.tool.value in n.allowlist)
  }

  /** Entry f is the output of call e: the listed tool's own answer to the inputs of that call. */
  ghost predicate Answers(n: Neop, e: Entry, f: Entry)
    requires f.Produced?
  {
    && e.Invoked? && e.attempt == f.attempt && e.task.id == f.id
    && e.task.tool.GetOr("") in n.allowlist
    && n.tool(e.attempt, e.task.tool.GetOr(""), e.inputs) == Returns(f.out)
    && !(f.out.Obj? && "_blocked" in f.out.fields && Truthy(f.out.fields["_blocked"]))
  }

  /** The entry is a check, at a gate or of a grant, that allowed the action in attempt k. */
  predicate Allowed(e: Entry, k: nat, action: Action) {
    match e
    case Consulted(k', a, _, d) => k' == k && a == action && d == Allow
    case Resolved(k', a, v) => k' == k && a == action && v == Some(Allow)
    case _ => false
  }

  /** Place j allowed the action in attempt k, and nothing has been planned since. */
  ghost predicate AllowedAt(log: seq<Entry>, j: nat, k: nat, action: Action) {
    j < |log| && Allowed(log[j], k, action) && forall i :: j < i < |log| ==> !log[i].Planned?
  }

  ghost predicate Approved(log: seq<Entry>, k: nat, action: Action) {
    exists j: nat :: AllowedAt(log, j, k, action)
  }

  /** What a seat asks to be allowed before it executes a plan. */
  function Asking(n: Neop, who: Who, plan: Plan): Action {
    Action("plan", plan.planId.GetOr("plan"), who.seat, who.tenant, Some(n.id))
  }

  ghost predicate LawfulAt(n: Neop, gated: bool, who: Who, log: seq<Entry>, i: nat)
    requires i < |log|
  {
    var e := log[i];
    && (e.Invoked? ==> ProperCall(n, who, e) && (gated ==> Approved(log[..i], e.attempt, Asking(n, who, e.plan))))
    && (e.Produced? ==> i > 0 && Answers(n, log[i - 1], e))
  }

  /** Every call is proper and, if the run is gated, of an approved plan; every output answers the call before it. */
  ghost predicate Lawful(n: Neop, gated: bool, who: Who, log: seq<Entry>) {
    forall i: nat :: i < |log| ==> LawfulAt(n, gated, who, log, i)
  }

  // ---- one attempt --------------------------------------------------------------------------

  /** An attempt at core c's plan may record this. */
  ghost predicate Fits(n: Neop, c: Core, e: Entry) {
    && !e.Planned?
    && (e.Invoked? ==> e.attempt == c.replans && e.plan == c.plan && ProperCall(n, c.who, e))
  }

  ghost predicate FitsAt(n: Neop, c: Core, es: seq<Entry>, i: nat)
    requires i < |es|
  {
    Fits(n, c, es[i]) && (es[i].Produced? ==> i > 0 && Answers(n, es[i - 1], es[i]))
  }

  /** Entries of one attempt at core c's plan. */
  ghost predicate Within(n: Neop, c: Core, es: seq<Entry>) {
    forall i: nat :: i < |es| ==> FitsAt(n, c, es, i)
  }

  lemma WithinJoins(n: Neop, c: Core, es: seq<Entry>, fs: seq<Entry>)
    requires Within(n, c, es) && Within(n, c, fs)
    ensures Within(n, c, es + fs)
  {
    var gs := es + fs;
    hide Fits, Answers;
    forall i: nat | i < |gs| ensures FitsAt(n, c, gs, i) {
      assert if i < |es| then FitsAt(n, c, es, i) else FitsAt(n, c, fs, i - |es|);
    }
  }

  /** What an attempt may record does not hang on its outputs so far. */
  lemma WithinEither(n: Neop, c: Core, c': Core, es: seq<Entry>)
    requires Within(n, c, es) && SameButOutputs(c, c')
    ensures Within(n, c', es)
  {
    forall i: nat | i < |es| ensures FitsAt(n, c', es, i) {
      assert FitsAt(n, c, es, i);
    }
  }

  /** The run recorded nothing but what an attempt at its plan may, and has still the same plan. */
  ghost predicate Attempts(n: Neop, r: Run, r1: Run) {
    && r.log <= r1.log && Within(n, r.core, r1.log[|r.log|..]) && SameButOutputs(r1.core, r.core)
    && (r1.saved == r.saved || (r1.saved.Some? && r1.saved.value.scope == ActionPause))
  }

  lemma AttemptsOn(n: Neop, r: Run, r1: Run, r2: Run)
    requires Attempts(n, r, r1) && Attempts(n, r1, r2)
    ensures Attempts(n, r, r2)
  {
    WithinEither(n, r1.core, r.core, r2.log[|r1.log|..]);
    assert r2.log[|r.log|..] == r1.log[|r.log|..] + r2.log[|r1.log|..];
    WithinJoins(n, r.core, r1.log[|r.log|..], r2.log[|r1.log|..]);
  }

  lemma AttemptsLog(n: Neop, r: Run, r1: Run, es: seq<Entry>)
    requires r1.log == r.log + es && Within(n, r.core, es) && SameButOutputs(r1.core, r.core)
    requires r1.saved == r.saved || (r1.saved.Some? && r1.saved.value.scope == ActionPause)
    ensures Attempts(n, r, r1)
  {
    assert r1.log[|r.log|..] == es;
  }

  lemma AttemptGate(n: Neop, b: Broker, r: Run, action: Action, taskId: Option<string>)
    requires b.On?
    ensures Attempts(n, r, Gate(n, b, r, ActionPause, action, taskId).1)
  {
    var r1 := Gate(n, b, r, ActionPause, action, taskId).1;
    var es := r1.log[|r.log|..];
    assert r1.log == r.log + es;
    AttemptsLog(n, r, r1, es);
  }

  lemma AttemptCall(n: Neop, r: Run, t: Task)
    requires t.HasTool()
    ensures Attempts(n, r, CallTool(n, r, t).1)
  {
    var r1 := CallTool(n, r, t).1;
    var es := r1.log[|r.log|..];
    assert r1.log == r.log + es;
    AttemptsLog(n, r, r1, es);
  }

  lemma AttemptVerify(n: Neop, r: Run, t: Task)
    ensures Attempts(n, r, Verify(n, r, t).1)
  {
    var r1 := Verify(n, r, t).1;
    var es := r1.log[|r.log|..];
    assert r1.log == r.log + es;
    AttemptsLog(n, r, r1, es);
  }

  lemma AttemptTask(n: Neop, b: Broker, r: Run, t: Task, skip: bool)
    ensures Attempts(n, r, ExecTask(n, b, r, t, skip).1)
  {
    hide Gate, CallTool, Verify;
    var r0 := r.(state := Executing);
    var (go, r1) := GateTask(n, b, r0, t, skip);
    AttemptsLog(n, r, r0, []);
    if b.On? && t.HasTool() && !skip { AttemptGate(n, b, r0, TaskAction(r.core.who, t), Some(t.id)); }
    AttemptsOn(n, r, r0, r1);
    if go {
      var (ok, r2) := if t.HasTool() then CallTool(n, r1, t) else (true, r1);
      if t.HasTool() { AttemptCall(n, r1, t); }
      AttemptsOn(n, r, r1, r2);
      if ok {
        AttemptVerify(n, r2, t);
        AttemptsOn(n, r, r2, Verify(n, r2, t).1);
      }
    }
  }

  lemma {:induction false} AttemptExec(n: Neop, b: Broker, r: Run, tasks: seq<Task>, skip: bool)
    ensures Attempts(n, r, ExecFrom(n, b, r, tasks, skip).1)
    decreases |tasks|
  {
    hide ExecTask;
    if tasks == [] {
    } else {
      AttemptTask(n, b, r, tasks[0], skip);
      var (ok, r1) := ExecTask(n, b, r, tasks[0], skip);
      if ok {
        AttemptExec(n, b, r1, tasks[1..], false);
        AttemptsOn(n, r, r1, ExecFrom(n, b, r1, tasks[1..], false).1);
      }
    }
  }

  lemma AttemptExecute(n: Neop, b: Broker, r: Run, resumeFrom: Option<string>)
    ensures Attempts(n, r, Execute(n, b, r, resumeFrom).1)
  {
    hide ExecFrom, TopoOrder;
    var r0 := if resumeFrom.Some? then r else r.(core := r.core.(outputs := []));
    AttemptsLog(n, r, r0, []);
    var order := TopoOrder(r.core.plan.tasks);
    if order.Success? {
      if resumeFrom.None? {
        AttemptExec(n, b, r0, order.value, false);
        AttemptsOn(n, r, r0, ExecFrom(n, b, r0, order.value, false).1);
      } else if IndexOf(order.value, resumeFrom.value) < |order.value| {
        AttemptExec(n, b, r0, order.value[IndexOf(order.value, resumeFrom.value)..], true);
      }
    }
  }

  // ---- a lawful trace grows -----------------------------------------------------------------

  lemma ApprovedStays(log: seq<Entry>, es: seq<Entry>, k: nat, action: Action)
    requires Approved(log, k, action) && forall i :: 0 <= i < |es| ==> !es[i].Planned?
    ensures Approved(log + es, k, action)
  {
    var j: nat :| AllowedAt(log, j, k, action);
    assert AllowedAt(log + es, j, k, action);
  }

  lemma ApprovedNow(log: seq<Entry>, e: Entry, k: nat, action: Action)
    requires Allowed(e, k, action)
    ensures Approved(log + [e], k, action)
  {
    assert AllowedAt(log + [e], |log|, k, action);
  }

  /** Lawful so far, and the plan at hand is approved. */
  ghost predicate Ready(n: Neop, gated: bool, before: seq<Entry>, r: Run) {
    && Lawful(n, gated, r.core.who, before + r.log)
    && (gated ==> Approved(before + r.log, r.core.replans, Asking(n, r.core.who, r.core.plan)))
  }

  lemma LawfulGrows(n: Neop, gated: bool, c: Core, log: seq<Entry>, es: seq<Entry>)
    requires Lawful(n, gated, c.who, log) && Within(n, c, es)
    requires gated ==> Approved(log, c.replans, Asking(n, c.who, c.plan))
    ensures Lawful(n, gated, c.who, log + es)
    ensures gated ==> Approved(log + es, c.replans, Asking(n, c.who, c.plan))
  {
    hide Approved, Answers, ProperCall;
    var all := log + es;
    forall i: nat | i < |es| ensures !es[i].Planned? {
      assert FitsAt(n, c, es, i);
    }
    if gated { ApprovedStays(log, es, c.replans, Asking(n, c.who, c.plan)); }
    forall i: nat | i < |all| ensures LawfulAt(n, gated, c.who, all, i) {
      if i < |log| {
        assert all[..i] == log[..i];
        assert LawfulAt(n, gated, c.who, log, i);
      } else {
        var j := i - |log|;
        assert FitsAt(n, c, es, j);
        assert all[i] == es[j] && all[..i] == log + es[..j];
        if gated { ApprovedStays(log, es[..j], c.replans, Asking(n, c.who, c.plan)); }
      }
    }
  }

  /** Entries that are neither calls nor outputs. */
  lemma LawfulPlain(n: Neop, gated: bool, who: Who, log: seq<Entry>, es: seq<Entry>)
    requires Lawful(n, gated, who, log) && forall i :: 0 <= i < |es| ==> !es[i].Invoked? && !es[i].Produced?
    ensures Lawful(n, gated, who, log + es)
  {
    hide Approved, Answers, ProperCall;
    var all := log + es;
    forall i: nat | i < |all| ensures LawfulAt(n, gated, who, all, i) {
      if i < |log| {
        assert all[..i] == log[..i];
        assert LawfulAt(n, gated, who, log, i);
      }
    }
  }

  lemma ReadyAttempt(n: Neop, gated: bool, before: seq<Entry>, r: Run, r1: Run)
    requires Ready(n, gated, before, r) && Attempts(n, r, r1)
    ensures Ready(n, gated, before, r1)
  {
    var es := r1.log[|r.log|..];
    assert before + r1.log == before + r.log + es;
    LawfulGrows(n, gated, r.core, before + r.log, es);
  }

  // ---- whole runs ---------------------------------------------------------------------------

  /** A pause at a plan gate asks about the plan it stored. */
  ghost predicate SavedAsks(n: Neop, saved: Option<Snapshot>) {
    saved.Some? && saved.value.scope == PlanPause ==>
      saved.value.action == Asking(n, CoreOf(saved.value).who, saved.value.plan)
  }

  /** Lawful, and fit to be taken up again if it is paused. */
  ghost predicate Sound(n: Neop, gated: bool, before: seq<Entry>, r: Run) {
    && Lawful(n, gated, r.core.who, before + r.log) && SavedAsks(n, r.saved)
    && (Paused(r) && r.saved.Some? && r.saved.value.scope == ActionPause ==> Ready(n, gated, before, r))
  }

  lemma SoundPlain(n: Neop, gated: bool, before: seq<Entry>, r: Run, r1: Run)
    requires Sound(n, gated, before, r) && Emits(r, r1) && (Paused(r1) ==> Paused(r))
    ensures Sound(n, gated, before, r1)
  {
    hide Approved;
    var es, action := r1.log[|r.log|..], Asking(n, r.core.who, r.core.plan);
    assert before + r1.log == before + r.log + es;
    LawfulPlain(n, gated, r.core.who, before + r.log, es);
    if gated && Approved(before + r.log, r.core.replans, action) {
      ApprovedStays(before + r.log, es, r.core.replans, action);
    }
  }

  lemma ReadyPlan(n: Neop, b: Broker, gated: bool, before: seq<Entry>, r: Run)
    requires (gated ==> b.On?) && Lawful(n, gated, r.core.who, before + r.log) && SavedAsks(n, r.saved)
    ensures var (go, r1) := GatePlan(n, b, r);
            && r1.core == r.core && Lawful(n, gated, r.core.who, before + r1.log) && SavedAsks(n, r1.saved)
            && (go ==> Ready(n, gated, before, r1))
            && (!go && Paused(r1) && r.err.None? && !Stopped(r) ==> r1.saved.Some? && r1.saved.value.scope == PlanPause)
  {
    var action := PlanAction(n, r.core);
    if b.On? && WellFormed(action) {
      var e := Consulted(r.core.replans, action, Decide(action, b.policy).0, Consult(b, action).0);
      var r1 := GatePlan(n, b, r).1;
      var es := r1.log[|r.log|..];
      assert before + r1.log == before + r.log + es;
      LawfulPlain(n, gated, r.core.who, before + r.log, es);
      if Consult(b, action).0 == Allow {
        assert es == [e];
        ApprovedNow(before + r.log, e, r.core.replans, action);
      }
    }
  }

  lemma LawfulMakePlan(n: Neop, gated: bool, before: seq<Entry>, r: Run)
    requires Lawful(n, gated, r.core.who, before + r.log)
    ensures var r1 := MakePlan(n, r);
            && r1.core.who == r.core.who && r1.core.replans == r.core.replans && r1.saved == r.saved && !Stopped(r1)
            && Lawful(n, gated, r.core.who, before + r1.log)
  {
    var es := MakePlan(n, r).log[|r.log|..];
    assert before + MakePlan(n, r).log == before + r.log + es;
    LawfulPlain(n, gated, r.core.who, before + r.log, es);
  }

  lemma ReadyReplan(n: Neop, b: Broker, gated: bool, before: seq<Entry>, r: Run)
    requires (gated ==> b.On?) && Lawful(n, gated, r.core.who, before + r.log) && SavedAsks(n, r.saved) && r.err.None?
    ensures var (go, r1) := Replan(n, b, r);
            && r1.core.who == r.core.who && (go ==> Ready(n, gated, before, r1) && SavedAsks(n, r1.saved))
            && (!go ==> Sound(n, gated, before, r1)) && (go ==> r1.core.replans == r.core.replans + 1 <= n.maxReplans)
  {
    hide GatePlan, MakePlan;
    var r1 := r.(core := r.core.(replans := r.core.replans + 1));
    var es := if r1.core.replans > n.maxReplans then [Ev(EscalatedAfter(r1.core.replans))] else [Ev(ReplanStarted(r1.core.replans))];
    assert before + (r.log + es) == before + r.log + es;
    LawfulPlain(n, gated, r.core.who, before + r.log, es);
    if r1.core.replans <= n.maxReplans {
      var r2 := Emit(r1, ReplanStarted(r1.core.replans)).(state := Replanning);
      LawfulMakePlan(n, gated, before, r2);
      ReadyPlan(n, b, gated, before, MakePlan(n, r2));
    }
  }

  lemma {:induction false} SoundAfter(n: Neop, b: Broker, gated: bool, before: seq<Entry>, out: (bool, Run))
    requires (gated ==> b.On?) && Ready(n, gated, before, out.1) && SavedAsks(n, out.1.saved)
    ensures var r1 := AfterAttempt(n, b, out); Sound(n, gated, before, r1) && r1.core.who == out.1.core.who
    decreases Budget(n, out.1), 0
  {
    hide Replan, Lawful, Approved;
    if Replans(n, out) {
      ReadyReplan(n, b, gated, before, out.1);
      var (go, r1) := Replan(n, b, out.1);
      if go { SoundDrive(n, b, gated, before, r1, None); }
    }
  }

  lemma {:induction false} SoundDrive(n: Neop, b: Broker, gated: bool, before: seq<Entry>, r: Run, from: Option<string>)
    requires (gated ==> b.On?) && Ready(n, gated, before, r) && SavedAsks(n, r.saved)
    ensures var r1 := Drive(n, b, r, from); Sound(n, gated, before, r1) && r1.core.who == r.core.who
    decreases Budget(n, r), 1
  {
    hide Execute, Ready;
    var out := Execute(n, b, r, from);
    AttemptExecute(n, b, r, from);
    ReadyAttempt(n, gated, before, r, out.1);
    SoundAfter(n, b, gated, before, out);
  }

  /** What is only told of a run that is over. */
  predicate Closing(e: Entry) {
    e.Ev? && (e.event.MemoryWritten? || e.event.TwinWritten? || e.event.ShadowPredicted? || e.event.RunEnd?)
  }

  /** Run r1 is run r with more such events. */
  ghost predicate Emits(r: Run, r1: Run) {
    && r.log <= r1.log && (forall i :: |r.log| <= i < |r1.log| ==> Closing(r1.log[i]))
    && r1.core == r.core && r1.saved == r.saved
  }

  lemma FinalizeEmits(n: Neop, rep: Report)
    ensures Emits(rep.run, Finalize(n, rep).run)
  {
    hide PutTwin, Write, Consolidate;
    var m := WriteMemory(n, rep);
    assert Emits(rep.run, m.run);
    var t := WriteTwin(n, m);
    assert Emits(m.run, t.run);
    assert Emits(t.run, WriteShadow(n, t).run);
  }

  /** Finishing only emits events. */
  lemma ConcludeEmits(n: Neop, mem: Mem, r: Run)
    ensures var r1 := Conclude(n, mem, r).run; Emits(r, r1) && (Paused(r1) ==> Paused(r))
  {
    hide Finalize;
    FinalizeEmits(n, Report(r, mem, None, None));
    if !Stopped(r) { ConcludeKeepsEnded(n, mem, r); }
  }

  lemma SoundConclude(n: Neop, gated: bool, mem: Mem, before: seq<Entry>, r: Run)
    requires Sound(n, gated, before, r)
    ensures Sound(n, gated, before, Conclude(n, mem, r).run)
  {
    hide Sound, Conclude;
    ConcludeEmits(n, mem, r);
    SoundPlain(n, gated, before, r, Conclude(n, mem, r).run);
  }

  lemma LawfulStart(n: Neop, gated: bool, mem: Mem, msg: Msg)
    ensures var r := Start(n, mem, msg);
            r.core.who == WhoOf(n, msg) && Lawful(n, gated, r.core.who, [] + r.log) && r.saved.None? && !Stopped(r)
  {
    hide Approved;
    AssembleEmits(n, mem, msg);
    var r := Assemble(n, mem, msg);
    assert [] + r.log == r.log;
    LawfulPlain(n, gated, r.core.who, [], r.log);
    if n.plans { LawfulMakePlan(n, gated, [], r); }
  }

  lemma SoundDispatch(n: Neop, b: Broker, mem: Mem, msg: Msg)
    ensures var r := Dispatch(n, b, mem, msg).run; Sound(n, b.On?, [], r) && r.core.who == WhoOf(n, msg)
  {
    hide Start, GatePlan, Drive, Conclude;
    LawfulStart(n, b.On?, mem, msg);
    var r := Start(n, mem, msg);
    if r.err.None? {
      ReadyPlan(n, b, b.On?, [], r);
      var (go, r1) := GatePlan(n, b, r);
      if go { SoundDrive(n, b, b.On?, [], r1, None); }
      var r2 := if go then Drive(n, b, r1, None) else r1;
      ConcludeEmits(n, mem, r2);
      SoundConclude(n, b.On?, mem, [], r2);
    }
  }

  /** A resume that goes on has its plan approved: before the pause, or by the grant just resolved. */
  lemma ReadyRegrant(n: Neop, b: Broker, gated: bool, before: seq<Entry>, r: Run)
    requires b.On? && Paused(r) && Resumable(r) && Sound(n, gated, before, r)
    ensures var (go, r1) := Regrant(b, r.saved.value);
            && r1.core == r.core && r1.saved.None? && (!go ==> !Paused(r1))
            && Lawful(n, gated, r.core.who, before + r.log + r1.log)
            && (go ==> Ready(n, gated, before + r.log, r1))
  {
    hide Resolve, Allowed;
    var snap, log := r.saved.value, before + r.log;
    var (go, r1) := Regrant(b, snap);
    LawfulPlain(n, gated, r.core.who, log, r1.log);
    if go {
      var action := Asking(n, r.core.who, r.core.plan);
      if snap.scope == PlanPause {
        ApprovedByGrant(log, snap.replans, action, r1.log);
      } else if gated {
        ApprovedStays(log, r1.log, r.core.replans, action);
      }
    }
  }

  lemma ApprovedByGrant(log: seq<Entry>, k: nat, action: Action, es: seq<Entry>)
    requires |es| == 2 && es[0] == Resolved(k, action, Some(Allow)) && es[1].Ev?
    ensures Approved(log + es, k, action)
  {
    ApprovedNow(log, es[0], k, action);
    ApprovedStays(log + [es[0]], [es[1]], k, action);
    assert log + es == log + [es[0]] + [es[1]];
  }

  lemma SoundResume(n: Neop, b: Broker, gated: bool, mem: Mem, before: seq<Entry>, r: Run)
    requires b.On? && Paused(r) && Resumable(r) && Sound(n, gated, before, r)
    ensures var r1 := Resume(n, b, mem, r.saved.value).run;
            Sound(n, gated, before + r.log, r1) && r1.core.who == r.core.who
  {
    hide Regrant, Drive, Conclude, Lawful, Approved;
    ReadyRegrant(n, b, gated, before, r);
    var (go, r1) := Regrant(b, r.saved.value);
    var from := if r.saved.value.scope == ActionPause then r.saved.value.taskId else None;
    if go { SoundDrive(n, b, gated, before + r.log, r1, from); }
    var r2 := if go then Drive(n, b, r1, from) else r1;
    ConcludeEmits(n, mem, r2);
    SoundConclude(n, gated, mem, before + r.log, r2);
  }

  lemma {:induction false} SoundPlay(n: Neop, gated: bool, mem: Mem, rep: Report, bs: seq<Broker>, before: seq<Entry>)
    requires AllOn(bs) && Resumable(rep.run) && Sound(n, gated, before, rep.run)
    ensures Lawful(n, gated, rep.run.core.who, Play(n, mem, rep, bs, before).1)
    decreases |bs|
  {
    hide Resume, Ready, Lawful;
    if bs == [] || !Paused(rep.run) {
    } else {
      SoundResume(n, bs[0], gated, mem, before, rep.run);
      ResumeResumable(n, bs[0], mem, rep.run.saved.value);
      SoundPlay(n, gated, mem, Resume(n, bs[0], mem, rep.run.saved.value), bs[1..], before + rep.run.log);
    }
  }

  /** Across a run and all its resumes, whatever the brokers answer and however often it replans: before every tool
      call, and after the last planning before it, a check in the same attempt allowed this seat to execute a plan of
      the name of the very plan the call is made for. */
  lemma PlanConsentPrecedesCalls(n: Neop, b: Broker, bs: seq<Broker>, mem: Mem, msg: Msg, i: nat)
    requires b.On? && AllOn(bs)
    requires var log := Play(n, mem, Dispatch(n, b, mem, msg), bs, []).1; i < |log| && log[i].Invoked?
    ensures var log := Play(n, mem, Dispatch(n, b, mem, msg), bs, []).1;
            var asked := Action("plan", log[i].plan.planId.GetOr("plan"), WhoOf(n, msg).seat, WhoOf(n, msg).tenant, Some(n.id));
            exists j: nat :: AllowedAt(log[..i], j, log[i].attempt, asked)
  {
    hide Dispatch, Play;
    DispatchResumable(n, b, mem, msg);
    SoundDispatch(n, b, mem, msg);
    SoundPlay(n, b.On?, mem, Dispatch(n, b, mem, msg), bs, []);
    assert LawfulAt(n, b.On?, WhoOf(n, msg), Play(n, mem, Dispatch(n, b, mem, msg), bs, []).1, i);
  }

  /** Across a run and all its resumes: every call is of a task's own tool, for the run's own seat and tenant; and
      every output directly follows the call it answers, of a tool on the allowlist, and is that tool's own answer. */
  lemma OnlyListedToolsAnswer(n: Neop, b: Broker, bs: seq<Broker>, mem: Mem, msg: Msg, i: nat)
    requires AllOn(bs) && i < |Play(n, mem, Dispatch(n, b, mem, msg), bs, []).1|
    ensures var log := Play(n, mem, Dispatch(n, b, mem, msg), bs, []).1;
            && (log[i].Invoked? ==> ProperCall(n, WhoOf(n, msg), log[i]))
            && (log[i].Produced? ==> i > 0 && Answers(n, log[i - 1], log[i]))
  {
    hide Dispatch, Play;
    DispatchResumable(n, b, mem, msg);
    SoundDispatch(n, b, mem, msg);
    var rep := Dispatch(n, b, mem, msg);
    SoundPlay(n, b.On?, mem, rep, bs, []);
    assert LawfulAt(n, b.On?, WhoOf(n, msg), Play(n, mem, rep, bs, []).1, i);
  }
}

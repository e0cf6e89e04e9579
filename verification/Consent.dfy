/** Consent precedes mutation: what stands before every tool call in a trace. */
module Consent {
  import opened Wrappers
  import opened Json
  import opened Approval
  import opened Plans
  import opened Memory
  import opened Agent
  import opened Transparency

  /** A check the approval broker made: at a gate, or when a grant was resolved. */
  datatype Check = Check(attempt: nat, action: Action, allowed: bool)

  function CheckOf(e: Entry): Option<Check> {
    match e
    case Consulted(k, a, _, d) => Some(Check(k, a, d == Allow))
    case Resolved(k, a, v) => Some(Check(k, a, v == Some(Allow)))
    case _ => None
  }

  function LastCheck(log: seq<Entry>): Option<Check> {
    if log == [] then None
    else
      var e := log[|log| - 1];
      if CheckOf(e).Some? then CheckOf(e) else LastCheck(log[..|log| - 1])
  }

  /** The latest check before every tool call was an ALLOW of exactly that action, in the same attempt. */
  ghost predicate Consented(log: seq<Entry>) {
    forall i :: 0 <= i < |log| && log[i].Invoked? ==>
      LastCheck(log[..i]) == Some(Check(log[i].attempt, log[i].action, true))
  }

  /** The entry records what broker b answers to the action it names. */
  predicate HonestEntry(b: Broker, e: Entry)
    requires b.On?
  {
    match e
    case Consulted(_, a, _, d) => WellFormed(a) && d == Consult(b, a).0
    case Resolved(_, a, v) => v == if Resolve(b, a).Success? then Some(Resolve(b, a).value.0) else None
    case _ => true
  }

  ghost predicate Good(b: Broker, log: seq<Entry>)
    requires b.On?
  {
    Consented(log) && forall i :: 0 <= i < |log| ==> HonestEntry(b, log[i])
  }

  lemma GoodSnoc(b: Broker, log: seq<Entry>, e: Entry)
    requires b.On? && Good(b, log) && HonestEntry(b, e)
    requires e.Invoked? ==> LastCheck(log) == Some(Check(e.attempt, e.action, true))
    ensures Good(b, log + [e])
    ensures LastCheck(log + [e]) == if CheckOf(e).Some? then CheckOf(e) else LastCheck(log)
  {
    var log' := log + [e];
    assert log'[..|log|] == log;
    forall i | 0 <= i < |log'| && log'[i].Invoked?
      ensures LastCheck(log'[..i]) == Some(Check(log'[i].attempt, log'[i].action, true))
    {
      assert log'[..i] == log[..i];
    }
  }

  /** Entries that are neither checks nor calls. */
  lemma {:induction false} GoodPlain(b: Broker, log: seq<Entry>, es: seq<Entry>)
    requires b.On? && Good(b, log)
    requires forall i :: 0 <= i < |es| ==> CheckOf(es[i]).None? && !es[i].Invoked?
    ensures Good(b, log + es) && LastCheck(log + es) == LastCheck(log)
    decreases |es|
  {
    if es == [] {
      assert log + es == log;
    } else {
      var n := |es| - 1;
      GoodPlain(b, log, es[..n]);
      GoodSnoc(b, log + es[..n], es[n]);
      assert log + es == log + es[..n] + [es[n]];
    }
  }

  /** A run whose trace is good, and which has stored a snapshot only if it is paused. */
  ghost predicate Fine(b: Broker, r: Run)
    requires b.On?
  {
    Good(b, r.log) && (r.saved.Some? ==> Paused(r))
  }

  /** The run may go on: nothing raised, nothing stored. */
  ghost predicate Live(b: Broker, r: Run)
    requires b.On?
  {
    Good(b, r.log) && r.saved.None? && r.err.None?
  }

  lemma FineGate(n: Neop, b: Broker, r: Run, scope: PauseScope, action: Action, taskId: Option<string>)
    requires b.On? && Live(b, r)
    ensures var (go, r1) := Gate(n, b, r, scope, action, taskId);
            && Fine(b, r1) && r1.core == r.core
            && (go ==> Live(b, r1) && LastCheck(r1.log) == Some(Check(r.core.replans, action, true)))
  {
    if WellFormed(action) {
      var (decision, reason) := Consult(b, action);
      var e := Consulted(r.core.replans, action, Decide(action, b.policy).0, decision);
      GoodSnoc(b, r.log, e);
      if decision == Deny { GoodPlain(b, r.log + [e], [Ev(DenyEmitted(action, reason, None))]); }
      if decision == Await { GoodPlain(b, r.log + [e], [Ev(AwaitingEmitted(action, scope))]); }
    }
  }

  lemma FineCall(n: Neop, b: Broker, r: Run, t: Task)
    requires b.On? && Live(b, r) && LastCheck(r.log) == Some(Check(r.core.replans, TaskAction(r.core.who, t), true))
    ensures var (ok, r1) := CallTool(n, r, t);
            Fine(b, r1) && (ok ==> Live(b, r1))
  {
    var tool := t.tool.GetOr("");
    var inputs := InputsOf(r.core.who.msg.text, t.deps, r.core.outputs);
    var e := Invoked(r.core.replans, r.core.plan, t, TaskAction(r.core.who, t), inputs, tool in n.allowlist);
    GoodPlain(b, r.log, [Ev(ToolCall(t.id, tool))]);
    GoodSnoc(b, r.log + [Ev(ToolCall(t.id, tool))], e);
    var log := r.log + [Ev(ToolCall(t.id, tool)), e];
    assert log == r.log + [Ev(ToolCall(t.id, tool))] + [e];
    var reply := Invoke(n, r.core.replans, tool, inputs);
    if reply.Returns? {
      var out := reply.value;
      if !IsBlocked(out) {
        GoodPlain(b, log, [Produced(r.core.replans, t.id, out), Ev(ToolResult(t.id, tool, out))]);
      } else if "reason" in out.fields {
        GoodPlain(b, log, [Ev(ToolBlocked(t.id, tool, out.fields["reason"]))]);
      }
    }
  }

  lemma FineVerify(n: Neop, b: Broker, r: Run, t: Task)
    requires b.On? && Live(b, r)
    ensures var (ok, r1) := Verify(n, r, t);
            Fine(b, r1) && r1.saved.None? && (ok ==> Live(b, r1))
  {
    if n.verifies {
      GoodPlain(b, r.log, [Ev(VerifyStart(t.id))]);
      var reply := n.verifier(r.core.replans, r.core.twin, r.core.who.msg, t, Lookup(r.core.outputs, t.id));
      if reply.Returns? { GoodPlain(b, r.log + [Ev(VerifyStart(t.id))], [Ev(VerifyEnd(t.id, reply.value))]); }
    }
  }

  lemma FineTask(n: Neop, b: Broker, r: Run, t: Task, skip: bool)
    requires b.On? && Live(b, r)
    requires skip && t.HasTool() ==> LastCheck(r.log) == Some(Check(r.core.replans, TaskAction(r.core.who, t), true))
    ensures var (ok, r1) := ExecTask(n, b, r, t, skip);
            Fine(b, r1) && (ok ==> Live(b, r1))
  {
    var r0 := r.(state := Executing);
    if t.HasTool() && !skip { FineGate(n, b, r0, ActionPause, TaskAction(r.core.who, t), Some(t.id)); }
    var (go, r1) := GateTask(n, b, r0, t, skip);
    if go {
      if t.HasTool() { FineCall(n, b, r1, t); }
      var (ok, r2) := if t.HasTool() then CallTool(n, r1, t) else (true, r1);
      if ok { FineVerify(n, b, r2, t); }
    }
  }

  lemma {:induction false} FineExec(n: Neop, b: Broker, r: Run, tasks: seq<Task>, skip: bool)
    requires b.On? && Live(b, r)
    requires skip ==> tasks != [] && LastCheck(r.log) == Some(Check(r.core.replans, TaskAction(r.core.who, tasks[0]), true))
    ensures var (ok, r1) := ExecFrom(n, b, r, tasks, skip);
            (!ok ==> Fine(b, r1)) && (ok ==> Live(b, r1))
    decreases |tasks|
  {
    if tasks == [] {
    } else {
      FineTask(n, b, r, tasks[0], skip);
      var (ok, r1) := ExecTask(n, b, r, tasks[0], skip);
      if ok { FineExec(n, b, r1, tasks[1..], false); }
    }
  }

  lemma FineMakePlan(n: Neop, b: Broker, r: Run)
    requires b.On? && Live(b, r)
    ensures var r1 := MakePlan(n, r);
            Good(b, r1.log) && r1.saved.None?
  {
    var es := [Ev(PlanStart), Planned(r.core.replans)];
    GoodPlain(b, r.log, es);
    var reply := n.planner(r.core.replans, r.core.twin, r.core.who.msg);
    if reply.Returns? { GoodPlain(b, r.log + es, [Ev(PlanEnd(Ids(reply.value.tasks)))]); }
  }

  lemma FineReplan(n: Neop, b: Broker, r: Run)
    requires b.On? && Live(b, r)
    ensures var (go, r1) := Replan(n, b, r);
            Fine(b, r1) && (go ==> Live(b, r1))
  {
    var r0 := r.(core := r.core.(replans := r.core.replans + 1));
    if r0.core.replans > n.maxReplans {
      GoodPlain(b, r0.log, [Ev(EscalatedAfter(r0.core.replans))]);
    } else {
      GoodPlain(b, r0.log, [Ev(ReplanStarted(r0.core.replans))]);
      var r1 := Emit(r0, ReplanStarted(r0.core.replans)).(state := Replanning);
      FineMakePlan(n, b, r1);
      var r2 := MakePlan(n, r1);
      if r2.err.None? { FineGate(n, b, r2, PlanPause, PlanAction(n, r2.core), None); }
    }
  }

  lemma {:induction false} FineAfter(n: Neop, b: Broker, out: (bool, Run))
    requires b.On? && (!out.0 ==> Fine(b, out.1)) && (out.0 ==> Live(b, out.1))
    ensures Fine(b, AfterAttempt(n, b, out))
    decreases Budget(n, out.1), 0
  {
    if Replans(n, out) {
      FineReplan(n, b, out.1);
      var (go, r1) := Replan(n, b, out.1);
      if go { FineDrive(n, b, r1); }
    }
  }

  lemma {:induction false} FineDrive(n: Neop, b: Broker, r: Run)
    requires b.On? && Live(b, r)
    ensures Fine(b, Drive(n, b, r, None))
    decreases Budget(n, r), 1
  {
    var order := TopoOrder(r.core.plan.tasks);
    if order.Success? { FineExec(n, b, r.(core := r.core.(outputs := [])), order.value, false); }
    FineAfter(n, b, Execute(n, b, r, None));
  }

  lemma FineEnd(b: Broker, r: Run)
    requires b.On? && Fine(b, r)
    ensures Fine(b, EndRun(r))
  {
    GoodPlain(b, r.log, [Ev(RunEnd(r.state, r.core.replans))]);
  }

  lemma GoodWriteMemory(n: Neop, b: Broker, rep: Report)
    requires b.On? && Good(b, rep.run.log) && rep.run.saved.None?
    ensures var r := WriteMemory(n, rep).run; Good(b, r.log) && r.saved.None?
  {
    if n.memWrite { GoodPlain(b, rep.run.log, [WriteMemory(n, rep).run.log[|rep.run.log|]]); }
  }

  lemma GoodWriteTwin(n: Neop, b: Broker, rep: Report)
    requires b.On? && Good(b, rep.run.log) && rep.run.saved.None?
    ensures var r := WriteTwin(n, rep).run; Good(b, r.log) && r.saved.None?
  {
    var t := WriteTwin(n, rep);
    if t.run.log != rep.run.log { GoodPlain(b, rep.run.log, [t.run.log[|rep.run.log|]]); }
  }

  lemma GoodWriteShadow(n: Neop, b: Broker, rep: Report)
    requires b.On? && Good(b, rep.run.log) && rep.run.saved.None?
    ensures var r := WriteShadow(n, rep).run; Good(b, r.log) && r.saved.None?
  {
    var t := WriteShadow(n, rep);
    if t.run.log != rep.run.log { GoodPlain(b, rep.run.log, [t.run.log[|rep.run.log|]]); }
  }

  lemma FineConclude(n: Neop, b: Broker, mem: Mem, r: Run)
    requires b.On? && Fine(b, r)
    ensures Fine(b, Conclude(n, mem, r).run)
  {
    if r.err.Some? {
    } else if Stopped(r) {
      FineEnd(b, r);
    } else {
      var rep := Report(r, mem, None, None);
      GoodWriteMemory(n, b, rep);
      GoodWriteTwin(n, b, WriteMemory(n, rep));
      GoodWriteShadow(n, b, WriteTwin(n, WriteMemory(n, rep)));
      FineEnd(b, Finalize(n, rep).run);
    }
  }

  lemma GoodStart(n: Neop, b: Broker, mem: Mem, msg: Msg)
    requires b.On?
    ensures var r := Start(n, mem, msg); Good(b, r.log) && r.saved.None?
  {
    hide Assemble;
    var r := Assemble(n, mem, msg);
    AssembleEmits(n, mem, msg);
    GoodPlain(b, [], r.log);
    assert [] + r.log == r.log;
    if n.plans { FineMakePlan(n, b, r); }
  }

  lemma FineDispatch(n: Neop, b: Broker, mem: Mem, msg: Msg)
    requires b.On?
    ensures Fine(b, Dispatch(n, b, mem, msg).run)
  {
    GoodStart(n, b, mem, msg);
    var r := Start(n, mem, msg);
    if r.err.None? {
      FineGate(n, b, r, PlanPause, PlanAction(n, r.core), None);
      var (go, r1) := GatePlan(n, b, r);
      if go { FineDrive(n, b, r1); }
      FineConclude(n, b, mem, if go then Drive(n, b, r1, None) else r1);
    }
  }

  lemma FineRegrant(b: Broker, snap: Snapshot)
    requires b.On?
    ensures var (go, r) := Regrant(b, snap);
            && Fine(b, r) && CoreOf(snap) == r.core
            && (go ==> Live(b, r) && LastCheck(r.log) == Some(Check(snap.replans, snap.action, true)))
  {
    var res := Resolve(b, snap.action);
    var e := Resolved(snap.replans, snap.action, if res.Success? then Some(res.value.0) else None);
    GoodSnoc(b, [], e);
    assert [] + [e] == [e];
    if res.Success? {
      var (decision, reason) := res.value;
      GoodPlain(b, [e], [Ev(GrantEmitted(snap.action, reason, b.grantor))]);
      GoodPlain(b, [e], [Ev(DenyEmitted(snap.action, reason, b.grantor))]);
    }
  }

  lemma FineResume(n: Neop, b: Broker, mem: Mem, snap: Snapshot)
    requires b.On? && Genuine(snap)
    ensures Fine(b, Resume(n, b, mem, snap).run)
  {
    FineRegrant(b, snap);
    var (go, r) := Regrant(b, snap);
    if go {
      if snap.scope == ActionPause {
        FineExec(n, b, r, Remaining(snap), true);
        FineAfter(n, b, Execute(n, b, r, snap.taskId));
        FineConclude(n, b, mem, Drive(n, b, r, snap.taskId));
      } else {
        FineDrive(n, b, r);
        FineConclude(n, b, mem, Drive(n, b, r, None));
      }
    } else {
      FineConclude(n, b, mem, r);
    }
  }

  // ---- what consent means under ENFORCE ---------------------------------------------------

  lemma {:induction false} LastCheckIsEntry(log: seq<Entry>) returns (i: nat)
    requires LastCheck(log).Some?
    ensures i < |log| && CheckOf(log[i]) == LastCheck(log)
  {
    if CheckOf(log[|log| - 1]).Some? {
      i := |log| - 1;
    } else {
      i := LastCheckIsEntry(log[..|log| - 1]);
    }
  }

  /** Under an ENFORCE broker a tool is called only for an action outside the hard-deny list that the policy's mode
      allows, or that a named human has granted by name. */
  lemma EnforcedCalls(b: Broker, log: seq<Entry>, i: nat)
    requires b.On? && b.mode == Enforce && Good(b, log) && i < |log| && log[i].Invoked?
    ensures !b.policy.IsHardDenied(log[i].action)
    ensures b.policy.ModeFor(log[i].action) == AllowMode || (Granted(b, log[i].action) && Named(b))
  {
    var j := LastCheckIsEntry(log[..i]);
    assert HonestEntry(b, log[j]);
    ResolveExactly(b, log[i].action);
  }

  // ---- no grant, no resume ----------------------------------------------------------------

  /** Why a pause is not granted. */
  function RefusedFor(b: Broker, a: Action): Reason
    requires b.On?
  {
    if a.name in b.grants && b.grants[a.name] == "deny" then HumanDenied
    else if !Granted(b, a) then NoGrantRecorded
    else GrantCannotOverride
  }

  /** Resumed without a recorded allow by a named human, or against the hard-deny list, a run is rejected, and says for
      what reason, or raises if only the name is missing; it calls nothing and changes nothing. */
  lemma ResumeWithoutGrant(n: Neop, b: Broker, mem: Mem, snap: Snapshot)
    requires b.On? && !(Granted(b, snap.action) && Named(b) && !b.policy.IsHardDenied(snap.action))
    ensures var rep := Resume(n, b, mem, snap);
            && rep == Report(rep.run, mem, None, None)
            && rep.run.core == CoreOf(snap) && rep.run.saved.None?
            && if Granted(b, snap.action) && !b.policy.IsHardDenied(snap.action)
               then rep.run.err == Some(BlankGrantor) && rep.run.log == [Resolved(snap.replans, snap.action, None)]
               else
                 && rep.run.err.None? && rep.run.state == Rejected
                 && rep.run.log == [Resolved(snap.replans, snap.action, Some(Deny)),
                                    Ev(DenyEmitted(snap.action, RefusedFor(b, snap.action), b.grantor)),
                                    Ev(RunEnd(Rejected, snap.replans))]
  {
    hide Drive;
    ResolveExactly(b, snap.action);
  }

  /** With one, it goes on: from the snapshot's own core, under the grant just recorded. */
  lemma ResumeWithGrant(n: Neop, b: Broker, mem: Mem, snap: Snapshot)
    requires b.On? && Granted(b, snap.action) && Named(b) && !b.policy.IsHardDenied(snap.action)
    ensures var granted := [Resolved(snap.replans, snap.action, Some(Allow)),
                            Ev(GrantEmitted(snap.action, ApprovedBy(b.grantor.value), b.grantor))];
            Resume(n, b, mem, snap) ==
            Conclude(n, mem, Drive(n, b, Log(Restore(snap), granted), if snap.scope == ActionPause then snap.taskId else None))
  {
    hide Drive, Conclude;
    ResolveExactly(b, snap.action);
    var r := Restore(snap);
    assert r.log + [Resolved(snap.replans, snap.action, Some(Allow))]
           + [Ev(GrantEmitted(snap.action, ApprovedBy(b.grantor.value), b.grantor))]
        == r.log + [Resolved(snap.replans, snap.action, Some(Allow)),
                    Ev(GrantEmitted(snap.action, ApprovedBy(b.grantor.value), b.grantor))];
  }
}

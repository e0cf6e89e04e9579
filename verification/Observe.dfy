/** The observe-before-flip window: what a silent gate leaves unchanged, and what its readiness summary proves
    (acp/approval_mode.py, runtime/approval_gate.py). */
module Observe {
  import opened Wrappers
  import opened Approval
  import opened Plans
  import opened Memory
  import opened Agent
  import opened Readiness
  import opened Rounding
  import opened Transparency

  // ---- a gate that cannot stop a run changes nothing --------------------------------------

  /** The run raised, or is neither waiting nor denied. */
  predicate Runs(r: Run) {
    r.err.Some? || !Stopped(r)
  }

  lemma PassiveTask(n: Neop, a: Broker, r: Run, t: Task)
    requires Passive(a) && r.err.None?
    ensures var (ok, r1) := ExecTask(n, a, r, t, false);
            Runs(r1) && (ok ==> r1.err.None?)
  {
  }

  lemma {:induction false} PassiveExec(n: Neop, a: Broker, r: Run, tasks: seq<Task>)
    requires Passive(a) && r.err.None?
    ensures var (ok, r1) := ExecFrom(n, a, r, tasks, false);
            (ok ==> r1.err.None?) && (!ok ==> Runs(r1))
    decreases |tasks|
  {
    if tasks == [] {
    } else {
      PassiveTask(n, a, r, tasks[0]);
      var (ok, r1) := ExecTask(n, a, r, tasks[0], false);
      if ok { PassiveExec(n, a, r1, tasks[1..]); }
    }
  }

  lemma {:induction false} PassiveDrive(n: Neop, a: Broker, r: Run)
    requires Passive(a) && r.err.None?
    ensures Runs(Drive(n, a, r, None))
    decreases Budget(n, r)
  {
    hide ExecFrom, TopoOrder;
    var order := TopoOrder(r.core.plan.tasks);
    if order.Success? {
      var r0 := r.(core := r.core.(outputs := []));
      PassiveExec(n, a, r0, order.value);
      var out := ExecFrom(n, a, r0, order.value, false);
      if Replans(n, out) {
        var (go, r1) := Replan(n, a, out.1);
        if go { PassiveDrive(n, a, r1); }
      }
    }
  }

  lemma PassiveDispatch(n: Neop, a: Broker, mem: Mem, msg: Msg)
    requires Passive(a)
    ensures Runs(Dispatch(n, a, mem, msg).run)
  {
    var r := Start(n, mem, msg);
    if r.err.None? {
      var (go, r1) := GatePlan(n, a, r);
      if go {
        PassiveDrive(n, a, r1);
        if Drive(n, a, r1, None).err.None? { ConcludeKeepsEnded(n, mem, Drive(n, a, r1, None)); }
      }
    }
  }

  lemma ReportOnlyIsPassive(b: Broker)
    requires b.On? && b.mode == ReportOnly
    ensures Passive(b)
  {
  }

  /** Unless it meets a malformed action, a run under a report-only (or all-allow) broker is the run without any:
      same state, plan, outputs, tool calls, memory and events. */
  lemma SilentGate(n: Neop, b: Broker, mem: Mem, msg: Msg)
    requires Passive(b)
    ensures var rep := Dispatch(n, b, mem, msg);
            rep.run.err != Some(MalformedAction) ==> SameEnd(rep, rep.run.log, Dispatch(n, Off, mem, msg))
  {
    var s := TracksDispatch(n, b, Off, mem, msg);
    PassiveDispatch(n, b, mem, msg);
    assert [] + Erase(Dispatch(n, b, mem, msg).run.log) == Erase(Dispatch(n, b, mem, msg).run.log);
  }

  // ---- traces only grow -------------------------------------------------------------------

  ghost predicate Grows(r: Run, r': Run) {
    r.log <= r'.log
  }

  lemma GrowsTask(n: Neop, b: Broker, r: Run, t: Task, skip: bool)
    ensures Grows(r, ExecTask(n, b, r, t, skip).1)
  {
    var (go, r1) := GateTask(n, b, r.(state := Executing), t, skip);
    GrowsGate(n, b, r.(state := Executing), t, skip);
    if go { GrowsBody(n, r1, t); }
  }

  lemma GrowsGate(n: Neop, b: Broker, r: Run, t: Task, skip: bool)
    ensures Grows(r, GateTask(n, b, r, t, skip).1)
  {
  }

  lemma {:induction false} GrowsExec(n: Neop, b: Broker, r: Run, tasks: seq<Task>, skip: bool)
    ensures Grows(r, ExecFrom(n, b, r, tasks, skip).1)
    decreases |tasks|
  {
    if tasks == [] {
    } else {
      GrowsTask(n, b, r, tasks[0], skip);
      var (ok, r1) := ExecTask(n, b, r, tasks[0], skip);
      if ok { GrowsExec(n, b, r1, tasks[1..], false); }
    }
  }

  lemma GrowsReplan(n: Neop, b: Broker, r: Run)
    ensures Grows(r, Replan(n, b, r).1)
  {
  }

  lemma {:induction false} GrowsDrive(n: Neop, b: Broker, r: Run, from: Option<string>)
    ensures Grows(r, Drive(n, b, r, from))
    decreases Budget(n, r), 1
  {
    GrowsExecute(n, b, r, from);
    GrowsAfter(n, b, Execute(n, b, r, from));
  }

  lemma GrowsExecute(n: Neop, b: Broker, r: Run, from: Option<string>)
    ensures Grows(r, Execute(n, b, r, from).1)
  {
    var order := TopoOrder(r.core.plan.tasks);
    if order.Success? {
      if from.None? {
        GrowsExec(n, b, r.(core := r.core.(outputs := [])), order.value, false);
      } else {
        var k := IndexOf(order.value, from.value);
        if k < |order.value| { GrowsExec(n, b, r, order.value[k..], true); }
      }
    }
  }

  lemma {:induction false} GrowsAfter(n: Neop, b: Broker, out: (bool, Run))
    ensures Grows(out.1, AfterAttempt(n, b, out))
    decreases Budget(n, out.1), 0
  {
    if Replans(n, out) {
      var (go, r1) := Replan(n, b, out.1);
      GrowsReplan(n, b, out.1);
      if go { GrowsDrive(n, b, r1, None); }
    }
  }

  // ---- a clear window means the flip is safe ----------------------------------------------

  /** No observed action would have been denied or held. */
  ghost predicate Clear(log: seq<Entry>) {
    forall i :: 0 <= i < |log| && log[i].Consulted? ==> log[i].would == Allow
  }

  lemma ClearPrefix(a: seq<Entry>, b: seq<Entry>)
    requires a <= b && Clear(b)
    ensures Clear(a)
  {
  }

  predicate FlipOf(b: Broker, e: Broker) {
    b.On? && b.mode == ReportOnly && e == b.(mode := Enforce)
  }

  lemma FlipGate(n: Neop, b: Broker, e: Broker, r: Run, scope: PauseScope, action: Action, taskId: Option<string>)
    requires FlipOf(b, e) && Clear(Gate(n, b, r, scope, action, taskId).1.log)
    ensures Gate(n, e, r, scope, action, taskId) == Gate(n, b, r, scope, action, taskId)
  {
    if WellFormed(action) {
      var log := Gate(n, b, r, scope, action, taskId).1.log;
      assert log[|r.log|] == Consulted(r.core.replans, action, Decide(action, b.policy).0, Allow);
    }
  }

  lemma {:induction false} FlipExec(n: Neop, b: Broker, e: Broker, r: Run, tasks: seq<Task>)
    requires FlipOf(b, e) && Clear(ExecFrom(n, b, r, tasks, false).1.log)
    ensures ExecFrom(n, e, r, tasks, false) == ExecFrom(n, b, r, tasks, false)
    decreases |tasks|
  {
    if tasks == [] {
    } else {
      var t, r0 := tasks[0], r.(state := Executing);
      var (ok, r1) := ExecTask(n, b, r, t, false);
      if ok { GrowsExec(n, b, r1, tasks[1..], false); }
      ClearPrefix(r1.log, ExecFrom(n, b, r, tasks, false).1.log);
      var (go, g) := GateTask(n, b, r0, t, false);
      if go { GrowsBody(n, g, t); }
      ClearPrefix(g.log, r1.log);
      if t.HasTool() { FlipGate(n, b, e, r0, ActionPause, TaskAction(r.core.who, t), Some(t.id)); }
      if ok { FlipExec(n, b, e, r1, tasks[1..]); }
    }
  }

  lemma GrowsBody(n: Neop, r: Run, t: Task)
    ensures Grows(r, Body(n, r, t).1)
  {
    var (ok, r1) := if t.HasTool() then CallTool(n, r, t) else (true, r);
    assert Grows(r, r1);
    if ok { assert Grows(r1, Verify(n, r1, t).1); }
  }

  lemma FlipReplan(n: Neop, b: Broker, e: Broker, r: Run)
    requires FlipOf(b, e) && Clear(Replan(n, b, r).1.log)
    ensures Replan(n, e, r) == Replan(n, b, r)
  {
    var r1 := r.(core := r.core.(replans := r.core.replans + 1));
    if r1.core.replans <= n.maxReplans {
      var r2 := MakePlan(n, Emit(r1, ReplanStarted(r1.core.replans)).(state := Replanning));
      if r2.err.None? { FlipGate(n, b, e, r2, PlanPause, PlanAction(n, r2.core), None); }
    }
  }

  lemma {:induction false} FlipDrive(n: Neop, b: Broker, e: Broker, r: Run)
    requires FlipOf(b, e) && Clear(Drive(n, b, r, None).log)
    ensures Drive(n, e, r, None) == Drive(n, b, r, None)
    decreases Budget(n, r), 1
  {
    var out := Execute(n, b, r, None);
    GrowsAfter(n, b, out);
    ClearPrefix(out.1.log, Drive(n, b, r, None).log);
    var order := TopoOrder(r.core.plan.tasks);
    if order.Success? { FlipExec(n, b, e, r.(core := r.core.(outputs := [])), order.value); }
    FlipAfter(n, b, e, out);
  }

  lemma {:induction false} FlipAfter(n: Neop, b: Broker, e: Broker, out: (bool, Run))
    requires FlipOf(b, e) && Clear(AfterAttempt(n, b, out).log)
    ensures AfterAttempt(n, e, out) == AfterAttempt(n, b, out)
    decreases Budget(n, out.1), 0
  {
    if Replans(n, out) {
      var (go, r1) := Replan(n, b, out.1);
      if go {
        GrowsDrive(n, b, r1, None);
        ClearPrefix(r1.log, AfterAttempt(n, b, out).log);
      }
      FlipReplan(n, b, e, out.1);
      if go { FlipDrive(n, b, e, r1); }
    }
  }

  lemma GrowsConclude(n: Neop, mem: Mem, r: Run)
    ensures Grows(r, Conclude(n, mem, r).run)
  {
    var rep := Report(r, mem, None, None);
    if r.err.None? && !Stopped(r) {
      var m := WriteMemory(n, rep);
      var t := WriteTwin(n, m);
      assert Grows(r, m.run) && Grows(m.run, t.run);
      assert Grows(t.run, Finalize(n, rep).run);
    }
  }

  lemma FlipDispatch(n: Neop, b: Broker, e: Broker, mem: Mem, msg: Msg)
    requires FlipOf(b, e) && Clear(Dispatch(n, b, mem, msg).run.log)
    ensures Dispatch(n, e, mem, msg) == Dispatch(n, b, mem, msg)
  {
    var r := Start(n, mem, msg);
    if r.err.None? {
      var (go, r1) := GatePlan(n, b, r);
      var r2 := if go then Drive(n, b, r1, None) else r1;
      if go { GrowsDrive(n, b, r1, None); }
      GrowsConclude(n, mem, r2);
      ClearPrefix(r2.log, Dispatch(n, b, mem, msg).run.log);
      ClearPrefix(r1.log, r2.log);
      FlipGate(n, b, e, r, PlanPause, PlanAction(n, r.core), None);
      if go { FlipDrive(n, b, e, r1); }
    }
  }

  // ---- the readiness summary --------------------------------------------------------------

  lemma CountSnoc(audits: seq<Audit>, last: Audit, d: Decision)
    ensures Count(audits + [last], d) == Count(audits, d) + (if !last.enforced && last.would == d then 1 else 0)
  {
  }

  lemma {:induction false} ClearFromCounts(log: seq<Entry>, k: nat)
    requires k <= |log| && Count(AuditsTo(log, k), Deny) == 0 && Count(AuditsTo(log, k), Await) == 0
    ensures forall i :: 0 <= i < k && log[i].Consulted? ==> log[i].would == Allow
  {
    if k == 0 {
    } else {
      var e, init := log[k - 1], AuditsTo(log, k - 1);
      if e.Consulted? {
        CountSnoc(init, Audit(e.action, false, e.would), Deny);
        CountSnoc(init, Audit(e.action, false, e.would), Await);
      } else {
        assert init + [] == init;
      }
      ClearFromCounts(log, k - 1);
    }
  }

  /** Observe, then flip: if the window of a report-only run counts no would-deny and no would-await, the same
      message under ENFORCE gives the identical report, trace included. */
  lemma ObserveThenFlip(ties: Ties, n: Neop, b: Broker, e: Broker, mem: Mem, msg: Msg)
    requires FlipOf(b, e)
    ensures var s := Summarize(ties, Audits(Dispatch(n, b, mem, msg).run.log));
            s.wouldDeny == 0 && s.wouldAwait == 0 ==> Dispatch(n, e, mem, msg) == Dispatch(n, b, mem, msg)
  {
    var log := Dispatch(n, b, mem, msg).run.log;
    if Count(Audits(log), Deny) == 0 && Count(Audits(log), Await) == 0 {
      ClearFromCounts(log, |log|);
      FlipDispatch(n, b, e, mem, msg);
    }
  }

  /** The published rate is rounded, so a zero rate alone says no more than that at most one action in 2000 would
      have been blocked, and any smaller share does show as zero. */
  lemma ZeroRateBound(ties: Ties, audits: seq<Audit>)
    requires Summarize(ties, audits).total > 0
    ensures var s := Summarize(ties, audits);
            && (s.rate == Some(0) ==> 2000 * (s.wouldDeny + s.wouldAwait) <= s.total)
            && (2000 * (s.wouldDeny + s.wouldAwait) < s.total ==> s.rate == Some(0))
  {
    var s := Summarize(ties, audits);
    RateZero(ties, s.wouldDeny + s.wouldAwait, s.total);
  }

  /** A window of any size over 2000 (of 2000, if that tie goes down) whose rate is zero though ENFORCE would have
      stopped an action. */
  lemma ZeroRateIsNotSafety(ties: Ties, total: nat) returns (audits: seq<Audit>)
    requires total > 2000 || (total == 2000 && !ties(0))
    ensures var s := Summarize(ties, audits); s.rate == Some(0) && s.wouldDeny == 1 && s.total == total
  {
    var action := Action("tool", "curl", "aria", "t", None);
    var quiet := seq(total - 1, i => Audit(action, false, Allow));
    audits := quiet + [Audit(action, false, Deny)];
    assert audits[..|audits| - 1] == quiet;
    CountUniform(quiet, action, Allow);
    assert Count(audits, Allow) == total - 1 && Count(audits, Deny) == 1 && Count(audits, Await) == 0;
    RateZero(ties, 1, total);
  }

  /** In all windows of this size a zero rate means that nothing would have been blocked. */
  ghost predicate ZeroMeansNone(ties: Ties, total: nat) {
    forall audits :: var s := Summarize(ties, audits);
      s.total == total && s.rate == Some(0) ==> s.wouldDeny == 0 && s.wouldAwait == 0
  }

  /** That is so exactly for windows under 2000 (and of 2000, if that tie goes up). */
  lemma ZeroRateTrusted(ties: Ties, total: nat)
    ensures ZeroMeansNone(ties, total) <==> total < 2000 || (total == 2000 && ties(0))
  {
    if total < 2000 || (total == 2000 && ties(0)) {
      forall audits | Summarize(ties, audits).total == total && Summarize(ties, audits).rate == Some(0)
        ensures var s := Summarize(ties, audits); s.wouldDeny == 0 && s.wouldAwait == 0
      {
        var s := Summarize(ties, audits);
        if total > 0 { RateZero(ties, s.wouldDeny + s.wouldAwait, total); }
      }
    } else {
      var audits := ZeroRateIsNotSafety(ties, total);
      assert Summarize(ties, audits).wouldDeny == 1;
    }
  }

  lemma {:induction false} CountUniform(audits: seq<Audit>, action: Action, d: Decision)
    requires forall i :: 0 <= i < |audits| ==> audits[i] == Audit(action, false, d)
    ensures forall e :: Count(audits, e) == if e == d then |audits| else 0
  {
    if audits == [] {
    } else {
      CountUniform(audits[..|audits| - 1], action, d);
    }
  }
}

/** The run as the runtime performs it: an object whose methods update its fields, each proved to do what the
    corresponding function of Agent says (runtime/core.py PiAgent, dispatch, dispatch_resume). */
module Runtime {
  import opened Wrappers
  import opened Json
  import opened Approval
  import opened Plans
  import opened PlanOrder
  import opened Memory
  import opened Agent
  import opened Readiness
  import opened Brokers
  import PausedRuns

  datatype PausePoint = PausePoint(scope: PauseScope, taskId: Option<string>, action: Action)

  class PiAgent {
    const n: Neop
    const tools: ToolBroker
    const mem: MemoryBroker
    const approval: ApprovalBroker?

    var state: State
    var plan: Plan
    var outputs: Dict
    var replans: nat
    var bundle: Bundle
    var twin: Option<Fields>
    var who: Who                     // message, tenant, seat and run id, stashed when the run starts
    var pause: PausePoint            // scope, task and action of the pause being resumed
    var events: seq<Event>
    var twinWritten: Option<Ack>
    var shadow: Option<Event>
    var raised: Option<Err>          // the exception that ended the run, if any

    ghost var trace: seq<Entry>
    ghost var saved: Option<Snapshot>
    ghost const seen: seq<Audit>     // the broker's window and store when this object took over
    ghost const found: PausedRuns.Store

    ghost function Gear(): set<object> {
      {this, tools, mem} + if approval == null then {} else {approval, approval.store}
    }

    ghost function B(): Broker
      reads if approval == null then {} else {approval}
    {
      if approval == null then Off else approval.AsBroker()
    }

    ghost function Abs(): Run
      reads this
    {
      Run.Run(state, Core(plan, outputs, replans, bundle, twin, who), trace, saved, raised)
    }

    /** The recorded events, tool calls, observed window and stored snapshot are those of the trace. */
    ghost predicate Valid()
      reads Gear()
    {
      && events == EventsOf(trace)
      && tools.n == n && tools.calls == CallsOf(trace)
      && (approval != null ==> Window() && approval.store.d == PausedRuns.StoreOf(found, Abs()))
    }

    ghost predicate Window()
      reads Gear()
      requires approval != null
    {
      approval.observed == seen + (if approval.mode == ReportOnly then Audits(trace) else [])
    }

    constructor (n: Neop, tools: ToolBroker, mem: MemoryBroker, approval: ApprovalBroker?)
      requires tools.n == n && tools.calls == []
      ensures Valid() && this.n == n && this.tools == tools && this.mem == mem && this.approval == approval
      ensures trace == [] && saved == None && raised == None && outputs == [] && replans == 0
      ensures plan == UNPLANNED && twinWritten == None && shadow == None
      ensures approval != null ==> seen == approval.observed && found == approval.store.d
    {
      this.n, this.tools, this.mem, this.approval := n, tools, mem, approval;
      state, plan, outputs, replans := Loading, UNPLANNED, [], 0;
      bundle, twin := Bundle([], None), None;
      events, twinWritten, shadow, raised := [], None, None, None;
      trace, saved := [], None;
      seen := if approval != null then approval.observed else [];
      found := if approval != null then approval.store.d else map[];
    }

    /** The object rebuilt from a snapshot; nothing is retrieved again. */
    constructor Restored(n: Neop, tools: ToolBroker, mem: MemoryBroker, approval: ApprovalBroker, snap: Snapshot)
      requires tools.n == n && tools.calls == []
      ensures Valid() && this.n == n && this.tools == tools && this.mem == mem && this.approval == approval
      ensures Abs() == Agent.Restore(snap) && pause == PausePoint(snap.scope, snap.taskId, snap.action)
      ensures twinWritten == None && shadow == None && seen == approval.observed && found == approval.store.d
    {
      this.n, this.tools, this.mem, this.approval := n, tools, mem, approval;
      plan, outputs, replans := snap.plan, snap.outputs, snap.replans;
      bundle, twin := snap.bundle, snap.twin;
      who := Who(snap.msg, snap.tenant, snap.seat, snap.runId);
      pause := PausePoint(snap.scope, snap.taskId, snap.action);
      state := AwaitingApproval;
      events, twinWritten, shadow, raised := [], None, None, None;
      trace, saved, seen, found := [], None, approval.observed, approval.store.d;
    }

    method Emit(e: Event)
      requires Valid()
      modifies this`events, this`trace
      ensures Valid() && Abs() == Agent.Emit(old(Abs()), e)
    {
      events := events + [e];
      trace := trace + [Ev(e)];
      Snoc(old(trace), Ev(e));
    }

    // ---- the approval gate ----------------------------------------------------------------

    method ToState(scope: PauseScope, action: Action, taskId: Option<string>) returns (snap: Snapshot)
      ensures snap == Agent.ToState(n, Abs().core, scope, action, taskId)
      ensures Agent.Restore(snap) == Run.Run(AwaitingApproval, Abs().core, [], None, None)
    {
      snap := Snapshot(n.id, scope, action, taskId, plan, outputs, replans, bundle, twin,
                       who.runId, who.msg, who.seat, who.tenant);
    }

    /** Asks the broker, on the record. */
    method Ask(action: Action) returns (decision: Decision, reason: Reason)
      requires Valid() && approval != null
      modifies this`trace, approval`observed
      ensures Valid() && B() == old(B()) && (decision, reason) == Consult(B(), action)
      ensures Abs() == Log(old(Abs()), [Consulted(replans, action, Approval.Decide(action, B().policy).0, decision)])
    {
      decision, reason := approval.Decide(action);
      ghost var e := Consulted(replans, action, Approval.Decide(action, approval.policy).0, decision);
      Snoc(trace, e);
      trace := trace + [e];
    }

    method Apply(decision: Decision, reason: Reason, scope: PauseScope, action: Action, taskId: Option<string>)
      returns (go: bool)
      requires Valid() && approval != null && saved.None?
      modifies this`state, this`saved, this`events, this`trace, approval.store
      ensures Valid() && (go, Abs()) == Agent.Apply(n, old(Abs()), decision, reason, scope, action, taskId)
    {
      match decision
      case Allow =>
        go := true;
      case Deny =>
        state := Rejected;
        Emit(DenyEmitted(action, reason, None));
        go := false;
      case Await =>
        var snap := ToState(scope, action, taskId);
        approval.store.Save(who.runId, snap);
        saved := Some(snap);
        state := AwaitingApproval;
        Emit(AwaitingEmitted(action, scope));
        go := false;
    }

    method Gate(action: Action, scope: PauseScope, taskId: Option<string>) returns (go: bool)
      requires Valid() && approval != null && saved.None?
      modifies this`state, this`saved, this`events, this`trace, this`raised, approval`observed, approval.store
      ensures Valid() && B() == old(B()) && (go, Abs()) == Agent.Gate(n, B(), old(Abs()), scope, action, taskId)
    {
      if !WellFormed(action) {
        raised := Some(MalformedAction);
        return false;
      }
      var decision, reason := Ask(action);
      go := Apply(decision, reason, scope, action, taskId);
    }

    // ---- one task -------------------------------------------------------------------------

    /** The text of the message, then each dependency's output under its task id. */
    method Inputs(deps: seq<string>) returns (inputs: Agent.Inputs)
      ensures inputs == InputsOf(who.msg.text, deps, outputs)
    {
      inputs := map["text" := who.msg.text];
      for i := 0 to |deps|
        invariant inputs == InputsOf(who.msg.text, deps[..i], outputs)
      {
        assert deps[..i + 1][..i] == deps[..i];
        inputs := inputs[deps[i] := Lookup(outputs, deps[i]).GetOr(Null)];
      }
      assert deps[..|deps|] == deps;
    }

    /** Records the call, then makes it. */
    method Invoke(t: Task, inputs: Agent.Inputs) returns (reply: Reply<Value>)
      requires Valid()
      modifies this`events, this`trace, tools
      ensures Valid() && reply == Agent.Invoke(n, replans, t.tool.GetOr(""), inputs)
      ensures var tool := t.tool.GetOr("");
              var r := old(Abs());
              Abs() == Log(r, [Ev(ToolCall(t.id, tool)),
                               Invoked(replans, plan, t, TaskAction(r.core.who, t), inputs, tool in n.allowlist)])
    {
      var tool := t.tool.GetOr("");
      ghost var e, f := Ev(ToolCall(t.id, tool)),
                        Invoked(replans, plan, t, TaskAction(Abs().core.who, t), inputs, tool in n.allowlist);
      Snoc(trace, e);
      Snoc(trace + [e], f);
      assert trace + [e, f] == trace + [e] + [f];
      events := events + [ToolCall(t.id, tool)];
      reply := tools.Invoke(replans, tool, inputs);
      trace := trace + [e, f];
    }

    method Store(t: Task, out: Value)
      requires Valid()
      modifies this`events, this`trace, this`outputs
      ensures Valid()
      ensures var r := old(Abs());
              Abs() == Log(r.(core := r.core.(outputs := Put(r.core.outputs, t.id, out))),
                           [Produced(replans, t.id, out), Ev(ToolResult(t.id, t.tool.GetOr(""), out))])
    {
      outputs := Put(outputs, t.id, out);
      ghost var e, f := Produced(replans, t.id, out), Ev(ToolResult(t.id, t.tool.GetOr(""), out));
      Snoc(trace, e);
      Snoc(trace + [e], f);
      assert trace + [e, f] == trace + [e] + [f];
      events := events + [ToolResult(t.id, t.tool.GetOr(""), out)];
      trace := trace + [e, f];
    }

    method CallTool(t: Task) returns (ok: bool)
      requires Valid()
      modifies this`state, this`outputs, this`events, this`trace, this`raised, tools
      ensures Valid() && (ok, Abs()) == Agent.CallTool(n, old(Abs()), t)
    {
      var inputs := Inputs(t.deps);
      var reply := Invoke(t, inputs);
      if reply.Raises? {
        raised := Some(ToolRaised);
        return false;
      }
      var out := reply.value;
      if IsBlocked(out) {
        if "reason" !in out.fields {
          raised := Some(BlockedWithoutReason);
          return false;
        }
        Emit(ToolBlocked(t.id, t.tool.GetOr(""), out.fields["reason"]));
        state := Failed;
        return false;
      }
      Store(t, out);
      ok := true;
    }

    method Verify(t: Task) returns (ok: bool)
      requires Valid()
      modifies this`state, this`events, this`trace, this`raised
      ensures Valid() && (ok, Abs()) == Agent.Verify(n, old(Abs()), t)
    {
      if !n.verifies { return true; }
      state := Verifying;
      Emit(VerifyStart(t.id));
      var verdict := n.verifier(replans, twin, who.msg, t, Lookup(outputs, t.id));
      if verdict.Raises? {
        raised := Some(VerifierRaised);
        return false;
      }
      Emit(VerifyEnd(t.id, verdict.value));
      ok := verdict.value;
    }

    method RunTask(t: Task, skip: bool) returns (ok: bool)
      requires Valid() && saved.None?
      modifies this`state, this`outputs, this`saved, this`events, this`trace, this`raised, tools,
               if approval == null then {} else {approval, approval.store}
      ensures Valid() && B() == old(B()) && (ok, Abs()) == ExecTask(n, B(), old(Abs()), t, skip)
    {
      state := Executing;
      if approval != null && t.HasTool() && !skip {
        var action := Action(t.scope.GetOr("tool"), t.tool.GetOr(""), who.seat, who.tenant, t.target);
        var go := Gate(action, ActionPause, Some(t.id));
        if !go { return false; }
      }
      if t.HasTool() {
        ok := CallTool(t);
        if !ok { return; }
      }
      ok := Verify(t);
    }

    // ---- one attempt ----------------------------------------------------------------------

    method Find(order: seq<Task>, id: string) returns (k: nat)
      ensures k == IndexOf(order, id)
    {
      k := 0;
      while k < |order| && order[k].id != id
        invariant k <= |order| && IndexOf(order, id) == k + IndexOf(order[k..], id)
      {
        assert order[k..][1..] == order[k + 1..];
        k := k + 1;
      }
    }

    method ExecuteAndMaybeVerify(resumeFrom: Option<string>) returns (ok: bool)
      requires Valid() && saved.None?
      modifies this`state, this`outputs, this`saved, this`events, this`trace, this`raised, tools,
               if approval == null then {} else {approval, approval.store}
      ensures Valid() && B() == old(B()) && (ok, Abs()) == Execute(n, B(), old(Abs()), resumeFrom)
    {
      hide Agent.ExecFrom, TopoOrder, IndexOf;
      if resumeFrom.None? { outputs := []; }
      assert Abs() == if resumeFrom.Some? then old(Abs()) else old(Abs()).(core := old(Abs()).core.(outputs := []));
      var sorted := Sort(plan.tasks);
      if sorted.Failure? {
        raised := Some(CycleInPlan(sorted.error));
        return false;
      }
      if resumeFrom.None? {
        assert sorted.value[0..] == sorted.value;
        ok := RunTasks(sorted.value, 0, false);
      } else {
        ok := RunTasksFrom(sorted.value, resumeFrom.value);
      }
    }

    /** Goes on from the task the run paused at; its gate has been passed. */
    method RunTasksFrom(order: seq<Task>, id: string) returns (ok: bool)
      requires Valid() && saved.None?
      modifies this`state, this`outputs, this`saved, this`events, this`trace, this`raised, tools,
               if approval == null then {} else {approval, approval.store}
      ensures Valid() && B() == old(B())
      ensures var k := IndexOf(order, id);
              (ok, Abs()) == if k == |order| then (false, old(Abs()).(err := Some(NoSuchTask)))
                             else ExecFrom(n, B(), old(Abs()), order[k..], true)
    {
      var start := Find(order, id);
      if start == |order| {
        raised := Some(NoSuchTask);
        return false;
      }
      ok := RunTasks(order, start, true);
    }

    /** One round of the task loop. */
    method RunNext(order: seq<Task>, idx: nat, skip: bool) returns (ok: bool)
      requires Valid() && saved.None? && idx < |order|
      modifies this`state, this`outputs, this`saved, this`events, this`trace, this`raised, tools,
               if approval == null then {} else {approval, approval.store}
      ensures Valid() && B() == old(B()) && (ok ==> saved.None?)
      ensures ExecFrom(n, B(), old(Abs()), order[idx..], skip)
           == if ok then ExecFrom(n, B(), Abs(), order[idx + 1..], false) else (false, Abs())
    {
      assert order[idx..][1..] == order[idx + 1..];
      ok := RunTask(order[idx], skip);
    }

    method RunTasks(order: seq<Task>, start: nat, resumed: bool) returns (ok: bool)
      requires Valid() && saved.None? && start <= |order|
      modifies this`state, this`outputs, this`saved, this`events, this`trace, this`raised, tools,
               if approval == null then {} else {approval, approval.store}
      ensures Valid() && B() == old(B()) && (ok, Abs()) == ExecFrom(n, B(), old(Abs()), order[start..], resumed)
    {
      hide Agent.ExecTask;
      var idx, skip := start, resumed;
      ghost var goal := ExecFrom(n, B(), Abs(), order[start..], resumed);
      while idx < |order|
        invariant start <= idx <= |order|
        invariant Valid() && B() == old(B()) && saved.None?
        invariant goal == ExecFrom(n, B(), Abs(), order[idx..], skip)
      {
        ok := RunNext(order, idx, skip);
        if !ok { return; }
        idx, skip := idx + 1, false;
      }
      assert order[idx..] == [];
      ok := true;
    }

    // ---- the execute/replan loop ----------------------------------------------------------

    method BeginPlan()
      requires Valid()
      modifies this`state, this`events, this`trace
      ensures Valid() && Abs() == Log(old(Abs()).(state := Planning), [Ev(PlanStart), Planned(replans)])
    {
      state := Planning;
      ghost var e, f := Ev(PlanStart), Planned(replans);
      Snoc(trace, e);
      Snoc(trace + [e], f);
      assert trace + [e, f] == trace + [e] + [f];
      events := events + [PlanStart];
      trace := trace + [e, f];
    }

    method MakePlan()
      requires Valid()
      modifies this`state, this`plan, this`events, this`trace, this`raised
      ensures Valid() && Abs() == Agent.MakePlan(n, old(Abs()))
    {
      BeginPlan();
      var reply := n.planner(replans, twin, who.msg);
      if reply.Raises? {
        raised := Some(PlannerRaised);
        return;
      }
      plan := reply.value;
      Emit(PlanEnd(Ids(plan.tasks)));
    }

    method GatePlan() returns (go: bool)
      requires Valid() && saved.None?
      modifies this`state, this`saved, this`events, this`trace, this`raised,
               if approval == null then {} else {approval, approval.store}
      ensures Valid() && B() == old(B()) && (go, Abs()) == Agent.GatePlan(n, B(), old(Abs()))
    {
      if approval == null { return true; }
      go := Gate(Action("plan", plan.planId.GetOr("plan"), who.seat, who.tenant, Some(n.id)), PlanPause, None);
    }

    method NextPlan() returns (go: bool)
      requires Valid() && saved.None?
      modifies this`state, this`plan, this`saved, this`events, this`trace, this`raised,
               if approval == null then {} else {approval, approval.store}
      ensures Valid() && B() == old(B()) && (go, Abs()) == Agent.NextPlan(n, B(), old(Abs()))
    {
      Emit(ReplanStarted(replans));
      state := Replanning;
      MakePlan();
      if raised.Some? { return false; }
      go := GatePlan();
    }

    /** Counts the failed attempt; past the bound the run escalates, else it is planned and gated again. */
    method Replan() returns (go: bool)
      requires Valid() && saved.None?
      modifies this`state, this`plan, this`replans, this`saved, this`events, this`trace, this`raised,
               if approval == null then {} else {approval, approval.store}
      ensures Valid() && B() == old(B()) && (go, Abs()) == Agent.Replan(n, B(), old(Abs()))
    {
      replans := replans + 1;
      if replans > n.maxReplans {
        state := Escalated;
        Emit(EscalatedAfter(replans));
        return false;
      }
      go := NextPlan();
    }

    /** Ends the run, or replans it for another attempt. */
    method AfterAttempt(ok: bool) returns (again: bool)
      requires Valid() && (ok || state != AwaitingApproval ==> saved.None?)
      modifies this`state, this`plan, this`replans, this`saved, this`events, this`trace, this`raised,
               if approval == null then {} else {approval, approval.store}
      ensures Valid() && B() == old(B())
      ensures Agent.AfterAttempt(n, B(), (ok, old(Abs()))) == if again then Agent.Drive(n, B(), Abs(), None) else Abs()
      ensures again ==> saved.None? && raised.None? && Budget(n, Abs()) < Budget(n, old(Abs()))
    {
      again := false;
      if raised.Some? {
      } else if ok {
        state := Done;
      } else if state == Failed || state == AwaitingApproval || state == Rejected {
      } else if !n.plans {
        state := Failed;
      } else {
        again := Replan();
      }
    }

    /** One attempt at the plan and what follows from it. */
    method Attempt(from: Option<string>) returns (again: bool)
      requires Valid() && saved.None? && raised.None?
      modifies this`state, this`plan, this`outputs, this`replans, this`saved, this`events, this`trace, this`raised,
               tools, if approval == null then {} else {approval, approval.store}
      ensures Valid() && B() == old(B())
      ensures Agent.Drive(n, B(), old(Abs()), from) == if again then Agent.Drive(n, B(), Abs(), None) else Abs()
      ensures again ==> saved.None? && raised.None? && Budget(n, Abs()) < Budget(n, old(Abs()))
    {
      var ok := ExecuteAndMaybeVerify(from);
      again := AfterAttempt(ok);
    }

    method Drive(resumeFrom: Option<string>)
      requires Valid() && saved.None? && raised.None?
      modifies this`state, this`plan, this`outputs, this`replans, this`saved, this`events, this`trace, this`raised,
               tools, if approval == null then {} else {approval, approval.store}
      ensures Valid() && B() == old(B()) && Abs() == Agent.Drive(n, B(), old(Abs()), resumeFrom)
      ensures mem.Abs() == old(mem.Abs()) && twinWritten == old(twinWritten) && shadow == old(shadow)
    {
      hide Agent.Drive;
      var from, again := resumeFrom, true;
      ghost var goal := Agent.Drive(n, B(), Abs(), from);
      while again
        invariant Valid() && B() == old(B())
        invariant again ==> saved.None? && raised.None? && goal == Agent.Drive(n, B(), Abs(), from)
        invariant !again ==> goal == Abs()
        decreases again, Budget(n, Abs())
      {
        again := Attempt(from);
        from := None;
      }
    }

    // ---- start, finish, resume ------------------------------------------------------------

    /** Everything a caller is told when the run returns. */
    ghost function Told(): Report
      reads this, mem
    {
      Report(Abs(), mem.Abs(), twinWritten, shadow)
    }

    method WriteMemory()
      requires Valid()
      modifies this`events, this`trace, mem
      ensures Valid() && Told() == Agent.WriteMemory(n, old(Told()))
    {
      if !n.memWrite { return; }
      var cites := ChunkIds(bundle.chunks);
      var record := Record(Arr([Str(n.id), StateValue(state), Num(|outputs|)]), cites, "run");
      var ack := mem.Write(TenantOf(who.msg), SeatOf(n, who.msg), record);
      mem.Consolidate(TenantOf(who.msg), SeatOf(n, who.msg));
      Emit(MemoryWritten(cites, ack.isNew));
    }

    method WriteTwin()
      requires Valid()
      modifies this`state, this`events, this`trace, this`raised, this`twinWritten, mem
      ensures Valid() && Told() == Agent.WriteTwin(n, old(Told()))
    {
      if !n.twinWrite { return; }
      var draft := if outputs == [] then Obj(map[]) else outputs[0].1;
      if !draft.Obj? {
        raised := Some(DraftNotAnObject);
        return;
      }
      var ack := mem.PutTwin(TenantOf(who.msg), OwnerOf(n, who.msg), draft.fields);
      twinWritten := Some(ack);
      if ack.Accepted? {
        Emit(TwinWritten(OwnerOf(n, who.msg), ack.version));
      } else {
        state := Failed;
      }
    }

    method WriteShadow()
      requires Valid()
      modifies this`events, this`trace, this`shadow
      ensures Valid() && Told() == Agent.WriteShadow(n, old(Told()))
    {
      if !n.shadow { return; }
      var predicted := if outputs == [] then Null else outputs[0].1;
      var e := ShadowPredicted(predicted, who.msg.actual, PyEq(predicted, who.msg.actual));
      shadow := Some(e);
      Emit(e);
    }

    method Finalize()
      requires Valid()
      modifies this`state, this`events, this`trace, this`raised, this`twinWritten, this`shadow, mem
      ensures Valid() && Told() == Agent.Finalize(n, old(Told()))
    {
      WriteMemory();
      WriteTwin();
      if raised.None? { WriteShadow(); }
    }

    /** The tail shared by run and resume. */
    method Conclude()
      requires Valid() && twinWritten.None? && shadow.None?
      modifies this`state, this`events, this`trace, this`raised, this`twinWritten, this`shadow, mem
      ensures Valid() && Told() == Agent.Conclude(n, old(mem.Abs()), old(Abs()))
    {
      if raised.Some? { return; }
      if state != AwaitingApproval && state != Rejected {
        Finalize();
        if raised.Some? { return; }
      }
      Emit(RunEnd(state, replans));
    }

    /** A new object, before anything has happened. */
    ghost predicate Untouched()
      reads Gear()
    {
      && Valid() && trace == [] && saved == None && raised == None && outputs == [] && replans == 0
      && plan == UNPLANNED && twinWritten == None && shadow == None
    }

    method Identify(m: Msg)
      requires Untouched()
      modifies this`state, this`who, this`bundle, this`twin, this`events, this`trace
      ensures Valid() && Abs() == Agent.Identify(n, m)
    {
      state := Assembling;
      var tenant, seat := TenantOf(m), SeatOf(n, m);
      who := Who(m, tenant, seat, if m.runId != "" then m.runId else tenant + ":" + seat + ":" + n.id);
      bundle, twin := Bundle([], None), None;
      Emit(RunStart);
      assert trace == [Ev(RunStart)];
    }

    method ReadMemory()
      requires Valid()
      modifies this`bundle, this`events, this`trace
      ensures Valid() && Abs() == Agent.ReadMemory(n, mem.Abs(), old(Abs()))
    {
      if n.memRead {
        var chunks := mem.Retrieve(who.tenant);
        bundle := Bundle(chunks, None);
        Emit(MemoryRetrieved(ChunkIds(chunks)));
      }
    }

    method ReadTwin()
      requires Valid()
      modifies this`bundle, this`twin, this`events, this`trace
      ensures Valid() && Abs() == Agent.ReadTwin(n, mem.Abs(), old(Abs()))
    {
      if n.twinRead {
        var t := mem.GetTwin(who.tenant, OwnerOf(n, who.msg));
        if t.Some? {
          twin := t;
          bundle := bundle.(twin := t);
          Emit(TwinAssembled(t.value));
        }
      }
    }

    method Assemble(m: Msg)
      requires Untouched()
      modifies this`state, this`who, this`bundle, this`twin, this`events, this`trace
      ensures Valid() && Abs() == Agent.Assemble(n, mem.Abs(), m)
    {
      Identify(m);
      ReadMemory();
      ReadTwin();
      Emit(Assembled(mem.stm));
    }

    method Start(m: Msg)
      requires Untouched()
      modifies this`state, this`plan, this`who, this`bundle, this`twin,
               this`events, this`trace, this`raised
      ensures Valid() && Abs() == Agent.Start(n, mem.Abs(), m)
      ensures mem.Abs() == old(mem.Abs()) && twinWritten == old(twinWritten) && shadow == old(shadow)
    {
      Assemble(m);
      FirstPlan();
    }

    method FirstPlan()
      requires Valid()
      modifies this`state, this`plan, this`events, this`trace, this`raised
      ensures Valid()
      ensures var r := old(Abs());
              Abs() == if n.plans then Agent.MakePlan(n, r) else r.(core := r.core.(plan := ImplicitPlan(n)))
    {
      if n.plans {
        MakePlan();
      } else {
        plan := ImplicitPlan(n);
      }
    }

    method GateAndDrive()
      requires Valid() && saved.None? && raised.None?
      modifies this`state, this`plan, this`outputs, this`replans, this`saved, this`events, this`trace, this`raised,
               tools, if approval == null then {} else {approval, approval.store}
      ensures Valid() && B() == old(B())
      ensures var (go, r) := Agent.GatePlan(n, B(), old(Abs()));
              Abs() == if go then Agent.Drive(n, B(), r, None) else r
      ensures mem.Abs() == old(mem.Abs()) && twinWritten == old(twinWritten) && shadow == old(shadow)
    {
      var go := GatePlan();
      if go { Drive(None); }
    }

    method RunMessage(m: Msg)
      requires Untouched()
      modifies this`state, this`plan, this`outputs, this`replans, this`who, this`bundle, this`twin, this`saved,
               this`events, this`trace, this`raised, this`twinWritten, this`shadow,
               tools, mem, if approval == null then {} else {approval, approval.store}
      ensures Valid() && B() == old(B()) && Told() == Dispatch(n, B(), old(mem.Abs()), m)
    {
      Start(m);
      if raised.Some? { return; }
      GateAndDrive();
      Conclude();
    }

    /** Resolves the grant on the record; only an ALLOW goes on. */
    method Regrant(ghost snap: Snapshot) returns (go: bool)
      requires Valid() && approval != null && Abs() == Agent.Restore(snap) && pause.action == snap.action
      modifies this`state, this`events, this`trace, this`raised
      ensures Valid() && (go, Abs()) == Agent.Regrant(B(), snap)
      ensures mem.Abs() == old(mem.Abs()) && twinWritten == old(twinWritten) && shadow == old(shadow)
    {
      hide Approval.Resolve;
      var res := approval.Resolve(pause.action);
      ghost var e := Resolved(replans, pause.action, if res.Success? then Some(res.value.0) else None);
      Snoc(trace, e);
      trace := trace + [e];
      if res.Failure? {
        raised := Some(BlankGrantor);
        return false;
      }
      var (decision, reason) := res.value;
      if decision != Allow {
        state := Rejected;
        Emit(DenyEmitted(pause.action, reason, approval.grantor));
        return false;
      }
      Emit(GrantEmitted(pause.action, reason, approval.grantor));
      go := true;
    }

    method Resume(ghost snap: Snapshot)
      requires Valid() && approval != null && Abs() == Agent.Restore(snap) && twinWritten.None? && shadow.None?
      requires pause == PausePoint(snap.scope, snap.taskId, snap.action)
      modifies this`state, this`plan, this`outputs, this`replans, this`saved,
               this`events, this`trace, this`raised, this`twinWritten, this`shadow, tools, mem, approval, approval.store
      ensures Valid() && B() == old(B()) && Told() == Agent.Resume(n, B(), old(mem.Abs()), snap)
    {
      var go := Regrant(snap);
      if go { Drive(if pause.scope == ActionPause then pause.taskId else None); }
      Conclude();
    }
  }

  // ---- dispatch and dispatch_resume -------------------------------------------------------

  /** A fresh agent runs the message. Its validity ties its events, its tool calls, the broker's window and the
      snapshot store to the trace. */
  method DispatchRun(n: Neop, m: Mem, msg: Msg, approval: ApprovalBroker?) returns (agent: PiAgent)
    modifies if approval == null then {} else {approval, approval.store}
    ensures fresh(agent) && agent.Valid() && agent.n == n && agent.approval == approval
    ensures agent.B() == old(if approval == null then Off else approval.AsBroker())
    ensures agent.Told() == Dispatch(n, agent.B(), m, msg)
    ensures approval != null ==> agent.seen == old(approval.observed) && agent.found == old(approval.store.d)
  {
    var tools := new ToolBroker(n);
    var mem := new MemoryBroker(m);
    agent := new PiAgent(n, tools, mem, approval);
    agent.RunMessage(msg);
  }

  /** None where the source raises KeyError: no run of that id is paused. A resume that returns leaves the queue. */
  method DispatchResume(n: Neop, m: Mem, runId: string, approval: ApprovalBroker) returns (agent: PiAgent?)
    modifies approval, approval.store
    ensures approval.AsBroker() == old(approval.AsBroker())
    ensures agent == null <==> runId !in old(approval.store.d)
    ensures agent == null ==> approval.store.d == old(approval.store.d) && approval.observed == old(approval.observed)
    ensures agent != null ==>
              && fresh(agent) && agent.n == n && agent.approval == approval
              && agent.events == EventsOf(agent.trace) && agent.tools.calls == CallsOf(agent.trace)
              && agent.Told() == Agent.Resume(n, approval.AsBroker(), m, old(approval.store.d)[runId].snap)
              && approval.store.d ==
                 (var d := PausedRuns.StoreOf(old(approval.store.d), agent.Abs());
                  if agent.raised.Some? then d else PausedRuns.MarkResolved(d, runId, agent.state))
  {
    var snap := approval.store.Load(runId);
    if snap.None? { return null; }
    var tools := new ToolBroker(n);
    var mem := new MemoryBroker(m);
    agent := new PiAgent.Restored(n, tools, mem, approval, snap.value);
    agent.Resume(snap.value);
    if agent.raised.None? { approval.MarkResolved(runId, agent.state); }
  }
}

/** One governed run of a NEop, as functions over its state (runtime/core.py PiAgent, dispatch, dispatch_resume).

    The planner, the verifier and the tools are oracles: deterministic in what the runtime hands them and in
    the attempt number, so that a replan may answer differently. An exception ends the run with `err` set. */
module Agent {
  import opened Wrappers
  import opened Json
  import opened Approval
  import opened Plans
  import opened Memory

  datatype State =
    | Loading | Assembling | Planning | Executing | AwaitingApproval | Verifying
    | Replanning | Done | Failed | Escalated | Rejected

  datatype Err =
    | PlannerRaised | VerifierRaised | ToolRaised | CycleInPlan(id: string) | MalformedAction
    | NoSuchTask | BlankGrantor | BlockedWithoutReason | DraftNotAnObject

  datatype Msg = Msg(
    text: Value, tenant: Option<string>, seat: Option<string>, runId: string,
    requester: string, actual: Value, decisionClass: Option<string>)

  /** The run's identity, stashed when it starts. */
  datatype Who = Who(msg: Msg, tenant: string, seat: string, runId: string)

  type Inputs = map<string, Value>

  datatype Reply<+T> = Raises | Returns(value: T)

  datatype Neop = Neop(
    id: string,
    plans: bool,
    verifies: bool,
    maxReplans: int,
    tools: seq<string>,
    allowlist: set<string>,
    memRead: bool, memWrite: bool, twinRead: bool, twinWrite: bool, shadow: bool,
    planner: (nat, Option<Fields>, Msg) -> Reply<Plan>,
    verifier: (nat, Option<Fields>, Msg, Task, Option<Value>) -> Reply<bool>,
    tool: (nat, string, Inputs) -> Reply<Value>)

  datatype PauseScope = PlanPause | ActionPause

  datatype Event =
    | RunStart
    | MemoryRetrieved(ids: seq<string>)
    | TwinAssembled(twin: Fields)
    | Assembled(stm: nat)
    | PlanStart
    | PlanEnd(ids: seq<string>)
    | ToolCall(id: string, tool: string)
    | ToolResult(id: string, tool: string, out: Value)
    | ToolBlocked(id: string, tool: string, why: Value)
    | VerifyStart(id: string)
    | VerifyEnd(id: string, pass: bool)
    | ReplanStarted(n: nat)
    | EscalatedAfter(n: nat)
    | MemoryWritten(cites: seq<string>, isNew: bool)
    | TwinWritten(owner: string, version: int)
    | ShadowPredicted(predicted: Value, actual: Value, agreed: bool)
    | AwaitingEmitted(action: Action, scope: PauseScope)
    | GrantEmitted(action: Action, reason: Reason, grantor: Option<string>)
    | DenyEmitted(action: Action, reason: Reason, grantor: Option<string>)
    | RunEnd(state: State, replans: nat)

  /** The run's trace: its emitted events, and the moments the claims below speak of. */
  datatype Entry =
    | Ev(event: Event)
    | Planned(attempt: nat)
    | Consulted(attempt: nat, action: Action, would: Decision, decision: Decision)
    | Resolved(attempt: nat, action: Action, verdict: Option<Decision>)
    | Invoked(attempt: nat, plan: Plan, task: Task, action: Action, inputs: Inputs, allowed: bool)
    | Produced(attempt: nat, id: string, out: Value)

  datatype Bundle = Bundle(chunks: seq<Chunk>, twin: Option<Fields>)

  /** What a run carries besides its phase. */
  datatype Core = Core(plan: Plan, outputs: Dict, replans: nat, bundle: Bundle, twin: Option<Fields>, who: Who)

  datatype Snapshot = Snapshot(
    neopId: string, scope: PauseScope, action: Action, taskId: Option<string>,
    plan: Plan, outputs: Dict, replans: nat, bundle: Bundle, twin: Option<Fields>,
    runId: string, msg: Msg, seat: string, tenant: string)

  datatype Run = Run(state: State, core: Core, log: seq<Entry>, saved: Option<Snapshot>, err: Option<Err>)

  datatype Report = Report(run: Run, mem: Mem, twinAck: Option<Ack>, shadow: Option<Event>)

  function Log(r: Run, entries: seq<Entry>): Run {
    r.(log := r.log + entries)
  }

  function Emit(r: Run, e: Event): Run {
    Log(r, [Ev(e)])
  }

  predicate Stopped(r: Run) {
    r.state == AwaitingApproval || r.state == Rejected
  }

  // ---- the approval gate ------------------------------------------------------------------

  function TaskAction(who: Who, t: Task): Action {
    Action(t.scope.GetOr("tool"), t.tool.GetOr(""), who.seat, who.tenant, t.target)
  }

  function PlanAction(n: Neop, c: Core): Action {
    Action("plan", c.plan.planId.GetOr("plan"), c.who.seat, c.who.tenant, Some(n.id))
  }

  function ToState(n: Neop, c: Core, scope: PauseScope, action: Action, taskId: Option<string>): Snapshot {
    Snapshot(n.id, scope, action, taskId, c.plan, c.outputs, c.replans, c.bundle, c.twin,
             c.who.runId, c.who.msg, c.who.seat, c.who.tenant)
  }

  /** ALLOW changes nothing, DENY rejects without a pause, AWAIT stores a snapshot and waits. */
  function Apply(n: Neop, r: Run, decision: Decision, reason: Reason, scope: PauseScope, action: Action,
                 taskId: Option<string>): (res: (bool, Run))
    ensures res.1.core == r.core && res.1.err == r.err
    ensures res.0 || res.1.state != AwaitingApproval ==> res.1.saved == r.saved
  {
    match decision
    case Allow => (true, r)
    case Deny => (false, Emit(r.(state := Rejected), DenyEmitted(action, reason, None)))
    case Await =>
      (false, Emit(r.(state := AwaitingApproval, saved := Some(ToState(n, r.core, scope, action, taskId))),
                   AwaitingEmitted(action, scope)))
  }

  /** Proceeds iff the first component is true; otherwise the run stopped or raised. */
  function Gate(n: Neop, b: Broker, r: Run, scope: PauseScope, action: Action, taskId: Option<string>): (res: (bool, Run))
    requires b.On?
    ensures res.1.core == r.core
    ensures res.0 || res.1.state != AwaitingApproval ==> res.1.saved == r.saved
  {
    if !WellFormed(action) then (false, r.(err := Some(MalformedAction)))
    else
      var (decision, reason) := Consult(b, action);
      Apply(n, Log(r, [Consulted(r.core.replans, action, Decide(action, b.policy).0, decision)]),
            decision, reason, scope, action, taskId)
  }

  // ---- one task ---------------------------------------------------------------------------

  /** The tool's input scope: the message text, then each dependency's output under its task id. */
  function InputsOf(text: Value, deps: seq<string>, outputs: Dict): Inputs {
    if deps == [] then map["text" := text]
    else
      var d := deps[|deps| - 1];
      InputsOf(text, deps[..|deps| - 1], outputs)[d := Lookup(outputs, d).GetOr(Null)]
  }

  predicate IsBlocked(out: Value) {
    out.Obj? && Truthy(Get(out.fields, "_blocked"))
  }

  /** The allowlist is enforced here, at run time. */
  function Invoke(n: Neop, attempt: nat, tool: string, inputs: Inputs): Reply<Value> {
    if tool !in n.allowlist then Returns(Obj(map["_blocked" := Bool(true), "reason" := Str(tool)]))
    else n.tool(attempt, tool, inputs)
  }

  /** Everything but the outputs stays what it was. */
  ghost predicate SameButOutputs(a: Core, b: Core) {
    a == b.(outputs := a.outputs)
  }

  function CallTool(n: Neop, r: Run, t: Task): (res: (bool, Run))
    ensures SameButOutputs(res.1.core, r.core) && res.1.saved == r.saved && (Stopped(res.1) ==> Stopped(r))
  {
    var tool := t.tool.GetOr("");
    var inputs := InputsOf(r.core.who.msg.text, t.deps, r.core.outputs);
    var r1 := Log(r, [Ev(ToolCall(t.id, tool)),
                      Invoked(r.core.replans, r.core.plan, t, TaskAction(r.core.who, t), inputs, tool in n.allowlist)]);
    match Invoke(n, r.core.replans, tool, inputs)
    case Raises => (false, r1.(err := Some(ToolRaised)))
    case Returns(out) =>
      if IsBlocked(out) then
        if "reason" !in out.fields then (false, r1.(err := Some(BlockedWithoutReason)))
        else (false, Emit(r1, ToolBlocked(t.id, tool, out.fields["reason"])).(state := Failed))
      else
        (true, Log(r1.(core := r1.core.(outputs := Put(r1.core.outputs, t.id, out))),
                   [Produced(r.core.replans, t.id, out), Ev(ToolResult(t.id, tool, out))]))
  }

  function Verify(n: Neop, r: Run, t: Task): (res: (bool, Run))
    ensures res.1.core == r.core && res.1.saved == r.saved && (Stopped(res.1) ==> Stopped(r))
  {
    if !n.verifies then (true, r)
    else
      var r1 := Emit(r.(state := Verifying), VerifyStart(t.id));
      match n.verifier(r.core.replans, r.core.twin, r.core.who.msg, t, Lookup(r.core.outputs, t.id))
      case Raises => (false, r1.(err := Some(VerifierRaised)))
      case Returns(pass) => (pass, Emit(r1, VerifyEnd(t.id, pass)))
  }

  /** A just-resumed task skips its gate: it is the one the grant was for. */
  function GateTask(n: Neop, b: Broker, r: Run, t: Task, skip: bool): (res: (bool, Run))
    ensures res.1.core == r.core
    ensures res.0 || res.1.state != AwaitingApproval ==> res.1.saved == r.saved
  {
    if b.On? && t.HasTool() && !skip then Gate(n, b, r, ActionPause, TaskAction(r.core.who, t), Some(t.id))
    else (true, r)
  }

  /** Past the gate: call the task's tool, if it has one, and verify. */
  function Body(n: Neop, r: Run, t: Task): (res: (bool, Run))
    ensures SameButOutputs(res.1.core, r.core) && res.1.saved == r.saved && (Stopped(res.1) ==> Stopped(r))
  {
    var (ok, r1) := if t.HasTool() then CallTool(n, r, t) else (true, r);
    if !ok then (false, r1) else Verify(n, r1, t)
  }

  function ExecTask(n: Neop, b: Broker, r: Run, t: Task, skip: bool): (res: (bool, Run))
    ensures SameButOutputs(res.1.core, r.core)
    ensures res.0 || res.1.state != AwaitingApproval ==> res.1.saved == r.saved
  {
    var (go, r1) := GateTask(n, b, r.(state := Executing), t, skip);
    if !go then (false, r1) else Body(n, r1, t)
  }

  function ExecFrom(n: Neop, b: Broker, r: Run, tasks: seq<Task>, skip: bool): (res: (bool, Run))
    ensures SameButOutputs(res.1.core, r.core)
    ensures res.0 || res.1.state != AwaitingApproval ==> res.1.saved == r.saved
    decreases |tasks|
  {
    if tasks == [] then (true, r)
    else
      var (ok, r1) := ExecTask(n, b, r, tasks[0], skip);
      if !ok then (false, r1) else ExecFrom(n, b, r1, tasks[1..], false)
  }

  // ---- one attempt at the plan ------------------------------------------------------------

  /** The first position of a task id. */
  function IndexOf(order: seq<Task>, id: string): (k: nat)
    ensures k <= |order|
    ensures k < |order| ==> order[k].id == id
  {
    if order == [] then 0
    else if order[0].id == id then 0
    else 1 + IndexOf(order[1..], id)
  }

  /** A resumed attempt keeps its outputs and starts at the paused task. */
  function Execute(n: Neop, b: Broker, r: Run, resumeFrom: Option<string>): (res: (bool, Run))
    ensures SameButOutputs(res.1.core, r.core)
    ensures res.0 || res.1.state != AwaitingApproval ==> res.1.saved == r.saved
  {
    var r0 := if resumeFrom.Some? then r else r.(core := r.core.(outputs := []));
    match TopoOrder(r.core.plan.tasks)
    case Failure(id) => (false, r0.(err := Some(CycleInPlan(id))))
    case Success(order) =>
      if resumeFrom.None? then ExecFrom(n, b, r0, order, false)
      else
        var k := IndexOf(order, resumeFrom.value);
        if k == |order| then (false, r0.(err := Some(NoSuchTask)))
        else ExecFrom(n, b, r0, order[k..], true)
  }

  // ---- the execute/replan loop ------------------------------------------------------------

  /** Calls the planner; on an exception `err` is set. */
  function MakePlan(n: Neop, r: Run): Run {
    var r1 := Log(r.(state := Planning), [Ev(PlanStart), Planned(r.core.replans)]);
    match n.planner(r.core.replans, r.core.twin, r.core.who.msg)
    case Raises => r1.(err := Some(PlannerRaised))
    case Returns(plan) => Emit(r1.(core := r1.core.(plan := plan)), PlanEnd(Ids(plan.tasks)))
  }

  function GatePlan(n: Neop, b: Broker, r: Run): (bool, Run) {
    if b.On? then Gate(n, b, r, PlanPause, PlanAction(n, r.core), None) else (true, r)
  }

  /** Plan anew and re-gate: a changed plan needs its own approval. */
  function NextPlan(n: Neop, b: Broker, r: Run): (bool, Run) {
    var r1 := MakePlan(n, Emit(r, ReplanStarted(r.core.replans)).(state := Replanning));
    if r1.err.Some? then (false, r1) else GatePlan(n, b, r1)
  }

  /** A failed attempt: escalate past the bound, else replan and re-gate. True iff the loop goes on. */
  function Replan(n: Neop, b: Broker, r: Run): (bool, Run) {
    var r1 := r.(core := r.core.(replans := r.core.replans + 1));
    if r1.core.replans > n.maxReplans then
      (false, Emit(r1.(state := Escalated), EscalatedAfter(r1.core.replans)))
    else
      NextPlan(n, b, r1)
  }

  function Budget(n: Neop, r: Run): nat {
    Max(0, n.maxReplans + 1 - r.core.replans)
  }

  /** What `_drive` does with an attempt's outcome. */
  function AfterAttempt(n: Neop, b: Broker, outcome: (bool, Run)): Run
    decreases Budget(n, outcome.1), 0
  {
    var (ok, r) := outcome;
    if r.err.Some? then r
    else if ok then r.(state := Done)
    else if r.state == Failed || Stopped(r) then r
    else if !n.plans then r.(state := Failed)
    else
      var (go, r1) := Replan(n, b, r);
      if !go then r1 else Drive(n, b, r1, None)
  }

  function Drive(n: Neop, b: Broker, r: Run, resumeFrom: Option<string>): Run
    decreases Budget(n, r), 1
  {
    AfterAttempt(n, b, Execute(n, b, r, resumeFrom))
  }

  // ---- start, finish, resume --------------------------------------------------------------

  const UNPLANNED := Plan(None, [])

  function ImplicitPlan(n: Neop): Plan {
    Plan(Some("implicit"), [Task("t1", [], if n.tools == [] then None else Some(n.tools[0]), Some("tool"), None)])
  }

  function TenantOf(msg: Msg): string { msg.tenant.GetOr("default") }

  function SeatOf(n: Neop, msg: Msg): string { msg.seat.GetOr(n.id) }

  function OwnerOf(n: Neop, msg: Msg): string {
    if msg.requester != "" then msg.requester else SeatOf(n, msg)
  }

  function WhoOf(n: Neop, msg: Msg): Who {
    var tenant, seat := TenantOf(msg), SeatOf(n, msg);
    Who(msg, tenant, seat, if msg.runId != "" then msg.runId else tenant + ":" + seat + ":" + n.id)
  }

  function ChunkIds(chunks: seq<Chunk>): seq<string> {
    seq(|chunks|, i requires 0 <= i < |chunks| => chunks[i].id)
  }

  function Identify(n: Neop, msg: Msg): Run {
    Run(Assembling, Core(UNPLANNED, [], 0, Bundle([], None), None, WhoOf(n, msg)), [Ev(RunStart)], None, None)
  }

  function ReadMemory(n: Neop, mem: Mem, r: Run): Run {
    if !n.memRead then r
    else
      var chunks := Retrieve(mem, r.core.who.tenant);
      Emit(r.(core := r.core.(bundle := Bundle(chunks, None))), MemoryRetrieved(ChunkIds(chunks)))
  }

  /** The twin models the requester, and falls back to the seat. */
  function ReadTwin(n: Neop, mem: Mem, r: Run): Run {
    var twin := GetTwin(mem, r.core.who.tenant, OwnerOf(n, r.core.who.msg));
    if !n.twinRead || twin.None? then r
    else
      Emit(r.(core := r.core.(twin := twin, bundle := r.core.bundle.(twin := twin))), TwinAssembled(twin.value))
  }

  /** Folds the seat's memory and the requester's twin into a fresh run. */
  function Assemble(n: Neop, mem: Mem, msg: Msg): Run {
    Emit(ReadTwin(n, mem, ReadMemory(n, mem, Identify(n, msg))), Assembled(mem.stm))
  }

  /** Assembles, then plans, or takes the one-task plan of a role that does not. */
  function Start(n: Neop, mem: Mem, msg: Msg): Run {
    var r := Assemble(n, mem, msg);
    if n.plans then MakePlan(n, r) else r.(core := r.core.(plan := ImplicitPlan(n)))
  }

  function StateValue(s: State): Value {
    match s
    case Done => Str("DONE")
    case Failed => Str("FAILED")
    case Escalated => Str("ESCALATED")
    case _ => Str("")
  }

  function FirstOutput(c: Core): Option<Value> {
    if c.outputs == [] then None else Some(c.outputs[0].1)
  }

  function WriteMemory(n: Neop, rep: Report): Report {
    if !n.memWrite then rep
    else
      var r, msg := rep.run, rep.run.core.who.msg;
      var cites := ChunkIds(r.core.bundle.chunks);
      var record := Record(Arr([Str(n.id), StateValue(r.state), Num(|r.core.outputs|)]), cites, "run");
      var (mem, ack) := Write(rep.mem, TenantOf(msg), SeatOf(n, msg), record);
      rep.(mem := Consolidate(mem, TenantOf(msg), SeatOf(n, msg)), run := Emit(r, MemoryWritten(cites, ack.isNew)))
  }

  /** An invalid or stale twin fails a run that had already finished. */
  function WriteTwin(n: Neop, rep: Report): Report {
    if !n.twinWrite then rep
    else
      var r, msg := rep.run, rep.run.core.who.msg;
      var draft := FirstOutput(r.core).GetOr(Obj(map[]));
      if !draft.Obj? then rep.(run := r.(err := Some(DraftNotAnObject)))
      else
        var (mem, ack) := PutTwin(rep.mem, TenantOf(msg), OwnerOf(n, msg), draft.fields);
        var r' := if ack.Accepted? then Emit(r, TwinWritten(OwnerOf(n, msg), ack.version)) else r.(state := Failed);
        rep.(mem := mem, run := r', twinAck := Some(ack))
  }

  function WriteShadow(n: Neop, rep: Report): Report {
    if !n.shadow then rep
    else
      var predicted, actual := FirstOutput(rep.run.core).GetOr(Null), rep.run.core.who.msg.actual;
      var e := ShadowPredicted(predicted, actual, PyEq(predicted, actual));
      rep.(run := Emit(rep.run, e), shadow := Some(e))
  }

  function Finalize(n: Neop, rep: Report): Report {
    var rep1 := WriteTwin(n, WriteMemory(n, rep));
    if rep1.run.err.Some? then rep1 else WriteShadow(n, rep1)
  }

  function EndRun(r: Run): Run {
    Emit(r, RunEnd(r.state, r.core.replans))
  }

  /** A stopped run ends without the terminal side effects; an exception ends it without anything. */
  function Conclude(n: Neop, mem: Mem, r: Run): Report {
    var rep := Report(r, mem, None, None);
    if r.err.Some? then rep
    else if Stopped(r) then rep.(run := EndRun(r))
    else
      var rep1 := Finalize(n, rep);
      if rep1.run.err.Some? then rep1 else rep1.(run := EndRun(rep1.run))
  }

  function Dispatch(n: Neop, b: Broker, mem: Mem, msg: Msg): Report {
    var r := Start(n, mem, msg);
    if r.err.Some? then Report(r, mem, None, None)
    else
      var (go, r1) := GatePlan(n, b, r);
      Conclude(n, mem, if go then Drive(n, b, r1, None) else r1)
  }

  function CoreOf(s: Snapshot): Core {
    Core(s.plan, s.outputs, s.replans, s.bundle, s.twin, Who(s.msg, s.tenant, s.seat, s.runId))
  }

  /** The task a snapshot paused at is in its plan's order, and the pending action is that task's. */
  ghost predicate Genuine(s: Snapshot) {
    s.scope == ActionPause ==>
      && s.taskId.Some?
      && TopoOrder(s.plan.tasks).Success?
      && var order := TopoOrder(s.plan.tasks).value;
         var k := IndexOf(order, s.taskId.value);
         k < |order| && order[k].HasTool() && WellFormed(s.action) && s.action == TaskAction(CoreOf(s).who, order[k])
  }

  /** The tasks still to run when a genuine action pause is resumed. */
  function Remaining(s: Snapshot): seq<Task>
    requires Genuine(s) && s.scope == ActionPause
  {
    var order := TopoOrder(s.plan.tasks).value;
    order[IndexOf(order, s.taskId.value)..]
  }

  function Restore(s: Snapshot): Run {
    Run(AwaitingApproval, CoreOf(s), [], None, None)
  }

  /** The grant is resolved first; only an ALLOW re-enters the loop. */
  function Regrant(b: Broker, s: Snapshot): (bool, Run)
    requires b.On?
  {
    var r := Restore(s);
    match Resolve(b, s.action)
    case Failure(_) => (false, Log(r, [Resolved(s.replans, s.action, None)]).(err := Some(BlankGrantor)))
    case Success((decision, reason)) =>
      var r1 := Log(r, [Resolved(s.replans, s.action, Some(decision))]);
      if decision == Allow then (true, Emit(r1, GrantEmitted(s.action, reason, b.grantor)))
      else (false, Emit(r1.(state := Rejected), DenyEmitted(s.action, reason, b.grantor)))
  }

  function Resume(n: Neop, b: Broker, mem: Mem, s: Snapshot): Report
    requires b.On?
  {
    var (go, r) := Regrant(b, s);
    Conclude(n, mem, if !go then r else Drive(n, b, r, if s.scope == ActionPause then s.taskId else None))
  }
}

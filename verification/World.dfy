/** Many runs over one snapshot store: dispatches and resumes in any order, under policies, grants and governance
    modes that may change between them (runtime/approval_gate.py MemorySnapshotStore, mark_resolved, pending). */
module World {
  import opened Wrappers
  import opened Json
  import opened Approval
  import opened Plans
  import opened PlanOrder
  import opened Memory
  import opened Agent
  import opened PausedRuns
  import opened Transparency
  import opened Consent

  /** One agent process: its NEop, its memory and the broker it is handed. */
  datatype Job = Job(n: Neop, mem: Mem, b: Broker)

  datatype Op = Launch(job: Job, msg: Msg) | ResumeRun(job: Job, runId: string)

  /** The trace one operation left, and the broker it ran under. */
  datatype Segment = Segment(b: Broker, log: seq<Entry>)

  /** An operation that returned a result. */
  datatype Ended = Ended(runId: string, resumed: bool, state: State)

  datatype World = World(store: Store, segments: seq<Segment>, history: seq<Ended>)

  const EMPTY := World(map[], [], [])

  function Target(op: Op): string {
    match op
    case Launch(job, msg) => WhoOf(job.n, msg).runId
    case ResumeRun(_, id) => id
  }

  /** The world after a dispatch that left run r. */
  function Launched(w: World, b: Broker, id: string, r: Run): World {
    World(StoreOf(w.store, r), w.segments + [Segment(b, r.log)],
          if r.err.Some? then w.history else w.history + [Ended(id, false, r.state)])
  }

  /** The world after a resume of run `id` that left run r. */
  function Resumed(w: World, b: Broker, id: string, r: Run): World {
    var store := StoreOf(w.store, r);
    World(if r.err.Some? then store else MarkResolved(store, id, r.state),
          w.segments + [Segment(b, r.log)],
          if r.err.Some? then w.history else w.history + [Ended(id, true, r.state)])
  }

  function Step(w: World, op: Op): World
    requires op.job.b.On?
  {
    match op
    case Launch(job, msg) => Launched(w, job.b, Target(op), Dispatch(job.n, job.b, job.mem, msg).run)
    case ResumeRun(job, id) =>
      if id !in w.store then w   // load raises KeyError
      else Resumed(w, job.b, id, Resume(job.n, job.b, job.mem, w.store[id].snap).run)
  }

  predicate Governed(ops: seq<Op>) {
    forall i :: 0 <= i < |ops| ==> ops[i].job.b.On?
  }

  function Steps(w: World, ops: seq<Op>): World
    requires Governed(ops)
    decreases |ops|
  {
    if ops == [] then w else Steps(Step(w, ops[0]), ops[1..])
  }

  // ---- the identity of a run never changes ------------------------------------------------

  lemma {:induction false} DriveKeepsWho(n: Neop, b: Broker, r: Run, from: Option<string>)
    ensures var c := Drive(n, b, r, from).core; c.who == r.core.who && c.bundle == r.core.bundle && c.twin == r.core.twin
    decreases Budget(n, r)
  {
    hide Execute, Gate;
    var out := Execute(n, b, r, from);
    if Replans(n, out) {
      var (go, r1) := Replan(n, b, out.1);
      if go { DriveKeepsWho(n, b, r1, None); }
    }
  }

  lemma ConcludeKeeps(n: Neop, mem: Mem, r: Run)
    ensures var r1 := Conclude(n, mem, r).run; r1.core == r.core && r1.saved == r.saved
  {
  }

  lemma DispatchKeepsWho(n: Neop, b: Broker, mem: Mem, msg: Msg)
    ensures Dispatch(n, b, mem, msg).run.core.who == WhoOf(n, msg)
  {
    hide Drive, Gate;
    var r := Start(n, mem, msg);
    if r.err.None? {
      var (go, r1) := GatePlan(n, b, r);
      if go { DriveKeepsWho(n, b, r1, None); }
      ConcludeKeeps(n, mem, if go then Drive(n, b, r1, None) else r1);
    }
  }

  lemma ResumeKeepsWho(n: Neop, b: Broker, mem: Mem, snap: Snapshot)
    requires b.On?
    ensures Resume(n, b, mem, snap).run.core.who == CoreOf(snap).who
  {
    var (go, r) := Regrant(b, snap);
    var from := if snap.scope == ActionPause then snap.taskId else None;
    if go { DriveKeepsWho(n, b, r, from); }
    ConcludeKeeps(n, mem, if !go then r else Drive(n, b, r, from));
  }

  lemma DispatchSavesOwn(n: Neop, b: Broker, mem: Mem, msg: Msg)
    requires b.On?
    ensures var r := Dispatch(n, b, mem, msg).run;
            r.saved.Some? ==> Paused(r) && Genuine(r.saved.value) && r.saved.value.runId == WhoOf(n, msg).runId
    ensures var r := Dispatch(n, b, mem, msg).run; Paused(r) ==> r.saved.Some?
  {
    FineDispatch(n, b, mem, msg);
    DispatchKeepsWho(n, b, mem, msg);
    DispatchResumable(n, b, mem, msg);
  }

  lemma ResumeSavesOwn(n: Neop, b: Broker, mem: Mem, snap: Snapshot)
    requires b.On? && Genuine(snap)
    ensures var r := Resume(n, b, mem, snap).run;
            r.saved.Some? ==> Paused(r) && Genuine(r.saved.value) && r.saved.value.runId == snap.runId
  {
    FineResume(n, b, mem, snap);
    ResumeKeepsWho(n, b, mem, snap);
    ResumeResumable(n, b, mem, snap);
  }

  // ---- consent over any sequence of operations --------------------------------------------

  /** Every stored snapshot is one a run saved under its own id, and every trace is one of consent. */
  ghost predicate Sound(w: World) {
    && (forall id :: id in w.store ==> Genuine(w.store[id].snap) && w.store[id].snap.runId == id)
    && (forall i :: 0 <= i < |w.segments| ==> w.segments[i].b.On? && Good(w.segments[i].b, w.segments[i].log))
  }

  /** A run that saved a snapshot only under its own id, on a good trace. */
  ghost predicate Keeps(b: Broker, r: Run, id: string) {
    && b.On? && Good(b, r.log) && r.core.who.runId == id
    && (r.saved.Some? ==> Genuine(r.saved.value) && r.saved.value.runId == id)
  }

  lemma LaunchedSound(w: World, b: Broker, id: string, r: Run)
    requires Sound(w) && Keeps(b, r, id)
    ensures Sound(Launched(w, b, id, r))
  {
  }

  lemma ResumedSound(w: World, b: Broker, id: string, r: Run)
    requires Sound(w) && id in w.store && Keeps(b, r, id)
    ensures Sound(Resumed(w, b, id, r))
  {
  }

  lemma StepSound(w: World, op: Op)
    requires op.job.b.On? && Sound(w)
    ensures Sound(Step(w, op))
  {
    match op
    case Launch(job, msg) =>
      FineDispatch(job.n, job.b, job.mem, msg);
      DispatchSavesOwn(job.n, job.b, job.mem, msg);
      DispatchKeepsWho(job.n, job.b, job.mem, msg);
      LaunchedSound(w, job.b, Target(op), Dispatch(job.n, job.b, job.mem, msg).run);
    case ResumeRun(job, id) =>
      if id in w.store {
        FineResume(job.n, job.b, job.mem, w.store[id].snap);
        ResumeSavesOwn(job.n, job.b, job.mem, w.store[id].snap);
        ResumeKeepsWho(job.n, job.b, job.mem, w.store[id].snap);
        ResumedSound(w, job.b, id, Resume(job.n, job.b, job.mem, w.store[id].snap).run);
      }
  }

  lemma {:induction false} StepsSound(w: World, ops: seq<Op>)
    requires Governed(ops) && Sound(w)
    ensures Sound(Steps(w, ops))
    decreases |ops|
  {
    if ops == [] {
    } else {
      StepSound(w, ops[0]);
      StepsSound(Step(w, ops[0]), ops[1..]);
    }
  }

  /** Over any sequence of dispatches and resumes with arbitrary policies and grants, the latest check before every
      tool call was an ALLOW of exactly that action in the same attempt; and under ENFORCE the action is not
      hard-denied, and either the policy's mode for it is ALLOW or a named human has granted it by name. */
  lemma ConsentPrecedesMutation(ops: seq<Op>, k: nat, i: nat)
    requires Governed(ops)
    requires var w := Steps(EMPTY, ops); k < |w.segments| && i < |w.segments[k].log| && w.segments[k].log[i].Invoked?
    ensures var seg := Steps(EMPTY, ops).segments[k];
            var call := seg.log[i];
            && seg.b.On?
            && LastCheck(seg.log[..i]) == Some(Check(call.attempt, call.action, true))
            && (seg.b.mode == Enforce ==>
                  && !seg.b.policy.IsHardDenied(call.action)
                  && (seg.b.policy.ModeFor(call.action) == AllowMode || (Granted(seg.b, call.action) && Named(seg.b))))
  {
    StepsSound(EMPTY, ops);
    var seg := Steps(EMPTY, ops).segments[k];
    if seg.b.mode == Enforce { EnforcedCalls(seg.b, seg.log, i); }
  }

  // ---- the Decision Queue -----------------------------------------------------------------

  /** The latest operation on a run that returned. */
  function Latest(history: seq<Ended>, id: string): Option<Ended> {
    if history == [] then None
    else
      var e := history[|history| - 1];
      if e.runId == id then Some(e) else Latest(history[..|history| - 1], id)
  }

  predicate IsAwaiting(w: World, id: string) {
    Latest(w.history, id).Some? && Latest(w.history, id).value.state == AwaitingApproval
  }

  /** A run id is not reused while a snapshot of it is stored. */
  predicate FreshId(w: World, op: Op) {
    op.Launch? ==> Target(op) !in w.store
  }

  predicate FreshIds(w: World, ops: seq<Op>)
    requires Governed(ops)
    decreases |ops|
  {
    ops == [] || (FreshId(w, ops[0]) && FreshIds(Step(w, ops[0]), ops[1..]))
  }

  predicate IsDenied(d: Store, id: string) {
    id in d && d[id].status == DeniedRun
  }

  /** Pending means: the latest operation on the run was a dispatch, and it paused; denied means: it was a resume, and
      was rejected. */
  ghost predicate QueueExact(w: World) {
    && (forall id :: IsPending(w.store, id) <==> Latest(w.history, id) == Some(Ended(id, false, AwaitingApproval)))
    && (forall id :: IsDenied(w.store, id) <==> Latest(w.history, id) == Some(Ended(id, true, Rejected)))
  }

  /** The two worlds hold the same for this run. */
  ghost predicate SameFor(w: World, w': World, id: string) {
    && (id in w'.store <==> id in w.store)
    && (id in w.store ==> w'.store[id] == w.store[id])
    && Latest(w'.history, id) == Latest(w.history, id)
  }

  lemma OthersKept(w: World, b: Broker, target: string, r: Run, id: string)
    requires id != target && r.core.who.runId == target
    ensures SameFor(w, Launched(w, b, target, r), id)
    ensures target in w.store ==> SameFor(w, Resumed(w, b, target, r), id)
  {
  }

  /** An operation touches no other run's snapshot. */
  lemma OthersUndisturbed(w: World, op: Op, id: string)
    requires op.job.b.On? && Sound(w) && id != Target(op)
    ensures SameFor(w, Step(w, op), id)
  {
    match op
    case Launch(job, msg) =>
      DispatchKeepsWho(job.n, job.b, job.mem, msg);
      OthersKept(w, job.b, Target(op), Dispatch(job.n, job.b, job.mem, msg).run, id);
    case ResumeRun(job, rid) =>
      if rid in w.store {
        ResumeKeepsWho(job.n, job.b, job.mem, w.store[rid].snap);
        OthersKept(w, job.b, rid, Resume(job.n, job.b, job.mem, w.store[rid].snap).run, id);
      }
  }

  lemma LatestSnoc(history: seq<Ended>, e: Ended, id: string)
    ensures Latest(history + [e], id) == if e.runId == id then Some(e) else Latest(history, id)
  {
  }

  lemma QueueStep(w: World, op: Op)
    requires op.job.b.On? && Sound(w) && QueueExact(w) && FreshId(w, op)
    ensures QueueExact(Step(w, op))
  {
    var w', t := Step(w, op), Target(op);
    forall id
      ensures IsPending(w'.store, id) <==> Latest(w'.history, id) == Some(Ended(id, false, AwaitingApproval))
      ensures IsDenied(w'.store, id) <==> Latest(w'.history, id) == Some(Ended(id, true, Rejected))
    {
      if id != t {
        OthersUndisturbed(w, op, id);
      } else {
        assert IsPending(w.store, id) <==> Latest(w.history, id) == Some(Ended(id, false, AwaitingApproval));
        assert IsDenied(w.store, id) <==> Latest(w.history, id) == Some(Ended(id, true, Rejected));
        match op
        case Launch(job, msg) =>
          var r := Dispatch(job.n, job.b, job.mem, msg).run;
          DispatchSavesOwn(job.n, job.b, job.mem, msg);
          DispatchKeepsWho(job.n, job.b, job.mem, msg);
          LatestSnoc(w.history, Ended(t, false, r.state), id);
        case ResumeRun(job, _) =>
          if t in w.store {
            var r := Resume(job.n, job.b, job.mem, w.store[t].snap).run;
            ResumeSavesOwn(job.n, job.b, job.mem, w.store[t].snap);
            ResumeKeepsWho(job.n, job.b, job.mem, w.store[t].snap);
            LatestSnoc(w.history, Ended(t, true, r.state), id);
          }
      }
    }
  }

  lemma {:induction false} QueueSteps(w: World, ops: seq<Op>)
    requires Governed(ops) && Sound(w) && QueueExact(w) && FreshIds(w, ops)
    ensures QueueExact(Steps(w, ops))
    decreases |ops|
  {
    if ops == [] {
    } else {
      StepSound(w, ops[0]);
      QueueStep(w, ops[0]);
      QueueSteps(Step(w, ops[0]), ops[1..]);
    }
  }

  /** The queue holds exactly the runs whose latest operation was a dispatch that paused, so all it holds await a
      human; and it holds every run that does exactly when no latest operation is a resume that paused again, since
      such a run was marked resolved. */
  lemma DecisionQueue(ops: seq<Op>)
    requires Governed(ops) && FreshIds(EMPTY, ops)
    ensures var w := Steps(EMPTY, ops);
            && QueueExact(w)
            && (forall id :: IsPending(w.store, id) ==> IsAwaiting(w, id))
            && ((forall id :: IsAwaiting(w, id) ==> IsPending(w.store, id)) <==>
                (forall id :: Latest(w.history, id) != Some(Ended(id, true, AwaitingApproval))))
  {
    QueueSteps(EMPTY, ops);
    var w := Steps(EMPTY, ops);
    forall id | IsAwaiting(w, id) ensures Latest(w.history, id).value.runId == id {
      LatestIsOfId(w.history, id);
    }
  }

  lemma {:induction false} LatestIsOfId(history: seq<Ended>, id: string)
    requires Latest(history, id).Some?
    ensures Latest(history, id).value.runId == id
  {
    if history[|history| - 1].runId != id { LatestIsOfId(history[..|history| - 1], id); }
  }

  // ---- the queue can lose a waiting run ---------------------------------------------------

  /** A one-task executor whose policy asks at both gates. */
  function Executor(): Neop {
    Neop("echo", false, false, 0, ["echo_tool"], {"echo_tool"}, false, false, false, false, false,
         (k, t, m) => Raises, (k, t, m, task, o) => Returns(true), (k, tool, i) => Returns(Str("hi")))
  }

  function AskAlways(): Broker {
    On(Policy(map[], map[], {}, AskMode), map["implicit" := "allow"], Some("ml"), Enforce)
  }

  const MEM := Mem(0, [], None, [], [], [])
  const MSG := Msg(Str("hi"), None, None, "r1", "", Null, None)
  const TASK := Task("t1", [], Some("echo_tool"), Some("tool"), None)

  lemma NotBlank()
    ensures !Blank("implicit") && !Blank("echo_tool") && !Blank("ml")
  {
    assert !IsSpace("implicit"[0]) && !IsSpace("echo_tool"[0]) && !IsSpace("ml"[0]);
  }

  lemma PausesAtPlan() returns (snap: Snapshot)
    ensures var r := Dispatch(Executor(), AskAlways(), MEM, MSG).run;
            r.err.None? && r.state == AwaitingApproval && r.saved == Some(snap) && r.core.who.runId == "r1"
    ensures snap.scope == PlanPause && snap.plan == Plan(Some("implicit"), [TASK]) && snap.action.name == "implicit"
    ensures CoreOf(snap).who == WhoOf(Executor(), MSG)
  {
    NotBlank();
    var n, b := Executor(), AskAlways();
    var r := Start(n, MEM, MSG);
    GateOutcome(n, b, r, PlanPause, PlanAction(n, r.core), None);
    snap := GatePlan(n, b, r).1.saved.value;
    DispatchKeepsWho(n, b, MEM, MSG);
  }

  lemma OneTaskOrder()
    ensures TopoOrder([TASK]) == Success([TASK])
  {
    assert Distinct([TASK]) && Respects(ById([TASK]), [TASK]);
    SortedUnchanged([TASK]);
  }

  /** A plan of one task whose action the policy asks about pauses at that task. */
  lemma PausesAtTask(n: Neop, b: Broker, r: Run, t: Task)
    requires b.On? && r.err.None? && TopoOrder(r.core.plan.tasks) == Success([t]) && t.HasTool()
    requires var a := TaskAction(r.core.who, t); WellFormed(a) && Consult(b, a).0 == Await
    ensures Paused(Drive(n, b, r, None)) && Drive(n, b, r, None).saved.Some?
  {
    var r0 := r.(core := r.core.(outputs := []));
    GateOutcome(n, b, r0.(state := Executing), ActionPause, TaskAction(r.core.who, t), Some(t.id));
    var out := ExecTask(n, b, r0, t, false);
    assert ExecFrom(n, b, r0, [t], false) == out;
    assert AfterAttempt(n, b, out) == out.1;
  }

  lemma PausesAgain(snap: Snapshot)
    requires snap.scope == PlanPause && snap.plan.tasks == [TASK] && snap.action.name == "implicit"
    requires CoreOf(snap).who == WhoOf(Executor(), MSG)
    ensures var r := Resume(Executor(), AskAlways(), MEM, snap).run;
            r.err.None? && r.state == AwaitingApproval && r.saved.Some? && r.core.who.runId == "r1"
  {
    NotBlank();
    var (go, r) := Regrant(AskAlways(), snap);
    OneTaskOrder();
    PausesAtTask(Executor(), AskAlways(), r, TASK);
    ConcludeKeeps(Executor(), MEM, Drive(Executor(), AskAlways(), r, None));
    ResumeKeepsWho(Executor(), AskAlways(), MEM, snap);
  }

  /** Dispatched, granted at the plan gate and paused again at the action gate, a run still awaits a human but is no
      longer pending. */
  lemma RepausedRunLeavesTheQueue() returns (ops: seq<Op>)
    ensures Governed(ops) && FreshIds(EMPTY, ops)
    ensures var w := Steps(EMPTY, ops); IsAwaiting(w, "r1") && !IsPending(w.store, "r1")
  {
    hide Dispatch, Agent.Resume;
    var job := Job(Executor(), MEM, AskAlways());
    ops := [Launch(job, MSG), ResumeRun(job, "r1")];
    var snap := PausesAtPlan();
    PausesAgain(snap);
    var w1 := Step(EMPTY, ops[0]);
    assert w1.store == map["r1" := Stored(snap, Pending)];
    var w := Step(w1, ops[1]);
    assert ops[1..] == [ops[1]];
    assert FreshIds(w1, [ops[1]]);
    assert Steps(w1, [ops[1]]) == Steps(w, []);
    LatestSnoc(w1.history, Ended("r1", true, AwaitingApproval), "r1");
  }
}

/** What a run may read, and what it leaves behind, however often it is paused (runtime/core.py assemble, _finalize). */
module Effects {
  import opened Wrappers
  import opened Json
  import opened Approval
  import opened Plans
  import opened Memory
  import opened Agent
  import opened Transparency
  import opened MemoryRuns
  import Telling
  import World

  // ---- a run reads its own tenant's memory and its owner's twin -----------------------------

  /** Whose twin a run may see: the requester's, or else the seat's. */
  function Owner(n: Neop, msg: Msg): string {
    if msg.requester != "" then msg.requester else msg.seat.GetOr(n.id)
  }

  /** Under its own name: nothing of another tenant, nothing of another owner, and nothing the role may not read. */
  ghost predicate OwnOnly(n: Neop, mem: Mem, msg: Msg, c: Core) {
    var tenant, seat := msg.tenant.GetOr("default"), msg.seat.GetOr(n.id);
    && c.who == Who(msg, tenant, seat, if msg.runId != "" then msg.runId else tenant + ":" + seat + ":" + n.id)
    && (forall k :: k in c.bundle.chunks ==> n.memRead && k in mem.chunks && k.tenant.GetOr(tenant) == tenant)
    && |c.bundle.chunks| <= 5
    && c.bundle.twin == c.twin
    && (c.twin.Some? ==> n.twinRead && c.twin == mem.twin && Get(c.twin.value, "twin_id") == Str(tenant + ":" + Owner(n, msg)))
  }

  lemma RetrievesOwn(mem: Mem, tenant: string)
    ensures |Retrieve(mem, tenant)| <= 5
    ensures forall k :: k in Retrieve(mem, tenant) ==> k in mem.chunks && k.tenant.GetOr(tenant) == tenant
  {
    var at := RetrievesFirstVisible(mem, tenant);
    var got := Retrieve(mem, tenant);
    forall k | k in got ensures k in mem.chunks && k.tenant.GetOr(tenant) == tenant {
      var i :| 0 <= i < |got| && got[i] == k;
      assert VisibleAt(mem.chunks, tenant, at[i]);
    }
  }

  lemma AssembledOwn(n: Neop, mem: Mem, msg: Msg)
    ensures OwnOnly(n, mem, msg, Start(n, mem, msg).core) && Start(n, mem, msg).core.who == WhoOf(n, msg)
  {
    hide Retrieve, GetTwin;
    RetrievesOwn(mem, TenantOf(msg));
    GetsOwn(mem, TenantOf(msg), Owner(n, msg));
  }

  lemma GetsOwn(mem: Mem, tenant: string, owner: string)
    ensures var t := GetTwin(mem, tenant, owner);
            t.Some? ==> t == mem.twin && Get(t.value, "twin_id") == Str(tenant + ":" + owner)
  {
  }

  lemma DispatchReadsOwn(n: Neop, b: Broker, mem: Mem, msg: Msg)
    ensures OwnOnly(n, mem, msg, Dispatch(n, b, mem, msg).run.core)
  {
    hide Start, Dispatch;
    AssembledOwn(n, mem, msg);
    DispatchKeepsHanded(n, b, mem, msg);
  }

  /** The events that open a run's trace: what it was handed. */
  ghost function OpeningOf(n: Neop, mem: Mem, c: Core): seq<Entry> {
    [Ev(RunStart)]
    + (if n.memRead then [Ev(MemoryRetrieved(ChunkIds(c.bundle.chunks)))] else [])
    + (if c.twin.Some? then [Ev(TwinAssembled(c.twin.value))] else [])
    + [Ev(Assembled(mem.stm))]
  }

  lemma StartOpens(n: Neop, mem: Mem, msg: Msg)
    ensures var r := Start(n, mem, msg); OpeningOf(n, mem, r.core) <= r.log
  {
    hide Retrieve, GetTwin;
    var r := Assemble(n, mem, msg);
    assert r.log == OpeningOf(n, mem, r.core);
  }

  lemma DispatchKeepsHanded(n: Neop, b: Broker, mem: Mem, msg: Msg)
    ensures var c, c' := Start(n, mem, msg).core, Dispatch(n, b, mem, msg).run.core; c'.bundle == c.bundle && c'.twin == c.twin && c'.who == c.who
  {
    hide Start, Drive, Gate, Conclude;
    var r := Start(n, mem, msg);
    if r.err.None? {
      var (go, r1) := GatePlan(n, b, r);
      if go { World.DriveKeepsWho(n, b, r1, None); }
      World.ConcludeKeeps(n, mem, if go then Drive(n, b, r1, None) else r1);
    }
  }

  /** A dispatched run's trace opens by telling exactly what the run was handed. */
  lemma TraceOpens(n: Neop, b: Broker, mem: Mem, msg: Msg)
    ensures var r := Dispatch(n, b, mem, msg).run; OpeningOf(n, mem, r.core) <= r.log
  {
    hide Start, Dispatch;
    StartOpens(n, mem, msg);
    DispatchKeepsHanded(n, b, mem, msg);
    Telling.ToldDispatch(n, b, mem, msg);
  }

  lemma ResumeReadsNothing(n: Neop, b: Broker, mem: Mem, snap: Snapshot)
    requires b.On?
    ensures var c, c' := CoreOf(snap), Resume(n, b, mem, snap).run.core; c'.bundle == c.bundle && c'.twin == c.twin && c'.who == c.who
  {
    hide Drive, Conclude, Resolve;
    var (go, r) := Regrant(b, snap);
    var from := if snap.scope == ActionPause then snap.taskId else None;
    if go { World.DriveKeepsWho(n, b, r, from); }
    World.ConcludeKeeps(n, mem, if !go then r else Drive(n, b, r, from));
  }

  // ---- what it leaves behind ----------------------------------------------------------------

  ghost predicate Untouched(mem: Mem, rep: Report) {
    rep.mem == mem && rep.twinAck.None? && rep.shadow.None?
  }

  /** The states a finished run can be in, by name. */
  function Name(s: State): string {
    if s == Done then "DONE" else if s == Failed then "FAILED" else if s == Escalated then "ESCALATED" else ""
  }

  /** The key of a run's record: by whom, how it ended, how many outputs, and what it was handed. */
  function RunKey(n: Neop, c: Core, state: State): DedupKey {
    var record := Record(Arr([Str(n.id), Str(Name(state)), Num(|c.outputs|)]), ChunkIds(c.bundle.chunks), "run");
    DedupKey(c.who.msg.tenant.GetOr("default"), c.who.msg.seat.GetOr(n.id), record)
  }

  /** The record of a finished run, stored unless the store has it, and one consolidation; or neither. */
  ghost predicate Recorded(n: Neop, c: Core, state: State, mem: Mem, mem': Mem) {
    var key := RunKey(n, c, state);
    && mem'.stm == mem.stm && mem'.chunks == mem.chunks
    && (n.memWrite ==>
          && mem'.consolidations == mem.consolidations + [Consolidation(key.tenant, key.seat, mem.stm)]
          && mem'.writes == if Has(mem, key) then mem.writes else mem.writes + [Stamped(key, |mem.writes| + 1)])
    && (!n.memWrite ==> mem'.consolidations == mem.consolidations && mem'.writes == mem.writes)
  }

  /** The twin part of a finished run: one put of its first output, whose refusal fails it. */
  ghost predicate TwinPut(n: Neop, c: Core, state: State, mem: Mem, rep: Report) {
    if !n.twinWrite then
      rep.mem.twin == mem.twin && rep.mem.twinWrites == mem.twinWrites && rep.twinAck.None? && rep.run.state == state
    else
      && (c.outputs == [] || c.outputs[0].1.Obj?)
      && var draft := if c.outputs == [] then map[] else c.outputs[0].1.fields;
         var (mem', ack) := PutTwin(mem, c.who.msg.tenant.GetOr("default"), Owner(n, c.who.msg), draft);
         && rep.mem.twin == mem'.twin && rep.mem.twinWrites == mem'.twinWrites && rep.twinAck == Some(ack)
         && rep.run.state == if ack.Accepted? then state else Failed
  }

  /** The shadow prediction of a finished run: its first output against what the person did. */
  ghost predicate Shadowed(n: Neop, c: Core, rep: Report) {
    if !n.shadow then rep.shadow.None?
    else
      var predicted := if c.outputs == [] then Null else c.outputs[0].1;
      rep.shadow == Some(ShadowPredicted(predicted, c.who.msg.actual, PyEq(predicted, c.who.msg.actual)))
  }

  /** The events that close the trace of a finished run: what it wrote, and how it ended. */
  ghost function ClosingOf(n: Neop, c: Core, state: State, mem: Mem, rep: Report): seq<Entry> {
    (if n.memWrite then [Ev(MemoryWritten(ChunkIds(c.bundle.chunks), !Has(mem, RunKey(n, c, state))))] else [])
    + (if rep.twinAck.Some? && rep.twinAck.value.Accepted?
       then [Ev(TwinWritten(Owner(n, c.who.msg), rep.twinAck.value.version))] else [])
    + (if rep.shadow.Some? then [Ev(rep.shadow.value)] else [])
    + [Ev(RunEnd(rep.run.state, c.replans))]
  }

  predicate EndsWith(log: seq<Entry>, es: seq<Entry>) {
    |es| <= |log| && log[|log| - |es|..] == es
  }

  /** All three, once each, and told. */
  ghost predicate Left(n: Neop, c: Core, state: State, mem: Mem, rep: Report) {
    && Recorded(n, c, state, mem, rep.mem) && TwinPut(n, c, state, mem, rep) && Shadowed(n, c, rep)
    && EndsWith(rep.run.log, ClosingOf(n, c, state, mem, rep))
  }

  /** A run that ended but has no twin to write: its record is stored, and then it raises. */
  ghost predicate LeftHalf(n: Neop, c: Core, state: State, mem: Mem, rep: Report) {
    && Recorded(n, c, state, mem, rep.mem) && rep.mem.twin == mem.twin && rep.mem.twinWrites == mem.twinWrites
    && rep.twinAck.None? && rep.shadow.None?
  }

  lemma WriteRecords(n: Neop, rep: Report)
    requires rep.run.err.None?
    ensures var m := WriteMemory(n, rep);
            && Recorded(n, rep.run.core, rep.run.state, rep.mem, m.mem) && m.mem.twin == rep.mem.twin
            && m.mem.twinWrites == rep.mem.twinWrites && m.twinAck == rep.twinAck && m.shadow == rep.shadow
            && var told := if n.memWrite then [Ev(MemoryWritten(ChunkIds(rep.run.core.bundle.chunks),
                                                               !Has(rep.mem, RunKey(n, rep.run.core, rep.run.state))))] else [];
               m.run == Log(rep.run, told)
  {
    hide Has;
    var c, key := rep.run.core, RunKey(n, rep.run.core, rep.run.state);
    WritesOnce(rep.mem, TenantOf(c.who.msg), SeatOf(n, c.who.msg), key.record);
    assert rep.run.log + [] == rep.run.log;
    hide Write;
  }

  /** Whether a put is accepted, and as what, hangs on the stored twin alone. */
  lemma PutIgnoresWrites(m: Mem, m': Mem, tenant: string, owner: string, draft: Fields)
    requires m'.twin == m.twin && m'.twinWrites == m.twinWrites
    ensures var (a, ack) := PutTwin(m, tenant, owner, draft);
            var (a', ack') := PutTwin(m', tenant, owner, draft);
            ack' == ack && a'.twin == a.twin && a'.twinWrites == a.twinWrites
            && a' == m'.(twin := a'.twin, twinWrites := a'.twinWrites)
  {
  }

  lemma TwinLeft(n: Neop, mem: Mem, m: Report)
    requires m.run.err.None? && m.mem.twin == mem.twin && m.mem.twinWrites == mem.twinWrites && m.twinAck.None?
    ensures var t := WriteTwin(n, m);
            && (t.run.err.None? || (t.run.err == Some(DraftNotAnObject) && t.mem == m.mem && t.twinAck.None?))
            && (t.run.err.None? ==> TwinPut(n, m.run.core, m.run.state, mem, t))
            && t.run.core == m.run.core && t.shadow == m.shadow
            && t.mem == m.mem.(twin := t.mem.twin, twinWrites := t.mem.twinWrites)
            && t.run.log == m.run.log + (if t.twinAck.Some? && t.twinAck.value.Accepted?
                                         then [Ev(TwinWritten(Owner(n, m.run.core.who.msg), t.twinAck.value.version))] else [])
  {
    var c := m.run.core;
    var draft := FirstOutput(c).GetOr(Obj(map[]));
    if draft.Obj? { PutIgnoresWrites(mem, m.mem, TenantOf(c.who.msg), OwnerOf(n, c.who.msg), draft.fields); }
    hide PutTwin;
    assert m.run.log + [] == m.run.log;
  }

  lemma ShadowLeft(n: Neop, t: Report)
    requires t.shadow.None?
    ensures var f := WriteShadow(n, t);
            && Shadowed(n, t.run.core, f) && f == t.(run := f.run, shadow := f.shadow)
            && f.run == Log(t.run, if f.shadow.Some? then [Ev(f.shadow.value)] else [])
  {
    assert t.run.log + [] == t.run.log;
  }

  /** A run that is over, and not stopped, leaves all its effects, or raises for want of a twin after the first. */
  lemma FinishLeaves(n: Neop, mem: Mem, r: Run)
    requires r.err.None? && !Stopped(r)
    ensures var rep := Conclude(n, mem, r);
            if rep.run.err.None? then Left(n, r.core, r.state, mem, rep)
            else rep.run.err == Some(DraftNotAnObject) && LeftHalf(n, r.core, r.state, mem, rep)
  {
    hide Recorded, WriteMemory, PutTwin, WriteTwin, WriteShadow, RunKey, Shadowed, TwinPut;
    var rep := Report(r, mem, None, None);
    WriteRecords(n, rep);
    var m := WriteMemory(n, rep);
    TwinLeft(n, mem, m);
    var t := WriteTwin(n, m);
    RecordedStill(n, r.core, r.state, mem, m.mem, t.mem);
    if t.run.err.None? {
      ShadowLeft(n, t);
      var f := WriteShadow(n, t);
      var end := Conclude(n, mem, r);
      assert end == f.(run := EndRun(f.run));
      TwinStill(n, r.core, r.state, mem, t, end);
      ShadowStill(n, r.core, f, end);
      assert end.run.log == r.log + ClosingOf(n, r.core, r.state, mem, end);
    }
  }

  lemma TwinStill(n: Neop, c: Core, state: State, mem: Mem, t: Report, rep: Report)
    requires TwinPut(n, c, state, mem, t) && rep.mem == t.mem && rep.twinAck == t.twinAck && rep.run.state == t.run.state
    ensures TwinPut(n, c, state, mem, rep)
  {
    hide PutTwin;
  }

  lemma ShadowStill(n: Neop, c: Core, f: Report, rep: Report)
    requires Shadowed(n, c, f) && rep.shadow == f.shadow
    ensures Shadowed(n, c, rep)
  {
  }

  lemma RecordedStill(n: Neop, c: Core, state: State, mem: Mem, m1: Mem, m2: Mem)
    requires Recorded(n, c, state, mem, m1) && m2 == m1.(twin := m2.twin, twinWrites := m2.twinWrites)
    ensures Recorded(n, c, state, mem, m2)
  {
  }

  // ---- over a run and all its resumes -------------------------------------------------------

  /** What one segment of a run left: its own effects if it ended the run, else nothing. */
  ghost predicate SegmentLeft(n: Neop, mem: Mem, rep: Report) {
    if rep.run.err == Some(DraftNotAnObject) then exists state :: LeftHalf(n, rep.run.core, state, mem, rep)
    else if rep.run.err.Some? || Stopped(rep.run) then Untouched(mem, rep)
    else exists state :: Left(n, rep.run.core, state, mem, rep)
  }

  lemma ConcludeSegment(n: Neop, mem: Mem, r: Run)
    requires r.err != Some(DraftNotAnObject)
    ensures SegmentLeft(n, mem, Conclude(n, mem, r))
  {
    hide Left, LeftHalf, Finalize;
    World.ConcludeKeeps(n, mem, r);
    if r.err.None? && !Stopped(r) {
      FinishLeaves(n, mem, r);
      ConcludeKeepsEnded(n, mem, r);
    }
  }

  /** Only finishing raises for want of a twin. */
  lemma {:induction false} ExecKeepsDraft(n: Neop, b: Broker, r: Run, tasks: seq<Task>, skip: bool)
    requires r.err != Some(DraftNotAnObject)
    ensures ExecFrom(n, b, r, tasks, skip).1.err != Some(DraftNotAnObject)
    decreases |tasks|
  {
    if tasks == [] {
    } else {
      TaskKeepsDraft(n, b, r, tasks[0], skip);
      hide ExecTask;
      var (ok, r1) := ExecTask(n, b, r, tasks[0], skip);
      if ok { ExecKeepsDraft(n, b, r1, tasks[1..], false); }
    }
  }

  lemma CallKeepsDraft(n: Neop, r: Run, t: Task)
    requires r.err != Some(DraftNotAnObject)
    ensures CallTool(n, r, t).1.err != Some(DraftNotAnObject) && Verify(n, r, t).1.err != Some(DraftNotAnObject)
  {
    hide InputsOf, Invoke, IsBlocked;
  }

  lemma GateKeepsDraft(n: Neop, b: Broker, r: Run, scope: PauseScope, action: Action, taskId: Option<string>)
    requires b.On? && r.err != Some(DraftNotAnObject)
    ensures Gate(n, b, r, scope, action, taskId).1.err != Some(DraftNotAnObject)
  {
    hide Decide;
  }

  lemma TaskKeepsDraft(n: Neop, b: Broker, r: Run, t: Task, skip: bool)
    requires r.err != Some(DraftNotAnObject)
    ensures ExecTask(n, b, r, t, skip).1.err != Some(DraftNotAnObject)
  {
    hide Gate, CallTool, Verify;
    var r0 := r.(state := Executing);
    if b.On? { GateKeepsDraft(n, b, r0, ActionPause, TaskAction(r.core.who, t), Some(t.id)); }
    var (go, r1) := GateTask(n, b, r0, t, skip);
    CallKeepsDraft(n, r1, t);
    CallKeepsDraft(n, CallTool(n, r1, t).1, t);
  }

  lemma ExecuteKeepsDraft(n: Neop, b: Broker, r: Run, from: Option<string>)
    requires r.err != Some(DraftNotAnObject)
    ensures Execute(n, b, r, from).1.err != Some(DraftNotAnObject)
  {
    hide ExecFrom, TopoOrder;
    var order, r0 := TopoOrder(r.core.plan.tasks), if from.Some? then r else r.(core := r.core.(outputs := []));
    if order.Success? {
      if from.None? { ExecKeepsDraft(n, b, r0, order.value, false); }
      else if IndexOf(order.value, from.value) < |order.value| {
        ExecKeepsDraft(n, b, r0, order.value[IndexOf(order.value, from.value)..], true);
      }
    }
  }

  lemma {:induction false} DriveKeepsDraft(n: Neop, b: Broker, r: Run, from: Option<string>)
    requires r.err != Some(DraftNotAnObject)
    ensures Drive(n, b, r, from).err != Some(DraftNotAnObject)
    decreases Budget(n, r)
  {
    hide Execute, Gate;
    ExecuteKeepsDraft(n, b, r, from);
    var out := Execute(n, b, r, from);
    if Replans(n, out) {
      var r2 := MakePlan(n, Emit(out.1.(core := out.1.core.(replans := out.1.core.replans + 1)),
                                 ReplanStarted(out.1.core.replans + 1)).(state := Replanning));
      if b.On? { GateKeepsDraft(n, b, r2, PlanPause, PlanAction(n, r2.core), None); }
      var (go, r1) := Replan(n, b, out.1);
      if go { DriveKeepsDraft(n, b, r1, None); }
    }
  }

  lemma DispatchLeaves(n: Neop, b: Broker, mem: Mem, msg: Msg)
    ensures SegmentLeft(n, mem, Dispatch(n, b, mem, msg))
  {
    hide SegmentLeft, Assemble, Gate, Drive, Conclude;
    AssembleEmits(n, mem, msg);
    var r := Start(n, mem, msg);
    StartRaises(n, mem, msg);
    var (go, r1) := GatePlan(n, b, r);
    if b.On? && r.err.None? { GateOutcome(n, b, r, PlanPause, PlanAction(n, r.core), None); }
    if r.err.None? && go { DriveKeepsDraft(n, b, r1, None); }
    if r.err.None? { ConcludeSegment(n, mem, if go then Drive(n, b, r1, None) else r1); }
  }

  lemma StartRaises(n: Neop, mem: Mem, msg: Msg)
    ensures var r := Start(n, mem, msg); r.err.Some? ==> SegmentLeft(n, mem, Report(r, mem, None, None))
  {
    hide Assemble;
    AssembleEmits(n, mem, msg);
  }

  lemma {:induction false} PlayLeaves(n: Neop, mem: Mem, msg: Msg, rep: Report, bs: seq<Broker>, before: seq<Entry>)
    requires AllOn(bs) && Resumable(rep.run) && SegmentLeft(n, mem, rep) && OwnOnly(n, mem, msg, rep.run.core)
    ensures var rep' := Play(n, mem, rep, bs, before).0; SegmentLeft(n, mem, rep') && OwnOnly(n, mem, msg, rep'.run.core)
    decreases |bs|
  {
    hide SegmentLeft, Resume;
    if bs != [] && Paused(rep.run) {
      var snap := rep.run.saved.value;
      ResumeResumable(n, bs[0], mem, snap);
      ResumeLeaves(n, bs[0], mem, snap);
      ResumeReadsNothing(n, bs[0], mem, snap);
      PlayLeaves(n, mem, msg, Resume(n, bs[0], mem, snap), bs[1..], before + rep.run.log);
    }
  }

  lemma ResumeLeaves(n: Neop, b: Broker, mem: Mem, snap: Snapshot)
    requires b.On?
    ensures SegmentLeft(n, mem, Resume(n, b, mem, snap))
  {
    hide SegmentLeft, Resolve, Drive, Conclude;
    var (go, r) := Regrant(b, snap);
    var from := if snap.scope == ActionPause then snap.taskId else None;
    if go { DriveKeepsDraft(n, b, r, from); }
    ConcludeSegment(n, mem, if !go then r else Drive(n, b, r, from));
  }

  /** However often a run pauses: it is only ever handed what its tenant and its owner may see; while it waits, if it is
      denied, or if it raises, it leaves memory and twin as they were; and when it ends, it leaves its record, its twin
      and its shadow prediction exactly once, of its final outputs, a refused twin failing it. */
  lemma EffectsOnce(n: Neop, b: Broker, bs: seq<Broker>, mem: Mem, msg: Msg)
    requires AllOn(bs)
    ensures var rep := Play(n, mem, Dispatch(n, b, mem, msg), bs, []).0;
            OwnOnly(n, mem, msg, rep.run.core) && SegmentLeft(n, mem, rep)
  {
    hide Dispatch, Play, SegmentLeft, OwnOnly;
    DispatchResumable(n, b, mem, msg);
    DispatchLeaves(n, b, mem, msg);
    DispatchReadsOwn(n, b, mem, msg);
    PlayLeaves(n, mem, msg, Dispatch(n, b, mem, msg), bs, []);
  }
}

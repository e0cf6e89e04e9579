/** One run among many: its operations, interleaved with those of other runs through the shared store, amount to a
    dispatch and a chain of resumes handed from one to the next. */
module Interleaving {
  import opened Wrappers
  import opened Approval
  import opened Memory
  import opened Agent
  import opened Transparency
  import opened World

  lemma {:induction false} StepsSnoc(w: World, ops: seq<Op>, op: Op)
    requires Governed(ops) && op.job.b.On?
    ensures Governed(ops + [op]) && Steps(w, ops + [op]) == Step(Steps(w, ops), op)
    decreases |ops|
  {
    hide Step;
    if ops == [] {
      assert [] + [op] == [op] && [op][1..] == [];
    } else {
      StepsSnoc(Step(w, ops[0]), ops[1..], op);
      assert (ops + [op])[1..] == ops[1..] + [op];
    }
  }

  /** The run's latest report, and the trace of all its segments so far. */
  function Runs(ops: seq<Op>, id: string): (Option<Report>, seq<Entry>)
    requires Governed(ops)
  {
    if ops == [] then (None, [])
    else
      var init, op := ops[..|ops| - 1], ops[|ops| - 1];
      var (last, log) := Runs(init, id);
      if Target(op) != id then (last, log)
      else
        match op
        case Launch(job, msg) =>
          var rep := Dispatch(job.n, job.b, job.mem, msg);
          (Some(rep), log + rep.run.log)
        case ResumeRun(job, _) =>
          var store := Steps(EMPTY, init).store;
          if id !in store then (last, log)
          else
            var rep := Resume(job.n, job.b, job.mem, store[id].snap);
            (Some(rep), log + rep.run.log)
  }

  /** A run waiting for a human has its snapshot, and no other, in the store. */
  ghost predicate Kept(ops: seq<Op>, id: string)
    requires Governed(ops)
  {
    var last, store := Runs(ops, id).0, Steps(EMPTY, ops).store;
    last.Some? && Paused(last.value.run) ==>
      last.value.run.saved.Some? && id in store && store[id].snap == last.value.run.saved.value
  }

  lemma SavedUnderId(w: World, b: Broker, id: string, r: Run)
    requires r.core.who.runId == id && (Paused(r) ==> r.saved.Some?)
    ensures var store := Launched(w, b, id, r).store;
            Paused(r) ==> id in store && store[id].snap == r.saved.value
    ensures var store := Resumed(w, b, id, r).store;
            Paused(r) ==> id in store && store[id].snap == r.saved.value
  {
  }

  lemma KeptStep(init: seq<Op>, op: Op, id: string)
    requires Governed(init) && op.job.b.On? && Kept(init, id)
    ensures Governed(init + [op]) && Kept(init + [op], id)
  {
    var w := Steps(EMPTY, init);
    StepsSound(EMPTY, init);
    StepsSnoc(EMPTY, init, op);
    assert (init + [op])[..|init|] == init;
    hide Steps, Launched, Resumed, Dispatch, Agent.Resume;
    if Target(op) != id {
      OthersUndisturbed(w, op, id);
    } else {
      match op
      case Launch(job, msg) =>
        DispatchKeepsWho(job.n, job.b, job.mem, msg);
        DispatchResumable(job.n, job.b, job.mem, msg);
        SavedUnderId(w, job.b, id, Dispatch(job.n, job.b, job.mem, msg).run);
      case ResumeRun(job, _) =>
        if id in w.store {
          ResumeKeepsWho(job.n, job.b, job.mem, w.store[id].snap);
          ResumeResumable(job.n, job.b, job.mem, w.store[id].snap);
          SavedUnderId(w, job.b, id, Resume(job.n, job.b, job.mem, w.store[id].snap).run);
        }
    }
  }

  lemma KeptAtFirst(id: string)
    ensures Kept([], id)
  {
  }

  lemma {:induction false} AlwaysKept(ops: seq<Op>, id: string)
    requires Governed(ops)
    ensures Kept(ops, id)
  {
    hide Kept, Runs, Steps, Step;
    if ops == [] {
      KeptAtFirst(id);
    } else {
      var n := |ops| - 1;
      AlwaysKept(ops[..n], id);
      KeptStep(ops[..n], ops[n], id);
      assert ops == ops[..n] + [ops[n]];
    }
  }

  // ---- the chain ------------------------------------------------------------------------------

  predicate Absent(ops: seq<Op>, id: string) {
    forall i :: 0 <= i < |ops| ==> Target(ops[i]) != id
  }

  /** The brokers of this run's resumes, in order. */
  function BrokersOf(ops: seq<Op>, id: string): (bs: seq<Broker>)
    requires Governed(ops)
    ensures AllOn(bs)
  {
    if ops == [] then []
    else
      var op := ops[|ops| - 1];
      BrokersOf(ops[..|ops| - 1], id) + (if op.ResumeRun? && Target(op) == id then [op.job.b] else [])
  }

  /** The run is launched once, by this job and message, and resumed only while it waits, each time by the same NEop
      over the same memory; between its operations anything may happen to other runs. */
  ghost predicate Orderly(ops: seq<Op>, id: string, job: Job, msg: Msg)
    requires Governed(ops)
  {
    ops != [] &&
    var init, op := ops[..|ops| - 1], ops[|ops| - 1];
    if Target(op) != id then Orderly(init, id, job, msg)
    else
      match op
      case Launch(j, m) => j == job && m == msg && Absent(init, id)
      case ResumeRun(j, _) =>
        && j.n == job.n && j.mem == job.mem && Orderly(init, id, job, msg)
        && Runs(init, id).0.Some? && Paused(Runs(init, id).0.value.run)
  }

  lemma {:induction false} AbsentRuns(ops: seq<Op>, id: string)
    requires Governed(ops) && Absent(ops, id)
    ensures Runs(ops, id) == (None, []) && BrokersOf(ops, id) == []
  {
    if ops == [] {
    } else {
      var n := |ops| - 1;
      assert Target(ops[n]) != id && forall i :: 0 <= i < n ==> ops[..n][i] == ops[i];
      AbsentRuns(ops[..n], id);
    }
  }

  /** One more resume of a chain that ended in a pause. */
  lemma {:induction false} PlaySnoc(n: Neop, mem: Mem, rep: Report, bs: seq<Broker>, b: Broker, before: seq<Entry>)
    requires AllOn(bs) && b.On?
    ensures AllOn(bs + [b])
    ensures var (r, log) := Play(n, mem, rep, bs, before);
            Paused(r.run) && r.run.saved.Some? ==>
              var next := Resume(n, b, mem, r.run.saved.value);
              Play(n, mem, rep, bs + [b], before) == (next, log + next.run.log)
    decreases |bs|
  {
    hide Agent.Resume;
    if bs == [] {
      assert [] + [b] == [b] && [b][1..] == [];
    } else {
      assert (bs + [b])[1..] == bs[1..] + [b] && (bs + [b])[0] == bs[0];
      if Paused(rep.run) && rep.run.saved.Some? {
        PlaySnoc(n, mem, Resume(n, bs[0], mem, rep.run.saved.value), bs[1..], b, before + rep.run.log);
      }
    }
  }

  /** However a run's operations are interleaved with others, it comes as far as the uninterleaved chain of its own
      dispatch and resumes, with the same report and the same trace. */
  lemma {:induction false} InterleavingIrrelevant(ops: seq<Op>, id: string, job: Job, msg: Msg)
    requires Governed(ops) && Orderly(ops, id, job, msg)
    ensures var (rep, log) := Play(job.n, job.mem, Dispatch(job.n, job.b, job.mem, msg), BrokersOf(ops, id), []);
            Runs(ops, id) == (Some(rep), log)
  {
    hide Dispatch, Agent.Resume, Steps;
    var init, op := ops[..|ops| - 1], ops[|ops| - 1];
    if Target(op) != id {
      InterleavingIrrelevant(init, id, job, msg);
      assert BrokersOf(init, id) + [] == BrokersOf(init, id);
    } else if op.Launch? {
      AbsentRuns(init, id);
      assert [] + Dispatch(job.n, job.b, job.mem, msg).run.log == Dispatch(job.n, job.b, job.mem, msg).run.log;
    } else {
      InterleavingIrrelevant(init, id, job, msg);
      AlwaysKept(init, id);
      PlaySnoc(job.n, job.mem, Dispatch(job.n, job.b, job.mem, msg), BrokersOf(init, id), op.job.b, []);
    }
  }

  /** So a run paused, stored and resumed among any others ends as it would have uninterrupted. */
  lemma InterleavedTransparent(ops: seq<Op>, id: string, job: Job, msg: Msg)
    requires Governed(ops) && Orderly(ops, id, job, msg) && job.b.On?
    ensures var (rep, log) := Runs(ops, id);
            rep.Some? && (Transparency.Ended(rep.value.run) ==> SameEnd(rep.value, log, Dispatch(job.n, ALL_ALLOW, job.mem, msg)))
  {
    InterleavingIrrelevant(ops, id, job, msg);
    PauseResumeTransparent(job.n, job.b, BrokersOf(ops, id), job.mem, msg);
  }
}

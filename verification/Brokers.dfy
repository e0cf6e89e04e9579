/** The stateful collaborators of a run: tool broker, memory broker, snapshot store and approval broker
    (runtime/core.py ToolBroker and MemoryBroker, runtime/approval_gate.py). */
module Brokers {
  import opened Wrappers
  import opened Json
  import opened Approval
  import opened Memory
  import opened Agent
  import opened Readiness
  import opened Rounding
  import PausedRuns

  // ---- projections of a trace -------------------------------------------------------------

  datatype Call = Call(tool: string, allowed: bool)

  /** The events among the first k entries of a trace. */
  function EventsTo(log: seq<Entry>, k: nat): seq<Event>
    requires k <= |log|
  {
    if k == 0 then [] else EventsTo(log, k - 1) + (if log[k - 1].Ev? then [log[k - 1].event] else [])
  }

  /** The tool calls among them. */
  function CallsTo(log: seq<Entry>, k: nat): seq<Call>
    requires k <= |log|
  {
    if k == 0 then []
    else
      var e := log[k - 1];
      CallsTo(log, k - 1) + (if e.Invoked? then [Call(e.task.tool.GetOr(""), e.allowed)] else [])
  }

  function EventsOf(log: seq<Entry>): seq<Event> { EventsTo(log, |log|) }

  function CallsOf(log: seq<Entry>): seq<Call> { CallsTo(log, |log|) }

  lemma {:induction false} Prefix(log: seq<Entry>, e: Entry, k: nat)
    requires k <= |log|
    ensures EventsTo(log + [e], k) == EventsTo(log, k) && CallsTo(log + [e], k) == CallsTo(log, k)
    ensures AuditsTo(log + [e], k) == AuditsTo(log, k)
  {
    if k == 0 {
    } else {
      Prefix(log, e, k - 1);
    }
  }

  lemma Snoc(log: seq<Entry>, e: Entry)
    ensures EventsOf(log + [e]) == EventsOf(log) + (if e.Ev? then [e.event] else [])
    ensures CallsOf(log + [e]) == CallsOf(log) + (if e.Invoked? then [Call(e.task.tool.GetOr(""), e.allowed)] else [])
    ensures Audits(log + [e]) == Audits(log) + (if e.Consulted? then [Audit(e.action, false, e.would)] else [])
  {
    Prefix(log, e, |log|);
  }

  // ---- tools ------------------------------------------------------------------------------

  class ToolBroker {
    const n: Neop
    var calls: seq<Call>

    constructor (n: Neop)
      ensures this.n == n && calls == []
    {
      this.n := n;
      calls := [];
    }

    /** Every attempt is recorded, an unlisted tool never runs. */
    method Invoke(attempt: nat, tool: string, inputs: Inputs) returns (reply: Reply<Value>)
      modifies this
      ensures calls == old(calls) + [Call(tool, tool in n.allowlist)]
      ensures reply == Agent.Invoke(n, attempt, tool, inputs)
    {
      var allowed := tool in n.allowlist;
      calls := calls + [Call(tool, allowed)];
      if !allowed { return Returns(Obj(map["_blocked" := Bool(true), "reason" := Str(tool)])); }
      reply := n.tool(attempt, tool, inputs);
    }
  }

  // ---- memory -----------------------------------------------------------------------------

  class MemoryBroker {
    const stm: nat
    const chunks: seq<Chunk>
    var twin: Option<Fields>
    var writes: seq<Stamped>
    var consolidations: seq<Consolidation>
    var twinWrites: seq<Fields>

    constructor (m: Mem)
      ensures Abs() == m
    {
      stm, chunks := m.stm, m.chunks;
      twin, writes, consolidations, twinWrites := m.twin, m.writes, m.consolidations, m.twinWrites;
    }

    ghost function Abs(): Mem
      reads this
    {
      Mem(stm, chunks, twin, writes, consolidations, twinWrites)
    }

    /** The first five chunks this tenant may see. */
    method Retrieve(tenant: string) returns (visible: seq<Chunk>)
      ensures visible == Memory.Retrieve(Abs(), tenant)
    {
      visible := [];
      var i := 0;
      while i < |chunks|
        invariant 0 <= i <= |chunks|
        invariant visible + VisibleTo(tenant, chunks[i..]) == VisibleTo(tenant, chunks)
      {
        assert chunks[i..][1..] == chunks[i + 1..];
        if chunks[i].tenant.GetOr(tenant) == tenant { visible := visible + [chunks[i]]; }
        i := i + 1;
      }
      assert chunks[i..] == [];
      if |visible| > TOP_K { visible := visible[..TOP_K]; }
    }

    method Write(tenant: string, seat: string, record: Record) returns (ack: WriteAck)
      modifies this`writes
      ensures (Abs(), ack) == Memory.Write(old(Abs()), tenant, seat, record)
    {
      var key := DedupKey(tenant, seat, record);
      var i := 0;
      while i < |writes|
        invariant 0 <= i <= |writes|
        invariant Stored(writes, key) == Stored(writes[i..], key)
      {
        if writes[i].key == key { return WriteAck(false, writes[i].closet); }
        assert writes[i..][1..] == writes[i + 1..];
        i := i + 1;
      }
      ack := WriteAck(true, |writes| + 1);
      writes := writes + [Stamped(key, |writes| + 1)];
    }

    method Consolidate(tenant: string, seat: string)
      modifies this`consolidations
      ensures Abs() == Memory.Consolidate(old(Abs()), tenant, seat)
    {
      consolidations := consolidations + [Consolidation(tenant, seat, stm)];
    }

    method GetTwin(tenant: string, owner: string) returns (t: Option<Fields>)
      ensures t == Memory.GetTwin(Abs(), tenant, owner)
      ensures t.Some? ==> t == twin && Get(t.value, "twin_id") == Str(TwinId(tenant, owner))
    {
      t := if twin.Some? && twin.value != map[] && Get(twin.value, "twin_id") == Str(TwinId(tenant, owner))
           then twin else None;
    }

    /** Versioned on change; a stale base or an invalid record is refused and changes nothing. */
    method PutTwin(tenant: string, owner: string, draft: Fields) returns (ack: Ack)
      modifies this`twin, this`twinWrites
      ensures (Abs(), ack) == Memory.PutTwin(old(Abs()), tenant, owner, draft)
    {
      var t := draft["twin_id" := Str(TwinId(tenant, owner))];
      if "maturity" !in t { t := t["maturity" := Str("seed")]; }
      var prev := GetTwin(tenant, owner);
      var base := Get(t, "base_version");
      t := t - {"base_version"};
      if prev.Some? && base != Null && !PyEq(base, Get(prev.value, "version")) { return StaleBase; }
      var version := if prev.Some? && AsInt(Get(prev.value, "version")).Some?
                     then AsInt(Get(prev.value, "version")).value + 1 else 0;
      t := t["version" := Num(version)];
      if prev.Some? && Truthy(Get(prev.value, "signals")) && !Truthy(Get(t, "signals")) {
        t := t["signals" := Get(prev.value, "signals")];
      }
      assert t == Prepare(prev, tenant, owner, draft);
      if !ValidTwin(t) { return Invalid; }
      twin := Some(t);
      twinWrites := twinWrites + [t];
      ack := Accepted(version, Get(t, "maturity"));
    }
  }

  // ---- paused runs and approval -----------------------------------------------------------

  class SnapshotStore {
    var d: PausedRuns.Store

    constructor ()
      ensures d == map[]
    {
      d := map[];
    }

    method Save(id: string, snap: Snapshot)
      modifies this
      ensures d == PausedRuns.Save(old(d), id, snap)
    {
      d := d[id := PausedRuns.Stored(snap, PausedRuns.Pending)];
    }

    /** None where the source raises KeyError. */
    method Load(id: string) returns (snap: Option<Snapshot>)
      ensures snap == PausedRuns.Load(d, id)
    {
      snap := if id in d then Some(d[id].snap) else None;
    }

    method Resolve(id: string, status: PausedRuns.Status)
      modifies this
      ensures d == if id in old(d) then old(d)[id := old(d)[id].(status := status)] else old(d)
    {
      if id in d { d := d[id := d[id].(status := status)]; }
    }

    /** The runs in the Decision Queue. */
    method Pending() returns (ids: set<string>)
      ensures forall id :: id in ids <==> PausedRuns.IsPending(d, id)
    {
      ids := set id | id in d && d[id].status == PausedRuns.Pending;
    }
  }

  class ApprovalBroker {
    var policy: Policy
    var grants: map<string, string>
    var grantor: Option<string>
    const mode: Governance
    const store: SnapshotStore
    var observed: seq<Audit>

    constructor (policy: Policy, grants: map<string, string>, grantor: Option<string>, store: SnapshotStore, mode: Governance)
      ensures this.store == store && observed == [] && AsBroker() == On(policy, grants, grantor, mode)
    {
      this.policy, this.grants, this.grantor := policy, grants, grantor;
      this.store, this.mode, observed := store, mode, [];
    }

    function AsBroker(): Broker
      reads this`policy, this`grants, this`grantor
    {
      On(policy, grants, grantor, mode)
    }

    /** The effective decision on a well-formed action; only a report-only window records what it would have been. */
    method Decide(action: Action) returns (decision: Decision, reason: Reason)
      modifies this`observed
      ensures (decision, reason) == Consult(AsBroker(), action)
      ensures observed == old(observed)
                          + (if mode == ReportOnly then [Audit(action, false, Approval.Decide(action, policy).0)] else [])
    {
      var (would, basis) := Approval.Decide(action, policy);
      if mode == ReportOnly {
        var (effective, audit) := Evaluate(action, policy, ReportOnly);
        observed := observed + [audit];
        return effective, ReportedOnly(would, basis);
      }
      return would, basis;
    }

    method Resolve(action: Action) returns (r: Result<(Decision, Reason), ()>)
      ensures r == Approval.Resolve(AsBroker(), action)
    {
      var granted := if action.name in grants then Some(grants[action.name]) else None;
      if granted == Some("deny") { return Success((Deny, HumanDenied)); }
      if granted != Some("allow") { return Success((Deny, NoGrantRecorded)); }
      r := ResolveGrant(action, policy, grantor);
    }

    method Readiness(ties: Ties) returns (r: Summary)
      ensures r == Summarize(ties, observed)
    {
      r := FlipReadiness(ties, observed);
    }

    method MarkResolved(id: string, terminal: State)
      modifies store
      ensures store.d == PausedRuns.MarkResolved(old(store.d), id, terminal)
    {
      store.Resolve(id, if terminal == Rejected then PausedRuns.DeniedRun else PausedRuns.ResolvedRun);
    }
  }
}

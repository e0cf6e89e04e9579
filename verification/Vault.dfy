/** Vault promotion with persistent markers (runtime/vault.py, runtime/vault_harness.py).
    Times are whole days; redaction is a function handed in. */
module Vault {
  import opened Wrappers

  type Key = Option<string>

  datatype Answer = NoAnswer | Promote | Edit | Yes | Reject | Other

  datatype Record = Record(
    externalId: string, adapter: string, authorType: string, authorId: string, dedupKey: Key,
    category: string, confidence: real, content: string, approval: Answer,
    redacted: set<string>, armed: bool, promotedAt: Option<int>, ttl: Option<int>)

  datatype Reason = AlreadyPromoted | LowConfidence | ProvenanceMissing | RejectedInQueue | AwaitingApproval | AllGatesPassed

  datatype Outcome = Promoted | Held | Rejected

  datatype Decision = Decision(outcome: Outcome, reason: Reason, key: Key, record: Record)

  const TTL_DAYS := 30

  datatype Gates = Gates(approvals: map<Key, Answer>, floors: map<string, real>, now: int, redact: string -> (string, set<string>))

  function KeyOf(r: Record): Key {
    if r.externalId != "" then Some(r.externalId) else r.dedupKey
  }

  function Floor(g: Gates, category: string): real {
    if category in g.floors then g.floors[category]
    else if "_default" in g.floors then g.floors["_default"] else 0.5
  }

  /** The five gates, in order. */
  function Decide(g: Gates, marked: set<Key>, r: Record): Decision {
    var key := KeyOf(r);
    var (content, kinds) := g.redact(r.content);
    var clean := r.(content := content, redacted := kinds);
    var answer := if key in g.approvals then g.approvals[key] else r.approval;
    if key in marked then Decision(Rejected, AlreadyPromoted, key, r)
    else if r.confidence < Floor(g, r.category) then Decision(Held, LowConfidence, key, r)
    else if "" in [r.externalId, r.adapter, r.authorType, r.authorId] then Decision(Rejected, ProvenanceMissing, key, clean)
    else if answer == Reject then Decision(Rejected, RejectedInQueue, key, clean)
    else if answer !in {Promote, Edit, Yes} then Decision(Held, AwaitingApproval, key, clean)
    else Decision(Promoted, AllGatesPassed, key, clean.(armed := true, promotedAt := Some(g.now), ttl := Some(TTL_DAYS)))
  }

  /** One pass: each promotion marks its key for the records after it. */
  function Pass(g: Gates, marked: set<Key>, records: seq<Record>): (res: (seq<Decision>, set<Key>))
    ensures |res.0| == |records|
  {
    if records == [] then ([], marked)
    else
      var (ds, m) := Pass(g, marked, records[..|records| - 1]);
      var d := Decide(g, m, records[|records| - 1]);
      (ds + [d], if d.outcome == Promoted then m + {d.key} else m)
  }

  /** Retracts a promoted record within its window; None refuses. */
  function Rollback(r: Record, now: int): Option<Key> {
    if !r.armed || r.promotedAt.None? then None
    else
      var age := now - r.promotedAt.value;
      if 0 <= age <= r.ttl.GetOr(TTL_DAYS) then Some(KeyOf(r)) else None
  }

  // ---- the drivers ------------------------------------------------------------------------

  class PromotedStore {
    var s: set<Key>

    constructor ()
      ensures s == {}
    {
      s := {};
    }

    method Add(key: Key)
      modifies this
      ensures s == old(s) + {key}
    {
      s := s + {key};
    }

    method Discard(key: Key)
      modifies this
      ensures s == old(s) - {key}
    {
      s := s - {key};
    }
  }

  /** promote_all: one batch that threads its own markers. */
  method PromoteAll(g: Gates, records: seq<Record>) returns (out: seq<Decision>)
    ensures out == Pass(g, {}, records).0
  {
    var marked: set<Key> := {};
    out := [];
    for i := 0 to |records|
      invariant (out, marked) == Pass(g, {}, records[..i])
    {
      assert records[..i + 1][..i] == records[..i];
      var d := Decide(g, marked, records[i]);
      if d.outcome == Promoted { marked := marked + {d.key}; }
      out := out + [d];
    }
    assert records[..|records|] == records;
  }

  /** run_vault_pass: the same over a store that outlives the pass; `landed` is what the sink receives. */
  method RunVaultPass(g: Gates, store: PromotedStore, records: seq<Record>) returns (decisions: seq<Decision>, landed: seq<Decision>)
    modifies store
    ensures (decisions, store.s) == Pass(g, old(store.s), records)
    ensures landed == Landed(decisions)
  {
    decisions, landed := [], [];
    for i := 0 to |records|
      invariant (decisions, store.s) == Pass(g, old(store.s), records[..i])
      invariant landed == Landed(decisions)
    {
      assert records[..i + 1][..i] == records[..i];
      var d := Decide(g, store.s, records[i]);
      assert (decisions + [d])[..|decisions|] == decisions;
      decisions := decisions + [d];
      if d.outcome == Promoted {
        store.Add(d.key);
        landed := landed + [d];
      }
    }
    assert records[..|records|] == records;
  }

  function Landed(ds: seq<Decision>): seq<Decision> {
    if ds == [] then []
    else Landed(ds[..|ds| - 1]) + (if ds[|ds| - 1].outcome == Promoted then [ds[|ds| - 1]] else [])
  }

  class VaultPromoter {
    const store: PromotedStore

    constructor (store: PromotedStore)
      ensures this.store == store
    {
      this.store := store;
    }

    method Tick(g: Gates, records: seq<Record>) returns (decisions: seq<Decision>, landed: seq<Decision>)
      modifies store
      ensures (decisions, store.s) == Pass(g, old(store.s), records) && landed == Landed(decisions)
    {
      decisions, landed := RunVaultPass(g, store, records);
    }

    /** On success the marker is cleared, so that a corrected record can be promoted again. */
    method RollbackRecord(r: Record, now: int) returns (key: Option<Key>)
      modifies store
      ensures key == Rollback(r, now)
      ensures store.s == if key.Some? then old(store.s) - {key.value} else old(store.s)
    {
      key := Rollback(r, now);
      if key.Some? { store.Discard(key.value); }
    }
  }

  datatype Summary = Summary(candidates: nat, promoted: nat, held: nat, rejected: nat, redacted: nat)

  /** The counts partition the candidates. */
  method Summarize(ds: seq<Decision>) returns (s: Summary)
    ensures s.candidates == |ds| == s.promoted + s.held + s.rejected
    ensures s.promoted == |Landed(ds)| && s.redacted <= s.promoted
  {
    s := Summary(0, 0, 0, 0, 0);
    for i := 0 to |ds|
      invariant s.candidates == i == s.promoted + s.held + s.rejected
      invariant s.promoted == |Landed(ds[..i])| && s.redacted <= s.promoted
    {
      assert ds[..i + 1][..i] == ds[..i];
      s := s.(candidates := s.candidates + 1);
      match ds[i].outcome
      case Promoted =>
        s := s.(promoted := s.promoted + 1);
        if ds[i].record.redacted != {} { s := s.(redacted := s.redacted + 1); }
      case Held => s := s.(held := s.held + 1);
      case Rejected => s := s.(rejected := s.rejected + 1);
    }
    assert ds[..|ds|] == ds;
  }

  // ---- any run of ticks and rollbacks -----------------------------------------------------

  datatype Op = Night(g: Gates, records: seq<Record>) | Retract(record: Record, now: int)

  datatype Mark = Marked(key: Key) | Cleared(key: Key)

  datatype Books = Books(marks: set<Key>, history: seq<Mark>)

  function MarksOf(ds: seq<Decision>): seq<Mark> {
    if ds == [] then []
    else
      var d := ds[|ds| - 1];
      MarksOf(ds[..|ds| - 1]) + (if d.outcome == Promoted then [Marked(d.key)] else [])
  }

  function Apply(b: Books, op: Op): Books {
    match op
    case Night(g, records) =>
      var (ds, marks) := Pass(g, b.marks, records);
      Books(marks, b.history + MarksOf(ds))
    case Retract(r, now) =>
      var key := Rollback(r, now);
      if key.None? then b else Books(b.marks - {key.value}, b.history + [Cleared(key.value)])
  }

  function ApplyAll(ops: seq<Op>): Books {
    if ops == [] then Books({}, []) else Apply(ApplyAll(ops[..|ops| - 1]), ops[|ops| - 1])
  }

  /** Whether the latest entry about a key marks it. */
  function Standing(history: seq<Mark>, key: Key): bool {
    history != [] &&
    var m := history[|history| - 1];
    if m.key == key then m.Marked? else Standing(history[..|history| - 1], key)
  }

  /** The markers are the keys promoted and not since rolled back, and no key is promoted while it is marked. */
  ghost predicate Balanced(b: Books) {
    && (forall key :: key in b.marks <==> Standing(b.history, key))
    && (forall i :: 0 <= i < |b.history| && b.history[i].Marked? ==> !Standing(b.history[..i], b.history[i].key))
  }

  lemma BalancedSnoc(b: Books, m: Mark)
    requires Balanced(b) && (m.Marked? ==> m.key !in b.marks)
    ensures Balanced(Books(if m.Marked? then b.marks + {m.key} else b.marks - {m.key}, b.history + [m]))
  {
    var h := b.history + [m];
    assert h[..|b.history|] == b.history;
    forall i | 0 <= i < |h| && h[i].Marked? ensures !Standing(h[..i], h[i].key) {
      assert h[..i] == b.history[..i];
    }
  }

  lemma MarksSnoc(h: seq<Mark>, ds: seq<Decision>, d: Decision)
    ensures h + MarksOf(ds + [d]) == if d.outcome == Promoted then h + MarksOf(ds) + [Marked(d.key)] else h + MarksOf(ds)
  {
  }

  lemma {:induction false} PassBalanced(g: Gates, b: Books, records: seq<Record>)
    requires Balanced(b)
    ensures Balanced(Books(Pass(g, b.marks, records).1, b.history + MarksOf(Pass(g, b.marks, records).0)))
    decreases |records|
  {
    if records == [] {
      assert b.history + [] == b.history;
    } else {
      var n := |records| - 1;
      PassBalanced(g, b, records[..n]);
      var (ds, marks) := Pass(g, b.marks, records[..n]);
      var d := Decide(g, marks, records[n]);
      assert Pass(g, b.marks, records) == (ds + [d], if d.outcome == Promoted then marks + {d.key} else marks);
      MarksSnoc(b.history, ds, d);
      if d.outcome == Promoted { BalancedSnoc(Books(marks, b.history + MarksOf(ds)), Marked(d.key)); }
    }
  }

  /** Over any run of ticks and rollbacks the markers are exactly the standing promotions. */
  lemma {:induction false} MarkersAreStanding(ops: seq<Op>)
    ensures Balanced(ApplyAll(ops))
  {
    if ops == [] {
    } else {
      var b, op := ApplyAll(ops[..|ops| - 1]), ops[|ops| - 1];
      MarkersAreStanding(ops[..|ops| - 1]);
      match op
      case Night(g, records) => PassBalanced(g, b, records);
      case Retract(r, now) =>
        if Rollback(r, now).Some? { BalancedSnoc(b, Cleared(Rollback(r, now).value)); }
    }
  }

  /** Two promotions of one key are separated by a successful rollback of it. */
  lemma RollbackBetween(ops: seq<Op>, i: nat, j: nat)
    requires var h := ApplyAll(ops).history; i < j < |h| && h[i].Marked? && h[j] == h[i]
    ensures var h := ApplyAll(ops).history; exists m :: i < m < j && h[m] == Cleared(h[i].key)
  {
    MarkersAreStanding(ops);
    var h := ApplyAll(ops).history;
    ClearedSince(h, i, j);
  }

  lemma {:induction false} ClearedSince(h: seq<Mark>, i: nat, j: nat)
    requires i < j <= |h| && h[i].Marked? && !Standing(h[..j], h[i].key)
    ensures exists m :: i < m < j && h[m] == Cleared(h[i].key)
    decreases j
  {
    var last := h[j - 1];
    assert h[..j][..j - 1] == h[..j - 1] && h[..j][j - 1] == last;
    if last.key == h[i].key {
      assert last == Cleared(h[i].key);
    } else {
      ClearedSince(h, i, j - 1);
    }
  }

  // ---- what lands is earned ---------------------------------------------------------------

  /** The queue's answer to a record, or else the record's own. */
  function AnswerTo(g: Gates, r: Record): Answer {
    if KeyOf(r) in g.approvals then g.approvals[KeyOf(r)] else r.approval
  }

  /** The floor is the category's, else the default one, else a half. */
  predicate Confident(g: Gates, r: Record) {
    if r.category in g.floors then r.confidence >= g.floors[r.category]
    else if "_default" in g.floors then r.confidence >= g.floors["_default"]
    else r.confidence >= 0.5
  }

  predicate Sourced(r: Record) {
    r.externalId != "" && r.adapter != "" && r.authorType != "" && r.authorId != ""
  }

  /** Confident enough, of complete provenance, and approved. */
  predicate Earned(g: Gates, r: Record) {
    Confident(g, r) && Sourced(r) && AnswerTo(g, r) in {Promote, Edit, Yes}
  }

  /** An earlier record of the batch has earned its place under the same key. */
  predicate Preempted(g: Gates, records: seq<Record>, i: nat)
    requires i < |records|
  {
    exists j :: 0 <= j < i && KeyOf(records[j]) == KeyOf(records[i]) && Earned(g, records[j])
  }

  /** What the i-th decision of a pass must be. */
  ghost predicate Just(g: Gates, marked: set<Key>, records: seq<Record>, i: nat, d: Decision)
    requires i < |records|
  {
    var r := records[i];
    && d.key == (if r.externalId == "" then r.dedupKey else Some(r.externalId)) == KeyOf(r)
    && (d.outcome == Promoted <==> Earned(g, r) && KeyOf(r) !in marked && !Preempted(g, records, i))
    && (d.outcome == Held <==>
          && KeyOf(r) !in marked && !Preempted(g, records, i)
          && (!Confident(g, r) || (Sourced(r) && AnswerTo(g, r) !in {Promote, Edit, Yes, Reject})))
    && (d.outcome == Promoted ==>
          d.record == r.(content := g.redact(r.content).0, redacted := g.redact(r.content).1,
                         armed := true, promotedAt := Some(g.now), ttl := Some(TTL_DAYS)))
    && (d.outcome != Promoted ==>
          d.record == r || d.record == r.(content := g.redact(r.content).0, redacted := g.redact(r.content).1))
  }

  lemma DecideJust(g: Gates, marked: set<Key>, m: set<Key>, records: seq<Record>, i: nat)
    requires i < |records| && (KeyOf(records[i]) in m <==> KeyOf(records[i]) in marked || Preempted(g, records, i))
    ensures Just(g, marked, records, i, Decide(g, m, records[i]))
    ensures Decide(g, m, records[i]).outcome == Promoted <==> Earned(g, records[i]) && KeyOf(records[i]) !in m
  {
    hide Preempted;
  }

  /** A pass promotes exactly the records that earned it, unless their key is marked or an earlier record of the batch
      took it; each with its content redacted and its rollback armed for thirty days. It holds exactly those that lack
      confidence, or only an answer, and marks exactly the keys earned. */
  lemma {:induction false} PromotedIsEarned(g: Gates, marked: set<Key>, records: seq<Record>)
    ensures var (ds, after) := Pass(g, marked, records);
            && |ds| == |records|
            && (forall i :: 0 <= i < |records| ==> Just(g, marked, records, i, ds[i]))
            && (forall key :: key in after <==>
                  key in marked || exists i :: 0 <= i < |records| && KeyOf(records[i]) == key && Earned(g, records[i]))
  {
    hide Earned, Decide, KeyOf;
    if records == [] {
    } else {
      var n := |records| - 1;
      var init := records[..n];
      PromotedIsEarned(g, marked, init);
      var (ds, m) := Pass(g, marked, init);
      assert forall j :: 0 <= j < n ==> init[j] == records[j];
      forall i | 0 <= i < n ensures Just(g, marked, records, i, ds[i]) {
        assert Just(g, marked, init, i, ds[i]);
        assert Preempted(g, init, i) == Preempted(g, records, i);
      }
      DecideJust(g, marked, m, records, n);
    }
  }

  /** Whatever a pass promotes can be rolled back from that day on for thirty days, and on no other day; rolled back, it
      is promoted again by the next pass that finds it earned. */
  lemma PromotedCanBeRolledBack(g: Gates, marked: set<Key>, records: seq<Record>, i: nat, day: int)
    requires i < |records| && Pass(g, marked, records).0[i].outcome == Promoted
    ensures var d := Pass(g, marked, records).0[i];
            && Rollback(d.record, day) == (if g.now <= day <= g.now + 30 then Some(d.key) else None)
            && (Earned(g, records[i]) && Pass(g, marked - {d.key}, [records[i]]).0[0].outcome == Promoted)
  {
    PromotedIsEarned(g, marked, records);
    var d := Pass(g, marked, records).0[i];
    assert Just(g, marked, records, i, d);
    PromotedIsEarned(g, marked - {d.key}, [records[i]]);
    assert Just(g, marked - {d.key}, [records[i]], 0, Pass(g, marked - {d.key}, [records[i]]).0[0]);
  }
}

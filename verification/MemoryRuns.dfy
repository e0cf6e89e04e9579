/** What the memory broker's store keeps over whole runs of calls (runtime/core.py MemoryBroker). */
module MemoryRuns {
  import opened Wrappers
  import opened Json
  import opened Memory

  // ---- twins of one owner -----------------------------------------------------------------

  /** The store after a run of put_twin calls for one owner, and the answers. */
  function Puts(m: Mem, tenant: string, owner: string, drafts: seq<Fields>): (res: (Mem, seq<Ack>))
    ensures |res.1| == |drafts|
  {
    if drafts == [] then (m, [])
    else
      var n := |drafts| - 1;
      var (m1, acks) := Puts(m, tenant, owner, drafts[..n]);
      var (m2, ack) := PutTwin(m1, tenant, owner, drafts[n]);
      (m2, acks + [ack])
  }

  /** The version the owner's stored twin has, if it has one. */
  function Current(m: Mem, tenant: string, owner: string): Option<int> {
    var t := GetTwin(m, tenant, owner);
    if t.None? then None else AsInt(Get(t.value, "version"))
  }

  lemma PutCurrent(m: Mem, tenant: string, owner: string, draft: Fields)
    ensures var (m1, ack) := PutTwin(m, tenant, owner, draft);
            && (ack.Accepted? ==> Current(m1, tenant, owner) == Some(ack.version))
            && (ack.Accepted? && Current(m, tenant, owner).Some? ==> ack.version == Current(m, tenant, owner).value + 1)
            && (ack.Accepted? && Current(m, tenant, owner).None? ==> ack.version == 0)
            && (!ack.Accepted? ==> m1 == m)
  {
  }

  /** The answers to the first n drafts of a longer run. */
  lemma {:induction false} PutsPrefix(m: Mem, tenant: string, owner: string, drafts: seq<Fields>, n: nat)
    requires n <= |drafts|
    ensures Puts(m, tenant, owner, drafts[..n]).1 == Puts(m, tenant, owner, drafts).1[..n]
    decreases |drafts|
  {
    if n == |drafts| {
      assert drafts[..n] == drafts;
    } else {
      var k := |drafts| - 1;
      assert drafts[..k][..n] == drafts[..n];
      PutsPrefix(m, tenant, owner, drafts[..k], n);
    }
  }

  function Accepts(acks: seq<Ack>): nat {
    if acks == [] then 0 else Accepts(acks[..|acks| - 1]) + (if acks[|acks| - 1].Accepted? then 1 else 0)
  }

  lemma AcceptsSnoc(acks: seq<Ack>, ack: Ack, i: nat)
    requires i <= |acks|
    ensures Accepts((acks + [ack])[i..]) == Accepts(acks[i..]) + (if ack.Accepted? then 1 else 0)
  {
    var s := (acks + [ack])[i..];
    assert s[..|s| - 1] == acks[i..];
  }

  /** One more call: what it does to the version, whatever it stores. */
  lemma PutStep(m: Mem, tenant: string, owner: string, drafts: seq<Fields>) returns (before: Mem, acks: seq<Ack>, ack: Ack)
    requires drafts != []
    ensures (before, acks) == Puts(m, tenant, owner, drafts[..|drafts| - 1])
    ensures var (after, all) := Puts(m, tenant, owner, drafts);
            && all == acks + [ack]
            && (ack.Accepted? ==> Current(after, tenant, owner) == Some(ack.version))
            && (ack.Accepted? && Current(before, tenant, owner).Some? ==> ack.version == Current(before, tenant, owner).value + 1)
            && (!ack.Accepted? ==> after == before)
  {
    var n := |drafts| - 1;
    before, acks := Puts(m, tenant, owner, drafts[..n]).0, Puts(m, tenant, owner, drafts[..n]).1;
    ack := PutTwin(before, tenant, owner, drafts[n]).1;
    PutCurrent(before, tenant, owner, drafts[n]);
  }

  /** Counting from any accepted call, each later accepted version is one more per acceptance since. */
  lemma {:induction false} ConsecutiveVersions(m: Mem, tenant: string, owner: string, drafts: seq<Fields>, i: nat)
    requires i < |drafts| && Puts(m, tenant, owner, drafts).1[i].Accepted?
    ensures var (m1, acks) := Puts(m, tenant, owner, drafts);
            Current(m1, tenant, owner) == Some(acks[i].version + Accepts(acks[i + 1..]))
    decreases |drafts|
  {
    hide Puts, PutTwin, Current;
    var before, acks, ack := PutStep(m, tenant, owner, drafts);
    AcceptsSnoc(acks, ack, if i < |acks| then i + 1 else |acks|);
    if i < |acks| {
      ConsecutiveVersions(m, tenant, owner, drafts[..|drafts| - 1], i);
    }
  }

  lemma {:induction false} NoAccepts(acks: seq<Ack>, k: nat)
    requires Accepts(acks) == 0 && k < |acks|
    ensures !acks[k].Accepted?
  {
    if k == |acks| - 1 {
    } else {
      NoAccepts(acks[..|acks| - 1], k);
    }
  }

  /** Accepted calls of one owner are numbered consecutively. */
  lemma NumberedConsecutively(m: Mem, tenant: string, owner: string, drafts: seq<Fields>, i: nat, j: nat)
    requires i < j < |drafts|
    requires var acks := Puts(m, tenant, owner, drafts).1; acks[i].Accepted? && acks[j].Accepted?
    ensures var acks := Puts(m, tenant, owner, drafts).1;
            acks[j].version == acks[i].version + Accepts(acks[i + 1..j]) + 1
  {
    hide Prepare, ValidTwin;
    PutsPrefix(m, tenant, owner, drafts, j);
    PutsPrefix(m, tenant, owner, drafts, j + 1);
    ConsecutiveVersions(m, tenant, owner, drafts[..j], i);
    var (m1, acks) := Puts(m, tenant, owner, drafts[..j]);
    assert drafts[..j + 1][..j] == drafts[..j];
    PutCurrent(m1, tenant, owner, drafts[j]);
    assert acks[i + 1..] == Puts(m, tenant, owner, drafts).1[i + 1..j];
  }

  /** No lost update: a write accepted on the version some earlier write produced means none was accepted between. */
  lemma NoLostUpdate(m: Mem, tenant: string, owner: string, drafts: seq<Fields>, i: nat, j: nat, k: nat)
    requires i < k < j < |drafts|
    requires var acks := Puts(m, tenant, owner, drafts).1;
             acks[i].Accepted? && acks[j].Accepted? && AsInt(Get(drafts[j], "base_version")) == Some(acks[i].version)
    ensures !Puts(m, tenant, owner, drafts).1[k].Accepted?
  {
    hide Prepare, ValidTwin;
    PutsPrefix(m, tenant, owner, drafts, j);
    PutsPrefix(m, tenant, owner, drafts, j + 1);
    ConsecutiveVersions(m, tenant, owner, drafts[..j], i);
    var (m1, acks) := Puts(m, tenant, owner, drafts[..j]);
    assert drafts[..j + 1][..j] == drafts[..j];
    assert Accepts(acks[i + 1..]) == 0;
    NoAccepts(acks[i + 1..], k - i - 1);
  }

  /** Over a run from a stored version, the current version counts the acceptances. */
  lemma {:induction false} CurrentCounts(m: Mem, tenant: string, owner: string, drafts: seq<Fields>)
    requires Current(m, tenant, owner).Some?
    ensures var (m1, acks) := Puts(m, tenant, owner, drafts);
            Current(m1, tenant, owner) == Some(Current(m, tenant, owner).value + Accepts(acks))
  {
    if drafts == [] {
    } else {
      var before, acks, ack := PutStep(m, tenant, owner, drafts);
      CurrentCounts(m, tenant, owner, drafts[..|drafts| - 1]);
      assert (acks + [ack])[..|acks|] == acks;
    }
  }

  /** The same for a base read from the store before the run: accepted on it means nothing was accepted since. */
  lemma NoLostUpdateFromStored(m: Mem, tenant: string, owner: string, drafts: seq<Fields>, j: nat, k: nat)
    requires k < j < |drafts| && Current(m, tenant, owner).Some?
    requires AsInt(Get(drafts[j], "base_version")) == Current(m, tenant, owner)
    requires Puts(m, tenant, owner, drafts).1[j].Accepted?
    ensures !Puts(m, tenant, owner, drafts).1[k].Accepted?
  {
    hide Prepare, ValidTwin;
    PutsPrefix(m, tenant, owner, drafts, j);
    PutsPrefix(m, tenant, owner, drafts, j + 1);
    CurrentCounts(m, tenant, owner, drafts[..j]);
    var (m1, acks) := Puts(m, tenant, owner, drafts[..j]);
    assert drafts[..j + 1][..j] == drafts[..j];
    assert Accepts(acks) == 0;
    NoAccepts(acks, k);
  }

  /** An accepted twin is what its owner reads back, and nobody whose id is another reads it. */
  lemma PutThenGet(m: Mem, tenant: string, owner: string, draft: Fields, tenant': string, owner': string)
    ensures var (m1, ack) := PutTwin(m, tenant, owner, draft);
            && (ack.Accepted? ==>
                  if TwinId(tenant', owner') == TwinId(tenant, owner)
                  then GetTwin(m1, tenant', owner') == m1.twin && Get(m1.twin.value, "version") == Num(ack.version)
                  else GetTwin(m1, tenant', owner').None?)
            && (!ack.Accepted? ==> GetTwin(m1, tenant', owner') == GetTwin(m, tenant', owner'))
  {
    var (m1, ack) := PutTwin(m, tenant, owner, draft);
    if ack.Accepted? {
      var t := m1.twin.value;
      assert t["twin_id"] == Str(TwinId(tenant, owner)) && t["version"] == Num(ack.version);
    }
  }

  /** Once the owner's twin has signals, no later call loses them. */
  lemma {:induction false} SignalsStay(m: Mem, tenant: string, owner: string, drafts: seq<Fields>)
    requires GetTwin(m, tenant, owner).Some? && Truthy(Get(GetTwin(m, tenant, owner).value, "signals"))
    ensures var m1 := Puts(m, tenant, owner, drafts).0;
            GetTwin(m1, tenant, owner).Some? && Truthy(Get(GetTwin(m1, tenant, owner).value, "signals"))
  {
    if drafts == [] {
    } else {
      var n := |drafts| - 1;
      SignalsStay(m, tenant, owner, drafts[..n]);
      SignalsKept(Puts(m, tenant, owner, drafts[..n]).0, tenant, owner, drafts[n]);
    }
  }

  lemma SignalsKept(m: Mem, tenant: string, owner: string, draft: Fields)
    requires GetTwin(m, tenant, owner).Some? && Truthy(Get(GetTwin(m, tenant, owner).value, "signals"))
    ensures var m1 := PutTwin(m, tenant, owner, draft).0;
            GetTwin(m1, tenant, owner).Some? && Truthy(Get(GetTwin(m1, tenant, owner).value, "signals"))
  {
  }

  /** The value is present and not the empty string. */
  predicate Filled(draft: Fields, k: string) {
    k in draft && draft[k] != Null && draft[k] != Str("")
  }

  /** A draft is accepted exactly when its base is none, or the stored version, or there is no twin yet; it fills
      identity, communication and decision style; and its maturity is absent or one of the four. */
  lemma AcceptedExactly(m: Mem, tenant: string, owner: string, draft: Fields)
    ensures PutTwin(m, tenant, owner, draft).1.Accepted? <==>
            && (var stored := GetTwin(m, tenant, owner);
                var base := Get(draft, "base_version");
                stored.Some? && base != Null ==> PyEq(base, Get(stored.value, "version")))
            && Filled(draft, "identity") && Filled(draft, "communication") && Filled(draft, "decision_style")
            && ("maturity" in draft ==> draft["maturity"] in {Str("seed"), Str("growing"), Str("mature"), Str("drifted")})
    ensures PutTwin(m, tenant, owner, draft).1.StaleBase? <==>
            var stored := GetTwin(m, tenant, owner);
            var base := Get(draft, "base_version");
            stored.Some? && base != Null && !PyEq(base, Get(stored.value, "version"))
  {
    hide Prepare;
    var prev := GetTwin(m, tenant, owner);
    var t := Prepare(prev, tenant, owner, draft);
    PreparedContent(prev, tenant, owner, draft);
    FilledExactly(t);
    assert |TwinId(tenant, owner)| > 0 && Filled(t, "twin_id") && Filled(t, "version");
    forall k | k !in OWN ensures Filled(t, k) <==> Filled(draft, k) {
    }
    assert Filled(t, "identity") <==> Filled(draft, "identity");
  }

  lemma FilledExactly(t: Fields)
    ensures (forall k | k in SEED_REQUIRED :: Get(t, k) != Null && Get(t, k) != Str(""))
       <==> && Filled(t, "twin_id") && Filled(t, "version") && Filled(t, "maturity")
            && Filled(t, "identity") && Filled(t, "communication") && Filled(t, "decision_style")
  {
    assert forall k :: Filled(t, k) <==> Get(t, k) != Null && Get(t, k) != Str("");
    assert SEED_REQUIRED[0] == "twin_id" && SEED_REQUIRED[1] == "version" && SEED_REQUIRED[2] == "maturity";
    assert SEED_REQUIRED[3] == "identity" && SEED_REQUIRED[4] == "communication" && SEED_REQUIRED[5] == "decision_style";
    assert forall i :: 0 <= i < 6 ==> SEED_REQUIRED[i] in SEED_REQUIRED;
    assert forall k :: k in SEED_REQUIRED ==> exists i :: 0 <= i < 6 && SEED_REQUIRED[i] == k;
  }

  /** The fields the store itself decides. */
  const OWN := {"twin_id", "version", "maturity", "signals", "base_version"}

  /** Field by field, what is stored of a draft. */
  ghost predicate ContentOf(prev: Option<Fields>, tenant: string, owner: string, draft: Fields, t: Fields) {
    && (forall k :: k !in OWN ==> (k in t <==> k in draft) && (k in t ==> t[k] == draft[k]))
    && "base_version" !in t && Get(t, "twin_id") == Str(TwinId(tenant, owner)) && Get(t, "version").Num?
    && Get(t, "maturity") == (if "maturity" in draft then draft["maturity"] else Str("seed"))
    && (var kept := prev.Some? && Truthy(Get(prev.value, "signals")) && !Truthy(Get(draft, "signals"));
        Get(t, "signals") == if kept then prev.value["signals"] else Get(draft, "signals"))
  }

  lemma PreparedContent(prev: Option<Fields>, tenant: string, owner: string, draft: Fields)
    ensures ContentOf(prev, tenant, owner, draft, Prepare(prev, tenant, owner, draft))
  {
    hide TwinId;
  }

  /** An accepted twin is the draft under its owner's id and the next version, with maturity seed if it names none and
      earlier signals if it brings none; every other field is the draft's. */
  lemma AcceptedContent(m: Mem, tenant: string, owner: string, draft: Fields)
    requires PutTwin(m, tenant, owner, draft).1.Accepted?
    ensures var (m1, ack) := PutTwin(m, tenant, owner, draft);
            && m1.twin.Some? && m1 == m.(twin := m1.twin, twinWrites := m.twinWrites + [m1.twin.value])
            && ContentOf(GetTwin(m, tenant, owner), tenant, owner, draft, m1.twin.value)
            && Get(m1.twin.value, "version") == Num(ack.version) && Get(m1.twin.value, "maturity") == ack.maturity
  {
    hide ContentOf;
    PreparedContent(GetTwin(m, tenant, owner), tenant, owner, draft);
  }

  // ---- retrieval --------------------------------------------------------------------------

  /** A chunk of this tenant, or of nobody in particular. */
  predicate VisibleAt(chunks: seq<Chunk>, tenant: string, p: nat)
    requires p < |chunks|
  {
    chunks[p].tenant == None || chunks[p].tenant == Some(tenant)
  }

  /** The places, in order, that the retrieved chunks come from. */
  ghost predicate Places(chunks: seq<Chunk>, tenant: string, got: seq<Chunk>, at: seq<nat>) {
    && |at| == |got|
    && (forall i :: 0 <= i < |at| ==> at[i] < |chunks| && got[i] == chunks[at[i]] && VisibleAt(chunks, tenant, at[i]))
    && (forall i, j :: 0 <= i < j < |at| ==> at[i] < at[j])
  }

  /** Every place the tenant may see is among these. */
  ghost predicate Covers(chunks: seq<Chunk>, tenant: string, at: seq<nat>) {
    forall p: nat :: p < |chunks| && VisibleAt(chunks, tenant, p) ==> p in at
  }

  /** The same places, seen from one chunk further to the front, and that chunk's own if it is visible. */
  function Shifted(at: seq<nat>, first: bool): seq<nat> {
    (if first then [0] else []) + seq(|at|, i requires 0 <= i < |at| => at[i] + 1)
  }

  lemma CoversShift(chunks: seq<Chunk>, tenant: string, at: seq<nat>)
    requires chunks != [] && Covers(chunks[1..], tenant, at)
    ensures Covers(chunks, tenant, Shifted(at, VisibleAt(chunks, tenant, 0)))
  {
    var first := VisibleAt(chunks, tenant, 0);
    forall p: nat | p < |chunks| && VisibleAt(chunks, tenant, p) ensures p in Shifted(at, first) {
      if p == 0 {
        assert Shifted(at, first)[0] == 0;
      } else {
        assert VisibleAt(chunks[1..], tenant, p - 1);
        var i :| 0 <= i < |at| && at[i] == p - 1;
        assert Shifted(at, first)[if first then i + 1 else i] == p;
      }
    }
  }

  lemma PlacesShift(chunks: seq<Chunk>, tenant: string, got: seq<Chunk>, at: seq<nat>)
    requires chunks != [] && Places(chunks[1..], tenant, got, at)
    ensures var first := VisibleAt(chunks, tenant, 0);
            Places(chunks, tenant, (if first then [chunks[0]] else []) + got, Shifted(at, first))
  {
    var first := VisibleAt(chunks, tenant, 0);
    var at', got' := Shifted(at, first), (if first then [chunks[0]] else []) + got;
    forall i | 0 <= i < |at'| ensures at'[i] < |chunks| && got'[i] == chunks[at'[i]] && VisibleAt(chunks, tenant, at'[i]) {
      if !(first && i == 0) {
        var j := if first then i - 1 else i;
        assert at'[i] == at[j] + 1 && VisibleAt(chunks[1..], tenant, at[j]);
      }
    }
  }

  lemma {:induction false} VisiblePlaces(chunks: seq<Chunk>, tenant: string) returns (at: seq<nat>)
    ensures Places(chunks, tenant, VisibleTo(tenant, chunks), at) && Covers(chunks, tenant, at)
  {
    if chunks == [] {
      at := [];
    } else {
      hide Places, Covers, Shifted;
      var rest := VisiblePlaces(chunks[1..], tenant);
      PlacesShift(chunks, tenant, VisibleTo(tenant, chunks[1..]), rest);
      CoversShift(chunks, tenant, rest);
      at := Shifted(rest, VisibleAt(chunks, tenant, 0));
      assert [] + VisibleTo(tenant, chunks[1..]) == VisibleTo(tenant, chunks[1..]);
    }
  }

  /** Retrieval gives the first five chunks its tenant may see, in their order, and all of them if there are fewer. */
  lemma RetrievesFirstVisible(m: Mem, tenant: string) returns (at: seq<nat>)
    ensures |Retrieve(m, tenant)| <= 5 && Places(m.chunks, tenant, Retrieve(m, tenant), at)
    ensures forall p :: 0 <= p < |m.chunks| && VisibleAt(m.chunks, tenant, p) && p !in at ==>
              |at| == 5 && forall i :: 0 <= i < |at| ==> at[i] < p
  {
    var all := VisiblePlaces(m.chunks, tenant);
    at := if |all| <= TOP_K then all else all[..TOP_K];
    forall p | 0 <= p < |m.chunks| && VisibleAt(m.chunks, tenant, p) && p !in at
      ensures |at| == 5 && forall i :: 0 <= i < |at| ==> at[i] < p
    {
      var k :| 0 <= k < |all| && all[k] == p;
      if k < |at| { assert at[k] == p; }
    }
  }

  // ---- writes -----------------------------------------------------------------------------

  datatype WriteCall = WriteCall(tenant: string, seat: string, record: Record)

  function Writes(m: Mem, calls: seq<WriteCall>): Mem {
    if calls == [] then m
    else
      var c := calls[|calls| - 1];
      Write(Writes(m, calls[..|calls| - 1]), c.tenant, c.seat, c.record).0
  }

  ghost predicate DistinctKeys(m: Mem) {
    forall i, j :: 0 <= i < j < |m.writes| ==> m.writes[i].key != m.writes[j].key
  }

  lemma {:induction false} StoredIffKey(writes: seq<Stamped>, key: DedupKey)
    ensures Stored(writes, key).Some? <==> exists i :: 0 <= i < |writes| && writes[i].key == key
  {
    if writes == [] {
    } else {
      StoredIffKey(writes[1..], key);
      if Stored(writes, key).Some? && writes[0].key != key {
        var i :| 0 <= i < |writes[1..]| && writes[1..][i].key == key;
        assert writes[i + 1].key == key;
      }
      if i :| 0 <= i < |writes| && writes[i].key == key {
        if i > 0 { assert writes[1..][i - 1].key == key; }
      }
    }
  }

  /** Some stored write has this key. */
  ghost predicate Has(m: Mem, key: DedupKey) {
    exists i :: 0 <= i < |m.writes| && m.writes[i].key == key
  }

  /** A write adds exactly one entry, numbered by its place, if and only if its key is new. */
  lemma WritesOnce(m: Mem, tenant: string, seat: string, record: Record)
    ensures var key := DedupKey(tenant, seat, record);
            var (m1, ack) := Write(m, tenant, seat, record);
            && m1 == m.(writes := if Has(m, key) then m.writes else m.writes + [Stamped(key, |m.writes| + 1)])
            && (ack.isNew <==> !Has(m, key))
  {
    StoredIffKey(m.writes, DedupKey(tenant, seat, record));
  }

  lemma {:induction false} StoredStays(writes: seq<Stamped>, s: Stamped, key: DedupKey)
    requires Stored(writes, key).Some?
    ensures Stored(writes + [s], key) == Stored(writes, key)
  {
    if writes[0].key == key {
    } else {
      assert (writes + [s])[1..] == writes[1..] + [s];
      StoredStays(writes[1..], s, key);
    }
  }

  /** Dedup keys stay pairwise distinct over any run of writes. */
  lemma {:induction false} KeysStayDistinct(m: Mem, calls: seq<WriteCall>)
    requires DistinctKeys(m)
    ensures DistinctKeys(Writes(m, calls))
  {
    if calls == [] {
    } else {
      var c, before := calls[|calls| - 1], Writes(m, calls[..|calls| - 1]);
      KeysStayDistinct(m, calls[..|calls| - 1]);
      StoredIffKey(before.writes, DedupKey(c.tenant, c.seat, c.record));
    }
  }

  lemma {:induction false} WrittenIsStored(m: Mem, calls: seq<WriteCall>, i: nat)
    requires i < |calls|
    ensures Stored(Writes(m, calls).writes, DedupKey(calls[i].tenant, calls[i].seat, calls[i].record)).Some?
  {
    var n := |calls| - 1;
    var before, after := Writes(m, calls[..n]), Writes(m, calls);
    var key := DedupKey(calls[i].tenant, calls[i].seat, calls[i].record);
    if i < n {
      WrittenIsStored(m, calls[..n], i);
      if after.writes != before.writes { StoredStays(before.writes, after.writes[|before.writes|], key); }
    } else if Stored(before.writes, key).None? {
      assert after.writes[|before.writes|].key == key;
      StoredIffKey(after.writes, key);
    }
  }

  /** Replaying any past write, however long ago, changes nothing. */
  lemma ReplayIsNoOp(m: Mem, calls: seq<WriteCall>, i: nat)
    requires i < |calls|
    ensures var after := Writes(m, calls);
            var (again, ack) := Write(after, calls[i].tenant, calls[i].seat, calls[i].record);
            again == after && !ack.isNew
  {
    WrittenIsStored(m, calls, i);
  }
}

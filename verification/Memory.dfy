/** The memory broker's recorded ("unit") store: retrieval, idempotent writes and versioned twins
    (runtime/core.py MemoryBroker, runtime/twin.py validate_twin). */
module Memory {
  import opened Wrappers
  import opened Json

  datatype Chunk = Chunk(id: string, tenant: Option<string>)

  datatype Record = Record(content: Value, cites: seq<string>, category: string)

  /** The content-derived dedup key; the two hashes over it are taken as injective. */
  datatype DedupKey = DedupKey(tenant: string, seat: string, record: Record)

  datatype Stamped = Stamped(key: DedupKey, closet: nat)

  datatype WriteAck = WriteAck(isNew: bool, closet: nat)

  datatype Consolidation = Consolidation(tenant: string, seat: string, promoted: nat)

  datatype Ack =
    | Accepted(version: int, maturity: Value)
    | StaleBase
    | Invalid

  datatype Mem = Mem(
    stm: nat,
    chunks: seq<Chunk>,
    twin: Option<Fields>,
    writes: seq<Stamped>,
    consolidations: seq<Consolidation>,
    twinWrites: seq<Fields>)

  // ---- retrieval --------------------------------------------------------------------------

  const TOP_K := 5

  function VisibleTo(tenant: string, chunks: seq<Chunk>): seq<Chunk> {
    if chunks == [] then []
    else if chunks[0].tenant.GetOr(tenant) == tenant then [chunks[0]] + VisibleTo(tenant, chunks[1..])
    else VisibleTo(tenant, chunks[1..])
  }

  function Retrieve(m: Mem, tenant: string): seq<Chunk> {
    var visible := VisibleTo(tenant, m.chunks);
    if |visible| <= TOP_K then visible else visible[..TOP_K]
  }

  // ---- writes -----------------------------------------------------------------------------

  /** The closet of the first stored write with this key. */
  function Stored(writes: seq<Stamped>, key: DedupKey): Option<nat> {
    if writes == [] then None
    else if writes[0].key == key then Some(writes[0].closet)
    else Stored(writes[1..], key)
  }

  function Write(m: Mem, tenant: string, seat: string, record: Record): (Mem, WriteAck) {
    var key := DedupKey(tenant, seat, record);
    match Stored(m.writes, key)
    case Some(closet) => (m, WriteAck(false, closet))
    case None =>
      var closet := |m.writes| + 1;
      (m.(writes := m.writes + [Stamped(key, closet)]), WriteAck(true, closet))
  }

  function Consolidate(m: Mem, tenant: string, seat: string): Mem {
    m.(consolidations := m.consolidations + [Consolidation(tenant, seat, m.stm)])
  }

  // ---- twins ------------------------------------------------------------------------------

  function TwinId(tenant: string, owner: string): string {
    tenant + ":" + owner
  }

  function GetTwin(m: Mem, tenant: string, owner: string): Option<Fields> {
    if m.twin.Some? && m.twin.value != map[] && Get(m.twin.value, "twin_id") == Str(TwinId(tenant, owner))
    then m.twin else None
  }

  const SEED_REQUIRED := ["twin_id", "version", "maturity", "identity", "communication", "decision_style"]

  const MATURITY_STATES := [Str("seed"), Str("growing"), Str("mature"), Str("drifted")]

  predicate ValidTwin(t: Fields) {
    && (forall k | k in SEED_REQUIRED :: Get(t, k) != Null && Get(t, k) != Str(""))
    && Get(t, "maturity") in MATURITY_STATES
  }

  function NextVersion(prev: Option<Fields>): int {
    if prev.Some? && AsInt(Get(prev.value, "version")).Some?
    then AsInt(Get(prev.value, "version")).value + 1 else 0
  }

  predicate Stale(prev: Option<Fields>, base: Value) {
    prev.Some? && base != Null && !PyEq(base, Get(prev.value, "version"))
  }

  /** The record as it would be stored: keyed, versioned, and keeping earlier signals. */
  function Prepare(prev: Option<Fields>, tenant: string, owner: string, draft: Fields): Fields {
    var keyed := draft["twin_id" := Str(TwinId(tenant, owner))];
    var seeded := if "maturity" in keyed then keyed else keyed["maturity" := Str("seed")];
    var t := (seeded - {"base_version"})["version" := Num(NextVersion(prev))];
    if prev.Some? && Truthy(Get(prev.value, "signals")) && !Truthy(Get(t, "signals"))
    then t["signals" := Get(prev.value, "signals")] else t
  }

  function PutTwin(m: Mem, tenant: string, owner: string, draft: Fields): (Mem, Ack) {
    var prev := GetTwin(m, tenant, owner);
    if Stale(prev, Get(draft, "base_version")) then (m, StaleBase)
    else
      var t := Prepare(prev, tenant, owner, draft);
      if !ValidTwin(t) then (m, Invalid)
      else (m.(twin := Some(t), twinWrites := m.twinWrites + [t]), Accepted(NextVersion(prev), Get(t, "maturity")))
  }
}

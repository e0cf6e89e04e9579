/** The store of paused runs (runtime/approval_gate.py MemorySnapshotStore, mark_resolved). */
module PausedRuns {
  import opened Wrappers
  import opened Agent

  datatype Status = Pending | ResolvedRun | DeniedRun

  datatype Stored = Stored(snap: Snapshot, status: Status)

  type Store = map<string, Stored>

  function Save(d: Store, id: string, snap: Snapshot): Store {
    d[id := Stored(snap, Pending)]
  }

  function MarkResolved(d: Store, id: string, terminal: State): Store {
    if id in d then d[id := d[id].(status := if terminal == Rejected then DeniedRun else ResolvedRun)] else d
  }

  predicate IsPending(d: Store, id: string) {
    id in d && d[id].status == Pending
  }

  function StoreOf(d: Store, r: Run): Store {
    if r.saved.Some? then Save(d, r.core.who.runId, r.saved.value) else d
  }

  function Load(d: Store, id: string): Option<Snapshot> {
    if id in d then Some(d[id].snap) else None
  }

  // ---- what a store gives back --------------------------------------------------------------

  datatype StoreOp = SaveOp(id: string, snap: Snapshot) | MarkOp(id: string, terminal: State)

  function After(ops: seq<StoreOp>): Store {
    if ops == [] then map[]
    else
      var before := After(ops[..|ops| - 1]);
      match ops[|ops| - 1]
      case SaveOp(id, snap) => Save(before, id, snap)
      case MarkOp(id, terminal) => MarkResolved(before, id, terminal)
  }

  /** The snapshot last saved under an id. */
  function LastSaved(ops: seq<StoreOp>, id: string): Option<Snapshot> {
    if ops == [] then None
    else
      var op := ops[|ops| - 1];
      if op.SaveOp? && op.id == id then Some(op.snap) else LastSaved(ops[..|ops| - 1], id)
  }

  /** Over any saves and markings, an id gives back the snapshot last saved under it, whatever it was marked. */
  lemma {:induction false} LoadsLastSaved(ops: seq<StoreOp>, id: string)
    ensures Load(After(ops), id) == LastSaved(ops, id)
  {
    if ops == [] {
    } else {
      LoadsLastSaved(ops[..|ops| - 1], id);
    }
  }
}

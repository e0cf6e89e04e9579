/** JSON values as the runtime's tools, twins and messages carry them, and insertion-ordered dicts. */
module Json {
  import opened Wrappers

  type Fields = map<string, Value>

  datatype Value =
    | Null
    | Bool(b: bool)
    | Num(n: int)
    | Str(s: string)
    | Arr(items: seq<Value>)
    | Obj(fields: Fields)

  /** Python truthiness. */
  predicate Truthy(v: Value) {
    match v
    case Null => false
    case Bool(b) => b
    case Num(n) => n != 0
    case Str(s) => s != ""
    case Arr(items) => items != []
    case Obj(fields) => fields != map[]
  }

  /** `isinstance(v, int)`: a bool is an int in Python. */
  function AsInt(v: Value): Option<int> {
    match v
    case Num(n) => Some(n)
    case Bool(b) => Some(if b then 1 else 0)
    case _ => None
  }

  /** Python `==`: it identifies True with 1 and False with 0, also inside lists and dicts. */
  predicate PyEq(a: Value, b: Value) {
    match (a, b)
    case (Arr(xs), Arr(ys)) => |xs| == |ys| && forall i :: 0 <= i < |xs| ==> PyEq(xs[i], ys[i])
    case (Obj(f), Obj(g)) => f.Keys == g.Keys && forall k | k in f :: PyEq(f[k], g[k])
    case _ => if AsInt(a).Some? && AsInt(b).Some? then AsInt(a) == AsInt(b) else a == b
  }

  /** `d.get(k)` */
  function Get(d: Fields, k: string): Value {
    if k in d then d[k] else Null
  }

  /** A dict that remembers insertion order (`PiAgent.outputs`). */
  type Dict = seq<(string, Value)>

  function Lookup(d: Dict, k: string): Option<Value> {
    if d == [] then None
    else if d[0].0 == k then Some(d[0].1)
    else Lookup(d[1..], k)
  }

  /** `d[k] = v`: an existing key keeps its place. */
  function Put(d: Dict, k: string, v: Value): Dict {
    if d == [] then [(k, v)]
    else if d[0].0 == k then [(k, v)] + d[1..]
    else [d[0]] + Put(d[1..], k, v)
  }

  lemma {:induction false} LookupPut(d: Dict, k: string, v: Value, j: string)
    ensures Lookup(Put(d, k, v), j) == if j == k then Some(v) else Lookup(d, j)
  {
    if d == [] || d[0].0 == k {
    } else {
      LookupPut(d[1..], k, v, j);
      assert Put(d, k, v)[1..] == Put(d[1..], k, v);
    }
  }

  /** A new key goes to the end. */
  lemma {:induction false} PutNew(d: Dict, k: string, v: Value)
    requires Lookup(d, k).None?
    ensures Put(d, k, v) == d + [(k, v)]
  {
    if d == [] {
    } else {
      PutNew(d[1..], k, v);
    }
  }
}

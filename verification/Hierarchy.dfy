/** The org chart: reporting lines, escalation and delegation (acp/hierarchy.py). */
module Hierarchy {
  import opened Wrappers
  import opened Finite
  import opened Strings

  datatype Seat = Seat(seatId: string, role: string, reportsTo: Option<string>, capabilities: set<string>)

  type Seats = map<string, Seat>

  // ---- reporting lines --------------------------------------------------------------------

  /** Keys match, and every reporting line leads to a seat of the chart. */
  ghost predicate Closed(seats: Seats) {
    forall id :: id in seats ==>
      seats[id].seatId == id && (seats[id].reportsTo.Some? ==> seats[id].reportsTo.value in seats)
  }

  /** The n-th seat up from id, if the line is that long. */
  function Up(seats: Seats, id: string, n: nat): Option<string> {
    if n == 0 then Some(id)
    else
      var below := Up(seats, id, n - 1);
      if below.None? || below.value !in seats then None else seats[below.value].reportsTo
  }

  /** The boss is some distance up from s. */
  ghost predicate Above(seats: Seats, s: string, boss: string) {
    exists n: nat :: n > 0 && Up(seats, s, n) == Some(boss)
  }

  /** Some seat is its own superior at some distance. */
  ghost predicate Cyclic(seats: Seats) {
    exists id :: id in seats && Above(seats, id, id)
  }

  /** The line from id comes to a top. */
  ghost predicate Tops(seats: Seats, id: string) {
    exists n: nat :: Up(seats, id, n) == None
  }

  lemma {:induction false} UpAdds(seats: Seats, id: string, m: nat, n: nat)
    requires Up(seats, id, m).Some?
    ensures Up(seats, id, m + n) == Up(seats, Up(seats, id, m).value, n)
  {
    if n == 0 {
    } else {
      UpAdds(seats, id, m, n - 1);
    }
  }

  lemma UpInside(seats: Seats, id: string, n: nat)
    requires Closed(seats) && id in seats && Up(seats, id, n).Some?
    ensures Up(seats, id, n).value in seats
  {
  }

  lemma {:induction false} UpStops(seats: Seats, id: string, m: nat, n: nat)
    requires m <= n && Up(seats, id, m).None?
    ensures Up(seats, id, n).None?
  {
    if m == n {
    } else {
      UpStops(seats, id, m, n - 1);
    }
  }

  /** In an acyclic chart a line never meets the same seat twice. */
  lemma UpDistinct(seats: Seats, id: string, m: nat, n: nat)
    requires Closed(seats) && !Cyclic(seats) && id in seats && m < n && Up(seats, id, n).Some?
    ensures Up(seats, id, m).Some? && Up(seats, id, m) != Up(seats, id, n)
  {
    if Up(seats, id, m).None? { UpStops(seats, id, m, n); }
    UpInside(seats, id, m);
    var s := Up(seats, id, m).value;
    assert !Above(seats, s, s);
    UpAdds(seats, id, m, n - m);
  }

  /** The line above a seat, nearest first. */
  ghost predicate IsChain(seats: Seats, id: string, out: seq<string>) {
    && (forall i :: 0 <= i < |out| ==> Up(seats, id, i + 1) == Some(out[i]))
    && Up(seats, id, |out| + 1) == None
  }

  /** The seats of a line, from its first. */
  ghost predicate IsLine(seats: Seats, id: string, line: seq<string>) {
    forall i :: 0 <= i < |line| ==> Up(seats, id, i) == Some(line[i])
  }

  lemma LineFits(seats: Seats, id: string, line: seq<string>)
    requires Closed(seats) && !Cyclic(seats) && id in seats && IsLine(seats, id, line)
    ensures NoRepeats(line) && (forall i :: 0 <= i < |line| ==> line[i] in seats) && |line| <= |seats|
  {
    forall i | 0 <= i < |line| ensures line[i] in seats { UpInside(seats, id, i); }
    forall i, j | 0 <= i < j < |line| ensures line[i] != line[j] { UpDistinct(seats, id, i, j); }
    FitsIn(line, seats.Keys);
  }

  lemma ChainFits(seats: Seats, id: string, out: seq<string>)
    requires Closed(seats) && !Cyclic(seats) && id in seats
    requires forall i :: 0 <= i < |out| ==> Up(seats, id, i + 1) == Some(out[i])
    ensures NoRepeats([id] + out) && (forall i :: 0 <= i < |out| ==> out[i] in seats) && |out| < |seats|
  {
    var line := [id] + out;
    forall i | 0 <= i < |line| ensures Up(seats, id, i) == Some(line[i]) {
      if i > 0 { assert Up(seats, id, i - 1 + 1) == Some(out[i - 1]); }
    }
    LineFits(seats, id, line);
    assert forall i :: 0 <= i < |out| ==> out[i] == line[i + 1];
  }

  /** The chain, climbing at most as far as there are seats. */
  function ChainFrom(seats: Seats, cur: Option<string>, fuel: nat): seq<string>
    decreases fuel
  {
    if cur.None? || fuel == 0 || cur.value !in seats then []
    else [cur.value] + ChainFrom(seats, seats[cur.value].reportsTo, fuel - 1)
  }

  function Chain(seats: Seats, id: string): seq<string> {
    if id in seats then ChainFrom(seats, seats[id].reportsTo, |seats|) else []
  }

  lemma {:induction false} ClimbsOn(seats: Seats, id: string, i: nat, fuel: nat)
    requires Closed(seats) && id in seats
    ensures var out := ChainFrom(seats, Up(seats, id, i), fuel);
            && (forall j :: 0 <= j < |out| ==> Up(seats, id, i + j) == Some(out[j]))
            && (|out| < fuel ==> Up(seats, id, i + |out|) == None)
    decreases fuel
  {
    var cur := Up(seats, id, i);
    if cur.Some? { UpInside(seats, id, i); }
    if cur.Some? && fuel > 0 {
      ClimbsOn(seats, id, i + 1, fuel - 1);
      var out, rest := ChainFrom(seats, cur, fuel), ChainFrom(seats, Up(seats, id, i + 1), fuel - 1);
      assert out == [cur.value] + rest;
      forall j | 0 <= j < |out| ensures Up(seats, id, i + j) == Some(out[j]) {
        if j > 0 { assert out[j] == rest[j - 1] && i + j == (i + 1) + (j - 1); }
      }
      assert i + |out| == (i + 1) + |rest|;
    }
  }

  /** In a validated chart every chain is complete, repeat-free and shorter than the chart. */
  lemma ChainIsChain(seats: Seats, id: string)
    requires Closed(seats) && !Cyclic(seats) && id in seats
    ensures var out := Chain(seats, id);
            IsChain(seats, id, out) && NoRepeats([id] + out) && |out| < |seats|
            && forall i :: 0 <= i < |out| ==> out[i] in seats
  {
    ClimbsOn(seats, id, 1, |seats|);
    var out := Chain(seats, id);
    assert forall i :: 0 <= i < |out| ==> Up(seats, id, 1 + i) == Some(out[i]);
    ChainFits(seats, id, out);
  }

  // ---- validation and escalation as loops -------------------------------------------------

  datatype ChartError = KeyMismatch(id: string) | UnknownSuperior(id: string) | ReportingCycle(id: string) | UnknownSeat(id: string)

  lemma RoundTrip(seats: Seats, id: string, line: seq<string>)
    requires IsLine(seats, id, line) && Up(seats, id, |line|).Some? && Up(seats, id, |line|).value in line
    ensures var s := Up(seats, id, |line|).value; Above(seats, s, s)
  {
    var s := Up(seats, id, |line|).value;
    var m :| 0 <= m < |line| && line[m] == s;
    UpAdds(seats, id, m, |line| - m);
    assert Up(seats, s, |line| - m) == Some(s);
  }

  lemma Shrinks(all: set<string>, seen: set<string>, s: string)
    requires s in all && s !in seen
    ensures |all - (seen + {s})| < |all - seen|
  {
    assert s in all - seen;
    SmallerSet(all - (seen + {s}), all - seen);
  }

  /** Climbs from one seat until the top or a seat already seen. */
  method Climb(seats: Seats, id: string) returns (cycle: Option<string>)
    requires Closed(seats) && id in seats
    ensures cycle.None? ==> Tops(seats, id)
    ensures cycle.Some? ==> cycle.value in seats && Above(seats, cycle.value, cycle.value)
  {
    hide Above, Cyclic;
    var seen: set<string>, cur := {}, Some(id);
    ghost var line: seq<string> := [];
    while cur.Some?
      invariant cur == Up(seats, id, |line|) && IsLine(seats, id, line)
      invariant seen <= seats.Keys && forall s :: s in seen <==> s in line
      decreases |seats.Keys - seen|
    {
      UpInside(seats, id, |line|);
      if cur.value in seen {
        RoundTrip(seats, id, line);
        return cur;
      }
      Shrinks(seats.Keys, seen, cur.value);
      seen := seen + {cur.value};
      line := line + [cur.value];
      cur := seats[cur.value].reportsTo;
    }
    cycle := None;
  }

  lemma TopMeansAcyclic(seats: Seats, id: string)
    requires Tops(seats, id)
    ensures !Above(seats, id, id)
  {
    var n: nat :| Up(seats, id, n) == None;
    forall c: nat | c > 0 ensures Up(seats, id, c) != Some(id) {
      if Up(seats, id, c) == Some(id) { UpLoopAlive(seats, id, c, n); }
    }
  }

  /** Going round a cycle any number of times leads back to its start. */
  lemma {:induction false} Loops(seats: Seats, id: string, c: nat, times: nat)
    requires Up(seats, id, c) == Some(id)
    ensures Up(seats, id, c * times) == Some(id)
  {
    if times == 0 {
    } else {
      Loops(seats, id, c, times - 1);
      assert c * times == c * (times - 1) + c;
      UpAdds(seats, id, c * (times - 1), c);
    }
  }

  lemma UpLoopAlive(seats: Seats, id: string, c: nat, n: nat)
    requires c > 0 && Up(seats, id, c) == Some(id)
    ensures Up(seats, id, n).Some?
  {
    Loops(seats, id, c, n);
    assert n <= c * n;
    if Up(seats, id, n).None? { UpStops(seats, id, n, c * n); }
  }

  /** What each error says is so, and it is looked for in this order. */
  ghost predicate Wrong(seats: Seats, e: ChartError) {
    match e
    case KeyMismatch(id) => id in seats && seats[id].seatId != id
    case UnknownSuperior(id) =>
      id in seats && seats[id].seatId == id && seats[id].reportsTo.Some? && seats[id].reportsTo.value !in seats
    case ReportingCycle(id) => Closed(seats) && id in seats && Above(seats, id, id)
    case UnknownSeat(_) => false
  }

  /** The chart is accepted exactly when it is closed and free of cycles. `ids` lists the keys in dict order. */
  method Validate(seats: Seats, ids: seq<string>) returns (r: Result<(), ChartError>)
    requires forall id :: id in ids <==> id in seats
    ensures r.Success? <==> Closed(seats) && !Cyclic(seats)
    ensures r.Failure? ==> Wrong(seats, r.error)
  {
    for i := 0 to |ids|
      invariant forall j :: 0 <= j < i ==>
                  var s := seats[ids[j]]; s.seatId == ids[j] && (s.reportsTo.Some? ==> s.reportsTo.value in seats)
    {
      var s := seats[ids[i]];
      if s.seatId != ids[i] { return Failure(KeyMismatch(ids[i])); }
      if s.reportsTo.Some? && s.reportsTo.value !in seats { return Failure(UnknownSuperior(ids[i])); }
    }
    for i := 0 to |ids|
      invariant forall j :: 0 <= j < i ==> Tops(seats, ids[j])
    {
      var cycle := Climb(seats, ids[i]);
      if cycle.Some? { return Failure(ReportingCycle(cycle.value)); }
    }
    forall id | id in seats ensures !Above(seats, id, id) {
      var j :| 0 <= j < |ids| && ids[j] == id;
      TopMeansAcyclic(seats, id);
    }
    r := Success(());
  }

  lemma ChainGoesOn(seats: Seats, id: string, chain: seq<string>, i: nat)
    requires IsChain(seats, id, chain) && i < |chain|
    ensures Up(seats, id, i + 1) == Some(chain[i])
  {
  }

  /** The full line above a seat; its loop ends because the chart was validated. */
  method EscalationChain(seats: Seats, id: string) returns (r: Result<seq<string>, ChartError>)
    requires Closed(seats) && !Cyclic(seats)
    ensures id !in seats ==> r == Failure(UnknownSeat(id))
    ensures id in seats ==> r == Success(Chain(seats, id)) && IsChain(seats, id, r.value)
  {
    if id !in seats { return Failure(UnknownSeat(id)); }
    ChainIsChain(seats, id);
    ghost var chain := Chain(seats, id);
    var out: seq<string>, cur := [], seats[id].reportsTo;
    assert chain[..0] == [];
    while cur.Some?
      invariant |out| <= |chain| && out == chain[..|out|] && cur == Up(seats, id, |out| + 1)
      decreases |chain| - |out|
    {
      UpInside(seats, id, |out| + 1);
      assert Up(seats, id, |out| + 1) == Some(chain[|out|]);
      out := out + [cur.value];
      cur := seats[cur.value].reportsTo;
    }
    if |out| < |chain| { ChainGoesOn(seats, id, chain, |out|); }
    assert chain[..|chain|] == chain;
    r := Success(out);
  }

  // ---- subordinates and delegation --------------------------------------------------------

  /** s answers, at some distance, to the boss. */
  predicate AnswersTo(seats: Seats, s: string, boss: string) {
    s in seats && boss in Chain(seats, s)
  }

  lemma AnswersToUp(seats: Seats, s: string, boss: string)
    requires Closed(seats) && !Cyclic(seats) && s in seats
    ensures AnswersTo(seats, s, boss) <==> Above(seats, s, boss)
  {
    ChainIsChain(seats, s);
    var out := Chain(seats, s);
    if boss in out {
      var i :| 0 <= i < |out| && out[i] == boss;
      assert Up(seats, s, i + 1) == Some(boss);
    }
    if Above(seats, s, boss) {
      var n: nat :| n > 0 && Up(seats, s, n) == Some(boss);
      if n > |out| { UpStops(seats, s, |out| + 1, n); }
      assert Up(seats, s, n - 1 + 1) == Some(out[n - 1]);
    }
  }

  /** Answering to is a strict partial order. */
  lemma StrictOrder(seats: Seats, a: string, b: string, c: string)
    requires Closed(seats) && !Cyclic(seats)
    ensures !AnswersTo(seats, a, a)
    ensures AnswersTo(seats, a, b) && AnswersTo(seats, b, c) ==> AnswersTo(seats, a, c)
    ensures AnswersTo(seats, a, b) ==> !AnswersTo(seats, b, a)
  {
    if a in seats { AnswersToUp(seats, a, a); }
    if AnswersTo(seats, a, b) {
      AnswersToUp(seats, a, b);
      if AnswersTo(seats, b, c) {
        AnswersToUp(seats, b, c);
        AnswersToUp(seats, a, c);
        AboveTransitive(seats, a, b, c);
      }
      if AnswersTo(seats, b, a) {
        AnswersToUp(seats, b, a);
        AboveTransitive(seats, a, b, a);
      }
    }
  }

  lemma AboveTransitive(seats: Seats, a: string, b: string, c: string)
    requires Above(seats, a, b) && Above(seats, b, c)
    ensures Above(seats, a, c)
  {
    var m: nat :| m > 0 && Up(seats, a, m) == Some(b);
    var n: nat :| n > 0 && Up(seats, b, n) == Some(c);
    UpAdds(seats, a, m, n);
  }

  /** How far below the boss a subordinate sits. */
  function Depth(seats: Seats, s: string, boss: string): nat {
    Position(Chain(seats, s), boss)
  }

  /** The subtree of a seat, sorted. */
  method Subordinates(seats: Seats, boss: string) returns (r: Result<seq<string>, ChartError>)
    requires Closed(seats) && !Cyclic(seats)
    ensures boss !in seats ==> r == Failure(UnknownSeat(boss))
    ensures boss in seats ==> r.Success? && InOrder(r.value) && forall s :: s in r.value <==> AnswersTo(seats, s, boss)
  {
    if boss !in seats { return Failure(UnknownSeat(boss)); }
    var subs, todo := [], seats.Keys;
    while todo != {}
      invariant todo <= seats.Keys && InOrder(subs)
      invariant forall s :: s in subs <==> s in seats && s !in todo && AnswersTo(seats, s, boss)
      decreases todo
    {
      var s :| s in todo;
      var chain := EscalationChain(seats, s);
      StrictOrder(seats, s, s, s);
      if s != boss && boss in chain.value { subs := Insert(subs, s); }
      todo := todo - {s};
    }
    r := Success(subs);
  }

  predicate Capable(seats: Seats, s: string, boss: string, capability: string) {
    AnswersTo(seats, s, boss) && capability in seats[s].capabilities
  }

  /** Nearer, or as near with the smaller id. */
  predicate Nearer(seats: Seats, boss: string, a: string, b: string) {
    Depth(seats, a, boss) < Depth(seats, b, boss) || (Depth(seats, a, boss) == Depth(seats, b, boss) && Less(a, b))
  }

  /** The boss is one step further up than the depth says, and nowhere else on the line. */
  lemma DepthIs(seats: Seats, s: string, boss: string, n: nat)
    requires Closed(seats) && !Cyclic(seats) && s in seats && n > 0 && Up(seats, s, n) == Some(boss)
    ensures Depth(seats, s, boss) + 1 == n
  {
    ChainIsChain(seats, s);
    var out := Chain(seats, s);
    assert Above(seats, s, boss);
    AnswersToUp(seats, s, boss);
    var d := Depth(seats, s, boss);
    assert out[d] == boss && Up(seats, s, d + 1) == Some(boss);
    if d + 1 < n { UpDistinct(seats, s, d + 1, n); }
    if n < d + 1 { UpDistinct(seats, s, n, d + 1); }
  }

  /** Nearer means fewer steps below the boss, or as many and the lesser id. */
  lemma NearerExactly(seats: Seats, boss: string, a: string, b: string, m: nat, n: nat)
    requires Closed(seats) && !Cyclic(seats) && a in seats && b in seats && m > 0 && n > 0
    requires Up(seats, a, m) == Some(boss) && Up(seats, b, n) == Some(boss)
    ensures Nearer(seats, boss, a, b) <==> m < n || (m == n && Less(a, b))
  {
    DepthIs(seats, a, boss, m);
    DepthIs(seats, b, boss, n);
  }

  lemma NearerTransitive(seats: Seats, boss: string, a: string, b: string, c: string)
    requires Nearer(seats, boss, a, b) && Nearer(seats, boss, b, c)
    ensures Nearer(seats, boss, a, c)
  {
    if Less(a, b) && Less(b, c) { LessTransitive(a, b, c); }
  }

  /** The capability goes to the nearest subordinate that has it, ties by id; to nobody only if none has. */
  method Delegate(seats: Seats, capability: string, boss: string) returns (r: Result<Option<string>, ChartError>)
    requires Closed(seats) && !Cyclic(seats)
    ensures boss !in seats ==> r == Failure(UnknownSeat(boss))
    ensures boss in seats ==> r.Success?
    ensures r.Success? && r.value.None? ==> forall s :: !Capable(seats, s, boss, capability)
    ensures r.Success? && r.value.Some? ==>
              && Capable(seats, r.value.value, boss, capability)
              && forall s :: Capable(seats, s, boss, capability) && s != r.value.value ==> Nearer(seats, boss, r.value.value, s)
  {
    hide Depth;
    var subs := Subordinates(seats, boss);
    if subs.Failure? { return Failure(subs.error); }
    var all, best: Option<string> := subs.value, None;
    for i := 0 to |all|
      invariant best.None? ==> forall j :: 0 <= j < i ==> !Capable(seats, all[j], boss, capability)
      invariant best.Some? ==>
                  && Capable(seats, best.value, boss, capability)
                  && forall j :: 0 <= j < i && Capable(seats, all[j], boss, capability) && all[j] != best.value ==>
                       Nearer(seats, boss, best.value, all[j])
    {
      var s := all[i];
      assert AnswersTo(seats, s, boss);
      if capability in seats[s].capabilities {
        if best.None? {
          best := Some(s);
        } else if s != best.value {
          LessTotal(s, best.value);
          if Nearer(seats, boss, s, best.value) {
            forall t | Nearer(seats, boss, best.value, t) ensures Nearer(seats, boss, s, t) {
              NearerTransitive(seats, boss, s, best.value, t);
            }
            best := Some(s);
          }
        }
      }
    }
    assert forall s :: Capable(seats, s, boss, capability) ==> s in all;
    r := Success(best);
  }
}

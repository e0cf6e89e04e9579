/** The fidelity clock and its honest split (runtime/curator.py, runtime/fidelity_harness.py, runtime/shadow.py). */
module Fidelity {
  import opened Wrappers
  import opened Rounding

  /** `agreed` None means unscored. */
  datatype Signal = Signal(agreed: Option<bool>, how: string, field: string, structural: bool)

  /** A stored run event: a shadow prediction to grade, a human verdict, or something else. */
  datatype Event = Shadow(predicted: string, actual: string) | Human(agreed: bool) | Unrelated

  /** Shadow predictions are graded by the injected function; human verdicts pass through as authoritative. */
  function SignalsFrom(events: seq<Event>, grade: (string, string) -> Signal): seq<Signal> {
    if events == [] then []
    else
      var before := SignalsFrom(events[..|events| - 1], grade);
      match events[|events| - 1]
      case Shadow(p, a) => before + [grade(p, a)]
      case Human(agreed) => before + [Signal(Some(agreed), "human", "decision_style", true)]
      case Unrelated => before
  }

  /** The trailing window; zero means all. */
  function Recent(signals: seq<Signal>, k: nat): seq<Signal> {
    if k == 0 || |signals| <= k then signals else signals[|signals| - k..]
  }

  /** The window holds the latest signals: all of them, or the last k. */
  lemma RecentIsLast(signals: seq<Signal>, k: nat) returns (earlier: seq<Signal>)
    ensures signals == earlier + Recent(signals, k)
    ensures earlier == [] || |Recent(signals, k)| == k
    ensures k > 0 ==> |Recent(signals, k)| <= k
    ensures k == 0 || |signals| <= k ==> earlier == []
  {
    earlier := signals[..|signals| - |Recent(signals, k)|];
  }

  // ---- rates ------------------------------------------------------------------------------

  datatype Side = Anyone | HumanOnly | MachineOnly

  predicate Counts(s: Signal, side: Side) {
    s.agreed.Some? && (side == Anyone || (side == HumanOnly <==> s.how == "human"))
  }

  function Scored(signals: seq<Signal>, side: Side): nat {
    if signals == [] then 0
    else Scored(signals[..|signals| - 1], side) + (if Counts(signals[|signals| - 1], side) then 1 else 0)
  }

  function Agreed(signals: seq<Signal>, side: Side): nat {
    if signals == [] then 0
    else
      var s := signals[|signals| - 1];
      Agreed(signals[..|signals| - 1], side) + (if Counts(s, side) && s.agreed.value then 1 else 0)
  }

  /** agreed / scored, in thousandths. */
  function Rate(ties: Ties, agreed: nat, scored: nat): Option<int> {
    if scored == 0 then None else Some(RoundBy(ties, 1000.0 * agreed as real / scored as real))
  }

  /** The curator's agreement rate. */
  function FidelityOf(ties: Ties, signals: seq<Signal>): Option<int> {
    Rate(ties, Agreed(signals, Anyone), Scored(signals, Anyone))
  }

  lemma {:induction false} SplitCounts(signals: seq<Signal>)
    ensures Scored(signals, Anyone) == Scored(signals, HumanOnly) + Scored(signals, MachineOnly)
    ensures Agreed(signals, Anyone) == Agreed(signals, HumanOnly) + Agreed(signals, MachineOnly)
    ensures Scored(signals, Anyone) <= |signals| && forall side :: Agreed(signals, side) <= Scored(signals, side)
  {
    if signals == [] {
    } else {
      SplitCounts(signals[..|signals| - 1]);
    }
  }

  datatype Breakdown = Breakdown(
    blended: Option<int>, humanOnly: Option<int>, machineOnly: Option<int>,
    nScored: nat, nHuman: nat, nMachine: nat, nUnscored: nat, byMethod: multiset<string>)

  function Methods(signals: seq<Signal>): multiset<string> {
    if signals == [] then multiset{}
    else
      var s := signals[|signals| - 1];
      Methods(signals[..|signals| - 1]) + (if s.agreed.Some? then multiset{s.how} else multiset{})
  }

  lemma {:induction false} MethodsCount(signals: seq<Signal>)
    ensures |Methods(signals)| == Scored(signals, Anyone) && Methods(signals)["human"] == Scored(signals, HumanOnly)
  {
    if signals == [] {
    } else {
      MethodsCount(signals[..|signals| - 1]);
    }
  }

  /** What the walk has counted after i signals. */
  ghost predicate Walked(signals: seq<Signal>, i: nat, scored: nat, human: nat, agreed: nat, agreedHuman: nat,
                         byMethod: multiset<string>)
    requires i <= |signals|
  {
    && scored == Scored(signals[..i], Anyone) && human == Scored(signals[..i], HumanOnly)
    && agreed == Agreed(signals[..i], Anyone) && agreedHuman == Agreed(signals[..i], HumanOnly)
    && byMethod == Methods(signals[..i])
  }

  lemma Prefix(signals: seq<Signal>, i: nat)
    requires i < |signals|
    ensures forall side :: Scored(signals[..i + 1], side) == Scored(signals[..i], side) + (if Counts(signals[i], side) then 1 else 0)
    ensures forall side :: Agreed(signals[..i + 1], side)
              == Agreed(signals[..i], side) + (if Counts(signals[i], side) && signals[i].agreed.value then 1 else 0)
    ensures Methods(signals[..i + 1])
         == Methods(signals[..i]) + (if signals[i].agreed.Some? then multiset{signals[i].how} else multiset{})
  {
    assert signals[..i + 1][..i] == signals[..i];
  }

  lemma Totals(signals: seq<Signal>)
    ensures Scored(signals, Anyone) == Scored(signals, HumanOnly) + Scored(signals, MachineOnly) <= |signals|
    ensures Agreed(signals, Anyone) == Agreed(signals, HumanOnly) + Agreed(signals, MachineOnly)
    ensures |Methods(signals)| == Scored(signals, Anyone) && Methods(signals)["human"] == Scored(signals, HumanOnly)
  {
  }

  /** One walk over the window; the blended rate is the curator's, and every scored signal is counted once. */
  method FidelityBreakdown(ties: Ties, signals: seq<Signal>) returns (b: Breakdown)
    ensures b.blended == FidelityOf(ties, signals)
    ensures b.humanOnly == Rate(ties, Agreed(signals, HumanOnly), Scored(signals, HumanOnly))
    ensures b.machineOnly == Rate(ties, Agreed(signals, MachineOnly), Scored(signals, MachineOnly))
    ensures b.nScored == Scored(signals, Anyone) == b.nHuman + b.nMachine == |b.byMethod|
    ensures b.nHuman == Scored(signals, HumanOnly) == b.byMethod["human"] && b.nScored + b.nUnscored == |signals|
  {
    var scored, human, agreed, agreedHuman := 0, 0, 0, 0;
    var byMethod := multiset{};
    for i := 0 to |signals|
      invariant Walked(signals, i, scored, human, agreed, agreedHuman, byMethod)
    {
      Prefix(signals, i);
      var s := signals[i];
      if s.agreed.Some? {
        scored := scored + 1;
        byMethod := byMethod + multiset{s.how};
        if s.agreed.value { agreed := agreed + 1; }
        if s.how == "human" {
          human := human + 1;
          if s.agreed.value { agreedHuman := agreedHuman + 1; }
        }
      }
    }
    assert signals[..|signals|] == signals;
    Totals(signals);
    b := Breakdown(Rate(ties, agreed, scored), Rate(ties, agreedHuman, human),
                   Rate(ties, agreed - agreedHuman, scored - human), scored, human, scored - human, |signals| - scored, byMethod);
  }

  // ---- the blended rate lies between its parts --------------------------------------------

  lemma CrossRates(ties: Ties, a: nat, m: nat, b: nat, n: nat)
    requires m > 0 && n > 0 && a * n <= b * m
    ensures Rate(ties, a, m).value <= Rate(ties, b, n).value
  {
    var x, y := 1000.0 * a as real / m as real, 1000.0 * b as real / n as real;
    assert x * m as real == 1000.0 * a as real && y * n as real == 1000.0 * b as real;
    var w := m as real * n as real;
    assert x * w == (x * m as real) * n as real && y * w == (y * n as real) * m as real;
    assert (a * n) as real <= (b * m) as real;
    if x > y {
      TimesStrict(y, x, w);
      assert false;
    }
    RoundMonotone(ties, x, y);
  }

  predicate Between(x: int, y: int, z: int) {
    x <= y <= z || z <= y <= x
  }

  lemma RatesBetween(ties: Ties, a: nat, m: nat, b: nat, n: nat)
    requires m > 0 && n > 0
    ensures Between(Rate(ties, a, m).value, Rate(ties, a + b, m + n).value, Rate(ties, b, n).value)
  {
    if a * n <= b * m {
      Mediant(a, m, b, n);
      CrossRates(ties, a, m, a + b, m + n);
      CrossRates(ties, a + b, m + n, b, n);
    } else {
      Mediant(b, n, a, m);
      CrossRates(ties, b, n, a + b, m + n);
      CrossRates(ties, a + b, m + n, a, m);
    }
  }

  /** When both parts exist, the published blended rate lies between the published human and machine rates. */
  lemma BlendedBetween(ties: Ties, signals: seq<Signal>)
    requires Scored(signals, HumanOnly) > 0 && Scored(signals, MachineOnly) > 0
    ensures FidelityOf(ties, signals).Some?
    ensures Between(Rate(ties, Agreed(signals, HumanOnly), Scored(signals, HumanOnly)).value,
                    FidelityOf(ties, signals).value,
                    Rate(ties, Agreed(signals, MachineOnly), Scored(signals, MachineOnly)).value)
  {
    SplitCounts(signals);
    RatesBetween(ties, Agreed(signals, HumanOnly), Scored(signals, HumanOnly),
                 Agreed(signals, MachineOnly), Scored(signals, MachineOnly));
  }

  lemma Mediant(a: nat, m: nat, b: nat, n: nat)
    requires a * n <= b * m
    ensures a * (m + n) <= (a + b) * m && (a + b) * n <= b * (m + n)
  {
  }

  // ---- the clock --------------------------------------------------------------------------

  datatype Maturity = Seed | Growing | Mature | Drifted | Unknown

  datatype Edit = Edit(field: string, structural: bool, value: string)

  /** `rate` is the stored agreement_rate_30d, `predictions` the stored count of signals. */
  datatype Twin = Twin(maturity: Maturity, version: int, rate: Option<int>, predictions: Option<nat>, fields: map<string, string>)

  const SEED := Twin(Seed, 0, None, None, map[])

  const STRUCTURAL_MIN := 3
  const SUSTAIN_DAYS := 30
  const DRIFT_OVERRIDES := 3
  const FIDELITY_MATURE := 650

  function Structural(signals: seq<Signal>): nat {
    if signals == [] then 0
    else Structural(signals[..|signals| - 1]) + (if signals[|signals| - 1].structural then 1 else 0)
  }

  function OnField(signals: seq<Signal>, field: string): nat {
    if signals == [] then 0
    else OnField(signals[..|signals| - 1], field) + (if signals[|signals| - 1].field == field then 1 else 0)
  }

  function NextMaturity(ties: Ties, cur: Maturity, signals: seq<Signal>, sustained: int, overrides: int, retuned: bool): Maturity {
    var fid := FidelityOf(ties, signals);
    match cur
    case Seed => if Structural(signals) >= STRUCTURAL_MIN then Growing else Seed
    case Growing => if fid.Some? && fid.value >= FIDELITY_MATURE && sustained >= SUSTAIN_DAYS then Mature else Growing
    case Mature => if overrides >= DRIFT_OVERRIDES then Drifted else Mature
    case Drifted => if retuned then Growing else Drifted
    case Unknown => Unknown
  }

  /** The corroborated edits, in order. */
  function Committed(edits: seq<Edit>, signals: seq<Signal>): seq<Edit> {
    if edits == [] then []
    else
      var e := edits[|edits| - 1];
      var need := if e.structural then STRUCTURAL_MIN else 1;
      Committed(edits[..|edits| - 1], signals) + (if OnField(signals, e.field) >= need then [e] else [])
  }

  function WithEdits(fields: map<string, string>, edits: seq<Edit>): map<string, string> {
    if edits == [] then fields
    else WithEdits(fields, edits[..|edits| - 1])[edits[|edits| - 1].field := edits[|edits| - 1].value]
  }

  function Curate(ties: Ties, t: Twin, signals: seq<Signal>, edits: seq<Edit>, sustained: int, overrides: int, retuned: bool): Twin {
    var committed := Committed(edits, signals);
    var next := NextMaturity(ties, t.maturity, signals, sustained, overrides, retuned);
    Twin(next, if committed != [] || next != t.maturity then t.version + 1 else t.version,
         FidelityOf(ties, signals), Some(|signals|), WithEdits(t.fields, committed))
  }

  /** What a tick is given; `ties` is how the platform's floats break a tie. */
  datatype Inputs = Inputs(events: seq<Event>, grade: (string, string) -> Signal, sustained: int, window: nat,
                           edits: seq<Edit>, ties: Ties)

  function SignalsOf(i: Inputs): seq<Signal> {
    Recent(SignalsFrom(i.events, i.grade), i.window)
  }

  /** The twin a tick curates; the loop passes neither overrides nor a retune. */
  function Curated(stored: Option<Twin>, i: Inputs): Twin {
    Curate(i.ties, stored.GetOr(SEED), SignalsOf(i), i.edits, i.sustained, 0, false)
  }

  predicate ShouldPersist(old': Twin, new': Twin, committed: bool) {
    committed || new'.maturity != old'.maturity || new'.rate != old'.rate
  }

  /** What the twin store holds after a tick. */
  function Tick(stored: Option<Twin>, i: Inputs): Option<Twin> {
    var t' := Curated(stored, i);
    if ShouldPersist(stored.GetOr(SEED), t', Committed(i.edits, SignalsOf(i)) != []) then Some(t') else stored
  }

  class FidelityLoop {
    var stored: Option<Twin>

    constructor (stored: Option<Twin>)
      ensures this.stored == stored
    {
      this.stored := stored;
    }

    /** A write happens exactly when the version or the rate moved; a skipped one loses nothing but the count of
        signals. */
    method RunTick(i: Inputs) returns (persisted: bool)
      modifies this
      ensures stored == Tick(old(stored), i)
      ensures var t, t' := old(stored).GetOr(SEED), Curated(old(stored), i);
              && (persisted <==> t'.version != t.version || t'.rate != t.rate)
              && (if persisted then stored == Some(t') else stored == old(stored))
              && stored.GetOr(SEED).(predictions := None) == t'.(predictions := None)
    {
      var t := stored.GetOr(SEED);
      var signals := SignalsOf(i);
      var t' := Curate(i.ties, t, signals, i.edits, i.sustained, 0, false);
      persisted := ShouldPersist(t, t', Committed(i.edits, signals) != []);
      if persisted { stored := Some(t'); }
    }
  }

  function Ticks(stored: Option<Twin>, inputs: seq<Inputs>): Option<Twin> {
    if inputs == [] then stored else Tick(Ticks(stored, inputs[..|inputs| - 1]), inputs[|inputs| - 1])
  }

  /** Seed, growing and mature in this order; the other states stand aside. */
  function Rank(m: Maturity): int {
    match m
    case Seed => 0
    case Growing => 1
    case Mature => 2
    case _ => -1
  }

  ghost predicate NoEdits(inputs: seq<Inputs>) {
    forall i :: 0 <= i < |inputs| ==> inputs[i].edits == []
  }

  /** One tick moves maturity at most one step up, and the version counts the steps. */
  lemma TickSteps(stored: Option<Twin>, i: Inputs)
    requires i.edits == []
    ensures var t, t' := stored.GetOr(SEED), Tick(stored, i).GetOr(SEED);
            && 0 <= Rank(t'.maturity) - Rank(t.maturity) <= 1
            && (t'.maturity == t.maturity || Rank(t'.maturity) == Rank(t.maturity) + 1)
            && t'.version - t.version == Rank(t'.maturity) - Rank(t.maturity)
  {
  }

  /** Over any run of ticks without edits maturity only moves seed, growing, mature; the version rises by exactly the
      number of moves, so by two at most; and mature is never left. */
  lemma {:induction false} ClockMonotone(stored: Option<Twin>, inputs: seq<Inputs>)
    requires NoEdits(inputs)
    ensures var t, t' := stored.GetOr(SEED), Ticks(stored, inputs).GetOr(SEED);
            && t'.version - t.version == Rank(t'.maturity) - Rank(t.maturity)
            && 0 <= t'.version - t.version <= 2
            && (t.maturity in {Mature, Drifted, Unknown} ==> t'.maturity == t.maturity)
  {
    if inputs == [] {
    } else {
      var n := |inputs| - 1;
      ClockMonotone(stored, inputs[..n]);
      TickSteps(Ticks(stored, inputs[..n]), inputs[n]);
    }
  }

  /** When the rounded agreement clears the published 0.65: from a true 0.6495 on, that tie falling as it may. */
  lemma RateClears(ties: Ties, a: nat, n: nat)
    requires n > 0
    ensures Rate(ties, a, n).value >= FIDELITY_MATURE
       <==> 10000 * a > 6495 * n || (10000 * a == 6495 * n && ties(649))
  {
    var s, t := 1000.0 * a as real, n as real;
    DivCompare(s, t, 649.5);
    RoundAtLeast(ties, s / t, 650);
    Scaled(a, n);
  }

  lemma Scaled(a: nat, n: nat)
    ensures 1000.0 * a as real > 649.5 * n as real <==> 10000 * a > 6495 * n
    ensures 1000.0 * a as real == 649.5 * n as real <==> 10000 * a == 6495 * n
  {
    var x, y := a as real, n as real;
    assert (10000 * a) as real == 10.0 * (1000.0 * x);
    assert (6495 * n) as real == 10.0 * (649.5 * y);
  }

  /** A twin becomes mature exactly when it was growing, thirty days are sustained, and the true agreement is over
      0.6495 (or on it, where the tie decides): the published 0.65 may be rounded up. */
  lemma MaturesExactly(stored: Option<Twin>, i: Inputs)
    requires stored.GetOr(SEED).maturity != Mature
    ensures var signals := SignalsOf(i);
            var a, n := Agreed(signals, Anyone), Scored(signals, Anyone);
            Tick(stored, i).GetOr(SEED).maturity == Mature <==>
              && stored.GetOr(SEED).maturity == Growing && i.sustained >= 30 && n > 0
              && (10000 * a > 6495 * n || (10000 * a == 6495 * n && i.ties(649)))
  {
    var signals := SignalsOf(i);
    var a, n := Agreed(signals, Anyone), Scored(signals, Anyone);
    if n > 0 { RateClears(i.ties, a, n); }
  }

  /** The places of the structural signals, in order. */
  lemma {:induction false} StructuralPlaces(signals: seq<Signal>) returns (at: seq<nat>)
    ensures |at| == Structural(signals) && forall i, j :: 0 <= i < j < |at| ==> at[i] < at[j]
    ensures forall p: nat :: p in at <==> p < |signals| && signals[p].structural
  {
    at := [];
    if signals == [] {
    } else {
      var n := |signals| - 1;
      at := StructuralPlaces(signals[..n]);
      assert forall i :: 0 <= i < |at| ==> at[i] in at;
      if signals[n].structural { at := at + [n]; }
    }
  }

  ghost predicate ThreeStructural(s: seq<Signal>) {
    exists a, b, c :: 0 <= a < b < c < |s| && s[a].structural && s[b].structural && s[c].structural
  }

  lemma ThreeAmong(at: seq<nat>, a: nat, b: nat, c: nat)
    requires a in at && b in at && c in at && a != b && b != c && a != c
    ensures |at| >= 3
  {
  }

  lemma CountsToThree(s: seq<Signal>)
    ensures Structural(s) >= 3 <==> ThreeStructural(s)
  {
    hide Structural;
    var at := StructuralPlaces(s);
    if |at| >= 3 {
      assert at[0] in at && at[1] in at && at[2] in at;
    }
    if ThreeStructural(s) {
      var a: nat, b: nat, c: nat :| a < b < c < |s| && s[a].structural && s[b].structural && s[c].structural;
      ThreeAmong(at, a, b, c);
    }
  }

  /** A seed starts growing exactly when three signals of its window are structural. */
  lemma GrowsExactly(stored: Option<Twin>, i: Inputs)
    requires stored.GetOr(SEED).maturity == Seed
    ensures Tick(stored, i).GetOr(SEED).maturity == Growing <==> ThreeStructural(SignalsOf(i))
  {
    hide Structural;
    CountsToThree(SignalsOf(i));
  }

  /** A curation without overrides never leaves mature, with three it drifts; a drifted twin grows again exactly when a
      retune was accepted. */
  lemma DriftsExactly(ties: Ties, t: Twin, signals: seq<Signal>, edits: seq<Edit>, sustained: int, overrides: int, retuned: bool)
    ensures var t' := Curate(ties, t, signals, edits, sustained, overrides, retuned);
            && (t'.maturity == Drifted <==> (t.maturity == Mature && overrides >= 3) || (t.maturity == Drifted && !retuned))
            && (t.maturity == Drifted && retuned ==> t'.maturity == Growing)
            && (t.maturity == Unknown ==> t'.maturity == Unknown)
  {
  }

  /** Enough signals speak of the edited field: three for a structural one, else one. */
  predicate Corroborated(e: Edit, signals: seq<Signal>) {
    OnField(signals, e.field) >= if e.structural then 3 else 1
  }

  /** Place p holds the last corroborated edit of the field. */
  ghost predicate LastEdit(edits: seq<Edit>, signals: seq<Signal>, field: string, p: nat) {
    && p < |edits| && edits[p].field == field && Corroborated(edits[p], signals)
    && forall q :: p < q < |edits| && edits[q].field == field ==> !Corroborated(edits[q], signals)
  }

  /** No edit of the field is corroborated. */
  ghost predicate NoEdit(edits: seq<Edit>, signals: seq<Signal>, field: string) {
    forall q :: 0 <= q < |edits| && edits[q].field == field ==> !Corroborated(edits[q], signals)
  }

  /** The field holds what the edits leave in it: the last corroborated one's value, or else what it held. */
  ghost predicate FieldAfter(fields: map<string, string>, after: map<string, string>, edits: seq<Edit>, signals: seq<Signal>,
                             field: string)
  {
    if NoEdit(edits, signals, field)
    then (field in after <==> field in fields) && (field in fields ==> after[field] == fields[field])
    else exists p: nat :: LastEdit(edits, signals, field, p) && field in after && after[field] == edits[p].value
  }

  lemma FieldSnoc(fields: map<string, string>, after: map<string, string>, edits: seq<Edit>, e: Edit, signals: seq<Signal>,
                  field: string)
    requires FieldAfter(fields, after, edits, signals, field)
    ensures FieldAfter(fields, if Corroborated(e, signals) then after[e.field := e.value] else after, edits + [e], signals, field)
  {
    hide Corroborated;
    var all := edits + [e];
    if Corroborated(e, signals) && e.field == field {
      assert LastEdit(all, signals, field, |edits|);
      assert all[|edits|].field == field;
    } else if NoEdit(edits, signals, field) {
      assert NoEdit(all, signals, field);
    } else {
      var p: nat :| LastEdit(edits, signals, field, p) && field in after && after[field] == edits[p].value;
      assert LastEdit(all, signals, field, p);
      assert all[p].field == field;
    }
  }

  lemma {:induction false} EditsApply(fields: map<string, string>, edits: seq<Edit>, signals: seq<Signal>, field: string)
    ensures FieldAfter(fields, WithEdits(fields, Committed(edits, signals)), edits, signals, field)
  {
    if edits == [] {
    } else {
      hide FieldAfter;
      var init, e := edits[..|edits| - 1], edits[|edits| - 1];
      EditsApply(fields, init, signals, field);
      var before := Committed(init, signals);
      assert (before + [e])[..|before|] == before && before + [] == before && init + [e] == edits;
      FieldSnoc(fields, WithEdits(fields, before), init, e, signals, field);
    }
  }

  /** After a tick each field has the value of its last corroborated edit, or else the one it had; a corroborated edit
      moves the version by one, whether or not maturity moves too. */
  lemma EditsExactly(stored: Option<Twin>, i: Inputs, field: string)
    ensures var s, t, t' := SignalsOf(i), stored.GetOr(SEED), Tick(stored, i).GetOr(SEED);
            && FieldAfter(t.fields, t'.fields, i.edits, s, field)
            && (!NoEdit(i.edits, s, field) ==> t'.version == t.version + 1)
  {
    hide FieldAfter;
    EditsApply(stored.GetOr(SEED).fields, i.edits, SignalsOf(i), field);
    NoneCommitted(i.edits, SignalsOf(i));
  }

  lemma {:induction false} NoneCommitted(edits: seq<Edit>, signals: seq<Signal>)
    ensures Committed(edits, signals) == [] <==> forall q :: 0 <= q < |edits| ==> !Corroborated(edits[q], signals)
  {
    if edits == [] {
    } else {
      NoneCommitted(edits[..|edits| - 1], signals);
    }
  }

  function Verdicts(yes: nat, no: nat): seq<Event> {
    if no > 0 then Verdicts(yes, no - 1) + [Human(false)]
    else if yes > 0 then Verdicts(yes - 1, 0) + [Human(true)]
    else []
  }

  lemma VerdictSnoc(events: seq<Event>, agreed: bool, grade: (string, string) -> Signal)
    ensures var s, s' := SignalsFrom(events, grade), SignalsFrom(events + [Human(agreed)], grade);
            && Agreed(s', Anyone) == Agreed(s, Anyone) + (if agreed then 1 else 0)
            && Scored(s', Anyone) == Scored(s, Anyone) + 1
  {
    assert (events + [Human(agreed)])[..|events|] == events;
    var s, m := SignalsFrom(events, grade), Signal(Some(agreed), "human", "decision_style", true);
    assert (s + [m])[..|s|] == s;
  }

  lemma {:induction false} VerdictCounts(yes: nat, no: nat, grade: (string, string) -> Signal)
    ensures var signals := SignalsFrom(Verdicts(yes, no), grade);
            Agreed(signals, Anyone) == yes && Scored(signals, Anyone) == yes + no
  {
    hide Agreed, Scored, SignalsFrom;
    if no > 0 {
      VerdictCounts(yes, no - 1, grade);
      VerdictSnoc(Verdicts(yes, no - 1), false, grade);
    } else if yes > 0 {
      VerdictCounts(yes - 1, 0, grade);
      VerdictSnoc(Verdicts(yes - 1, 0), true, grade);
    } else {
      NoVerdicts(grade);
    }
  }

  function People(events: seq<Event>): nat {
    if events == [] then 0 else People(events[..|events| - 1]) + (if events[|events| - 1].Human? then 1 else 0)
  }

  function PeopleAgreeing(events: seq<Event>): nat {
    if events == [] then 0
    else PeopleAgreeing(events[..|events| - 1]) + (if events[|events| - 1] == Human(true) then 1 else 0)
  }

  /** When no grading passes for a person's, the human counts are those of the people's verdicts. */
  lemma {:induction false} PeopleCounted(events: seq<Event>, grade: (string, string) -> Signal)
    requires forall p, a :: grade(p, a).how != "human"
    ensures var s := SignalsFrom(events, grade);
            Scored(s, HumanOnly) == People(events) && Agreed(s, HumanOnly) == PeopleAgreeing(events)
  {
    if events == [] {
    } else {
      var before := SignalsFrom(events[..|events| - 1], grade);
      PeopleCounted(events[..|events| - 1], grade);
      var e := events[|events| - 1];
      if !e.Unrelated? {
        var s := SignalsFrom(events, grade);
        assert s[..|s| - 1] == before;
      }
    }
  }

  lemma NoVerdicts(grade: (string, string) -> Signal)
    ensures Agreed(SignalsFrom([], grade), Anyone) == 0 && Scored(SignalsFrom([], grade), Anyone) == 0
  {
  }

  /** 76 of 117 verdicts agree, less than 0.65 of them, and a growing twin matures on them. */
  lemma MaturesBelow(grown: Twin, grade: (string, string) -> Signal, ties: Ties) returns (i: Inputs)
    requires grown.maturity == Growing
    ensures var a, n := Agreed(SignalsOf(i), Anyone), Scored(SignalsOf(i), Anyone);
            && 100 * a < 65 * n && i.ties == ties
            && Tick(Some(grown), i).GetOr(SEED).maturity == Mature
  {
    i := Inputs(Verdicts(76, 41), grade, SUSTAIN_DAYS, 0, [], ties);
    VerdictCounts(76, 41, grade);
    assert SignalsOf(i) == SignalsFrom(i.events, grade);
    MaturesExactly(Some(grown), i);
  }

  /** Two ticks at least: a twin that started as a seed was growing before it matured. */
  lemma {:induction false} GrewFirst(stored: Option<Twin>, inputs: seq<Inputs>)
    requires NoEdits(inputs) && stored.GetOr(SEED).maturity == Seed && Ticks(stored, inputs).GetOr(SEED).maturity == Mature
    ensures exists k :: 0 < k < |inputs| && Ticks(stored, inputs[..k]).GetOr(SEED).maturity == Growing
  {
    var n := |inputs| - 1;
    assert inputs[..0] == [];
    var before := Ticks(stored, inputs[..n]).GetOr(SEED).maturity;
    TickSteps(Ticks(stored, inputs[..n]), inputs[n]);
    if before == Mature {
      GrewFirst(stored, inputs[..n]);
      var k :| 0 < k < n && Ticks(stored, inputs[..n][..k]).GetOr(SEED).maturity == Growing;
      assert inputs[..n][..k] == inputs[..k];
    } else {
      assert before == Growing;
    }
  }
}

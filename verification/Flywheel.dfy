/** The automation flywheel with persistent markers (runtime/flywheel.py, runtime/flywheel_harness.py). */
module Flywheel {
  import opened Finite
  import opened Rounding
  import opened Strings

  datatype Observation = Observation(seat: string, done: bool, tools: seq<string>, phases: seq<string>)

  function Join(tools: seq<string>): string {
    if tools == [] then "" else if |tools| == 1 then tools[0] else tools[0] + "," + Join(tools[1..])
  }

  /** Who ran it and the ordered tool spine. */
  function Signature(o: Observation): string {
    o.seat + "|" + Join(o.tools)
  }

  // ---- a signature tells the shape ----------------------------------------------------------

  function UpTo(s: string, c: char): string {
    if s == "" || s[0] == c then "" else [s[0]] + UpTo(s[1..], c)
  }

  lemma {:induction false} UpToSplits(s: string, c: char, rest: string)
    requires c !in s
    ensures UpTo(s, c) == s && UpTo(s + [c] + rest, c) == s
  {
    if s == "" {
      assert (s + [c] + rest)[0] == c;
    } else {
      var t := s + [c] + rest;
      assert t[0] == s[0] && t[1..] == s[1..] + [c] + rest;
      UpToSplits(s[1..], c, rest);
    }
  }

  /** A tool's name is not empty and has no comma in it. */
  predicate Named(tools: seq<string>) {
    forall i :: 0 <= i < |tools| ==> tools[i] != "" && ',' !in tools[i]
  }

  lemma {:induction false} JoinTells(a: seq<string>, b: seq<string>)
    requires Named(a) && Named(b) && Join(a) == Join(b)
    ensures a == b
  {
    if a != [] && b != [] {
      UpToSplits(a[0], ',', if |a| > 1 then Join(a[1..]) else "");
      UpToSplits(b[0], ',', if |b| > 1 then Join(b[1..]) else "");
      assert a[0] == b[0];
      if |a| > 1 && |b| > 1 {
        assert Join(a)[|a[0]| + 1..] == Join(a[1..]) && Join(b)[|b[0]| + 1..] == Join(b[1..]);
        JoinTells(a[1..], b[1..]);
      }
    }
  }

  /** Two observations have one signature exactly when the same seat used the same tools in the same order, as long as no
      bar stands in a seat's name and no comma in a tool's. */
  lemma SignatureTells(a: Observation, b: Observation)
    requires '|' !in a.seat && '|' !in b.seat && Named(a.tools) && Named(b.tools)
    ensures Signature(a) == Signature(b) <==> a.seat == b.seat && a.tools == b.tools
  {
    UpToSplits(a.seat, '|', Join(a.tools));
    UpToSplits(b.seat, '|', Join(b.tools));
    if Signature(a) == Signature(b) {
      assert Signature(a)[|a.seat| + 1..] == Join(a.tools) && Signature(b)[|b.seat| + 1..] == Join(b.tools);
      JoinTells(a.tools, b.tools);
    }
  }

  /** With a comma in a name they collide. */
  lemma CommasCollide(seat: string)
    ensures Signature(Observation(seat, true, ["a,b"], [])) == Signature(Observation(seat, true, ["a", "b"], []))
  {
    assert ["a", "b"][1..] == ["b"];
    assert "a" + "," + "b" == "a,b";
  }

  datatype Answer = Approve | Promote | Yes | Reject | Other

  /** `ties` is how the platform's floats break a tie when a rate is rounded. */
  datatype Rules = Rules(existing: set<string>, approvals: map<string, Answer>, minOccurrences: nat, floor: real, ties: Ties)

  datatype Gate = TooFew | Unreliable | AlreadyInCatalog | Surfaced

  /** `rate` is in thousandths. */
  datatype Candidate = Candidate(signature: string, gate: Gate, occurrences: nat, rate: int, first: Observation)

  datatype Verdict = Materialized | Refused | NeedsReview

  datatype Triaged = Triaged(signature: string, verdict: Verdict)

  // ---- surfacing --------------------------------------------------------------------------

  /** The observations of one shape, in order. */
  function Group(obs: seq<Observation>, sig: string): seq<Observation> {
    if obs == [] then []
    else Group(obs[..|obs| - 1], sig) + (if Signature(obs[|obs| - 1]) == sig then [obs[|obs| - 1]] else [])
  }

  function Dones(obs: seq<Observation>): (n: nat)
    ensures n <= |obs|
  {
    if obs == [] then 0 else Dones(obs[..|obs| - 1]) + (if obs[|obs| - 1].done then 1 else 0)
  }

  function Rate(ties: Ties, obs: seq<Observation>): int
    requires obs != []
  {
    RoundBy(ties, 1000.0 * Dones(obs) as real / |obs| as real)
  }

  /** The three surfacing gates, in order. */
  function Judge(rules: Rules, sig: string, obs: seq<Observation>): Candidate
    requires obs != []
  {
    var gate :=
      if |obs| < rules.minOccurrences then TooFew
      else if Rate(rules.ties, obs) as real < 1000.0 * rules.floor then Unreliable
      else if obs[0].seat in rules.existing then AlreadyInCatalog
      else Surfaced;
    Candidate(sig, gate, |obs|, Rate(rules.ties, obs), obs[0])
  }

  /** One candidate for every shape observed, sorted by signature; none is dropped. */
  ghost predicate Surface(rules: Rules, obs: seq<Observation>, cs: seq<Candidate>) {
    && (forall i, j :: 0 <= i < j < |cs| ==> Less(cs[i].signature, cs[j].signature))
    && (forall i :: 0 <= i < |cs| ==>
          var g := Group(obs, cs[i].signature); g != [] && cs[i] == Judge(rules, cs[i].signature, g))
    && (forall i :: 0 <= i < |obs| ==> exists j :: 0 <= j < |cs| && cs[j].signature == Signature(obs[i]))
  }

  lemma {:induction false} GroupHas(obs: seq<Observation>, sig: string)
    ensures Group(obs, sig) != [] <==> exists i :: 0 <= i < |obs| && Signature(obs[i]) == sig
  {
    if obs == [] {
    } else {
      var n := |obs| - 1;
      GroupHas(obs[..n], sig);
      assert forall i :: 0 <= i < n ==> obs[..n][i] == obs[i];
      if Group(obs[..n], sig) != [] {
        var i :| 0 <= i < |obs[..n]| && Signature(obs[..n][i]) == sig;
        assert Signature(obs[i]) == sig;
      }
      if Signature(obs[n]) != sig { assert Group(obs, sig) == Group(obs[..n], sig); }
    }
  }

  ghost predicate Grouped(obs: seq<Observation>, groups: map<string, seq<Observation>>) {
    forall s :: (s in groups <==> Group(obs, s) != []) && (s in groups ==> groups[s] == Group(obs, s))
  }

  lemma GroupedSnoc(obs: seq<Observation>, i: nat, groups: map<string, seq<Observation>>)
    requires i < |obs| && Grouped(obs[..i], groups)
    ensures var s := Signature(obs[i]);
            Grouped(obs[..i + 1], groups[s := (if s in groups then groups[s] else []) + [obs[i]]])
  {
    assert obs[..i + 1][..i] == obs[..i];
  }

  method GroupAll(obs: seq<Observation>) returns (groups: map<string, seq<Observation>>, sigs: seq<string>)
    ensures InOrder(sigs) && forall s :: s in sigs <==> s in groups
    ensures Grouped(obs, groups)
  {
    groups, sigs := map[], [];
    for i := 0 to |obs|
      invariant InOrder(sigs) && forall s :: s in sigs <==> s in groups
      invariant Grouped(obs[..i], groups)
    {
      var s := Signature(obs[i]);
      if s !in groups { sigs := Insert(sigs, s); }
      GroupedSnoc(obs, i, groups);
      groups := groups[s := (if s in groups then groups[s] else []) + [obs[i]]];
    }
    assert obs[..|obs|] == obs;
  }

  /** The candidates of the first i groups, in the order of their signatures. */
  ghost predicate Judged(rules: Rules, obs: seq<Observation>, sigs: seq<string>, i: nat, cs: seq<Candidate>)
    requires i <= |sigs|
  {
    |cs| == i && forall j :: 0 <= j < i ==>
      Group(obs, sigs[j]) != [] && cs[j] == Judge(rules, sigs[j], Group(obs, sigs[j]))
  }

  lemma JudgedSurface(rules: Rules, obs: seq<Observation>, groups: map<string, seq<Observation>>, sigs: seq<string>,
                      cs: seq<Candidate>)
    requires InOrder(sigs) && (forall s :: s in sigs <==> s in groups) && Grouped(obs, groups)
    requires Judged(rules, obs, sigs, |sigs|, cs)
    ensures Surface(rules, obs, cs)
  {
    forall i | 0 <= i < |cs|
      ensures cs[i].signature == sigs[i] && Group(obs, sigs[i]) != [] && cs[i] == Judge(rules, sigs[i], Group(obs, sigs[i]))
    {
    }
    hide Judge, Group, Less, Signature;
    forall i | 0 <= i < |obs| ensures exists j :: 0 <= j < |cs| && cs[j].signature == Signature(obs[i]) {
      GroupHas(obs, Signature(obs[i]));
      assert Signature(obs[i]) in groups;
      var j :| 0 <= j < |sigs| && sigs[j] == Signature(obs[i]);
      assert cs[j].signature == sigs[j];
    }
  }

  method SurfaceAll(rules: Rules, obs: seq<Observation>) returns (cs: seq<Candidate>)
    ensures Surface(rules, obs, cs)
  {
    hide Surface, Group, Judge;
    var groups, sigs := GroupAll(obs);
    cs := [];
    for i := 0 to |sigs|
      invariant Judged(rules, obs, sigs, i, cs)
    {
      assert sigs[i] in groups;
      cs := cs + [Judge(rules, sigs[i], groups[sigs[i]])];
    }
    JudgedSurface(rules, obs, groups, sigs, cs);
  }

  // ---- triage -----------------------------------------------------------------------------

  function Triage(rules: Rules, marked: set<string>, c: Candidate): Triaged {
    var answer := if c.signature in rules.approvals then rules.approvals[c.signature] else Other;
    Triaged(c.signature,
            if c.signature in marked then Refused
            else if answer == Reject then Refused
            else if answer !in {Approve, Promote, Yes} then NeedsReview
            else Materialized)
  }

  function Pass(rules: Rules, marked: set<string>, cs: seq<Candidate>): (seq<Triaged>, set<string>) {
    if cs == [] then ([], marked)
    else
      var (ts, m) := Pass(rules, marked, cs[..|cs| - 1]);
      var c := cs[|cs| - 1];
      if c.gate != Surfaced then (ts, m)
      else
        var t := Triage(rules, m, c);
        (ts + [t], if t.verdict == Materialized then m + {t.signature} else m)
  }

  class SurfacedStore {
    var s: set<string>

    constructor ()
      ensures s == {}
    {
      s := {};
    }

    method Add(sig: string)
      modifies this
      ensures s == old(s) + {sig}
    {
      s := s + {sig};
    }
  }

  /** run_flywheel: one batch that threads its own markers. */
  method RunFlywheel(rules: Rules, obs: seq<Observation>) returns (cs: seq<Candidate>, ts: seq<Triaged>)
    ensures Surface(rules, obs, cs) && ts == Pass(rules, {}, cs).0
  {
    cs := SurfaceAll(rules, obs);
    ts := [];
    var marked: set<string> := {};
    for i := 0 to |cs|
      invariant (ts, marked) == Pass(rules, {}, cs[..i])
    {
      assert cs[..i + 1][..i] == cs[..i];
      if cs[i].gate == Surfaced {
        var t := Triage(rules, marked, cs[i]);
        if t.verdict == Materialized { marked := marked + {cs[i].signature}; }
        ts := ts + [t];
      }
    }
    assert cs[..|cs|] == cs;
  }

  class FlywheelDriver {
    const store: SurfacedStore

    constructor (store: SurfacedStore)
      ensures this.store == store
    {
      this.store := store;
    }

    /** run_flywheel_pass: the same over a store that outlives the pass. */
    method Tick(rules: Rules, obs: seq<Observation>) returns (cs: seq<Candidate>, ts: seq<Triaged>, s: Summary)
      modifies store
      ensures Surface(rules, obs, cs) && (ts, store.s) == Pass(rules, old(store.s), cs)
      ensures s.candidates == |cs| == s.surfaced + s.held
      ensures |ts| == s.surfaced == s.materialized + s.rejected + s.awaiting
    {
      cs := SurfaceAll(rules, obs);
      ts, s := [], Summary(0, 0, 0, 0, 0, 0);
      for i := 0 to |cs|
        invariant (ts, store.s) == Pass(rules, old(store.s), cs[..i])
        invariant s.candidates == i == s.surfaced + s.held && |ts| == s.surfaced == s.materialized + s.rejected + s.awaiting
      {
        assert cs[..i + 1][..i] == cs[..i];
        s := s.(candidates := s.candidates + 1);
        if cs[i].gate != Surfaced {
          s := s.(held := s.held + 1);
          continue;
        }
        var t := Triage(rules, store.s, cs[i]);
        ts := ts + [t];
        s := s.(surfaced := s.surfaced + 1);
        match t.verdict
        case Materialized =>
          store.Add(cs[i].signature);
          s := s.(materialized := s.materialized + 1);
        case Refused => s := s.(rejected := s.rejected + 1);
        case NeedsReview => s := s.(awaiting := s.awaiting + 1);
      }
      assert cs[..|cs|] == cs;
    }
  }

  datatype Summary = Summary(candidates: nat, surfaced: nat, held: nat, materialized: nat, rejected: nat, awaiting: nat)

  // ---- any run of ticks -------------------------------------------------------------------

  /** One night: the rules in force and the candidates the observations surface. */
  datatype Night = Night(rules: Rules, obs: seq<Observation>, cs: seq<Candidate>)

  function Made(ts: seq<Triaged>): seq<string> {
    if ts == [] then []
    else Made(ts[..|ts| - 1]) + (if ts[|ts| - 1].verdict == Materialized then [ts[|ts| - 1].signature] else [])
  }

  /** The markers after a run of nights, and every signature materialized, in order. */
  function Run(nights: seq<Night>): (set<string>, seq<string>) {
    if nights == [] then ({}, [])
    else
      var (m, made) := Run(nights[..|nights| - 1]);
      var n := nights[|nights| - 1];
      var (ts, m') := Pass(n.rules, m, n.cs);
      (m', made + Made(ts))
  }

  ghost predicate OnceEach(marked: set<string>, made: seq<string>) {
    NoRepeats(made) && forall s :: s in marked <==> s in made
  }

  lemma MadeSnoc(made: seq<string>, ts: seq<Triaged>, t: Triaged)
    ensures made + Made(ts + [t])
         == if t.verdict == Materialized then made + Made(ts) + [t.signature] else made + Made(ts)
  {
  }

  lemma TriageOnce(rules: Rules, m: set<string>, made: seq<string>, ts: seq<Triaged>, c: Candidate)
    requires OnceEach(m, made + Made(ts))
    ensures var t := Triage(rules, m, c);
            OnceEach(if t.verdict == Materialized then m + {t.signature} else m, made + Made(ts + [t]))
  {
    MadeSnoc(made, ts, Triage(rules, m, c));
  }

  lemma {:induction false} PassOnce(rules: Rules, marked: set<string>, made: seq<string>, cs: seq<Candidate>)
    requires OnceEach(marked, made)
    ensures OnceEach(Pass(rules, marked, cs).1, made + Made(Pass(rules, marked, cs).0))
    decreases |cs|
  {
    if cs == [] {
      assert made + [] == made;
    } else {
      var init := cs[..|cs| - 1];
      PassOnce(rules, marked, made, init);
      var (ts, m) := Pass(rules, marked, init);
      TriageOnce(rules, m, made, ts, cs[|cs| - 1]);
    }
  }

  /** Over any run of nights a signature materializes at most once, and the markers are exactly the signatures that
      did. */
  lemma {:induction false} MaterializesOnce(nights: seq<Night>)
    ensures OnceEach(Run(nights).0, Run(nights).1)
  {
    if nights == [] {
    } else {
      var n := nights[|nights| - 1];
      var (m, made) := Run(nights[..|nights| - 1]);
      MaterializesOnce(nights[..|nights| - 1]);
      PassOnce(n.rules, m, made, n.cs);
    }
  }

  // ---- what materializes is what earned it ---------------------------------------------------

  lemma TriageMakes(rules: Rules, m: set<string>, c: Candidate)
    ensures var t := Triage(rules, m, c);
            && t.signature == c.signature
            && (t.verdict == Materialized <==>
                c.signature !in m && c.signature in rules.approvals && rules.approvals[c.signature] in {Approve, Promote, Yes})
  {
  }

  ghost predicate SurfacedIn(cs: seq<Candidate>, sig: string) {
    exists i :: 0 <= i < |cs| && cs[i].signature == sig && cs[i].gate == Surfaced
  }

  lemma SurfacedSnoc(cs: seq<Candidate>, sig: string)
    requires cs != []
    ensures var n := |cs| - 1;
            SurfacedIn(cs, sig) <==> SurfacedIn(cs[..n], sig) || (cs[n].signature == sig && cs[n].gate == Surfaced)
  {
    if i :| 0 <= i < |cs| - 1 && cs[i].signature == sig && cs[i].gate == Surfaced { assert cs[..|cs| - 1][i] == cs[i]; }
  }

  /** Distinct signatures, this one not among them twice. */
  lemma SurfacedOnce(cs: seq<Candidate>)
    requires cs != [] && forall i, j :: 0 <= i < j < |cs| ==> cs[i].signature != cs[j].signature
    ensures !SurfacedIn(cs[..|cs| - 1], cs[|cs| - 1].signature)
  {
  }

  lemma {:induction false} PassMakes(rules: Rules, marked: set<string>, cs: seq<Candidate>, sig: string)
    requires forall i, j :: 0 <= i < j < |cs| ==> cs[i].signature != cs[j].signature
    ensures sig in Made(Pass(rules, marked, cs).0) <==>
            && sig !in marked
            && SurfacedIn(cs, sig)
            && sig in rules.approvals && rules.approvals[sig] in {Approve, Promote, Yes}
    ensures sig in Pass(rules, marked, cs).1 <==> sig in marked || sig in Made(Pass(rules, marked, cs).0)
  {
    hide Triage, SurfacedIn;
    SurfacedNowhere(sig);
    if cs == [] {
    } else {
      var c, init := cs[|cs| - 1], cs[..|cs| - 1];
      PassMakes(rules, marked, init, sig);
      var (ts, m) := Pass(rules, marked, init);
      SurfacedSnoc(cs, sig);
      SurfacedOnce(cs);
      MadeSnoc([], ts, Triage(rules, m, c));
      TriageMakes(rules, m, c);
    }
  }

  lemma SurfacedNowhere(sig: string)
    ensures !SurfacedIn([], sig)
  {
  }

  /** What a shape must show in a night: often enough, well enough, and its first seat not in the catalog yet. */
  predicate Shown(rules: Rules, obs: seq<Observation>, sig: string) {
    var g := Group(obs, sig);
    && g != [] && |g| >= rules.minOccurrences
    && Rate(rules.ties, g) as real >= 1000.0 * rules.floor && g[0].seat !in rules.existing
  }

  /** In a night exactly the shapes materialize that show it, are approved and are not marked yet. */
  lemma MaterializesExactly(n: Night, marked: set<string>, sig: string)
    requires Surface(n.rules, n.obs, n.cs)
    ensures sig in Made(Pass(n.rules, marked, n.cs).0) <==>
            && sig !in marked && Shown(n.rules, n.obs, sig)
            && sig in n.rules.approvals && n.rules.approvals[sig] in {Approve, Promote, Yes}
  {
    hide Less, Made, Pass;
    forall i, j | 0 <= i < j < |n.cs| ensures n.cs[i].signature != n.cs[j].signature {
      LessIrreflexive(n.cs[i].signature);
    }
    PassMakes(n.rules, marked, n.cs, sig);
    GroupHas(n.obs, sig);
    if Shown(n.rules, n.obs, sig) {
      var i :| 0 <= i < |n.obs| && Signature(n.obs[i]) == sig;
      var j :| 0 <= j < |n.cs| && n.cs[j].signature == sig;
      assert n.cs[j] == Judge(n.rules, sig, Group(n.obs, sig));
    }
  }
}

/** The Matrix application service: idempotent transactions, the loop guard and the replies
    (nc_channels/service.py, nc_channels/matrix_adapter.py). */
module AppService {
  import opened Wrappers
  import opened Approval

  // ---- events -----------------------------------------------------------------------------

  datatype Event = Event(
    kind: string, sender: string, eventId: string, room: string,
    msgtype: string, body: string, relates: bool,
    verdict: string, seat: string, proposalId: string, author: string)

  datatype Verdict = Verdict(proposalId: string, verdict: string, seat: string, author: string)

  datatype Raw = Raw(userId: string, text: string, msgId: string, conversationId: string)

  /** `matches` is the user namespace; `sink` says whether verdicts are forwarded. */
  datatype Registration = Registration(
    tenant: string, senderLocalpart: string, serverName: string, hmacKey: string, matches: string -> bool, sink: bool)

  function BeforeColon(s: string): string {
    if s == "" || s[0] == ':' then "" else [s[0]] + BeforeColon(s[1..])
  }

  predicate HasColon(s: string) {
    exists i :: 0 <= i < |s| && s[i] == ':'
  }

  /** The localpart of an mxid, empty if it is not one. */
  function LocalPart(sender: string): string {
    if sender != "" && sender[0] == '@' then BeforeColon(sender[1..]) else ""
  }

  /** A plain text message, not an edit, not from the service itself. */
  predicate IsRoutable(reg: Registration, e: Event) {
    e.kind == "m.room.message" && e.msgtype == "m.text" && !e.relates && LocalPart(e.sender) != reg.senderLocalpart
  }

  function VerdictFrom(e: Event): Option<Verdict> {
    if e.kind != "m.neop.verdict" || e.verdict !in {"approve", "reject"} || Blank(e.seat) then None
    else Some(Verdict(e.proposalId, e.verdict, e.seat, e.author))
  }

  /** The mapping to a gateway message; fails where the adapter raises. */
  function ToRaw(reg: Registration, e: Event): Option<Raw> {
    var malformed := e.sender == "" || e.sender[0] != '@' || !HasColon(e.sender) || LocalPart(e.sender) == "";
    if Blank(reg.tenant) || malformed || Blank(reg.hmacKey) then None
    else Some(Raw(reg.tenant + ":" + LocalPart(e.sender), e.body, e.eventId, e.room))
  }

  // ---- one transaction --------------------------------------------------------------------

  /** `sunk` lists the verdicts handed to the sink, including one whose forwarding then raised. */
  datatype Outcome = Outcome(processed: seq<Raw>, verdicts: seq<Verdict>, skipped: nat, sunk: seq<Verdict>, raised: bool)

  /** One event; `fails` says that the sink, if it is called for this event, raises this time. */
  function Take(reg: Registration, o: Outcome, e: Event, fails: bool): Outcome {
    if o.raised then o
    else
      match VerdictFrom(e)
      case Some(v) =>
        var sunk := if reg.sink then o.sunk + [v] else o.sunk;
        if reg.sink && fails then o.(sunk := sunk, raised := true)
        else o.(sunk := sunk, verdicts := o.verdicts + [v])
      case None =>
        if !IsRoutable(reg, e) || reg.matches(e.sender) then o.(skipped := o.skipped + 1)
        else if ToRaw(reg, e).None? then o.(raised := true)
        else o.(processed := o.processed + [ToRaw(reg, e).value])
  }

  const NOTHING := Outcome([], [], 0, [], false)

  /** A transaction's events in order, the sink raising at the positions in `fails`. */
  function Fold(reg: Registration, events: seq<Event>, fails: set<nat>): Outcome {
    if events == [] then NOTHING
    else
      var n := |events| - 1;
      Take(reg, Fold(reg, events[..n], fails), events[n], n in fails)
  }

  /** The two ways an event raises: its verdict's forwarding fails, or it is a message the adapter cannot map. */
  predicate Breaks(reg: Registration, e: Event, fails: bool) {
    if VerdictFrom(e).Some? then reg.sink && fails
    else IsRoutable(reg, e) && !reg.matches(e.sender) && ToRaw(reg, e).None?
  }

  lemma TakeRaises(reg: Registration, o: Outcome, e: Event, fails: bool)
    ensures Take(reg, o, e, fails).raised <==> o.raised || Breaks(reg, e, fails)
  {
  }

  /** A transaction raises exactly when one of its events does. */
  lemma {:induction false} RaisesExactly(reg: Registration, events: seq<Event>, fails: set<nat>)
    ensures Fold(reg, events, fails).raised <==> exists q :: 0 <= q < |events| && Breaks(reg, events[q], q in fails)
  {
    if events == [] {
    } else {
      hide Breaks;
      var n := |events| - 1;
      RaisesExactly(reg, events[..n], fails);
      TakeRaises(reg, Fold(reg, events[..n], fails), events[n], n in fails);
      assert forall q :: 0 <= q < n ==> events[..n][q] == events[q];
      if Fold(reg, events[..n], fails).raised {
        var q :| 0 <= q < n && Breaks(reg, events[..n][q], q in fails);
        assert Breaks(reg, events[q], q in fails);
      }
    }
  }

  /** A verdict is forwarded by event p, which no earlier event has kept from being looked at. */
  predicate Forwards(reg: Registration, events: seq<Event>, fails: set<nat>, p: nat)
    requires p < |events|
  {
    reg.sink && VerdictFrom(events[p]).Some? && forall q :: 0 <= q < p ==> !Breaks(reg, events[q], q in fails)
  }

  lemma TakeForwards(reg: Registration, o: Outcome, e: Event, fails: bool)
    ensures Take(reg, o, e, fails).sunk != [] <==> o.sunk != [] || (!o.raised && reg.sink && VerdictFrom(e).Some?)
  {
  }

  /** The sink is handed something exactly when a verdict stands at or before the first event that raises. */
  lemma {:induction false} ForwardsExactly(reg: Registration, events: seq<Event>, fails: set<nat>)
    ensures Fold(reg, events, fails).sunk != [] <==> exists p :: 0 <= p < |events| && Forwards(reg, events, fails, p)
  {
    if events == [] {
    } else {
      var n := |events| - 1;
      ForwardsExactly(reg, events[..n], fails);
      RaisesExactly(reg, events[..n], fails);
      TakeForwards(reg, Fold(reg, events[..n], fails), events[n], n in fails);
      hide Breaks, Take;
      assert forall q :: 0 <= q < n ==> events[..n][q] == events[q];
      forall p | 0 <= p < n ensures Forwards(reg, events[..n], fails, p) == Forwards(reg, events, fails, p) {
      }
      if p :| 0 <= p < n && Forwards(reg, events[..n], fails, p) { assert Forwards(reg, events, fails, p); }
      if p :| 0 <= p < |events| && Forwards(reg, events, fails, p) {
        if p < n { assert Forwards(reg, events[..n], fails, p); }
      }
      if !Fold(reg, events[..n], fails).raised && reg.sink && VerdictFrom(events[n]).Some? {
        assert Forwards(reg, events, fails, n);
      }
    }
  }

  /** Nothing in a transaction that goes through is lost or counted twice. */
  lemma {:induction false} EveryEventCounted(reg: Registration, events: seq<Event>, fails: set<nat>)
    ensures var o := Fold(reg, events, fails);
            !o.raised ==> |o.processed| + |o.verdicts| + o.skipped == |events|
                          && o.sunk == (if reg.sink then o.verdicts else [])
  {
    if events == [] {
    } else {
      EveryEventCounted(reg, events[..|events| - 1], fails);
    }
  }

  // ---- what a handled transaction carries ---------------------------------------------------

  /** The sender is `@local`, or `@local:` and a server; the empty localpart stands for any other sender. */
  predicate FromLocal(sender: string, local: string) {
    if sender == "" || sender[0] != '@' then local == ""
    else !HasColon(local) && local <= sender[1..] && (|sender| > |local| + 1 ==> sender[|local| + 1] == ':')
  }

  lemma ColonBehind(s: string)
    requires s != "" && s[0] != ':'
    ensures HasColon(s) <==> HasColon(s[1..])
  {
    if i :| 0 <= i < |s| && s[i] == ':' { assert s[1..][i - 1] == ':'; }
    if i :| 0 <= i < |s[1..]| && s[1..][i] == ':' { assert s[i + 1] == ':'; }
  }

  lemma {:induction false} BeforeColonExactly(s: string, local: string)
    ensures BeforeColon(s) == local <==> !HasColon(local) && local <= s && (|s| > |local| ==> s[|local|] == ':')
  {
    if s == "" || s[0] == ':' {
      if local != "" && local <= s { assert local[0] == ':'; }
    } else if local != "" {
      BeforeColonExactly(s[1..], local[1..]);
      if local[0] == s[0] {
        ColonBehind(local);
        assert local == [s[0]] + local[1..];
        assert local <= s <==> local[1..] <= s[1..];
      }
    }
  }

  lemma LocalPartExactly(sender: string, local: string)
    ensures LocalPart(sender) == local <==> FromLocal(sender, local)
  {
    if sender != "" { BeforeColonExactly(sender[1..], local); }
  }

  /** A verdict a person gives on a proposal: approve or reject, at some seat. */
  predicate GivesVerdict(e: Event) {
    e.kind == "m.neop.verdict" && (e.verdict == "approve" || e.verdict == "reject") && !Blank(e.seat)
  }

  /** A plain text message, not an edit, of somebody else than the service, outside the namespace. */
  predicate Speaks(reg: Registration, e: Event) {
    && e.kind == "m.room.message" && e.msgtype == "m.text" && !e.relates
    && !FromLocal(e.sender, reg.senderLocalpart) && !reg.matches(e.sender)
  }

  /** These are the verdicts of exactly the events that give one, in order, each with that event's own words. */
  ghost predicate VerdictsOf(events: seq<Event>, verdicts: seq<Verdict>, at: seq<nat>) {
    && |at| == |verdicts| && (forall i, j :: 0 <= i < j < |at| ==> at[i] < at[j])
    && (forall p: nat :: p in at <==> p < |events| && GivesVerdict(events[p]))
    && (forall k :: 0 <= k < |at| && at[k] < |events| ==>
          var e := events[at[k]]; verdicts[k] == Verdict(e.proposalId, e.verdict, e.seat, e.author))
  }

  /** The message as the gateway gets it: the person under the service's tenant, and the event's own words. */
  ghost predicate Conveys(reg: Registration, e: Event, raw: Raw) {
    && raw.text == e.body && raw.msgId == e.eventId && raw.conversationId == e.room
    && exists local :: local != "" && FromLocal(e.sender, local) && raw.userId == reg.tenant + ":" + local
  }

  /** These are the messages of exactly the events that speak, in order. */
  ghost predicate MessagesOf(reg: Registration, events: seq<Event>, raws: seq<Raw>, at: seq<nat>) {
    && |at| == |raws| && (forall i, j :: 0 <= i < j < |at| ==> at[i] < at[j])
    && (forall p: nat :: p in at <==> p < |events| && Speaks(reg, events[p]))
    && (forall k :: 0 <= k < |at| && at[k] < |events| ==> Conveys(reg, events[at[k]], raws[k]))
  }

  /** A sender the adapter can map: `@local:server`, the localpart not empty. */
  predicate IsMxid(sender: string) {
    exists i :: 1 < i < |sender| && sender[i] == ':' && sender[0] == '@' && sender[1] != ':'
  }

  lemma {:induction false} NoColonLeft(s: string)
    ensures BeforeColon(s) == "" <==> s == "" || s[0] == ':'
  {
  }

  /** A message cannot be mapped exactly when tenant or key is blank or its sender is no mxid. */
  lemma UnmappableExactly(reg: Registration, e: Event)
    ensures ToRaw(reg, e).None? <==> Blank(reg.tenant) || Blank(reg.hmacKey) || !IsMxid(e.sender)
  {
    var s := e.sender;
    if s != "" {
      NoColonLeft(s[1..]);
      if i :| 0 <= i < |s| && s[i] == ':' {
        assert s[0] == '@' && |s| > 1 && s[1] != ':' ==> 1 < i;
      }
    }
    hide Blank, BeforeColon;
  }

  lemma TakeCarries(reg: Registration, o: Outcome, e: Event, fails: bool)
    requires !Take(reg, o, e, fails).raised
    ensures var o' := Take(reg, o, e, fails);
            && o'.verdicts == o.verdicts + (if GivesVerdict(e) then [Verdict(e.proposalId, e.verdict, e.seat, e.author)] else [])
            && (!Speaks(reg, e) ==> o'.processed == o.processed)
            && (Speaks(reg, e) ==> exists raw :: Conveys(reg, e, raw) && o'.processed == o.processed + [raw])
  {
    hide Blank, BeforeColon, HasColon;
    LocalPartExactly(e.sender, reg.senderLocalpart);
    LocalPartExactly(e.sender, LocalPart(e.sender));
    assert o.verdicts + [] == o.verdicts;
    if Speaks(reg, e) { assert Conveys(reg, e, ToRaw(reg, e).value); }
  }

  lemma VerdictsSnoc(events: seq<Event>, e: Event, verdicts: seq<Verdict>, at: seq<nat>)
    requires VerdictsOf(events, verdicts, at)
    ensures if GivesVerdict(e)
            then VerdictsOf(events + [e], verdicts + [Verdict(e.proposalId, e.verdict, e.seat, e.author)], at + [|events|])
            else VerdictsOf(events + [e], verdicts, at)
  {
    hide GivesVerdict;
    assert forall i :: 0 <= i < |at| ==> at[i] in at;
  }

  lemma MessagesSnoc(reg: Registration, events: seq<Event>, e: Event, raws: seq<Raw>, at: seq<nat>, raw: Raw)
    requires MessagesOf(reg, events, raws, at) && (Speaks(reg, e) ==> Conveys(reg, e, raw))
    ensures if Speaks(reg, e) then MessagesOf(reg, events + [e], raws + [raw], at + [|events|])
            else MessagesOf(reg, events + [e], raws, at)
  {
    hide Speaks, Conveys;
    assert forall i :: 0 <= i < |at| ==> at[i] in at;
  }

  /** A transaction that goes through hands on exactly the verdicts its events give and exactly the messages they speak,
      in order, word for word, and under the sender's own name. */
  lemma {:induction false} CarriedExactly(reg: Registration, events: seq<Event>, fails: set<nat>)
    returns (verdictsAt: seq<nat>, messagesAt: seq<nat>)
    requires !Fold(reg, events, fails).raised
    ensures VerdictsOf(events, Fold(reg, events, fails).verdicts, verdictsAt)
    ensures MessagesOf(reg, events, Fold(reg, events, fails).processed, messagesAt)
  {
    hide VerdictsOf, MessagesOf, Take, Conveys, Speaks, GivesVerdict;
    if events == [] {
      verdictsAt, messagesAt := [], [];
      NothingCarried(reg);
    } else {
      var n := |events| - 1;
      var e, o := events[n], Fold(reg, events[..n], fails);
      TakeRaises(reg, o, e, n in fails);
      TakeCarries(reg, o, e, n in fails);
      verdictsAt, messagesAt := CarriedExactly(reg, events[..n], fails);
      var raws := Fold(reg, events, fails).processed;
      VerdictsSnoc(events[..n], e, o.verdicts, verdictsAt);
      assert events[..n] + [e] == events && o.verdicts + [] == o.verdicts;
      if GivesVerdict(e) { verdictsAt := verdictsAt + [n]; }
      if Speaks(reg, e) {
        var raw :| Conveys(reg, e, raw) && raws == o.processed + [raw];
        MessagesSnoc(reg, events[..n], e, o.processed, messagesAt, raw);
        messagesAt := messagesAt + [n];
      } else {
        MessagesSnoc(reg, events[..n], e, o.processed, messagesAt, Raw("", "", "", ""));
      }
    }
  }

  lemma NothingCarried(reg: Registration)
    ensures VerdictsOf([], [], []) && MessagesOf(reg, [], [], [])
  {
  }

  /** A transaction that goes through gives the same whichever sink failures earlier attempts met. */
  lemma {:induction false} SinkIrrelevant(reg: Registration, events: seq<Event>, fails: set<nat>)
    ensures !Fold(reg, events, fails).raised ==> Fold(reg, events, fails) == Fold(reg, events, {})
  {
    if events == [] {
    } else {
      SinkIrrelevant(reg, events[..|events| - 1], fails);
    }
  }

  datatype TransactionResult = Handled(processed: seq<Raw>, verdicts: seq<Verdict>, skipped: nat, deduped: bool)

  class ASService {
    const reg: Registration
    var seen: set<string>
    ghost var sunk: seq<Verdict>

    constructor (reg: Registration)
      ensures this.reg == reg && seen == {} && sunk == []
    {
      this.reg := reg;
      seen, sunk := {}, [];
    }

    /** None where the source raises; then the transaction is not marked, though its verdicts so far have gone out. */
    method ProcessTransaction(txn: string, events: seq<Event>, fails: set<nat>) returns (r: Option<TransactionResult>)
      modifies this
      ensures txn in old(seen) ==> r == Some(Handled([], [], 0, true)) && seen == old(seen) && sunk == old(sunk)
      ensures txn !in old(seen) ==>
                var o := Fold(reg, events, fails);
                && sunk == old(sunk) + o.sunk
                && seen == (if o.raised then old(seen) else old(seen) + {txn})
                && r == if o.raised then None else Some(Handled(o.processed, o.verdicts, o.skipped, false))
    {
      hide VerdictFrom, IsRoutable, ToRaw;
      if txn in seen { return Some(Handled([], [], 0, true)); }
      var processed: seq<Raw>, verdicts: seq<Verdict>, skipped := [], [], 0;
      ghost var start := sunk;
      for i := 0 to |events|
        invariant seen == old(seen) && start == old(sunk) && start <= sunk
        invariant Fold(reg, events[..i], fails) == Outcome(processed, verdicts, skipped, sunk[|start|..], false)
      {
        var e := events[i];
        FoldSticks(reg, events, fails, i + 1);
        assert events[..i + 1][..i] == events[..i];
        var verdict := VerdictFrom(e);
        if verdict.Some? {
          if reg.sink {
            sunk := sunk + [verdict.value];
            if i in fails { return None; }
          }
          verdicts := verdicts + [verdict.value];
          continue;
        }
        if !IsRoutable(reg, e) || reg.matches(e.sender) {
          skipped := skipped + 1;
          continue;
        }
        var raw := ToRaw(reg, e);
        if raw.None? { return None; }
        processed := processed + [raw.value];
      }
      assert events[..|events|] == events;
      seen := seen + {txn};
      r := Some(Handled(processed, verdicts, skipped, false));
    }
  }

  /** Once an event has raised, the rest of the transaction is not looked at. */
  lemma {:induction false} FoldSticks(reg: Registration, events: seq<Event>, fails: set<nat>, i: nat)
    requires i <= |events|
    ensures Fold(reg, events[..i], fails).raised ==> Fold(reg, events, fails) == Fold(reg, events[..i], fails)
    decreases |events|
  {
    if i == |events| {
      assert events[..i] == events;
    } else {
      var n := |events| - 1;
      assert events[..n][..i] == events[..i];
      FoldSticks(reg, events[..n], fails, i);
    }
  }

  // ---- schedules of deliveries ------------------------------------------------------------

  /** One PUT of a transaction; the homeserver repeats it until it gets an answer. The sink raises, in this delivery,
      at the positions in `fails`. */
  datatype Delivery = Delivery(txn: string, events: seq<Event>, fails: set<nat>)

  function OutcomeOf(reg: Registration, d: Delivery): Outcome {
    Fold(reg, d.events, d.fails)
  }

  /** No event of this delivery raises. */
  predicate GoesThrough(reg: Registration, d: Delivery) {
    forall q :: 0 <= q < |d.events| ==> !Breaks(reg, d.events[q], q in d.fails)
  }

  lemma GoesThroughExactly(reg: Registration, d: Delivery)
    ensures GoesThrough(reg, d) <==> !OutcomeOf(reg, d).raised
  {
    RaisesExactly(reg, d.events, d.fails);
  }

  datatype Service = Service(seen: set<string>, handled: seq<Raw>, sunk: seq<Verdict>)

  const IDLE := Service({}, [], [])

  function Deliver(reg: Registration, s: Service, d: Delivery): Service {
    if d.txn in s.seen then s
    else
      var o := OutcomeOf(reg, d);
      if o.raised then s.(sunk := s.sunk + o.sunk)
      else Service(s.seen + {d.txn}, s.handled + o.processed, s.sunk + o.sunk)
  }

  function DeliverAll(reg: Registration, ds: seq<Delivery>): Service {
    if ds == [] then IDLE else Deliver(reg, DeliverAll(reg, ds[..|ds| - 1]), ds[|ds| - 1])
  }

  /** No earlier delivery of this transaction went through. */
  predicate Open(reg: Registration, ds: seq<Delivery>, i: nat)
    requires i < |ds|
  {
    forall j :: 0 <= j < i && ds[j].txn == ds[i].txn ==> !GoesThrough(reg, ds[j])
  }

  /** For each transaction its first delivery that goes through, in order. */
  function Taken(reg: Registration, ds: seq<Delivery>): seq<Delivery> {
    if ds == [] then []
    else
      var n := |ds| - 1;
      Taken(reg, ds[..n]) + (if Open(reg, ds, n) && GoesThrough(reg, ds[n]) then [ds[n]] else [])
  }

  function Messages(reg: Registration, ds: seq<Delivery>): seq<Raw> {
    if ds == [] then [] else Messages(reg, ds[..|ds| - 1]) + OutcomeOf(reg, ds[|ds| - 1]).processed
  }

  function Verdicts(reg: Registration, ds: seq<Delivery>): seq<Verdict> {
    if ds == [] then [] else Verdicts(reg, ds[..|ds| - 1]) + OutcomeOf(reg, ds[|ds| - 1]).sunk
  }

  /** The deliveries up to and including the first that goes through, of every transaction. */
  function Attempts(reg: Registration, ds: seq<Delivery>): seq<Delivery> {
    if ds == [] then []
    else
      var n := |ds| - 1;
      Attempts(reg, ds[..n]) + (if Open(reg, ds, n) then [ds[n]] else [])
  }

  /** Verdicts handed over by attempts that then raised. */
  function Wasted(reg: Registration, ds: seq<Delivery>): nat {
    if ds == [] then 0
    else
      var n := |ds| - 1;
      var o := OutcomeOf(reg, ds[n]);
      Wasted(reg, ds[..n]) + (if Open(reg, ds, n) && o.raised then |o.sunk| else 0)
  }

  lemma SeenStep(reg: Registration, ds: seq<Delivery>, txn: string)
    requires ds != []
    ensures var n := |ds| - 1;
            txn in DeliverAll(reg, ds).seen <==>
            txn in DeliverAll(reg, ds[..n]).seen || (ds[n].txn == txn && GoesThrough(reg, ds[n]))
  {
    GoesThroughExactly(reg, ds[|ds| - 1]);
    hide GoesThrough, Fold;
  }

  lemma {:induction false} SeenExactly(reg: Registration, ds: seq<Delivery>, txn: string)
    ensures txn in DeliverAll(reg, ds).seen <==>
            exists i :: 0 <= i < |ds| && ds[i].txn == txn && GoesThrough(reg, ds[i])
  {
    if ds == [] {
    } else {
      var n := |ds| - 1;
      SeenExactly(reg, ds[..n], txn);
      SeenStep(reg, ds, txn);
      hide GoesThrough, DeliverAll;
      if i :| 0 <= i < n && ds[..n][i].txn == txn && GoesThrough(reg, ds[..n][i]) { assert ds[..n][i] == ds[i]; }
      if i :| 0 <= i < |ds| && ds[i].txn == txn && GoesThrough(reg, ds[i]) {
        if i < n { assert ds[..n][i] == ds[i]; }
      }
    }
  }

  /** A delivery is looked at exactly when no earlier one of its transaction went through. */
  lemma OpenExactly(reg: Registration, ds: seq<Delivery>)
    requires ds != []
    ensures var n := |ds| - 1; Open(reg, ds, n) <==> ds[n].txn !in DeliverAll(reg, ds[..n]).seen
  {
    var n := |ds| - 1;
    SeenExactly(reg, ds[..n], ds[n].txn);
    hide GoesThrough;
    assert forall i :: 0 <= i < n ==> ds[..n][i] == ds[i];
  }

  lemma SnocDeliveries(reg: Registration, ds: seq<Delivery>, d: Delivery)
    ensures Messages(reg, ds + [d]) == Messages(reg, ds) + OutcomeOf(reg, d).processed
    ensures Verdicts(reg, ds + [d]) == Verdicts(reg, ds) + OutcomeOf(reg, d).sunk
  {
    assert (ds + [d])[..|ds|] == ds;
  }

  /** Whatever the redeliveries and whenever the sink fails, the messages handled are those of the transactions in
      the order of their first delivery that goes through. */
  lemma {:induction false} MessagesExactlyOnce(reg: Registration, ds: seq<Delivery>)
    ensures DeliverAll(reg, ds).handled == Messages(reg, Taken(reg, ds))
  {
    if ds == [] {
    } else {
      var n := |ds| - 1;
      MessagesExactlyOnce(reg, ds[..n]);
      OpenExactly(reg, ds);
      GoesThroughExactly(reg, ds[n]);
      hide Open, Fold, GoesThrough;
      var before := Taken(reg, ds[..n]);
      SnocDeliveries(reg, before, ds[n]);
      assert before + [] == before;
    }
  }

  function Txns(ds: seq<Delivery>): set<string> {
    if ds == [] then {} else Txns(ds[..|ds| - 1]) + {ds[|ds| - 1].txn}
  }

  lemma {:induction false} TxnOf(ds: seq<Delivery>, i: nat)
    requires i < |ds|
    ensures ds[i].txn in Txns(ds)
  {
    if i == |ds| - 1 {
    } else {
      TxnOf(ds[..|ds| - 1], i);
    }
  }

  /** That list has every transaction that ever goes through, and each once; these are the ones marked as seen. */
  lemma {:induction false} TakenOnce(reg: Registration, ds: seq<Delivery>)
    ensures var taken := Taken(reg, ds);
            && Txns(taken) == DeliverAll(reg, ds).seen
            && forall i, j :: 0 <= i < j < |taken| ==> taken[i].txn != taken[j].txn
  {
    if ds == [] {
    } else {
      var n := |ds| - 1;
      var before := Taken(reg, ds[..n]);
      TakenOnce(reg, ds[..n]);
      OpenExactly(reg, ds);
      GoesThroughExactly(reg, ds[n]);
      hide OutcomeOf, Open, GoesThrough;
      forall i | 0 <= i < |before| ensures before[i].txn in Txns(before) { TxnOf(before, i); }
      assert before + [] == before && (before + [ds[n]])[..|before|] == before;
    }
  }

  /** The sink is handed the verdicts of every attempt: of each transaction's deliveries up to the first that goes
      through. */
  lemma {:induction false} VerdictCount(reg: Registration, ds: seq<Delivery>)
    ensures DeliverAll(reg, ds).sunk == Verdicts(reg, Attempts(reg, ds))
  {
    if ds == [] {
    } else {
      var n := |ds| - 1;
      VerdictCount(reg, ds[..n]);
      OpenExactly(reg, ds);
      GoesThroughExactly(reg, ds[n]);
      hide Open, Fold, GoesThrough;
      var before := Attempts(reg, ds[..n]);
      SnocDeliveries(reg, before, ds[n]);
      assert before + [] == before;
    }
  }

  lemma {:induction false} SunkSplits(reg: Registration, ds: seq<Delivery>)
    ensures |DeliverAll(reg, ds).sunk| == |Verdicts(reg, Taken(reg, ds))| + Wasted(reg, ds)
    ensures Wasted(reg, ds) == 0 ==> DeliverAll(reg, ds).sunk == Verdicts(reg, Taken(reg, ds))
  {
    if ds == [] {
    } else {
      var n := |ds| - 1;
      SunkSplits(reg, ds[..n]);
      OpenExactly(reg, ds);
      GoesThroughExactly(reg, ds[n]);
      hide Open, Fold, GoesThrough;
      var before := Taken(reg, ds[..n]);
      SnocDeliveries(reg, before, ds[n]);
      assert before + [] == before;
    }
  }

  /** An attempt that raises, with a verdict at or before the event that does. */
  predicate Wasteful(reg: Registration, ds: seq<Delivery>, i: nat)
    requires i < |ds|
  {
    var d := ds[i];
    Open(reg, ds, i) && !GoesThrough(reg, d) && exists p :: 0 <= p < |d.events| && Forwards(reg, d.events, d.fails, p)
  }

  lemma WastefulExactly(reg: Registration, ds: seq<Delivery>, i: nat)
    requires i < |ds|
    ensures Wasteful(reg, ds, i) <==> Open(reg, ds, i) && OutcomeOf(reg, ds[i]).raised && OutcomeOf(reg, ds[i]).sunk != []
  {
    GoesThroughExactly(reg, ds[i]);
    ForwardsExactly(reg, ds[i].events, ds[i].fails);
  }

  lemma {:induction false} WastedZero(reg: Registration, ds: seq<Delivery>)
    ensures Wasted(reg, ds) == 0 <==> forall i :: 0 <= i < |ds| ==> !Wasteful(reg, ds, i)
  {
    if ds == [] {
    } else {
      var n := |ds| - 1;
      WastedZero(reg, ds[..n]);
      WastedStep(reg, ds);
      hide Wasteful, OutcomeOf;
      forall i | 0 <= i < n ensures Wasteful(reg, ds[..n], i) == Wasteful(reg, ds, i) { WastefulPrefix(reg, ds, n, i); }
    }
  }

  lemma WastedStep(reg: Registration, ds: seq<Delivery>)
    requires ds != []
    ensures Wasted(reg, ds) == 0 <==> Wasted(reg, ds[..|ds| - 1]) == 0 && !Wasteful(reg, ds, |ds| - 1)
  {
    WastefulExactly(reg, ds, |ds| - 1);
    hide Wasteful;
  }

  lemma WastefulPrefix(reg: Registration, ds: seq<Delivery>, n: nat, i: nat)
    requires i < n <= |ds|
    ensures Wasteful(reg, ds[..n], i) == Wasteful(reg, ds, i)
  {
    hide GoesThrough, Forwards;
    assert forall j :: 0 <= j <= i ==> ds[..n][j] == ds[j];
  }

  /** The sink gets exactly the verdicts of the transactions that go through, once each and in order, iff no attempt
      that raises has handed one over. */
  lemma VerdictsExactlyOnce(reg: Registration, ds: seq<Delivery>)
    ensures DeliverAll(reg, ds).sunk == Verdicts(reg, Taken(reg, ds)) <==>
            forall i :: 0 <= i < |ds| ==> !Wasteful(reg, ds, i)
  {
    SunkSplits(reg, ds);
    WastedZero(reg, ds);
  }

  // ---- when nothing raises ------------------------------------------------------------------

  predicate Repeats(ds: seq<Delivery>, i: nat)
    requires i < |ds|
  {
    exists j :: 0 <= j < i && ds[j].txn == ds[i].txn
  }

  /** The first delivery of each transaction id, in order. */
  function Firsts(ds: seq<Delivery>): seq<Delivery> {
    if ds == [] then []
    else
      var n := |ds| - 1;
      Firsts(ds[..n]) + (if Repeats(ds, n) then [] else [ds[n]])
  }

  lemma {:induction false} TakenFirsts(reg: Registration, ds: seq<Delivery>)
    requires forall d :: d in ds ==> GoesThrough(reg, d)
    ensures Taken(reg, ds) == Firsts(ds)
  {
    hide GoesThrough;
    if ds == [] {
    } else {
      var n := |ds| - 1;
      forall d | d in ds[..n] ensures GoesThrough(reg, d) { assert d in ds; }
      TakenFirsts(reg, ds[..n]);
      assert Open(reg, ds, n) <==> !Repeats(ds, n);
    }
  }

  /** If no delivery raises, messages and verdicts are those of the distinct transactions in first-delivery order. */
  lemma NothingRaised(reg: Registration, ds: seq<Delivery>)
    requires forall d :: d in ds ==> GoesThrough(reg, d)
    ensures var s := DeliverAll(reg, ds); s.handled == Messages(reg, Firsts(ds)) && s.sunk == Verdicts(reg, Firsts(ds))
  {
    hide DeliverAll, Verdicts, Messages, Open, GoesThrough;
    TakenFirsts(reg, ds);
    MessagesExactlyOnce(reg, ds);
    VerdictsExactlyOnce(reg, ds);
    forall i | 0 <= i < |ds| ensures !Wasteful(reg, ds, i) { assert GoesThrough(reg, ds[i]); }
  }

  // ---- replies and the loop guard ---------------------------------------------------------

  function Mxid(localpart: string, server: string): string {
    "@" + localpart + ":" + server
  }

  /** Who a reply appears to come from; None where reply_send raises, the puppet being outside the namespace. */
  function ReplySender(reg: Registration, puppet: string): Option<string> {
    if puppet == "" then Some(Mxid(reg.senderLocalpart, reg.serverName))
    else
      var mxid := Mxid(puppet, reg.serverName);
      if reg.matches(mxid) then Some(mxid) else None
  }

  lemma {:induction false} ColonEnds(s: string, rest: string)
    ensures BeforeColon(s + ":" + rest) == BeforeColon(s)
    ensures BeforeColon(s) == s <==> !HasColon(s)
  {
    if s == "" {
      assert (s + ":" + rest)[0] == ':';
    } else {
      var t := s + ":" + rest;
      assert t[0] == s[0] && t[1..] == s[1..] + ":" + rest;
      ColonEnds(s[1..], rest);
      if HasColon(s[1..]) {
        var i :| 0 <= i < |s[1..]| && s[1..][i] == ':';
        assert s[i + 1] == ':';
      }
      if HasColon(s) {
        var i :| 0 <= i < |s| && s[i] == ':';
        if i > 0 { assert s[1..][i - 1] == ':'; }
      }
      BeforeColonShort(s);
      BeforeColonShort(s[1..]);
      assert s == [s[0]] + s[1..];
    }
  }

  lemma {:induction false} BeforeColonShort(s: string)
    ensures |BeforeColon(s)| <= |s|
  {
    if s == "" {
    } else {
      BeforeColonShort(s[1..]);
    }
  }

  /** An echo of the service's own reply as a text message. */
  predicate IsEcho(reg: Registration, puppet: string, e: Event) {
    ReplySender(reg, puppet) == Some(e.sender) && e.kind == "m.room.message" && e.msgtype == "m.text" && !e.relates
  }

  predicate Guarded(reg: Registration) {
    !HasColon(reg.senderLocalpart) || reg.matches(Mxid(reg.senderLocalpart, reg.serverName))
  }

  /** The guard skips every echo, whichever puppet sent it, exactly when the service's own localpart has no colon
      (or its mxid lies in the namespace). */
  lemma EchoSkippedExactly(reg: Registration)
    ensures (forall puppet, e :: IsEcho(reg, puppet, e) ==> !IsRoutable(reg, e) || reg.matches(e.sender)) <==> Guarded(reg)
  {
    var own := Mxid(reg.senderLocalpart, reg.serverName);
    assert own[1..] == reg.senderLocalpart + ":" + reg.serverName;
    ColonEnds(reg.senderLocalpart, reg.serverName);
    var e := Event("m.room.message", own, "", "", "m.text", "", false, "", "", "", "");
    assert IsEcho(reg, "", e);
  }

  /** What became of a send: the homeserver may take a message and the answer still be lost. */
  datatype Send = Acknowledged | Refused | AnswerLost

  /** The messages that reach the room for one handled message: the reply, and the apology if the reply raised. */
  function RepliesTo(reg: Registration, puppet: string, reply: Send, apology: Send): nat {
    if ReplySender(reg, puppet).None? then 0
    else if reply == Acknowledged then 1
    else (if reply == AnswerLost then 1 else 0) + (if apology == Refused then 0 else 1)
  }

  /** The homeserver's behaviour: for each handled message, the puppet of its room and the fate of its two sends. */
  datatype Fate = Fate(puppet: string, reply: Send, apology: Send)

  function Replies(reg: Registration, fates: seq<Fate>): nat {
    if fates == [] then 0
    else
      var f := fates[|fates| - 1];
      Replies(reg, fates[..|fates| - 1]) + RepliesTo(reg, f.puppet, f.reply, f.apology)
  }

  function LostAnswers(fates: seq<Fate>): nat {
    if fates == [] then 0
    else LostAnswers(fates[..|fates| - 1]) + (if fates[|fates| - 1].reply == AnswerLost then 1 else 0)
  }

  lemma {:induction false} RepliesBounded(reg: Registration, fates: seq<Fate>)
    ensures Replies(reg, fates) <= |fates| + LostAnswers(fates)
  {
    if fates == [] {
    } else {
      RepliesBounded(reg, fates[..|fates| - 1]);
    }
  }

  /** Of all handled messages whose reply has a sender: those the room hears of, and those it hears of twice. */
  function Heard(reg: Registration, fates: seq<Fate>): nat {
    if fates == [] then 0
    else
      var f := fates[|fates| - 1];
      Heard(reg, fates[..|fates| - 1])
      + (if ReplySender(reg, f.puppet).Some? && !(f.reply == Refused && f.apology == Refused) then 1 else 0)
  }

  function HeardTwice(reg: Registration, fates: seq<Fate>): nat {
    if fates == [] then 0
    else
      var f := fates[|fates| - 1];
      HeardTwice(reg, fates[..|fates| - 1])
      + (if ReplySender(reg, f.puppet).Some? && f.reply == AnswerLost && f.apology != Refused then 1 else 0)
  }

  /** Every handled message is answered unless the puppet is outside the namespace or both sends are refused, and
      answered twice exactly when the reply arrived, its acknowledgment did not, and the apology arrived too. */
  lemma {:induction false} RepliesExactly(reg: Registration, fates: seq<Fate>)
    ensures Replies(reg, fates) == Heard(reg, fates) + HeardTwice(reg, fates)
  {
    if fates == [] {
    } else {
      RepliesExactly(reg, fates[..|fates| - 1]);
    }
  }

  /** A message a person sent, as opposed to an echo. */
  predicate IsHuman(reg: Registration, e: Event) {
    IsRoutable(reg, e) && !reg.matches(e.sender) && e.sender != Mxid(reg.senderLocalpart, reg.serverName)
  }

  function Humans(reg: Registration, events: seq<Event>): nat {
    if events == [] then 0
    else Humans(reg, events[..|events| - 1]) + (if IsHuman(reg, events[|events| - 1]) then 1 else 0)
  }

  function HumansIn(reg: Registration, ds: seq<Delivery>): nat {
    if ds == [] then 0 else HumansIn(reg, ds[..|ds| - 1]) + Humans(reg, ds[|ds| - 1].events)
  }

  /** An own message that gets past the guard would be no own message. */
  lemma PassedIsHuman(reg: Registration, e: Event)
    requires Guarded(reg) && IsRoutable(reg, e) && !reg.matches(e.sender)
    ensures IsHuman(reg, e)
  {
    ColonEnds(reg.senderLocalpart, reg.serverName);
    var own := Mxid(reg.senderLocalpart, reg.serverName);
    assert own[1..] == reg.senderLocalpart + ":" + reg.serverName;
  }

  lemma {:induction false} ProcessedAreHuman(reg: Registration, events: seq<Event>, fails: set<nat>)
    requires Guarded(reg)
    ensures |Fold(reg, events, fails).processed| <= Humans(reg, events)
  {
    if events == [] {
    } else {
      var e := events[|events| - 1];
      ProcessedAreHuman(reg, events[..|events| - 1], fails);
      if IsRoutable(reg, e) && !reg.matches(e.sender) { PassedIsHuman(reg, e); }
      hide IsRoutable, IsHuman, Guarded, VerdictFrom, ToRaw;
    }
  }

  lemma {:induction false} MessagesAreHuman(reg: Registration, ds: seq<Delivery>)
    requires Guarded(reg)
    ensures |Messages(reg, ds)| <= HumansIn(reg, ds)
  {
    if ds == [] {
    } else {
      MessagesAreHuman(reg, ds[..|ds| - 1]);
      ProcessedAreHuman(reg, ds[|ds| - 1].events, ds[|ds| - 1].fails);
    }
  }

  /** No loop: however often the homeserver redelivers, whenever the sink fails, and however much of what is delivered
      are echoes of earlier replies, the replies do not exceed the people's messages of the distinct transactions,
      except by one for each reply whose acknowledgment was lost. */
  lemma NoReplyLoop(reg: Registration, ds: seq<Delivery>, fates: seq<Fate>)
    requires Guarded(reg)
    requires |fates| == |DeliverAll(reg, ds).handled|
    ensures Replies(reg, fates) <= HumansIn(reg, Taken(reg, ds)) + LostAnswers(fates)
  {
    MessagesExactlyOnce(reg, ds);
    MessagesAreHuman(reg, Taken(reg, ds));
    RepliesBounded(reg, fates);
  }

  // ---- where exactly-once and first-delivery order fail ---------------------------------------

  lemma TwoDeliveries(reg: Registration, c: Delivery, d: Delivery)
    ensures DeliverAll(reg, [c, d]) == Deliver(reg, Deliver(reg, IDLE, c), d)
  {
    assert [c, d][..1] == [c] && [c][..0] == [];
    assert DeliverAll(reg, [c]) == Deliver(reg, IDLE, c);
  }

  lemma VerdictThen(reg: Registration, v: Event, e: Event, fails: set<nat>)
    requires reg.sink && VerdictFrom(v).Some? && 0 !in fails
    ensures Fold(reg, [v, e], fails) ==
            Take(reg, NOTHING.(sunk := [VerdictFrom(v).value], verdicts := [VerdictFrom(v).value]), e, 1 in fails)
  {
    assert [v, e][..1] == [v] && [v][..0] == [];
    assert Fold(reg, [v], fails) == Take(reg, NOTHING, v, false);
  }

  lemma NamedSeat()
    ensures !Blank("aria")
  {
    assert !IsSpace("aria"[0]);
  }

  function VerdictEvent(id: string): Event {
    Event("m.neop.verdict", "@ml:hs", "e", "r", "", "", false, "approve", "aria", id, "ml")
  }

  /** A verdict followed by a message whose sender is no mxid: the transaction raises, is never marked, and each
      redelivery forwards the verdict again. */
  lemma PoisonedTransaction(reg: Registration) returns (d: Delivery)
    requires reg.sink && !reg.matches("bob") && reg.senderLocalpart != ""
    ensures d.fails == {} && |DeliverAll(reg, [d, d]).sunk| == 2
  {
    var m := Event("m.room.message", "bob", "e2", "r", "m.text", "hi", false, "", "", "", "");
    d := Delivery("t1", [VerdictEvent("p"), m], {});
    NamedSeat();
    VerdictThen(reg, VerdictEvent("p"), m, {});
    TwoDeliveries(reg, d, d);
  }

  /** Two verdicts, the sink failing once on the second: the repetition goes through, and hands both over again. */
  lemma FlakySink(reg: Registration) returns (c: Delivery, d: Delivery)
    requires reg.sink
    ensures d == c.(fails := {}) && GoesThrough(reg, d)
    ensures |DeliverAll(reg, [c, d]).sunk| == 4 && |Verdicts(reg, Taken(reg, [c, d]))| == 2
  {
    var events := [VerdictEvent("p1"), VerdictEvent("p2")];
    c, d := Delivery("t1", events, {1}), Delivery("t1", events, {});
    NamedSeat();
    VerdictThen(reg, events[0], events[1], {1});
    VerdictThen(reg, events[0], events[1], {});
    TwoDeliveries(reg, c, d);
    GoesThroughExactly(reg, c);
    GoesThroughExactly(reg, d);
    hide GoesThrough;
    SunkSplits(reg, [c, d]);
    assert [c, d][..1] == [c] && [c][..0] == [];
    assert Wasted(reg, [c]) == 2;
  }

  function MessageEvent(body: string): Event {
    Event("m.room.message", "@ml:hs", "e", "r", "m.text", body, false, "", "", "", "")
  }

  /** A registration to which @ml:hs is a person it can map. */
  predicate Hears(reg: Registration) {
    reg.sink && reg.senderLocalpart != "ml" && !reg.matches("@ml:hs") && !Blank(reg.tenant) && !Blank(reg.hmacKey)
  }

  lemma MessageMapped(reg: Registration, body: string)
    requires Hears(reg)
    ensures var e := MessageEvent(body); VerdictFrom(e).None? && IsRoutable(reg, e)
    ensures ToRaw(reg, MessageEvent(body)) == Some(Raw(reg.tenant + ":ml", body, "e", "r"))
  {
    var sender := "@ml:hs";
    assert sender[3] == ':' && sender[1..] == "ml" + ":" + "hs";
    ColonEnds("ml", "hs");
    assert reg.tenant + ":" + "ml" == reg.tenant + ":ml";
  }

  /** A verdict and a message, the sink failing once; then another transaction's message; then the repetition: the
      second message is handled before the first. */
  lemma LateTransaction(reg: Registration) returns (a: Delivery, b: Delivery, first: Raw, second: Raw)
    requires Hears(reg)
    ensures a.txn != b.txn && first.text == "first" && second.text == "second"
    ensures |a.events| == 2 && ToRaw(reg, a.events[1]) == Some(first) && |b.events| == 1 && ToRaw(reg, b.events[0]) == Some(second)
    ensures DeliverAll(reg, [a, b, a.(fails := {})]).handled == [second, first]
  {
    var v, m := VerdictEvent("p"), MessageEvent("first");
    a, b := Delivery("t1", [v, m], {0}), Delivery("t2", [MessageEvent("second")], {});
    first, second := Raw(reg.tenant + ":ml", "first", "e", "r"), Raw(reg.tenant + ":ml", "second", "e", "r");
    NamedSeat();
    MessageMapped(reg, "first");
    MessageMapped(reg, "second");
    FirstFails(reg, v, m);
    VerdictThen(reg, v, m, {});
    OneMessage(reg, b.events[0]);
    ThreeDeliveries(reg, a, b, a.(fails := {}));
  }

  lemma FirstFails(reg: Registration, v: Event, e: Event)
    requires reg.sink && VerdictFrom(v).Some?
    ensures Fold(reg, [v, e], {0}) == NOTHING.(sunk := [VerdictFrom(v).value], raised := true)
  {
    assert [v, e][..1] == [v] && [v][..0] == [];
    assert Fold(reg, [v], {0}) == Take(reg, NOTHING, v, true);
  }

  lemma OneMessage(reg: Registration, e: Event)
    ensures Fold(reg, [e], {}) == Take(reg, NOTHING, e, false)
  {
    assert [e][..0] == [];
  }

  lemma ThreeDeliveries(reg: Registration, a: Delivery, b: Delivery, c: Delivery)
    ensures DeliverAll(reg, [a, b, c]) == Deliver(reg, Deliver(reg, Deliver(reg, IDLE, a), b), c)
  {
    TwoDeliveries(reg, a, b);
    assert [a, b, c][..2] == [a, b];
  }

  /** A registration whose sender localpart has a colon: the guard lets its own reply through as a person's. */
  lemma OwnEchoRouted(reg: Registration) returns (e: Event)
    requires reg.senderLocalpart == "neos:bot" && !reg.matches(Mxid(reg.senderLocalpart, reg.serverName))
    ensures IsEcho(reg, "", e) && IsRoutable(reg, e) && !reg.matches(e.sender)
  {
    var own := Mxid(reg.senderLocalpart, reg.serverName);
    e := Event("m.room.message", own, "e", "r", "m.text", "hi", false, "", "", "", "");
    assert own[1..] == "neos:bot" + ":" + reg.serverName;
    ColonEnds("neos:bot", reg.serverName);
    assert "neos:bot"[4] == ':';
  }
}

/** The gateway's rate limiter, judged by its whole history (frontdoor/gateway.py). */
module Gateway {
  import opened Wrappers

  const PER_SEAT_PER_MIN := 60
  const PER_TENANT_CONCURRENT := 16

  datatype Op = Check(tenant: string, seat: string, now: real) | Enter(tenant: string) | Leave(tenant: string)

  datatype Key = Key(tenant: string, seat: string, minute: int)

  datatype Refusal = TooMany(seat: string) | TooBusy(tenant: string)

  function Minute(now: real): int {
    (now / 60.0).Floor
  }

  function KeyOf(op: Op): Key
    requires op.Check?
  {
    Key(op.tenant, op.seat, Minute(op.now))
  }

  // ---- what a history amounts to ----------------------------------------------------------

  /** Checks made under a key, refused ones included: the counter goes up before it is tested. */
  function Checks(log: seq<Op>, key: Key): nat {
    if log == [] then 0
    else
      var last := log[|log| - 1];
      Checks(log[..|log| - 1], key) + (if last.Check? && KeyOf(last) == key then 1 else 0)
  }

  /** Active runs of a tenant; a surplus leave is ignored. */
  function Running(log: seq<Op>, tenant: string): nat {
    if log == [] then 0
    else
      var n := Running(log[..|log| - 1], tenant);
      match log[|log| - 1]
      case Enter(t) => if t == tenant then n + 1 else n
      case Leave(t) => if t == tenant && n > 0 then n - 1 else n
      case Check(_, _, _) => n
  }

  predicate Admits(log: seq<Op>, op: Op)
    requires op.Check?
  {
    Checks(log, KeyOf(op)) < PER_SEAT_PER_MIN && Running(log, op.tenant) < PER_TENANT_CONCURRENT
  }

  /** Admitted checks of one seat with from <= now < to. */
  function AdmittedIn(log: seq<Op>, tenant: string, seat: string, from: real, to: real): nat {
    if log == [] then 0
    else
      var before, last := log[..|log| - 1], log[|log| - 1];
      AdmittedIn(before, tenant, seat, from, to) +
      (if last.Check? && last.tenant == tenant && last.seat == seat && from <= last.now < to && Admits(before, last)
       then 1 else 0)
  }

  class RateLimiter {
    var minutes: map<Key, nat>
    var concurrent: map<string, nat>
    ghost var log: seq<Op>

    static function Get<K>(m: map<K, nat>, k: K): nat {
      if k in m then m[k] else 0
    }

    ghost predicate Valid()
      reads this
    {
      && (forall key: Key :: Get(minutes, key) == Checks(log, key))
      && (forall tenant: string :: Get(concurrent, tenant) == Running(log, tenant))
    }

    constructor ()
      ensures Valid() && log == []
    {
      minutes, concurrent, log := map[], map[], [];
    }

    /** Counts the call first, then refuses on the seat's minute, then on the tenant's active runs. */
    method Check(tenant: string, seat: string, now: real) returns (refusal: Option<Refusal>)
      requires Valid()
      modifies this
      ensures Valid() && log == old(log) + [Op.Check(tenant, seat, now)]
      ensures refusal.None? <==> Admits(old(log), Op.Check(tenant, seat, now))
      ensures refusal == Some(TooMany(seat)) <==> Checks(old(log), Key(tenant, seat, Minute(now))) >= PER_SEAT_PER_MIN
      ensures refusal.Some? && refusal.value.TooBusy? ==> refusal.value.tenant == tenant
    {
      var key := Key(tenant, seat, Minute(now));
      minutes := minutes[key := Get(minutes, key) + 1];
      log := log + [Op.Check(tenant, seat, now)];
      assert log[..|log| - 1] == old(log);
      if minutes[key] > PER_SEAT_PER_MIN { return Some(TooMany(seat)); }
      if Get(concurrent, tenant) >= PER_TENANT_CONCURRENT { return Some(TooBusy(tenant)); }
      return None;
    }

    method Enter(tenant: string)
      requires Valid()
      modifies this
      ensures Valid() && log == old(log) + [Op.Enter(tenant)]
      ensures Running(log, tenant) == Running(old(log), tenant) + 1
    {
      concurrent := concurrent[tenant := Get(concurrent, tenant) + 1];
      log := log + [Op.Enter(tenant)];
      assert log[..|log| - 1] == old(log);
    }

    method Leave(tenant: string)
      requires Valid()
      modifies this
      ensures Valid() && log == old(log) + [Op.Leave(tenant)]
      ensures Running(log, tenant) == Max(0, Running(old(log), tenant) - 1)
    {
      concurrent := concurrent[tenant := Max(0, Get(concurrent, tenant) - 1)];
      log := log + [Op.Leave(tenant)];
      assert log[..|log| - 1] == old(log);
    }
  }

  // ---- at most sixty a minute, a hundred and twenty in any sixty seconds --------------------

  lemma {:induction false} AtMostSixtyAMinute(log: seq<Op>, key: Key)
    ensures var from := 60.0 * key.minute as real;
            && AdmittedIn(log, key.tenant, key.seat, from, from + 60.0) <= PER_SEAT_PER_MIN
            && AdmittedIn(log, key.tenant, key.seat, from, from + 60.0) <= Checks(log, key)
  {
    if log == [] {
    } else {
      AtMostSixtyAMinute(log[..|log| - 1], key);
    }
  }

  lemma {:induction false} SpanSplits(log: seq<Op>, tenant: string, seat: string, from: real, mid: real, to: real, wide: real)
    requires mid <= from <= to <= wide
    ensures forall cut | from <= cut <= to ::
              AdmittedIn(log, tenant, seat, from, to)
              <= AdmittedIn(log, tenant, seat, mid, cut) + AdmittedIn(log, tenant, seat, cut, wide)
  {
    if log == [] {
    } else {
      SpanSplits(log[..|log| - 1], tenant, seat, from, mid, to, wide);
    }
  }

  /** A span of sixty seconds meets at most two clock minutes. */
  lemma AtMostTwiceInAnySpan(log: seq<Op>, tenant: string, seat: string, from: real)
    ensures AdmittedIn(log, tenant, seat, from, from + 60.0) <= 2 * PER_SEAT_PER_MIN
  {
    var m := Minute(from);
    var start := 60.0 * m as real;
    AtMostSixtyAMinute(log, Key(tenant, seat, m));
    AtMostSixtyAMinute(log, Key(tenant, seat, m + 1));
    SpanSplits(log, tenant, seat, from, start, from + 60.0, start + 120.0);
    var cut := start + 60.0;
    assert 60.0 * (m + 1) as real == cut;
    assert from <= cut <= from + 60.0;
  }

  /** A history, then the same operation n times. */
  function Then(log: seq<Op>, op: Op, n: nat): seq<Op> {
    if n == 0 then log else Then(log, op, n - 1) + [op]
  }

  lemma OneMore(log: seq<Op>, op: Op, from: real, to: real)
    requires op.Check? && from <= op.now < to
    ensures forall key :: Checks(log + [op], key) == Checks(log, key) + (if key == KeyOf(op) then 1 else 0)
    ensures forall tenant :: Running(log + [op], tenant) == Running(log, tenant)
    ensures AdmittedIn(log + [op], op.tenant, op.seat, from, to)
         == AdmittedIn(log, op.tenant, op.seat, from, to) + (if Admits(log, op) then 1 else 0)
  {
  }

  /** Up to sixty equal checks, of a key not checked yet and a tenant with nothing running, are all admitted. */
  lemma {:induction false} AllAdmitted(log: seq<Op>, op: Op, n: nat, from: real, to: real)
    requires op.Check? && n <= PER_SEAT_PER_MIN && from <= op.now < to
    requires Checks(log, KeyOf(op)) == 0 && Running(log, op.tenant) == 0
    ensures var after := Then(log, op, n);
            && Checks(after, KeyOf(op)) == n && Running(after, op.tenant) == 0
            && AdmittedIn(after, op.tenant, op.seat, from, to) == AdmittedIn(log, op.tenant, op.seat, from, to) + n
    ensures forall key :: key != KeyOf(op) ==> Checks(Then(log, op, n), key) == Checks(log, key)
  {
    hide Checks, Running, AdmittedIn;
    if n == 0 {
    } else {
      AllAdmitted(log, op, n - 1, from, to);
      OneMore(Then(log, op, n - 1), op, from, to);
    }
  }

  lemma TwoMinutes(late: Op, early: Op, n: nat)
    requires late.Check? && early.Check? && late.tenant == early.tenant && late.seat == early.seat
    requires KeyOf(late) != KeyOf(early) && n <= PER_SEAT_PER_MIN && late.now <= early.now < late.now + 60.0
    ensures AdmittedIn(Then(Then([], late, n), early, n), late.tenant, late.seat, late.now, late.now + 60.0) == 2 * n
  {
    AllAdmitted([], late, n, late.now, late.now + 60.0);
    AllAdmitted(Then([], late, n), early, n, late.now, late.now + 60.0);
  }

  /** The bound of a hundred and twenty is met (n = 60): as many checks late in one minute as early in the next. */
  lemma BurstMeetsTheBound(tenant: string, seat: string, late: real, early: real, n: nat)
    requires late <= early < late + 60.0 && Minute(early) == Minute(late) + 1 && n <= PER_SEAT_PER_MIN
    ensures AdmittedIn(Then(Then([], Check(tenant, seat, late), n), Check(tenant, seat, early), n),
                       tenant, seat, late, late + 60.0) == 2 * n
  {
    assert KeyOf(Check(tenant, seat, late)) != KeyOf(Check(tenant, seat, early));
    TwoMinutes(Check(tenant, seat, late), Check(tenant, seat, early), n);
  }

  // ---- active runs are those entered and not left -------------------------------------------

  function Enters(log: seq<Op>, tenant: string): nat {
    if log == [] then 0 else Enters(log[..|log| - 1], tenant) + (if log[|log| - 1] == Enter(tenant) then 1 else 0)
  }

  function Leaves(log: seq<Op>, tenant: string): nat {
    if log == [] then 0 else Leaves(log[..|log| - 1], tenant) + (if log[|log| - 1] == Leave(tenant) then 1 else 0)
  }

  /** Enters over leaves since place k of the history. */
  function Excess(log: seq<Op>, tenant: string, k: nat): int
    requires k <= |log|
  {
    Enters(log[k..], tenant) - Leaves(log[k..], tenant)
  }

  lemma ExcessSnoc(log: seq<Op>, tenant: string, k: nat)
    requires k < |log|
    ensures var n := |log| - 1;
            Excess(log, tenant, k) == Excess(log[..n], tenant, k)
                                      + (if log[n] == Enter(tenant) then 1 else if log[n] == Leave(tenant) then -1 else 0)
  {
    var n := |log| - 1;
    assert log[k..][..|log[k..]| - 1] == log[..n][k..];
  }

  /** Whatever the order of enters and leaves, surplus leaves included: the active runs are the largest excess of
      enters over leaves since any moment. */
  lemma {:induction false} RunningIsLargestExcess(log: seq<Op>, tenant: string) returns (k: nat)
    ensures k <= |log| && Excess(log, tenant, k) == Running(log, tenant)
    ensures forall i :: 0 <= i <= |log| ==> Excess(log, tenant, i) <= Running(log, tenant)
  {
    k := |log|;
    if log == [] {
    } else {
      var n := |log| - 1;
      var k' := RunningIsLargestExcess(log[..n], tenant);
      forall i | 0 <= i < |log| ensures Excess(log, tenant, i) <= Running(log, tenant) {
        ExcessSnoc(log, tenant, i);
      }
      ExcessSnoc(log, tenant, k');
      if Running(log, tenant) > 0 { k := k'; }
    }
  }

  lemma {:induction false} ExcessSplits(log: seq<Op>, tenant: string, k: nat)
    requires k <= |log|
    ensures Excess(log, tenant, 0) == Enters(log[..k], tenant) - Leaves(log[..k], tenant) + Excess(log, tenant, k)
    decreases |log|
  {
    if k == |log| {
      assert log[0..] == log && log[..k] == log;
    } else {
      var n := |log| - 1;
      ExcessSplits(log[..n], tenant, k);
      ExcessSnoc(log, tenant, 0);
      ExcessSnoc(log, tenant, k);
      assert log[..n][..k] == log[..k];
    }
  }

  /** When nobody leaves who has not entered, the active runs are the enters less the leaves. */
  lemma RunningCounts(log: seq<Op>, tenant: string)
    requires forall i :: 0 <= i <= |log| ==> Leaves(log[..i], tenant) <= Enters(log[..i], tenant)
    ensures Running(log, tenant) == Enters(log, tenant) - Leaves(log, tenant)
  {
    var k := RunningIsLargestExcess(log, tenant);
    ExcessSplits(log, tenant, k);
    assert log[0..] == log;
    assert Excess(log, tenant, 0) <= Running(log, tenant);
  }

  /** Checks of one seat in the sixty seconds from a moment on. */
  function ChecksIn(log: seq<Op>, tenant: string, seat: string, from: real): nat {
    if log == [] then 0
    else
      var last := log[|log| - 1];
      ChecksIn(log[..|log| - 1], tenant, seat, from)
      + (if last.Check? && last.tenant == tenant && last.seat == seat && from <= last.now < from + 60.0 then 1 else 0)
  }

  lemma {:induction false} ChecksAreIn(log: seq<Op>, key: Key)
    ensures Checks(log, key) == ChecksIn(log, key.tenant, key.seat, 60.0 * key.minute as real)
  {
    if log == [] {
    } else {
      ChecksAreIn(log[..|log| - 1], key);
    }
  }

  /** A check is admitted exactly when its seat had fewer than sixty in its minute and at no moment have sixteen more
      runs of its tenant entered than left since. */
  lemma AdmitsExactly(log: seq<Op>, op: Op)
    requires op.Check?
    ensures Admits(log, op) <==>
            && ChecksIn(log, op.tenant, op.seat, 60.0 * Minute(op.now) as real) < 60
            && forall k :: 0 <= k <= |log| ==> Excess(log, op.tenant, k) < 16
  {
    var k := RunningIsLargestExcess(log, op.tenant);
    ChecksAreIn(log, KeyOf(op));
  }

  /** A tenant all of whose runs have left is never turned away for being busy. */
  lemma DrainedIsAdmitted(log: seq<Op>, op: Op)
    requires op.Check? && Enters(log, op.tenant) == Leaves(log, op.tenant)
    requires forall i :: 0 <= i <= |log| ==> Leaves(log[..i], op.tenant) <= Enters(log[..i], op.tenant)
    ensures Admits(log, op) <==> Checks(log, KeyOf(op)) < 60
  {
    RunningCounts(log, op.tenant);
  }

  // ---- at most sixteen active runs ----------------------------------------------------------

  /** Every enter directly follows an admitted check of the same tenant. */
  ghost predicate Paired(log: seq<Op>) {
    forall i :: 0 <= i < |log| && log[i].Enter? ==>
      0 < i && log[i - 1].Check? && log[i - 1].tenant == log[i].tenant && Admits(log[..i - 1], log[i - 1])
  }

  lemma {:induction false} AtMostSixteenActive(log: seq<Op>, tenant: string)
    requires Paired(log)
    ensures Running(log, tenant) <= PER_TENANT_CONCURRENT
  {
    if log == [] {
    } else {
      var n := |log| - 1;
      var before := log[..n];
      forall i | 0 <= i < n && before[i].Enter?
        ensures 0 < i && before[i - 1].Check? && before[i - 1].tenant == before[i].tenant
                && Admits(before[..i - 1], before[i - 1])
      {
        assert log[i].Enter? && before[..i - 1] == log[..i - 1];
      }
      AtMostSixteenActive(before, tenant);
      if log[n] == Enter(tenant) { assert before[..n - 1] == log[..n - 1]; }
    }
  }

  /** Without the pairing the bound fails: up to sixty checks pass before the first enter, and all of them may enter. */
  lemma UnpairedOvershoots(check: Op, k: nat, e: nat)
    requires check.Check? && e <= k <= PER_SEAT_PER_MIN
    ensures AdmittedIn(Then([], check, k), check.tenant, check.seat, check.now, check.now + 1.0) == k
    ensures Running(Then(Then([], check, k), Enter(check.tenant), e), check.tenant) == e
  {
    AllAdmitted([], check, k, check.now, check.now + 1.0);
    EntersCount(Then([], check, k), check.tenant, e);
  }

  lemma PrefixStep(log: seq<Op>, tenant: string, i: nat)
    requires i < |log|
    ensures log[i] == Enter(tenant) ==> Running(log[..i + 1], tenant) == Running(log[..i], tenant) + 1
    ensures log[i] != Enter(tenant) ==> Running(log[..i + 1], tenant) <= Running(log[..i], tenant)
  {
    assert log[..i + 1][..i] == log[..i];
  }

  lemma {:induction false} StaysWithin(log: seq<Op>, tenant: string, n: nat)
    requires n <= |log|
    requires forall i :: 0 <= i < |log| && log[i] == Enter(tenant) ==> Running(log[..i], tenant) < PER_TENANT_CONCURRENT
    ensures Running(log[..n], tenant) <= PER_TENANT_CONCURRENT
  {
    if n == 0 {
    } else {
      StaysWithin(log, tenant, n - 1);
      PrefixStep(log, tenant, n - 1);
    }
  }

  /** A history never has more than sixteen active exactly when no run enters while sixteen are. */
  lemma SixteenExactly(log: seq<Op>, tenant: string)
    ensures (forall n :: 0 <= n <= |log| ==> Running(log[..n], tenant) <= PER_TENANT_CONCURRENT) <==>
            (forall i :: 0 <= i < |log| && log[i] == Enter(tenant) ==> Running(log[..i], tenant) < PER_TENANT_CONCURRENT)
  {
    if forall n :: 0 <= n <= |log| ==> Running(log[..n], tenant) <= PER_TENANT_CONCURRENT {
      forall i | 0 <= i < |log| && log[i] == Enter(tenant) ensures Running(log[..i], tenant) < PER_TENANT_CONCURRENT {
        PrefixStep(log, tenant, i);
        assert Running(log[..i + 1], tenant) <= PER_TENANT_CONCURRENT;
      }
    }
    if forall i :: 0 <= i < |log| && log[i] == Enter(tenant) ==> Running(log[..i], tenant) < PER_TENANT_CONCURRENT {
      forall n | 0 <= n <= |log| ensures Running(log[..n], tenant) <= PER_TENANT_CONCURRENT { StaysWithin(log, tenant, n); }
    }
  }

  lemma OneEnter(log: seq<Op>, tenant: string)
    ensures Running(log + [Enter(tenant)], tenant) == Running(log, tenant) + 1
  {
  }

  lemma {:induction false} EntersCount(log: seq<Op>, tenant: string, e: nat)
    ensures Running(Then(log, Enter(tenant), e), tenant) == Running(log, tenant) + e
  {
    hide Running;
    if e == 0 {
    } else {
      EntersCount(log, tenant, e - 1);
      OneEnter(Then(log, Enter(tenant), e - 1), tenant);
    }
  }
}

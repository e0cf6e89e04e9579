/** The readiness summary of a report-only window (acp/approval_mode.py flip_readiness). */
module Readiness {
  import opened Wrappers
  import opened Rounding
  import opened Approval
  import opened Agent

  /** The audits a report-only broker has observed over the first k entries of a trace. */
  function AuditsTo(log: seq<Entry>, k: nat): seq<Audit>
    requires k <= |log|
  {
    if k == 0 then []
    else
      var e := log[k - 1];
      AuditsTo(log, k - 1) + (if e.Consulted? then [Audit(e.action, false, e.would)] else [])
  }

  function Audits(log: seq<Entry>): seq<Audit> { AuditsTo(log, |log|) }

  /** How many report-only audits of the window would have been decided d. */
  function Count(audits: seq<Audit>, d: Decision): nat {
    if audits == [] then 0
    else
      var last := audits[|audits| - 1];
      Count(audits[..|audits| - 1], d) + (if !last.enforced && last.would == d then 1 else 0)
  }

  /** `rate` is in thousandths; None over an empty window. */
  datatype Summary = Summary(total: nat, wouldAllow: nat, wouldDeny: nat, wouldAwait: nat, rate: Option<int>)

  function BlockRate(ties: Ties, blocked: nat, total: nat): Option<int> {
    if total == 0 then None else Some(RoundBy(ties, 1000.0 * blocked as real / total as real))
  }

  function Summarize(ties: Ties, audits: seq<Audit>): Summary {
    var a, d, w := Count(audits, Allow), Count(audits, Deny), Count(audits, Await);
    Summary(a + d + w, a, d, w, BlockRate(ties, d + w, a + d + w))
  }

  method FlipReadiness(ties: Ties, audits: seq<Audit>) returns (r: Summary)
    ensures r == Summarize(ties, audits)
  {
    var allow, deny, hold, total := 0, 0, 0, 0;
    for i := 0 to |audits|
      invariant allow == Count(audits[..i], Allow) && deny == Count(audits[..i], Deny) && hold == Count(audits[..i], Await)
      invariant total == allow + deny + hold
    {
      assert audits[..i + 1][..i] == audits[..i];
      if !audits[i].enforced {
        total := total + 1;
        match audits[i].would
        case Allow => allow := allow + 1;
        case Deny => deny := deny + 1;
        case Await => hold := hold + 1;
      }
    }
    assert audits[..|audits|] == audits;
    r := Summary(total, allow, deny, hold, BlockRate(ties, deny + hold, total));
  }

  /** The rounded rate is zero exactly when fewer than one action in 2000 would have been blocked, or just one and
      the half is rounded down. */
  lemma RateZero(ties: Ties, blocked: nat, total: nat)
    requires total > 0
    ensures BlockRate(ties, blocked, total) == Some(0)
       <==> 2000 * blocked < total || (2000 * blocked == total && !ties(0))
  {
    var a, t := 1000.0 * blocked as real, total as real;
    DivCompare(a, t, 0.5);
    NotNegative(a, t);
    RoundAtLeast(ties, a / t, 1);
    RoundAtLeast(ties, a / t, 0);
  }
}

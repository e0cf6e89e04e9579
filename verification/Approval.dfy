/** Approval policy, governance mode and grant resolution
    (acp/approval.py, acp/approval_mode.py and the deciding half of runtime/approval_gate.py). */
module Approval {
  import opened Wrappers

  datatype Mode = AllowMode | DenyMode | AskMode

  datatype Decision = Allow | Deny | Await

  datatype Reason =
    | HardDenied
    | PolicyAllow
    | PolicyDeny
    | RequiresApproval
    | GrantCannotOverride
    | ApprovedBy(grantor: string)
    | HumanDenied
    | NoGrantRecorded
    | ReportedOnly(would: Decision, basis: Reason)

  datatype Action = Action(scope: string, name: string, seat: string, tenant: string, target: Option<string>)

  const SCOPES := {"command", "tool", "neop", "plan"}

  predicate IsSpace(c: char) { c in " \t\n\r" || c == '\U{000B}' || c == '\U{000C}' }

  /** `not s.strip()` */
  predicate Blank(s: string) {
    forall i :: 0 <= i < |s| ==> IsSpace(s[i])
  }

  /** The constructor's check; a malformed action raises ApprovalError. */
  predicate WellFormed(a: Action) {
    a.scope in SCOPES && !Blank(a.name)
  }

  datatype Policy = Policy(
    scopeModes: map<string, Mode>,
    overrides: map<(string, string), Mode>,
    hardDeny: set<(string, string)>,
    defaultMode: Mode)
  {
    predicate IsHardDenied(a: Action) {
      (a.scope, a.name) in hardDeny
    }

    function ModeFor(a: Action): Mode {
      if (a.scope, a.name) in overrides then overrides[(a.scope, a.name)]
      else if a.scope in scopeModes then scopeModes[a.scope]
      else defaultMode
    }
  }

  function Decide(a: Action, p: Policy): (Decision, Reason) {
    if p.IsHardDenied(a) then (Deny, HardDenied)
    else
      match p.ModeFor(a)
      case AllowMode => (Allow, PolicyAllow)
      case DenyMode => (Deny, PolicyDeny)
      case AskMode => (Await, RequiresApproval)
  }

  /** Fails where the source raises ApprovalError for a blank grantor. */
  function ResolveGrant(a: Action, p: Policy, grantedBy: Option<string>): Result<(Decision, Reason), ()> {
    if p.IsHardDenied(a) then Success((Deny, GrantCannotOverride))
    else if grantedBy.None? || Blank(grantedBy.value) then Failure(())
    else Success((Allow, ApprovedBy(grantedBy.value)))
  }

  datatype Governance = Enforce | ReportOnly

  /** One shadow decision of the observe window. */
  datatype Audit = Audit(action: Action, enforced: bool, would: Decision)

  function Evaluate(a: Action, p: Policy, mode: Governance): (Decision, Audit) {
    var would := Decide(a, p).0;
    match mode
    case Enforce => (would, Audit(a, true, would))
    case ReportOnly => (Allow, Audit(a, false, would))
  }

  /** What the runtime is injected with: nothing, or a tenant's approval broker. */
  datatype Broker =
    | Off
    | On(policy: Policy, grants: map<string, string>, grantor: Option<string>, mode: Governance)

  /** The forward gate: the effective decision and its recorded basis. */
  function Consult(b: Broker, a: Action): (Decision, Reason)
    requires b.On?
  {
    var (would, basis) := Decide(a, b.policy);
    if b.mode == ReportOnly then (Allow, ReportedOnly(would, basis)) else (would, basis)
  }

  /** The recorded human verdict, re-checked against the hard-deny list. */
  function Resolve(b: Broker, a: Action): Result<(Decision, Reason), ()>
    requires b.On?
  {
    if a.name in b.grants && b.grants[a.name] == "deny" then Success((Deny, HumanDenied))
    else if a.name !in b.grants || b.grants[a.name] != "allow" then Success((Deny, NoGrantRecorded))
    else ResolveGrant(a, b.policy, b.grantor)
  }

  const ALLOW_ALL := Policy(map[], map[], {}, AllowMode)

  const ALL_ALLOW := On(ALLOW_ALL, map[], None, Enforce)

  /** A broker whose gate can never stop a well-formed action. */
  ghost predicate Passive(b: Broker) {
    b.Off? || forall a :: Consult(b, a).0 == Allow
  }

  /** An ENFORCE gate lets an action through only past the hard-deny list, and so does a grant. */
  lemma HardDenyIsFinal(b: Broker, a: Action)
    requires b.On? && b.mode == Enforce && b.policy.IsHardDenied(a)
    ensures Consult(b, a).0 == Deny
    ensures Resolve(b, a).Success? && Resolve(b, a).value.0 == Deny
  {
  }

  /** A human has allowed the action by name. */
  predicate Granted(b: Broker, a: Action) {
    b.On? && a.name in b.grants && b.grants[a.name] == "allow"
  }

  /** The human who grants is named. */
  predicate Named(b: Broker) {
    b.On? && b.grantor.Some? && !Blank(b.grantor.value)
  }

  /** A pause is resolved to ALLOW exactly by a recorded allow of a named human on an action outside the hard-deny
      list; it raises exactly when only the name is missing; and otherwise it is denied. */
  lemma ResolveExactly(b: Broker, a: Action)
    requires b.On?
    ensures Resolve(b, a) == Success((Allow, ApprovedBy(b.grantor.GetOr(""))))
            <==> Granted(b, a) && !b.policy.IsHardDenied(a) && Named(b)
    ensures Resolve(b, a).Failure? <==> Granted(b, a) && !b.policy.IsHardDenied(a) && !Named(b)
    ensures Resolve(b, a).Success? && !(Granted(b, a) && !b.policy.IsHardDenied(a)) ==> Resolve(b, a).value.0 == Deny
  {
  }

  // ---- which rule of a policy decides -----------------------------------------------------

  /** Under ENFORCE: the mode's own decision. */
  function Verdict(m: Mode): Decision {
    match m
    case AllowMode => Allow
    case DenyMode => Deny
    case AskMode => Await
  }

  /** An override of one action decides that action, and no other. */
  lemma OverrideDecides(p: Policy, a: Action, m: Mode, a': Action)
    requires !p.IsHardDenied(a)
    ensures var p' := p.(overrides := p.overrides[(a.scope, a.name) := m]);
            && Decide(a, p').0 == Verdict(m)
            && ((a'.scope, a'.name) != (a.scope, a.name) ==> Decide(a', p') == Decide(a', p))
  {
  }

  /** A scope's mode decides exactly the actions of that scope that no override names. */
  lemma ScopeDecides(p: Policy, scope: string, m: Mode, a: Action)
    ensures var p' := p.(scopeModes := p.scopeModes[scope := m]);
            if a.scope == scope && (a.scope, a.name) !in p.overrides && !p.IsHardDenied(a)
            then Decide(a, p').0 == Verdict(m) else Decide(a, p') == Decide(a, p)
  {
  }

  /** The default decides exactly the actions that neither an override nor a scope's mode covers. */
  lemma DefaultDecides(p: Policy, m: Mode, a: Action)
    ensures var p' := p.(defaultMode := m);
            if a.scope !in p.scopeModes && (a.scope, a.name) !in p.overrides && !p.IsHardDenied(a)
            then Decide(a, p').0 == Verdict(m) else Decide(a, p') == Decide(a, p)
  {
  }
}

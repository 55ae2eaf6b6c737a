/** Verification receipts: the decision table (verification_receipt_v2.go), the
    terminal result of a verification (verify_v2.go), and the interrupted result
    of lease-expiry recovery (evaluation_progress_v2.go). */
module Receipt {
  import opened StatusTypes
  import Agg = StatusAggregation
  import opened ClaimToken
  import opened Ordering

  datatype Trust = NotEvaluated | Unavailable | Trusted | Untrusted

  datatype Decision = Allow | Deny | Indeterminate

  /** The sealed values that a receipt copies from its claim. */
  datatype Claim = Claim(verifier: KeyId, agent: KeyId, bundle: string, issuers: seq<IssuerId>, requiredScope: string,
                         policy: Option<string>, claimedAt: int)

  /** The unsigned receipt body.  Scopes and evidence are canonical lists and
      are modelled as sets. */
  datatype Receipt = Receipt(
    verifier: KeyId, agent: KeyId, bundle: string, issuers: seq<IssuerId>, requiredScope: string, verifiedAt: int,
    decision: Decision, reason: Reason, identity: Status, trust: Trust, status: StatusKind, context: Context,
    granted: set<string>, evidence: set<Agg.Row>)

  /* ---- The decision table ---- */

  /** validDenyReceiptPairV2 */
  function DenyIdentity(reason: Reason): Option<Status> {
    match reason
    case NotDelegated => Some(Status.DelegationNotAuthorized)
    case DelegationNotAuthorized => Some(Status.DelegationNotAuthorized)
    case DelegationExpired => Some(Expired)
    case DelegationRevoked => Some(Status.Revoked)
    case ScopeDenied => Some(Status.ScopeDenied)
    case InvalidScope => Some(Status.InvalidScope)
    case ConstraintDenied => Some(Status.ConstraintDenied)
    case ConstraintUnverifiable => Some(Status.ConstraintUnverifiable)
    case ConstraintUnknown => Some(Status.ConstraintUnknown)
    case ProofInvalid => Some(Invalid)
    case Unauthorized => Some(Status.Unauthorized)
    case _ => None
  }

  predicate IsConstraintReason(r: Reason) {
    r in {Reason.ConstraintDenied, Reason.ConstraintUnverifiable, Reason.ConstraintUnknown}
  }

  predicate IsPolicyReason(r: Reason) { r == Reason.ScopeDenied || IsConstraintReason(r) }

  predicate AllowOk(r: Receipt) {
    && r.reason == Authorized && r.identity == AuthorizedAgent && r.trust == Trusted && r.status == StatusKind.Current
    && r.evidence != {} && r.requiredScope in r.granted
    && r.context.kind in {ContextKind.Bound, ContextKind.NotRequired} && r.context.digest.Some?
  }

  predicate DenyOk(r: Receipt) {
    && r.granted == {} && DenyIdentity(r.reason) == Some(r.identity)
    && (r.reason == NotDelegated ==> r.issuers == [])
    && (IsPolicyReason(r.reason) ==> r.status == StatusKind.Current)
    && (if r.reason == Reason.Unauthorized then r.trust == Untrusted
        else if r.reason == NotDelegated then r.trust == Trust.NotEvaluated else r.trust == Trusted)
    && (if r.reason == DelegationRevoked then r.status == StatusKind.HasRevoked
        else r.status == StatusKind.NotEvaluated || (r.status == StatusKind.Current && IsPolicyReason(r.reason)))
    && (if r.reason == DelegationRevoked || r.reason == Reason.ScopeDenied
        then r.context.kind != ContextKind.NotEvaluated
        else if IsConstraintReason(r.reason) then
          || r.context.kind in {ContextKind.Bound, ContextKind.NotRequired}
          || (r.reason == Reason.ConstraintDenied && r.context.kind == Mismatch)
        else r.context.kind == ContextKind.NotEvaluated)
    && (r.reason in {NotDelegated, Reason.Unauthorized} ==> r.evidence == {})
  }

  predicate IndeterminateOk(r: Receipt) {
    && r.granted == {} && r.identity == AuthorizationUnverified
    && match r.reason
       case StatusStale =>
         r.trust == Trusted && r.status == StatusKind.Stale && r.context.kind != ContextKind.NotEvaluated
       case StatusUnavailable =>
         r.trust == Trusted && r.status == StatusKind.Unavailable && r.context.kind != ContextKind.NotEvaluated
       case TrustUnavailable =>
         r.trust == Trust.Unavailable && r.status == StatusKind.NotEvaluated
           && r.context.kind == ContextKind.NotEvaluated && r.evidence == {}
       case ActionContextUnverified =>
         r.trust == Trusted && r.status == StatusKind.Current && r.context.kind in {Unbound, Unverified}
       case EvaluationInterrupted =>
         && r.context.kind in {ContextKind.NotEvaluated, ContextKind.Bound, ContextKind.NotRequired}
         && (r.trust != Trusted ==> r.status == StatusKind.NotEvaluated && r.context.kind == ContextKind.NotEvaluated)
       case _ => false
  }

  /** validateReceiptDecisionV2 */
  predicate DecisionOk(r: Receipt) {
    match r.decision case Allow => AllowOk(r) case Deny => DenyOk(r) case Indeterminate => IndeterminateOk(r)
  }

  /** The evidence rows that a receipt may carry (sortedEvidenceV2). */
  predicate EvidenceOk(r: Receipt) {
    && (forall e :: e in r.evidence ==>
          && e.issuer in r.issuers && e.key != "" && e.key !in r.issuers && e.key != r.verifier
          && (r.agent != "" ==> e.key != r.agent)
          && 0 < e.sequence <= MAX_SAFE_INTEGER && e.objectType in {Agg.LIST, Agg.PUSH} && e.digestOk)
    && (forall e, f :: e in r.evidence && f in r.evidence && e.key == f.key ==> e.issuer == f.issuer)
  }

  /** The checks of validateVerificationReceiptV2 around the table. */
  ghost predicate BodyOk(r: Receipt) {
    && ValidTimestamp(r.verifiedAt) && Ascending(r.issuers)
    && (r.reason !in {NotDelegated, EvaluationInterrupted} ==> r.issuers != [])
    && (r.reason == EvaluationInterrupted && r.issuers == [] ==>
          r.trust == Trust.NotEvaluated && r.status == StatusKind.NotEvaluated
            && r.context.kind == ContextKind.NotEvaluated && r.evidence == {})
    && (r.status in {StatusKind.Current, StatusKind.HasRevoked, StatusKind.Stale} ==> r.evidence != {})
    && (r.context.kind in {ContextKind.NotEvaluated, Unbound} ==> r.context.digest.None?)
    && (r.context.kind in {ContextKind.Bound, ContextKind.NotRequired, Mismatch} ==> r.context.digest.Some?)
    && (r.status == StatusKind.NotEvaluated ==> r.evidence == {})
    && (r.status in {StatusKind.Current, StatusKind.Stale} ==>
          r.issuers != [] && forall i :: i in r.issuers ==> Agg.HasHistory(r.evidence, i))
    && DecisionOk(r)
  }

  /** terminalDecisionForV2Evaluation */
  function TerminalDecision(status: Status, reason: Reason): Option<Decision> {
    if reason == EvaluationInterrupted then (if status == AuthorizationUnverified then Some(Indeterminate) else None)
    else if status == AuthorizationUnverified then
      (if reason in {TrustUnavailable, ActionContextUnverified, StatusUnavailable, StatusStale}
       then Some(Indeterminate) else None)
    else if status == AuthorizedAgent then (if reason == Authorized then Some(Allow) else None)
    else if DenyIdentity(reason) == Some(status) then Some(Deny)
    else None
  }

  /* ---- Progress and terminal results ---- */

  /** V2EvaluationProgress */
  datatype Progress = Progress(trust: Trust, status: StatusKind, context: Context, evidence: set<Agg.Row>)

  const INITIAL: Progress := Progress(Trust.NotEvaluated, StatusKind.NotEvaluated,
                                      Context(ContextKind.NotEvaluated, None), {})

  /** ValidateV2EvaluationProgress */
  predicate ProgressOk(p: Progress) {
    && p.context.kind in {ContextKind.NotEvaluated, ContextKind.Bound, ContextKind.NotRequired}
    && (p.context.kind == ContextKind.NotEvaluated <==> p.context.digest.None?)
    && (p.trust != Trusted ==> p.status == StatusKind.NotEvaluated && p.context.kind == ContextKind.NotEvaluated)
    && (p.status == StatusKind.NotEvaluated ==> p.evidence == {})
  }

  /** buildV2TerminalResult */
  function Build(c: Claim, a: Assessment, p: Progress): Option<Receipt> {
    match TerminalDecision(a.status, a.reason)
    case None => None
    case Some(decision) =>
      var interrupted := a.reason == EvaluationInterrupted;
      Some(Receipt(
             c.verifier, c.agent, c.bundle, c.issuers, c.requiredScope, c.claimedAt, decision, a.reason, a.status,
             if a.reason == NotDelegated then Trust.NotEvaluated else p.trust,
             if interrupted then p.status else a.statusKind,
             if interrupted then p.context
             else if a.context.kind in {ContextKind.NotEvaluated, Unbound} then Context(a.context.kind, None)
               else a.context,
             if decision == Allow then a.scope else {},
             if interrupted then p.evidence else if a.statusKind == StatusKind.NotEvaluated then {} else a.evidence))
  }

  /** V2EvaluationInterruptedResult: what recovery builds from the claim and
      the last recorded progress. */
  function Recovered(c: Claim, p: Progress): Option<Receipt> {
    if !ValidTimestamp(c.claimedAt) || !ProgressOk(p) then None
    else
      Some(Receipt(
             c.verifier, c.agent, c.bundle, Canonical(c.issuers), c.requiredScope, c.claimedAt,
             Indeterminate, EvaluationInterrupted, AuthorizationUnverified,
             p.trust, p.status, p.context, {}, p.evidence))
  }
}

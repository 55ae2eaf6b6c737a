/** The receipt table, row by row (verification_receipt_v2.go:191-347): for every
    reason the one decision and identity it goes with, and what may then have
    been established. */
module ReceiptTable {
  import opened StatusTypes
  import Agg = StatusAggregation
  import opened ClaimToken
  import opened Receipt

  /** Decision and identity of a reason that ends a verification. */
  function Outcome(reason: Reason): Option<(Decision, Status)> {
    match reason
    case Authorized => Some((Decision.Allow, AuthorizedAgent))
    case NotDelegated => Some((Deny, Status.DelegationNotAuthorized))
    case DelegationNotAuthorized => Some((Deny, Status.DelegationNotAuthorized))
    case DelegationExpired => Some((Deny, Expired))
    case DelegationRevoked => Some((Deny, Status.Revoked))
    case ScopeDenied => Some((Deny, Status.ScopeDenied))
    case InvalidScope => Some((Deny, Status.InvalidScope))
    case ConstraintDenied => Some((Deny, Status.ConstraintDenied))
    case ConstraintUnverifiable => Some((Deny, Status.ConstraintUnverifiable))
    case ConstraintUnknown => Some((Deny, Status.ConstraintUnknown))
    case ProofInvalid => Some((Deny, Invalid))
    case Unauthorized => Some((Deny, Status.Unauthorized))
    case StatusStale => Some((Indeterminate, AuthorizationUnverified))
    case StatusUnavailable => Some((Indeterminate, AuthorizationUnverified))
    case ActionContextUnverified => Some((Indeterminate, AuthorizationUnverified))
    case TrustUnavailable => Some((Indeterminate, AuthorizationUnverified))
    case EvaluationInterrupted => Some((Indeterminate, AuthorizationUnverified))
    case Unset => None
    case ExternalChecksRequired => None
    case DeferredChecksRequired => None
    case RateReservationRequired => None
  }

  const NOTHING: set<ContextKind> := {ContextKind.NotEvaluated}
  const MET: set<ContextKind> := {ContextKind.Bound, ContextKind.NotRequired}
  const ANY: set<ContextKind> := {ContextKind.Bound, ContextKind.NotRequired, Unbound, Unverified, Mismatch}

  predicate Found(r: Receipt, trust: Trust, status: StatusKind, contexts: set<ContextKind>) {
    r.trust == trust && r.status == status && r.context.kind in contexts
  }

  /** What may have been established when a verification ends for a reason. */
  predicate FoundFor(r: Receipt) {
    match r.reason
    case Authorized => Found(r, Trusted, StatusKind.Current, MET) && r.requiredScope in r.granted
    case NotDelegated => Found(r, Trust.NotEvaluated, StatusKind.NotEvaluated, NOTHING) && r.issuers == []
    case Unauthorized => Found(r, Untrusted, StatusKind.NotEvaluated, NOTHING)
    case TrustUnavailable => Found(r, Trust.Unavailable, StatusKind.NotEvaluated, NOTHING)
    case ProofInvalid => Found(r, Trusted, StatusKind.NotEvaluated, NOTHING)
    case DelegationExpired => Found(r, Trusted, StatusKind.NotEvaluated, NOTHING)
    case InvalidScope => Found(r, Trusted, StatusKind.NotEvaluated, NOTHING)
    case DelegationNotAuthorized => Found(r, Trusted, StatusKind.NotEvaluated, NOTHING)
    case DelegationRevoked => Found(r, Trusted, StatusKind.HasRevoked, ANY)
    case StatusStale => Found(r, Trusted, StatusKind.Stale, ANY)
    case StatusUnavailable => Found(r, Trusted, StatusKind.Unavailable, ANY)
    case ScopeDenied => Found(r, Trusted, StatusKind.Current, ANY)
    case ActionContextUnverified => Found(r, Trusted, StatusKind.Current, {Unbound, Unverified})
    case ConstraintDenied => Found(r, Trusted, StatusKind.Current, MET + {Mismatch})
    case ConstraintUnverifiable => Found(r, Trusted, StatusKind.Current, MET)
    case ConstraintUnknown => Found(r, Trusted, StatusKind.Current, MET)
    case EvaluationInterrupted =>
      r.context.kind in NOTHING + MET && (r.trust == Trusted || Found(r, r.trust, StatusKind.NotEvaluated, NOTHING))
    case _ => false
  }

  /** Rows are carried exactly where a status is; a current or stale one for every
      issuer of the chain. */
  ghost predicate EvidenceGoesWith(r: Receipt) {
    match r.status
    case NotEvaluated => r.evidence == {}
    case Unavailable => true
    case HasRevoked => r.evidence != {}
    case _ => r.evidence != {} && r.issuers != [] && forall i :: i in r.issuers ==> Agg.HasHistory(r.evidence, i)
  }

  /** A policy digest is carried exactly where a policy was applied; an
      unverified context may have one. */
  predicate DigestGoesWith(c: Context) {
    if c.kind in NOTHING + {Unbound} then c.digest == None
    else if c.kind in MET + {Mismatch} then c.digest.Some? else true
  }

  /** Only a chain that was never looked at has no issuers. */
  predicate IssuersGoWith(r: Receipt) {
    r.issuers == [] ==>
      || r.reason == NotDelegated
      || (r.reason == EvaluationInterrupted && Found(r, Trust.NotEvaluated, StatusKind.NotEvaluated, NOTHING))
  }

  /** The whole table: a body is accepted exactly if it is a row of it. */
  lemma BodyExactly(r: Receipt)
    ensures BodyOk(r) <==>
            && Outcome(r.reason) == Some((r.decision, r.identity)) && FoundFor(r)
            && (r.decision != Decision.Allow ==> r.granted == {})
            && EvidenceGoesWith(r) && DigestGoesWith(r.context) && IssuersGoWith(r)
            && 0 <= r.verifiedAt <= MAX_TIMESTAMP && Ordering.Ascending(r.issuers)
  {
  }

  /** A verification ends in a decision exactly with the identity of its reason. */
  lemma DecisionExactly(status: Status, reason: Reason)
    ensures TerminalDecision(status, reason)
            == match Outcome(reason)
               case Some(o) => (if o.1 == status then Some(o.0) else None)
               case None => None
  {
  }

  /** In particular an accepted allow names a trusted chain with a current status
      for every issuer, a met context and the scope that was asked for. */
  lemma AllowMeans(r: Receipt)
    requires BodyOk(r) && r.decision == Decision.Allow
    ensures r.trust == Trusted && r.status == StatusKind.Current && r.identity == AuthorizedAgent
    ensures r.context.kind in {ContextKind.Bound, ContextKind.NotRequired} && r.context.digest.Some?
    ensures r.requiredScope in r.granted && r.issuers != []
    ensures forall i :: i in r.issuers ==> Agg.HasHistory(r.evidence, i)
  {
    BodyExactly(r);
  }

  /** The rows of a body: signed by status keys of its issuers that are none of
      its other parties, each key for one issuer. */
  lemma EvidenceExactly(r: Receipt)
    ensures EvidenceOk(r) <==>
            && (forall e :: e in r.evidence ==>
                  && e.issuer in r.issuers && 0 < e.sequence <= MAX_SAFE_INTEGER && e.digestOk
                  && (e.objectType == 3 || e.objectType == 5)
                  && e.key !in Ordering.Elements(r.issuers) + {"", r.verifier} && (r.agent == "" || e.key != r.agent))
            && (forall e, f :: e in r.evidence && f in r.evidence && e.issuer != f.issuer ==> e.key != f.key)
  {
  }

  /* ---- What is written ---- */

  /** The receipt of an assessment: the sealed claim, the verdict, and what was
      established, or for an interrupted one what was recorded. */
  lemma BuildExactly(c: Claim, a: Assessment, p: Progress)
    ensures var b := Build(c, a, p);
            && (b.Some? <==> Outcome(a.reason).Some? && Outcome(a.reason).value.1 == a.status)
            && (b.Some? ==>
                && var r := b.value;
                && r.verifier == c.verifier && r.agent == c.agent && r.bundle == c.bundle && r.issuers == c.issuers
                && r.requiredScope == c.requiredScope && r.verifiedAt == c.claimedAt
                && Outcome(a.reason) == Some((r.decision, r.identity)) && r.reason == a.reason
                && r.granted == (if a.reason == Authorized then a.scope else {})
                && r.trust == (if a.reason == NotDelegated then Trust.NotEvaluated else p.trust)
                && (a.reason == EvaluationInterrupted ==>
                    r.status == p.status && r.context == p.context && r.evidence == p.evidence)
                && (a.reason != EvaluationInterrupted ==>
                    && r.status == a.statusKind && r.context.kind == a.context.kind
                    && r.context.digest == (if a.context.kind in NOTHING + {Unbound} then None else a.context.digest)
                    && r.evidence == if a.statusKind == StatusKind.NotEvaluated then {} else a.evidence))
  {
  }

  /** Recovery writes the recorded progress, and nothing that was not recorded. */
  lemma RecoveredExactly(c: Claim, p: Progress)
    ensures var b := Recovered(c, p);
            && (b.Some? <==>
                && 0 <= c.claimedAt <= MAX_TIMESTAMP && p.context.kind in NOTHING + MET
                && (p.context.kind in NOTHING <==> p.context.digest == None)
                && (p.trust == Trusted || (p.status == StatusKind.NotEvaluated && p.context.kind in NOTHING))
                && (p.status == StatusKind.NotEvaluated ==> p.evidence == {}))
            && (b.Some? ==>
                && var r := b.value;
                && r.verifier == c.verifier && r.agent == c.agent && r.bundle == c.bundle
                && r.issuers == Ordering.Canonical(c.issuers) && r.requiredScope == c.requiredScope
                && r.verifiedAt == c.claimedAt && r.reason == EvaluationInterrupted && r.granted == {}
                && Outcome(r.reason) == Some((r.decision, r.identity))
                && r.trust == p.trust && r.status == p.status && r.context == p.context && r.evidence == p.evidence)
  {
  }
}

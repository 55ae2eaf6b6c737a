/** The verification pipeline (verify_v2.go): the stages in order, the progress
    recorded before and after each external lookup, and the terminal result.
    Every terminal result has a receipt that the verifier's own decision table
    accepts, and an interrupted one is what recovery would build. */
module VerifyPipeline {
  import opened StatusTypes
  import Agg = StatusAggregation
  import Aud = Audience
  import opened ClaimToken
  import opened Receipt
  import opened Ordering

  /** The answers of the environment in one verification. */
  datatype World = World(
    input: Input, trust: Trust, aggregate: Agg.Assessment, memberships: seq<Aud.Membership>, rate: RateAnswer)

  predicate ResolvesTrust(k: Sealed, w: World) { k.claimTimeValid && w.input.certs != [] }

  /** A failed resolution, or a root that is not the chain's, is unavailable. */
  function Resolution(w: World): Trust { if w.trust in {Trusted, Untrusted} then w.trust else Trust.Unavailable }

  /** The options of the local evaluation: configured trust and a matching root
      follow from the trust resolution. */
  function Options(k: Sealed, w: World): Input {
    if ResolvesTrust(k, w)
    then w.input.(trustConfigured := w.trust in {Trusted, Untrusted}, rootMatches := w.trust == Trusted)
    else w.input.(trustConfigured := false, rootMatches := false)
  }

  function Local(k: Sealed, w: World): Assessment { EvaluateLocal(k, Options(k, w)) }

  /** Recorded before the trust resolution. */
  function TrustStarted(k: Sealed, w: World): Progress {
    if ResolvesTrust(k, w) then INITIAL.(trust := Trust.Unavailable) else INITIAL
  }

  /** Recorded after the local evaluation, before the status stage. */
  function StatusStarted(k: Sealed, w: World): Progress {
    if !ResolvesTrust(k, w) then INITIAL
    else
      var a := Local(k, w);
      INITIAL.(trust := Resolution(w),
               context := if && w.trust == Trusted && a.context.kind in {ContextKind.Bound, ContextKind.NotRequired}
                             && a.context.digest.Some?
                          then a.context else INITIAL.context,
               status := if a.status == Status.Pending then StatusKind.Unavailable else StatusKind.NotEvaluated)
  }

  /** Recorded after the status stage, and never changed again. */
  function StatusKnown(k: Sealed, w: World): Progress {
    if Local(k, w).status == Status.Pending
    then StatusStarted(k, w).(status := WithStatus(Local(k, w), w.aggregate).statusKind,
                              evidence := w.aggregate.evidence)
    else StatusStarted(k, w)
  }

  /** The assessment that a resolved stage returns. */
  function Resolved(a: Assessment, t: Token): Assessment { a.(status := t.status, reason := t.reason) }

  function Started(k: Sealed, w: World): Token { Evaluate(Created(k), Options(k, w)) }

  /** The assessment after the status stage, with the token. */
  function StatusStage(k: Sealed, w: World): (Token, Assessment) {
    var t := Started(k, w);
    if Local(k, w).status != Status.Pending then (t, Local(k, w))
    else
      var t' := AfterStatus(t, w.aggregate);
      (t', if t'.pending.Some? then t'.pending.value else Resolved(WithStatus(Local(k, w), w.aggregate), t'))
  }

  function AudienceStage(k: Sealed, w: World): (Token, Assessment) {
    var (t, a) := StatusStage(k, w);
    if a.status != Status.Pending || a.audience == [] then (t, a)
    else if Aud.Evaluate(a.audience, k.receiver, w.memberships, k.claimedAt, k.skew).Failure? then
      (Interrupt(t), INTERRUPTED)
    else
      var t' := AfterAudience(t, w.memberships);
      (t', if t'.pending.Some? then t'.pending.value else Resolved(a, t'))
  }

  /** The last stage: the assessment that is finalized. */
  function Assessed(k: Sealed, w: World): (Token, Assessment) {
    var (t, a) := AudienceStage(k, w);
    if a.status != Status.Pending then (t, a)
    else
      var t' := AfterRate(t, w.rate);
      if t'.status == Status.Pending || t'.reason == EvaluationInterrupted then (Interrupt(t'), INTERRUPTED)
      else (t', Resolved(a, t'))
  }

  /** The progress records of a verification that nothing stops, in order. */
  function Records(k: Sealed, w: World): seq<Progress> {
    (if ResolvesTrust(k, w) then [TrustStarted(k, w), StatusStarted(k, w)] else [])
    + if Local(k, w).status == Status.Pending then [StatusKnown(k, w)] else []
  }

  /** Trust resolution and local evaluation, with the records around them. */
  method EvaluateStage(k: Sealed, w: World, token: EvaluationToken)
    returns (a: Assessment, progress: Progress, records: seq<Progress>)
    requires token.View() == Created(k)
    modifies token
    ensures token.View() == Started(k, w) && a == Local(k, w) && progress == StatusStarted(k, w)
    ensures records == if ResolvesTrust(k, w) then [TrustStarted(k, w), StatusStarted(k, w)] else []
  {
    progress, records := INITIAL, [];
    if ResolvesTrust(k, w) {
      progress := progress.(trust := Trust.Unavailable);
      records := records + [progress];
      progress := progress.(trust := Resolution(w));
    }
    token.EvaluateOnce(Options(k, w));
    a := Local(k, w);
    if ResolvesTrust(k, w) {
      if && progress.trust == Trusted && a.context.kind in {ContextKind.Bound, ContextKind.NotRequired}
         && a.context.digest.Some?
      {
        progress := progress.(context := a.context);
      }
      if a.status == Status.Pending { progress := progress.(status := StatusKind.Unavailable); }
      records := records + [progress];
    }
  }

  /** VerifyProofBundleV2 after the claim: the stages on one token object. */
  method Verify(c: Claim, k: Sealed, w: World) returns (result: Option<Receipt>, records: seq<Progress>)
    ensures result == Build(c, Assessed(k, w).1, StatusKnown(k, w))
    ensures records == Records(k, w)
  {
    var token := new EvaluationToken(k);
    var a, progress;
    a, progress, records := EvaluateStage(k, w, token);
    if a.status == Status.Pending {
      a := WithStatus(a, w.aggregate);
      progress := progress.(status := a.statusKind, evidence := w.aggregate.evidence);
      records := records + [progress];
      token.ResolveStatus(w.aggregate);
      a := Returned(a, token);
    }
    assert (token.View(), a) == StatusStage(k, w) && progress == StatusKnown(k, w);
    a := PolicyStages(k, w, token, a);
    result := Build(c, a, progress);
  }

  /** The audience and rate stages. */
  method PolicyStages(k: Sealed, w: World, token: EvaluationToken, resolved: Assessment) returns (a: Assessment)
    requires (token.View(), resolved) == StatusStage(k, w) && token.sealed == k
    modifies token
    ensures (token.View(), a) == Assessed(k, w)
  {
    a := resolved;
    if a.status == Status.Pending && a.audience != [] {
      var failed := Aud.Evaluate(a.audience, k.receiver, w.memberships, k.claimedAt, k.skew).Failure?;
      if failed {
        token.InterruptEvaluation();
        a := INTERRUPTED;
      } else {
        token.ResolveAudience(w.memberships);
        a := Returned(a, token);
      }
    }
    assert (token.View(), a) == AudienceStage(k, w);
    if a.status == Status.Pending {
      token.ResolveRate(w.rate);
      if token.status == Status.Pending || token.reason == EvaluationInterrupted {
        token.InterruptEvaluation();
        a := INTERRUPTED;
      } else {
        a := Resolved(a, token.View());
      }
    }
  }

  /** The assessment that a stage hands back for the token it left. */
  function Returned(a: Assessment, token: EvaluationToken): Assessment
    reads token
  {
    if token.pending.Some? then token.pending.value else Resolved(a, token.View())
  }

  /* ---- What the status stage brings ---- */

  /** The aggregate of one result for every certificate, or the fixed
      unavailable answer when it could not be formed. */
  ghost predicate AggregateOk(w: World) {
    || w.aggregate == Agg.Assessment(Agg.IsUnavailable, {}, 0)
    || exists results, roles ::
         |results| == |w.input.certs| && Agg.IsAggregate(Checks(w.input.certs), results, roles, w.aggregate)
  }

  /** Preflight admits a valid context policy or none, and seals its digest. */
  predicate SealsPolicy(c: Claim, policy: Option<ContextPolicy>) {
    match policy
    case None => c.policy == None
    case Some(p) => p.valid && c.policy == Some(p.digest)
  }

  /** The claim seals the issuers of the chain, sorted and without duplicates,
      its own required scope, time and context policy, and the subject of the
      leaf. */
  ghost predicate ClaimOk(c: Claim, k: Sealed, w: World) {
    && Ascending(c.issuers) && (forall i :: i in c.issuers <==> exists x :: x in w.input.certs && x.issuer == i)
    && c.requiredScope == k.requiredScope && c.claimedAt == k.claimedAt && ValidTimestamp(c.claimedAt)
    && (w.input.certs != [] ==> c.agent == w.input.certs[0].subject) && SealsPolicy(c, w.input.policy)
  }

  /** What a receipt asks of the evidence that it carries, except that no row
      is signed by the verifier's own key. */
  ghost predicate EvidenceFits(c: Claim, kind: StatusKind, evidence: set<Agg.Row>) {
    && (kind == StatusKind.NotEvaluated ==> evidence == {})
    && (kind in {StatusKind.Current, StatusKind.HasRevoked, StatusKind.Stale} ==> evidence != {})
    && (kind in {StatusKind.Current, StatusKind.Stale} ==> forall i :: i in c.issuers ==> Agg.HasHistory(evidence, i))
    && (forall e :: e in evidence ==>
          && e.issuer in c.issuers && e.key != "" && e.key !in c.issuers && e.key != c.agent
          && 0 < e.sequence <= MAX_SAFE_INTEGER && e.objectType in {Agg.LIST, Agg.PUSH} && e.digestOk)
    && (forall e, f :: e in evidence && f in evidence && e.key == f.key ==> e.issuer == f.issuer)
  }

  lemma CheckOf(certs: seq<Cert>, i: int)
    requires 0 <= i < |certs|
    ensures certs[i].issuer in Agg.Taken(Checks(certs)) && certs[i].subject in Agg.Taken(Checks(certs))
  {
    assert Checks(certs)[i] in Checks(certs);
  }

  lemma RevokedHasEvidence(checks: seq<Agg.Check>, results: seq<Agg.StatusResult>, roles: Agg.Roles, g: Agg.Assessment)
    requires |checks| == |results| && Agg.IsAggregate(checks, results, roles, g) && g.verdict == Agg.HasRevoked
    ensures g.evidence != {}
  {
    var i :| 0 <= i < |checks| && Agg.ProvesRevoked(checks, results, roles, i);
    var r := results[i].evidence[0];
    assert r in results[i].evidence;
    assert Agg.RowOk(Agg.Taken(checks), roles, checks[i].issuer, results[i].kind, r);
    assert r in Agg.Rows(checks, results, roles);
    assert r in g.evidence;
  }

  lemma RowsFit(c: Claim, k: Sealed, w: World, results: seq<Agg.StatusResult>, roles: Agg.Roles)
    requires ClaimOk(c, k, w) && w.input.certs != [] && |results| == |w.input.certs|
    requires Agg.IsAggregate(Checks(w.input.certs), results, roles, w.aggregate)
    ensures forall e :: e in w.aggregate.evidence ==>
              && e.issuer in c.issuers && e.key != "" && e.key !in c.issuers && e.key != c.agent
              && 0 < e.sequence <= MAX_SAFE_INTEGER && e.objectType in {Agg.LIST, Agg.PUSH} && e.digestOk
    ensures forall e, f :: e in w.aggregate.evidence && f in w.aggregate.evidence && e.key == f.key ==>
              e.issuer == f.issuer
  {
    var checks := Checks(w.input.certs);
    forall e | e in w.aggregate.evidence
      ensures && e.issuer in c.issuers && e.key != "" && e.key !in c.issuers && e.key != c.agent
              && 0 < e.sequence <= MAX_SAFE_INTEGER && e.objectType in {Agg.LIST, Agg.PUSH} && e.digestOk
              && e.key in roles.keyIssuers && roles.keyIssuers[e.key] == e.issuer
    {
      var i :| && 0 <= i < |checks| && e in results[i].evidence
               && Agg.RowOk(Agg.Taken(checks), roles, checks[i].issuer, results[i].kind, e);
      assert w.input.certs[i] in w.input.certs;
      CheckOf(w.input.certs, 0);
      if e.key in c.issuers {
        var x :| x in w.input.certs && x.issuer == e.key;
        var j :| 0 <= j < |w.input.certs| && w.input.certs[j] == x;
        CheckOf(w.input.certs, j);
      }
    }
  }

  lemma HistoriesFit(c: Claim, k: Sealed, w: World, results: seq<Agg.StatusResult>, roles: Agg.Roles)
    requires ClaimOk(c, k, w) && w.input.certs != [] && |results| == |w.input.certs|
    requires Agg.IsAggregate(Checks(w.input.certs), results, roles, w.aggregate)
    requires w.aggregate.verdict in {Agg.Current, Agg.IsStale}
    ensures w.aggregate.evidence != {} && forall i :: i in c.issuers ==> Agg.HasHistory(w.aggregate.evidence, i)
  {
    var checks := Checks(w.input.certs);
    forall i | i in c.issuers ensures Agg.HasHistory(w.aggregate.evidence, i) {
      var x :| x in w.input.certs && x.issuer == i;
      var j :| 0 <= j < |w.input.certs| && w.input.certs[j] == x;
      Agg.CurrentHasHistories(checks, results, roles, w.aggregate, j);
      assert checks[j].issuer == i;
    }
    assert w.input.certs[0] in w.input.certs;
    assert w.input.certs[0].issuer in c.issuers;
    assert Agg.HasHistory(w.aggregate.evidence, w.input.certs[0].issuer);
  }

  /** What the status stage reports fits every receipt of the claim. */
  lemma AggregateFits(c: Claim, k: Sealed, w: World, a: Assessment)
    requires ClaimOk(c, k, w) && w.input.certs != [] && AggregateOk(w)
    ensures EvidenceFits(c, WithStatus(a, w.aggregate).statusKind, w.aggregate.evidence)
  {
    if w.aggregate != Agg.Assessment(Agg.IsUnavailable, {}, 0) {
      var results, roles :|
        |results| == |w.input.certs| && Agg.IsAggregate(Checks(w.input.certs), results, roles, w.aggregate);
      RowsFit(c, k, w, results, roles);
      if w.aggregate.verdict == Agg.HasRevoked {
        RevokedHasEvidence(Checks(w.input.certs), results, roles, w.aggregate);
      }
      if w.aggregate.verdict in {Agg.Current, Agg.IsStale} { HistoriesFit(c, k, w, results, roles); }
    }
  }

  /* ---- Where the stages can end ---- */

  /** A policy failure with the context outcome that it can come with. */
  predicate FaultFits(f: Fault, context: Context) {
    || f == Fault(Status.ScopeDenied, Reason.ScopeDenied)
    || (f == Fault(Status.AuthorizationUnverified, Reason.ActionContextUnverified)
        && context.kind in {Unbound, Unverified})
    || (f == Fault(Status.ConstraintDenied, Reason.ConstraintDenied) && context.kind == Mismatch)
    || (ConstraintFault(f) && context.kind in {ContextKind.Bound, ContextKind.NotRequired})
  }

  predicate ConstraintFault(f: Fault) {
    f in {Fault(Status.ConstraintDenied, Reason.ConstraintDenied),
          Fault(Status.ConstraintUnknown, Reason.ConstraintUnknown),
          Fault(Status.ConstraintUnverifiable, Reason.ConstraintUnverifiable)}
  }

  predicate ContextReported(c: Context) {
    && c.kind != ContextKind.NotEvaluated
    && (c.kind == Unbound ==> c.digest.None?)
    && (c.kind in {ContextKind.Bound, ContextKind.NotRequired, Mismatch} ==> c.digest.Some?)
  }

  /** A pending assessment under a trusted root: what its context and its
      failure can be, and what is granted without one. */
  predicate PendingOk(k: Sealed, a: Assessment) {
    && a.status == Status.Pending
    && ContextReported(a.context)
    && (a.failure.Some? ==> FaultFits(a.failure.value, a.context))
    && (a.failure.None? ==>
        a.context.kind in {ContextKind.Bound, ContextKind.NotRequired} && k.requiredScope in a.scope)
  }

  lemma PendingIsOk(k: Sealed, w: World)
    requires Local(k, w).status == Status.Pending
    ensures PendingOk(k, Local(k, w)) && ResolvesTrust(k, w) && w.trust == Trusted
    ensures Local(k, w) == PendingAssessment(k, Options(k, w)) && Local(k, w).statusKind == StatusKind.NotEvaluated
  {
  }

  /** What a terminal assessment after a current status can be. */
  predicate CurrentEnd(k: Sealed, a: Assessment) {
    && ContextReported(a.context)
    && (|| FaultFits(Fault(a.status, a.reason), a.context)
        || (a.status == AuthorizedAgent && a.reason == Authorized
            && a.context.kind in {ContextKind.Bound, ContextKind.NotRequired} && k.requiredScope in a.scope))
  }

  /** An end before the status stage, with the trust it goes with. */
  predicate EarlyEnd(a: Assessment, trust: Trust, noCerts: bool) {
    || (a == Plain(Status.DelegationNotAuthorized, NotDelegated) && noCerts)
    || (trust == Trust.Unavailable && a == Plain(AuthorizationUnverified, TrustUnavailable))
    || (trust == Untrusted && a == Plain(Status.Unauthorized, Reason.Unauthorized))
    || (trust == Trusted
        && a in {Plain(Invalid, ProofInvalid), Plain(Expired, DelegationExpired),
                 Plain(Status.InvalidScope, Reason.InvalidScope),
                 Plain(Status.DelegationNotAuthorized, Reason.DelegationNotAuthorized)})
  }

  /** An end that the status stage decided, or that followed a current one. */
  predicate LateEnd(k: Sealed, g: Agg.Assessment, a: Assessment) {
    && ContextReported(a.context)
    && a.statusKind == WithStatus(a, g).statusKind && a.evidence == g.evidence
    && match g.verdict
       case HasRevoked => a.status == Status.Revoked && a.reason == DelegationRevoked
       case IsUnavailable => a.status == AuthorizationUnverified && a.reason == StatusUnavailable
       case IsStale => a.status == AuthorizationUnverified && a.reason == StatusStale
       case Current => CurrentEnd(k, a)
  }

  /** How the whole evaluation can end. */
  ghost predicate EndsWell(k: Sealed, w: World, a: Assessment) {
    || a == INTERRUPTED
    || (&& (ResolvesTrust(k, w) || w.input.certs == [])
        && EarlyEnd(a, if ResolvesTrust(k, w) then Resolution(w) else Trust.NotEvaluated, w.input.certs == []))
    || (ResolvesTrust(k, w) && w.trust == Trusted && LateEnd(k, w.aggregate, a))
  }

  lemma LocalEnds(k: Sealed, w: World)
    ensures Local(k, w).status == Status.Pending || EndsWell(k, w, Local(k, w))
  {
  }

  /** A stage that still waits, after a current status. */
  ghost predicate Waits(k: Sealed, w: World, t: Token, a: Assessment) {
    && t.sealed == k && t.complete && t.status == Status.Pending && t.pending == Some(a) && PendingOk(k, a)
    && ResolvesTrust(k, w) && w.trust == Trusted && w.aggregate.verdict == Agg.Current
    && a.statusKind == StatusKind.Current && a.evidence == w.aggregate.evidence
    && (a.failure.Some? ==> Combinable(a))
  }

  lemma StatusEnds(k: Sealed, w: World)
    ensures var (t, a) := StatusStage(k, w); if a.status == Status.Pending then Waits(k, w, t, a) else EndsWell(k, w, a)
  {
    LocalEnds(k, w);
    if Local(k, w).status == Status.Pending {
      PendingIsOk(k, w);
      assert Started(k, w).pending == Some(Local(k, w));
    }
  }

  lemma AudienceEnds(k: Sealed, w: World)
    ensures var (t, a) := AudienceStage(k, w);
            if a.status == Status.Pending then Waits(k, w, t, a) && a.audience == [] else EndsWell(k, w, a)
  {
    StatusEnds(k, w);
    var (t, a) := StatusStage(k, w);
    if a.status == Status.Pending && a.audience != [] {
      AudienceResolves(k, w, t, a);
    }
  }

  lemma AudienceResolves(k: Sealed, w: World, t: Token, a: Assessment)
    requires Waits(k, w, t, a) && a.audience != []
    ensures var r := Aud.Evaluate(a.audience, k.receiver, w.memberships, k.claimedAt, k.skew);
            var t' := AfterAudience(t, w.memberships);
            r.Success? ==> if t'.pending.Some? then Waits(k, w, t', t'.pending.value) && t'.pending.value.audience == []
                           else EndsWell(k, w, Resolved(a, t'))
  {
    assert AwaitsAudience(t);
  }

  lemma RateEnds(k: Sealed, w: World)
    ensures EndsWell(k, w, Assessed(k, w).1)
  {
    AudienceEnds(k, w);
    var (t, a) := AudienceStage(k, w);
    if a.status == Status.Pending { RateResolves(k, w, t, a); }
  }

  lemma RateResolves(k: Sealed, w: World, t: Token, a: Assessment)
    requires Waits(k, w, t, a) && a.audience == []
    ensures var t' := AfterRate(t, w.rate);
            t'.status == Status.Pending || t'.reason == EvaluationInterrupted || EndsWell(k, w, Resolved(a, t'))
  {
    assert a.failure.None?;
    assert AwaitsRate(t);
  }

  /* ---- Every end has an acceptable receipt ---- */

  lemma KnownProgress(k: Sealed, w: World)
    ensures ResolvesTrust(k, w) ==> StatusKnown(k, w).trust == Resolution(w)
    ensures !ResolvesTrust(k, w) ==> StatusKnown(k, w) == INITIAL
    ensures ProgressOk(StatusKnown(k, w)) && ProgressOk(StatusStarted(k, w)) && ProgressOk(TrustStarted(k, w))
    ensures ProgressOk(INITIAL)
    ensures StatusKnown(k, w).status == StatusKind.NotEvaluated
            || (w.input.certs != [] && StatusKnown(k, w).evidence == w.aggregate.evidence
                && StatusKnown(k, w).status == WithStatus(Local(k, w), w.aggregate).statusKind)
  {
    if Local(k, w).status == Status.Pending { PendingIsOk(k, w); }
  }

  lemma EarlyAccepts(c: Claim, a: Assessment, p: Progress)
    requires EarlyEnd(a, p.trust, c.issuers == [])
    ensures Build(c, a, p).Some? && DecisionOk(Build(c, a, p).value)
  {
  }

  lemma LateAccepts(c: Claim, k: Sealed, g: Agg.Assessment, a: Assessment, p: Progress)
    requires LateEnd(k, g, a) && p.trust == Trusted && c.requiredScope == k.requiredScope
    requires EvidenceFits(c, a.statusKind, a.evidence)
    ensures Build(c, a, p).Some? && DecisionOk(Build(c, a, p).value)
  {
  }

  lemma TableAccepts(c: Claim, k: Sealed, w: World, a: Assessment)
    requires ClaimOk(c, k, w) && AggregateOk(w) && EndsWell(k, w, a)
    ensures Build(c, a, StatusKnown(k, w)).Some?
    ensures DecisionOk(Build(c, a, StatusKnown(k, w)).value)
  {
    KnownProgress(k, w);
    IssuersExactly(c, k, w);
    var p := StatusKnown(k, w);
    if a == INTERRUPTED {
    } else if ResolvesTrust(k, w) && w.trust == Trusted && LateEnd(k, w.aggregate, a) {
      AggregateFits(c, k, w, a);
      LateAccepts(c, k, w.aggregate, a, p);
    } else {
      EarlyAccepts(c, a, p);
    }
  }

  lemma IssuersExactly(c: Claim, k: Sealed, w: World)
    requires ClaimOk(c, k, w)
    ensures c.issuers == [] <==> w.input.certs == []
  {
    if c.issuers != [] { assert c.issuers[0] in c.issuers; }
    if w.input.certs != [] { assert w.input.certs[0] in w.input.certs && w.input.certs[0].issuer in c.issuers; }
  }

  lemma BodyAccepts(c: Claim, k: Sealed, w: World, a: Assessment)
    requires ClaimOk(c, k, w) && AggregateOk(w) && EndsWell(k, w, a)
    ensures Build(c, a, StatusKnown(k, w)).Some?
    ensures var r := Build(c, a, StatusKnown(k, w)).value; BodyOk(r) && EvidenceFits(c, r.status, r.evidence)
  {
    TableAccepts(c, k, w, a);
    KnownProgress(k, w);
    IssuersExactly(c, k, w);
    if w.input.certs != [] { AggregateFits(c, k, w, a); AggregateFits(c, k, w, Local(k, w)); }
  }

  lemma EvidenceExactly(c: Claim, r: Receipt)
    requires r.issuers == c.issuers && r.agent == c.agent && r.verifier == c.verifier
    requires EvidenceFits(c, r.status, r.evidence)
    ensures EvidenceOk(r) <==> forall e :: e in r.evidence ==> e.key != c.verifier
  {
  }

  /** The evidence that a verification reports: the aggregate's once the status
      stage ran, and none before. */
  function Reported(k: Sealed, w: World): set<Agg.Row> {
    if Local(k, w).status == Status.Pending then w.aggregate.evidence else {}
  }

  /** The status stage runs and reports a row under the verifier's own key. */
  predicate SignedByVerifier(c: Claim, k: Sealed, w: World) {
    exists e :: e in Reported(k, w) && e.key == c.verifier
  }

  /** A terminal assessment after the status stage carries its aggregate. */
  predicate CarriesStatus(w: World, a: Assessment) {
    a == INTERRUPTED || (a.statusKind == WithStatus(a, w.aggregate).statusKind && a.evidence == w.aggregate.evidence)
  }

  lemma StatusStageCarries(k: Sealed, w: World)
    requires Local(k, w).status == Status.Pending
    ensures CarriesStatus(w, StatusStage(k, w).1)
  {
    assert Started(k, w).pending == Some(Local(k, w));
  }

  lemma AudienceStageCarries(k: Sealed, w: World)
    requires Local(k, w).status == Status.Pending
    ensures CarriesStatus(w, AudienceStage(k, w).1)
  {
    StatusStageCarries(k, w);
    StatusEnds(k, w);
    var (t, a) := StatusStage(k, w);
    if a.status == Status.Pending && a.audience != [] { AudienceCarries(w, t, a); }
  }

  lemma AudienceCarries(w: World, t: Token, a: Assessment)
    requires CarriesStatus(w, a) && a.status == Status.Pending && t.pending == Some(a)
    ensures var t' := AfterAudience(t, w.memberships);
            CarriesStatus(w, if t'.pending.Some? then t'.pending.value else Resolved(a, t'))
  {
  }

  lemma StatusIsCarried(k: Sealed, w: World)
    requires Local(k, w).status == Status.Pending
    ensures CarriesStatus(w, Assessed(k, w).1)
  {
    AudienceStageCarries(k, w);
    var (t, a) := AudienceStage(k, w);
  }

  lemma BuiltEvidence(c: Claim, k: Sealed, w: World)
    requires Build(c, Assessed(k, w).1, StatusKnown(k, w)).Some?
    ensures Build(c, Assessed(k, w).1, StatusKnown(k, w)).value.evidence == Reported(k, w)
  {
    if Local(k, w).status == Status.Pending { StatusIsCarried(k, w); }
  }

  /** Whatever the environment answers, the evaluation ends in a terminal
      result whose receipt the decision table accepts.  The remaining check of
      the body fails exactly when the status stage reports a row under the
      verifier's own key. */
  lemma PipelineIsAccepted(c: Claim, k: Sealed, w: World)
    requires ClaimOk(c, k, w) && AggregateOk(w)
    ensures Build(c, Assessed(k, w).1, StatusKnown(k, w)).Some?
    ensures var r := Build(c, Assessed(k, w).1, StatusKnown(k, w)).value;
            DecisionOk(r) && BodyOk(r) && (EvidenceOk(r) <==> !SignedByVerifier(c, k, w))
  {
    RateEnds(k, w);
    var a, p := Assessed(k, w).1, StatusKnown(k, w);
    BodyAccepts(c, k, w, a);
    EvidenceExactly(c, Build(c, a, p).value);
    BuiltEvidence(c, k, w);
  }

  /** A definitive rate exhaustion at finalization turns an allow into a deny
      that is accepted under the same condition. */
  lemma ExhaustionIsAccepted(c: Claim, k: Sealed, w: World)
    requires ClaimOk(c, k, w) && AggregateOk(w) && Assessed(k, w).1.status == AuthorizedAgent
    ensures var a := Assessed(k, w).1.(status := Status.ConstraintDenied, reason := Reason.ConstraintDenied);
            && Build(c, a, StatusKnown(k, w)).Some?
            && var r := Build(c, a, StatusKnown(k, w)).value;
               DecisionOk(r) && BodyOk(r) && (EvidenceOk(r) <==> !SignedByVerifier(c, k, w))
  {
    RateEnds(k, w);
    var allow := Assessed(k, w).1;
    BodyAccepts(c, k, w, allow);
    BuiltEvidence(c, k, w);
    DeniedInstead(c, k, w, allow, allow.(status := Status.ConstraintDenied, reason := Reason.ConstraintDenied));
  }

  lemma DeniedInstead(c: Claim, k: Sealed, w: World, allow: Assessment, a: Assessment)
    requires ClaimOk(c, k, w) && AggregateOk(w) && EndsWell(k, w, allow) && allow.status == AuthorizedAgent
    requires a == allow.(status := Status.ConstraintDenied, reason := Reason.ConstraintDenied)
    requires Build(c, allow, StatusKnown(k, w)).Some?
    requires Build(c, allow, StatusKnown(k, w)).value.evidence == Reported(k, w)
    ensures Build(c, a, StatusKnown(k, w)).Some?
    ensures var r := Build(c, a, StatusKnown(k, w)).value;
            DecisionOk(r) && BodyOk(r) && (EvidenceOk(r) <==> !SignedByVerifier(c, k, w))
  {
    DeniedEndsWell(k, w, allow, a);
    BodyAccepts(c, k, w, a);
    SameEvidenceBuilt(c, allow, a, StatusKnown(k, w));
    SignedExactly(c, k, w, a, StatusKnown(k, w), Build(c, a, StatusKnown(k, w)).value);
  }

  lemma SignedExactly(c: Claim, k: Sealed, w: World, a: Assessment, p: Progress, r: Receipt)
    requires Build(c, a, p) == Some(r) && BodyOk(r) && EvidenceFits(c, r.status, r.evidence)
    requires r.evidence == Reported(k, w)
    ensures DecisionOk(r) && (EvidenceOk(r) <==> !SignedByVerifier(c, k, w))
  {
    EvidenceExactly(c, r);
  }

  lemma DeniedEndsWell(k: Sealed, w: World, allow: Assessment, a: Assessment)
    requires EndsWell(k, w, allow) && allow.status == AuthorizedAgent
    requires a == allow.(status := Status.ConstraintDenied, reason := Reason.ConstraintDenied)
    ensures EndsWell(k, w, a)
  {
    assert LateEnd(k, w.aggregate, allow) && CurrentEnd(k, allow);
    assert ConstraintFault(Fault(a.status, a.reason));
  }

  lemma SameEvidenceBuilt(c: Claim, a: Assessment, b: Assessment, p: Progress)
    requires Build(c, a, p).Some? && Build(c, b, p).Some? && b == a.(status := b.status, reason := b.reason)
    requires a.reason != EvaluationInterrupted && b.reason != EvaluationInterrupted
    ensures Build(c, a, p).value.evidence == Build(c, b, p).value.evidence
  {
  }

  /** Where such a row can come from: the verifier's key is bound as a status
      key of an issuer of the chain, and if it is not a current one the row
      belongs to a revoked result. */
  lemma SignedByStatusKey(c: Claim, k: Sealed, w: World, results: seq<Agg.StatusResult>, roles: Agg.Roles)
    requires |results| == |w.input.certs| && Agg.IsAggregate(Checks(w.input.certs), results, roles, w.aggregate)
    requires SignedByVerifier(c, k, w)
    ensures exists i :: 0 <= i < |results| && SignsResult(c, w, results, roles, i)
  {
    var checks := Checks(w.input.certs);
    var e :| e in w.aggregate.evidence && e.key == c.verifier;
    var i :| 0 <= i < |checks| && e in results[i].evidence
             && Agg.RowOk(Agg.Taken(checks), roles, checks[i].issuer, results[i].kind, e);
    assert SignsResult(c, w, results, roles, i);
  }

  ghost predicate SignsResult(c: Claim, w: World, results: seq<Agg.StatusResult>, roles: Agg.Roles, i: int)
    requires 0 <= i < |results| == |w.input.certs|
  {
    var issuer := w.input.certs[i].issuer;
    && c.verifier in roles.keyIssuers && roles.keyIssuers[c.verifier] == issuer
    && (results[i].kind == Agg.Revoked || (issuer in roles.current && roles.current[issuer] == c.verifier))
    && exists e :: e in results[i].evidence && e.key == c.verifier
  }

  /* ---- Interruption ---- */

  /** What recovery finds: the last progress on record. */
  function LastOnRecord(rs: seq<Progress>): Progress {
    if rs == [] then INITIAL else rs[|rs| - 1]
  }

  /** The evaluator's progress at the end is the last one it recorded. */
  lemma LastIsKnown(k: Sealed, w: World)
    ensures LastOnRecord(Records(k, w)) == StatusKnown(k, w)
  {
    if Local(k, w).status == Status.Pending { PendingIsOk(k, w); }
  }

  /** The progress on record when an evaluation stops, wherever it stops. */
  ghost predicate OnRecord(k: Sealed, w: World, p: Progress) {
    p == INITIAL || p == TrustStarted(k, w) || p == StatusStarted(k, w) || p == StatusKnown(k, w)
  }

  /** After any number of records. */
  lemma StoppedOnRecord(k: Sealed, w: World, n: nat)
    requires n <= |Records(k, w)|
    ensures OnRecord(k, w, LastOnRecord(Records(k, w)[..n]))
    ensures n == |Records(k, w)| ==> LastOnRecord(Records(k, w)[..n]) == StatusKnown(k, w)
    ensures n < |Records(k, w)| ==> LastOnRecord(Records(k, w)[..n]).evidence == {}
  {
    LastIsKnown(k, w);
    assert Records(k, w)[..|Records(k, w)|] == Records(k, w);
    if n > 0 { assert Records(k, w)[..n][n - 1] == Records(k, w)[n - 1]; }
  }

  /** What a recorded progress satisfies. */
  lemma RecordFits(c: Claim, k: Sealed, w: World, p: Progress)
    requires ClaimOk(c, k, w) && AggregateOk(w) && OnRecord(k, w, p)
    ensures ProgressOk(p) && EvidenceFits(c, p.status, p.evidence)
    ensures c.issuers == [] ==> p == INITIAL
  {
    KnownProgress(k, w);
    IssuersExactly(c, k, w);
    if p == StatusKnown(k, w) && p.status != StatusKind.NotEvaluated { AggregateFits(c, k, w, Local(k, w)); }
  }

  lemma ProgressAccepts(c: Claim, p: Progress)
    requires Ascending(c.issuers) && ValidTimestamp(c.claimedAt) && ProgressOk(p)
    requires EvidenceFits(c, p.status, p.evidence) && (c.issuers == [] ==> p == INITIAL)
    ensures Recovered(c, p).Some? && BodyOk(Recovered(c, p).value)
    ensures EvidenceOk(Recovered(c, p).value) <==> forall e :: e in p.evidence ==> e.key != c.verifier
  {
    CanonicalExactly(c.issuers);
  }

  /** Wherever an evaluation stops, after however many of its records, recovery
      builds a receipt that the table accepts; the evidence check fails exactly
      when the status was already recorded with a row under the verifier's own
      key, and then no recovery can succeed. */
  lemma RecoveryIsAccepted(c: Claim, k: Sealed, w: World, n: nat)
    requires ClaimOk(c, k, w) && AggregateOk(w) && n <= |Records(k, w)|
    ensures var r := Recovered(c, LastOnRecord(Records(k, w)[..n]));
            && r.Some? && DecisionOk(r.value) && BodyOk(r.value)
            && (EvidenceOk(r.value) <==> n < |Records(k, w)| || !SignedByVerifier(c, k, w))
  {
    var p := LastOnRecord(Records(k, w)[..n]);
    StoppedOnRecord(k, w, n);
    RecordFits(c, k, w, p);
    ProgressAccepts(c, p);
    assert n == |Records(k, w)| ==> p.evidence == Reported(k, w);
  }

  lemma OnlyInterruptedIsInterrupted(k: Sealed, w: World)
    requires Assessed(k, w).1.reason == EvaluationInterrupted
    ensures Assessed(k, w).1 == INTERRUPTED
  {
    RateEnds(k, w);
  }

  /** A verification that is interrupted in process, at whatever stage, builds
      the receipt that recovery builds from the last progress it recorded,
      exactly when the sealed issuers are sorted and distinct. */
  lemma InterruptedIsRecovered(c: Claim, k: Sealed, w: World)
    requires ValidTimestamp(c.claimedAt) && Assessed(k, w).1.reason == EvaluationInterrupted
    ensures Build(c, Assessed(k, w).1, StatusKnown(k, w)) == Recovered(c, LastOnRecord(Records(k, w)))
            <==> Ascending(c.issuers)
  {
    OnlyInterruptedIsInterrupted(k, w);
    LastIsKnown(k, w);
    KnownProgress(k, w);
    CanonicalExactly(c.issuers);
  }

  /* ---- The body check does fail ---- */

  /** A row signed by "v", once a status key of "i" and now retired. */
  const RETIRED_ROW: Agg.Row := Agg.Row("i", "v", Agg.LIST, 1, "d", true)

  const STATUS_ROLES: Agg.Roles := Agg.Roles(map["v" := "i", "k" := "i"], map["i" := "k"], {})

  const REVOKED_RESULTS: seq<Agg.StatusResult> := [Agg.StatusResult(Agg.Revoked, 0, [RETIRED_ROW])]

  const CHAIN: seq<Cert> := [Cert("i", "s", "c", 0, 10, true, {"read"}, true, [])]

  /** The verifier "v" checks a chain whose only certificate is revoked. */
  function FailingWorld(): World {
    World(Input(true, CHAIN, true, true, true, Some(ContextPolicy(true, "p", false, "")), None, Success(0)),
          Trusted, Agg.Assessment(Agg.HasRevoked, {RETIRED_ROW}, 0), [], NoAnswer)
  }

  const FAILING_SEAL: Sealed := Sealed(5, true, 0, "r", "read", [])

  const FAILING_CLAIM: Claim := Claim("v", "s", "b", ["i"], "read", Some("p"), 5)

  lemma RowIsAuthentic()
    ensures var checks := Checks(CHAIN);
            Agg.RowOk(Agg.Taken(checks), STATUS_ROLES, checks[0].issuer, Agg.Revoked, RETIRED_ROW)
  {
    var checks := Checks(CHAIN);
    forall x | x in Agg.Taken(checks) ensures x == "i" || x == "s" {
      var c :| c in checks && (c.issuer == x || c.subject == x);
      assert c == checks[0];
    }
    assert "v"[0] != "i"[0] && "v"[0] != "s"[0] && "v" != "";
  }

  lemma RetiredKeyWitnesses()
    ensures Agg.IsAggregate(Checks(CHAIN), REVOKED_RESULTS, STATUS_ROLES, FailingWorld().aggregate)
  {
    var checks := Checks(CHAIN);
    RowIsAuthentic();
    assert REVOKED_RESULTS[0].evidence == [RETIRED_ROW];
    var rows := Agg.Rows(checks, REVOKED_RESULTS, STATUS_ROLES);
    assert rows == {RETIRED_ROW};
    assert !Agg.Conflicted(rows, RETIRED_ROW.digest);
    assert Agg.ProvesRevoked(checks, REVOKED_RESULTS, STATUS_ROLES, 0);
    assert Agg.Unconflicted(rows) == {RETIRED_ROW};
  }

  lemma FailingClaimIsSealed()
    ensures ClaimOk(FAILING_CLAIM, FAILING_SEAL, FailingWorld()) && AggregateOk(FailingWorld())
  {
    RetiredKeyWitnesses();
    assert CHAIN[0] in CHAIN;
    assert |REVOKED_RESULTS| == |CHAIN|;
  }

  lemma FailingChainIsPending()
    ensures Local(FAILING_SEAL, FailingWorld()).status == Status.Pending
  {
    assert forall x :: x in CHAIN ==> x == CHAIN[0];
  }

  /** The receipt of a verification passes the table but not the body check,
      and neither does what recovery builds from its last record. */
  ghost predicate Refused(c: Claim, k: Sealed, w: World) {
    var built, recovered := Build(c, Assessed(k, w).1, StatusKnown(k, w)), Recovered(c, LastOnRecord(Records(k, w)));
    && built.Some? && DecisionOk(built.value) && !EvidenceOk(built.value)
    && recovered.Some? && !EvidenceOk(recovered.value)
  }

  lemma SignedIsRefused(c: Claim, k: Sealed, w: World)
    requires ClaimOk(c, k, w) && AggregateOk(w) && SignedByVerifier(c, k, w)
    ensures Refused(c, k, w)
  {
    PipelineIsAccepted(c, k, w);
    LastRecoveryIsRefused(c, k, w, Records(k, w));
  }

  lemma LastRecoveryIsRefused(c: Claim, k: Sealed, w: World, rs: seq<Progress>)
    requires ClaimOk(c, k, w) && AggregateOk(w) && SignedByVerifier(c, k, w) && rs == Records(k, w)
    ensures Recovered(c, LastOnRecord(rs)).Some? && !EvidenceOk(Recovered(c, LastOnRecord(rs)).value)
  {
    RecoveryIsAccepted(c, k, w, |rs|);
    assert rs[..|rs|] == rs;
  }

  lemma FailingIsSigned()
    ensures SignedByVerifier(FAILING_CLAIM, FAILING_SEAL, FailingWorld())
  {
    FailingChainIsPending();
    assert RETIRED_ROW in FailingWorld().aggregate.evidence && RETIRED_ROW.key == FAILING_CLAIM.verifier;
    assert RETIRED_ROW in Reported(FAILING_SEAL, FailingWorld());
  }

  lemma VerifierKeyIsRetired()
    ensures STATUS_ROLES.keyIssuers["v"] == "i" && STATUS_ROLES.current["i"] != "v"
  {
    assert "v"[0] != "k"[0];
  }

  /** The status stage runs, a retired status key with the verifier's ID
      witnesses the revocation, and the receipt is refused for good. */
  lemma BodyCheckFails() returns (c: Claim, k: Sealed, w: World)
    ensures ClaimOk(c, k, w) && AggregateOk(w) && Refused(c, k, w)
    ensures c == FAILING_CLAIM && k == FAILING_SEAL && w == FailingWorld()
    ensures STATUS_ROLES.keyIssuers["v"] == "i" && STATUS_ROLES.current["i"] != "v"
  {
    c, k, w := FAILING_CLAIM, FAILING_SEAL, FailingWorld();
    FailingClaimIsSealed();
    FailingIsSigned();
    SignedIsRefused(c, k, w);
    VerifierKeyIsRetired();
  }
}

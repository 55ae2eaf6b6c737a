/** The single-use evaluation token of one claim (authorization_v2.go,
    claim_store_v2.go): local evaluation, the status, audience and rate stages,
    and interruption, each as a transition of the token's fields. */
module ClaimToken {
  import opened StatusTypes
  import Agg = StatusAggregation
  import Aud = Audience

  /* ---- Assessments ---- */

  datatype Status =
    | NotReached | Pending | AuthorizedAgent | AuthorizationUnverified | ConstraintDenied | ConstraintUnverifiable
    | ConstraintUnknown | Unauthorized | InvalidScope | ScopeDenied | Revoked | Invalid
    | DelegationNotAuthorized | Expired

  datatype Reason =
    | Unset | ExternalChecksRequired | DeferredChecksRequired | RateReservationRequired
    | Authorized | NotDelegated | DelegationNotAuthorized | DelegationExpired | DelegationRevoked | ScopeDenied
    | ConstraintDenied | ConstraintUnverifiable | ConstraintUnknown | InvalidScope | ProofInvalid | Unauthorized
    | StatusStale | StatusUnavailable | ActionContextUnverified | TrustUnavailable | EvaluationInterrupted

  datatype StatusKind = NotEvaluated | Unavailable | Current | HasRevoked | Stale

  datatype ContextKind = NotEvaluated | Bound | NotRequired | Unbound | Unverified | Mismatch

  /** The context policy's outcome, with the policy digest it reports. */
  datatype Context = Context(kind: ContextKind, digest: Option<string>)

  datatype ContextPolicy = ContextPolicy(valid: bool, digest: string, requireBound: bool, expected: string)

  /** EvaluateProofBundleV2ContextPolicy */
  function EvaluateContext(policy: Option<ContextPolicy>, session: Option<string>): Context {
    if policy.None? || !policy.value.valid then Context(if session.Some? then Unverified else Unbound, None)
    else
      var p := policy.value;
      if !p.requireBound then Context(NotRequired, Some(p.digest))
      else if session.None? then Context(Unverified, Some(p.digest))
      else if session.value != p.expected then Context(Mismatch, Some(p.digest))
      else Context(Bound, Some(p.digest))
  }

  datatype Fault = Fault(status: Status, reason: Reason)

  type Rate = string

  /** V2LocalAuthorizationAssessment; the deferred constraints are kept apart
      by type, and a horizon of 0 means none. */
  datatype Assessment = Assessment(
    status: Status, reason: Reason, failure: Option<Fault>, audience: seq<Aud.Link>, rates: seq<Rate>,
    scope: set<string>,
    checks: seq<Agg.Check>, statusKind: StatusKind, evidence: set<Agg.Row>, context: Context,
    delegationUntil: int, statusUntil: int, audienceUntil: int, windowUntil: int, extensionUntil: int)

  function Plain(status: Status, reason: Reason): Assessment {
    Assessment(status, reason, None, [], [], {}, [], StatusKind.NotEvaluated, {},
               Context(ContextKind.NotEvaluated, None), 0, 0, 0, 0, 0)
  }

  const INTERRUPTED: Assessment := Plain(AuthorizationUnverified, EvaluationInterrupted)

  /* ---- Local evaluation ---- */

  /** One constraint with the outcome of its local evaluator; a pass may carry
      the horizon that an extension evaluator reported. */
  datatype Constraint =
    | Passes(horizon: int) | Denies | IsUnknown | IsUnverifiable
    | Audience(link: Aud.Link) | MaxRate(rate: Rate)

  datatype Cert = Cert(
    issuer: IssuerId, subject: KeyId, id: CertId, issuedAt: int, expiresAt: int,
    scopesValid: bool, scopes: set<string>, delegates: bool, constraints: seq<Constraint>)

  /** What the claim sealed. */
  datatype Sealed = Sealed(
    claimedAt: int, claimTimeValid: bool, skew: int, receiver: string, requiredScope: string, rateBatch: seq<Rate>)

  /** The bundle and options of one evaluation.  `matches` stands for the
      comparisons with the sealed preflight state, `policyMatches` for the one
      of the context policy, `rootMatches` for the configured root. */
  datatype Input = Input(
    matches: bool, certs: seq<Cert>, trustConfigured: bool, rootMatches: bool, policyMatches: bool,
    policy: Option<ContextPolicy>, session: Option<string>, windowUntil: Result<int>)

  predicate TimesOk(k: Sealed, c: Cert) {
    && ValidTimestamp(c.issuedAt) && ValidTimestamp(c.expiresAt) && c.issuedAt < c.expiresAt
    && c.expiresAt - c.issuedAt <= MAX_DELEGATION_LIFETIME && c.issuedAt <= k.claimedAt + k.skew
  }

  /** IntersectScopes over a non-empty chain. */
  function Effective(certs: seq<Cert>): set<string>
    requires certs != []
  {
    if |certs| == 1 then certs[0].scopes else Effective(certs[..|certs| - 1]) * certs[|certs| - 1].scopes
  }

  function Constraints(certs: seq<Cert>): seq<Constraint> {
    if certs == [] then [] else Constraints(certs[..|certs| - 1]) + certs[|certs| - 1].constraints
  }

  function Links(cs: seq<Constraint>): seq<Aud.Link> {
    if cs == [] then []
    else Links(cs[..|cs| - 1]) + if cs[|cs| - 1].Audience? then [cs[|cs| - 1].link] else []
  }

  function Rates(cs: seq<Constraint>): seq<Rate> {
    if cs == [] then []
    else Rates(cs[..|cs| - 1]) + if cs[|cs| - 1].MaxRate? then [cs[|cs| - 1].rate] else []
  }

  /** Denied over unknown over unverifiable. */
  function ConstraintFailure(cs: seq<Constraint>): Option<Fault> {
    if Denies in cs then Some(Fault(Status.ConstraintDenied, Reason.ConstraintDenied))
    else if IsUnknown in cs then Some(Fault(Status.ConstraintUnknown, Reason.ConstraintUnknown))
    else if IsUnverifiable in cs then Some(Fault(Status.ConstraintUnverifiable, Reason.ConstraintUnverifiable))
    else None
  }

  /** The least horizon, where 0 means none. */
  function Earlier(horizon: int, more: int): int {
    if more == 0 then horizon else if horizon == 0 then more else Min(horizon, more)
  }

  function ExtensionUntil(cs: seq<Constraint>): int {
    if cs == [] then 0
    else
      var rest := ExtensionUntil(cs[..|cs| - 1]);
      if cs[|cs| - 1].Passes? then Earlier(rest, cs[|cs| - 1].horizon) else rest
  }

  function EarliestExpiry(certs: seq<Cert>): int
    requires certs != []
  {
    if |certs| == 1 then certs[0].expiresAt else Min(EarliestExpiry(certs[..|certs| - 1]), certs[|certs| - 1].expiresAt)
  }

  function ContextFailure(c: Context): Option<Fault> {
    match c.kind
    case Bound => None
    case NotRequired => None
    case Mismatch => Some(Fault(Status.ConstraintDenied, Reason.ConstraintDenied))
    case _ => Some(Fault(Status.AuthorizationUnverified, Reason.ActionContextUnverified))
  }

  /** Scope before context before constraints before the time windows. */
  function PolicyFailure(k: Sealed, x: Input): Option<Fault>
    requires x.certs != []
  {
    if k.requiredScope !in Effective(x.certs) then Some(Fault(Status.ScopeDenied, Reason.ScopeDenied))
    else
      var context := ContextFailure(EvaluateContext(x.policy, x.session));
      if context.Some? then context
      else
        var constraint := ConstraintFailure(Constraints(x.certs));
        if constraint.Some? then constraint
        else if x.windowUntil.Failure? then Some(Fault(Status.ConstraintUnverifiable, Reason.ConstraintUnverifiable))
        else None
  }

  function Checks(certs: seq<Cert>): seq<Agg.Check> {
    seq(|certs|, i requires 0 <= i < |certs| => Agg.Check(i, certs[i].issuer, certs[i].subject, certs[i].id))
  }

  function PendingAssessment(k: Sealed, x: Input): Assessment
    requires x.certs != []
  {
    var cs := Constraints(x.certs);
    var failure := PolicyFailure(k, x);
    Plain(Status.Pending, ExternalChecksRequired).(
      failure := failure, audience := Links(cs), rates := Rates(cs), scope := Effective(x.certs),
      checks := Checks(x.certs), context := EvaluateContext(x.policy, x.session),
      delegationUntil := EarliestExpiry(x.certs), extensionUntil := ExtensionUntil(cs),
      windowUntil := if failure.None? && x.windowUntil.Success? then x.windowUntil.value else 0)
  }

  /** EvaluateProofBundleV2LocalAuthorization after the token is taken. */
  function EvaluateLocal(k: Sealed, x: Input): Assessment {
    if !k.claimTimeValid || !x.matches then INTERRUPTED
    else if x.certs == [] then Plain(Status.DelegationNotAuthorized, NotDelegated)
    else if !x.trustConfigured then Plain(AuthorizationUnverified, TrustUnavailable)
    else if !x.rootMatches then Plain(Status.Unauthorized, Reason.Unauthorized)
    else if exists c :: c in x.certs && !TimesOk(k, c) then Plain(Invalid, ProofInvalid)
    else if exists c :: c in x.certs && k.claimedAt >= c.expiresAt then Plain(Expired, DelegationExpired)
    else if exists c :: c in x.certs && !c.scopesValid then Plain(Status.InvalidScope, Reason.InvalidScope)
    else if exists i :: 0 < i < |x.certs| && !x.certs[i].delegates then
      Plain(Status.DelegationNotAuthorized, Reason.DelegationNotAuthorized)
    else if !x.policyMatches then INTERRUPTED
    else PendingAssessment(k, x)
  }

  /* ---- The loops of the local evaluation ---- */

  datatype CertCheck = TimeBounds | NotExpired | WellScoped

  predicate CertOk(k: Sealed, c: Cert, check: CertCheck) {
    match check
    case TimeBounds => TimesOk(k, c)
    case NotExpired => k.claimedAt < c.expiresAt
    case WellScoped => c.scopesValid
  }

  /** One pass over the chain for one of the checks. */
  method AllCertsOk(k: Sealed, certs: seq<Cert>, check: CertCheck) returns (ok: bool)
    ensures ok == forall c :: c in certs ==> CertOk(k, c, check)
  {
    for i := 0 to |certs|
      invariant forall c :: c in certs[..i] ==> CertOk(k, c, check)
    {
      if !CertOk(k, certs[i], check) { return false; }
    }
    return true;
  }

  /** Every parent grants delegation. */
  method ParentsDelegate(certs: seq<Cert>) returns (ok: bool)
    ensures ok == forall i :: 0 < i < |certs| ==> certs[i].delegates
  {
    for i := 0 to |certs|
      invariant forall k :: 0 < k <= i && k < |certs| ==> certs[k].delegates
    {
      if i + 1 < |certs| && !certs[i + 1].delegates { return false; }
    }
    return true;
  }

  function Rank(c: Constraint): int {
    match c
    case Denies => 3
    case IsUnknown => 2
    case IsUnverifiable => 1
    case _ => 0
  }

  function FaultOf(rank: int): Option<Fault> {
    if rank == 3 then Some(Fault(Status.ConstraintDenied, Reason.ConstraintDenied))
    else if rank == 2 then Some(Fault(Status.ConstraintUnknown, Reason.ConstraintUnknown))
    else if rank == 1 then Some(Fault(Status.ConstraintUnverifiable, Reason.ConstraintUnverifiable))
    else None
  }

  /** evaluateV2LocalConstraints: deferred constraints are collected, the worst
      outcome and the earliest horizon of the others kept. */
  method EvaluateConstraints(cs: seq<Constraint>)
    returns (links: seq<Aud.Link>, rates: seq<Rate>, fault: Option<Fault>, until: int)
    ensures links == Links(cs) && rates == Rates(cs) && fault == ConstraintFailure(cs) && until == ExtensionUntil(cs)
  {
    links, rates, until := [], [], 0;
    var worst := 0;
    for i := 0 to |cs|
      invariant links == Links(cs[..i]) && rates == Rates(cs[..i]) && until == ExtensionUntil(cs[..i])
      invariant 0 <= worst <= 3 && (forall k :: 0 <= k < i ==> Rank(cs[k]) <= worst)
      invariant worst > 0 ==> exists k :: 0 <= k < i && Rank(cs[k]) == worst
    {
      assert cs[..i + 1][..i] == cs[..i];
      match cs[i] {
        case Audience(link) => links := links + [link];
        case MaxRate(rate) => rates := rates + [rate];
        case Passes(horizon) =>
          if horizon != 0 && (until == 0 || horizon < until) { until := horizon; }
        case _ => if Rank(cs[i]) > worst { worst := Rank(cs[i]); }
      }
    }
    assert cs[..|cs|] == cs;
    fault := FaultOf(worst);
    WorstIsFailure(cs, worst);
  }

  lemma WorstIsFailure(cs: seq<Constraint>, worst: int)
    requires 0 <= worst <= 3 && (forall k :: 0 <= k < |cs| ==> Rank(cs[k]) <= worst)
    requires worst > 0 ==> exists k :: 0 <= k < |cs| && Rank(cs[k]) == worst
    ensures FaultOf(worst) == ConstraintFailure(cs)
  {
    if worst > 0 {
      var k :| 0 <= k < |cs| && Rank(cs[k]) == worst;
      assert cs[k] in cs;
    }
  }

  /** The chain's effective scope, constraints and earliest expiry. */
  method FoldChain(certs: seq<Cert>) returns (scope: set<string>, cs: seq<Constraint>, expiry: int)
    requires certs != []
    ensures scope == Effective(certs) && cs == Constraints(certs) && expiry == EarliestExpiry(certs)
  {
    scope, cs, expiry := certs[0].scopes, certs[0].constraints, certs[0].expiresAt;
    assert certs[..1][..0] == [] && Constraints(certs[..1]) == cs;
    for i := 1 to |certs|
      invariant scope == Effective(certs[..i]) && cs == Constraints(certs[..i]) && expiry == EarliestExpiry(certs[..i])
    {
      assert certs[..i + 1][..i] == certs[..i];
      scope := scope * certs[i].scopes;
      cs := cs + certs[i].constraints;
      if certs[i].expiresAt < expiry { expiry := certs[i].expiresAt; }
    }
    assert certs[..|certs|] == certs;
  }

  /** The pending assessment of a chain that passed the ordered checks. */
  method AssessChain(k: Sealed, x: Input) returns (a: Assessment)
    requires x.certs != []
    ensures a == PendingAssessment(k, x)
  {
    var scope, cs, expiry := FoldChain(x.certs);
    var failure: Option<Fault> := None;
    if k.requiredScope !in scope { failure := Some(Fault(Status.ScopeDenied, Reason.ScopeDenied)); }
    var context := EvaluateContext(x.policy, x.session);
    if failure.None? { failure := ContextFailure(context); }
    var links, rates, fault, until := EvaluateConstraints(cs);
    if failure.None? { failure := fault; }
    a := Plain(Status.Pending, ExternalChecksRequired).(
      audience := links, rates := rates, scope := scope, checks := Checks(x.certs), context := context,
      delegationUntil := expiry, extensionUntil := until);
    if failure.None? {
      match x.windowUntil {
        case Success(window) => a := a.(windowUntil := window);
        case Failure => failure := Some(Fault(Status.ConstraintUnverifiable, Reason.ConstraintUnverifiable));
      }
    }
    a := a.(failure := failure);
  }

  method EvaluateLocally(k: Sealed, x: Input) returns (a: Assessment)
    ensures a == EvaluateLocal(k, x)
  {
    if !k.claimTimeValid || !x.matches { return INTERRUPTED; }
    if x.certs == [] { return Plain(Status.DelegationNotAuthorized, NotDelegated); }
    if !x.trustConfigured { return Plain(AuthorizationUnverified, TrustUnavailable); }
    if !x.rootMatches { return Plain(Status.Unauthorized, Reason.Unauthorized); }
    var times := AllCertsOk(k, x.certs, TimeBounds);
    if !times { return Plain(Invalid, ProofInvalid); }
    var current := AllCertsOk(k, x.certs, NotExpired);
    if !current { return Plain(Expired, DelegationExpired); }
    var scopes := AllCertsOk(k, x.certs, WellScoped);
    if !scopes { return Plain(Status.InvalidScope, Reason.InvalidScope); }
    var delegated := ParentsDelegate(x.certs);
    if !delegated { return Plain(Status.DelegationNotAuthorized, Reason.DelegationNotAuthorized); }
    if !x.policyMatches { return INTERRUPTED; }
    a := AssessChain(k, x);
  }

  /* ---- The token ---- */

  datatype Token = Token(
    sealed: Sealed, used: bool, complete: bool, status: Status, reason: Reason, pending: Option<Assessment>,
    horizon: int, rateAtFinalization: bool)

  function Created(k: Sealed): Token {
    Token(k, false, false, NotReached, Unset, None, 0, false)
  }

  function Close(t: Token, status: Status, reason: Reason): Token {
    t.(status := status, reason := reason, pending := None)
  }

  function Hold(t: Token, a: Assessment): Token {
    t.(status := a.status, reason := a.reason, pending := Some(a))
  }

  /** A second evaluation changes nothing. */
  function Evaluate(t: Token, x: Input): Token {
    if t.used then t
    else
      var a := EvaluateLocal(t.sealed, x);
      t.(used := true, complete := true, status := a.status, reason := a.reason,
         pending := if a.status == Status.Pending then Some(a) else t.pending)
  }

  predicate AwaitsStatus(t: Token) { t.complete && t.status == Status.Pending && t.pending.Some? }

  /** allowHorizonV2 */
  function AllowHorizon(a: Assessment): int {
    var h := Min(a.delegationUntil, a.statusUntil);
    var h1 := if a.audienceUntil > 0 then Min(h, a.audienceUntil) else h;
    var h2 := if a.windowUntil > 0 then Min(h1, a.windowUntil) else h1;
    var h3 := if a.extensionUntil > 0 then Min(h2, a.extensionUntil) else h2;
    Min(h3, MAX_TIMESTAMP)
  }

  function Allow(t: Token, a: Assessment): Token {
    Close(t, AuthorizedAgent, Authorized).(horizon := AllowHorizon(a))
  }

  function Precedence(s: Status): int {
    match s
    case ConstraintDenied => 3
    case ConstraintUnknown => 2
    case ConstraintUnverifiable => 1
    case _ => 0
  }

  /** combinableWithAudienceV2 */
  predicate Combinable(a: Assessment) {
    && a.failure.Some? && a.failure.value.status in {Status.ConstraintUnknown, Status.ConstraintUnverifiable}
    && a.audience != []
  }

  function WithStatus(a: Assessment, g: Agg.Assessment): Assessment {
    a.(statusKind := match g.verdict
                     case Current => StatusKind.Current
                     case HasRevoked => StatusKind.HasRevoked
                     case IsUnavailable => StatusKind.Unavailable
                     case IsStale => StatusKind.Stale,
       statusUntil := g.freshUntil, evidence := g.evidence)
  }

  /** resolveClaimProofBundleV2AfterStatus, with the aggregate of the results. */
  function AfterStatus(t: Token, g: Agg.Assessment): Token {
    if !AwaitsStatus(t) then t
    else
      var a := WithStatus(t.pending.value, g);
      match g.verdict
      case HasRevoked => Close(t, Status.Revoked, DelegationRevoked)
      case IsUnavailable => Close(t, AuthorizationUnverified, StatusUnavailable)
      case IsStale => Close(t, AuthorizationUnverified, StatusStale)
      case Current =>
        var waiting := a.(status := Status.Pending, reason := DeferredChecksRequired);
        if Combinable(a) then Hold(t, waiting.(rates := []))
        else if a.failure.Some? then Close(t, a.failure.value.status, a.failure.value.reason)
        else if a.audience != [] || a.rates != [] then Hold(t, waiting)
        else Allow(t, a)
  }

  predicate AwaitsAudience(t: Token) {
    && AwaitsStatus(t) && t.pending.value.statusKind == StatusKind.Current
    && (t.pending.value.failure.None? || Combinable(t.pending.value))
  }

  function AudienceStatus(s: Aud.Status): Fault {
    match s
    case Denied => Fault(Status.ConstraintDenied, Reason.ConstraintDenied)
    case _ => Fault(Status.ConstraintUnverifiable, Reason.ConstraintUnverifiable)
  }

  /** ResolveClaimProofBundleV2AfterAudience */
  function AfterAudience(t: Token, ms: seq<Aud.Membership>): Token {
    if !AwaitsAudience(t) then t
    else
      var a := t.pending.value;
      match Aud.Evaluate(a.audience, t.sealed.receiver, ms, t.sealed.claimedAt, t.sealed.skew)
      case Failure => Close(t, AuthorizationUnverified, EvaluationInterrupted)
      case Success(g) =>
        var outcome := AudienceStatus(g.status);
        if a.failure.Some? then
          var local := a.failure.value;
          if g.status == Aud.Passed || Precedence(local.status) > Precedence(outcome.status)
          then Close(t, local.status, local.reason) else Close(t, outcome.status, outcome.reason)
        else if g.status != Aud.Passed then Close(t, outcome.status, outcome.reason)
        else
          var passed := a.(audienceUntil := g.freshUntil, audience := []);
          if a.rates == [] then Allow(t, passed)
          else Hold(t, passed.(status := Status.Pending, reason := RateReservationRequired))
  }

  /** The rate store: absent or failing, reserving now, admitting at
      finalization, or out of capacity. */
  datatype RateAnswer = NoAnswer | Reserved | AtFinalization | Exhausted

  predicate AwaitsRate(t: Token) {
    AwaitsStatus(t) && t.pending.value.statusKind == StatusKind.Current && t.pending.value.failure.None?
  }

  /** ResolveClaimProofBundleV2AfterRate */
  function AfterRate(t: Token, answer: RateAnswer): Token {
    if !AwaitsRate(t) then t
    else
      var a := t.pending.value;
      if t.sealed.rateBatch == [] then Close(t, AuthorizationUnverified, EvaluationInterrupted)
      else if a.audience != [] then t
      else if a.rates != t.sealed.rateBatch then Close(t, AuthorizationUnverified, EvaluationInterrupted)
      else
        match answer
        case NoAnswer => Close(t, Status.ConstraintUnverifiable, Reason.ConstraintUnverifiable)
        case Exhausted => Close(t, Status.ConstraintDenied, Reason.ConstraintDenied)
        case Reserved => Allow(t, a)
        case AtFinalization => Allow(t, a).(rateAtFinalization := true)
  }

  /** interruptV2Evaluation */
  function Interrupt(t: Token): Token {
    t.(status := AuthorizationUnverified, reason := EvaluationInterrupted, horizon := 0, rateAtFinalization := false,
       pending := None, complete := true)
  }

  /** A definitive capacity exhaustion at finalization. */
  function Exhaust(t: Token): Token {
    if t.status == AuthorizedAgent && t.rateAtFinalization
    then t.(status := Status.ConstraintDenied, reason := Reason.ConstraintDenied, horizon := 0,
            rateAtFinalization := false)
    else t
  }

  /* ---- The token as an object ---- */

  class EvaluationToken {
    const sealed: Sealed
    var used: bool
    var complete: bool
    var status: Status
    var reason: Reason
    var pending: Option<Assessment>
    var horizon: int
    var rateAtFinalization: bool

    function View(): Token
      reads this
    {
      Token(sealed, used, complete, status, reason, pending, horizon, rateAtFinalization)
    }

    constructor (k: Sealed)
      ensures View() == Created(k)
    {
      sealed := k;
      used, complete, status, reason := false, false, NotReached, Unset;
      pending, horizon, rateAtFinalization := None, 0, false;
    }

    method EvaluateOnce(x: Input)
      modifies this
      ensures View() == Evaluate(old(View()), x)
    {
      if used { return; }
      used := true;
      var a := EvaluateLocally(sealed, x);
      status, reason := a.status, a.reason;
      if a.status == Status.Pending { pending := Some(a); }
      complete := true;
    }

    method ResolveStatus(g: Agg.Assessment)
      modifies this
      ensures View() == AfterStatus(old(View()), g)
    {
      if !complete || status != Status.Pending || pending.None? { return; }
      var a := WithStatus(pending.value, g);
      if g.verdict == Agg.HasRevoked {
        a := a.(status := Status.Revoked, reason := DelegationRevoked);
      } else if g.verdict == Agg.IsUnavailable {
        a := a.(status := AuthorizationUnverified, reason := StatusUnavailable);
      } else if g.verdict == Agg.IsStale {
        a := a.(status := AuthorizationUnverified, reason := StatusStale);
      } else if a.failure.Some? && !Combinable(a) {
        a := a.(status := a.failure.value.status, reason := a.failure.value.reason);
      } else if a.failure.None? && a.audience == [] && a.rates == [] {
        a := a.(status := AuthorizedAgent, reason := Authorized);
        horizon := AllowHorizon(a);
      } else {
        if Combinable(a) { a := a.(rates := []); }
        a := a.(status := Status.Pending, reason := DeferredChecksRequired);
        pending := Some(a);
        status, reason := a.status, a.reason;
        return;
      }
      status, reason := a.status, a.reason;
      pending := None;
    }

    method ResolveAudience(ms: seq<Aud.Membership>)
      modifies this
      ensures View() == AfterAudience(old(View()), ms)
    {
      if !complete || status != Status.Pending || pending.None? { return; }
      var a := pending.value;
      if a.statusKind != StatusKind.Current || (a.failure.Some? && !Combinable(a)) { return; }
      var result := Aud.EvaluateAudience(a.audience, sealed.receiver, ms, sealed.claimedAt, sealed.skew);
      pending := None;
      if result.Failure? {
        status, reason := AuthorizationUnverified, EvaluationInterrupted;
        return;
      }
      var outcome := AudienceStatus(result.value.status);
      if a.failure.Some? {
        if result.value.status == Aud.Passed || Precedence(a.failure.value.status) > Precedence(outcome.status) {
          outcome := a.failure.value;
        }
        status, reason := outcome.status, outcome.reason;
      } else if result.value.status != Aud.Passed {
        status, reason := outcome.status, outcome.reason;
      } else {
        a := a.(audienceUntil := result.value.freshUntil, audience := []);
        if a.rates == [] {
          status, reason := AuthorizedAgent, Authorized;
          horizon := AllowHorizon(a);
        } else {
          a := a.(status := Status.Pending, reason := RateReservationRequired);
          pending := Some(a);
          status, reason := a.status, a.reason;
        }
      }
    }

    method ResolveRate(answer: RateAnswer)
      modifies this
      ensures View() == AfterRate(old(View()), answer)
    {
      if !complete || status != Status.Pending || pending.None? { return; }
      var a := pending.value;
      if a.statusKind != StatusKind.Current || a.failure.Some? { return; }
      if sealed.rateBatch != [] && a.audience != [] { return; }
      pending := None;
      if sealed.rateBatch == [] || a.rates != sealed.rateBatch {
        status, reason := AuthorizationUnverified, EvaluationInterrupted;
        return;
      }
      if answer == NoAnswer {
        status, reason := Status.ConstraintUnverifiable, Reason.ConstraintUnverifiable;
      } else if answer == Exhausted {
        status, reason := Status.ConstraintDenied, Reason.ConstraintDenied;
      } else {
        rateAtFinalization := rateAtFinalization || answer == AtFinalization;
        status, reason := AuthorizedAgent, Authorized;
        horizon := AllowHorizon(a);
      }
    }

    method InterruptEvaluation()
      modifies this
      ensures View() == Interrupt(old(View()))
    {
      status, reason := AuthorizationUnverified, EvaluationInterrupted;
      horizon := 0;
      rateAtFinalization := false;
      pending := None;
      complete := true;
    }
  }
}

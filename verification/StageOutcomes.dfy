/** Which verdict every stage of a claim gives, said of the chain, the aggregate,
    the memberships and the answers alone (authorization_v2.go:102-470): how the
    local evaluation ends early, what each status gives, that a denied
    constraint outranks an unknown one and that an unverifiable one, wherever
    they stand and whichever stage finds them, and what the rate store gives. */
module StageOutcomes {
  import opened StatusTypes
  import opened ClaimToken
  import opened ClaimRuns
  import opened AudienceOutcomes
  import Agg = StatusAggregation
  import Aud = Audience

  /* ---- Local evaluation ---- */

  /** The certificate's times are those of a possible delegation, issued by the
      claim time and the skew. */
  predicate IsTimely(k: Sealed, c: Cert) {
    && 0 <= c.issuedAt < c.expiresAt <= MAX_TIMESTAMP && c.expiresAt - c.issuedAt <= 315360000
    && c.issuedAt <= k.claimedAt + k.skew
  }

  ghost predicate AllTimely(k: Sealed, x: Input) { forall c :: c in x.certs ==> IsTimely(k, c) }

  ghost predicate NoneExpired(k: Sealed, x: Input) { forall c :: c in x.certs ==> k.claimedAt < c.expiresAt }

  ghost predicate AllScoped(x: Input) { forall c :: c in x.certs ==> c.scopesValid }

  ghost predicate AllDelegated(x: Input) { forall i :: 0 < i < |x.certs| ==> x.certs[i].delegates }

  /** What every early end needs to have been passed: the sealed state, a chain,
      a configured root that the chain leads to. */
  predicate IsAnchored(k: Sealed, x: Input) {
    k.claimTimeValid && x.matches && x.certs != [] && x.trustConfigured && x.rootMatches
  }

  predicate EndsLocally(a: Assessment, status: Status, reason: Reason) { a == Plain(status, reason) }

  /** Each early end and the one condition under which it is given. */
  lemma LocalEndsExactly(k: Sealed, x: Input)
    ensures var a := EvaluateLocal(k, x);
            && (a.reason == NotDelegated <==> k.claimTimeValid && x.matches && x.certs == [])
            && (a.reason == TrustUnavailable <==>
                k.claimTimeValid && x.matches && x.certs != [] && !x.trustConfigured)
            && (a.reason == Reason.Unauthorized <==>
                k.claimTimeValid && x.matches && x.certs != [] && x.trustConfigured && !x.rootMatches)
            && (a.reason == ProofInvalid <==> IsAnchored(k, x) && !AllTimely(k, x))
            && (a.reason == DelegationExpired <==> IsAnchored(k, x) && AllTimely(k, x) && !NoneExpired(k, x))
            && (a.reason == Reason.InvalidScope <==>
                IsAnchored(k, x) && AllTimely(k, x) && NoneExpired(k, x) && !AllScoped(x))
            && (a.reason == Reason.DelegationNotAuthorized <==>
                && IsAnchored(k, x) && AllTimely(k, x) && NoneExpired(k, x) && AllScoped(x) && !AllDelegated(x))
            && (a.status == Status.Pending <==>
                && IsAnchored(k, x) && AllTimely(k, x) && NoneExpired(k, x) && AllScoped(x) && AllDelegated(x)
                && x.policyMatches)
            && (a.status == Status.Pending || EndsLocally(a, StatusOf(a.reason), a.reason))
  {
    LocalIs(k, x);
  }

  /** The checks in their order. */
  lemma LocalIs(k: Sealed, x: Input)
    ensures EvaluateLocal(k, x)
            == if !k.claimTimeValid || !x.matches then INTERRUPTED
               else if x.certs == [] then Plain(Status.DelegationNotAuthorized, NotDelegated)
               else if !x.trustConfigured then Plain(AuthorizationUnverified, TrustUnavailable)
               else if !x.rootMatches then Plain(Status.Unauthorized, Reason.Unauthorized)
               else if !AllTimely(k, x) then Plain(Invalid, ProofInvalid)
               else if !NoneExpired(k, x) then Plain(Expired, DelegationExpired)
               else if !AllScoped(x) then Plain(Status.InvalidScope, Reason.InvalidScope)
               else if !AllDelegated(x) then Plain(Status.DelegationNotAuthorized, Reason.DelegationNotAuthorized)
               else if !x.policyMatches then INTERRUPTED
               else PendingAssessment(k, x)
  {
    assert forall c :: c in x.certs ==> (TimesOk(k, c) <==> IsTimely(k, c));
  }

  /** The status that goes with an early end. */
  function StatusOf(r: Reason): Status {
    match r
    case NotDelegated => Status.DelegationNotAuthorized
    case DelegationNotAuthorized => Status.DelegationNotAuthorized
    case TrustUnavailable => AuthorizationUnverified
    case EvaluationInterrupted => AuthorizationUnverified
    case Unauthorized => Status.Unauthorized
    case ProofInvalid => Invalid
    case DelegationExpired => Expired
    case InvalidScope => Status.InvalidScope
    case _ => NotReached
  }

  /** The context outcome for every policy and session. */
  lemma ContextGives(policy: Option<ContextPolicy>, session: Option<string>)
    ensures var c := EvaluateContext(policy, session); var usable := policy.Some? && policy.value.valid;
            && (c.kind == Bound <==>
                usable && policy.value.requireBound && session == Some(policy.value.expected))
            && (c.kind == Mismatch <==>
                usable && policy.value.requireBound && session.Some? && session.value != policy.value.expected)
            && (c.kind == NotRequired <==> usable && !policy.value.requireBound)
            && (c.kind == Unverified <==>
                if usable then policy.value.requireBound && session.None? else session.Some?)
            && (c.kind == Unbound <==> !usable && session.None?)
            && c.digest == (if usable then Some(policy.value.digest) else None)
  {
  }

  /* ---- The constraints of a chain ---- */

  ghost predicate Present(x: Input, o: Constraint) { exists c :: c in x.certs && o in c.constraints }

  /** The audience links of the chain. */
  function ChainLinks(x: Input): seq<Aud.Link> { Links(Constraints(x.certs)) }

  lemma {:induction false} LinksOf(cs: seq<Constraint>)
    ensures forall l :: l in Links(cs) <==> Audience(l) in cs
  {
    if cs != [] {
      LinksOf(cs[..|cs| - 1]);
      assert cs == cs[..|cs| - 1] + [cs[|cs| - 1]];
    }
  }

  lemma {:induction false} RatesOf(cs: seq<Constraint>)
    ensures Rates(cs) == [] <==> forall o :: o in cs ==> !o.MaxRate?
  {
    if cs != [] {
      RatesOf(cs[..|cs| - 1]);
      assert cs == cs[..|cs| - 1] + [cs[|cs| - 1]];
    }
  }

  ghost predicate HasRate(x: Input) { exists r :: Present(x, MaxRate(r)) }

  lemma RatesPresent(x: Input)
    ensures Rates(Constraints(x.certs)) != [] <==> HasRate(x)
  {
    ConstraintsOfChain(x.certs);
    RatesOf(Constraints(x.certs));
    if Rates(Constraints(x.certs)) != [] {
      var o :| o in Constraints(x.certs) && o.MaxRate?;
      assert Present(x, MaxRate(o.rate));
    }
    if r :| Present(x, MaxRate(r)) { assert MaxRate(r) in Constraints(x.certs) && MaxRate(r).MaxRate?; }
  }

  /** Everything but the constraints is in order: the chain passes the ordered
      checks, its scope and its context. */
  ghost predicate RestsOnConstraints(k: Sealed, x: Input) {
    && EvaluateLocal(k, x).status == Status.Pending
    && (forall c :: c in x.certs ==> k.requiredScope in c.scopes)
    && x.policy.Some? && x.policy.value.valid
    && (x.policy.value.requireBound ==> x.session == Some(x.policy.value.expected))
  }

  /** The failure that the local evaluation keeps. */
  lemma FailureIs(k: Sealed, x: Input)
    requires RestsOnConstraints(k, x)
    ensures x.certs != [] && EvaluateLocal(k, x) == PendingAssessment(k, x)
    ensures PolicyFailure(k, x)
            == if Present(x, Denies) then Some(Fault(Status.ConstraintDenied, Reason.ConstraintDenied))
               else if Present(x, IsUnknown) then Some(Fault(Status.ConstraintUnknown, Reason.ConstraintUnknown))
               else if Present(x, IsUnverifiable) || x.windowUntil.Failure?
               then Some(Fault(Status.ConstraintUnverifiable, Reason.ConstraintUnverifiable))
               else None
  {
    ScopeInAll(x.certs, k.requiredScope);
    ConstraintsOfChain(x.certs);
    ContextMetExactly(x.policy, x.session);
  }

  /* ---- The status stage ---- */

  predicate Ends(t: Token, status: Status, reason: Reason) {
    t.status == status && t.reason == reason && t.pending.None?
  }

  /** What each aggregate gives a token that waits for it: a revoked, unavailable
      or stale one its own verdict; a current one the local failure, unless it is
      unknown or unverifiable and the audience may still deny; and without a
      failure an authorization, unless audience or rate are open. */
  lemma StatusGives(t: Token, g: Agg.Assessment)
    requires t.complete && t.status == Status.Pending && t.pending.Some?
    requires t.pending.value.failure.Some? ==> t.pending.value.failure.value.status != Status.Pending
    ensures var a, u := t.pending.value, AfterStatus(t, g);
            && (g.verdict == Agg.HasRevoked ==> Ends(u, Status.Revoked, DelegationRevoked))
            && (g.verdict == Agg.IsUnavailable ==> Ends(u, AuthorizationUnverified, StatusUnavailable))
            && (g.verdict == Agg.IsStale ==> Ends(u, AuthorizationUnverified, StatusStale))
            && (g.verdict == Agg.Current && a.failure.Some?
                && (a.audience == []
                    || a.failure.value.status !in {Status.ConstraintUnknown, Status.ConstraintUnverifiable}) ==>
                Ends(u, a.failure.value.status, a.failure.value.reason))
            && (g.verdict == Agg.Current && a.failure.None? && a.audience == [] && a.rates == [] ==>
                Ends(u, AuthorizedAgent, Authorized))
            && (u.status == Status.Pending <==>
                && g.verdict == Agg.Current
                && (if a.failure.None? then a.audience != [] || a.rates != []
                    else && a.audience != []
                         && a.failure.value.status in {Status.ConstraintUnknown, Status.ConstraintUnverifiable}))
            && (u.status == Status.Pending ==>
                && u.reason == DeferredChecksRequired && u.pending.Some? && u.pending.value.audience == a.audience
                && u.pending.value.failure == a.failure && u.pending.value.statusUntil == g.freshUntil
                && u.pending.value.rates == if a.failure.None? then a.rates else [])
  {
  }

  /* ---- The audience stage ---- */

  ghost predicate SomeLinkDenies(k: Sealed, ls: seq<Aud.Link>, ms: seq<Aud.Membership>) {
    exists l :: l in ls && LinkDenies(ls, l, k.receiver, ms, k.claimedAt, k.skew)
  }

  ghost predicate SomeLinkOpen(k: Sealed, ls: seq<Aud.Link>, ms: seq<Aud.Membership>) {
    exists l :: l in ls && LinkOpen(ls, l, k.receiver, ms, k.claimedAt, k.skew)
  }

  /** The audience can be evaluated: the call and the links are well formed, and
      no link only excludes the receiver. */
  ghost predicate CanEvaluate(k: Sealed, ls: seq<Aud.Link>) {
    && k.receiver != "" && 0 <= k.claimedAt <= MAX_TIMESTAMP && 0 <= k.skew <= 300 && WellPlaced(ls)
    && forall l :: l in ls ==> !LinkExcludes(l, k.receiver)
  }

  /** What the audience gives a token that waits for it: nothing if it cannot be
      evaluated, denied if a link denies, then what the local evaluation could
      not decide, then what a link leaves open, and otherwise the rate stage or
      an authorization. */
  lemma AudienceGives(t: Token, ms: seq<Aud.Membership>)
    requires AwaitsAudience(t)
    ensures var a, u, k := t.pending.value, AfterAudience(t, ms), t.sealed;
            if !CanEvaluate(k, a.audience) then Ends(u, AuthorizationUnverified, EvaluationInterrupted)
            else if SomeLinkDenies(k, a.audience, ms) then Ends(u, Status.ConstraintDenied, Reason.ConstraintDenied)
            else if a.failure.Some? && a.failure.value.status == Status.ConstraintUnknown
            then Ends(u, Status.ConstraintUnknown, a.failure.value.reason)
            else if a.failure.Some? || SomeLinkOpen(k, a.audience, ms)
            then Ends(u, Status.ConstraintUnverifiable,
                      if SomeLinkOpen(k, a.audience, ms) then Reason.ConstraintUnverifiable else a.failure.value.reason)
            else if a.rates == [] then Ends(u, AuthorizedAgent, Authorized)
            else u.status == Status.Pending && u.reason == RateReservationRequired && u.pending.Some?
                 && u.pending.value.audience == [] && u.pending.value.rates == a.rates
  {
    AudienceResult(t.sealed, t.pending.value.audience, ms);
  }

  lemma AudienceResult(k: Sealed, ls: seq<Aud.Link>, ms: seq<Aud.Membership>)
    ensures var r := Aud.Evaluate(ls, k.receiver, ms, k.claimedAt, k.skew);
            && (r.Success? <==> CanEvaluate(k, ls))
            && (r.Success? ==> && (r.value.status == Aud.Denied <==> SomeLinkDenies(k, ls, ms))
                               && (r.value.status == Aud.Unverifiable <==>
                                   !SomeLinkDenies(k, ls, ms) && SomeLinkOpen(k, ls, ms)))
  {
    EvaluateExactly(ls, k.receiver, ms, k.claimedAt, k.skew);
  }

  /* ---- The rate stage ---- */

  /** What each answer of the rate store gives a token that waits for it. */
  lemma RateGives(t: Token, answer: RateAnswer)
    requires AwaitsRate(t)
    ensures var a, u, k := t.pending.value, AfterRate(t, answer), t.sealed;
            if k.rateBatch == [] then Ends(u, AuthorizationUnverified, EvaluationInterrupted)
            else if a.audience != [] then u == t
            else if a.rates != k.rateBatch then Ends(u, AuthorizationUnverified, EvaluationInterrupted)
            else match answer
                 case NoAnswer => Ends(u, Status.ConstraintUnverifiable, Reason.ConstraintUnverifiable)
                 case Exhausted => Ends(u, Status.ConstraintDenied, Reason.ConstraintDenied)
                 case Reserved => Ends(u, AuthorizedAgent, Authorized) && u.rateAtFinalization == t.rateAtFinalization
                 case AtFinalization => Ends(u, AuthorizedAgent, Authorized) && u.rateAtFinalization
  {
  }

  /** A token that does not wait for a stage is left alone by it. */
  lemma OthersStay(t: Token, x: Input, g: Agg.Assessment, ms: seq<Aud.Membership>, answer: RateAnswer)
    ensures t.used ==> Evaluate(t, x) == t
    ensures !(t.complete && t.status == Status.Pending && t.pending.Some?) ==>
              AfterStatus(t, g) == t && AfterAudience(t, ms) == t && AfterRate(t, answer) == t
    ensures t.pending.Some? && t.pending.value.statusKind != StatusKind.Current ==>
              AfterAudience(t, ms) == t && AfterRate(t, answer) == t
    ensures t.pending.Some? && t.pending.value.failure.Some? ==> AfterRate(t, answer) == t
  {
  }

  /* ---- Precedence over the stages ---- */

  /** The token after the local evaluation, a current status, and the audience
      if the chain has one. */
  function AfterStages(k: Sealed, x: Input, g: Agg.Assessment, ms: seq<Aud.Membership>): Token {
    var t := AfterStatus(Evaluate(Created(k), x), g);
    if ChainLinks(x) == [] then t else AfterAudience(t, ms)
  }

  /** A chain that rests on its constraints: after a current status and the
      audience the verdict is denied exactly if some constraint or some link
      denies, unknown exactly if nothing denies and some constraint is unknown,
      and unverifiable exactly if neither and something cannot be verified. */
  lemma VerdictExactly(k: Sealed, x: Input, g: Agg.Assessment, ms: seq<Aud.Membership>)
    requires RestsOnConstraints(k, x) && g.verdict == Agg.Current
    requires ChainLinks(x) != [] ==> CanEvaluate(k, ChainLinks(x))
    ensures var ls := ChainLinks(x); var u := AfterStages(k, x, g, ms);
            var denied := Present(x, Denies) || SomeLinkDenies(k, ls, ms);
            var unknown := Present(x, IsUnknown);
            var unverifiable := Present(x, IsUnverifiable) || x.windowUntil.Failure? || SomeLinkOpen(k, ls, ms);
            && (Ends(u, Status.ConstraintDenied, Reason.ConstraintDenied) <==> denied)
            && (Ends(u, Status.ConstraintUnknown, Reason.ConstraintUnknown) <==> !denied && unknown)
            && (Ends(u, Status.ConstraintUnverifiable, Reason.ConstraintUnverifiable) <==>
                !denied && !unknown && unverifiable)
            && (u.status in {AuthorizedAgent, Status.Pending} <==> !denied && !unknown && !unverifiable)
            && (u.status == Status.Pending ==> HasRate(x))
            && (u.status == AuthorizedAgent ==> !HasRate(x) && u.reason == Authorized)
            && (u.status == Status.Pending ==>
                u.reason == if ls == [] then DeferredChecksRequired else RateReservationRequired)
  {
    var t := Evaluate(Created(k), x);
    FailureIs(k, x);
    RatesPresent(x);
    StatusGives(t, g);
    var u := AfterStatus(t, g);
    if ChainLinks(x) != [] {
      if u.status == Status.Pending { AudienceGives(u, ms); } else { OthersStay(u, x, g, ms, NoAnswer); }
    }
  }

  /** If the audience cannot be evaluated, only a denied constraint is still
      reported. */
  lemma BrokenAudience(k: Sealed, x: Input, g: Agg.Assessment, ms: seq<Aud.Membership>)
    requires RestsOnConstraints(k, x) && g.verdict == Agg.Current
    requires ChainLinks(x) != [] && !CanEvaluate(k, ChainLinks(x))
    ensures var u := AfterStages(k, x, g, ms);
            if Present(x, Denies) then Ends(u, Status.ConstraintDenied, Reason.ConstraintDenied)
            else Ends(u, AuthorizationUnverified, EvaluationInterrupted)
  {
    var t := Evaluate(Created(k), x);
    FailureIs(k, x);
    StatusGives(t, g);
    var u := AfterStatus(t, g);
    if u.status == Status.Pending { AudienceGives(u, ms); } else { OthersStay(u, x, g, ms, NoAnswer); }
  }

  /* ---- Order ---- */

  /** The same chain with its constraints in another order, or moved between
      certificates. */
  ghost predicate Reordered(x: Input, y: Input) {
    && y == x.(certs := y.certs) && |x.certs| == |y.certs|
    && (forall i :: 0 <= i < |x.certs| ==> y.certs[i] == x.certs[i].(constraints := y.certs[i].constraints))
    && multiset(Constraints(x.certs)) == multiset(Constraints(y.certs))
  }

  lemma {:induction false} LinkCount(cs: seq<Constraint>, l: Aud.Link)
    ensures multiset(Links(cs))[l] == multiset(cs)[Audience(l)]
  {
    if cs != [] {
      LinkCount(cs[..|cs| - 1], l);
      assert cs == cs[..|cs| - 1] + [cs[|cs| - 1]];
    }
  }

  lemma PlacesByMultiset(ls: seq<Aud.Link>)
    ensures (forall i, j :: 0 <= i < j < |ls| ==>
               ls[i].delegation != ls[j].delegation || ls[i].position != ls[j].position)
            <==> (forall l :: l in ls ==> multiset(ls)[l] == 1)
                 && forall l, m :: l in ls && m in ls && l != m ==>
                      l.delegation != m.delegation || l.position != m.position
  {
    if forall i, j :: 0 <= i < j < |ls| ==> ls[i].delegation != ls[j].delegation || ls[i].position != ls[j].position {
      forall i, j | 0 <= i < j < |ls| ensures ls[i] != ls[j] {}
      forall l | l in ls ensures multiset(ls)[l] == 1 { OnceIfDistinct(ls, l); }
    }
    if forall l :: l in ls ==> multiset(ls)[l] == 1 {
      forall i, j | 0 <= i < j < |ls| ensures ls[i] != ls[j] {
        if ls[i] == ls[j] { TwiceIfRepeated(ls, i, j); }
      }
    }
  }

  lemma {:induction false} OnceIfDistinct<T>(xs: seq<T>, x: T)
    requires x in xs && forall i, j :: 0 <= i < j < |xs| ==> xs[i] != xs[j]
    ensures multiset(xs)[x] == 1
  {
    var k :| 0 <= k < |xs| && xs[k] == x;
    assert xs == xs[..k] + [x] + xs[k + 1..];
  }

  lemma TwiceIfRepeated<T>(xs: seq<T>, i: int, j: int)
    requires 0 <= i < j < |xs| && xs[i] == xs[j]
    ensures multiset(xs)[xs[i]] > 1
  {
    assert xs == xs[..i] + [xs[i]] + xs[i + 1..j] + [xs[j]] + xs[j + 1..];
  }

  /** Links with the same elements, each as often. */
  ghost predicate SameLinks(a: seq<Aud.Link>, b: seq<Aud.Link>) { multiset(a) == multiset(b) }

  lemma SameLinksDecide(k: Sealed, a: seq<Aud.Link>, b: seq<Aud.Link>, ms: seq<Aud.Membership>)
    requires SameLinks(a, b)
    ensures CanEvaluate(k, a) <==> CanEvaluate(k, b)
    ensures SomeLinkDenies(k, a, ms) <==> SomeLinkDenies(k, b, ms)
    ensures SomeLinkOpen(k, a, ms) <==> SomeLinkOpen(k, b, ms)
    ensures a == [] <==> b == []
  {
    forall l ensures l in a <==> l in b { assert l in a <==> l in multiset(a); }
    PlacesByMultiset(a);
    PlacesByMultiset(b);
    assert |a| == |multiset(a)| && |b| == |multiset(b)|;
    forall m
      ensures InForce(a, m, k.receiver, k.claimedAt, k.skew) <==> InForce(b, m, k.receiver, k.claimedAt, k.skew)
    {
    }
  }

  lemma ReorderedLinks(x: Input, y: Input)
    requires Reordered(x, y)
    ensures SameLinks(ChainLinks(x), ChainLinks(y))
  {
    forall l ensures multiset(ChainLinks(x))[l] == multiset(ChainLinks(y))[l] {
      LinkCount(Constraints(x.certs), l);
      LinkCount(Constraints(y.certs), l);
    }
  }

  lemma ReorderedPresent(x: Input, y: Input)
    requires Reordered(x, y)
    ensures forall o :: Present(x, o) <==> Present(y, o)
  {
    ConstraintsOfChain(x.certs);
    ConstraintsOfChain(y.certs);
    forall o ensures Present(x, o) <==> Present(y, o) {
      assert o in Constraints(x.certs) <==> o in multiset(Constraints(x.certs));
      assert o in Constraints(y.certs) <==> o in multiset(Constraints(y.certs));
    }
  }

  lemma ReorderedRests(k: Sealed, x: Input, y: Input)
    requires Reordered(x, y) && RestsOnConstraints(k, x)
    ensures RestsOnConstraints(k, y)
  {
    LocalEndsExactly(k, x);
    LocalEndsExactly(k, y);
    forall c | c in y.certs
      ensures IsTimely(k, c) && k.claimedAt < c.expiresAt && c.scopesValid && k.requiredScope in c.scopes
    {
      var i :| 0 <= i < |y.certs| && y.certs[i] == c;
      assert x.certs[i] in x.certs;
    }
  }

  /** The verdict does not depend on where in the chain a constraint stands. */
  lemma OrderDoesNotMatter(k: Sealed, x: Input, y: Input, g: Agg.Assessment, ms: seq<Aud.Membership>)
    requires Reordered(x, y) && RestsOnConstraints(k, x) && g.verdict == Agg.Current
    ensures AfterStages(k, x, g, ms).status == AfterStages(k, y, g, ms).status
    ensures AfterStages(k, x, g, ms).reason == AfterStages(k, y, g, ms).reason
  {
    ReorderedRests(k, x, y);
    ReorderedLinks(x, y);
    ReorderedPresent(x, y);
    SameLinksDecide(k, ChainLinks(x), ChainLinks(y), ms);
    if ChainLinks(x) == [] || CanEvaluate(k, ChainLinks(x)) {
      VerdictExactly(k, x, g, ms);
      VerdictExactly(k, y, g, ms);
    } else {
      BrokenAudience(k, x, g, ms);
      BrokenAudience(k, y, g, ms);
    }
  }
}

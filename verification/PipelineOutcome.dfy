/** How a whole verification ends and what it records on the way (verify_v2.go),
    said of the chain, the sealed claim and the answers of the environment. */
module PipelineOutcome {
  import opened StatusTypes
  import Agg = StatusAggregation
  import Aud = Audience
  import opened ClaimToken
  import ClaimRuns
  import opened Receipt
  import opened VerifyPipeline
  import Stages = StageOutcomes

  /* ---- Up to the status ---- */

  /** Trust is asked for any chain that is claimed in time. */
  predicate AsksTrust(k: Sealed, w: World) { k.claimTimeValid && w.input.certs != [] }

  /** The chain is trusted, timely, unexpired, scoped and delegated. */
  ghost predicate ReachesStatus(k: Sealed, w: World) {
    && AsksTrust(k, w) && w.trust == Trusted && w.input.matches && w.input.policyMatches
    && Stages.AllTimely(k, w.input) && Stages.NoneExpired(k, w.input) && Stages.AllScoped(w.input)
    && Stages.AllDelegated(w.input)
  }

  lemma ReachesExactly(k: Sealed, w: World)
    ensures Local(k, w).status == Status.Pending <==> ReachesStatus(k, w)
  {
    Stages.LocalEndsExactly(k, Options(k, w));
  }

  /** The context as a valid policy asks for it. */
  predicate ContextMet(x: Input) {
    x.policy.Some? && x.policy.value.valid
    && (x.policy.value.requireBound ==> x.session == Some(x.policy.value.expected))
  }

  function MetContext(x: Input): Context {
    if ContextMet(x)
    then Context(if x.policy.value.requireBound then ContextKind.Bound else ContextKind.NotRequired,
                 Some(x.policy.value.digest))
    else Context(ContextKind.NotEvaluated, None)
  }

  function KindOf(v: Agg.Verdict): StatusKind {
    match v
    case Current => StatusKind.Current
    case HasRevoked => StatusKind.HasRevoked
    case IsUnavailable => StatusKind.Unavailable
    case IsStale => StatusKind.Stale
  }

  /** Before trust is asked for it counts as unavailable, and so does the status;
      afterwards each is what was found.  A context is recorded only if it is
      met, and for a chain that reaches the status stage. */
  lemma RecordsExactly(k: Sealed, w: World)
    ensures var none := Context(ContextKind.NotEvaluated, None);
            var found := if w.trust == Trusted || w.trust == Untrusted then w.trust else Trust.Unavailable;
            Records(k, w)
            == if !AsksTrust(k, w) then []
               else [Progress(Trust.Unavailable, StatusKind.NotEvaluated, none, {})]
                    + if !ReachesStatus(k, w) then [Progress(found, StatusKind.NotEvaluated, none, {})]
                      else [Progress(Trusted, StatusKind.Unavailable, MetContext(w.input), {}),
                            Progress(Trusted, KindOf(w.aggregate.verdict), MetContext(w.input), w.aggregate.evidence)]
  {
    ReachesExactly(k, w);
    var a := Local(k, w);
    Stages.ContextGives(w.input.policy, w.input.session);
    if a.status == Status.Pending {
      PendingIsOk(k, w);
    } else {
      Stages.LocalEndsExactly(k, Options(k, w));
    }
  }

  /* ---- The end ---- */

  ghost predicate ScopeMissing(k: Sealed, x: Input) { exists c :: c in x.certs && k.requiredScope !in c.scopes }

  /** A policy that asks for another context than the session's. */
  predicate ContextMismatch(x: Input) {
    x.policy.Some? && x.policy.value.valid && x.policy.value.requireBound && x.session.Some?
    && x.session.value != x.policy.value.expected
  }

  /** What the rates of the chain make of a clean verdict. */
  function RateEnding(k: Sealed, rates: seq<Rate>, answer: RateAnswer): Reason {
    if rates == [] then Authorized
    else if rates != k.rateBatch then EvaluationInterrupted
    else
      match answer
      case NoAnswer => Reason.ConstraintUnverifiable
      case Exhausted => Reason.ConstraintDenied
      case _ => Authorized
  }

  /** The constraints and the audience of the chain, worst first. */
  ghost function PolicyEnding(k: Sealed, x: Input, w: World): Reason {
    var links := Stages.ChainLinks(x);
    if Stages.Present(x, Denies) then Reason.ConstraintDenied
    else if links != [] && !Stages.CanEvaluate(k, links) then EvaluationInterrupted
    else if Stages.SomeLinkDenies(k, links, w.memberships) then Reason.ConstraintDenied
    else if Stages.Present(x, IsUnknown) then Reason.ConstraintUnknown
    else if Stages.Present(x, IsUnverifiable) || x.windowUntil.Failure?
            || Stages.SomeLinkOpen(k, links, w.memberships) then Reason.ConstraintUnverifiable
    else RateEnding(k, Rates(Constraints(x.certs)), w.rate)
  }

  /** The reason of the end of a chain that reaches the status stage: the status
      before the scope, the context, the constraints and the rates. */
  ghost function Ending(k: Sealed, w: World): Reason {
    match w.aggregate.verdict
    case HasRevoked => DelegationRevoked
    case IsUnavailable => StatusUnavailable
    case IsStale => StatusStale
    case Current =>
      if ScopeMissing(k, w.input) then Reason.ScopeDenied
      else if ContextMismatch(w.input) then Reason.ConstraintDenied
      else if !ContextMet(w.input) then ActionContextUnverified
      else PolicyEnding(k, w.input, w)
  }

  /** The token of a chain that waits for its status. */
  lemma StartedWaits(k: Sealed, w: World)
    requires ReachesStatus(k, w)
    ensures var t := Started(k, w); var x := Options(k, w);
            && t == Evaluate(Created(k), x) && t.complete && t.status == Status.Pending
            && t.pending == Some(PendingAssessment(k, x)) && Local(k, w) == PendingAssessment(k, x) && x.certs != []
  {
    ReachesExactly(k, w);
    PendingIsOk(k, w);
  }

  lemma FailureStatus(k: Sealed, x: Input)
    requires x.certs != []
    ensures PolicyFailure(k, x).Some? ==> PolicyFailure(k, x).value.status != Status.Pending
  {
  }

  /** The rate stage adds nothing to a token that does not wait for it. */
  lemma ClosedStays(k: Sealed, w: World)
    requires StatusStage(k, w).1.status != Status.Pending
    ensures Assessed(k, w) == StatusStage(k, w)
  {
  }

  lemma OtherStatusEnds(k: Sealed, w: World)
    requires ReachesStatus(k, w) && w.aggregate.verdict != Agg.Current
    ensures Assessed(k, w).1.reason == Ending(k, w) && Assessed(k, w).0.reason == Ending(k, w)
  {
    StartedWaits(k, w);
    FailureStatus(k, Options(k, w));
    Stages.StatusGives(Started(k, w), w.aggregate);
    ClosedStays(k, w);
  }

  lemma FailureOf(k: Sealed, x: Input)
    requires x.certs != [] && (ScopeMissing(k, x) || !ContextMet(x))
    ensures PolicyFailure(k, x)
            == if ScopeMissing(k, x) then Some(Fault(Status.ScopeDenied, Reason.ScopeDenied))
               else if ContextMismatch(x) then Some(Fault(Status.ConstraintDenied, Reason.ConstraintDenied))
               else Some(Fault(AuthorizationUnverified, ActionContextUnverified))
  {
    ClaimRuns.ScopeInAll(x.certs, k.requiredScope);
    Stages.ContextGives(x.policy, x.session);
  }

  lemma FailureEnds(k: Sealed, w: World)
    requires ReachesStatus(k, w) && w.aggregate.verdict == Agg.Current
    requires ScopeMissing(k, w.input) || !ContextMet(w.input)
    ensures Assessed(k, w).1.reason == Ending(k, w) && Assessed(k, w).0.reason == Ending(k, w)
  {
    StartedWaits(k, w);
    FailureOf(k, Options(k, w));
    Stages.StatusGives(Started(k, w), w.aggregate);
    ClosedStays(k, w);
  }

  /* ---- Constraints, audience and rates ---- */

  /** The stage left a token that closed, or one that waits with its assessment. */
  predicate Left(t: Token, a: Assessment) {
    && t.complete && a.status == t.status && a.reason == t.reason
    && (t.status == Status.Pending ==> t.pending == Some(a))
  }

  /** After a current status, with scope and context in order. */
  ghost predicate Judges(k: Sealed, w: World) {
    && ReachesStatus(k, w) && w.aggregate.verdict == Agg.Current && !ScopeMissing(k, w.input) && ContextMet(w.input)
  }

  /** And the audience, if the chain has one, can be evaluated. */
  ghost predicate JudgesAll(k: Sealed, w: World) {
    && Judges(k, w)
    && (Stages.ChainLinks(w.input) != [] ==> Stages.CanEvaluate(k, Stages.ChainLinks(w.input)))
  }

  lemma JudgesRests(k: Sealed, w: World)
    requires Judges(k, w)
    ensures Stages.RestsOnConstraints(k, Options(k, w))
  {
    StartedWaits(k, w);
  }

  lemma StatusLeaves(k: Sealed, w: World)
    requires Judges(k, w)
    ensures var (t, a) := StatusStage(k, w);
            && Left(t, a) && t.sealed == k && t == AfterStatus(Evaluate(Created(k), Options(k, w)), w.aggregate)
            && (t.status == Status.Pending ==>
                && a.audience == Stages.ChainLinks(w.input) && a.statusKind == StatusKind.Current
                && (a.failure.Some? ==> Combinable(a)))
  {
    StartedWaits(k, w);
    FailureStatus(k, Options(k, w));
    Stages.StatusGives(Started(k, w), w.aggregate);
  }

  /** The audience stage of the pipeline is the one of the token, unless the
      audience cannot be evaluated. */
  lemma AudienceLeaves(k: Sealed, w: World)
    requires JudgesAll(k, w)
    ensures var (t, a) := AudienceStage(k, w);
            Left(t, a) && t == Stages.AfterStages(k, Options(k, w), w.aggregate, w.memberships)
  {
    StatusLeaves(k, w);
    var (t, a) := StatusStage(k, w);
    if a.status == Status.Pending {
      if a.audience != [] {
        Stages.AudienceResult(k, a.audience, w.memberships);
        AudienceOfLeft(t, a, w.memberships);
      }
    } else {
      Stages.OthersStay(t, Options(k, w), w.aggregate, w.memberships, w.rate);
    }
  }

  lemma AudienceOfLeft(t: Token, a: Assessment, ms: seq<Aud.Membership>)
    requires Left(t, a) && t.status == Status.Pending && AwaitsAudience(t)
    ensures var u := AfterAudience(t, ms); Left(u, if u.pending.Some? then u.pending.value else Resolved(a, u))
  {
  }

  lemma BrokenEnds(k: Sealed, w: World)
    requires Judges(k, w)
    requires Stages.ChainLinks(w.input) != [] && !Stages.CanEvaluate(k, Stages.ChainLinks(w.input))
    ensures Assessed(k, w).1.reason == Ending(k, w) && Assessed(k, w).0.reason == Ending(k, w)
  {
    StatusLeaves(k, w);
    var (t, a) := StatusStage(k, w);
    JudgesRests(k, w);
    Stages.BrokenAudience(k, Options(k, w), w.aggregate, w.memberships);
    if a.status == Status.Pending {
      Stages.AudienceResult(k, a.audience, w.memberships);
      BrokenIsInterrupted(k, w, t);
    } else {
      Stages.OthersStay(t, Options(k, w), w.aggregate, w.memberships, w.rate);
      ClosedStays(k, w);
    }
  }

  /** A constraint that denies would have closed the token before. */
  lemma BrokenIsInterrupted(k: Sealed, w: World, t: Token)
    requires Judges(k, w) && Stages.RestsOnConstraints(k, Options(k, w))
    requires t == AfterStatus(Evaluate(Created(k), Options(k, w)), w.aggregate) && t.status == Status.Pending
    ensures !Stages.Present(w.input, Denies)
  {
    StartedWaits(k, w);
    Stages.FailureIs(k, Options(k, w));
    Stages.StatusGives(Started(k, w), w.aggregate);
    assert Stages.Present(Options(k, w), Denies) <==> Stages.Present(w.input, Denies);
  }

  /** What the constraints and the audience leave of a token. */
  lemma JudgedEnds(k: Sealed, w: World)
    requires JudgesAll(k, w)
    ensures var t := AudienceStage(k, w).0; var rates := Rates(Constraints(w.input.certs));
            && (t.status == Status.Pending ==> rates != [] && Ending(k, w) == RateEnding(k, rates, w.rate))
            && (t.status != Status.Pending ==> t.reason == Ending(k, w))
  {
    AudienceLeaves(k, w);
    JudgesRests(k, w);
    Stages.VerdictExactly(k, Options(k, w), w.aggregate, w.memberships);
    SameInput(k, w);
    Stages.RatesPresent(w.input);
  }

  lemma RateLeaves(k: Sealed, w: World)
    requires JudgesAll(k, w)
    ensures Assessed(k, w).1.reason == Ending(k, w) && Assessed(k, w).0.reason == Ending(k, w)
  {
    AudienceLeaves(k, w);
    JudgedEnds(k, w);
    var t := AudienceStage(k, w).0;
    if t.status == Status.Pending {
      RateWaits(k, w);
      RateOfWaiting(k, t, w.rate);
    }
  }

  lemma RateOfWaiting(k: Sealed, t: Token, answer: RateAnswer)
    requires AwaitsRate(t) && t.sealed == k && t.pending.value.audience == [] && t.pending.value.rates != []
    ensures var u := AfterRate(t, answer);
            u.status != Status.Pending && u.reason == RateEnding(k, t.pending.value.rates, answer)
  {
    Stages.RateGives(t, answer);
  }

  lemma SameInput(k: Sealed, w: World)
    ensures forall o :: Stages.Present(Options(k, w), o) <==> Stages.Present(w.input, o)
    ensures Stages.HasRate(Options(k, w)) <==> Stages.HasRate(w.input)
  {
    forall o ensures Stages.Present(Options(k, w), o) <==> Stages.Present(w.input, o) {}
  }

  /** A token that still waits after the audience waits for the rates of the
      chain. */
  lemma RateWaits(k: Sealed, w: World)
    requires JudgesAll(k, w) && AudienceStage(k, w).0.status == Status.Pending
    ensures var t := AudienceStage(k, w).0;
            && AwaitsRate(t) && t.sealed == k && t.pending.value.audience == []
            && t.pending.value.rates == Rates(Constraints(w.input.certs)) && t.pending.value.rates != []
  {
    StatusLeaves(k, w);
    StartedWaits(k, w);
    Stages.StatusGives(Started(k, w), w.aggregate);
    var t := StatusStage(k, w).0;
    if Stages.ChainLinks(w.input) != [] && t.status == Status.Pending { Stages.AudienceGives(t, w.memberships); }
  }

  /** The whole verification: a chain that reaches the status stage ends for
      exactly the first of these reasons that applies, whatever the order of
      its constraints, and any other ends with its local evaluation. */
  lemma EndsExactly(k: Sealed, w: World)
    ensures if ReachesStatus(k, w)
            then Assessed(k, w).1.reason == Ending(k, w) && Assessed(k, w).0.reason == Ending(k, w)
            else Assessed(k, w) == (Started(k, w), Local(k, w))
  {
    ReachesExactly(k, w);
    if ReachesStatus(k, w) {
      if w.aggregate.verdict != Agg.Current {
        OtherStatusEnds(k, w);
      } else if !Judges(k, w) {
        FailureEnds(k, w);
      } else if Stages.ChainLinks(w.input) != [] && !Stages.CanEvaluate(k, Stages.ChainLinks(w.input)) {
        BrokenEnds(k, w);
      } else {
        RateLeaves(k, w);
      }
    }
  }

  /** Every constraint and every audience link is met, and the rates, if any, are
      those of the sealed batch, reserved or deferred. */
  ghost predicate Met(k: Sealed, w: World) {
    var x, links := w.input, Stages.ChainLinks(w.input);
    && !Stages.Present(x, Denies) && !Stages.Present(x, IsUnknown) && !Stages.Present(x, IsUnverifiable)
    && x.windowUntil.Success?
    && (links != [] ==> && Stages.CanEvaluate(k, links) && !Stages.SomeLinkDenies(k, links, w.memberships)
                        && !Stages.SomeLinkOpen(k, links, w.memberships))
    && (Stages.HasRate(x) ==> Rates(Constraints(x.certs)) == k.rateBatch && w.rate in {Reserved, AtFinalization})
  }

  lemma MetExactly(k: Sealed, w: World)
    ensures PolicyEnding(k, w.input, w) == Authorized <==> Met(k, w)
  {
    var x := w.input;
    RatesAuthorize(k, x, w.rate);
    LinksAuthorize(k, Stages.ChainLinks(x), w.memberships);
  }

  lemma RatesAuthorize(k: Sealed, x: Input, answer: RateAnswer)
    ensures RateEnding(k, Rates(Constraints(x.certs)), answer) == Authorized <==>
            (Stages.HasRate(x) ==> Rates(Constraints(x.certs)) == k.rateBatch && answer in {Reserved, AtFinalization})
  {
    Stages.RatesPresent(x);
  }

  lemma LinksAuthorize(k: Sealed, links: seq<Aud.Link>, ms: seq<Aud.Membership>)
    ensures links == [] ==> !Stages.SomeLinkDenies(k, links, ms) && !Stages.SomeLinkOpen(k, links, ms)
  {
  }

  lemma EarlyIsNoAllow(k: Sealed, w: World)
    requires !ReachesStatus(k, w)
    ensures Local(k, w).reason != Authorized
  {
    ReachesExactly(k, w);
    Stages.LocalEndsExactly(k, Options(k, w));
  }

  /** A verification allows exactly a trusted, timely, delegated chain with a
      current status, the scope, the context, every constraint and every
      audience link met, and its rates, if any, reserved or deferred. */
  lemma AllowsExactly(k: Sealed, w: World)
    ensures Assessed(k, w).1.reason == Authorized <==>
            && ReachesStatus(k, w) && w.aggregate.verdict == Agg.Current
            && (forall c :: c in w.input.certs ==> k.requiredScope in c.scopes) && ContextMet(w.input) && Met(k, w)
  {
    EndsExactly(k, w);
    MetExactly(k, w);
    if !ReachesStatus(k, w) { EarlyIsNoAllow(k, w); }
  }
}

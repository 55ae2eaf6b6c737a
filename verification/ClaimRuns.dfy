/** What an authorized token proves, after any sequence of calls on it. */
module ClaimRuns {
  import opened StatusTypes
  import Agg = StatusAggregation
  import Aud = Audience
  import opened ClaimToken

  datatype Call =
    | EvaluateCall(x: Input)
    | StatusCall(results: seq<Agg.StatusResult>, roles: Agg.Roles, aggregate: Agg.Assessment)
    | AudienceCall(memberships: seq<Aud.Membership>)
    | RateCall(answer: RateAnswer)
    | InterruptCall
    | ExhaustCall

  function Step(t: Token, c: Call): Token {
    match c
    case EvaluateCall(x) => Evaluate(t, x)
    case StatusCall(_, _, g) => AfterStatus(t, g)
    case AudienceCall(ms) => AfterAudience(t, ms)
    case RateCall(answer) => AfterRate(t, answer)
    case InterruptCall => Interrupt(t)
    case ExhaustCall => Exhaust(t)
  }

  function Run(k: Sealed, calls: seq<Call>): Token {
    if calls == [] then Created(k) else Step(Run(k, calls[..|calls| - 1]), calls[|calls| - 1])
  }

  /** A status call brings the aggregate of one result for every certificate
      that the pending assessment asks for. */
  ghost predicate CallOk(t: Token, c: Call) {
    c.StatusCall? && AwaitsStatus(t) ==>
      var checks := t.pending.value.checks;
      checks != [] && |checks| == |c.results| && Agg.IsAggregate(checks, c.results, c.roles, c.aggregate)
  }

  ghost predicate CallsOk(k: Sealed, calls: seq<Call>) {
    forall i :: 0 <= i < |calls| ==> CallOk(Run(k, calls[..i]), calls[i])
  }

  /* ---- What each stage established ---- */

  /** The calls that evaluated, confirmed the status, passed the audience and
      answered for the rates. */
  datatype Stages = Stages(evaluated: int, status: int, audience: int, rate: int)

  /** Local evaluation ran first at this call, for these certificates. */
  ghost predicate EvaluatedAt(calls: seq<Call>, i: int) {
    && 0 <= i < |calls| && calls[i].EvaluateCall?
    && forall j :: 0 <= j < i ==> !calls[j].EvaluateCall?
  }

  ghost predicate PassedLocal(k: Sealed, x: Input) {
    x.certs != [] && EvaluateLocal(k, x) == PendingAssessment(k, x)
  }

  ghost predicate CurrentAt(calls: seq<Call>, i: int, checks: seq<Agg.Check>, until: int) {
    && 0 <= i < |calls| && calls[i].StatusCall?
    && |checks| == |calls[i].results| && Agg.IsAggregate(checks, calls[i].results, calls[i].roles, calls[i].aggregate)
    && calls[i].aggregate.verdict == Agg.Current && calls[i].aggregate.freshUntil == until
  }

  ghost predicate AudienceAt(k: Sealed, calls: seq<Call>, i: int, links: seq<Aud.Link>, until: int) {
    && 0 <= i < |calls| && calls[i].AudienceCall?
    && var r := Aud.Evaluate(links, k.receiver, calls[i].memberships, k.claimedAt, k.skew);
       r.Success? && r.value.status == Aud.Passed && r.value.freshUntil == until
  }

  /** No audience constraint, or all of them passed. */
  ghost predicate AudienceDone(k: Sealed, calls: seq<Call>, s: Stages, links: seq<Aud.Link>, until: int) {
    if links == [] then until == 0 else AudienceAt(k, calls, s.audience, links, until)
  }

  /** No rate constraint, or the sealed batch was reserved or deferred. */
  ghost predicate RateDone(k: Sealed, calls: seq<Call>, s: Stages, rates: seq<Rate>) {
    rates == [] || (&& rates == k.rateBatch && 0 <= s.rate < |calls| && calls[s.rate].RateCall?
                    && calls[s.rate].answer in {Reserved, AtFinalization})
  }

  /** What a pending assessment has established. */
  ghost predicate Established(k: Sealed, calls: seq<Call>, s: Stages, x: Input, a: Assessment)
    requires x.certs != []
  {
    var b := PendingAssessment(k, x);
    && a.status == Status.Pending
    && a == b.(reason := a.reason, rates := a.rates, audience := a.audience, statusKind := a.statusKind,
               evidence := a.evidence,
               statusUntil := a.statusUntil, audienceUntil := a.audienceUntil)
    && (a.failure.None? ==> a.rates == b.rates)
    && (if a.audience == [] then AudienceDone(k, calls, s, b.audience, a.audienceUntil)
        else a.audience == b.audience && a.audienceUntil == 0)
    && (a.statusKind == StatusKind.Current ==> CurrentAt(calls, s.status, b.checks, a.statusUntil))
    && a.statusKind in {StatusKind.NotEvaluated, StatusKind.Current}
  }

  /** Everything that an authorization rests on. */
  ghost predicate Cleared(k: Sealed, calls: seq<Call>, s: Stages, x: Input, horizon: int)
    requires x.certs != []
  {
    var b := PendingAssessment(k, x);
    && b.failure.None?
    && exists statusUntil, audienceUntil ::
         && CurrentAt(calls, s.status, b.checks, statusUntil)
         && AudienceDone(k, calls, s, b.audience, audienceUntil)
         && RateDone(k, calls, s, b.rates)
         && horizon == AllowHorizon(b.(statusUntil := statusUntil, audienceUntil := audienceUntil))
  }

  ghost predicate Explained(k: Sealed, calls: seq<Call>, t: Token, s: Stages) {
    && t.sealed == k
    && (t.used <==> exists i :: 0 <= i < |calls| && calls[i].EvaluateCall?)
    && (t.status == Status.Pending <==> t.pending.Some?)
    && (t.status != AuthorizedAgent ==> t.horizon == 0 && !t.rateAtFinalization)
    && (t.pending.Some? || t.status == AuthorizedAgent ==>
          EvaluatedAt(calls, s.evaluated) && PassedLocal(k, calls[s.evaluated].x))
    && (t.pending.Some? ==> t.complete && Established(k, calls, s, calls[s.evaluated].x, t.pending.value))
    && (t.status == AuthorizedAgent ==> Cleared(k, calls, s, calls[s.evaluated].x, t.horizon))
  }

  /* ---- More calls keep what was established ---- */

  lemma EstablishedStays(k: Sealed, calls: seq<Call>, c: Call, s: Stages, x: Input, a: Assessment)
    requires x.certs != [] && Established(k, calls, s, x, a)
    ensures Established(k, calls + [c], s, x, a)
  {
  }

  lemma ClearedStays(k: Sealed, calls: seq<Call>, c: Call, s: Stages, x: Input, horizon: int)
    requires x.certs != [] && Cleared(k, calls, s, x, horizon)
    ensures Cleared(k, calls + [c], s, x, horizon)
  {
    var b := PendingAssessment(k, x);
    var statusUntil, audienceUntil :|
      && CurrentAt(calls, s.status, b.checks, statusUntil)
      && AudienceDone(k, calls, s, b.audience, audienceUntil)
      && RateDone(k, calls, s, b.rates)
      && horizon == AllowHorizon(b.(statusUntil := statusUntil, audienceUntil := audienceUntil));
    assert CurrentAt(calls + [c], s.status, b.checks, statusUntil);
    assert AudienceDone(k, calls + [c], s, b.audience, audienceUntil);
  }

  /** A call that leaves the token alone, or only closes it. */
  lemma Unchanged(k: Sealed, calls: seq<Call>, c: Call, t: Token, s: Stages)
    requires Explained(k, calls, t, s) && (t.used || !c.EvaluateCall?)
    ensures Explained(k, calls + [c], t, s)
  {
    var more := calls + [c];
    UsedStays(calls, c, t.used);
    if t.pending.Some? { EstablishedStays(k, calls, c, s, calls[s.evaluated].x, t.pending.value); }
    if t.status == AuthorizedAgent { ClearedStays(k, calls, c, s, calls[s.evaluated].x, t.horizon); }
  }

  lemma UsedStays(calls: seq<Call>, c: Call, used: bool)
    requires used <==> exists i :: 0 <= i < |calls| && calls[i].EvaluateCall?
    requires used || !c.EvaluateCall?
    ensures used <==> exists i :: 0 <= i < |calls + [c]| && (calls + [c])[i].EvaluateCall?
  {
    if used {
      var i :| 0 <= i < |calls| && calls[i].EvaluateCall?;
      assert (calls + [c])[i].EvaluateCall?;
    }
  }

  lemma Closed(k: Sealed, calls: seq<Call>, c: Call, t: Token, s: Stages, closed: Token)
    requires Explained(k, calls, t, s) && (t.used || !c.EvaluateCall?)
    requires closed.sealed == k && closed.used == t.used && closed.pending.None?
    requires closed.status != Status.Pending && closed.status != AuthorizedAgent && closed.horizon == 0
    requires !closed.rateAtFinalization
    ensures Explained(k, calls + [c], closed, s)
  {
    UsedStays(calls, c, t.used);
  }

  /** An authorization with everything in place. */
  lemma Authorizes(k: Sealed, calls: seq<Call>, t: Token, s: Stages, a: Assessment, t': Token)
    requires EvaluatedAt(calls, s.evaluated) && PassedLocal(k, calls[s.evaluated].x)
    requires Established(k, calls, s, calls[s.evaluated].x, a.(status := Status.Pending))
    requires a.failure.None? && a.audience == [] && a.statusKind == StatusKind.Current
    requires RateDone(k, calls, s, a.rates)
    requires t.used && t.sealed == k
    requires t' == Allow(t, a).(rateAtFinalization := t'.rateAtFinalization)
    ensures Explained(k, calls, t', s)
  {
    var x := calls[s.evaluated].x;
    var b := PendingAssessment(k, x);
    assert CurrentAt(calls, s.status, b.checks, a.statusUntil);
    assert AudienceDone(k, calls, s, b.audience, a.audienceUntil);
    assert AllowHorizon(a) == AllowHorizon(b.(statusUntil := a.statusUntil, audienceUntil := a.audienceUntil));
    assert calls[s.evaluated].EvaluateCall?;
  }

  /* ---- The calls ---- */

  lemma EvaluateExplained(k: Sealed, calls: seq<Call>, t: Token, s: Stages, x: Input) returns (s': Stages)
    requires Explained(k, calls, t, s) && !t.used
    ensures Explained(k, calls + [EvaluateCall(x)], Evaluate(t, x), s')
  {
    var more := calls + [EvaluateCall(x)];
    s' := s.(evaluated := |calls|);
    assert more[|calls|].EvaluateCall?;
    assert EvaluatedAt(more, |calls|);
    var a := EvaluateLocal(k, x);
    if a.status == Status.Pending { assert PassedLocal(k, x); }
  }

  lemma StatusExplained(k: Sealed, calls: seq<Call>, t: Token, s: Stages, c: Call) returns (s': Stages)
    requires Explained(k, calls, t, s) && c.StatusCall? && CallOk(t, c) && AwaitsStatus(t)
    ensures Explained(k, calls + [c], AfterStatus(t, c.aggregate), s')
  {
    var more := calls + [c];
    var g := c.aggregate;
    var t' := AfterStatus(t, g);
    s' := s.(status := |calls|);
    UsedStays(calls, c, t.used);
    if g.verdict == Agg.Current {
      var x := calls[s.evaluated].x;
      var a := WithStatus(t.pending.value, g);
      EstablishedStays(k, calls, c, s, x, t.pending.value);
      assert Established(k, more, s', x, a) by { StatusEstablished(k, more, s, s', x, t.pending.value, g); }
      if a.failure.None? && a.audience == [] && a.rates == [] {
        Authorizes(k, more, t, s', a, t');
      } else if a.failure.Some? && !Combinable(a) {
        FaultIsFinal(k, x);
        s' := s;
        Closed(k, calls, c, t, s, t');
      } else {
        HeldIsExplained(k, more, s', x, t, t'.pending.value, t');
      }
    } else {
      s' := s;
      Closed(k, calls, c, t, s, t');
    }
  }

  lemma HeldIsExplained(k: Sealed, calls: seq<Call>, s: Stages, x: Input, t: Token, a: Assessment, t': Token)
    requires EvaluatedAt(calls, s.evaluated) && calls[s.evaluated].x == x && PassedLocal(k, x)
    requires Established(k, calls, s, x, a)
    requires t.used && t.complete && t.sealed == k && t.horizon == 0 && !t.rateAtFinalization && t' == Hold(t, a)
    ensures Explained(k, calls, t', s)
  {
    assert calls[s.evaluated].EvaluateCall?;
  }

  lemma StatusEstablished(k: Sealed, calls: seq<Call>, s: Stages, s': Stages, x: Input, a: Assessment,
                          g: Agg.Assessment)
    requires x.certs != [] && Established(k, calls, s, x, a) && g.verdict == Agg.Current
    requires s' == s.(status := s'.status)
    requires CurrentAt(calls, s'.status, a.checks, g.freshUntil)
    ensures Established(k, calls, s', x, WithStatus(a, g))
  {
  }

  /** A policy failure is a terminal verdict that never authorizes. */
  lemma FaultIsFinal(k: Sealed, x: Input)
    requires x.certs != []
    ensures var f := PolicyFailure(k, x);
            f.Some? ==> f.value.status != Status.Pending && f.value.status != AuthorizedAgent
  {
  }

  lemma AudienceExplained(k: Sealed, calls: seq<Call>, t: Token, s: Stages, c: Call) returns (s': Stages)
    requires Explained(k, calls, t, s) && c.AudienceCall? && AwaitsAudience(t)
    ensures Explained(k, calls + [c], AfterAudience(t, c.memberships), s')
  {
    var more := calls + [c];
    var t' := AfterAudience(t, c.memberships);
    var a := t.pending.value;
    var x := calls[s.evaluated].x;
    var r := Aud.Evaluate(a.audience, k.receiver, c.memberships, k.claimedAt, k.skew);
    FaultIsFinal(k, x);
    UsedStays(calls, c, t.used);
    if a.failure.None? && r.Success? && r.value.status == Aud.Passed {
      s' := s.(audience := |calls|);
      EstablishedStays(k, calls, c, s, x, a);
      var passed := a.(audienceUntil := r.value.freshUntil, audience := []);
      assert AudienceAt(k, more, |calls|, a.audience, r.value.freshUntil);
      assert Established(k, more, s', x, passed);
      if a.rates == [] {
        Authorizes(k, more, t, s', passed, t');
      } else {
        HeldIsExplained(k, more, s', x, t, t'.pending.value, t');
      }
    } else {
      s' := s;
      Closed(k, calls, c, t, s, t');
    }
  }

  lemma RateExplained(k: Sealed, calls: seq<Call>, t: Token, s: Stages, c: Call) returns (s': Stages)
    requires Explained(k, calls, t, s) && c.RateCall? && AwaitsRate(t)
    ensures Explained(k, calls + [c], AfterRate(t, c.answer), s')
  {
    var more := calls + [c];
    var t' := AfterRate(t, c.answer);
    var a := t.pending.value;
    var x := calls[s.evaluated].x;
    if k.rateBatch != [] && a.audience != [] {
      s' := s;
      Unchanged(k, calls, c, t, s);
    } else if k.rateBatch != [] && a.rates == k.rateBatch && c.answer in {Reserved, AtFinalization} {
      s' := s.(rate := |calls|);
      UsedStays(calls, c, t.used);
      EstablishedStays(k, calls, c, s, x, a);
      assert Established(k, more, s', x, a);
      Authorizes(k, more, t, s', a, t');
    } else {
      s' := s;
      Closed(k, calls, c, t, s, t');
    }
  }

  lemma StepExplained(k: Sealed, calls: seq<Call>, t: Token, s: Stages, c: Call) returns (s': Stages)
    requires Explained(k, calls, t, s) && CallOk(t, c)
    ensures Explained(k, calls + [c], Step(t, c), s')
  {
    if c.EvaluateCall? && !t.used {
      s' := EvaluateExplained(k, calls, t, s, c.x);
    } else if c.StatusCall? && AwaitsStatus(t) {
      s' := StatusExplained(k, calls, t, s, c);
    } else if c.AudienceCall? && AwaitsAudience(t) {
      s' := AudienceExplained(k, calls, t, s, c);
    } else if c.RateCall? && AwaitsRate(t) {
      s' := RateExplained(k, calls, t, s, c);
    } else if c.InterruptCall? || (c.ExhaustCall? && t.status == AuthorizedAgent && t.rateAtFinalization) {
      s' := s;
      Closed(k, calls, c, t, s, Step(t, c));
    } else {
      s' := s;
      assert Step(t, c) == t;
      Unchanged(k, calls, c, t, s);
    }
  }

  lemma {:induction false} FrontCallsOk(k: Sealed, calls: seq<Call>)
    requires CallsOk(k, calls) && calls != []
    ensures CallsOk(k, calls[..|calls| - 1]) && CallOk(Run(k, calls[..|calls| - 1]), calls[|calls| - 1])
  {
    var front := calls[..|calls| - 1];
    forall i | 0 <= i < |front| ensures CallOk(Run(k, front[..i]), front[i]) {
      assert front[..i] == calls[..i] && CallOk(Run(k, calls[..i]), calls[i]);
    }
    assert CallOk(Run(k, calls[..|front|]), calls[|front|]);
  }

  lemma {:induction false} RunExplained(k: Sealed, calls: seq<Call>) returns (s: Stages)
    requires CallsOk(k, calls)
    ensures Explained(k, calls, Run(k, calls), s)
  {
    if calls == [] {
      s := Stages(0, 0, 0, 0);
    } else {
      var front, c := calls[..|calls| - 1], calls[|calls| - 1];
      FrontCallsOk(k, calls);
      s := RunExplained(k, front);
      s := StepExplained(k, front, Run(k, front), s, c);
      assert calls == front + [c];
    }
  }

  /** Whatever the order of the calls, an authorized token has run its local
      evaluation exactly once and without a policy failure, has seen every
      certificate status current, every audience constraint pass, and the
      sealed rate batch reserved or deferred to finalization. */
  lemma AuthorizedOnlyIf(k: Sealed, calls: seq<Call>) returns (s: Stages)
    requires CallsOk(k, calls) && Run(k, calls).status == AuthorizedAgent
    ensures EvaluatedAt(calls, s.evaluated) && CleanChain(k, calls[s.evaluated].x)
    ensures Cleared(k, calls, s, calls[s.evaluated].x, Run(k, calls).horizon)
    ensures 0 <= s.status < |calls| && calls[s.status].StatusCall?
            && forall r :: r in calls[s.status].results ==> r.kind == Agg.NotRevoked
  {
    s := RunExplained(k, calls);
    var b := PendingAssessment(k, calls[s.evaluated].x);
    LocalExactly(k, calls[s.evaluated].x);
    var statusUntil :| CurrentAt(calls, s.status, b.checks, statusUntil);
    Agg.CurrentMeans(b.checks, calls[s.status].results, calls[s.status].roles, calls[s.status].aggregate);
  }

  /** A chain that passes every local check, said without the evaluator. */
  ghost predicate CleanChain(k: Sealed, x: Input) {
    && k.claimTimeValid && x.matches && x.policyMatches && x.trustConfigured && x.rootMatches && x.certs != []
    && (forall c :: c in x.certs ==>
          TimesOk(k, c) && k.claimedAt < c.expiresAt && c.scopesValid && k.requiredScope in c.scopes)
    && (forall i :: 0 < i < |x.certs| ==> x.certs[i].delegates)
    && (forall c, o :: c in x.certs && o in c.constraints ==> Harmless(o))
    && x.windowUntil.Success?
    && x.policy.Some? && x.policy.value.valid
    && (x.policy.value.requireBound ==> x.session == Some(x.policy.value.expected))
  }

  lemma {:induction false} ScopeInAll(certs: seq<Cert>, scope: string)
    requires certs != []
    ensures scope in Effective(certs) <==> forall c :: c in certs ==> scope in c.scopes
  {
    var last := certs[|certs| - 1];
    assert last in certs;
    if |certs| > 1 {
      ScopeInAll(certs[..|certs| - 1], scope);
      assert certs == certs[..|certs| - 1] + [last];
    }
  }

  lemma {:induction false} ConstraintsOfChain(certs: seq<Cert>)
    ensures forall o :: o in Constraints(certs) <==> exists c :: c in certs && o in c.constraints
  {
    if certs != [] {
      var front, last := certs[..|certs| - 1], certs[|certs| - 1];
      ConstraintsOfChain(front);
      assert certs == front + [last];
      forall o ensures o in Constraints(certs) <==> exists c :: c in certs && o in c.constraints {
        if o in last.constraints { assert last in certs; }
        if o in Constraints(front) {
          var c :| c in front && o in c.constraints;
          assert c in certs;
        }
      }
    }
  }

  predicate Harmless(o: Constraint) { o.Passes? || o.Audience? || o.MaxRate? }

  lemma NoConstraintFails(cs: seq<Constraint>)
    ensures ConstraintFailure(cs).None? <==> forall o :: o in cs ==> Harmless(o)
  {
    if ConstraintFailure(cs).None? {
      forall o | o in cs ensures Harmless(o) { assert o != Denies && o != IsUnknown && o != IsUnverifiable; }
    }
    assert !Harmless(Denies) && !Harmless(IsUnknown) && !Harmless(IsUnverifiable);
  }

  lemma ContextMetExactly(policy: Option<ContextPolicy>, session: Option<string>)
    ensures ContextFailure(EvaluateContext(policy, session)).None? <==>
            policy.Some? && policy.value.valid && (policy.value.requireBound ==> session == Some(policy.value.expected))
  {
  }

  lemma FailureExactly(k: Sealed, x: Input)
    requires x.certs != []
    ensures PolicyFailure(k, x).None? <==>
            && (forall c :: c in x.certs ==> k.requiredScope in c.scopes)
            && (forall o :: o in Constraints(x.certs) ==> Harmless(o))
            && x.windowUntil.Success?
            && x.policy.Some? && x.policy.value.valid
            && (x.policy.value.requireBound ==> x.session == Some(x.policy.value.expected))
  {
    ScopeInAll(x.certs, k.requiredScope);
    NoConstraintFails(Constraints(x.certs));
    ContextMetExactly(x.policy, x.session);
  }

  /** The local evaluation passes a chain on without a failure exactly when it
      is clean. */
  lemma LocalExactly(k: Sealed, x: Input)
    ensures EvaluateLocal(k, x).status == Status.Pending && EvaluateLocal(k, x).failure.None? <==> CleanChain(k, x)
  {
    if x.certs != [] {
      FailureExactly(k, x);
      ConstraintsOfChain(x.certs);
      assert (forall o :: o in Constraints(x.certs) ==> Harmless(o))
             <==> forall c, o :: c in x.certs && o in c.constraints ==> Harmless(o);
    }
  }

  lemma {:induction false} ExpiryIsPositive(k: Sealed, certs: seq<Cert>)
    requires certs != [] && forall c :: c in certs ==> TimesOk(k, c)
    ensures 0 < EarliestExpiry(certs)
  {
    assert certs[|certs| - 1] in certs;
    if |certs| > 1 { ExpiryIsPositive(k, certs[..|certs| - 1]); }
  }

  /** The allow horizon is nonzero exactly when the token is authorized. */
  lemma {:induction false} HorizonExactly(k: Sealed, calls: seq<Call>)
    requires CallsOk(k, calls)
    ensures Run(k, calls).horizon != 0 <==> Run(k, calls).status == AuthorizedAgent
    ensures Run(k, calls).horizon >= 0
  {
    var t := Run(k, calls);
    var s := RunExplained(k, calls);
    if t.status == AuthorizedAgent {
      var x := calls[s.evaluated].x;
      var b := PendingAssessment(k, x);
      var statusUntil, audienceUntil :|
        && CurrentAt(calls, s.status, b.checks, statusUntil)
        && AudienceDone(k, calls, s, b.audience, audienceUntil)
        && t.horizon == AllowHorizon(b.(statusUntil := statusUntil, audienceUntil := audienceUntil));
      Agg.CurrentMeans(b.checks, calls[s.status].results, calls[s.status].roles, calls[s.status].aggregate);
      ExpiryIsPositive(k, x.certs);
    }
  }
}

/** What still holds when a released allow may be acted on: none of the facts
    that the authorization rested on has run out (authorization_v2.go:572-584,
    release_v2.go:287-296). */
module AllowHorizon {
  import opened StatusTypes
  import opened ClaimToken
  import opened ClaimRuns
  import Agg = StatusAggregation
  import Aud = Audience
  import AudienceOutcomes
  import Reducer = StatusReducer
  import ReducerRuns
  import Release
  import TimeWindow

  /** An issuer's journal state with the configuration it is queried under. */
  datatype Source = Source(state: State, epoch: int, key: KeyId, policy: Policy)

  /** A not-revoked result is the answer of the query at that time. */
  ghost predicate Answers(src: Source, check: Agg.Check, r: Agg.StatusResult, at: int) {
    r.kind == Agg.NotRevoked ==>
      Reducer.Query(src.state, check.issuer, check.cert, src.epoch, src.key, src.policy, at)
      == Success(Reducer.NotRevoked(r.freshUntil))
  }

  ghost predicate FromJournal(sources: seq<Source>, checks: seq<Agg.Check>, results: seq<Agg.StatusResult>, at: int) {
    && |sources| == |checks| == |results|
    && forall i :: 0 <= i < |checks| ==> Answers(sources[i], checks[i], results[i], at)
  }

  lemma {:induction false} ExpiryIsEarliest(certs: seq<Cert>, i: int)
    requires 0 <= i < |certs|
    ensures EarliestExpiry(certs) <= certs[i].expiresAt
  {
    if |certs| > 1 && i < |certs| - 1 {
      assert certs[..|certs| - 1][i] == certs[i];
      ExpiryIsEarliest(certs[..|certs| - 1], i);
    }
  }

  lemma {:induction false} ExtensionIsEarliest(cs: seq<Constraint>, i: int)
    requires 0 <= i < |cs| && cs[i].Passes? && cs[i].horizon > 0
    requires forall c :: c in cs && c.Passes? ==> c.horizon >= 0
    ensures 0 < ExtensionUntil(cs) <= cs[i].horizon
  {
    var front := cs[..|cs| - 1];
    ExtensionNotNegative(front);
    if i < |cs| - 1 {
      assert front[i] == cs[i];
      ExtensionIsEarliest(front, i);
    }
  }

  lemma {:induction false} ExtensionNotNegative(cs: seq<Constraint>)
    requires forall c :: c in cs && c.Passes? ==> c.horizon >= 0
    ensures 0 <= ExtensionUntil(cs)
  {
    if cs != [] { ExtensionNotNegative(cs[..|cs| - 1]); }
  }

  /** The horizon is not after any deadline of the assessment. */
  lemma HorizonIsLeast(a: Assessment, now: int)
    requires now < AllowHorizon(a)
    ensures now < a.delegationUntil && now < a.statusUntil
    ensures a.audienceUntil > 0 ==> now < a.audienceUntil
    ensures a.windowUntil > 0 ==> now < a.windowUntil
    ensures a.extensionUntil > 0 ==> now < a.extensionUntil
  {
  }

  /** Everything that the authorization of this chain rested on, at `now`. */
  ghost predicate AllHolds(k: Sealed, x: Input, windows: seq<TimeWindow.Window>, sources: seq<Source>,
                           memberships: seq<Aud.Membership>, now: int) {
    && (forall c :: c in x.certs ==> now < c.expiresAt)
    && (forall i :: 0 <= i < |sources| ==>
          sources[i].state.snapshot.Some? && Fresh(sources[i].state.snapshot.value, sources[i].policy, now))
    && (var links := Links(Constraints(x.certs));
        forall i :: 0 <= i < |links| ==> Aud.Holds(links[i], k.receiver, memberships, now))
    && (forall i :: 0 <= i < |windows| ==> TimeWindow.Open(windows[i], now))
    && (forall c :: c in Constraints(x.certs) && c.Passes? && c.horizon > 0 ==> now < c.horizon)
  }

  lemma StatusStillFresh(checks: seq<Agg.Check>, results: seq<Agg.StatusResult>, roles: Agg.Roles, g: Agg.Assessment,
                         sources: seq<Source>, at: int, now: int, i: int)
    requires |checks| == |results| && Agg.IsAggregate(checks, results, roles, g) && g.verdict == Agg.Current
    requires FromJournal(sources, checks, results, at) && at <= now < g.freshUntil && 0 <= i < |sources|
    ensures sources[i].state.snapshot.Some? && Fresh(sources[i].state.snapshot.value, sources[i].policy, now)
  {
    Agg.CurrentMeans(checks, results, roles, g);
    assert results[i] in results && Answers(sources[i], checks[i], results[i], at);
    var src := sources[i];
    ReducerRuns.FreshUntilIsSound(src.state, checks[i].issuer, checks[i].cert, src.epoch, src.key, src.policy, at, now);
  }

  lemma AudienceStillHolds(k: Sealed, calls: seq<Call>, s: Stages, links: seq<Aud.Link>, until: int, now: int, i: int)
    requires AudienceDone(k, calls, s, links, until) && 0 <= i < |links|
    requires until > 0 ==> now < until
    ensures 0 <= s.audience < |calls| && calls[s.audience].AudienceCall?
            && Aud.Holds(links[i], k.receiver, calls[s.audience].memberships, now)
  {
    var ms := calls[s.audience].memberships;
    Aud.PassIsLater(links, k.receiver, ms, k.claimedAt, k.skew);
    Aud.PassStaysValid(links, k.receiver, ms, k.claimedAt, k.skew, i, now);
  }

  /** The calls of one evaluation and what they were given: the windows behind
      the window horizon and the journal states behind the status results. */
  ghost predicate Grounded(k: Sealed, calls: seq<Call>, s: Stages, windows: seq<TimeWindow.Window>,
                           sources: seq<Source>) {
    && 0 <= s.evaluated < |calls| && calls[s.evaluated].EvaluateCall?
    && 0 <= s.status < |calls| && calls[s.status].StatusCall?
    && var x := calls[s.evaluated].x;
    && (x.windowUntil.Success? ==> TimeWindow.StaysOpen(windows, k.claimedAt, x.windowUntil.value))
    && (x.windowUntil.Success? && windows != [] ==> TimeWindow.LeastEnd(windows, k.claimedAt, x.windowUntil.value))
    && (forall c :: c in Constraints(x.certs) && c.Passes? ==> c.horizon >= 0)
    && FromJournal(sources, Checks(x.certs), calls[s.status].results, k.claimedAt)
  }

  /** If a released allow with this token's horizon is allowed at a time not
      before the claim, then at that time every certificate of the chain is
      unexpired, every status list relied on is fresh, every membership relied
      on is unexpired and within its age, every time window is open and no
      extension horizon has passed. */
  lemma {:induction false} AllowedMeans(k: Sealed, calls: seq<Call>, s: Stages, windows: seq<TimeWindow.Window>,
                                        sources: seq<Source>,
                     released: Release.Result, now: int)
    requires CallsOk(k, calls) && ValidTimestamp(k.claimedAt)
    requires Run(k, calls).status == AuthorizedAgent && Explained(k, calls, Run(k, calls), s)
    requires Grounded(k, calls, s, windows, sources)
    requires released.Actionable? && released.allowHorizon == Run(k, calls).horizon
    requires Release.Allowed(released, now) && k.claimedAt <= now
    ensures AllHolds(k, calls[s.evaluated].x, windows, sources, Relied(calls, s), now)
  {
    assert now < Run(k, calls).horizon;
    ClearedHolds(k, calls, s, windows, sources, calls[s.evaluated].x, Run(k, calls).horizon, now);
  }

  lemma ClearedHolds(k: Sealed, calls: seq<Call>, s: Stages, windows: seq<TimeWindow.Window>, sources: seq<Source>,
                     x: Input, horizon: int, now: int)
    requires Grounded(k, calls, s, windows, sources) && x == calls[s.evaluated].x
    requires x.certs != [] && Cleared(k, calls, s, x, horizon) && k.claimedAt <= now < horizon && 0 <= k.claimedAt
    ensures AllHolds(k, x, windows, sources, Relied(calls, s), now)
  {
    var b := PendingAssessment(k, x);
    var statusUntil, audienceUntil := ClearedBy(k, calls, s, x, horizon);
    HorizonIsLeast(b.(statusUntil := statusUntil, audienceUntil := audienceUntil), now);
    CertsStillValid(x, now);
    SourcesStillFresh(k, calls, s, b.checks, statusUntil, sources, now);
    LinksStillHold(k, calls, s, b.audience, audienceUntil, now);
    WindowsStillOpen(k, x, windows, now);
  }

  lemma WindowsStillOpen(k: Sealed, x: Input, windows: seq<TimeWindow.Window>, now: int)
    requires x.certs != [] && PolicyFailure(k, x).None? && k.claimedAt <= now
    requires x.windowUntil.Success? ==> TimeWindow.StaysOpen(windows, k.claimedAt, x.windowUntil.value)
    requires PendingAssessment(k, x).windowUntil > 0 ==> now < PendingAssessment(k, x).windowUntil
    ensures forall i :: 0 <= i < |windows| ==> TimeWindow.Open(windows[i], now)
  {
  }

  /** The deadlines of the status and the audience behind an authorization. */
  lemma ClearedBy(k: Sealed, calls: seq<Call>, s: Stages, x: Input, horizon: int)
    returns (statusUntil: int, audienceUntil: int)
    requires x.certs != [] && Cleared(k, calls, s, x, horizon)
    ensures var b := PendingAssessment(k, x);
            && CurrentAt(calls, s.status, b.checks, statusUntil)
            && AudienceDone(k, calls, s, b.audience, audienceUntil)
            && horizon == AllowHorizon(b.(statusUntil := statusUntil, audienceUntil := audienceUntil))
  {
    var b := PendingAssessment(k, x);
    statusUntil, audienceUntil :|
      && CurrentAt(calls, s.status, b.checks, statusUntil)
      && AudienceDone(k, calls, s, b.audience, audienceUntil)
      && RateDone(k, calls, s, b.rates)
      && horizon == AllowHorizon(b.(statusUntil := statusUntil, audienceUntil := audienceUntil));
  }

  lemma SourcesStillFresh(k: Sealed, calls: seq<Call>, s: Stages, checks: seq<Agg.Check>, until: int,
                          sources: seq<Source>, now: int)
    requires CurrentAt(calls, s.status, checks, until) && k.claimedAt <= now < until
    requires FromJournal(sources, checks, calls[s.status].results, k.claimedAt)
    ensures forall i :: 0 <= i < |sources| ==>
              sources[i].state.snapshot.Some? && Fresh(sources[i].state.snapshot.value, sources[i].policy, now)
  {
    forall i | 0 <= i < |sources|
      ensures sources[i].state.snapshot.Some? && Fresh(sources[i].state.snapshot.value, sources[i].policy, now)
    {
      var c := calls[s.status];
      StatusStillFresh(checks, c.results, c.roles, c.aggregate, sources, k.claimedAt, now, i);
    }
  }

  lemma LinksStillHold(k: Sealed, calls: seq<Call>, s: Stages, links: seq<Aud.Link>, until: int, now: int)
    requires AudienceDone(k, calls, s, links, until) && (until > 0 ==> now < until)
    ensures forall i :: 0 <= i < |links| ==> Aud.Holds(links[i], k.receiver, Relied(calls, s), now)
  {
    forall i | 0 <= i < |links| ensures Aud.Holds(links[i], k.receiver, Relied(calls, s), now) {
      AudienceStillHolds(k, calls, s, links, until, now, i);
    }
  }

  /** The memberships that the audience stage was given, if it ran. */
  function Relied(calls: seq<Call>, s: Stages): seq<Aud.Membership> {
    if 0 <= s.audience < |calls| && calls[s.audience].AudienceCall? then calls[s.audience].memberships else []
  }

  lemma CertsStillValid(x: Input, now: int)
    requires x.certs != [] && now < EarliestExpiry(x.certs)
    requires forall c :: c in Constraints(x.certs) && c.Passes? ==> c.horizon >= 0
    requires ExtensionUntil(Constraints(x.certs)) > 0 ==> now < ExtensionUntil(Constraints(x.certs))
    ensures forall c :: c in x.certs ==> now < c.expiresAt
    ensures forall c :: c in Constraints(x.certs) && c.Passes? && c.horizon > 0 ==> now < c.horizon
  {
    forall c | c in x.certs ensures now < c.expiresAt {
      var i :| 0 <= i < |x.certs| && x.certs[i] == c;
      ExpiryIsEarliest(x.certs, i);
    }
    var cs := Constraints(x.certs);
    forall c | c in cs && c.Passes? && c.horizon > 0 ensures now < c.horizon {
      var i :| 0 <= i < |cs| && cs[i] == c;
      ExtensionIsEarliest(cs, i);
    }
  }

  /* ---- The horizon is one of the deadlines ---- */

  lemma {:induction false} ExpiryIsSome(certs: seq<Cert>)
    requires certs != []
    ensures exists c :: c in certs && EarliestExpiry(certs) == c.expiresAt
  {
    var last := certs[|certs| - 1];
    assert last in certs;
    if |certs| > 1 && EarliestExpiry(certs) != last.expiresAt {
      ExpiryIsSome(certs[..|certs| - 1]);
      var c :| c in certs[..|certs| - 1] && EarliestExpiry(certs[..|certs| - 1]) == c.expiresAt;
      assert c in certs;
    }
  }

  lemma {:induction false} ExtensionIsSome(cs: seq<Constraint>)
    ensures ExtensionUntil(cs) == 0 || Passes(ExtensionUntil(cs)) in cs
  {
    if cs != [] {
      ExtensionIsSome(cs[..|cs| - 1]);
      assert cs == cs[..|cs| - 1] + [cs[|cs| - 1]];
    }
  }

  lemma HorizonIsSome(a: Assessment)
    ensures var h := AllowHorizon(a);
            || h in {a.delegationUntil, a.statusUntil, MAX_TIMESTAMP}
            || (h > 0 && h in {a.audienceUntil, a.windowUntil, a.extensionUntil})
    ensures AllowHorizon(a) <= MAX_TIMESTAMP
  {
  }

  /** A status list is fresh no more from here on. */
  ghost predicate ListEnds(sources: seq<Source>, at: int) {
    exists i :: 0 <= i < |sources| && sources[i].state.snapshot.Some?
                && forall later :: at <= later ==> !Fresh(sources[i].state.snapshot.value, sources[i].policy, later)
  }

  /** Something that the authorization rests on ends here: a certificate, a
      status list, a membership or its age, a time window, an extension. */
  ghost predicate SomethingEnds(k: Sealed, x: Input, windows: seq<TimeWindow.Window>, sources: seq<Source>,
                                memberships: seq<Aud.Membership>, at: int) {
    || (exists c :: c in x.certs && c.expiresAt == at)
    || ListEnds(sources, at)
    || AudienceOutcomes.RunsOut(Links(Constraints(x.certs)), k.receiver, memberships, at)
    || (exists i :: 0 <= i < |windows| && TimeWindow.FirstEnd(windows[i], k.claimedAt, at))
    || Passes(at) in Constraints(x.certs)
  }

  /** The horizon of an authorization is not earlier than it must be: it is the
      end of something that the authorization rests on, or the end of the
      timestamps. */
  lemma {:induction false} HorizonIsAttained(k: Sealed, calls: seq<Call>, s: Stages, windows: seq<TimeWindow.Window>,
                                             sources: seq<Source>)
    requires CallsOk(k, calls) && Run(k, calls).status == AuthorizedAgent && Explained(k, calls, Run(k, calls), s)
    requires Grounded(k, calls, s, windows, sources)
    ensures var h := Run(k, calls).horizon;
            h == MAX_TIMESTAMP || SomethingEnds(k, calls[s.evaluated].x, windows, sources, Relied(calls, s), h)
  {
    ClearedEnds(k, calls, s, windows, sources, calls[s.evaluated].x, Run(k, calls).horizon);
  }

  lemma ClearedEnds(k: Sealed, calls: seq<Call>, s: Stages, windows: seq<TimeWindow.Window>, sources: seq<Source>,
                    x: Input, h: int)
    requires Grounded(k, calls, s, windows, sources) && x == calls[s.evaluated].x
    requires x.certs != [] && Cleared(k, calls, s, x, h)
    ensures h == MAX_TIMESTAMP || SomethingEnds(k, x, windows, sources, Relied(calls, s), h)
  {
    var b := PendingAssessment(k, x);
    var statusUntil, audienceUntil := ClearedBy(k, calls, s, x, h);
    HorizonIsSome(b.(statusUntil := statusUntil, audienceUntil := audienceUntil));
    if h == MAX_TIMESTAMP {
    } else if h == b.delegationUntil {
      ExpiryIsSome(x.certs);
    } else if h == statusUntil {
      StatusEnds(k, calls, s, b.checks, statusUntil, sources);
    } else if h > 0 && h == audienceUntil {
      AudienceEnds(k, calls, s, b.audience, audienceUntil);
    } else if h > 0 && h == b.windowUntil {
      WindowEnds(windows, k.claimedAt, h);
    } else {
      ExtensionIsSome(Constraints(x.certs));
    }
  }

  lemma StatusEnds(k: Sealed, calls: seq<Call>, s: Stages, checks: seq<Agg.Check>, until: int, sources: seq<Source>)
    requires CurrentAt(calls, s.status, checks, until)
    requires FromJournal(sources, checks, calls[s.status].results, k.claimedAt)
    ensures ListEnds(sources, until)
  {
    var c := calls[s.status];
    Agg.CurrentMeans(checks, c.results, c.roles, c.aggregate);
    var r :| r in c.results && r.freshUntil == until;
    var i :| 0 <= i < |c.results| && c.results[i] == r;
    assert Answers(sources[i], checks[i], r, k.claimedAt);
    var src := sources[i];
    ReducerRuns.FreshUntilIsTight(src.state, checks[i].issuer, checks[i].cert, src.epoch, src.key, src.policy,
                                  k.claimedAt);
  }

  lemma AudienceEnds(k: Sealed, calls: seq<Call>, s: Stages, links: seq<Aud.Link>, until: int)
    requires AudienceDone(k, calls, s, links, until) && 0 < until < MAX_SAFE_INTEGER
    ensures AudienceOutcomes.RunsOut(links, k.receiver, Relied(calls, s), until)
  {
    AudienceOutcomes.PassEndsExactly(links, k.receiver, calls[s.audience].memberships, k.claimedAt, k.skew);
  }

  lemma WindowEnds(windows: seq<TimeWindow.Window>, now: int, until: int)
    requires TimeWindow.StaysOpen(windows, now, until) && 0 < until
    requires windows != [] ==> TimeWindow.LeastEnd(windows, now, until)
    ensures exists i :: 0 <= i < |windows| && TimeWindow.FirstEnd(windows[i], now, until)
  {
  }
}

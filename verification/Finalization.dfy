/** Finalization attempts on one token (claim_store_v2.go:313-363), interleaved
    with any other call on it. */
module Finalization {
  import opened StatusTypes
  import opened ClaimToken
  import opened ClaimRuns
  import R = Receipt
  import Agg = StatusAggregation
  import Aud = Audience
  import Pipeline = VerifyPipeline
  import Ordering

  /** How the store answers: committed or already committed, a definitive rate
      exhaustion that rolled back, or any other error. */
  datatype Answer = Committed | Exhausted | Fails

  /** The token with its finalization fields; `sent` lists the receipt bodies
      that reached the store. */
  datatype Finalizer = Finalizer(token: Token, started: bool, digest: Option<R.Receipt>, sent: seq<R.Receipt>)

  /** ValidateV2FinalizationPayload: the body decodes and belongs to the sealed
      claim. */
  ghost predicate BelongsTo(c: R.Claim, r: R.Receipt) {
    && R.BodyOk(r) && R.EvidenceOk(r)
    && r.verifier == c.verifier && r.agent == c.agent && r.bundle == c.bundle
    && r.issuers == Ordering.Canonical(c.issuers) && r.requiredScope == c.requiredScope
    && r.context.digest == (if r.context.kind == ContextKind.NotEvaluated then None else c.policy)
  }

  /** What must hold before the store is called. */
  ghost predicate MaySend(c: R.Claim, f: Finalizer, r: R.Receipt, barrier: bool) {
    var t := f.token;
    var decision := R.TerminalDecision(t.status, t.reason);
    && t.complete && decision == Some(r.decision) && r.reason == t.reason
    && BelongsTo(c, r)
    && (if r.decision == R.Allow then t.horizon > 0 else t.horizon == 0)
    && (t.rateAtFinalization ==> barrier)
    && (f.started ==> f.digest == Some(r))
  }

  /** FinalizeClaimProofBundleV2 */
  ghost function Attempt(c: R.Claim, f: Finalizer, r: R.Receipt, barrier: bool, answer: Answer): Finalizer {
    if !MaySend(c, f, r, barrier) then f
    else
      var sent := f.sent + [r];
      if answer == Answer.Exhausted && f.token.rateAtFinalization && r.decision == R.Allow
      then Finalizer(Exhaust(f.token), false, None, sent)
      else Finalizer(f.token, true, Some(r), sent)
  }

  datatype Op = AttemptOp(receipt: R.Receipt, barrier: bool, answer: Answer) | CallOp(call: Call)

  ghost function Next(c: R.Claim, f: Finalizer, op: Op): Finalizer {
    match op
    case AttemptOp(r, barrier, answer) => Attempt(c, f, r, barrier, answer)
    case CallOp(call) => f.(token := Step(f.token, call))
  }

  ghost function Run(c: R.Claim, k: Sealed, ops: seq<Op>): Finalizer {
    if ops == [] then Finalizer(Created(k), false, None, []) else Next(c, Run(c, k, ops[..|ops| - 1]), ops[|ops| - 1])
  }

  /* ---- At most one switch ---- */

  predicate AllAre(rs: seq<R.Receipt>, r: R.Receipt) { forall i :: 0 <= i < |rs| ==> rs[i] == r }

  /** The bodies sent are one allow, then one body that is not an allow. */
  ghost predicate Switched(sent: seq<R.Receipt>, n: nat, first: R.Receipt) {
    && 0 < n <= |sent| && AllAre(sent[..n], first) && first.decision == R.Allow
  }

  /** The token can never be authorized again. */
  predicate Spent(t: Token) { t.used && t.pending.None? && t.status != AuthorizedAgent && !t.rateAtFinalization }

  predicate TokenOk(t: Token) {
    && (t.pending.Some? || t.status == AuthorizedAgent ==> t.used)
    && (t.status == AuthorizedAgent ==> t.pending.None?)
    && (t.pending.Some? ==> t.status == Status.Pending)
  }

  lemma StepKeepsToken(t: Token, call: Call)
    requires TokenOk(t)
    ensures TokenOk(Step(t, call)) && (Spent(t) ==> Spent(Step(t, call)))
  {
  }

  /** Before any exhaustion every body sent is the same; after one, the bodies
      are one allow and then one other body. */
  ghost predicate FinalizerOk(f: Finalizer, calm: bool, n: nat, first: R.Receipt) {
    && TokenOk(f.token)
    && (f.started <==> f.digest.Some?)
    && (if n == 0 then if f.started then AllAre(f.sent, f.digest.value) && f.sent != [] else f.sent == []
        else
          && Spent(f.token) && Switched(f.sent, n, first)
          && (calm ==> f.token.status == Status.ConstraintDenied && f.token.reason == Reason.ConstraintDenied)
          && (if f.started
              then AllAre(f.sent[n..], f.digest.value) && f.digest.value.decision != R.Allow && n < |f.sent|
                   && (calm ==> f.digest.value.decision == R.Deny && f.digest.value.reason == Reason.ConstraintDenied)
              else n == |f.sent|))
  }

  lemma AttemptOk(c: R.Claim, f: Finalizer, calm: bool, n: nat, first: R.Receipt, r: R.Receipt, barrier: bool,
                  answer: Answer)
    returns (n': nat, first': R.Receipt)
    requires FinalizerOk(f, calm, n, first)
    ensures FinalizerOk(Attempt(c, f, r, barrier, answer), calm, n', first')
  {
    n', first' := n, first;
    if MaySend(c, f, r, barrier) {
      var sent := f.sent + [r];
      if answer == Answer.Exhausted && f.token.rateAtFinalization && r.decision == R.Allow {
        n', first' := |sent|, r;
        assert sent[..|sent|] == sent;
        assert AllAre(sent, r);
      } else if n > 0 {
        assert sent[..n] == f.sent[..n] && sent[n..] == f.sent[n..] + [r];
      }
    }
  }

  lemma CallKeepsOk(f: Finalizer, calm: bool, n: nat, first: R.Receipt, call: Call)
    requires FinalizerOk(f, calm, n, first) && (calm ==> !call.InterruptCall?)
    ensures FinalizerOk(f.(token := Step(f.token, call)), calm, n, first)
  {
    StepKeepsToken(f.token, call);
  }

  predicate Calm(ops: seq<Op>) { forall i :: 0 <= i < |ops| ==> ops[i] != CallOp(InterruptCall) }

  lemma {:induction false} RunOk(c: R.Claim, k: Sealed, ops: seq<Op>, calm: bool) returns (n: nat, first: R.Receipt)
    requires calm ==> Calm(ops)
    ensures FinalizerOk(Run(c, k, ops), calm, n, first)
  {
    if ops == [] {
      n := 0;
      first :| true;
    } else {
      var front, op := ops[..|ops| - 1], ops[|ops| - 1];
      n, first := RunOk(c, k, front, calm);
      match op
      case AttemptOp(r, barrier, answer) =>
        n, first := AttemptOk(c, Run(c, k, front), calm, n, first, r, barrier, answer);
      case CallOp(call) => CallKeepsOk(Run(c, k, front), calm, n, first, call);
    }
  }

  /** Every store call carries the same body, except that one allow may be
      replaced once, by a body that is not an allow: a deny for the exhausted
      rate, unless the evaluation was interrupted in between. */
  ghost predicate OneSwitch(sent: seq<R.Receipt>, calm: bool) {
    exists n :: 0 <= n <= |sent| && SwitchesAt(sent, n, calm)
  }

  ghost predicate SwitchesAt(sent: seq<R.Receipt>, n: int, calm: bool)
    requires 0 <= n <= |sent|
  {
    && (forall i, j :: 0 <= i < j < n ==> sent[i] == sent[j])
    && (forall i, j :: n <= i < j < |sent| ==> sent[i] == sent[j])
    && (0 < n < |sent| ==> && sent[0].decision == R.Allow && sent[n].decision != R.Allow
                           && (calm ==> sent[n].decision == R.Deny && sent[n].reason == Reason.ConstraintDenied))
  }

  lemma {:induction false} PayloadSwitchesOnce(c: R.Claim, k: Sealed, ops: seq<Op>)
    ensures OneSwitch(Run(c, k, ops).sent, Calm(ops))
  {
    var calm := Calm(ops);
    var n, first := RunOk(c, k, ops, calm);
    var f := Run(c, k, ops);
    if n > 0 {
      forall i | 0 <= i < n ensures f.sent[i] == first { assert f.sent[..n][i] == f.sent[i]; }
      if f.started {
        forall i | n <= i < |f.sent| ensures f.sent[i] == f.digest.value { assert f.sent[n..][i - n] == f.sent[i]; }
      }
    }
    assert SwitchesAt(f.sent, n, calm);
  }

  /** In particular a body that is not an allow is never followed by an allow. */
  lemma {:induction false} DenyNeverBecomesAllow(c: R.Claim, k: Sealed, ops: seq<Op>, i: nat, j: nat)
    requires i < j < |Run(c, k, ops).sent| && Run(c, k, ops).sent[i].decision != R.Allow
    ensures Run(c, k, ops).sent[j].decision != R.Allow
  {
    PayloadSwitchesOnce(c, k, ops);
    var sent := Run(c, k, ops).sent;
    var n :| 0 <= n <= |sent| && SwitchesAt(sent, n, Calm(ops));
    assert 0 < n ==> i < n ==> i == 0 || sent[0] == sent[i];
  }

  /* ---- The pipeline's own receipt may be sent ---- */

  /** What a token is when its evaluation has ended in an assessment. */
  predicate EndedAs(t: Token, a: Assessment) {
    && t.complete && t.status == a.status && t.reason == a.reason
    && (t.horizon > 0 <==> a.status == AuthorizedAgent) && 0 <= t.horizon
  }

  /** A pending token of the pipeline, with deadlines that lie ahead. */
  predicate WaitsAs(k: Sealed, t: Token, a: Assessment) {
    && t.sealed == k && t.complete && t.status == Status.Pending && t.pending == Some(a) && a.status == Status.Pending
    && t.horizon == 0 && a.delegationUntil > 0 && a.statusUntil > 0
    && (a.failure.Some? ==> a.failure.value.status != AuthorizedAgent && a.failure.value.status != Status.Pending)
  }

  predicate Stands(k: Sealed, t: Token, a: Assessment) {
    if a.status == Status.Pending then WaitsAs(k, t, a) else EndedAs(t, a)
  }

  lemma HorizonIsPositive(a: Assessment)
    requires a.delegationUntil > 0 && a.statusUntil > 0
    ensures AllowHorizon(a) > 0
  {
  }

  lemma LocalStands(k: Sealed, w: Pipeline.World)
    requires Pipeline.AggregateOk(w)
    ensures var a := Pipeline.Local(k, w);
            if a.status == Status.Pending
            then a.delegationUntil > 0 && (w.aggregate.verdict == Agg.Current ==> w.aggregate.freshUntil > 0)
            else EndedAs(Pipeline.Started(k, w), a)
  {
    var a := Pipeline.Local(k, w);
    if a.status == Status.Pending {
      ExpiryIsPositive(k, w.input.certs);
      if w.aggregate.verdict == Agg.Current {
        var results, roles :| |results| == |w.input.certs|
                              && Agg.IsAggregate(Checks(w.input.certs), results, roles, w.aggregate);
        Agg.CurrentMeans(Checks(w.input.certs), results, roles, w.aggregate);
      }
    }
  }

  lemma StatusStands(k: Sealed, w: Pipeline.World)
    requires Pipeline.AggregateOk(w)
    ensures Stands(k, Pipeline.StatusStage(k, w).0, Pipeline.StatusStage(k, w).1)
  {
    LocalStands(k, w);
    var a := Pipeline.Local(k, w);
    if a.status == Status.Pending {
      Pipeline.PendingIsOk(k, w);
      assert Pipeline.Started(k, w).pending == Some(a);
      AfterStatusStands(k, Pipeline.Started(k, w), a, w.aggregate);
    }
  }

  lemma AfterStatusStands(k: Sealed, t: Token, a: Assessment, g: Agg.Assessment)
    requires AwaitsStatus(t) && t.sealed == k && t.complete && t.horizon == 0 && t.pending == Some(a)
    requires a.delegationUntil > 0 && (g.verdict == Agg.Current ==> g.freshUntil > 0)
    requires a.failure.Some? ==> a.failure.value.status != AuthorizedAgent && a.failure.value.status != Status.Pending
    ensures var t' := AfterStatus(t, g);
            Stands(k, t', if t'.pending.Some? then t'.pending.value else Pipeline.Resolved(WithStatus(a, g), t'))
  {
    if g.verdict == Agg.Current { HorizonIsPositive(WithStatus(a, g)); }
  }

  lemma AfterAudienceStands(k: Sealed, t: Token, a: Assessment, ms: seq<Aud.Membership>)
    requires WaitsAs(k, t, a) && AwaitsAudience(t)
    ensures var t' := AfterAudience(t, ms);
            Stands(k, t', if t'.pending.Some? then t'.pending.value else Pipeline.Resolved(a, t'))
  {
    var r := Aud.Evaluate(a.audience, k.receiver, ms, k.claimedAt, k.skew);
    if r.Success? { HorizonIsPositive(a.(audienceUntil := r.value.freshUntil, audience := [])); }
  }

  lemma AudienceStands(k: Sealed, w: Pipeline.World)
    requires Pipeline.AggregateOk(w)
    ensures Stands(k, Pipeline.AudienceStage(k, w).0, Pipeline.AudienceStage(k, w).1)
  {
    StatusStands(k, w);
    Pipeline.StatusEnds(k, w);
    var (t, a) := Pipeline.StatusStage(k, w);
    if a.status == Status.Pending && a.audience != [] {
      AfterAudienceStands(k, t, a, w.memberships);
      InterruptedStands(k, t);
    }
  }

  lemma InterruptedStands(k: Sealed, t: Token)
    ensures Stands(k, Interrupt(t), INTERRUPTED)
  {
  }

  lemma AfterRateStands(k: Sealed, t: Token, a: Assessment, answer: RateAnswer)
    requires WaitsAs(k, t, a)
    ensures var t' := AfterRate(t, answer);
            t'.status == Status.Pending || t'.reason == EvaluationInterrupted || EndedAs(t', Pipeline.Resolved(a, t'))
  {
    HorizonIsPositive(a);
  }

  lemma AssessedStands(k: Sealed, w: Pipeline.World)
    requires Pipeline.AggregateOk(w)
    ensures EndedAs(Pipeline.Assessed(k, w).0, Pipeline.Assessed(k, w).1)
  {
    AudienceStands(k, w);
    var (t, a) := Pipeline.AudienceStage(k, w);
    if a.status == Status.Pending {
      AfterRateStands(k, t, a, w.rate);
      InterruptedStands(k, AfterRate(t, w.rate));
    }
  }

  /** A context that carries the sealed policy, or was not looked at; it is
      unbound only without a policy. */
  predicate PolicyKept(c: R.Claim, x: Context) {
    && x.digest == (if x.kind == ContextKind.NotEvaluated then None else c.policy)
    && (x.kind == Unbound ==> c.policy == None)
  }

  lemma LocalKeepsPolicy(c: R.Claim, k: Sealed, w: Pipeline.World)
    requires Pipeline.SealsPolicy(c, w.input.policy)
    ensures PolicyKept(c, Pipeline.Local(k, w).context) && PolicyKept(c, Pipeline.StatusKnown(k, w).context)
  {
    assert PolicyKept(c, EvaluateContext(w.input.policy, w.input.session));
  }

  lemma StatusKeepsPolicy(c: R.Claim, k: Sealed, w: Pipeline.World)
    requires Pipeline.SealsPolicy(c, w.input.policy)
    ensures PolicyKept(c, Pipeline.StatusStage(k, w).1.context)
  {
    LocalKeepsPolicy(c, k, w);
    if Pipeline.Local(k, w).status == Status.Pending {
      assert Pipeline.Started(k, w).pending == Some(Pipeline.Local(k, w));
    }
  }

  lemma AudienceKeepsContext(t: Token, a: Assessment, ms: seq<Aud.Membership>)
    requires t.pending == Some(a)
    ensures AfterAudience(t, ms).pending.Some? ==> AfterAudience(t, ms).pending.value.context == a.context
  {
  }

  lemma PipelineKeepsPolicy(c: R.Claim, k: Sealed, w: Pipeline.World)
    requires Pipeline.SealsPolicy(c, w.input.policy)
    ensures PolicyKept(c, Pipeline.Assessed(k, w).1.context)
  {
    StatusKeepsPolicy(c, k, w);
    Pipeline.StatusEnds(k, w);
    var (t, a) := Pipeline.StatusStage(k, w);
    if a.status == Status.Pending { AudienceKeepsContext(t, a, w.memberships); }
    assert PolicyKept(c, Pipeline.AudienceStage(k, w).1.context);
  }

  /** The receipt that a verification builds passes every guard of its own
      finalization exactly when no row is under the verifier's own key. */
  lemma PipelineMaySend(c: R.Claim, k: Sealed, w: Pipeline.World)
    requires Pipeline.ClaimOk(c, k, w) && Pipeline.AggregateOk(w)
    ensures var r := R.Build(c, Pipeline.Assessed(k, w).1, Pipeline.StatusKnown(k, w));
            && r.Some?
            && (MaySend(c, Finalizer(Pipeline.Assessed(k, w).0, false, None, []), r.value, true)
                <==> !Pipeline.SignedByVerifier(c, k, w))
  {
    AssessedStands(k, w);
    Pipeline.PipelineIsAccepted(c, k, w);
    PipelineKeepsPolicy(c, k, w);
    LocalKeepsPolicy(c, k, w);
    EndedMaySend(c, Pipeline.Assessed(k, w).0, Pipeline.Assessed(k, w).1, Pipeline.StatusKnown(k, w));
  }

  lemma EndedMaySend(c: R.Claim, t: Token, a: Assessment, p: R.Progress)
    requires EndedAs(t, a) && Ordering.Ascending(c.issuers) && R.Build(c, a, p).Some?
    requires PolicyKept(c, a.context) && PolicyKept(c, p.context) && R.BodyOk(R.Build(c, a, p).value)
    ensures MaySend(c, Finalizer(t, false, None, []), R.Build(c, a, p).value, true)
            <==> R.EvidenceOk(R.Build(c, a, p).value)
  {
    Ordering.CanonicalExactly(c.issuers);
    BuiltKeepsPolicy(c, a, p);
  }

  lemma BuiltKeepsPolicy(c: R.Claim, a: Assessment, p: R.Progress)
    requires R.Build(c, a, p).Some? && R.BodyOk(R.Build(c, a, p).value)
    requires PolicyKept(c, a.context) && PolicyKept(c, p.context)
    ensures PolicyKept(c, R.Build(c, a, p).value.context)
  {
  }
}

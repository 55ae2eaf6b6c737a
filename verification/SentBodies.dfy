/** What reaches the store in finalization (claim_store_v2.go:313-363): when an
    attempt calls it, what it is given, and what the answer leaves behind. */
module SentBodies {
  import opened StatusTypes
  import opened ClaimToken
  import opened Finalization
  import R = Receipt
  import T = ReceiptTable
  import Ordering

  /** A body that the token's own outcome and the sealed claim call for. */
  ghost predicate Fits(c: R.Claim, t: Token, r: R.Receipt, barrier: bool) {
    && t.complete && T.Outcome(t.reason) == Some((r.decision, t.status)) && r.reason == t.reason
    && (if r.decision == R.Allow then t.horizon > 0 else t.horizon == 0)
    && (barrier || !t.rateAtFinalization)
    && R.BodyOk(r) && R.EvidenceOk(r) && CopiesClaim(c, r)
  }

  /** The body repeats what the claim sealed. */
  ghost predicate CopiesClaim(c: R.Claim, r: R.Receipt) {
    && r.verifier == c.verifier && r.agent == c.agent && r.bundle == c.bundle && r.requiredScope == c.requiredScope
    && Ordering.Ascending(r.issuers) && (forall i :: i in r.issuers <==> i in c.issuers)
    && match r.context.kind
       case NotEvaluated => r.context.digest == None
       case _ => r.context.digest == c.policy
  }

  lemma BelongsExactly(c: R.Claim, r: R.Receipt)
    ensures BelongsTo(c, r) <==> R.BodyOk(r) && R.EvidenceOk(r) && CopiesClaim(c, r)
  {
    if CopiesClaim(c, r) {
      assert Ordering.Elements(r.issuers) == Ordering.Elements(Ordering.Canonical(c.issuers));
      Ordering.AscendingUnique(r.issuers, Ordering.Canonical(c.issuers));
    }
  }

  /** The store says that it kept nothing: only an allow that reserves its rates
      on commit can be rolled back so. */
  predicate RolledBack(t: Token, r: R.Receipt, answer: Answer) {
    answer == Answer.Exhausted && t.rateAtFinalization && r.decision == R.Allow
  }

  /** The body that the store was last given and may have kept. */
  ghost function Standing(c: R.Claim, k: Sealed, ops: seq<Op>): Option<R.Receipt> {
    if ops == [] then None
    else
      var front, op := ops[..|ops| - 1], ops[|ops| - 1];
      var f := Run(c, k, front);
      if op.CallOp? || |Run(c, k, ops).sent| == |f.sent| then Standing(c, k, front)
      else if RolledBack(f.token, op.receipt, op.answer) then None
      else Some(op.receipt)
  }

  lemma FitsExactly(c: R.Claim, f: Finalizer, r: R.Receipt, barrier: bool)
    ensures MaySend(c, f, r, barrier) <==> Fits(c, f.token, r, barrier) && (f.started ==> f.digest == Some(r))
  {
    T.DecisionExactly(f.token.status, f.token.reason);
    BelongsExactly(c, r);
  }

  lemma {:induction false} StandingIsKept(c: R.Claim, k: Sealed, ops: seq<Op>)
    ensures var f := Run(c, k, ops); f.digest == Standing(c, k, ops) && (f.started <==> f.digest.Some?)
  {
    if ops != [] { StandingIsKept(c, k, ops[..|ops| - 1]); }
  }

  /** The store is called exactly for a body that fits the token, unless it may
      have kept another one.  Only a rollback changes the token: to the deny of
      the exhausted rate, without a horizon. */
  lemma {:induction false} AttemptExactly(c: R.Claim, k: Sealed, ops: seq<Op>, r: R.Receipt, barrier: bool,
                                          answer: Answer)
    ensures var f := Run(c, k, ops); var ops' := ops + [AttemptOp(r, barrier, answer)]; var f' := Run(c, k, ops');
            var old' := Standing(c, k, ops);
            var sends := Fits(c, f.token, r, barrier) && (old' == None || old' == Some(r));
            && f'.sent == f.sent + (if sends then [r] else [])
            && Standing(c, k, ops')
               == (if !sends then old' else if RolledBack(f.token, r, answer) then None else Some(r))
            && f'.token == if sends && RolledBack(f.token, r, answer)
                           then f.token.(status := Status.ConstraintDenied, reason := Reason.ConstraintDenied,
                                         horizon := 0, rateAtFinalization := false)
                           else f.token
  {
    var ops' := ops + [AttemptOp(r, barrier, answer)];
    assert ops'[..|ops'| - 1] == ops;
    StandingIsKept(c, k, ops);
    FitsExactly(c, Run(c, k, ops), r, barrier);
    T.DecisionExactly(Run(c, k, ops).token.status, Run(c, k, ops).token.reason);
  }

  /** A body and the attempt that sent it. */
  ghost predicate SentAt(c: R.Claim, k: Sealed, ops: seq<Op>, n: int, r: R.Receipt)
    requires 0 <= n < |ops|
  {
    ops[n].AttemptOp? && ops[n].receipt == r && Fits(c, Run(c, k, ops[..n]).token, r, ops[n].barrier)
  }

  lemma OneMore(c: R.Claim, f: Finalizer, op: Op)
    ensures var f' := Next(c, f, op);
            || f'.sent == f.sent
            || (op.AttemptOp? && f'.sent == f.sent + [op.receipt] && Fits(c, f.token, op.receipt, op.barrier))
  {
    if op.AttemptOp? { FitsExactly(c, f, op.receipt, op.barrier); }
  }

  ghost predicate WasSent(c: R.Claim, k: Sealed, ops: seq<Op>, r: R.Receipt) {
    exists n :: 0 <= n < |ops| && SentAt(c, k, ops, n, r)
  }

  lemma WasSentBefore(c: R.Claim, k: Sealed, front: seq<Op>, op: Op, r: R.Receipt)
    requires WasSent(c, k, front, r)
    ensures WasSent(c, k, front + [op], r)
  {
    var n :| 0 <= n < |front| && SentAt(c, k, front, n, r);
    assert (front + [op])[..n] == front[..n];
    assert SentAt(c, k, front + [op], n, r);
  }

  /** Every body that the store was ever given was called for by the token as it
      stood then. */
  lemma {:induction false} SentBodiesFit(c: R.Claim, k: Sealed, ops: seq<Op>, i: nat)
    requires i < |Run(c, k, ops).sent|
    ensures WasSent(c, k, ops, Run(c, k, ops).sent[i])
  {
    var front, op := ops[..|ops| - 1], ops[|ops| - 1];
    assert ops == front + [op];
    var f := Run(c, k, front);
    OneMore(c, f, op);
    if i < |f.sent| {
      SentBodiesFit(c, k, front, i);
      WasSentBefore(c, k, front, op, f.sent[i]);
    } else {
      assert SentAt(c, k, ops, |ops| - 1, op.receipt);
    }
  }

  /** So an allow is sent only for an authorized token with a horizon. */
  lemma AllowWasAuthorized(c: R.Claim, t: Token, r: R.Receipt, barrier: bool)
    requires Fits(c, t, r, barrier) && r.decision == R.Allow
    ensures t.status == AuthorizedAgent && t.reason == Authorized && t.horizon > 0
    ensures r.requiredScope == c.requiredScope && c.requiredScope in r.granted
  {
    T.AllowMeans(r);
  }
}

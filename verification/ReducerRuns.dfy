/** Safety of the reducer over whole runs: any sequence of list and push
    applications (successful or refused), compactions and epoch transitions. */
module ReducerRuns {
  import opened StatusTypes
  import opened StatusCompaction
  import opened StatusReducer
  import opened ReducerInvariant
  import opened ReducerSteps

  datatype Op =
    | ListOp(list: RevocationList, issuer: IssuerId, epoch: int, key: KeyId, policy: Policy, now: int)
    | PushOp(push: RevocationPush, issuer: IssuerId, epoch: int, key: KeyId, policy: Policy, now: int)
    | CompactOp
    | EpochOp(issuer: IssuerId, epoch: int, key: KeyId)

  function Attempt(s: State, op: Op): Result<State> {
    match op
    case ListOp(l, issuer, epoch, key, policy, now) => ApplyList(s, l, issuer, epoch, key, policy, now)
    case PushOp(q, issuer, epoch, key, policy, now) => ApplyPush(s, q, issuer, epoch, key, policy, now)
    case CompactOp => if s.issuer == "" then Failure else Success(Compact(s))
    case EpochOp(issuer, epoch, key) => Transition(s, issuer, epoch, key)
  }

  /** A refused operation leaves the state as it was. */
  function Next(s: State, op: Op): State {
    match Attempt(s, op) case Success(t) => t case Failure => s
  }

  function Run(s: State, ops: seq<Op>): State {
    if ops == [] then s else Next(Run(s, ops[..|ops| - 1]), ops[|ops| - 1])
  }

  /** The states that a deployment starts from. */
  ghost predicate Initial(s: State) {
    s == UNBOUND || exists issuer: IssuerId, key: KeyId :: issuer != "" && key != "" && s == Configured(issuer, key)
  }

  /** The certificates that an operation names. */
  function Named(op: Op): set<CertId> {
    match op
    case ListOp(l, _, _, _, _, _) => l.revoked
    case PushOp(q, _, _, _, _, _) => q.revoked
    case _ => {}
  }

  /* ---- One step ---- */

  lemma BindKeepsInv(s: State, issuer: IssuerId, epoch: int, key: KeyId)
    requires Inv(s) && issuer != "" && key != "" && BindingOk(s, issuer, epoch) && (s.keyId != "" ==> s.keyId == key)
    ensures BoundInv(Bind(s, issuer, epoch, key))
    ensures Bind(s, issuer, epoch, key).issuer == issuer && Bind(s, issuer, epoch, key).keyId == key
    ensures s != UNBOUND ==> Bind(s, issuer, epoch, key) == s
  {
    if s == UNBOUND {
      assert Witnessed([]) == {};
    }
  }

  lemma NextEpochKeepsInv(s: State, key: KeyId)
    requires BoundInv(s) && s.epoch < MAX_SAFE_INTEGER && key != "" && key != s.keyId && key !in s.retired
    ensures BoundInv(NextEpoch(s, key))
  {
    var t := NextEpoch(s, key);
    forall o | o in t.observations ensures RecordOk(t, o) {
      assert RecordOk(s, o);
    }
  }

  /** What a successful list application makes of a bound state. */
  lemma ListApplied(s: State, l: RevocationList, issuer: IssuerId, epoch: int, key: KeyId, p: Policy, now: int,
                    t: State)
    requires BoundInv(s) && ApplyList(s, l, issuer, epoch, key, p, now) == Success(t)
    ensures BoundInv(t) && Grows(s, t) && l.revoked <= t.denyUnion
  {
    assert Bind(s, issuer, epoch, key) == s;
    var m := ReduceList(s, l, p, now);
    ReduceListKeepsInv(s, l, p, now);
    ListGrows(s, l, p, now);
    CompactKeepsInv(m);
    assert t == Compact(m);
  }

  lemma PushApplied(s: State, q: RevocationPush, issuer: IssuerId, epoch: int, key: KeyId, p: Policy, now: int,
                    t: State)
    requires BoundInv(s) && ApplyPush(s, q, issuer, epoch, key, p, now) == Success(t)
    ensures BoundInv(t) && Grows(s, t) && q.revoked <= t.denyUnion
  {
    assert Bind(s, issuer, epoch, key) == s;
    var m := ReducePush(s, q, p, now);
    ReducePushKeepsInv(s, q, p, now);
    PushGrows(s, q, p, now);
    CompactKeepsInv(m);
    assert t == Compact(m);
  }

  lemma NextKeepsInv(s: State, op: Op)
    requires Inv(s)
    ensures Inv(Next(s, op))
    ensures Attempt(s, op).Success? ==> BoundInv(Next(s, op))
  {
    if Attempt(s, op).Success? {
      match op
      case ListOp(l, issuer, epoch, key, policy, now) =>
        BindKeepsInv(s, issuer, epoch, key);
        ReduceListKeepsInv(Bind(s, issuer, epoch, key), l, policy, now);
        CompactKeepsInv(ReduceList(Bind(s, issuer, epoch, key), l, policy, now));
      case PushOp(q, issuer, epoch, key, policy, now) =>
        BindKeepsInv(s, issuer, epoch, key);
        ReducePushKeepsInv(Bind(s, issuer, epoch, key), q, policy, now);
        CompactKeepsInv(ReducePush(Bind(s, issuer, epoch, key), q, policy, now));
      case CompactOp => CompactKeepsInv(s);
      case EpochOp(issuer, epoch, key) => NextEpochKeepsInv(s, key);
    }
  }

  lemma InitialInv(s: State)
    requires Initial(s)
    ensures Inv(s)
  {
    assert Witnessed([]) == {};
  }

  /** Every reachable state meets every validator clause but the fork marker. */
  lemma {:induction false} ReachableInv(s: State, ops: seq<Op>)
    requires Initial(s)
    ensures Inv(Run(s, ops))
    ensures Run(s, ops) == UNBOUND || (BindingOk(Run(s, ops), Run(s, ops).issuer, Run(s, ops).epoch)
                                       && AcceptedOkButFork(Run(s, ops)))
  {
    if ops == [] {
      InitialInv(s);
    } else {
      ReachableInv(s, ops[..|ops| - 1]);
      NextKeepsInv(Run(s, ops[..|ops| - 1]), ops[|ops| - 1]);
    }
    var t := Run(s, ops);
    if t != UNBOUND { InvImpliesValid(t); }
  }

  /* ---- Denials are permanent ---- */

  /** A successful application denies everything the object names, also when
      it stopped early at a known object, set or body. */
  lemma AppliedIsDenied(s: State, op: Op)
    requires Inv(s) && Attempt(s, op).Success?
    ensures Named(op) <= Next(s, op).denyUnion
    ensures s.denyUnion <= Next(s, op).denyUnion
  {
    match op
    case ListOp(l, issuer, epoch, key, policy, now) =>
      BindKeepsInv(s, issuer, epoch, key);
      ListGrows(Bind(s, issuer, epoch, key), l, policy, now);
    case PushOp(q, issuer, epoch, key, policy, now) =>
      BindKeepsInv(s, issuer, epoch, key);
      PushGrows(Bind(s, issuer, epoch, key), q, policy, now);
    case _ =>
  }

  lemma NextKeepsDenials(s: State, op: Op)
    requires Inv(s)
    ensures s.denyUnion <= Next(s, op).denyUnion
  {
    if Attempt(s, op).Success? { AppliedIsDenied(s, op); }
  }

  /** Once an authenticated object naming a certificate was applied, every
      later state denies it and no later query answers not-revoked for it. */
  lemma {:induction false} DeniedForever(s: State, ops: seq<Op>, i: nat, cert: CertId)
    requires Initial(s) && i < |ops|
    requires Attempt(Run(s, ops[..i]), ops[i]).Success? && cert in Named(ops[i])
    ensures cert in Run(s, ops).denyUnion
    ensures forall issuer, epoch, key, p, now ::
              !(var r := Query(Run(s, ops), issuer, cert, epoch, key, p, now); r.Success? && r.value.NotRevoked?)
  {
    var front := ops[..|ops| - 1];
    ReachableInv(s, front);
    if i == |ops| - 1 {
      AppliedIsDenied(Run(s, front), ops[i]);
    } else {
      assert front[..i] == ops[..i];
      DeniedForever(s, front, i, cert);
      NextKeepsDenials(Run(s, front), ops[|ops| - 1]);
    }
  }

  /* ---- The floor ---- */

  /** A step stays in the epoch and grows the state, or opens a later epoch. */
  lemma NextGrows(s: State, op: Op)
    requires Inv(s) && s != UNBOUND
    ensures Next(s, op) != UNBOUND
    ensures Grows(s, Next(s, op)) || s.epoch < Next(s, op).epoch
  {
    if Attempt(s, op).Success? {
      NextKeepsInv(s, op);
      match op
      case ListOp(l, issuer, epoch, key, policy, now) =>
        BindKeepsInv(s, issuer, epoch, key);
        ListGrows(s, l, policy, now);
      case PushOp(q, issuer, epoch, key, policy, now) =>
        BindKeepsInv(s, issuer, epoch, key);
        PushGrows(s, q, policy, now);
      case _ =>
    }
  }

  /** Within one epoch the floor never falls and the accepted set never loses
      a member, between any two moments of a run. */
  lemma {:induction false} FloorNeverFalls(s: State, ops: seq<Op>, i: nat)
    requires Initial(s) && i <= |ops| && Run(s, ops[..i]) != UNBOUND
    ensures Run(s, ops).epoch >= Run(s, ops[..i]).epoch && Run(s, ops) != UNBOUND
    ensures Run(s, ops).epoch == Run(s, ops[..i]).epoch ==>
              && Run(s, ops[..i]).floor <= Run(s, ops).floor
              && Run(s, ops[..i]).accepted <= Run(s, ops).accepted
              && (Run(s, ops[..i]).hasFloor ==> Run(s, ops).hasFloor)
  {
    if i == |ops| {
      assert ops[..i] == ops;
    } else {
      var front := ops[..|ops| - 1];
      assert front[..i] == ops[..i];
      FloorNeverFalls(s, front, i);
      ReachableInv(s, front);
      NextGrows(Run(s, front), ops[|ops| - 1]);
    }
  }

  /** In every reachable state with a floor, what a snapshot at or above the
      floor must contain still includes the whole accepted set. */
  lemma {:induction false} CompactionHidesNothing(s: State, ops: seq<Op>, sequence: int)
    requires Initial(s) && Run(s, ops).hasFloor && Run(s, ops).floor <= sequence
    ensures Run(s, ops).accepted <= Required(Run(s, ops).observations, Run(s, ops).epoch, sequence)
  {
    ReachableInv(s, ops);
    RequiredCoversAccepted(Run(s, ops), sequence);
  }

  /* ---- Queries ---- */

  /** A reconciled floor and a policy under which a list can be fresh at all. */
  predicate CanTell(s: State, p: Policy) { s.hasFloor && !s.reconcile && p.maxListLifetime > 0 && p.maxStatusAge > 0 }

  /** On a reachable state a valid query answers revoked exactly for a denied
      certificate.  Otherwise the answer is unavailable unless there is a
      reconciled floor, and then its list's freshness decides between
      not-revoked and stale. */
  lemma QueryExact(s: State, cert: CertId, p: Policy, now: int)
    requires BoundInv(s) && ForkMarked(s) && cert != "" && ValidPolicy(p) && ValidTimestamp(now)
    ensures var r := Query(s, s.issuer, cert, s.epoch, s.keyId, p, now);
            && r.Success?
            && (r.value.Revoked? <==> cert in s.denyUnion)
            && (r.value.NotRevoked? <==>
                cert !in s.denyUnion && s.hasFloor && !s.reconcile && Fresh(s.snapshot.value, p, now))
            && (r.value.Stale? <==> cert !in s.denyUnion && CanTell(s, p) && !Fresh(s.snapshot.value, p, now))
            && (r.value.Unavailable? <==> cert !in s.denyUnion && !CanTell(s, p))
  {
    InvImpliesValid(s);
  }

  /** A query is refused exactly for an empty certificate ID, an invalid policy
      or time, or another issuer, epoch or key than the state's. */
  lemma QueryAnswersExactly(s: State, issuer: IssuerId, cert: CertId, epoch: int, key: KeyId, p: Policy, now: int)
    requires BoundInv(s) && ForkMarked(s) && s.keyId != ""
    ensures Query(s, issuer, cert, epoch, key, p, now).Success? <==>
            && cert != "" && 0 <= now <= MAX_TIMESTAMP && issuer == s.issuer && epoch == s.epoch && key == s.keyId
            && 0 <= p.maxListLifetime <= MAX_STATUS_LIFETIME && 0 <= p.maxStatusAge <= MAX_STATUS_LIFETIME
            && 0 <= p.clockSkew <= MAX_FUTURE_SKEW
  {
    InvImpliesValid(s);
  }

  /** A not-revoked answer stays fresh until its reported deadline. */
  lemma FreshUntilIsSound(s: State, issuer: IssuerId, cert: CertId, epoch: int, key: KeyId, p: Policy, now: int,
                          later: int)
    requires var r := Query(s, issuer, cert, epoch, key, p, now); r.Success? && r.value.NotRevoked?
    requires now <= later < Query(s, issuer, cert, epoch, key, p, now).value.freshUntil
    ensures s.snapshot.Some? && Fresh(s.snapshot.value, p, later)
    ensures now < Query(s, issuer, cert, epoch, key, p, now).value.freshUntil
  {
  }

  /** And at the deadline the list is fresh no more. */
  lemma FreshUntilIsTight(s: State, issuer: IssuerId, cert: CertId, epoch: int, key: KeyId, p: Policy, now: int)
    requires var r := Query(s, issuer, cert, epoch, key, p, now); r.Success? && r.value.NotRevoked?
    ensures var until := Query(s, issuer, cert, epoch, key, p, now).value.freshUntil;
            s.snapshot.Some? && forall later :: until <= later ==> !Fresh(s.snapshot.value, p, later)
  {
  }
}

/** Contradicting objects over whole runs: what an issuer once signed for a
    sequence stays on record, a different object for it is marked as a fork and
    takes nothing, and of two sets for one sequence at most one is ever
    accepted (status_state_v2.go:180-519). */
module Contradictions {
  import opened StatusTypes
  import opened StatusCompaction
  import opened StatusReducer
  import opened CompactionProofs
  import opened ReducerInvariant
  import opened ReducerSteps
  import opened ReducerRuns
  import opened ListEffects
  import opened PushEffects

  /* ---- Which applications succeed ---- */

  /** A list is applied to a bound state exactly when the bound issuer signed it
      with the bound key, it is well formed, and the call is for this epoch. */
  lemma ListAppliesExactly(s: State, l: RevocationList, issuer: IssuerId, epoch: int, key: KeyId, p: Policy, now: int)
    requires BoundInv(s) && s.keyId != ""
    ensures ApplyList(s, l, issuer, epoch, key, p, now).Success? <==>
            && issuer == s.issuer == l.issuer && epoch == s.epoch && key == s.keyId == l.signedBy
            && 0 < l.sequence <= MAX_SAFE_INTEGER && "" !in l.revoked
            && 0 <= l.updatedAt < l.nextUpdate <= MAX_TIMESTAMP && 0 <= now <= MAX_TIMESTAMP
            && 0 <= p.maxListLifetime <= MAX_STATUS_LIFETIME && 0 <= p.maxStatusAge <= MAX_STATUS_LIFETIME
            && 0 <= p.clockSkew <= MAX_FUTURE_SKEW
  {
  }

  lemma PushAppliesExactly(s: State, q: RevocationPush, issuer: IssuerId, epoch: int, key: KeyId, p: Policy, now: int)
    requires BoundInv(s) && s.keyId != ""
    ensures ApplyPush(s, q, issuer, epoch, key, p, now).Success? <==>
            && issuer == s.issuer == q.issuer && epoch == s.epoch && key == s.keyId == q.signedBy
            && 0 < q.sequence <= MAX_SAFE_INTEGER && "" !in q.revoked
            && 0 <= q.pushedAt <= MAX_TIMESTAMP && 0 <= now <= MAX_TIMESTAMP
            && 0 <= p.maxListLifetime <= MAX_STATUS_LIFETIME && 0 <= p.maxStatusAge <= MAX_STATUS_LIFETIME
            && 0 <= p.clockSkew <= MAX_FUTURE_SKEW
  {
  }

  /* ---- What stays on record ---- */

  /** A list with this set at this sequence, or a push with this body, accepted
      if that is asked for. */
  predicate Says(o: Observation, epoch: int, sequence: int, said: KeyDigest, accepted: bool) {
    && o.epoch == epoch && o.sequence == sequence && o.IsList() == said.SetDigest? && DigestOf(o) == said
    && (accepted ==> o.accepted)
  }

  ghost predicate OnRecord(s: State, epoch: int, sequence: int, said: KeyDigest, accepted: bool) {
    exists o :: o in s.observations && Says(o, epoch, sequence, said, accepted)
  }

  lemma CompactionRemembers(s: State, epoch: int, sequence: int, said: KeyDigest, accepted: bool)
    requires BoundInv(s) && OnRecord(s, epoch, sequence, said, accepted)
    ensures OnRecord(Compact(s), epoch, sequence, said, accepted)
  {
    var o :| o in s.observations && Says(o, epoch, sequence, said, accepted);
    CompactedCovers(s, o);
    var r :| r in Compacted(s) && Covers(s, r, o);
    assert r in Compact(s).observations && Says(r, epoch, sequence, said, accepted);
  }

  lemma MoreRecordsRemember(s: State, t: State, epoch: int, sequence: int, said: KeyDigest, accepted: bool)
    requires OnRecord(s, epoch, sequence, said, accepted) && forall o :: o in s.observations ==> o in t.observations
    ensures OnRecord(t, epoch, sequence, said, accepted)
  {
    var o :| o in s.observations && Says(o, epoch, sequence, said, accepted);
  }

  lemma ListIsRemembered(s: State, l: RevocationList, p: Policy, now: int)
    requires BoundInv(s) && AuthenticList(l, s.issuer, s.keyId) && ValidPolicy(p)
    ensures var t := ReduceList(s, l, p, now);
            && OnRecord(t, s.epoch, l.sequence, SetDigest(l.revoked), false)
            && forall o :: o in s.observations ==> o in t.observations
  {
    var t := ReduceList(s, l, p, now);
    ListApplication(s, l, p, now);
    if t.observations == s.observations {
      if OnFile(s, l) { FiledListSays(s, l); } else { KnownSetSays(s, l, p, now); }
    } else {
      AppendRemembers(s, t, t.observations[|t.observations| - 1], l.sequence, SetDigest(l.revoked));
    }
  }

  lemma AppendRemembers(s: State, t: State, o: Observation, sequence: int, said: KeyDigest)
    requires t.observations == s.observations + [o] && Says(o, s.epoch, sequence, said, false)
    ensures OnRecord(t, s.epoch, sequence, said, false) && forall x :: x in s.observations ==> x in t.observations
  {
    assert o in t.observations;
  }

  lemma FiledListSays(s: State, l: RevocationList)
    requires BoundInv(s) && OnFile(s, l)
    ensures OnRecord(s, s.epoch, l.sequence, SetDigest(l.revoked), false)
  {
    var o :| o in s.observations && o.epoch == s.epoch && o.IsList() && o.evidence == ListEvidence(l)
             && o.sequence == l.sequence;
    assert RecordOk(s, o);
    assert Says(o, s.epoch, l.sequence, SetDigest(l.revoked), false);
  }

  lemma KnownSetSays(s: State, l: RevocationList, p: Policy, now: int)
    requires !OnFile(s, l) && !LookedAt(s, l, p, now)
    ensures OnRecord(s, s.epoch, l.sequence, SetDigest(l.revoked), false)
  {
    NoLastOf(s, l);
    var i :| LastWithSet(s, l, i);
    var o := s.observations[i];
    assert o in s.observations && Says(o, s.epoch, l.sequence, SetDigest(l.revoked), false);
  }

  lemma PushIsRemembered(s: State, q: RevocationPush, p: Policy, now: int)
    requires BoundInv(s) && AuthenticPush(q, s.issuer, s.keyId) && ValidPolicy(p)
    ensures var t := ReducePush(s, q, p, now);
            && OnRecord(t, s.epoch, q.sequence, BodyDigest(PushEvidence(q).Body()), false)
            && forall o :: o in s.observations ==> o in t.observations
  {
    var t := ReducePush(s, q, p, now);
    PushApplication(s, q, p, now);
    if PushOnFile(s, q) {
      FiledPushSays(s, q);
    } else {
      var o := t.observations[|t.observations| - 1];
      AppendRemembers(s, t, o, q.sequence, BodyDigest(PushEvidence(q).Body()));
    }
  }

  lemma FiledPushSays(s: State, q: RevocationPush)
    requires BoundInv(s) && PushOnFile(s, q)
    ensures OnRecord(s, s.epoch, q.sequence, BodyDigest(PushEvidence(q).Body()), false)
  {
    var o :| o in s.observations && o.epoch == s.epoch && o.IsPush() && o.sequence == q.sequence
             && (o.evidence == PushEvidence(q) || o.body == PushEvidence(q).Body());
    assert RecordOk(s, o);
    assert Says(o, s.epoch, q.sequence, BodyDigest(PushEvidence(q).Body()), false);
  }

  /* ---- One step ---- */

  predicate SignedOp(op: Op) { op.ListOp? || op.PushOp? }

  function SequenceOf(op: Op): int
    requires SignedOp(op)
  {
    if op.ListOp? then op.list.sequence else op.push.sequence
  }

  function SaidBy(op: Op): KeyDigest
    requires SignedOp(op)
  {
    if op.ListOp? then SetDigest(op.list.revoked) else BodyDigest(PushEvidence(op.push).Body())
  }

  lemma StepRemembers(s: State, m: State, epoch: int, sequence: int, said: KeyDigest, accepted: bool)
    requires OnRecord(s, epoch, sequence, said, accepted)
    requires (forall o :: o in s.observations ==> o in m.observations) && BoundInv(m)
    ensures OnRecord(Compact(m), epoch, sequence, said, accepted)
  {
    MoreRecordsRemember(s, m, epoch, sequence, said, accepted);
    CompactionRemembers(m, epoch, sequence, said, accepted);
  }

  /** A step forgets nothing. */
  lemma NextRemembers(s: State, op: Op, epoch: int, sequence: int, said: KeyDigest, accepted: bool)
    requires BoundInv(s) && OnRecord(s, epoch, sequence, said, accepted)
    ensures OnRecord(Next(s, op), epoch, sequence, said, accepted)
  {
    if Attempt(s, op).Success? {
      match op
      case ListOp(l, _, _, _, p, now) =>
        ListNext(s, op);
        ListIsRemembered(s, l, p, now);
        ReduceListKeepsInv(s, l, p, now);
        StepRemembers(s, ReduceList(s, l, p, now), epoch, sequence, said, accepted);
      case PushOp(q, _, _, _, p, now) =>
        PushNext(s, op);
        PushIsRemembered(s, q, p, now);
        ReducePushKeepsInv(s, q, p, now);
        StepRemembers(s, ReducePush(s, q, p, now), epoch, sequence, said, accepted);
      case CompactOp => CompactionRemembers(s, epoch, sequence, said, accepted);
      case EpochOp(_, _, key) => MoreRecordsRemember(s, NextEpoch(s, key), epoch, sequence, said, accepted);
    }
  }

  /** What is applied is on record. */
  lemma AppliedIsRemembered(s: State, op: Op)
    requires Inv(s) && SignedOp(op) && Attempt(s, op).Success?
    ensures OnRecord(Next(s, op), op.epoch, SequenceOf(op), SaidBy(op), false)
  {
    var b := Bind(s, op.issuer, op.epoch, op.key);
    BindKeepsInv(s, op.issuer, op.epoch, op.key);
    match op
    case ListOp(l, _, _, _, p, now) =>
      ListIsRemembered(b, l, p, now);
      ReduceListKeepsInv(b, l, p, now);
      CompactionRemembers(ReduceList(b, l, p, now), op.epoch, SequenceOf(op), SaidBy(op), false);
    case PushOp(q, _, _, _, p, now) =>
      PushIsRemembered(b, q, p, now);
      ReducePushKeepsInv(b, q, p, now);
      CompactionRemembers(ReducePush(b, q, p, now), op.epoch, SequenceOf(op), SaidBy(op), false);
  }

  /** The step takes nothing and marks a fork up to the sequence. */
  ghost predicate Marks(s: State, sequence: int, t: State) {
    FloorKept(s, t) && t.reconcile && sequence <= t.forkSequence
  }

  /** The object is recorded as a fork. */
  ghost predicate ForkRecord(t: State, epoch: int, sequence: int, said: KeyDigest) {
    exists o :: o in t.observations && Says(o, epoch, sequence, said, false) && o.fork
  }

  lemma ForkRecordStays(m: State, epoch: int, sequence: int, said: KeyDigest)
    requires BoundInv(m) && ForkRecord(m, epoch, sequence, said)
    ensures ForkRecord(Compact(m), epoch, sequence, said)
  {
    var o :| o in m.observations && Says(o, epoch, sequence, said, false) && o.fork;
    CompactedCovers(m, o);
    var r :| r in Compacted(m) && Covers(m, r, o);
    assert r in Compact(m).observations && Says(r, epoch, sequence, said, false) && r.fork;
  }

  lemma AppendedForkRecord(s: State, m: State, o: Observation, sequence: int, said: KeyDigest)
    requires m.observations == s.observations + [o] && Says(o, s.epoch, sequence, said, false) && o.fork
    ensures ForkRecord(m, s.epoch, sequence, said)
  {
    assert o in m.observations;
  }

  lemma ForkedListMarks(s: State, l: RevocationList, p: Policy, now: int, m: State)
    requires Forked(s, l, p, now, m)
    ensures Marks(s, l.sequence, Compact(m))
    ensures !OnFile(s, l) ==> ForkRecord(m, s.epoch, l.sequence, SetDigest(l.revoked))
  {
    if !OnFile(s, l) {
      AppendedForkRecord(s, m, m.observations[|m.observations| - 1], l.sequence, SetDigest(l.revoked));
    }
  }

  lemma ForkedPushMarks(s: State, q: RevocationPush, p: Policy, now: int, m: State)
    requires PushForked(s, q, p, now, m)
    ensures Marks(s, q.sequence, Compact(m))
    ensures ForkRecord(m, s.epoch, q.sequence, BodyDigest(PushEvidence(q).Body()))
  {
    AppendedForkRecord(s, m, m.observations[|m.observations| - 1], q.sequence, BodyDigest(PushEvidence(q).Body()));
  }

  lemma ListNext(s: State, op: Op)
    requires BoundInv(s) && op.ListOp? && Attempt(s, op).Success?
    ensures Next(s, op) == Compact(ReduceList(s, op.list, op.policy, op.now))
    ensures AuthenticList(op.list, s.issuer, s.keyId) && ValidPolicy(op.policy)
  {
    assert Bind(s, op.issuer, op.epoch, op.key) == s;
  }

  lemma PushNext(s: State, op: Op)
    requires BoundInv(s) && op.PushOp? && Attempt(s, op).Success?
    ensures AuthenticPush(op.push, s.issuer, s.keyId) && ValidPolicy(op.policy)
    ensures Next(s, op) == Compact(ReducePush(s, op.push, op.policy, op.now))
  {
    assert Bind(s, op.issuer, op.epoch, op.key) == s;
  }

  /** A list that is looked at and contradicts what was observed takes nothing
      and is marked; unless it was on file before, it is recorded as a fork. */
  lemma ContradictingListIsMarked(s: State, op: Op)
    requires BoundInv(s) && op.ListOp? && Attempt(s, op).Success?
    requires LookedAt(s, op.list, op.policy, op.now) && Contradicted(s, op.list)
    ensures Marks(s, op.list.sequence, Next(s, op))
    ensures !OnFile(s, op.list) ==> ForkRecord(Next(s, op), s.epoch, op.list.sequence, SaidBy(op))
  {
    var m := ReduceList(s, op.list, op.policy, op.now);
    ListNext(s, op);
    ListApplication(s, op.list, op.policy, op.now);
    ForkedListMarks(s, op.list, op.policy, op.now, m);
    ReduceListKeepsInv(s, op.list, op.policy, op.now);
    if !OnFile(s, op.list) { ForkRecordStays(m, s.epoch, op.list.sequence, SaidBy(op)); }
  }

  /** A new push with another body than one on record for its sequence, or that
      a list omits, or that differs from the accepted set, takes nothing and is
      recorded as a fork. */
  lemma ContradictingPushIsMarked(s: State, op: Op)
    requires BoundInv(s) && op.PushOp? && Attempt(s, op).Success? && !PushOnFile(s, op.push)
    requires OtherPush(s, op.push) || Omitted(s, op.push) || DiffersFromAccepted(s, op.push)
    ensures Marks(s, op.push.sequence, Next(s, op))
    ensures ForkRecord(Next(s, op), s.epoch, op.push.sequence, SaidBy(op))
  {
    var m := ReducePush(s, op.push, op.policy, op.now);
    PushNext(s, op);
    PushApplication(s, op.push, op.policy, op.now);
    ForkedPushMarks(s, op.push, op.policy, op.now, m);
    ReducePushKeepsInv(s, op.push, op.policy, op.now);
    ForkRecordStays(m, s.epoch, op.push.sequence, SaidBy(op));
  }

  /* ---- Two objects for one sequence ---- */

  lemma {:induction false} RunRemembers(s: State, ops: seq<Op>, n: nat, epoch: int, sequence: int, said: KeyDigest,
                                        accepted: bool)
    requires Initial(s) && n <= |ops| && OnRecord(Run(s, ops[..n]), epoch, sequence, said, accepted)
    ensures OnRecord(Run(s, ops), epoch, sequence, said, accepted)
  {
    if n == |ops| {
      assert ops[..n] == ops;
    } else {
      var front := ops[..|ops| - 1];
      assert front[..n] == ops[..n];
      RunRemembers(s, front, n, epoch, sequence, said, accepted);
      ReachableInv(s, front);
      NextRemembers(Run(s, front), ops[|ops| - 1], epoch, sequence, said, accepted);
    }
  }

  /** Once two different sets, or two different pushes, were applied for one
      sequence of an epoch, the second one took nothing and was recorded as a
      fork when it first came. */
  lemma {:induction false} DifferentObjectsFork(s: State, ops: seq<Op>, n: nat, m: nat)
    requires Initial(s) && n < m < |ops| && SignedOp(ops[n]) && ops[m].ListOp? == ops[n].ListOp? && SignedOp(ops[m])
    requires Attempt(Run(s, ops[..n]), ops[n]).Success? && Attempt(Run(s, ops[..m]), ops[m]).Success?
    requires ops[n].epoch == ops[m].epoch && SequenceOf(ops[n]) == SequenceOf(ops[m])
    requires SaidBy(ops[n]) != SaidBy(ops[m])
    requires !OnRecord(Run(s, ops[..m]), ops[m].epoch, SequenceOf(ops[m]), SaidBy(ops[m]), false)
    ensures var a, t := Run(s, ops[..m]), Run(s, ops[..m + 1]);
            && Marks(a, SequenceOf(ops[m]), t) && a.epoch == ops[m].epoch
            && ForkRecord(t, ops[m].epoch, SequenceOf(ops[m]), SaidBy(ops[m]))
  {
    ReachableInv(s, ops[..m]);
    AppliedStays(s, ops, n, m);
    OtherObjectForks(Run(s, ops[..m]), ops[m], SaidBy(ops[n]));
    RunNext(s, ops, m);
  }

  lemma {:induction false} RunNext(s: State, ops: seq<Op>, n: nat)
    requires n < |ops|
    ensures Run(s, ops[..n + 1]) == Next(Run(s, ops[..n]), ops[n])
  {
    assert ops[..n + 1][..n] == ops[..n];
  }

  /** What was applied once is on record at every later moment. */
  lemma {:induction false} AppliedStays(s: State, ops: seq<Op>, n: nat, m: nat)
    requires Initial(s) && n < m <= |ops| && SignedOp(ops[n]) && Attempt(Run(s, ops[..n]), ops[n]).Success?
    ensures OnRecord(Run(s, ops[..m]), ops[n].epoch, SequenceOf(ops[n]), SaidBy(ops[n]), false)
  {
    assert ops[..m][..n + 1] == ops[..n + 1];
    ReachableInv(s, ops[..n]);
    AppliedIsRemembered(Run(s, ops[..n]), ops[n]);
    RunNext(s, ops, n);
    RunRemembers(s, ops[..m], n + 1, ops[n].epoch, SequenceOf(ops[n]), SaidBy(ops[n]), false);
  }

  /** An operation that says for its sequence what no other one has said. */
  ghost predicate Differs(a: State, op: Op, other: KeyDigest)
    requires SignedOp(op)
  {
    && Attempt(a, op).Success? && other != SaidBy(op) && other.SetDigest? == op.ListOp?
    && OnRecord(a, op.epoch, SequenceOf(op), other, false)
    && !OnRecord(a, op.epoch, SequenceOf(op), SaidBy(op), false)
  }

  lemma OtherObjectForks(a: State, op: Op, other: KeyDigest)
    requires Inv(a) && SignedOp(op) && Differs(a, op, other)
    ensures Marks(a, SequenceOf(op), Next(a, op)) && a.epoch == op.epoch
    ensures ForkRecord(Next(a, op), op.epoch, SequenceOf(op), SaidBy(op))
  {
    var o :| o in a.observations && Says(o, op.epoch, SequenceOf(op), other, false);
    assert a != UNBOUND && a.epoch == op.epoch;
    if op.ListOp? {
      NewSetIsLookedAt(a, op.list, op.policy, op.now);
      ContradictingListIsMarked(a, op);
    } else {
      NewBodyIsNotOnFile(a, op.push);
      ContradictingPushIsMarked(a, op);
    }
  }

  lemma NewSetIsLookedAt(s: State, l: RevocationList, p: Policy, now: int)
    requires BoundInv(s) && !OnRecord(s, s.epoch, l.sequence, SetDigest(l.revoked), false)
    ensures LookedAt(s, l, p, now) && !OnFile(s, l)
  {
    if OnFile(s, l) { FiledListSays(s, l); }
    NoLastOf(s, l);
    forall o | o in s.observations ensures !HasSetOf(s, l, o) {
      assert !Says(o, s.epoch, l.sequence, SetDigest(l.revoked), false);
    }
  }

  lemma NewBodyIsNotOnFile(s: State, q: RevocationPush)
    requires BoundInv(s) && !OnRecord(s, s.epoch, q.sequence, BodyDigest(PushEvidence(q).Body()), false)
    ensures !PushOnFile(s, q)
  {
    forall o | o in s.observations && o.epoch == s.epoch && o.IsPush() && o.sequence == q.sequence
      ensures o.evidence != PushEvidence(q) && o.body != PushEvidence(q).Body()
    {
      assert RecordOk(s, o) && !Says(o, s.epoch, q.sequence, BodyDigest(PushEvidence(q).Body()), false);
    }
  }

  /* ---- At most one is accepted ---- */

  /** Accepted objects of one kind, epoch and sequence say the same. */
  ghost predicate OneAccepted(obs: seq<Observation>) {
    forall o, x :: o in obs && x in obs && o.accepted && x.accepted && SamePlace(o, x) ==> DigestOf(o) == DigestOf(x)
  }

  ghost predicate SamePlace(o: Observation, x: Observation) {
    o.epoch == x.epoch && o.sequence == x.sequence && TypeCode(o) == TypeCode(x)
  }

  ghost predicate SameObject(o: Observation, x: Observation) {
    SamePlace(o, x) && DigestOf(o) == DigestOf(x)
  }

  /** Merging accepts a record only with an accepted one or the base. */
  ghost predicate AcceptedFrom(s: State, r: Observation, obs: seq<Observation>) {
    r.accepted ==> exists o :: o in obs && SameObject(r, o) && (o.accepted || IsBase(s, o))
  }

  lemma {:induction false} AcceptedHaveSources(s: State, obs: seq<Observation>)
    ensures forall r :: r in FoldAll(s, obs).retained ==> AcceptedFrom(s, r, obs)
  {
    if obs != [] {
      var front, o := obs[..|obs| - 1], obs[|obs| - 1];
      assert obs == front + [o];
      AcceptedHaveSources(s, front);
      StepHasSources(s, FoldAll(s, front), front, o);
    }
  }

  lemma StepHasSources(s: State, f: Fold, front: seq<Observation>, o: Observation)
    requires FoldOk(f) && forall r :: r in f.retained ==> AcceptedFrom(s, r, front)
    ensures forall r :: r in Step(s, f, o).retained ==> AcceptedFrom(s, r, front + [o])
  {
    var n := Narrow(s, f, o);
    StepCases(s, f, o);
    forall r | r in Step(s, f, o).retained ensures AcceptedFrom(s, r, front + [o]) {
      if r in f.retained {
        SourceStays(s, r, front, o);
      } else if r == n {
        NewHasSource(s, n, front, o);
      } else {
        var i :| 0 <= i < |f.retained| && Carries(f.retained[i], KeyOf(n)) && r == Merge(s, f.retained[i], n);
        assert f.retained[i] in f.retained;
        MergedHasSource(s, f.retained[i], n, o, front);
      }
    }
  }

  lemma NewHasSource(s: State, n: Observation, front: seq<Observation>, o: Observation)
    requires n == o.(certs := n.certs)
    ensures AcceptedFrom(s, n, front + [o])
  {
    assert SameObject(n, o) && o in front + [o];
  }

  lemma SourceStays(s: State, r: Observation, front: seq<Observation>, o: Observation)
    requires AcceptedFrom(s, r, front)
    ensures AcceptedFrom(s, r, front + [o])
  {
    if r.accepted {
      var x :| x in front && SameObject(r, x) && (x.accepted || IsBase(s, x));
      assert x in front + [o];
    }
  }

  lemma MergedHasSource(s: State, prior: Observation, n: Observation, o: Observation, front: seq<Observation>)
    requires AcceptedFrom(s, prior, front) && n == o.(certs := n.certs) && Carries(prior, KeyOf(n))
    ensures AcceptedFrom(s, Merge(s, prior, n), front + [o])
  {
    assert SameObject(Merge(s, prior, n), prior) && SameObject(prior, o) && o in front + [o];
    if prior.accepted {
      var x :| x in front && SameObject(prior, x) && (x.accepted || IsBase(s, x));
      assert SameObject(Merge(s, prior, n), x) && x in front + [o];
    }
  }

  /** The base has an accepted record. */
  lemma BaseIsAccepted(s: State, o: Observation)
    requires BoundInv(s) && o in s.observations && IsBase(s, o)
    ensures exists b :: b in s.observations && b.accepted && SameObject(o, b)
  {
    var b :| b in s.observations && IsBase(s, b) && b.accepted && b.certs == b.revokedSet;
    assert RecordOk(s, b) && RecordOk(s, o);
    assert SameObject(o, b);
  }

  lemma RetainedSource(s: State, r: Observation) returns (o: Observation)
    requires r in Compacted(s) && r.accepted
    ensures o in s.observations && SameObject(r, o) && (o.accepted || IsBase(s, o))
  {
    var sorted := Sorted(s.observations);
    AcceptedHaveSources(s, sorted);
    CompactedIsRetained(s);
    var retained := FoldAll(s, sorted).retained;
    var i :| 0 <= i < |retained| && Compacted(s)[i] == r;
    assert retained[i] in retained && AcceptedFrom(s, retained[i], sorted);
    o :| o in sorted && SameObject(retained[i], o) && (o.accepted || IsBase(s, o));
  }

  lemma CompactedAccepted(s: State, r: Observation)
    requires BoundInv(s) && r in Compacted(s) && r.accepted
    ensures exists o :: o in s.observations && o.accepted && SameObject(r, o)
  {
    var o := RetainedSource(s, r);
    if !o.accepted { BaseIsAccepted(s, o); }
  }

  lemma CompactKeepsOne(s: State)
    requires BoundInv(s) && OneAccepted(s.observations)
    ensures OneAccepted(Compact(s).observations)
  {
    forall r, x | r in Compacted(s) && x in Compacted(s) && r.accepted && x.accepted && SamePlace(r, x)
      ensures DigestOf(r) == DigestOf(x)
    {
      CompactedAccepted(s, r);
      CompactedAccepted(s, x);
    }
  }

  lemma AppendedOne(obs: seq<Observation>, o: Observation)
    requires OneAccepted(obs)
    requires o.accepted ==> forall x :: x in obs && x.accepted && SamePlace(x, o) ==> DigestOf(x) == DigestOf(o)
    ensures OneAccepted(obs + [o])
  {
  }

  lemma ListKeepsOne(s: State, l: RevocationList, p: Policy, now: int)
    requires BoundInv(s) && AuthenticList(l, s.issuer, s.keyId) && ValidPolicy(p) && OneAccepted(s.observations)
    ensures OneAccepted(ReduceList(s, l, p, now).observations)
  {
    ListApplication(s, l, p, now);
    if LookedAt(s, l, p, now) { TreatedOne(s, l, p, now, ReduceList(s, l, p, now)); }
  }

  lemma TreatedOne(s: State, l: RevocationList, p: Policy, now: int, t: State)
    requires Treated(s, l, p, now, t) && OneAccepted(s.observations)
    ensures OneAccepted(t.observations)
  {
    if t.observations != s.observations { AppendedOne(s.observations, t.observations[|t.observations| - 1]); }
  }

  lemma PushKeepsOne(s: State, q: RevocationPush, p: Policy, now: int)
    requires BoundInv(s) && AuthenticPush(q, s.issuer, s.keyId) && ValidPolicy(p) && OneAccepted(s.observations)
    ensures OneAccepted(ReducePush(s, q, p, now).observations)
  {
    PushApplication(s, q, p, now);
    if !PushOnFile(s, q) { TreatedPushOne(s, q, p, now, ReducePush(s, q, p, now)); }
  }

  lemma TreatedPushOne(s: State, q: RevocationPush, p: Policy, now: int, t: State)
    requires PushTreated(s, q, p, now, t) && OneAccepted(s.observations)
    ensures OneAccepted(t.observations)
  {
    AppendedOne(s.observations, t.observations[|t.observations| - 1]);
  }

  lemma NextKeepsOne(s: State, op: Op)
    requires Inv(s) && OneAccepted(s.observations)
    ensures OneAccepted(Next(s, op).observations)
  {
    if Attempt(s, op).Success? {
      match op
      case ListOp(l, issuer, epoch, key, p, now) =>
        var b := Bind(s, issuer, epoch, key);
        BindKeepsInv(s, issuer, epoch, key);
        ListKeepsOne(b, l, p, now);
        ReduceListKeepsInv(b, l, p, now);
        CompactKeepsOne(ReduceList(b, l, p, now));
      case PushOp(q, issuer, epoch, key, p, now) =>
        var b := Bind(s, issuer, epoch, key);
        BindKeepsInv(s, issuer, epoch, key);
        PushKeepsOne(b, q, p, now);
        ReducePushKeepsInv(b, q, p, now);
        CompactKeepsOne(ReducePush(b, q, p, now));
      case CompactOp => CompactKeepsOne(s);
      case EpochOp(_, _, _) =>
    }
  }

  lemma {:induction false} ReachableOne(s: State, ops: seq<Op>)
    requires Initial(s)
    ensures OneAccepted(Run(s, ops).observations)
  {
    if ops != [] {
      ReachableOne(s, ops[..|ops| - 1]);
      ReachableInv(s, ops[..|ops| - 1]);
      NextKeepsOne(Run(s, ops[..|ops| - 1]), ops[|ops| - 1]);
    }
  }

  /** Of two sets, or two push bodies, for one sequence of an epoch at most one
      is ever accepted, at whatever moments of a run. */
  lemma {:induction false} OnlyOneIsAccepted(s: State, ops: seq<Op>, n: nat, epoch: int, sequence: int,
                                             a: KeyDigest, b: KeyDigest)
    requires Initial(s) && n <= |ops| && a.SetDigest? == b.SetDigest?
    requires OnRecord(Run(s, ops[..n]), epoch, sequence, a, true) && OnRecord(Run(s, ops), epoch, sequence, b, true)
    ensures a == b
  {
    ReachableOne(s, ops);
    RunRemembers(s, ops, n, epoch, sequence, a, true);
    var o :| o in Run(s, ops).observations && Says(o, epoch, sequence, a, true);
    var x :| x in Run(s, ops).observations && Says(x, epoch, sequence, b, true);
  }
}

/** A verifier that receives an honest publisher's feed in any order, with any
    loss and duplication, within one status-key epoch. */
module PublisherDelivery {
  import opened StatusTypes
  import opened StatusCompaction
  import opened StatusReducer
  import opened CompactionProofs
  import opened ReducerInvariant
  import opened ReducerSteps
  import opened ReducerRuns
  import opened StatusPublisher

  /** A record of the current epoch is a record of the feed. */
  ghost predicate FromFeed(f: Feed, epoch: int, o: Observation) {
    o.epoch == epoch ==>
      && !o.fork
      && o.sequence < |f.sets|
      && (o.IsList() ==> 0 <= o.sequence && o.revokedSet == f.sets[o.sequence])
      && (o.IsPush() ==> 2 <= o.sequence && o.revokedSet == f.sets[o.sequence] - f.sets[o.sequence - 1]
                         && exists q :: q in f.pushes && o.body == PushEvidence(q).Body())
  }

  /** The verifier's state agrees with the feed. */
  ghost predicate Follows(s: State, f: Feed) {
    && BoundInv(s)
    && s.issuer == f.state.issuer && s.keyId == f.state.key
    && s.forkSequence == 0
    && (forall o :: o in s.observations ==> FromFeed(f, s.epoch, o))
    && (s.hasFloor ==> s.floor < |f.sets| && s.accepted == f.sets[s.floor])
    && (s.hasPreceding ==> && s.hasFloor && 1 <= s.precedingFloor == s.floor - 1
                           && s.precedingFloor < |f.sets| && s.precedingAccepted == f.sets[s.precedingFloor])
  }

  /* ---- Lists ---- */

  lemma RequiredInFeed(s: State, f: Feed, sequence: int)
    requires FeedOk(f) && Follows(s, f) && 0 <= sequence < |f.sets|
    ensures Required(s.observations, s.epoch, sequence) <= f.sets[sequence]
  {
    forall c | c in Required(s.observations, s.epoch, sequence) ensures c in f.sets[sequence] {
      var o :| o in s.observations && o.epoch == s.epoch && o.sequence <= sequence && c in o.certs;
      assert RecordOk(s, o) && FromFeed(f, s.epoch, o);
      assert f.sets[o.sequence] <= f.sets[sequence];
    }
  }

  lemma PushesAgree(s: State, f: Feed, l: RevocationList)
    requires FeedOk(f) && Follows(s, f) && l in f.lists
    ensures !ContradictsPush(s, l)
  {
    assert ListInFeed(f, l);
    forall o | o in s.observations && o.epoch == s.epoch && o.IsPush() && o.sequence == l.sequence
      ensures o.certs <= l.revoked
      ensures s.hasFloor && s.floor == l.sequence - 1 ==> l.revoked == s.accepted + o.certs
    {
      assert RecordOk(s, o) && FromFeed(f, s.epoch, o);
      assert f.sets[l.sequence - 1] <= f.sets[l.sequence];
    }
  }

  lemma ListAgrees(s: State, f: Feed, l: RevocationList)
    requires FeedOk(f) && Follows(s, f) && l in f.lists
    ensures !ListForks(s, l)
  {
    assert ListInFeed(f, l);
    RequiredInFeed(s, f, l.sequence);
    PushesAgree(s, f, l);
    forall o | o in s.observations ensures FromFeed(f, s.epoch, o) {}
    if s.hasFloor && l.sequence < s.floor { assert f.sets[l.sequence] <= f.sets[s.floor]; }
  }

  /** The fork checks do not depend on what the preparation changes. */
  lemma PreparationKeepsForks(s: State, l: RevocationList, p: Policy, now: int)
    ensures ListForks(Prepared(s, l, p, now), l) <==> ListForks(s, l)
  {
    var n := Prepared(s, l, p, now);
    assert n.observations == s.observations && n.epoch == s.epoch && n.hasFloor == s.hasFloor
           && n.floor == s.floor && n.accepted == s.accepted;
  }

  lemma AppendFollows(s: State, f: Feed, t: State, o: Observation)
    requires Follows(s, f) && BoundInv(t)
    requires t.observations == s.observations + [o] && FromFeed(f, s.epoch, o)
    requires t.issuer == s.issuer && t.keyId == s.keyId && t.epoch == s.epoch && t.forkSequence == 0
    requires t.hasFloor ==> t.floor < |f.sets| && t.accepted == f.sets[t.floor]
    requires t.hasPreceding ==> && t.hasFloor && 1 <= t.precedingFloor == t.floor - 1
                                && t.precedingFloor < |f.sets| && t.precedingAccepted == f.sets[t.precedingFloor]
    ensures Follows(t, f)
  {
    forall x | x in t.observations ensures FromFeed(f, t.epoch, x) {
      if x in s.observations { assert FromFeed(f, s.epoch, x); }
    }
  }

  /** What acceptance makes of the floor and of the checkpoint before it. */
  lemma AcceptedFloor(s: State, f: Feed, l: RevocationList)
    requires s.hasFloor ==> 0 < s.floor < |f.sets| && s.accepted == f.sets[s.floor]
    requires s.hasPreceding ==> && s.hasFloor && 1 <= s.precedingFloor == s.floor - 1
                                && s.precedingAccepted == f.sets[s.precedingFloor]
    requires 0 < l.sequence < |f.sets| && l.revoked == f.sets[l.sequence]
    ensures var t := AcceptedState(s, l);
            && t.hasFloor && t.floor == l.sequence && t.accepted == f.sets[t.floor]
            && (t.hasPreceding ==>
                1 <= t.precedingFloor == t.floor - 1 && t.precedingAccepted == f.sets[t.precedingFloor])
            && (t.forkSequence == s.forkSequence || t.forkSequence == 0)
            && t.observations == s.observations + [ListObservation(s, l, false).(accepted := true)]
            && t.issuer == s.issuer && t.keyId == s.keyId && t.epoch == s.epoch
  {
  }

  lemma ListOutcomeFollows(s: State, f: Feed, l: RevocationList, t: State, outcome: ListOutcome)
    requires FeedOk(f) && Follows(s, f) && l in f.lists
    requires BoundInv(t) && EndsIn(s, l, t, outcome)
    requires outcome.Flagged? ==> outcome.forkSequence == 0
    requires outcome.Recorded? ==> !outcome.o.fork
    ensures Follows(t, f)
  {
    assert ListInFeed(f, l);
    match outcome
    case Ignored =>
    case Flagged(_) =>
    case Recorded(o) => RecordedFollows(s, f, l, t, o);
    case Accepted =>
      AcceptedFloor(s, f, l);
      AppendFollows(s, f, t, ListObservation(s, l, false).(accepted := true));
  }

  lemma RecordedFollows(s: State, f: Feed, l: RevocationList, t: State, o: Observation)
    requires Follows(s, f) && ListInFeed(f, l) && BoundInv(t)
    requires EndsIn(s, l, t, Recorded(o)) && !o.fork
    ensures Follows(t, f)
  {
    AppendFollows(s, f, t, o);
  }

  lemma ListFollows(s: State, f: Feed, l: RevocationList, p: Policy, now: int)
    requires FeedOk(f) && Follows(s, f) && l in f.lists
    ensures Follows(ReduceList(s, l, p, now), f)
  {
    assert ListInFeed(f, l);
    ListAgrees(s, f, l);
    PreparationKeepsForks(s, l, p, now);
    var outcome := ReduceListOutcome(s, l, p, now);
    ReduceListKeepsInv(s, l, p, now);
    ListOutcomeFollows(s, f, l, ReduceList(s, l, p, now), outcome);
  }

  /* ---- Pushes ---- */

  lemma PushHasNoConflict(s: State, f: Feed, q: RevocationPush)
    requires FeedOk(f) && Follows(s, f) && q in f.pushes
    ensures !PushConflict(s.observations, s.epoch, q)
  {
    forall o | o in s.observations && o.epoch == s.epoch && o.IsPush() && o.sequence == q.sequence
      ensures o.body == PushEvidence(q).Body()
    {
      assert RecordOk(s, o) && FromFeed(f, s.epoch, o);
      var r :| r in f.pushes && o.body == PushEvidence(r).Body();
      assert r.sequence == q.sequence;
    }
  }

  /** No list of the feed omits a push of the feed. */
  lemma PushIsInLists(s: State, f: Feed, m: State, q: RevocationPush)
    requires FeedOk(f) && Follows(s, f) && q in f.pushes
    requires m.observations == s.observations && m.epoch == s.epoch && m.floor == s.floor && m.snapshot == s.snapshot
    ensures q.sequence > 0 && Omission(m, q) == 0
  {
    assert PushInFeed(f, q);
    if s.snapshot.Some? && s.snapshot.value.sequence >= q.sequence {
      var b :| b in s.observations && IsBase(s, b) && b.accepted && b.certs == b.revokedSet;
      assert RecordOk(s, b) && FromFeed(f, s.epoch, b);
      assert f.sets[q.sequence] <= f.sets[b.sequence];
    }
    forall o | o in m.observations ensures !OmitsPush(m, o, q) {
      assert RecordOk(s, o) && FromFeed(f, s.epoch, o);
      if o.epoch == s.epoch && o.sequence >= q.sequence { assert f.sets[q.sequence] <= f.sets[o.sequence]; }
    }
  }

  lemma PushPreparedClean(s: State, f: Feed, q: RevocationPush, p: Policy, now: int)
    requires FeedOk(f) && Follows(s, f) && q in f.pushes
    ensures q.sequence > 0 && !PreparedPush(s, q, p, now).1.fork
  {
    assert PushInFeed(f, q);
    PushHasNoConflict(s, f, q);
    var n := NoteFuture(Absorb(s, q.revoked, q.sequence), BeyondSkew(q.pushedAt, now, p.clockSkew));
    PushIsInLists(s, f, n, q);
  }

  /** A push of the feed meets none of the fork conditions at the floor. */
  lemma ConcludePushClean(m: State, o: Observation, q: RevocationPush)
    requires !o.fork
    requires m.hasFloor && q.sequence <= m.floor ==> q.revoked <= m.accepted
    requires m.hasFloor && q.sequence == m.floor && m.hasPreceding && m.precedingFloor == q.sequence - 1
             ==> m.accepted == m.precedingAccepted + q.revoked
    ensures var t := ConcludePush(m, o, q, o.futureDated);
            |t.observations| > 0 && !t.observations[|t.observations| - 1].fork
    ensures m.hasFloor && q.sequence <= m.floor ==>
              ConcludePush(m, o, q, o.futureDated) == Append(m, o)
  {
  }

  lemma PushAtFloorAgrees(s: State, f: Feed, q: RevocationPush)
    requires FeedOk(f) && Follows(s, f) && q in f.pushes
    ensures s.hasFloor && q.sequence <= s.floor ==> q.revoked <= s.accepted
    ensures s.hasFloor && q.sequence == s.floor && s.hasPreceding && s.precedingFloor == q.sequence - 1
            ==> s.accepted == s.precedingAccepted + q.revoked
    ensures s.hasFloor && q.sequence == s.floor + 1 ==> s.accepted + q.revoked == f.sets[q.sequence]
  {
    assert PushInFeed(f, q);
    assert f.sets[q.sequence - 1] <= f.sets[q.sequence];
    if s.hasFloor && q.sequence <= s.floor { assert f.sets[q.sequence] <= f.sets[s.floor]; }
  }

  lemma PushOutcomeFollows(s: State, f: Feed, q: RevocationPush, t: State, outcome: PushOutcome)
    requires FeedOk(f) && Follows(s, f) && q in f.pushes
    requires BoundInv(t) && PushEndsIn(s, q, t, outcome)
    requires outcome.PushRecorded? ==> !outcome.o.fork
    ensures Follows(t, f)
  {
    assert PushInFeed(f, q);
    match outcome
    case PushIgnored =>
    case PushRecorded(o) => AppendFollows(s, f, t, o);
    case PushAccepted =>
      PushAtFloorAgrees(s, f, q);
      AppendFollows(s, f, t, PushObservation(s, q, false).(accepted := true));
  }

  lemma PushFollows(s: State, f: Feed, q: RevocationPush, p: Policy, now: int)
    requires FeedOk(f) && Follows(s, f) && q in f.pushes
    ensures q.sequence > 0 && Follows(ReducePush(s, q, p, now), f)
  {
    assert PushInFeed(f, q);
    ReducePushKeepsInv(s, q, p, now);
    var t := ReducePush(s, q, p, now);
    var outcome := ReducePushOutcome(s, q, p, now);
    if outcome.PushRecorded? && !PushSeen(s.observations, s.epoch, q) {
      UnseenPushIsClean(s, f, q, p, now);
    }
    PushOutcomeFollows(s, f, q, t, outcome);
  }

  lemma UnseenPushIsClean(s: State, f: Feed, q: RevocationPush, p: Policy, now: int)
    requires FeedOk(f) && Follows(s, f) && q in f.pushes && q.sequence > 0
    requires !PushSeen(s.observations, s.epoch, q)
    ensures var t := ReducePush(s, q, p, now);
            |t.observations| > 0 && !t.observations[|t.observations| - 1].fork
  {
    assert PushInFeed(f, q);
    ReducePushIs(s, q, p, now);
    PushPreparedClean(s, f, q, p, now);
    forall o | o in s.observations ensures o.sequence <= MAX_SAFE_INTEGER { assert RecordOk(s, o); }
    PushIsPrepared(s, q, p, now);
    PushAtFloorAgrees(s, f, q);
    var (m, o) := PreparedPush(s, q, p, now);
    ConcludePushClean(m, o, q);
  }

  /* ---- Runs ---- */

  lemma CompactFollows(s: State, f: Feed)
    requires Follows(s, f)
    ensures Follows(Compact(s), f)
  {
    CompactKeepsInv(s);
    CompactedRecords(s);
    forall r | r in Compacted(s) ensures FromFeed(f, s.epoch, r) {
      var o :| o in s.observations && Derived(r, o);
      assert FromFeed(f, s.epoch, o);
    }
  }

  /** Delivery of one published object at some time under some policy. */
  datatype Delivery = DeliverList(list: RevocationList, policy: Policy, now: int)
                    | DeliverPush(push: RevocationPush, policy: Policy, now: int)

  ghost predicate Published(f: Feed, d: Delivery) {
    match d case DeliverList(l, _, _) => l in f.lists case DeliverPush(q, _, _) => q in f.pushes
  }

  function Receive(s: State, d: Delivery): State {
    match d
    case DeliverList(l, policy, now) => Next(s, ListOp(l, s.issuer, s.epoch, s.keyId, policy, now))
    case DeliverPush(q, policy, now) => Next(s, PushOp(q, s.issuer, s.epoch, s.keyId, policy, now))
  }

  function ReceiveAll(s: State, ds: seq<Delivery>): State {
    if ds == [] then s else Receive(ReceiveAll(s, ds[..|ds| - 1]), ds[|ds| - 1])
  }

  /** An epoch that has just been opened, by configuration or by a transition:
      nothing of it has been observed. */
  ghost predicate NewEpoch(s: State, f: Feed) {
    && BoundInv(s) && s.issuer == f.state.issuer && s.keyId == f.state.key
    && !s.hasFloor && !s.hasPreceding && s.maxObserved == 0 && s.forkSequence == 0
    && !s.reconcile && !s.futureObserved
  }

  lemma NewEpochFollows(s: State, f: Feed)
    requires NewEpoch(s, f)
    ensures Follows(s, f)
  {
    forall o | o in s.observations ensures FromFeed(f, s.epoch, o) {
      assert RecordOk(s, o);
    }
  }

  lemma ListReceived(s: State, f: Feed, l: RevocationList, p: Policy, now: int)
    requires FeedOk(f) && Follows(s, f) && l in f.lists
    ensures var t := Compact(ReduceList(s, l, p, now)); Follows(t, f) && t.epoch == s.epoch
  {
    assert ListInFeed(f, l);
    ListFollows(s, f, l, p, now);
    ListGrows(s, l, p, now);
    CompactFollows(ReduceList(s, l, p, now), f);
  }

  lemma PushReceived(s: State, f: Feed, q: RevocationPush, p: Policy, now: int)
    requires FeedOk(f) && Follows(s, f) && q in f.pushes
    ensures q.sequence > 0
    ensures var t := Compact(ReducePush(s, q, p, now)); Follows(t, f) && t.epoch == s.epoch
  {
    assert PushInFeed(f, q);
    PushFollows(s, f, q, p, now);
    PushGrows(s, q, p, now);
    CompactFollows(ReducePush(s, q, p, now), f);
  }

  /** A delivery is applied, or refused for its policy or its time. */
  lemma ReceiveIs(s: State, f: Feed, d: Delivery)
    requires FeedOk(f) && Follows(s, f) && Published(f, d)
    ensures d.DeliverPush? ==> d.push.sequence > 0
    ensures Receive(s, d) == if !ValidPolicy(d.policy) || !ValidTimestamp(d.now) then s
                             else match d
                                  case DeliverList(l, p, now) => Compact(ReduceList(s, l, p, now))
                                  case DeliverPush(q, p, now) => Compact(ReducePush(s, q, p, now))
  {
    assert Bind(s, s.issuer, s.epoch, s.keyId) == s;
    match d
    case DeliverList(l, _, _) => assert ListInFeed(f, l);
    case DeliverPush(q, _, _) => assert PushInFeed(f, q);
  }

  lemma ReceiveFollows(s: State, f: Feed, d: Delivery)
    requires FeedOk(f) && Follows(s, f) && Published(f, d)
    ensures Follows(Receive(s, d), f) && Receive(s, d).epoch == s.epoch
  {
    ReceiveIs(s, f, d);
    match d
    case DeliverList(l, policy, now) => ListReceived(s, f, l, policy, now);
    case DeliverPush(q, policy, now) => PushReceived(s, f, q, policy, now);
  }

  /** Under any delivery of an honest feed no fork is ever marked, and the
      accepted set is the publisher's cumulative set at the floor. */
  lemma {:induction false} HonestFeedNeverForks(s: State, f: Feed, ds: seq<Delivery>)
    requires FeedOk(f) && NewEpoch(s, f)
    requires forall d :: d in ds ==> Published(f, d)
    ensures Follows(ReceiveAll(s, ds), f) && ReceiveAll(s, ds).epoch == s.epoch
    ensures var t := ReceiveAll(s, ds);
            && t.forkSequence == 0 && !ForkRecorded(t)
            && (t.hasFloor ==> 1 <= t.floor <= f.state.sequence && t.accepted == f.sets[t.floor])
  {
    if ds == [] {
      NewEpochFollows(s, f);
    } else {
      HonestFeedNeverForks(s, f, ds[..|ds| - 1]);
      ReceiveFollows(ReceiveAll(s, ds[..|ds| - 1]), f, ds[|ds| - 1]);
    }
    var t := ReceiveAll(s, ds);
    forall o | o in t.observations ensures FromFeed(f, t.epoch, o) {}
  }
}

/** Once the newest list of an honest feed has been delivered while fresh, the
    verifier answers exactly what the publisher revoked. */
module PublisherConvergence {
  import opened StatusTypes
  import opened StatusCompaction
  import opened StatusReducer
  import opened CompactionProofs
  import opened ReducerInvariant
  import opened ReducerSteps
  import opened ReducerRuns
  import opened StatusPublisher
  import opened PublisherDelivery

  /* ---- Compaction leaves one record for every published list ---- */

  ghost predicate Undated(obs: seq<Observation>, epoch: int) {
    forall o :: o in obs && o.epoch == epoch ==> !o.futureDated
  }

  /** The map finds every retained record of the epoch under its own key. */
  ghost predicate Indexed(f: Fold, epoch: int) {
    forall i :: 0 <= i < |f.retained| && f.retained[i].epoch == epoch ==>
      && !f.retained[i].futureDated
      && KeyOf(f.retained[i]) in f.seen && f.seen[KeyOf(f.retained[i])] == i
  }

  lemma StepKeepsIndex(s: State, f: Fold, o: Observation)
    requires FoldOk(f) && Indexed(f, s.epoch) && (o.epoch == s.epoch ==> !o.futureDated)
    ensures Indexed(Step(s, f, o), s.epoch)
  {
    var n := Narrow(s, f, o);
    var g := Step(s, f, o);
    forall i | 0 <= i < |g.retained| && g.retained[i].epoch == s.epoch
      ensures !g.retained[i].futureDated && KeyOf(g.retained[i]) in g.seen && g.seen[KeyOf(g.retained[i])] == i
    {
      if KeyOf(n) in f.seen && i == f.seen[KeyOf(n)] {
        assert KeyOf(g.retained[i]) == KeyOf(f.retained[i]);
      } else if i == |f.retained| {
        assert g.retained[i] == n;
      } else {
        assert g.retained[i] == f.retained[i];
      }
    }
  }

  lemma {:induction false} FoldIsIndexed(s: State, obs: seq<Observation>)
    requires Undated(obs, s.epoch)
    ensures Indexed(FoldAll(s, obs), s.epoch)
  {
    if obs != [] {
      FoldIsIndexed(s, obs[..|obs| - 1]);
      StepKeepsIndex(s, FoldAll(s, obs[..|obs| - 1]), obs[|obs| - 1]);
    }
  }

  /** A retained record shows the evidence of a record before. */
  ghost predicate SameSource(r: Observation, o: Observation) {
    r.epoch == o.epoch && r.sequence == o.sequence && r.evidence == o.evidence && (r.IsList() <==> o.IsList())
  }

  lemma {:induction false} EvidenceIsNotInvented(s: State, obs: seq<Observation>)
    ensures forall r :: r in FoldAll(s, obs).retained ==> exists o :: o in obs && SameSource(r, o)
  {
    if obs != [] {
      var front, o := obs[..|obs| - 1], obs[|obs| - 1];
      EvidenceIsNotInvented(s, front);
      var f := FoldAll(s, front);
      StepCases(s, f, o);
      forall r | r in FoldAll(s, obs).retained ensures exists x :: x in obs && SameSource(r, x) {
        if r in f.retained {
          var x :| x in front && SameSource(r, x);
          assert x in obs;
        } else if r == Narrow(s, f, o) {
          assert o in obs && SameSource(r, o);
        } else {
          var i :| 0 <= i < |f.retained| && Carries(f.retained[i], KeyOf(Narrow(s, f, o)))
                   && r == Merge(s, f.retained[i], Narrow(s, f, o));
          assert f.retained[i] in f.retained;
          var x :| x in front && SameSource(f.retained[i], x);
          assert x in obs && o in obs;
          assert SameSource(r, x) || SameSource(r, o);
        }
      }
    }
  }

  /** One record a list sequence. */
  ghost predicate OneListEach(s: State) {
    forall a, b :: a in s.observations && b in s.observations && SameSlot(s, a, b) ==> a == b
  }

  predicate SameSlot(s: State, a: Observation, b: Observation) {
    a.epoch == s.epoch && b.epoch == s.epoch && a.IsList() && b.IsList() && a.sequence == b.sequence
  }

  lemma CompactedIsUndated(s: State)
    requires Undated(s.observations, s.epoch)
    ensures Undated(Compacted(s), s.epoch)
  {
    FoldIsIndexed(s, Sorted(s.observations));
    CompactedIsRetained(s);
    var retained := FoldAll(s, Sorted(s.observations)).retained;
    forall r | r in Compacted(s) && r.epoch == s.epoch ensures !r.futureDated {
      var i :| 0 <= i < |retained| && Compacted(s)[i] == r;
      assert retained[i].epoch == s.epoch;
    }
  }

  lemma OneSlotOneIndex(s: State, fold: Fold, i: int, j: int)
    requires Indexed(fold, s.epoch) && 0 <= i < |fold.retained| && 0 <= j < |fold.retained|
    requires SameSlot(s, fold.retained[i], fold.retained[j])
    requires fold.retained[i].revokedSet == fold.retained[j].revokedSet
    requires fold.retained[i].fork == fold.retained[j].fork
    ensures i == j
  {
    assert KeyOf(fold.retained[i]) == KeyOf(fold.retained[j]);
  }

  lemma SlotsAreDistinct(s: State, fold: Fold, obs: seq<Observation>, f: Feed, a: Observation, b: Observation)
    requires Indexed(fold, s.epoch) && |obs| == |fold.retained|
    requires forall i :: 0 <= i < |obs| ==> obs[i] == fold.retained[i] || obs[i] == fold.retained[i].(gap := false)
    requires FromFeed(f, s.epoch, a) && FromFeed(f, s.epoch, b)
    requires a in obs && b in obs && SameSlot(s, a, b)
    ensures a == b
  {
    var i :| 0 <= i < |obs| && obs[i] == a;
    var j :| 0 <= j < |obs| && obs[j] == b;
    OneSlotOneIndex(s, fold, i, j);
  }

  lemma CompactedHasOneListEach(s: State, f: Feed)
    requires Undated(s.observations, s.epoch)
    requires forall o :: o in Compacted(s) ==> FromFeed(f, s.epoch, o)
    ensures OneListEach(Compact(s))
  {
    var fold := FoldAll(s, Sorted(s.observations));
    FoldIsIndexed(s, Sorted(s.observations));
    CompactedIsRetained(s);
    var t := Compact(s);
    forall a, b | a in t.observations && b in t.observations && SameSlot(t, a, b)
      ensures a == b
    {
      SlotsAreDistinct(s, fold, t.observations, f, a, b);
    }
  }

  /* ---- The verifier on a feed without early objects ---- */

  /** Follows the feed, and nothing it holds was future-dated on arrival. */
  ghost predicate Tracks(s: State, f: Feed) {
    && Follows(s, f)
    && Undated(s.observations, s.epoch)
    && (s.snapshot.Some? ==> s.snapshot.value in f.lists)
    && s.denyUnion <= f.state.revoked
  }

  /** Caught up with the publisher. */
  ghost predicate CaughtUp(s: State, f: Feed)
    requires |f.lists| > 0
  {
    s.hasFloor && s.floor == f.state.sequence && s.snapshot == Some(Newest(f)) && !s.reconcile
  }

  ghost predicate Recorded(s: State, l: RevocationList) {
    exists o :: o in s.observations && SameEvidence(o, s.epoch, ListEvidence(l))
  }

  lemma CompactTracks(s: State, f: Feed)
    requires FeedOk(f) && Tracks(s, f)
    ensures Tracks(Compact(s), f) && OneListEach(Compact(s))
    ensures CaughtUp(s, f) ==> CaughtUp(Compact(s), f)
    ensures Recorded(Compact(s), Newest(f)) ==> Recorded(s, Newest(f))
  {
    CompactFollows(s, f);
    CompactedIsUndated(s);
    CompactedHasOneListEach(s, f);
    CompactInventsNoRecord(s, Newest(f));
  }

  lemma CompactedSource(s: State, r: Observation)
    requires r in Compacted(s)
    ensures exists o :: o in s.observations && SameSource(r, o)
  {
    var sorted := Sorted(s.observations);
    EvidenceIsNotInvented(s, sorted);
    CompactedIsRetained(s);
    var retained := FoldAll(s, sorted).retained;
    var i :| 0 <= i < |retained| && Compacted(s)[i] == r;
    assert retained[i] in retained;
    var o :| o in sorted && SameSource(retained[i], o);
    assert o in s.observations && SameSource(r, o);
  }

  lemma CompactInventsNoRecord(s: State, l: RevocationList)
    ensures Recorded(Compact(s), l) ==> Recorded(s, l)
  {
    if Recorded(Compact(s), l) {
      var r :| r in Compacted(s) && SameEvidence(r, s.epoch, ListEvidence(l));
      CompactedSource(s, r);
      var o :| o in s.observations && SameSource(r, o);
      assert SameEvidence(o, s.epoch, ListEvidence(l));
    }
  }

  /** The newest list is preferred over every other published one. */
  lemma NewestIsPreferred(f: Feed, l: RevocationList)
    requires FeedOk(f) && l in f.lists
    ensures l != Newest(f) ==> Preferred(Newest(f), l)
    ensures !Preferred(l, Newest(f))
  {
    var i :| 0 <= i < |f.lists| && f.lists[i] == l;
    if i < |f.lists| - 1 { assert f.lists[i].updatedAt < f.lists[|f.lists| - 1].updatedAt; }
  }

  lemma NothingBeyondFeed(s: State, f: Feed)
    requires FeedOk(f) && Follows(s, f)
    ensures s.maxObserved <= f.state.sequence && s.floor <= f.state.sequence
  {
    if s.maxObserved > 0 {
      var o :| o in s.observations && o.epoch == s.epoch && o.sequence == s.maxObserved;
      assert FromFeed(f, s.epoch, o);
    }
  }

  /* ---- Delivery of the newest list ---- */

  lemma NoForkAt(s: State, f: Feed, sequence: int)
    requires Follows(s, f)
    ensures !ForkedAt(s.observations, s.epoch, sequence)
  {
    forall o | o in s.observations ensures !(o.epoch == s.epoch && o.fork) { assert FromFeed(f, s.epoch, o); }
  }

  /** A new newest list is not mistaken for a known set. */
  lemma NewestIsNotSkipped(s: State, f: Feed, p: Policy, now: int)
    requires FeedOk(f) && Tracks(s, f) && OneListEach(s)
    requires !IsDuplicate(s, Newest(f)) && Fresh(Newest(f), p, now)
    ensures !SkipsList(s, Newest(f), p, now)
  {
    var l := Newest(f);
    var j := LastSameSet(s.observations, s.epoch, l);
    if j >= 0 {
      var prior := s.observations[j];
      assert RecordOk(s, prior) && FromFeed(f, s.epoch, prior);
      NothingBeyondFeed(s, f);
      NoForkAt(s, f, l.sequence);
      if !prior.gap { KnownSetAtFloor(s, f, prior); }
    }
  }

  lemma KnownSetAtFloor(s: State, f: Feed, prior: Observation)
    requires FeedOk(f) && Tracks(s, f) && OneListEach(s) && !IsDuplicate(s, Newest(f))
    requires prior in s.observations && SameSet(prior, s.epoch, Newest(f)) && !prior.gap && !prior.fork
    requires !prior.futureDated
    ensures s.hasFloor && s.floor == f.state.sequence && Preferred(Newest(f), s.snapshot.value)
    ensures prior.accepted || s.snapshot.value.sequence < s.floor
  {
    assert RecordOk(s, prior);
    NothingBeyondFeed(s, f);
    var b :| b in s.observations && IsBase(s, b) && b.accepted && b.certs == b.revokedSet;
    NewListHasNoRecord(s, Newest(f), b);
    assert s.snapshot.value != Newest(f);
    NewestIsPreferred(f, s.snapshot.value);
    if s.snapshot.value.sequence == s.floor { assert b == prior; }
  }

  lemma AcceptedNewest(s: State, f: Feed)
    requires FeedOk(f) && Tracks(s, f) && s.forkSequence == 0
    requires s.hasFloor && s.floor == f.state.sequence ==>
               s.snapshot.Some? && (s.snapshot.value == Newest(f) || Preferred(Newest(f), s.snapshot.value))
    ensures CaughtUp(AcceptedState(s, Newest(f)), f)
  {
    NothingBeyondFeed(s, f);
    assert ListInFeed(f, Newest(f));
    assert s.denyUnion + f.state.revoked <= f.state.revoked;
  }

  lemma NewestIsAccepted(s: State, f: Feed, p: Policy, now: int)
    requires FeedOk(f) && Tracks(s, f) && OneListEach(s)
    requires !IsDuplicate(s, Newest(f)) && Fresh(Newest(f), p, now)
    ensures CaughtUp(ReduceList(s, Newest(f), p, now), f)
  {
    var l := Newest(f);
    assert ListInFeed(f, l);
    NewestIsNotSkipped(s, f, p, now);
    ListAgrees(s, f, l);
    PreparationKeepsForks(s, l, p, now);
    NothingBeyondFeed(s, f);
    assert s.denyUnion + l.revoked <= l.revoked;
    AcceptsOutcome(s, l, p, now);
    if s.snapshot.Some? { NewestIsPreferred(f, s.snapshot.value); }
    AcceptedNewest(s, f);
  }

  /* ---- Nothing published undoes it ---- */

  lemma OldListIsHarmless(s: State, f: Feed, l: RevocationList, p: Policy, now: int)
    requires FeedOk(f) && Tracks(s, f) && CaughtUp(s, f) && l in f.lists && !BeyondSkew(l.updatedAt, now, p.clockSkew)
    ensures CaughtUp(ReduceList(s, l, p, now), f)
  {
    assert ListInFeed(f, l);
    ListAgrees(s, f, l);
    PreparationKeepsForks(s, l, p, now);
    NewestIsPreferred(f, l);
    if SkipsList(s, l, p, now) {
    } else if Accepts(s, l, p, now) {
      AcceptsOutcome(s, l, p, now);
      AcceptedOld(s, f, l);
    } else {
      RecordedOld(s, l, p, now);
    }
  }

  lemma AcceptedOld(s: State, f: Feed, l: RevocationList)
    requires |f.lists| > 0 && CaughtUp(s, f) && l.sequence == s.floor && !Preferred(l, Newest(f))
    requires Newest(f).sequence == s.floor
    ensures CaughtUp(AcceptedState(s, l), f)
  {
  }

  /** A list at or below the floor that is not accepted leaves the flags. */
  lemma RecordedOld(s: State, l: RevocationList, p: Policy, now: int)
    requires s.hasFloor && l.sequence <= s.floor && !BeyondSkew(l.updatedAt, now, p.clockSkew)
    requires !SkipsList(s, l, p, now) && !Accepts(s, l, p, now)
    requires !ListForks(s, l) && !ListForks(Prepared(s, l, p, now), l)
    ensures var t := ReduceList(s, l, p, now);
            t.hasFloor && t.floor == s.floor && t.snapshot == s.snapshot && t.reconcile == s.reconcile
  {
    var n := if IsDuplicate(s, l) then s else Absorb(s, l.revoked, l.sequence);
    assert NoteFuture(n, false) == n;
    assert Prepared(s, l, p, now) == Absorb(s, l.revoked, l.sequence);
  }

  /** A push at or below the floor leaves floor, snapshot and flags. */
  lemma PushAtTheFloor(s: State, f: Feed, q: RevocationPush, p: Policy, now: int)
    requires FeedOk(f) && Follows(s, f) && q in f.pushes && !BeyondSkew(q.pushedAt, now, p.clockSkew)
    requires q.sequence > 0 && s.hasFloor && q.sequence <= s.floor
    ensures var t := ReducePush(s, q, p, now);
            t.hasFloor && t.floor == s.floor && t.snapshot == s.snapshot && t.reconcile == s.reconcile
  {
    assert PushInFeed(f, q);
    if !PushSeen(s.observations, s.epoch, q) {
      ReducePushIs(s, q, p, now);
      PushPreparedClean(s, f, q, p, now);
      forall o | o in s.observations ensures o.sequence <= MAX_SAFE_INTEGER { assert RecordOk(s, o); }
      PushIsPrepared(s, q, p, now);
      PushAtFloorAgrees(s, f, q);
      var (m, o) := PreparedPush(s, q, p, now);
      ConcludePushClean(m, o, q);
    }
  }

  lemma OldPushIsHarmless(s: State, f: Feed, q: RevocationPush, p: Policy, now: int)
    requires FeedOk(f) && Tracks(s, f) && CaughtUp(s, f) && q in f.pushes && !BeyondSkew(q.pushedAt, now, p.clockSkew)
    requires q.sequence > 0
    ensures CaughtUp(ReducePush(s, q, p, now), f)
  {
    assert PushInFeed(f, q);
    PushAtTheFloor(s, f, q, p, now);
  }

  /* ---- One delivery ---- */

  /** The call is not refused for its policy or its time. */
  predicate Applied(d: Delivery) { ValidPolicy(d.policy) && ValidTimestamp(d.now) }

  /** The object is not dated after its arrival, under the policy it meets. */
  predicate InTime(d: Delivery) {
    match d
    case DeliverList(l, p, now) => !BeyondSkew(l.updatedAt, now, p.clockSkew)
    case DeliverPush(q, p, now) => !BeyondSkew(q.pushedAt, now, p.clockSkew)
  }

  lemma AppendTracks(s: State, f: Feed, t: State, o: Observation)
    requires |f.lists| > 0 && Tracks(s, f) && Follows(t, f) && t.epoch == s.epoch
    requires t.observations == s.observations + [o] && !o.futureDated
    requires t.snapshot == s.snapshot || (t.snapshot.Some? && t.snapshot.value in f.lists)
    requires t.denyUnion <= f.state.revoked
    ensures Tracks(t, f)
    ensures Recorded(t, Newest(f)) ==> Recorded(s, Newest(f)) || o.evidence == ListEvidence(Newest(f))
  {
    if Recorded(t, Newest(f)) {
      var x :| x in t.observations && SameEvidence(x, t.epoch, ListEvidence(Newest(f)));
      if x in s.observations { assert Recorded(s, Newest(f)); }
    }
  }

  lemma PublishedIsRevoked(f: Feed, sequence: int)
    requires FeedOk(f) && 0 <= sequence < |f.sets|
    ensures f.sets[sequence] <= f.state.revoked
  {
    assert f.sets[sequence] <= f.sets[f.state.sequence];
  }

  lemma ListTracks(s: State, f: Feed, l: RevocationList, p: Policy, now: int)
    requires FeedOk(f) && Tracks(s, f) && l in f.lists && !BeyondSkew(l.updatedAt, now, p.clockSkew)
    ensures Tracks(ReduceList(s, l, p, now), f)
    ensures Recorded(ReduceList(s, l, p, now), Newest(f)) ==> Recorded(s, Newest(f)) || l == Newest(f)
  {
    assert ListInFeed(f, l);
    PublishedIsRevoked(f, l.sequence);
    ListFollows(s, f, l, p, now);
    var outcome := ReduceListOutcome(s, l, p, now);
    ListOutcomeTracks(s, f, l, ReduceList(s, l, p, now), outcome);
  }

  lemma ListOutcomeTracks(s: State, f: Feed, l: RevocationList, t: State, outcome: ListOutcome)
    requires |f.lists| > 0 && Tracks(s, f) && Follows(t, f) && l in f.lists && l.revoked <= f.state.revoked
    requires EndsIn(s, l, t, outcome) && (outcome.Recorded? ==> !outcome.o.futureDated)
    ensures Tracks(t, f)
    ensures Recorded(t, Newest(f)) ==> Recorded(s, Newest(f)) || l == Newest(f)
  {
    match outcome
    case Ignored =>
    case Flagged(_) =>
    case Recorded(o) => AppendTracks(s, f, t, o);
    case Accepted => AcceptedTracks(s, f, l, t);
  }

  lemma AcceptedTracks(s: State, f: Feed, l: RevocationList, t: State)
    requires |f.lists| > 0 && Tracks(s, f) && Follows(t, f) && l in f.lists && l.revoked <= f.state.revoked
    requires Acceptable(s, l) && t == AcceptedState(s, l)
    ensures Tracks(t, f)
    ensures Recorded(t, Newest(f)) ==> Recorded(s, Newest(f)) || l == Newest(f)
  {
    AcceptedIsAccepting(s, l);
    AppendTracks(s, f, t, ListObservation(s, l, false).(accepted := true));
  }

  lemma PushTracks(s: State, f: Feed, q: RevocationPush, p: Policy, now: int)
    requires FeedOk(f) && Tracks(s, f) && q in f.pushes && !BeyondSkew(q.pushedAt, now, p.clockSkew)
    ensures q.sequence > 0 && Tracks(ReducePush(s, q, p, now), f)
    ensures Recorded(ReducePush(s, q, p, now), Newest(f)) ==> Recorded(s, Newest(f))
  {
    assert PushInFeed(f, q);
    PublishedIsRevoked(f, q.sequence);
    PushFollows(s, f, q, p, now);
    var outcome := ReducePushOutcome(s, q, p, now);
    PushOutcomeTracks(s, f, q, ReducePush(s, q, p, now), outcome);
  }

  lemma PushOutcomeTracks(s: State, f: Feed, q: RevocationPush, t: State, outcome: PushOutcome)
    requires |f.lists| > 0 && Tracks(s, f) && Follows(t, f) && q.revoked <= f.state.revoked
    requires PushEndsIn(s, q, t, outcome) && (outcome.PushRecorded? ==> !outcome.o.futureDated)
    ensures Tracks(t, f)
    ensures Recorded(t, Newest(f)) ==> Recorded(s, Newest(f))
  {
    match outcome
    case PushIgnored =>
    case PushRecorded(o) => AppendTracks(s, f, t, o);
    case PushAccepted => AppendTracks(s, f, t, PushObservation(s, q, false).(accepted := true));
  }

  lemma DuplicateIsRecorded(s: State, l: RevocationList)
    ensures IsDuplicate(s, l) <==> Recorded(s, l)
  {
    if IsDuplicate(s, l) {
      var o := s.observations[LastEvidence(s.observations, s.epoch, ListEvidence(l))];
      assert o in s.observations && SameEvidence(o, s.epoch, ListEvidence(l));
    }
    if Recorded(s, l) {
      var o :| o in s.observations && SameEvidence(o, s.epoch, ListEvidence(l));
      var k :| 0 <= k < |s.observations| && s.observations[k] == o;
    }
  }

  lemma ReceiveTracks(s: State, f: Feed, d: Delivery)
    requires FeedOk(f) && Tracks(s, f) && OneListEach(s) && Published(f, d) && InTime(d)
    ensures Tracks(Receive(s, d), f) && OneListEach(Receive(s, d))
    ensures CaughtUp(s, f) ==> CaughtUp(Receive(s, d), f)
    ensures Recorded(Receive(s, d), Newest(f)) ==> Recorded(s, Newest(f)) || (Applied(d) && IsNewest(f, d))
  {
    ReceiveIs(s, f, d);
    if Applied(d) {
      match d
      case DeliverList(l, p, now) =>
        ListTracks(s, f, l, p, now);
        if CaughtUp(s, f) { OldListIsHarmless(s, f, l, p, now); }
        CompactTracks(ReduceList(s, l, p, now), f);
      case DeliverPush(q, p, now) =>
        PushTracks(s, f, q, p, now);
        if CaughtUp(s, f) { OldPushIsHarmless(s, f, q, p, now); }
        CompactTracks(ReducePush(s, q, p, now), f);
    }
  }

  predicate IsNewest(f: Feed, d: Delivery)
    requires |f.lists| > 0
  {
    d.DeliverList? && d.list == Newest(f)
  }

  /** The newest list, applied while it is fresh under the policy it meets. */
  predicate IsFreshNewest(f: Feed, d: Delivery)
    requires |f.lists| > 0
  {
    Applied(d) && IsNewest(f, d) && Fresh(d.list, d.policy, d.now)
  }

  /* ---- A list of the last sequence that was accepted stays in force ---- */

  ghost predicate HasTop(s: State, f: Feed) {
    exists o :: o in s.observations && o.epoch == s.epoch && o.IsList() && o.accepted && o.sequence == f.state.sequence
  }

  /** A list of the last sequence is the base and nothing is unresolved. */
  predicate OnTop(s: State, f: Feed) {
    s.hasFloor && s.snapshot.Some? && s.snapshot.value.sequence == f.state.sequence && !s.reconcile
  }

  ghost predicate Topped(s: State, f: Feed) { HasTop(s, f) ==> OnTop(s, f) }

  lemma AcceptedOnTop(s: State, f: Feed, l: RevocationList)
    requires FeedOk(f) && Tracks(s, f) && l in f.lists && l.sequence == f.state.sequence
    ensures OnTop(AcceptedState(s, l), f)
  {
    NothingBeyondFeed(s, f);
    assert ListInFeed(f, l);
    assert s.denyUnion + l.revoked <= l.revoked;
  }

  lemma ListStaysOnTop(s: State, f: Feed, l: RevocationList, p: Policy, now: int)
    requires FeedOk(f) && Tracks(s, f) && OnTop(s, f) && l in f.lists && !BeyondSkew(l.updatedAt, now, p.clockSkew)
    ensures OnTop(ReduceList(s, l, p, now), f)
  {
    assert ListInFeed(f, l);
    NothingBeyondFeed(s, f);
    ListAgrees(s, f, l);
    PreparationKeepsForks(s, l, p, now);
    if Accepts(s, l, p, now) {
      AcceptsOutcome(s, l, p, now);
      AcceptedOnTop(s, f, l);
    } else if !SkipsList(s, l, p, now) {
      RecordedOld(s, l, p, now);
    }
  }

  lemma PushStaysOnTop(s: State, f: Feed, q: RevocationPush, p: Policy, now: int)
    requires FeedOk(f) && Tracks(s, f) && OnTop(s, f) && q in f.pushes && !BeyondSkew(q.pushedAt, now, p.clockSkew)
    requires q.sequence > 0
    ensures OnTop(ReducePush(s, q, p, now), f)
  {
    assert PushInFeed(f, q);
    NothingBeyondFeed(s, f);
    PushAtTheFloor(s, f, q, p, now);
  }

  lemma ListTopped(s: State, f: Feed, l: RevocationList, p: Policy, now: int)
    requires FeedOk(f) && Tracks(s, f) && Topped(s, f) && l in f.lists && !BeyondSkew(l.updatedAt, now, p.clockSkew)
    ensures Topped(ReduceList(s, l, p, now), f)
  {
    assert ListInFeed(f, l);
    if HasTop(s, f) {
      ListStaysOnTop(s, f, l, p, now);
    } else {
      var outcome := ReduceListOutcome(s, l, p, now);
      NewTop(s, f, l, ReduceList(s, l, p, now), outcome);
    }
  }

  lemma NewTop(s: State, f: Feed, l: RevocationList, t: State, outcome: ListOutcome)
    requires FeedOk(f) && Tracks(s, f) && l in f.lists && !HasTop(s, f) && EndsIn(s, l, t, outcome)
    ensures Topped(t, f)
  {
    EndKeepsEpoch(s, l, t, outcome);
    if HasTop(t, f) {
      var o :| o in t.observations && o.epoch == t.epoch && o.IsList() && o.accepted && o.sequence == f.state.sequence;
      NewTopIsAccepted(s, f, l, t, outcome, o);
      AcceptedOnTop(s, f, l);
    }
  }

  /** The record that an application appends, if any, is accepted only when
      the list is. */
  lemma NewAcceptedRecord(s: State, l: RevocationList, t: State, outcome: ListOutcome, o: Observation)
    requires EndsIn(s, l, t, outcome) && o in t.observations && o !in s.observations && o.accepted
    ensures outcome.Accepted? && o.sequence == l.sequence
  {
    if outcome.Accepted? { AcceptedIsAccepting(s, l); }
  }

  lemma NewTopIsAccepted(s: State, f: Feed, l: RevocationList, t: State, outcome: ListOutcome, o: Observation)
    requires !HasTop(s, f) && EndsIn(s, l, t, outcome) && t.epoch == s.epoch
    requires o in t.observations && o.epoch == t.epoch && o.IsList() && o.accepted && o.sequence == f.state.sequence
    ensures outcome.Accepted? && o.sequence == l.sequence
  {
    assert o !in s.observations;
    NewAcceptedRecord(s, l, t, outcome, o);
  }

  lemma EndKeepsEpoch(s: State, l: RevocationList, t: State, outcome: ListOutcome)
    requires EndsIn(s, l, t, outcome)
    ensures t.epoch == s.epoch
  {
    if outcome.Accepted? { AcceptedIsAccepting(s, l); }
  }

  lemma PushTopped(s: State, f: Feed, q: RevocationPush, p: Policy, now: int)
    requires FeedOk(f) && Tracks(s, f) && Topped(s, f) && q in f.pushes && !BeyondSkew(q.pushedAt, now, p.clockSkew)
    ensures q.sequence > 0 && Topped(ReducePush(s, q, p, now), f)
  {
    assert PushInFeed(f, q);
    if HasTop(s, f) {
      PushStaysOnTop(s, f, q, p, now);
    } else {
      var outcome := ReducePushOutcome(s, q, p, now);
      PushIsNoTop(s, f, q, ReducePush(s, q, p, now), outcome);
    }
  }

  lemma PushIsNoTop(s: State, f: Feed, q: RevocationPush, t: State, outcome: PushOutcome)
    requires !HasTop(s, f) && PushEndsIn(s, q, t, outcome)
    ensures !HasTop(t, f)
  {
    forall o | o in t.observations && o.epoch == t.epoch && o.IsList() && o.accepted
      ensures o.sequence != f.state.sequence
    {
      assert o in s.observations;
    }
  }

  /** Where the acceptance of a retained record comes from. */
  ghost predicate AcceptedLike(s: State, r: Observation, o: Observation) {
    && r.epoch == o.epoch && r.sequence == o.sequence && (r.IsList() <==> o.IsList())
    && (o.accepted || IsBase(s, o))
  }

  ghost predicate AcceptedFrom(s: State, r: Observation, obs: seq<Observation>) {
    exists o :: o in obs && AcceptedLike(s, r, o)
  }

  lemma {:induction false} AcceptanceIsNotInvented(s: State, obs: seq<Observation>)
    ensures forall r :: r in FoldAll(s, obs).retained && r.accepted ==> AcceptedFrom(s, r, obs)
  {
    if obs != [] {
      var front, o := obs[..|obs| - 1], obs[|obs| - 1];
      assert obs == front + [o];
      AcceptanceIsNotInvented(s, front);
      StepAcceptance(s, FoldAll(s, front), front, o);
    }
  }

  lemma StepAcceptance(s: State, f: Fold, front: seq<Observation>, o: Observation)
    requires FoldOk(f) && forall r :: r in f.retained && r.accepted ==> AcceptedFrom(s, r, front)
    ensures forall r :: r in Step(s, f, o).retained && r.accepted ==> AcceptedFrom(s, r, front + [o])
  {
    var n := Narrow(s, f, o);
    StepCases(s, f, o);
    assert o in front + [o];
    forall r | r in Step(s, f, o).retained && r.accepted ensures AcceptedFrom(s, r, front + [o]) {
      if r in f.retained {
        var x :| x in front && AcceptedLike(s, r, x);
        assert x in front + [o];
      } else if r == n {
        assert AcceptedLike(s, r, o);
      } else {
        var i :| 0 <= i < |f.retained| && Carries(f.retained[i], KeyOf(n)) && r == Merge(s, f.retained[i], n);
        MergedAcceptance(s, f.retained, i, n, o, front);
      }
    }
  }

  lemma MergedAcceptance(s: State, rs: seq<Observation>, i: int, n: Observation, o: Observation,
                         front: seq<Observation>)
    requires 0 <= i < |rs| && Carries(rs[i], KeyOf(n)) && (n == o || n == o.(certs := n.certs))
    requires Merge(s, rs[i], n).accepted
    requires forall r :: r in rs && r.accepted ==> AcceptedFrom(s, r, front)
    ensures AcceptedFrom(s, Merge(s, rs[i], n), front + [o])
  {
    assert o in front + [o];
    if rs[i].accepted {
      assert rs[i] in rs;
      var x :| x in front && AcceptedLike(s, rs[i], x);
      assert x in front + [o] && AcceptedLike(s, Merge(s, rs[i], n), x);
    } else {
      assert AcceptedLike(s, Merge(s, rs[i], n), o);
    }
  }

  lemma CompactedAcceptance(s: State, r: Observation)
    requires r in Compacted(s) && r.accepted
    ensures AcceptedFrom(s, r, s.observations)
  {
    var sorted := Sorted(s.observations);
    AcceptanceIsNotInvented(s, sorted);
    CompactedIsRetained(s);
    var retained := FoldAll(s, sorted).retained;
    var i :| 0 <= i < |retained| && Compacted(s)[i] == r;
    assert retained[i] in retained;
    var o :| o in sorted && AcceptedLike(s, retained[i], o);
    assert o in s.observations && AcceptedLike(s, r, o);
  }

  lemma CompactTopped(s: State, f: Feed)
    requires Tracks(s, f) && Topped(s, f)
    ensures Topped(Compact(s), f)
  {
    var t := Compact(s);
    if HasTop(t, f) {
      var r :| r in t.observations && r.epoch == t.epoch && r.IsList() && r.accepted && r.sequence == f.state.sequence;
      CompactedAcceptance(s, r);
      var o :| o in s.observations && AcceptedLike(s, r, o);
      TopBefore(s, f, o);
    }
  }

  lemma TopBefore(s: State, f: Feed, o: Observation)
    requires Tracks(s, f) && o in s.observations && o.epoch == s.epoch && o.IsList() && o.sequence == f.state.sequence
    requires o.accepted || IsBase(s, o)
    ensures HasTop(s, f)
  {
    if !o.accepted {
      var b :| b in s.observations && IsBase(s, b) && b.accepted && b.certs == b.revokedSet;
    }
  }

  lemma ReceiveTopped(s: State, f: Feed, d: Delivery)
    requires FeedOk(f) && Tracks(s, f) && Topped(s, f) && Published(f, d) && InTime(d)
    ensures Topped(Receive(s, d), f)
  {
    ReceiveIs(s, f, d);
    if Applied(d) {
      match d
      case DeliverList(l, p, now) =>
        ListTopped(s, f, l, p, now);
        ListTracks(s, f, l, p, now);
        CompactTopped(ReduceList(s, l, p, now), f);
      case DeliverPush(q, p, now) =>
        PushTopped(s, f, q, p, now);
        PushTracks(s, f, q, p, now);
        CompactTopped(ReducePush(s, q, p, now), f);
    }
  }

  /* ---- When the newest list catches the verifier up ---- */

  /** A copy of the newest list is on record that is neither accepted nor
      withheld: it was stale when the floor had already reached its sequence,
      and no later copy is looked at. */
  ghost predicate Shelved(s: State, f: Feed)
    requires |f.lists| > 0
  {
    exists o :: o in s.observations && SameEvidence(o, s.epoch, ListEvidence(Newest(f))) && !o.accepted && !o.gap
  }

  /** What holds of a verifier that received the feed in time. */
  ghost predicate Ran(s: State, f: Feed) { Tracks(s, f) && OneListEach(s) && Topped(s, f) }

  lemma TheRecord(s: State, f: Feed)
    requires FeedOk(f) && Ran(s, f) && IsDuplicate(s, Newest(f))
    ensures var o := s.observations[LastEvidence(s.observations, s.epoch, ListEvidence(Newest(f)))];
            && RecordOk(s, o) && !o.futureDated && !o.fork
            && (Shelved(s, f) <==> !o.accepted && !o.gap)
            && (CaughtUp(s, f) ==> o.accepted)
            && (o.accepted ==> CaughtUp(s, f))
  {
    var o := s.observations[LastEvidence(s.observations, s.epoch, ListEvidence(Newest(f)))];
    assert o in s.observations && RecordOk(s, o) && FromFeed(f, s.epoch, o);
    if Shelved(s, f) {
      var x :| x in s.observations && SameEvidence(x, s.epoch, ListEvidence(Newest(f))) && !x.accepted && !x.gap;
      assert SameSlot(s, x, o);
    }
    if CaughtUp(s, f) || o.accepted {
      assert o.accepted ==> HasTop(s, f);
      NothingBeyondFeed(s, f);
      var b :| b in s.observations && IsBase(s, b) && b.accepted && b.certs == b.revokedSet;
      assert SameSlot(s, b, o);
    }
  }

  /** A fresh copy of the newest list catches the verifier up exactly when no
      copy is shelved. */
  lemma NewestCatchesUpExactly(s: State, f: Feed, d: Delivery)
    requires FeedOk(f) && Ran(s, f) && IsFreshNewest(f, d)
    ensures CaughtUp(Receive(s, d), f) <==> !Shelved(s, f)
  {
    var l := Newest(f);
    assert Published(f, d) && ListInFeed(f, l);
    ReceiveIs(s, f, d);
    ListTracks(s, f, l, d.policy, d.now);
    CompactTracks(ReduceList(s, l, d.policy, d.now), f);
    DuplicateIsRecorded(s, l);
    if IsDuplicate(s, l) {
      TheRecord(s, f);
      CopyDecides(s, f, d.policy, d.now);
    } else {
      NewestIsAccepted(s, f, d.policy, d.now);
    }
  }

  lemma CopyDecides(s: State, f: Feed, p: Policy, now: int)
    requires FeedOk(f) && Ran(s, f) && IsDuplicate(s, Newest(f)) && Fresh(Newest(f), p, now)
    ensures CaughtUp(ReduceList(s, Newest(f), p, now), f) <==> !Shelved(s, f)
  {
    var l := Newest(f);
    TheRecord(s, f);
    NothingBeyondFeed(s, f);
    NoForkAt(s, f, l.sequence);
    assert ListInFeed(f, l);
    if !SkipsList(s, l, p, now) {
      WithheldNewestIsAccepted(s, f, p, now);
    }
  }

  lemma WithheldNewestIsAccepted(s: State, f: Feed, p: Policy, now: int)
    requires FeedOk(f) && Tracks(s, f) && !SkipsList(s, Newest(f), p, now) && Fresh(Newest(f), p, now)
    ensures CaughtUp(ReduceList(s, Newest(f), p, now), f)
  {
    var l := Newest(f);
    assert ListInFeed(f, l);
    ListAgrees(s, f, l);
    PreparationKeepsForks(s, l, p, now);
    NothingBeyondFeed(s, f);
    assert s.denyUnion + l.revoked <= l.revoked;
    AcceptsOutcome(s, l, p, now);
    if s.snapshot.Some? { NewestIsPreferred(f, s.snapshot.value); }
    AcceptedNewest(s, f);
  }

  /* ---- Runs ---- */

  /** Published objects, none dated after its arrival, each under any policy
      and at any time. */
  ghost predicate InTimeRun(f: Feed, ds: seq<Delivery>) {
    forall d :: d in ds ==> Published(f, d) && InTime(d)
  }

  lemma RanNothing(s: State, f: Feed)
    requires FeedOk(f) && NewEpoch(s, f) && s.denyUnion <= f.state.revoked
    ensures Ran(s, f) && !Recorded(s, Newest(f))
  {
    NewEpochFollows(s, f);
    forall o | o in s.observations ensures o.epoch != s.epoch { assert RecordOk(s, o); }
  }

  lemma {:induction false} RunTracks(s: State, f: Feed, ds: seq<Delivery>)
    requires FeedOk(f) && NewEpoch(s, f) && s.denyUnion <= f.state.revoked && InTimeRun(f, ds)
    ensures Ran(ReceiveAll(s, ds), f)
    ensures Recorded(ReceiveAll(s, ds), Newest(f)) ==> exists d :: d in ds && Applied(d) && IsNewest(f, d)
  {
    if ds == [] {
      RanNothing(s, f);
    } else {
      var front, d := ds[..|ds| - 1], ds[|ds| - 1];
      assert ds == front + [d] && d in ds;
      RunTracks(s, f, front);
      ReceiveTracks(ReceiveAll(s, front), f, d);
      ReceiveTopped(ReceiveAll(s, front), f, d);
    }
  }

  lemma {:induction false} CaughtUpStays(s: State, f: Feed, ds: seq<Delivery>, n: nat)
    requires FeedOk(f) && NewEpoch(s, f) && s.denyUnion <= f.state.revoked && InTimeRun(f, ds)
    requires n <= |ds| && CaughtUp(ReceiveAll(s, ds[..n]), f)
    ensures CaughtUp(ReceiveAll(s, ds), f)
  {
    if n == |ds| {
      assert ds[..n] == ds;
    } else {
      var front, d := ds[..|ds| - 1], ds[|ds| - 1];
      assert ds == front + [d] && d in ds && front[..n] == ds[..n];
      CaughtUpStays(s, f, front, n);
      RunTracks(s, f, front);
      ReceiveTracks(ReceiveAll(s, front), f, d);
    }
  }

  /** The n-th delivery is a fresh copy of the newest list, with no copy shelved
      before it. */
  ghost predicate CatchesUpAt(s: State, f: Feed, ds: seq<Delivery>, n: nat)
    requires |f.lists| > 0
  {
    n < |ds| && IsFreshNewest(f, ds[n]) && !Shelved(ReceiveAll(s, ds[..n]), f)
  }

  lemma {:induction false} CaughtUpFrom(s: State, f: Feed, ds: seq<Delivery>, n: nat)
    requires FeedOk(f) && NewEpoch(s, f) && s.denyUnion <= f.state.revoked && InTimeRun(f, ds)
    requires CatchesUpAt(s, f, ds, n)
    ensures CaughtUp(ReceiveAll(s, ds), f)
  {
    var before := ds[..n];
    RunTracks(s, f, before);
    NewestCatchesUpExactly(ReceiveAll(s, before), f, ds[n]);
    assert ds[..n + 1][..n] == before && ds[..n + 1][n] == ds[n];
    CaughtUpStays(s, f, ds, n + 1);
  }

  /** A verifier whose snapshot is the newest list has caught up. */
  lemma NewestInForce(s: State, f: Feed)
    requires FeedOk(f) && Ran(s, f) && s.snapshot == Some(Newest(f))
    ensures CaughtUp(s, f)
  {
    NothingBeyondFeed(s, f);
    var b :| b in s.observations && IsBase(s, b) && b.accepted && b.certs == b.revokedSet;
    assert HasTop(s, f);
  }

  /** Only a fresh copy of the newest list puts it in force. */
  lemma SnapshotChanges(s: State, f: Feed, d: Delivery)
    requires FeedOk(f) && Ran(s, f) && Published(f, d)
    requires s.snapshot != Some(Newest(f)) && Receive(s, d).snapshot == Some(Newest(f))
    ensures IsFreshNewest(f, d)
  {
    ReceiveIs(s, f, d);
    if d.DeliverList? {
      assert ListInFeed(f, d.list);
      var outcome := ReduceListOutcome(s, d.list, d.policy, d.now);
      ChangedByAcceptance(s, d.list, ReduceList(s, d.list, d.policy, d.now), outcome);
    } else {
      assert PushInFeed(f, d.push);
      var outcome := ReducePushOutcome(s, d.push, d.policy, d.now);
      PushKeepsSnapshot(s, d.push, ReducePush(s, d.push, d.policy, d.now), outcome);
    }
  }

  lemma ChangedByAcceptance(s: State, l: RevocationList, t: State, outcome: ListOutcome)
    requires EndsIn(s, l, t, outcome)
    ensures t.snapshot != s.snapshot ==> outcome.Accepted? && t.snapshot == Some(l)
  {
  }

  lemma PushKeepsSnapshot(s: State, q: RevocationPush, t: State, outcome: PushOutcome)
    requires PushEndsIn(s, q, t, outcome)
    ensures t.snapshot == s.snapshot
  {
  }

  /** A run catches up exactly when some copy of the newest list arrives fresh
      while none is shelved. */
  lemma {:induction false} ConvergesExactly(s: State, f: Feed, ds: seq<Delivery>)
    requires FeedOk(f) && NewEpoch(s, f) && s.denyUnion <= f.state.revoked && InTimeRun(f, ds)
    ensures CaughtUp(ReceiveAll(s, ds), f) <==> exists n: nat :: CatchesUpAt(s, f, ds, n)
  {
    if n: nat :| CatchesUpAt(s, f, ds, n) { CaughtUpFrom(s, f, ds, n); }
    if CaughtUp(ReceiveAll(s, ds), f) { var n := CaughtUpSince(s, f, ds); }
  }

  /** Where a property of numbers first appears. */
  lemma {:induction false} FirstTrue(p: int -> bool, n: nat) returns (i: nat)
    requires !p(0) && p(n)
    ensures i < n && !p(i) && p(i + 1)
  {
    if n > 0 && p(n - 1) { i := FirstTrue(p, n - 1); } else { i := n - 1; }
  }

  lemma {:induction false} ReceiveOneMore(s: State, ds: seq<Delivery>, i: nat)
    requires i < |ds|
    ensures ReceiveAll(s, ds[..i + 1]) == Receive(ReceiveAll(s, ds[..i]), ds[i])
  {
    assert ds[..i + 1][..i] == ds[..i] && ds[..i + 1][i] == ds[i];
  }

  lemma {:induction false} CaughtUpSince(s: State, f: Feed, ds: seq<Delivery>) returns (n: nat)
    requires FeedOk(f) && NewEpoch(s, f) && s.denyUnion <= f.state.revoked && InTimeRun(f, ds)
    requires CaughtUp(ReceiveAll(s, ds), f)
    ensures CatchesUpAt(s, f, ds, n)
  {
    var done := (i: int) => 0 <= i <= |ds| && CaughtUp(ReceiveAll(s, ds[..i]), f);
    assert ds[..0] == [] && ds[..|ds|] == ds;
    n := FirstTrue(done, |ds|);
    ReceiveOneMore(s, ds, n);
    assert ds[n] in ds;
    RunTracks(s, f, ds[..n]);
    CatchingUp(ReceiveAll(s, ds[..n]), f, ds[n]);
  }

  /** The delivery that catches a verifier up. */
  lemma CatchingUp(s: State, f: Feed, d: Delivery)
    requires FeedOk(f) && Ran(s, f) && Published(f, d) && !CaughtUp(s, f) && CaughtUp(Receive(s, d), f)
    ensures IsFreshNewest(f, d) && !Shelved(s, f)
  {
    if s.snapshot == Some(Newest(f)) { NewestInForce(s, f); }
    SnapshotChanges(s, f, d);
    NewestCatchesUpExactly(s, f, d);
  }

  lemma CaughtUpDenials(s: State, f: Feed)
    requires FeedOk(f) && Tracks(s, f) && CaughtUp(s, f)
    ensures s.denyUnion == f.state.revoked
  {
    var b :| b in s.observations && IsBase(s, b) && b.accepted && b.certs == b.revokedSet;
    assert RecordOk(s, b);
    assert ListInFeed(f, Newest(f));
  }

  /** A query answers revoked exactly for the publisher's set and not-revoked
      exactly for the rest. */
  ghost predicate AnswersExactly(t: State, f: Feed, cert: CertId, p: Policy, now: int) {
    var r := Query(t, t.issuer, cert, t.epoch, t.keyId, p, now);
    && r.Success?
    && (r.value.Revoked? <==> cert in f.state.revoked)
    && (r.value.NotRevoked? <==> cert !in f.state.revoked)
  }

  lemma CaughtUpAnswers(t: State, f: Feed, cert: CertId, p: Policy, now: int)
    requires FeedOk(f) && Tracks(t, f) && CaughtUp(t, f)
    requires cert != "" && ValidPolicy(p) && ValidTimestamp(now) && Fresh(Newest(f), p, now)
    ensures AnswersExactly(t, f, cert, p, now)
  {
    CaughtUpDenials(t, f);
    QueryExact(t, cert, p, now);
  }

  /** The first copy of the newest list that was applied was fresh. */
  ghost predicate FirstCopyFresh(f: Feed, ds: seq<Delivery>, n: nat)
    requires |f.lists| > 0
  {
    n < |ds| && IsFreshNewest(f, ds[n]) && forall i :: 0 <= i < n ==> !(Applied(ds[i]) && IsNewest(f, ds[i]))
  }

  lemma {:induction false} FirstCopyCatchesUp(s: State, f: Feed, ds: seq<Delivery>, n: nat)
    requires FeedOk(f) && NewEpoch(s, f) && s.denyUnion <= f.state.revoked && InTimeRun(f, ds)
    requires FirstCopyFresh(f, ds, n)
    ensures CatchesUpAt(s, f, ds, n)
  {
    RunTracks(s, f, ds[..n]);
    forall d | d in ds[..n] ensures !(Applied(d) && IsNewest(f, d)) {
      var i :| 0 <= i < n && ds[i] == d;
    }
  }

  /** Whatever was lost, reordered or repeated, under whatever policies and at
      whatever times: if no object arrived before its date and the first copy of
      the newest list was fresh, then every query under a policy by which that
      list is fresh answers exactly what the publisher revoked. */
  lemma {:induction false} HonestFeedConverges(s: State, f: Feed, ds: seq<Delivery>, n: nat, cert: CertId, p: Policy,
                                               now: int)
    requires FeedOk(f) && NewEpoch(s, f) && s.denyUnion <= f.state.revoked && InTimeRun(f, ds)
    requires FirstCopyFresh(f, ds, n)
    requires cert != "" && ValidPolicy(p) && ValidTimestamp(now) && Fresh(Newest(f), p, now)
    ensures AnswersExactly(ReceiveAll(s, ds), f, cert, p, now)
  {
    FirstCopyCatchesUp(s, f, ds, n);
    CaughtUpFrom(s, f, ds, n);
    RunTracks(s, f, ds);
    CaughtUpAnswers(ReceiveAll(s, ds), f, cert, p, now);
  }

  /* ---- One policy and a clock that does not go back ---- */

  ghost predicate Steady(ds: seq<Delivery>, p: Policy) {
    && (forall d :: d in ds ==> d.policy == p && ValidTimestamp(d.now))
    && (forall i, j :: 0 <= i <= j < |ds| ==> ds[i].now <= ds[j].now)
  }

  /** Then a list that was stale stays stale, so any fresh copy will do. */
  lemma {:induction false} AnyFreshCopyWillDo(f: Feed, ds: seq<Delivery>, p: Policy, n: nat) returns (first: nat)
    requires FeedOk(f) && ValidPolicy(p) && InTimeRun(f, ds) && Steady(ds, p) && n < |ds| && IsFreshNewest(f, ds[n])
    ensures first <= n && FirstCopyFresh(f, ds, first)
    decreases n
  {
    if i :| 0 <= i < n && Applied(ds[i]) && IsNewest(f, ds[i]) {
      assert ds[i] in ds && ds[n] in ds && ds[i].now <= ds[n].now && InTime(ds[i]);
      first := AnyFreshCopyWillDo(f, ds, p, i);
    } else {
      first := n;
    }
  }

  /** The same from the very beginning: a publisher's genesis and any run of
      heartbeats and revocations, and a verifier that starts from the
      configured key. */
  lemma {:induction false} PublisherAndVerifierAgree(
    u: Publisher, at: int, signing: Signing, actions: seq<Action>, f: Feed,
    ds: seq<Delivery>, n: nat, cert: CertId, p: Policy, now: int)
    requires ValidPublisher(u) && Genesis(u, at, signing).Success?
    requires f == PublishAll(u, Opened(Genesis(u, at, signing).value), actions)
    requires forall d :: d in ds ==> Published(f, d)
    ensures FeedOk(f)
    ensures var t := ReceiveAll(Configured(u.issuer, u.key), ds);
            && t.issuer == u.issuer && t.epoch == 1 && t.keyId == u.key
            && t.forkSequence == 0 && (t.hasFloor ==> 1 <= t.floor < |f.sets| && t.accepted == f.sets[t.floor])
    ensures && InTimeRun(f, ds) && FirstCopyFresh(f, ds, n)
            && cert != "" && ValidPolicy(p) && ValidTimestamp(now) && Fresh(Newest(f), p, now) ==>
              AnswersExactly(ReceiveAll(Configured(u.issuer, u.key), ds), f, cert, p, now)
  {
    GenesisOpens(u, at, signing);
    PublishedFeedOk(u, Opened(Genesis(u, at, signing).value), actions);
    var s := Configured(u.issuer, u.key);
    ConfiguredIsNew(u, f);
    HonestFeedNeverForks(s, f, ds);
    if && InTimeRun(f, ds) && FirstCopyFresh(f, ds, n)
       && cert != "" && ValidPolicy(p) && ValidTimestamp(now) && Fresh(Newest(f), p, now)
    {
      HonestFeedConverges(s, f, ds, n, cert, p, now);
    }
  }

  lemma ConfiguredIsNew(u: Publisher, f: Feed)
    requires u.issuer != "" && u.key != "" && f.state.issuer == u.issuer && f.state.key == u.key
    ensures NewEpoch(Configured(u.issuer, u.key), f)
  {
    assert Initial(Configured(u.issuer, u.key));
    InitialInv(Configured(u.issuer, u.key));
  }
}

/** When the journal's transition validator accepts what the reducer did to an
    issuer's state (security_journal_v2.go:378-454), as a commit presents it:
    after the reducer's own compaction and the commit's.

    It does not always: the validator looks a retained record up by its
    semantic key, which says whether the record is future-dated, and compaction
    can take that flag away.  This happens when the accepted list was first
    recorded as future-dated, and a later future-dated list with the same set
    sorts before that record. */
module JournalTransitions {
  import opened StatusTypes
  import opened StatusCompaction
  import opened StatusReducer
  import opened CompactionProofs
  import opened CompactionKeys
  import opened ReducerInvariant
  import opened ReducerSteps
  import opened ReducerRuns
  import opened ForkMarker
  import opened SecurityJournal

  /* ---- What an application does to a state ---- */

  /** The snapshot has caught up with everything that `s` had observed. */
  ghost predicate CaughtUp(t: State, s: State) {
    && t.snapshot.Some? && s.maxObserved <= t.snapshot.value.sequence
    && (s.forkSequence == 0 || s.forkSequence < t.snapshot.value.sequence)
    && s.denyUnion <= t.snapshot.value.revoked
  }

  /** Nothing goes back, the accepted snapshot included. */
  ghost predicate Onward(s: State, t: State) {
    && Grows(s, t) && t.retired == s.retired
    && (s.snapshot.Some? ==>
          && t.snapshot.Some? && s.snapshot.value.sequence <= t.snapshot.value.sequence
          && s.snapshot.value.revoked <= t.snapshot.value.revoked)
  }

  /** Reconciliation ends only with a snapshot that has caught up. */
  ghost predicate Advances(s: State, t: State) {
    && Onward(s, t)
    && (s.reconcile ==> if t.reconcile then s.forkSequence <= t.forkSequence else CaughtUp(t, s))
  }

  /** `t` is the compaction of `m`, which adds to the records of `s`, and no
      record is displaced. */
  ghost predicate Linked(s: State, m: State, t: State) {
    && BoundInv(m) && Advances(s, m) && NothingDisplaced(m, Sorted(m.observations))
    && (forall o :: o in s.observations ==> o in m.observations)
    && t == Compact(m)
  }

  ghost predicate Links(s: State, t: State) { exists m :: Linked(s, m, t) }

  lemma LinkKeeps(s: State, t: State)
    requires Links(s, t)
    ensures BoundInv(t) && Advances(s, t) && KeysDistinct(t.observations)
  {
    var m :| Linked(s, m, t);
    CompactKeepsInv(m);
    UndisplacedIsDistinct(m);
  }

  lemma OnwardTrans(a: State, b: State, c: State)
    requires Onward(a, b) && Onward(b, c)
    ensures Onward(a, c)
  {
  }

  /* ---- Chains of compacted states ---- */

  /** States that follow one another; a commit's own compaction is the last
      link. */
  ghost predicate Chain(ss: seq<State>) {
    |ss| > 1 && BoundInv(ss[0]) && forall i :: 0 < i < |ss| ==> Links(ss[i - 1], ss[i])
  }

  function Last(ss: seq<State>): State
    requires ss != []
  {
    ss[|ss| - 1]
  }

  /** If the last state asks for reconciliation, so does every state on the
      way: it is not cleared and then asked for again. */
  ghost predicate Steady(ss: seq<State>)
    requires ss != []
  {
    Last(ss).reconcile ==> forall i :: 0 < i < |ss| ==> ss[i].reconcile
  }

  lemma {:induction false} ChainOnward(ss: seq<State>, i: int, j: int)
    requires Chain(ss) && 0 <= i <= j < |ss|
    ensures BoundInv(ss[j]) && Onward(ss[i], ss[j])
    decreases j
  {
    if i < j {
      ChainOnward(ss, i, j - 1);
      LinkKeeps(ss[j - 1], ss[j]);
      OnwardTrans(ss[i], ss[j - 1], ss[j]);
    } else if j > 0 {
      LinkKeeps(ss[j - 1], ss[j]);
    }
  }

  /* ---- Retention along a chain ---- */

  /** `r` stands for `o` under its key. */
  predicate Stands(r: Observation, o: Observation, reconcile: bool) {
    KeyOf(r) == KeyOf(o) && o.certs <= r.certs && (o.accepted ==> r.accepted) && (reconcile && o.gap ==> r.gap)
  }

  /** What the last state must retain, every state before had to keep. */
  lemma WasFull(m: State, last: State, o: Observation, r: Observation)
    requires BoundInv(m) && Onward(m, last) && (last.reconcile ==> m.reconcile) && MustRetain(last, o)
    requires Stands(r, o, last.reconcile) && (o.accepted ==> o.sequence <= m.floor) && 0 < o.sequence
    ensures MustRetain(m, r)
  {
  }

  lemma StandsOn(s: State, m: State, t: State, last: State, o: Observation, r: Observation) returns (x: Observation)
    requires Linked(s, m, t) && Onward(t, last) && (last.reconcile ==> t.reconcile) && MustRetain(last, o)
    requires r in s.observations && Stands(r, o, last.reconcile)
    requires (o.accepted ==> o.sequence <= s.floor) && 0 < o.sequence
    ensures x in t.observations && Stands(x, o, last.reconcile)
  {
    OnwardIgnoresRecords(m, last);
    WasFull(m, last, o, r);
    var i := FoundUnderKey(m, r);
    x := Compacted(m)[i];
  }

  lemma OnwardIgnoresRecords(m: State, last: State)
    requires Onward(Compact(m), last)
    ensures Onward(m, last)
  {
  }

  lemma {:induction false} StandsAlong(ss: seq<State>, n: nat, o: Observation) returns (r: Observation)
    requires Chain(ss) && Steady(ss) && n < |ss| && o in ss[0].observations && MustRetain(Last(ss), o)
    ensures r in ss[n].observations && Stands(r, o, Last(ss).reconcile)
  {
    if n == 0 {
      r := o;
    } else {
      r := StandsAlong(ss, n - 1, o);
      AcceptedIsBelow(ss, n - 1, o);
      ChainOnward(ss, n, |ss| - 1);
      assert Links(ss[n - 1], ss[n]);
      var m :| Linked(ss[n - 1], m, ss[n]);
      r := StandsOn(ss[n - 1], m, ss[n], Last(ss), o, r);
    }
  }

  lemma AcceptedIsBelow(ss: seq<State>, n: nat, o: Observation)
    requires Chain(ss) && n < |ss| && o in ss[0].observations && o.epoch == Last(ss).epoch
    ensures 0 < o.sequence && (o.accepted ==> o.sequence <= ss[n].floor)
  {
    ChainOnward(ss, 0, n);
    ChainOnward(ss, 0, |ss| - 1);
    assert RecordOk(ss[0], o);
  }

  lemma {:induction false} LastWithKeyFinds(obs: seq<Observation>, i: int)
    requires 0 <= i < |obs| && KeysDistinct(obs)
    ensures LastWithKey(obs, KeyOf(obs[i])) == i
  {
    if i < |obs| - 1 {
      var front := obs[..|obs| - 1];
      assert front[i] == obs[i];
      LastWithKeyFinds(front, i);
    }
  }

  lemma {:induction false} NoneWithKey(obs: seq<Observation>, k: SemanticKey)
    requires forall i :: 0 <= i < |obs| ==> KeyOf(obs[i]) != k
    ensures LastWithKey(obs, k) == -1
  {
    if obs != [] { NoneWithKey(obs[..|obs| - 1], k); }
  }

  /** The last state of a steady chain retains every record of the first. */
  lemma ChainRetains(ss: seq<State>, o: Observation)
    requires Chain(ss) && Steady(ss) && o in ss[0].observations
    ensures Retains(Last(ss), o)
  {
    var t := Last(ss);
    LinkKeeps(ss[|ss| - 2], t);
    if MustRetain(t, o) {
      var r := StandsAlong(ss, |ss| - 1, o);
      var i :| 0 <= i < |t.observations| && t.observations[i] == r;
      LastWithKeyFinds(t.observations, i);
    }
  }

  /* ---- Reconciliation along a chain ---- */

  ghost predicate Settling(s: State, t: State) {
    CaughtUp(t, s) || (t.reconcile && s.forkSequence <= t.forkSequence)
  }

  lemma SettlingStep(s: State, m: State, t: State)
    requires 0 <= s.forkSequence && Onward(s, m) && Settling(s, m) && Advances(m, t)
    ensures Settling(s, t)
  {
  }

  lemma {:induction false} SettlingAlong(ss: seq<State>, n: nat)
    requires Chain(ss) && n < |ss| && ss[0].reconcile
    ensures Settling(ss[0], ss[n])
  {
    if n > 0 {
      SettlingAlong(ss, n - 1);
      ChainOnward(ss, 0, n - 1);
      LinkKeeps(ss[n - 1], ss[n]);
      SettlingStep(ss[0], ss[n - 1], ss[n]);
    }
  }

  lemma CaughtUpIsRecorded(s: State, t: State)
    requires BoundInv(t) && t.epoch == s.epoch && CaughtUp(t, s)
    ensures CaughtUpAfter(t, s)
  {
    var b :| b in t.observations && IsBase(t, b) && b.accepted && b.certs == b.revokedSet;
    assert RecordOk(t, b);
    assert b.certs == t.snapshot.value.revoked;
  }

  /** The validator accepts the whole way along a steady chain at once. */
  lemma ChainIsAccepted(ss: seq<State>)
    requires Chain(ss) && Steady(ss)
    ensures StatusTransitionOk(ss[0], Last(ss))
  {
    var s, t := ss[0], Last(ss);
    ChainOnward(ss, 0, |ss| - 1);
    forall o | o in s.observations ensures Retains(t, o) { ChainRetains(ss, o); }
    if s.reconcile && !t.reconcile {
      SettlingAlong(ss, |ss| - 1);
      CaughtUpIsRecorded(s, t);
    }
  }

  /* ---- Lists ---- */

  /** The list is a new future-dated one with the set and sequence of the
      accepted snapshot, the snapshot itself was first recorded as
      future-dated, and the new list's digests sort first. */
  predicate DisplacesBase(s: State, l: RevocationList, p: Policy, now: int) {
    && !SkipsList(s, l, p, now) && !IsDuplicate(s, l)
    && BeyondSkew(l.updatedAt, now, p.clockSkew) && !ListForks(Prepared(s, l, p, now), l)
    && exists x :: x in s.observations && IsBase(s, x) && x.futureDated && x.sequence == l.sequence
                   && x.revokedSet == l.revoked && l.rank < x.body.Rank()
  }

  lemma SupplantsExactly(s: State, m: State, l: RevocationList, o: Observation)
    requires RecordsOk(s) && m.epoch == s.epoch && m.snapshot == s.snapshot
    requires o.epoch == s.epoch && o.sequence == l.sequence && o.body == ListEvidence(l).Body()
    requires o.revokedSet == l.revoked
    ensures Supplants(m, s.observations, o) <==>
            && o.futureDated && !o.fork
            && exists x :: x in s.observations && IsBase(s, x) && x.futureDated && x.sequence == l.sequence
                           && x.revokedSet == l.revoked && l.rank < x.body.Rank()
  {
    if Supplants(m, s.observations, o) {
      var x :| x in s.observations && KeyOf(x) == KeyOf(o) && x.futureDated && IsBase(m, x) && Before(o, x);
      assert RecordOk(s, x);
    }
    if o.futureDated && !o.fork {
      if x :| x in s.observations && IsBase(s, x) && x.futureDated && x.sequence == l.sequence
              && x.revokedSet == l.revoked && l.rank < x.body.Rank()
      {
        assert RecordOk(s, x);
        assert KeyOf(x) == KeyOf(o) && Before(o, x);
      }
    }
  }
  /** A record of `s` is displaced in `m`. */
  ghost predicate ListDisplaces(s: State, m: State) {
    && m.reconcile
    && exists i, j :: 0 <= i < j < |Sorted(m.observations)|
                      && Displaced(m, Sorted(m.observations), i, j) && Sorted(m.observations)[j] in s.observations
  }

  lemma RecordedDisplacement(s: State, l: RevocationList, p: Policy, now: int, m: State, o: Observation)
    requires BoundInv(s) && BoundInv(m) && FutureKeysDiffer(s.observations)
    requires Outcome(s, l, p, now, m, Recorded(o))
    ensures NothingDisplaced(m, Sorted(m.observations)) <==> !DisplacesBase(s, l, p, now)
    ensures DisplacesBase(s, l, p, now) ==> ListDisplaces(s, m)
  {
    NewListIsNotBase(s, l, o);
    RecordedIsFuture(s, l, p, now, m, o);
    SupplantsExactly(s, m, l, o);
    NewRecordDisplaces(m, s.observations, o);
  }

  /** What a recorded list leaves in the state. */
  lemma RecordedIsFuture(s: State, l: RevocationList, p: Policy, now: int, m: State, o: Observation)
    requires Outcome(s, l, p, now, m, Recorded(o)) && BoundInv(m)
    ensures m.observations == s.observations + [o] && m.snapshot == s.snapshot && m.epoch == s.epoch
    ensures o.epoch == s.epoch && o.sequence == l.sequence && o.revokedSet == l.revoked
    ensures o.body == ListEvidence(l).Body()
    ensures o.futureDated ==> m.reconcile
  {
  }

  lemma OthersDisplaceNothing(s: State, l: RevocationList, p: Policy, now: int, m: State, outcome: ListOutcome)
    requires Outcome(s, l, p, now, m, outcome) && !outcome.Recorded?
    ensures !DisplacesBase(s, l, p, now)
    ensures || m.observations == s.observations
            || exists o :: m.observations == s.observations + [o] && !o.futureDated
  {
    if outcome.Accepted? {
      assert m.observations == s.observations + [ListObservation(s, l, false).(accepted := true)];
    }
  }

  /** Whether a list takes the key of the base's record away. */
  lemma ListDisplacement(s: State, l: RevocationList, p: Policy, now: int)
    requires BoundInv(s) && FutureKeysDiffer(s.observations) && AuthenticList(l, s.issuer, s.keyId)
    ensures var m := ReduceList(s, l, p, now);
            NothingDisplaced(m, Sorted(m.observations)) <==> !DisplacesBase(s, l, p, now)
    ensures DisplacesBase(s, l, p, now) ==> ListDisplaces(s, ReduceList(s, l, p, now))
  {
    var m := ReduceList(s, l, p, now);
    var outcome := ReduceListOutcome(s, l, p, now);
    ReduceListKeepsInv(s, l, p, now);
    OutcomeDisplacement(s, l, p, now, m, outcome);
  }

  lemma OutcomeDisplacement(s: State, l: RevocationList, p: Policy, now: int, m: State, outcome: ListOutcome)
    requires BoundInv(s) && BoundInv(m) && FutureKeysDiffer(s.observations) && Outcome(s, l, p, now, m, outcome)
    ensures NothingDisplaced(m, Sorted(m.observations)) <==> !DisplacesBase(s, l, p, now)
    ensures DisplacesBase(s, l, p, now) ==> ListDisplaces(s, m)
  {
    if outcome.Recorded? {
      RecordedDisplacement(s, l, p, now, m, outcome.o);
    } else {
      OthersDisplaceNothing(s, l, p, now, m, outcome);
      if m.observations == s.observations {
        OldKeysAreNotDisplaced(m, s.observations);
      } else {
        var o :| m.observations == s.observations + [o] && !o.futureDated;
        NewRecordDisplaces(m, s.observations, o);
      }
    }
  }

  lemma AcceptanceAdvances(s: State, l: RevocationList, m: State)
    requires BoundInv(s) && Acceptable(s, l) && m == AcceptedState(s, l)
    ensures Advances(s, m)
  {
    AcceptanceGrows(s, l);
    AcceptedIsAccepting(s, l);
  }

  lemma OutcomeAdvances(s: State, l: RevocationList, m: State, outcome: ListOutcome)
    requires BoundInv(s) && EndsIn(s, l, m, outcome) && Grows(s, m)
    requires !outcome.Accepted? ==> s.forkSequence <= m.forkSequence
    ensures Advances(s, m) && forall o :: o in s.observations ==> o in m.observations
  {
    if outcome.Accepted? { AcceptanceAdvances(s, l, m); }
  }

  lemma ListAdvances(s: State, l: RevocationList, p: Policy, now: int)
    requires BoundInv(s) && AuthenticList(l, s.issuer, s.keyId)
    ensures var m := ReduceList(s, l, p, now); Advances(s, m) && forall o :: o in s.observations ==> o in m.observations
  {
    var outcome := ReduceListOutcome(s, l, p, now);
    ListGrows(s, l, p, now);
    OutcomeAdvances(s, l, ReduceList(s, l, p, now), outcome);
  }

  /* ---- Pushes ---- */

  lemma NewPushHasNewKey(s: State, q: RevocationPush, o: Observation)
    requires FutureKeysDiffer(s.observations) && !PushSeen(s.observations, s.epoch, q)
    requires o.epoch == s.epoch && o.sequence == q.sequence && o.body == PushEvidence(q).Body()
    ensures FutureKeysDiffer(s.observations + [o])
  {
    var obs := s.observations + [o];
    forall i, j | 0 <= i < j < |obs| && obs[j].futureDated ensures KeyOf(obs[i]) != KeyOf(obs[j]) {
      if j == |s.observations| { assert s.observations[i] in s.observations; }
    }
  }

  lemma PushKeysDiffer(s: State, q: RevocationPush, m: State, outcome: PushOutcome)
    requires FutureKeysDiffer(s.observations) && PushEndsIn(s, q, m, outcome)
    requires outcome.PushIgnored? <==> PushSeen(s.observations, s.epoch, q)
    ensures FutureKeysDiffer(m.observations)
  {
    match outcome {
      case PushIgnored =>
      case PushRecorded(o) => NewPushHasNewKey(s, q, o);
      case PushAccepted => NewPushHasNewKey(s, q, PushObservation(s, q, false).(accepted := true));
    }
  }

  lemma PushForkSequenceGrows(s: State, q: RevocationPush, p: Policy, now: int)
    requires q.sequence > 0
    ensures s.forkSequence <= ReducePush(s, q, p, now).forkSequence
  {
    if !PushSeen(s.observations, s.epoch, q) {
      ReducePushIs(s, q, p, now);
      PreparedForkSequence(s, q, p, now);
      var (m, o) := PreparedPush(s, q, p, now);
      ConcludedForkSequence(m, o, q, BeyondSkew(q.pushedAt, now, p.clockSkew));
    }
  }

  lemma PreparedForkSequence(s: State, q: RevocationPush, p: Policy, now: int)
    requires q.sequence > 0
    ensures s.forkSequence <= PreparedPush(s, q, p, now).0.forkSequence
  {
  }

  lemma ConcludedForkSequence(m: State, o: Observation, q: RevocationPush, future: bool)
    ensures m.forkSequence <= ConcludePush(m, o, q, future).forkSequence
  {
    MarkForkGrows(m, q.sequence);
  }

  lemma MarkForkGrows(s: State, sequence: int)
    ensures s.forkSequence <= MarkFork(s, sequence).forkSequence
  {
  }

  lemma PushOutcomeAdvances(s: State, q: RevocationPush, m: State, outcome: PushOutcome)
    requires PushEndsIn(s, q, m, outcome) && Grows(s, m) && s.forkSequence <= m.forkSequence
    ensures Advances(s, m) && forall o :: o in s.observations ==> o in m.observations
  {
  }

  lemma PushLinks(s: State, q: RevocationPush, p: Policy, now: int)
    requires BoundInv(s) && FutureKeysDiffer(s.observations) && AuthenticPush(q, s.issuer, s.keyId)
    ensures Links(s, Compact(ReducePush(s, q, p, now)))
  {
    var m := ReducePush(s, q, p, now);
    var outcome := ReducePushOutcome(s, q, p, now);
    ReducePushKeepsInv(s, q, p, now);
    PushGrows(s, q, p, now);
    PushForkSequenceGrows(s, q, p, now);
    PushOutcomeAdvances(s, q, m, outcome);
    PushKeysDiffer(s, q, m, outcome);
    OldKeysAreNotDisplaced(m, m.observations);
    assert Linked(s, m, Compact(m));
  }

  /* ---- One operation ---- */

  predicate LeavesDisplacedBase(s: State, op: Op) {
    match op
    case ListOp(l, _, _, _, policy, now) => DisplacesBase(s, l, policy, now)
    case _ => false
  }

  lemma CompactionLinks(s: State)
    requires BoundInv(s) && FutureKeysDiffer(s.observations)
    ensures Links(s, Compact(s))
  {
    OldKeysAreNotDisplaced(s, s.observations);
    assert Linked(s, s, Compact(s));
  }

  lemma ListLinks(s: State, l: RevocationList, p: Policy, now: int)
    requires BoundInv(s) && FutureKeysDiffer(s.observations) && AuthenticList(l, s.issuer, s.keyId)
    requires !DisplacesBase(s, l, p, now)
    ensures Links(s, Compact(ReduceList(s, l, p, now)))
  {
    var m := ReduceList(s, l, p, now);
    ReduceListKeepsInv(s, l, p, now);
    ListAdvances(s, l, p, now);
    ListDisplacement(s, l, p, now);
    assert Linked(s, m, Compact(m));
  }

  /** An operation within an epoch that displaces nothing is a link. */
  lemma OperationLinks(s: State, op: Op)
    requires BoundInv(s) && FutureKeysDiffer(s.observations) && Attempt(s, op).Success?
    requires !op.EpochOp? && !LeavesDisplacedBase(s, op)
    ensures Links(s, Next(s, op))
  {
    match op
    case ListOp(l, issuer, epoch, key, policy, now) =>
      assert Bind(s, issuer, epoch, key) == s;
      ListLinks(s, l, policy, now);
    case PushOp(q, issuer, epoch, key, policy, now) =>
      assert Bind(s, issuer, epoch, key) == s;
      PushLinks(s, q, policy, now);
    case CompactOp => CompactionLinks(s);
  }

  /** A displaced record is missing, also after another compaction. */
  lemma DisplacedIsNotRetained(s: State, m: State)
    requires ListDisplaces(s, m)
    ensures !StatusTransitionOk(s, Compact(Compact(m)))
  {
    var sorted := Sorted(m.observations);
    var i, j :| 0 <= i < j < |sorted| && Displaced(m, sorted, i, j) && sorted[j] in s.observations;
    DisplacedKeyIsGone(m, i, j);
    GoneStaysGone(Compact(m), KeyOf(sorted[j]));
    MissingIsNotRetained(Compact(Compact(m)), m, sorted[j]);
  }

  lemma MissingIsNotRetained(t: State, m: State, o: Observation)
    requires t == m.(observations := t.observations) && m.reconcile && o.futureDated && IsBase(m, o)
    requires Gone(t.observations, KeyOf(o))
    ensures !Retains(t, o)
  {
    NoneWithKey(t.observations, KeyOf(o));
  }

  lemma EpochTransition(s: State, key: KeyId)
    requires BoundInv(s) && BoundInv(NextEpoch(s, key)) && key != s.keyId && key !in s.retired
    ensures StatusTransitionOk(s, Compact(NextEpoch(s, key)))
  {
    var m := NextEpoch(s, key);
    var t := Compact(m);
    CompactedRecords(m);
    forall o | o in s.observations ensures o.epoch < t.epoch { assert RecordOk(s, o); }
    forall o | o in t.observations ensures o.epoch < t.epoch {
      var x :| x in m.observations && Derived(o, x);
    }
  }

  /** What a commit makes of an operation passes the validator exactly when it
      does not displace the record of the base. */
  lemma TransitionExactly(s: State, op: Op)
    requires BoundInv(s) && FutureKeysDiffer(s.observations) && Attempt(s, op).Success?
    ensures StatusTransitionOk(s, Compact(Next(s, op))) <==> !LeavesDisplacedBase(s, op)
  {
    if op.EpochOp? {
      NextKeepsInv(s, op);
      EpochTransition(s, op.key);
    } else if LeavesDisplacedBase(s, op) {
      assert Bind(s, op.issuer, op.epoch, op.key) == s;
      ListDisplacement(s, op.list, op.policy, op.now);
      DisplacedIsNotRetained(s, ReduceList(s, op.list, op.policy, op.now));
    } else {
      OperationLinks(s, op);
      CommitIsChain(s, Next(s, op));
    }
  }

  lemma CommitIsChain(s: State, t: State)
    requires BoundInv(s) && Links(s, t)
    ensures StatusTransitionOk(s, Compact(t))
  {
    LinkKeeps(s, t);
    CompactionLinks(t);
    ChainOfThree(s, t, Compact(t));
    ChainIsAccepted([s, t, Compact(t)]);
  }

  lemma ChainOfThree(a: State, b: State, c: State)
    requires BoundInv(a) && Links(a, b) && Links(b, c) && b.reconcile == c.reconcile
    ensures Chain([a, b, c]) && Steady([a, b, c])
  {
    var ss := [a, b, c];
    forall i | 0 < i < |ss| ensures Links(ss[i - 1], ss[i]) && ss[i].reconcile == c.reconcile {
      assert i == 1 || i == 2;
    }
  }

  /** The state validator agrees: together they accept exactly what neither
      leaves an unrecorded fork nor displaces the record of the base. */
  lemma JournalAcceptsExactly(s: State, op: Op)
    requires BoundInv(s) && ForkMarked(s) && FutureKeysDiffer(s.observations) && Attempt(s, op).Success?
    ensures BoundInv(Compact(Next(s, op)))
    ensures StatusTransitionOk(s, Compact(Next(s, op))) && AcceptedOk(Compact(Next(s, op)))
            <==> !LeavesUnrecordedFork(s, op) && !LeavesDisplacedBase(s, op)
  {
    TransitionExactly(s, op);
    NextKeepsInv(s, op);
    MarkedExactly(s, op);
    CompactKeepsInv(Next(s, op));
    InvImpliesValid(Compact(Next(s, op)));
    CompactKeepsForkMarker(Next(s, op));
  }
}

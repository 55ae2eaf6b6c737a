/** Every reducer step keeps the invariant. */
module ReducerSteps {
  import opened StatusTypes
  import opened StatusCompaction
  import opened StatusReducer
  import opened CompactionProofs
  import opened ReducerInvariant

  /** Within one epoch, a snapshot at or above the floor must contain the whole
      accepted set: compaction hides nothing from the fork check. */
  lemma RequiredCoversAccepted(s: State, sequence: int)
    requires BoundInv(s) && s.hasFloor && s.floor <= sequence
    ensures s.accepted <= Required(s.observations, s.epoch, sequence)
  {
    forall c | c in s.accepted ensures c in Required(s.observations, s.epoch, sequence) {
      if c in s.snapshot.value.revoked {
        var o :| o in s.observations && IsBase(s, o) && o.accepted && o.certs == o.revokedSet;
        assert RecordOk(s, o);
        assert c in o.certs;
      } else {
        var o :| o in s.observations && OnFloorPath(s, o) && c in o.certs;
      }
    }
  }

  /** A step that records one object and moves neither floor nor set. */
  function Logged(s: State, o: Observation, reconcile: bool, forkSequence: int, futureObserved: bool): State {
    s.(denyUnion := s.denyUnion + o.revokedSet, maxObserved := MaxInt(s.maxObserved, o.sequence),
       observations := s.observations + [o],
       reconcile := reconcile, forkSequence := forkSequence, futureObserved := futureObserved)
  }

  ghost predicate NewRecord(s: State, o: Observation) {
    && ObservationOk(o) && o.certs == o.revokedSet
    && o.epoch == s.epoch && o.keyId == s.keyId && o.keyId != ""
    && 0 < o.sequence <= MAX_SAFE_INTEGER
    && "" !in o.revokedSet
  }

  ghost predicate FlagsFollow(s: State, o: Observation, reconcile: bool, forkSequence: int, futureObserved: bool) {
    && (s.reconcile ==> reconcile)
    && (o.sequence > s.floor ==> reconcile)
    && (futureObserved ==> reconcile)
    && (forkSequence > 0 ==> reconcile)
    && 0 <= forkSequence <= MAX_SAFE_INTEGER
    && (s.hasFloor && !reconcile ==> o.revokedSet <= s.accepted)
  }

  lemma FloorPathAppend(s: State, t: State, o: Observation)
    requires t.snapshot == s.snapshot && t.epoch == s.epoch && t.floor == s.floor
    requires t.observations == s.observations + [o] && !OnFloorPath(s, o)
    ensures FloorPathCerts(t) == FloorPathCerts(s)
  {
    forall c ensures c in FloorPathCerts(t) <==> c in FloorPathCerts(s) {
      if c in FloorPathCerts(s) {
        var x :| x in s.observations && OnFloorPath(s, x) && c in x.certs;
        assert x in t.observations && OnFloorPath(t, x);
      }
      if c in FloorPathCerts(t) {
        var x :| x in t.observations && OnFloorPath(t, x) && c in x.certs;
        assert x in s.observations && OnFloorPath(s, x);
      }
    }
  }

  lemma LoggedKeepsInv(s: State, o: Observation, reconcile: bool, forkSequence: int, futureObserved: bool)
    requires BoundInv(s) && NewRecord(s, o) && Withheld(s, o) && !o.accepted && !(IsBase(s, o) && o.fork)
    requires FlagsFollow(s, o, reconcile, forkSequence, futureObserved)
    ensures BoundInv(Logged(s, o, reconcile, forkSequence, futureObserved))
  {
    var t := Logged(s, o, reconcile, forkSequence, futureObserved);
    forall x | x in t.observations ensures RecordOk(t, x) {
      if x in s.observations { assert RecordOk(s, x); }
    }
    WitnessedConcat(s.observations, o);
    HighWaterAppend(s, t, o);
    if s.hasFloor {
      LoggedKeepsFloor(s, t, o);
    }
  }

  lemma HighWaterAppend(s: State, t: State, o: Observation)
    requires HighWaterOk(s) && o.epoch == s.epoch == t.epoch
    requires t.observations == s.observations + [o] && t.maxObserved == MaxInt(s.maxObserved, o.sequence)
    ensures HighWaterOk(t)
  {
    if s.maxObserved > 0 {
      var x :| x in s.observations && x.epoch == s.epoch && x.sequence == s.maxObserved;
      assert x in t.observations;
    }
    assert o in t.observations;
  }

  lemma LoggedKeepsFloor(s: State, t: State, o: Observation)
    requires s.hasFloor && s.snapshot.Some? && FloorOk(s) && !(o.IsPush() && o.accepted)
    requires t.hasFloor && t.snapshot == s.snapshot && t.epoch == s.epoch && t.floor == s.floor
    requires t.issuer == s.issuer && t.keyId == s.keyId && t.accepted == s.accepted
    requires t.observations == s.observations + [o] && s.maxObserved <= t.maxObserved
    ensures FloorOk(t)
  {
    var b :| b in s.observations && IsBase(s, b) && b.accepted && b.certs == b.revokedSet;
    assert b in t.observations && IsBase(t, b);
    forall q | t.snapshot.value.sequence < q <= t.floor
      ensures PushCount(t.observations, t.epoch, q) == 1
    {
      PushCountAppend(s.observations, o, s.epoch, q);
    }
    FloorPathAppend(s, t, o);
  }

  /** A step that changes only the flags. */
  lemma FlagsKeepInv(s: State, forkSequence: int)
    requires BoundInv(s) && 0 <= forkSequence <= MAX_SAFE_INTEGER
    ensures BoundInv(s.(reconcile := true, forkSequence := forkSequence))
  {
    var t := s.(reconcile := true, forkSequence := forkSequence);
    forall x | x in t.observations ensures RecordOk(t, x) {
      assert RecordOk(s, x);
    }
    if s.hasFloor {
      var b :| b in s.observations && IsBase(s, b) && b.accepted && b.certs == b.revokedSet;
      assert IsBase(t, b);
      assert forall x :: OnFloorPath(t, x) <==> OnFloorPath(s, x);
      assert FloorPathCerts(t) == FloorPathCerts(s);
    }
  }

  /** A list that is not a duplicate has no record yet. */
  lemma NewListHasNoRecord(s: State, l: RevocationList, x: Observation)
    requires !IsDuplicate(s, l) && x in s.observations
    ensures !SameEvidence(x, s.epoch, ListEvidence(l))
  {
    var k :| 0 <= k < |s.observations| && s.observations[k] == x;
  }

  lemma NewListIsNotBase(s: State, l: RevocationList, o: Observation)
    requires BoundInv(s) && !IsDuplicate(s, l) && o.evidence == ListEvidence(l)
    ensures !IsBase(s, o)
  {
    if s.snapshot.Some? {
      var b :| b in s.observations && IsBase(s, b) && b.accepted && b.certs == b.revokedSet;
      NewListHasNoRecord(s, l, b);
    }
  }

  /** A duplicate is already absorbed. */
  lemma DuplicateIsAbsorbed(s: State, l: RevocationList)
    requires BoundInv(s) && IsDuplicate(s, l)
    ensures Absorb(s, l.revoked, l.sequence) == s
  {
    var o := s.observations[LastEvidence(s.observations, s.epoch, ListEvidence(l))];
    assert RecordOk(s, o);
    assert s.denyUnion + l.revoked == s.denyUnion;
  }

  /* ---- Accepting a list ---- */

  /** What the checks establish before a list is accepted. */
  ghost predicate Acceptable(s: State, l: RevocationList) {
    && AuthenticList(l, s.issuer, s.keyId)
    && (s.hasFloor ==> s.floor <= l.sequence && (l.sequence == s.floor ==> l.revoked == s.accepted))
    && Required(s.observations, s.epoch, l.sequence) <= l.revoked
    && (!s.hasFloor ==> s.denyUnion <= l.revoked && s.maxObserved <= l.sequence)
    && (forall x :: x in s.observations && SameEvidence(x, s.epoch, ListEvidence(l)) ==> !x.fork)
  }

  function AcceptedState(s: State, l: RevocationList): State {
    Append(Reconcile(AcceptList(Absorb(s, l.revoked, l.sequence), l), l),
           ListObservation(s, l, false).(accepted := true))
  }

  /** Acceptance never moves the floor down or drops an accepted member. */
  lemma AcceptanceGrows(s: State, l: RevocationList)
    requires BoundInv(s) && Acceptable(s, l)
    ensures var t := AcceptedState(s, l);
            && t.hasFloor && t.floor == l.sequence && s.floor <= t.floor
            && t.accepted == l.revoked && s.accepted <= t.accepted
  {
    if s.hasFloor { RequiredCoversAccepted(s, l.sequence); }
  }

  /** The fields of an accepted state: what the acceptance keeps and sets. */
  ghost predicate Accepting(s: State, l: RevocationList, t: State) {
    && t.issuer == s.issuer && t.epoch == s.epoch && t.keyId == s.keyId && t.retired == s.retired
    && t.hasFloor && t.floor == l.sequence && t.accepted == l.revoked
    && (t.snapshot == Some(l) || (s.hasFloor && s.floor == l.sequence && t.snapshot == s.snapshot))
    && t.denyUnion == s.denyUnion + l.revoked && t.maxObserved == MaxInt(s.maxObserved, l.sequence)
    && t.observations == s.observations + [ListObservation(s, l, false).(accepted := true)]
  }

  lemma AcceptedIsAccepting(s: State, l: RevocationList)
    requires s.hasFloor && l.sequence == s.floor ==> l.revoked == s.accepted
    ensures Accepting(s, l, AcceptedState(s, l))
  {
  }

  lemma AcceptKeepsRecord(s: State, l: RevocationList, t: State, x: Observation)
    requires RecordOk(s, x) && Acceptable(s, l) && Accepting(s, l, t) && x in s.observations
    requires s.snapshot.Some? ==> s.hasFloor
    requires !s.hasFloor ==> s.floor == 0
    ensures RecordOk(t, x)
  {
    if t.snapshot != s.snapshot {
      assert t.snapshot == Some(l) && !OnFloorPath(t, x);
      if IsBase(t, x) { assert SameEvidence(x, s.epoch, ListEvidence(l)); }
    } else {
      assert IsBase(t, x) <==> IsBase(s, x);
      assert OnFloorPath(t, x) ==> OnFloorPath(s, x);
    }
  }

  lemma AcceptKeepsRecords(s: State, l: RevocationList, t: State)
    requires BoundInv(s) && Acceptable(s, l) && Accepting(s, l, t)
    ensures RecordsOk(t) && t.denyUnion <= Witnessed(t.observations) && HighWaterOk(t)
  {
    var o := ListObservation(s, l, false).(accepted := true);
    forall x | x in t.observations ensures RecordOk(t, x) {
      if x in s.observations {
        AcceptKeepsRecord(s, l, t, x);
      } else {
        AcceptedRecord(s, l, t);
      }
    }
    WitnessedConcat(s.observations, o);
    HighWaterAppend(s, t, o);
  }

  lemma AcceptedRecord(s: State, l: RevocationList, t: State)
    requires AuthenticList(l, s.issuer, s.keyId) && Accepting(s, l, t)
    ensures RecordOk(t, ListObservation(s, l, false).(accepted := true))
  {
  }

  lemma AcceptKeepsFlags(s: State, l: RevocationList)
    requires BoundInv(s) && Acceptable(s, l)
    ensures FlagsOk(AcceptedState(s, l))
    ensures BindingOk(AcceptedState(s, l), s.issuer, s.epoch)
  {
    AcceptanceGrows(s, l);
  }

  lemma AcceptKeepsFloor(s: State, l: RevocationList, t: State)
    requires s.hasFloor ==> s.snapshot.Some? && FloorOk(s)
    requires Acceptable(s, l) && Accepting(s, l, t)
    ensures t.snapshot.Some? && FloorOk(t)
  {
    var o := ListObservation(s, l, false).(accepted := true);
    if t.snapshot == Some(l) {
      assert o in t.observations && IsBase(t, o);
      assert forall x :: !OnFloorPath(t, x);
      assert FloorPathCerts(t) == {};
    } else {
      LoggedKeepsFloor(s, t, o);
    }
  }

  lemma AcceptKeepsInv(s: State, l: RevocationList)
    requires BoundInv(s) && Acceptable(s, l)
    ensures BoundInv(AcceptedState(s, l))
  {
    AcceptedIsAccepting(s, l);
    AcceptKeepsRecords(s, l, AcceptedState(s, l));
    AcceptKeepsFlags(s, l);
    AcceptKeepsFloor(s, l, AcceptedState(s, l));
  }

  /* ---- Lists ---- */

  /** A list that reaches acceptance passed every check. */
  lemma AcceptedListIsAcceptable(s: State, l: RevocationList, p: Policy, now: int)
    requires BoundInv(s) && AuthenticList(l, s.issuer, s.keyId)
    requires !SkipsList(s, l, p, now) && Fresh(l, p, now)
    requires !ListForks(Absorb(s, l.revoked, l.sequence), l)
    requires s.hasFloor ==> s.floor <= l.sequence
    requires !s.hasFloor ==> s.denyUnion <= l.revoked && s.maxObserved <= l.sequence
    ensures Acceptable(s, l)
  {
    forall x | x in s.observations && SameEvidence(x, s.epoch, ListEvidence(l)) ensures !x.fork {
      if !IsDuplicate(s, l) { NewListHasNoRecord(s, l, x); }
    }
  }

  /** The ways a list application can end. */
  datatype ListOutcome = Ignored | Flagged(forkSequence: int) | Recorded(o: Observation) | Accepted

  /** Whether `t` is what that ending makes of `s`. */
  ghost predicate EndsIn(s: State, l: RevocationList, t: State, outcome: ListOutcome) {
    match outcome
    case Ignored => t == s
    case Flagged(x) => IsDuplicate(s, l) && 0 <= x <= MAX_SAFE_INTEGER && t == s.(reconcile := true, forkSequence := x)
    case Recorded(o) =>
      && !IsDuplicate(s, l)
      && NewRecord(s, o) && Withheld(s, o) && o.evidence == ListEvidence(l) && !o.accepted
      && (t.forkSequence == s.forkSequence || o.fork)
      && FlagsFollow(s, o, t.reconcile, t.forkSequence, t.futureObserved)
      && t == Logged(s, o, t.reconcile, t.forkSequence, t.futureObserved)
    case Accepted => Acceptable(s, l) && t == AcceptedState(s, l)
  }

  /** The state that the fork checks see. */
  function Prepared(s: State, l: RevocationList, p: Policy, now: int): State {
    NoteFuture(Absorb(s, l.revoked, l.sequence), BeyondSkew(l.updatedAt, now, p.clockSkew))
  }

  predicate Accepts(s: State, l: RevocationList, p: Policy, now: int) {
    var n := Prepared(s, l, p, now);
    && !SkipsList(s, l, p, now) && Fresh(l, p, now) && !ListForks(n, l)
    && (if s.hasFloor then s.floor <= l.sequence
        else n.denyUnion <= l.revoked && n.maxObserved <= l.sequence)
  }

  lemma AcceptsOutcome(s: State, l: RevocationList, p: Policy, now: int)
    requires BoundInv(s) && AuthenticList(l, s.issuer, s.keyId) && Accepts(s, l, p, now)
    ensures Acceptable(s, l) && ReduceList(s, l, p, now) == AcceptedState(s, l)
  {
    AcceptedListIsAcceptable(s, l, p, now);
    if IsDuplicate(s, l) { DuplicateIsAbsorbed(s, l); }
  }

  lemma DuplicateOutcome(s: State, l: RevocationList, p: Policy, now: int)
    requires BoundInv(s) && AuthenticList(l, s.issuer, s.keyId)
    requires !SkipsList(s, l, p, now) && !Accepts(s, l, p, now) && IsDuplicate(s, l)
    ensures ReduceList(s, l, p, now)
            == if ListForks(s, l) then MarkFork(s, l.sequence) else s.(reconcile := true)
  {
    DuplicateIsAbsorbed(s, l);
    assert Prepared(s, l, p, now) == s;
  }

  lemma UnforkedBelowFloor(s: State, l: RevocationList)
    requires !ListForks(s, l) && s.hasFloor && l.sequence <= s.floor
    ensures l.revoked <= s.accepted
  {
  }

  /** A list that is not accepted is recorded as it is, or as a gap. */
  lemma ConcludeShape(m: State, o: Observation, l: RevocationList, current: bool)
    requires !(&& current && !o.fork
               && if m.hasFloor then m.floor <= l.sequence else m.denyUnion <= l.revoked && m.maxObserved <= l.sequence)
    ensures var t := ConcludeList(m, o, l, false, current);
            || t == Append(m.(reconcile := true), o.(gap := true))
            || (t == Append(m, o) && (o.fork || (m.hasFloor && l.sequence <= m.floor)))
  {
  }

  lemma RecordedOutcome(s: State, l: RevocationList, p: Policy, now: int)
    requires s.issuer != "" && BindingOk(s, s.issuer, s.epoch) && FlagsOk(s)
    requires AuthenticList(l, s.issuer, s.keyId)
    requires !SkipsList(s, l, p, now) && !Accepts(s, l, p, now) && !IsDuplicate(s, l)
    ensures var t := ReduceList(s, l, p, now);
            && |t.observations| > 0
            && var o := t.observations[|t.observations| - 1];
            && EndsIn(s, l, t, Recorded(o))
            && o.fork == ListForks(Prepared(s, l, p, now), l)
            && o.futureDated == BeyondSkew(l.updatedAt, now, p.clockSkew)
            && o.body == ListEvidence(l).Body() && (o.futureDated ==> t.futureObserved)
            && s.forkSequence <= t.forkSequence
  {
    var n := Prepared(s, l, p, now);
    var forks := ListForks(n, l);
    var m := if forks then MarkFork(n, l.sequence) else n;
    var o := ListObservation(s, l, BeyondSkew(l.updatedAt, now, p.clockSkew)).(fork := forks);
    var t := ConcludeList(m, o, l, false, Fresh(l, p, now));
    assert ReduceList(s, l, p, now) == t;
    ConcludeShape(m, o, l, Fresh(l, p, now));
    if !forks && n.hasFloor && l.sequence <= n.floor { UnforkedBelowFloor(n, l); }
    RecordedFlags(s, l, m, o, t);
  }

  lemma RecordedFlags(s: State, l: RevocationList, m: State, o: Observation, t: State)
    requires s.issuer != "" && BindingOk(s, s.issuer, s.epoch) && FlagsOk(s)
    requires AuthenticList(l, s.issuer, s.keyId) && !IsDuplicate(s, l)
    requires o == ListObservation(s, l, o.futureDated).(fork := o.fork)
    requires m == s.(denyUnion := s.denyUnion + o.revokedSet, maxObserved := MaxInt(s.maxObserved, o.sequence),
                     reconcile := m.reconcile, forkSequence := m.forkSequence, futureObserved := m.futureObserved)
    requires m.reconcile == (s.reconcile || o.futureDated || o.fork)
    requires m.futureObserved == (s.futureObserved || o.futureDated)
    requires m.forkSequence == if o.fork then MaxInt(MaxInt(s.forkSequence, s.floor), l.sequence) else s.forkSequence
    requires || t == Append(m.(reconcile := true), o.(gap := true))
             || (t == Append(m, o) && (o.fork || (s.hasFloor && l.sequence <= s.floor && l.revoked <= s.accepted)))
    ensures |t.observations| > 0
    ensures var x := t.observations[|t.observations| - 1];
            && EndsIn(s, l, t, Recorded(x)) && x.fork == o.fork && x.futureDated == o.futureDated
            && x.body == ListEvidence(l).Body() && (x.futureDated ==> t.futureObserved)
            && s.forkSequence <= t.forkSequence
  {
    RecordedShape(s, m, o, t);
  }

  lemma RecordedShape(s: State, m: State, o: Observation, t: State)
    requires t == Append(m, o) || t == Append(m.(reconcile := true), o.(gap := true))
    requires m == s.(denyUnion := s.denyUnion + o.revokedSet, maxObserved := MaxInt(s.maxObserved, o.sequence),
                     reconcile := m.reconcile, forkSequence := m.forkSequence, futureObserved := m.futureObserved)
    ensures |t.observations| > 0
    ensures t == Logged(s, t.observations[|t.observations| - 1], t.reconcile, t.forkSequence, t.futureObserved)
  {
  }

  /** An ending, with the reason for it. */
  ghost predicate Outcome(s: State, l: RevocationList, p: Policy, now: int, t: State, outcome: ListOutcome) {
    && EndsIn(s, l, t, outcome)
    && (outcome.Ignored? ==> SkipsList(s, l, p, now))
    && (outcome.Flagged? && !ListForks(s, l) ==> outcome.forkSequence == s.forkSequence)
    && (outcome.Flagged? || outcome.Recorded? ==>
          !SkipsList(s, l, p, now) && !Accepts(s, l, p, now) && s.forkSequence <= t.forkSequence)
    && (outcome.Recorded? ==> outcome.o.fork == ListForks(Prepared(s, l, p, now), l)
                              && outcome.o.futureDated == BeyondSkew(l.updatedAt, now, p.clockSkew)
                              && outcome.o.body == ListEvidence(l).Body()
                              && (outcome.o.futureDated ==> t.futureObserved))
    && (outcome.Accepted? ==> Accepts(s, l, p, now))
  }

  lemma FlaggedOutcome(s: State, l: RevocationList, p: Policy, now: int, t: State)
    requires BindingOk(s, s.issuer, s.epoch) && AuthenticList(l, s.issuer, s.keyId)
    requires !SkipsList(s, l, p, now) && !Accepts(s, l, p, now) && IsDuplicate(s, l)
    requires t == if ListForks(s, l) then MarkFork(s, l.sequence) else s.(reconcile := true)
    ensures Outcome(s, l, p, now, t, Flagged(t.forkSequence))
  {
  }

  lemma ReduceListOutcome(s: State, l: RevocationList, p: Policy, now: int) returns (outcome: ListOutcome)
    requires BoundInv(s) && AuthenticList(l, s.issuer, s.keyId)
    ensures Outcome(s, l, p, now, ReduceList(s, l, p, now), outcome)
  {
    var t := ReduceList(s, l, p, now);
    if SkipsList(s, l, p, now) {
      outcome := Ignored;
    } else if Accepts(s, l, p, now) {
      AcceptsOutcome(s, l, p, now);
      outcome := Accepted;
    } else if IsDuplicate(s, l) {
      DuplicateOutcome(s, l, p, now);
      FlaggedOutcome(s, l, p, now, t);
      outcome := Flagged(t.forkSequence);
    } else {
      RecordedOutcome(s, l, p, now);
      outcome := Recorded(t.observations[|t.observations| - 1]);
    }
  }

  lemma OutcomeKeepsInv(s: State, l: RevocationList, t: State, outcome: ListOutcome)
    requires BoundInv(s) && EndsIn(s, l, t, outcome)
    ensures BoundInv(t)
  {
    match outcome
    case Ignored =>
    case Flagged(x) => FlagsKeepInv(s, x);
    case Recorded(o) =>
      NewListIsNotBase(s, l, o);
      LoggedKeepsInv(s, o, t.reconcile, t.forkSequence, t.futureObserved);
    case Accepted => AcceptKeepsInv(s, l);
  }

  lemma ReduceListKeepsInv(s: State, l: RevocationList, p: Policy, now: int)
    requires BoundInv(s) && AuthenticList(l, s.issuer, s.keyId)
    ensures BoundInv(ReduceList(s, l, p, now))
  {
    var outcome := ReduceListOutcome(s, l, p, now);
    OutcomeKeepsInv(s, l, ReduceList(s, l, p, now), outcome);
  }

  /* ---- Pushes ---- */

  function PushAcceptedState(s: State, q: RevocationPush): State {
    var n := Absorb(s, q.revoked, q.sequence);
    Append(n.(accepted := n.accepted + q.revoked, floor := q.sequence,
              hasPreceding := false, precedingFloor := 0, precedingAccepted := {}),
           PushObservation(s, q, false).(accepted := true))
  }

  /** A push is accepted only on a clean, contiguous floor. */
  ghost predicate PushAcceptable(s: State, q: RevocationPush) {
    AuthenticPush(q, s.issuer, s.keyId) && s.hasFloor && !s.reconcile && q.sequence == s.floor + 1
  }

  lemma PushAcceptKeepsFloor(s: State, q: RevocationPush)
    requires BoundInv(s) && PushAcceptable(s, q)
    ensures FloorOk(PushAcceptedState(s, q))
  {
    var t := PushAcceptedState(s, q);
    var o := PushObservation(s, q, false).(accepted := true);
    var b :| b in s.observations && IsBase(s, b) && b.accepted && b.certs == b.revokedSet;
    assert b in t.observations && IsBase(t, b);
    forall k | t.snapshot.value.sequence < k <= t.floor
      ensures PushCount(t.observations, t.epoch, k) == 1
    {
      PushCountAppend(s.observations, o, s.epoch, k);
      if k == q.sequence {
        PushCountPositive(s.observations, s.epoch, k);
        assert forall x :: x in s.observations ==> RecordOk(s, x);
      }
    }
    PushAcceptFloorPath(s, q);
  }

  lemma PushAcceptFloorPath(s: State, q: RevocationPush)
    requires BoundInv(s) && PushAcceptable(s, q)
    ensures FloorPathCerts(PushAcceptedState(s, q)) == FloorPathCerts(s) + q.revoked
  {
    var t := PushAcceptedState(s, q);
    var o := PushObservation(s, q, false).(accepted := true);
    assert o in t.observations && OnFloorPath(t, o);
    forall c ensures c in FloorPathCerts(t) <==> c in FloorPathCerts(s) + q.revoked {
      if c in FloorPathCerts(s) {
        var x :| x in s.observations && OnFloorPath(s, x) && c in x.certs;
        assert x in t.observations && OnFloorPath(t, x);
      }
      if c in FloorPathCerts(t) && c !in q.revoked {
        var x :| x in t.observations && OnFloorPath(t, x) && c in x.certs;
        assert x in s.observations && RecordOk(s, x);
        assert OnFloorPath(s, x);
      }
    }
  }

  lemma PushAcceptKeepsInv(s: State, q: RevocationPush)
    requires BoundInv(s) && PushAcceptable(s, q)
    ensures BoundInv(PushAcceptedState(s, q))
  {
    var t := PushAcceptedState(s, q);
    var o := PushObservation(s, q, false).(accepted := true);
    forall x | x in t.observations ensures RecordOk(t, x) {
      if x in s.observations { assert RecordOk(s, x); }
    }
    WitnessedConcat(s.observations, o);
    HighWaterAppend(s, t, o);
    PushAcceptKeepsFloor(s, q);
  }

  datatype PushOutcome = PushIgnored | PushRecorded(o: Observation) | PushAccepted

  ghost predicate PushEndsIn(s: State, q: RevocationPush, t: State, outcome: PushOutcome) {
    match outcome
    case PushIgnored => t == s
    case PushRecorded(o) =>
      && NewRecord(s, o) && Withheld(s, o) && o.evidence == PushEvidence(q) && !o.accepted
      && (t.forkSequence == s.forkSequence || o.fork)
      && FlagsFollow(s, o, t.reconcile, t.forkSequence, t.futureObserved)
      && t == Logged(s, o, t.reconcile, t.forkSequence, t.futureObserved)
    case PushAccepted => PushAcceptable(s, q) && t == PushAcceptedState(s, q)
  }

  /** A contradicting list lies within the sequence domain. */
  lemma OmissionBounded(s: State, q: RevocationPush)
    requires q.sequence > 0
    requires s.snapshot.Some? ==> s.snapshot.value.sequence <= MAX_SAFE_INTEGER
    requires forall o :: o in s.observations ==> o.sequence <= MAX_SAFE_INTEGER
    ensures 0 <= Omission(s, q) <= MAX_SAFE_INTEGER
  {
  }

  /** What the prepared state and record of a push agree on. */
  ghost predicate PushPrepared(s: State, q: RevocationPush, m: State, o: Observation) {
    && o == PushObservation(s, q, o.futureDated).(fork := o.fork)
    && m == s.(denyUnion := s.denyUnion + q.revoked, maxObserved := MaxInt(s.maxObserved, q.sequence),
               reconcile := m.reconcile, forkSequence := m.forkSequence, futureObserved := m.futureObserved)
    && m.reconcile == (s.reconcile || o.futureDated || o.fork)
    && m.futureObserved == (s.futureObserved || o.futureDated)
    && 0 <= m.forkSequence <= MAX_SAFE_INTEGER
    && (m.forkSequence > 0 ==> m.reconcile)
    && (!o.fork ==> m.forkSequence == s.forkSequence)
  }

  lemma PushIsPrepared(s: State, q: RevocationPush, p: Policy, now: int)
    requires s.issuer != "" && BindingOk(s, s.issuer, s.epoch) && FlagsOk(s)
    requires forall o :: o in s.observations ==> o.sequence <= MAX_SAFE_INTEGER
    requires AuthenticPush(q, s.issuer, s.keyId)
    ensures var (m, o) := PreparedPush(s, q, p, now);
            && PushPrepared(s, q, m, o)
            && o.futureDated == BeyondSkew(q.pushedAt, now, p.clockSkew)
  {
    var future := BeyondSkew(q.pushedAt, now, p.clockSkew);
    var n := NoteFuture(Absorb(s, q.revoked, q.sequence), future);
    var m := if PushConflict(n.observations, n.epoch, q) then MarkFork(n, q.sequence) else n;
    OmissionBounded(m, q);
  }

  /** A recorded push in the form of a logged one. */
  lemma PushLogged(s: State, q: RevocationPush, m: State, o: Observation, t: State, x: Observation)
    requires s.issuer != "" && BindingOk(s, s.issuer, s.epoch) && FlagsOk(s)
    requires AuthenticPush(q, s.issuer, s.keyId) && PushPrepared(s, q, m, o)
    requires x == o.(fork := x.fork, gap := x.gap)
    requires t == Append(m.(reconcile := t.reconcile, forkSequence := t.forkSequence), x)
    requires m.reconcile ==> t.reconcile
    requires t.forkSequence > 0 ==> t.reconcile
    requires 0 <= t.forkSequence <= MAX_SAFE_INTEGER
    requires t.reconcile || (s.hasFloor && q.sequence <= s.floor && q.revoked <= s.accepted)
    requires t.forkSequence == s.forkSequence || x.fork
    requires x.gap || x.fork || (s.hasFloor && q.sequence <= s.floor)
    ensures PushEndsIn(s, q, t, PushRecorded(x))
  {
  }

  lemma ConcludePushOutcome(s: State, q: RevocationPush, m: State, o: Observation) returns (outcome: PushOutcome)
    requires s.issuer != "" && BindingOk(s, s.issuer, s.epoch) && FlagsOk(s)
    requires AuthenticPush(q, s.issuer, s.keyId) && PushPrepared(s, q, m, o)
    ensures PushEndsIn(s, q, ConcludePush(m, o, q, o.futureDated), outcome)
    ensures !outcome.PushIgnored?
    ensures outcome.PushRecorded? ==> outcome.o.futureDated == o.futureDated
  {
    var t := ConcludePush(m, o, q, o.futureDated);
    if s.hasFloor && q.sequence == s.floor + 1 && !m.reconcile {
      outcome := PushAccepted;
    } else {
      var x := PushRecord(m, o, q);
      outcome := PushRecorded(x);
      PushLogged(s, q, m, o, t, x);
    }
  }

  /** What a push that is not accepted leaves: one record, and the flags. */
  ghost predicate PushLeaves(m: State, o: Observation, q: RevocationPush, t: State, x: Observation) {
    && x == o.(fork := x.fork, gap := x.gap)
    && t == Append(m.(reconcile := t.reconcile, forkSequence := t.forkSequence), x)
    && (m.reconcile ==> t.reconcile)
    && (o.fork ==> x.fork)
    && (x.gap || x.fork || (m.hasFloor && q.sequence <= m.floor))
    && (t.forkSequence == m.forkSequence
        || (x.fork && t.reconcile && t.forkSequence == MaxInt(MaxInt(m.forkSequence, m.floor), q.sequence)))
    && (t.reconcile || (m.hasFloor && q.sequence <= m.floor && q.revoked <= m.accepted))
  }

  lemma ForkedPushLeaves(m: State, o: Observation, q: RevocationPush)
    ensures PushLeaves(m, o, q, Append(MarkFork(m, q.sequence), o.(fork := true)), o.(fork := true))
  {
  }

  /** The record of a push that is not accepted. */
  lemma PushRecord(m: State, o: Observation, q: RevocationPush) returns (x: Observation)
    requires !(m.hasFloor && q.sequence == m.floor + 1 && !m.reconcile && !o.futureDated)
    ensures PushLeaves(m, o, q, ConcludePush(m, o, q, o.futureDated), x)
  {
    if m.hasFloor && q.sequence <= m.floor {
      x := PushRecordBelow(m, o, q);
    } else {
      x := o.(gap := !o.fork);
      assert ConcludePush(m, o, q, o.futureDated) == Append(m.(reconcile := true), x);
    }
  }

  lemma PushRecordBelow(m: State, o: Observation, q: RevocationPush) returns (x: Observation)
    requires m.hasFloor && q.sequence <= m.floor
    ensures PushLeaves(m, o, q, ConcludePush(m, o, q, o.futureDated), x)
  {
    var checkpoint := q.sequence == m.floor && m.hasPreceding && m.precedingFloor == q.sequence - 1;
    if !(q.revoked <= m.accepted) || (checkpoint && m.accepted != m.precedingAccepted + q.revoked) {
      x := o.(fork := true);
      ForkedPushLeaves(m, o, q);
    } else if q.sequence == m.floor {
      x := o.(gap := o.fork || o.gap);
    } else {
      x := o;
    }
  }

  lemma ReducePushIs(s: State, q: RevocationPush, p: Policy, now: int)
    requires q.sequence > 0 && !PushSeen(s.observations, s.epoch, q)
    ensures var (m, o) := PreparedPush(s, q, p, now);
            ReducePush(s, q, p, now) == ConcludePush(m, o, q, BeyondSkew(q.pushedAt, now, p.clockSkew))
  {
  }

  lemma ReducePushOutcome(s: State, q: RevocationPush, p: Policy, now: int) returns (outcome: PushOutcome)
    requires BoundInv(s) && AuthenticPush(q, s.issuer, s.keyId)
    ensures PushEndsIn(s, q, ReducePush(s, q, p, now), outcome)
    ensures outcome.PushIgnored? <==> PushSeen(s.observations, s.epoch, q)
    ensures outcome.PushRecorded? ==> outcome.o.futureDated == BeyondSkew(q.pushedAt, now, p.clockSkew)
  {
    if PushSeen(s.observations, s.epoch, q) {
      outcome := PushIgnored;
    } else {
      ReducePushIs(s, q, p, now);
      outcome := UnseenPushOutcome(s, q, p, now);
    }
  }

  lemma UnseenPushOutcome(s: State, q: RevocationPush, p: Policy, now: int) returns (outcome: PushOutcome)
    requires BoundInv(s) && AuthenticPush(q, s.issuer, s.keyId)
    ensures var (m, o) := PreparedPush(s, q, p, now);
            PushEndsIn(s, q, ConcludePush(m, o, q, BeyondSkew(q.pushedAt, now, p.clockSkew)), outcome)
    ensures !outcome.PushIgnored?
    ensures outcome.PushRecorded? ==> outcome.o.futureDated == BeyondSkew(q.pushedAt, now, p.clockSkew)
  {
    forall o | o in s.observations ensures o.sequence <= MAX_SAFE_INTEGER { assert RecordOk(s, o); }
    PushIsPrepared(s, q, p, now);
    var (m, o) := PreparedPush(s, q, p, now);
    outcome := ConcludePushOutcome(s, q, m, o);
  }

  lemma ReducePushKeepsInv(s: State, q: RevocationPush, p: Policy, now: int)
    requires BoundInv(s) && AuthenticPush(q, s.issuer, s.keyId)
    ensures BoundInv(ReducePush(s, q, p, now))
  {
    var t := ReducePush(s, q, p, now);
    var outcome := ReducePushOutcome(s, q, p, now);
    match outcome
    case PushIgnored =>
    case PushRecorded(x) => LoggedKeepsInv(s, x, t.reconcile, t.forkSequence, t.futureObserved);
    case PushAccepted => PushAcceptKeepsInv(s, q);
  }

  /** What no application undoes: binding, floor, accepted set, high-water
      mark and denials only grow, and the object's own set is denied. */
  ghost predicate Grows(s: State, t: State) {
    && t.issuer == s.issuer && t.epoch == s.epoch && t.keyId == s.keyId
    && (s.hasFloor ==> t.hasFloor)
    && s.floor <= t.floor
    && s.accepted <= t.accepted
    && s.maxObserved <= t.maxObserved
    && s.denyUnion <= t.denyUnion
  }

  lemma SkippedIsDenied(s: State, l: RevocationList, p: Policy, now: int)
    requires BoundInv(s) && SkipsList(s, l, p, now)
    ensures l.revoked <= s.denyUnion
  {
    var d := LastEvidence(s.observations, s.epoch, ListEvidence(l));
    var i := if d >= 0 then d else LastSameSet(s.observations, s.epoch, l);
    assert RecordOk(s, s.observations[i]);
  }

  lemma RecordedGrows(s: State, l: RevocationList, t: State, o: Observation)
    requires EndsIn(s, l, t, Recorded(o))
    ensures Grows(s, t) && l.revoked <= t.denyUnion
  {
    assert o.revokedSet == l.revoked;
  }

  lemma AcceptedGrows(s: State, l: RevocationList, t: State)
    requires BoundInv(s) && EndsIn(s, l, t, Accepted)
    ensures Grows(s, t) && l.revoked <= t.denyUnion
  {
    AcceptanceGrows(s, l);
    AcceptedIsAccepting(s, l);
  }

  lemma FlaggedGrows(s: State, l: RevocationList, t: State, x: int)
    requires BoundInv(s) && EndsIn(s, l, t, Flagged(x))
    ensures Grows(s, t) && l.revoked <= t.denyUnion
  {
    DuplicateIsAbsorbed(s, l);
  }

  lemma OutcomeGrows(s: State, l: RevocationList, t: State, outcome: ListOutcome)
    requires BoundInv(s) && EndsIn(s, l, t, outcome)
    requires outcome.Ignored? ==> l.revoked <= s.denyUnion
    ensures Grows(s, t) && l.revoked <= t.denyUnion
  {
    match outcome
    case Ignored =>
    case Flagged(x) => FlaggedGrows(s, l, t, x);
    case Recorded(o) => RecordedGrows(s, l, t, o);
    case Accepted => AcceptedGrows(s, l, t);
  }

  lemma ListGrows(s: State, l: RevocationList, p: Policy, now: int)
    requires BoundInv(s) && AuthenticList(l, s.issuer, s.keyId)
    ensures Grows(s, ReduceList(s, l, p, now)) && l.revoked <= ReduceList(s, l, p, now).denyUnion
  {
    var outcome := ReduceListOutcome(s, l, p, now);
    if outcome.Ignored? { SkippedIsDenied(s, l, p, now); }
    OutcomeGrows(s, l, ReduceList(s, l, p, now), outcome);
  }

  lemma PushGrows(s: State, q: RevocationPush, p: Policy, now: int)
    requires BoundInv(s) && AuthenticPush(q, s.issuer, s.keyId)
    ensures Grows(s, ReducePush(s, q, p, now)) && q.revoked <= ReducePush(s, q, p, now).denyUnion
  {
    var outcome := ReducePushOutcome(s, q, p, now);
    if outcome.PushIgnored? {
      var o :| o in s.observations && o.epoch == s.epoch && o.IsPush() && o.sequence == q.sequence
               && (o.evidence == PushEvidence(q) || o.body == PushEvidence(q).Body());
      assert RecordOk(s, o);
    }
  }
}

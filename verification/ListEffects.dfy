/** What a full list does to a state, said of the records, the floor and the
    list alone (status_state_v2.go:229-399): when it contradicts what was
    observed, when it is taken, and when it is withheld. */
module ListEffects {
  import opened StatusTypes
  import opened StatusCompaction
  import opened StatusReducer
  import opened ReducerInvariant
  import opened ReducerSteps

  /* ---- Freshness ---- */

  function FreshEnd(l: RevocationList, p: Policy): int { Min(l.nextUpdate, l.updatedAt + p.maxStatusAge) }

  /** A list within the policy's lifetime is fresh exactly from its date, less
      the skew, up to its next update or its greatest age. */
  lemma FreshExactly(l: RevocationList, p: Policy, now: int)
    requires ValidPolicy(p) && l.updatedAt < l.nextUpdate
    ensures Fresh(l, p, now) <==>
            && l.nextUpdate - l.updatedAt <= p.maxListLifetime && 0 < p.maxStatusAge
            && l.updatedAt - p.clockSkew <= now < FreshEnd(l, p)
  {
  }

  predicate Early(l: RevocationList, p: Policy, now: int) { now < l.updatedAt - p.clockSkew }

  /* ---- Contradictions ---- */

  /** Another set was listed at this sequence. */
  ghost predicate OtherSetListed(s: State, l: RevocationList) {
    exists o :: o in s.observations && o.epoch == s.epoch && o.IsList() && o.sequence == l.sequence
                && o.revokedSet != l.revoked
  }

  /** A revocation observed at this sequence or before is not in the list. */
  ghost predicate OmitsObserved(s: State, l: RevocationList) {
    exists o :: o in s.observations && o.epoch == s.epoch && o.sequence <= l.sequence && !(o.certs <= l.revoked)
  }

  /** At the floor the set is another one; below it, it has more. */
  predicate DiffersFromFloor(s: State, l: RevocationList) {
    s.hasFloor && ((l.sequence == s.floor && l.revoked != s.accepted)
                   || (l.sequence < s.floor && !(l.revoked <= s.accepted)))
  }

  /** Right after the floor the list is not the accepted set and the push of
      its sequence. */
  ghost predicate DiffersFromPush(s: State, l: RevocationList) {
    exists o :: o in s.observations && o.epoch == s.epoch && o.IsPush() && o.sequence == l.sequence
                && s.hasFloor && l.sequence == s.floor + 1 && l.revoked != s.accepted + o.certs
  }

  ghost predicate Contradicted(s: State, l: RevocationList) {
    OtherSetListed(s, l) || OmitsObserved(s, l) || DiffersFromFloor(s, l) || DiffersFromPush(s, l)
  }

  lemma ForksAreContradictions(s: State, l: RevocationList)
    ensures ListForks(s, l) <==> Contradicted(s, l)
  {
    if !(Required(s.observations, s.epoch, l.sequence) <= l.revoked) {
      var c :| c in Required(s.observations, s.epoch, l.sequence) && c !in l.revoked;
    }
    if OmitsObserved(s, l) {
      var o :| o in s.observations && o.epoch == s.epoch && o.sequence <= l.sequence && !(o.certs <= l.revoked);
      var c :| c in o.certs && c !in l.revoked;
      assert c in Required(s.observations, s.epoch, l.sequence);
    }
    if ContradictsPush(s, l) { PushContradicts(s, l); }
    if DiffersFromPush(s, l) {
      var o :| o in s.observations && o.epoch == s.epoch && o.IsPush() && o.sequence == l.sequence
               && s.hasFloor && l.sequence == s.floor + 1 && l.revoked != s.accepted + o.certs;
    }
  }

  lemma PushContradicts(s: State, l: RevocationList)
    requires ContradictsPush(s, l)
    ensures DiffersFromPush(s, l) || OmitsObserved(s, l)
  {
  }

  lemma ContradictionIgnoresFlags(s: State, n: State, l: RevocationList)
    requires n.observations == s.observations && n.epoch == s.epoch && n.hasFloor == s.hasFloor && n.floor == s.floor
    requires n.accepted == s.accepted
    ensures Contradicted(n, l) <==> Contradicted(s, l)
  {
  }

  /* ---- Effects ---- */

  /** What only an accepted object may change. */
  predicate FloorKept(s: State, t: State) {
    && t.issuer == s.issuer && t.epoch == s.epoch && t.keyId == s.keyId && t.retired == s.retired
    && t.hasFloor == s.hasFloor && t.floor == s.floor && t.snapshot == s.snapshot && t.accepted == s.accepted
    && t.hasPreceding == s.hasPreceding && t.precedingFloor == s.precedingFloor
    && t.precedingAccepted == s.precedingAccepted
  }

  /** The list is denied and counted, however it ends. */
  predicate Counted(s: State, l: RevocationList, t: State) {
    t.denyUnion == s.denyUnion + l.revoked && t.maxObserved == MaxInt(s.maxObserved, l.sequence)
  }

  /** The record of a list that was not taken. */
  function RecordOf(s: State, l: RevocationList, early: bool, fork: bool, gap: bool): Observation {
    Observation(s.epoch, s.keyId, l.sequence, ListEvidence(l), ListEvidence(l).Body(), l.revoked, l.revoked,
                early, fork, gap, false)
  }

  predicate AtOrBelowFloor(s: State, l: RevocationList) { s.hasFloor && l.sequence <= s.floor }

  ghost predicate OnFile(s: State, l: RevocationList) {
    exists o :: o in s.observations && o.epoch == s.epoch && o.IsList() && o.evidence == ListEvidence(l)
                && o.sequence == l.sequence
  }

  /** A fork: nothing is taken, reconciliation is needed up to the list. */
  ghost predicate Forked(s: State, l: RevocationList, p: Policy, now: int, t: State) {
    && FloorKept(s, t) && Counted(s, l, t) && t.reconcile
    && t.forkSequence == MaxInt(MaxInt(s.forkSequence, s.floor), l.sequence)
    && t.futureObserved == (s.futureObserved || Early(l, p, now))
    && t.observations == if OnFile(s, l) then s.observations
                         else s.observations + [RecordOf(s, l, Early(l, p, now), true,
                                                         !Fresh(l, p, now) && !AtOrBelowFloor(s, l))]
  }

  /** Withheld: nothing is taken, and above the floor there now is a gap. */
  ghost predicate WithheldAs(s: State, l: RevocationList, p: Policy, now: int, t: State) {
    && FloorKept(s, t) && Counted(s, l, t) && t.forkSequence == s.forkSequence
    && t.reconcile == (s.reconcile || Early(l, p, now) || !AtOrBelowFloor(s, l))
    && t.futureObserved == (s.futureObserved || Early(l, p, now))
    && t.observations == if OnFile(s, l) then s.observations
                         else s.observations + [RecordOf(s, l, Early(l, p, now), false, !AtOrBelowFloor(s, l))]
  }

  /** Whether the state's list stays, at the same sequence, before this one. */
  predicate KeepsSnapshot(s: State, l: RevocationList) {
    && s.hasFloor && l.sequence == s.floor && s.snapshot.Some? && s.snapshot.value.sequence == l.sequence
    && (l.updatedAt < s.snapshot.value.updatedAt
        || (l.updatedAt == s.snapshot.value.updatedAt && s.snapshot.value.digest <= l.digest))
  }

  /** The list ends the reconciliation: after the fork, with everything denied
      and observed. */
  predicate CatchesUp(s: State, l: RevocationList) {
    (s.forkSequence == 0 || s.forkSequence < l.sequence) && s.denyUnion <= l.revoked && s.maxObserved <= l.sequence
  }

  /** What acceptance does to the floor. */
  predicate FloorTaken(s: State, l: RevocationList, t: State) {
    && t.hasFloor && t.floor == l.sequence && t.accepted == l.revoked
    && t.snapshot == (if KeepsSnapshot(s, l) then s.snapshot else Some(l))
    && (if s.hasFloor && l.sequence == s.floor
        then t.hasPreceding == s.hasPreceding && t.precedingFloor == s.precedingFloor
             && t.precedingAccepted == s.precedingAccepted
        else if s.hasFloor && l.sequence == s.floor + 1
        then t.hasPreceding && t.precedingFloor == s.floor && t.precedingAccepted == s.accepted
        else !t.hasPreceding && t.precedingFloor == 0 && t.precedingAccepted == {})
  }

  /** What acceptance does to the reconciliation. */
  predicate Reconciled(s: State, l: RevocationList, t: State) {
    if s.reconcile && CatchesUp(s, l)
    then !t.reconcile && !t.futureObserved && t.forkSequence == 0
    else t.reconcile == s.reconcile && t.futureObserved == s.futureObserved && t.forkSequence == s.forkSequence
  }

  /** Taken: the floor is at the list, with its set. */
  ghost predicate Taken(s: State, l: RevocationList, t: State) {
    && t.issuer == s.issuer && t.epoch == s.epoch && t.keyId == s.keyId && t.retired == s.retired
    && Counted(s, l, t) && FloorTaken(s, l, t) && Reconciled(s, l, t)
    && t.observations == s.observations + [RecordOf(s, l, false, false, false).(accepted := true)]
  }

  /** The list may become the floor: it opens one with all that was denied and
      observed, or does not lie below the one there is. */
  predicate MayBeTaken(s: State, l: RevocationList) {
    if s.hasFloor then s.floor <= l.sequence else s.denyUnion <= l.revoked && s.maxObserved <= l.sequence
  }

  /** A list that is looked at forks exactly if it contradicts, is taken exactly
      if it does not, is fresh and may be, and is withheld otherwise. */
  ghost predicate Treated(s: State, l: RevocationList, p: Policy, now: int, t: State) {
    if Contradicted(s, l) then Forked(s, l, p, now, t)
    else if Fresh(l, p, now) && MayBeTaken(s, l) then Taken(s, l, t)
    else WithheldAs(s, l, p, now, t)
  }

  lemma OnFileIsDuplicate(s: State, l: RevocationList)
    ensures OnFile(s, l) <==> IsDuplicate(s, l)
  {
    if OnFile(s, l) {
      var o :| o in s.observations && o.epoch == s.epoch && o.IsList() && o.evidence == ListEvidence(l)
               && o.sequence == l.sequence;
      var i :| 0 <= i < |s.observations| && s.observations[i] == o;
      assert SameEvidence(s.observations[i], s.epoch, ListEvidence(l));
    }
  }

  lemma AcceptsExactly(s: State, l: RevocationList, p: Policy, now: int)
    requires BoundInv(s) && AuthenticList(l, s.issuer, s.keyId) && !SkipsList(s, l, p, now)
    ensures Accepts(s, l, p, now) <==> !Contradicted(s, l) && Fresh(l, p, now) && MayBeTaken(s, l)
  {
    var n := Prepared(s, l, p, now);
    ForksAreContradictions(n, l);
    ContradictionIgnoresFlags(s, n, l);
  }

  lemma AcceptListIs(s: State, n: State, l: RevocationList)
    requires s.hasFloor ==> s.snapshot.Some? && s.snapshot.value.sequence <= s.floor <= l.sequence
    requires s.hasFloor && l.sequence == s.floor ==> l.revoked == s.accepted
    requires n == s.(denyUnion := n.denyUnion, maxObserved := n.maxObserved)
    ensures var t := AcceptList(n, l);
            FloorTaken(s, l, t) && t == n.(hasPreceding := t.hasPreceding, precedingFloor := t.precedingFloor,
                                           precedingAccepted := t.precedingAccepted, snapshot := t.snapshot,
                                           accepted := t.accepted, hasFloor := t.hasFloor, floor := t.floor)
  {
  }

  lemma ReconcileIs(s: State, n: State, l: RevocationList)
    requires Counted(s, l, n)
    requires n.reconcile == s.reconcile && n.futureObserved == s.futureObserved && n.forkSequence == s.forkSequence
    ensures Reconciled(s, l, Reconcile(n, l))
    ensures var t := Reconcile(n, l);
            t == n.(reconcile := t.reconcile, futureObserved := t.futureObserved, forkSequence := t.forkSequence)
  {
  }

  lemma TakenIs(s: State, l: RevocationList)
    requires s.hasFloor ==> s.snapshot.Some? && s.snapshot.value.sequence <= s.floor <= l.sequence
    requires s.hasFloor && l.sequence == s.floor ==> l.revoked == s.accepted
    ensures Taken(s, l, AcceptedState(s, l))
  {
    var n := Absorb(s, l.revoked, l.sequence);
    AcceptListIs(s, n, l);
    ReconcileIs(s, AcceptList(n, l), l);
  }

  lemma ReevaluatedIs(s: State, l: RevocationList, p: Policy, now: int)
    requires BoundInv(s) && AuthenticList(l, s.issuer, s.keyId) && ValidPolicy(p)
    requires !SkipsList(s, l, p, now) && IsDuplicate(s, l) && !Accepts(s, l, p, now)
    ensures !Early(l, p, now) && Fresh(l, p, now)
    ensures Contradicted(s, l) ==> Forked(s, l, p, now, ReduceList(s, l, p, now))
    ensures !Contradicted(s, l) ==> WithheldAs(s, l, p, now, ReduceList(s, l, p, now))
  {
    DuplicateOutcome(s, l, p, now);
    DuplicateIsAbsorbed(s, l);
    ForksAreContradictions(s, l);
    OnFileIsDuplicate(s, l);
    AcceptsExactly(s, l, p, now);
  }

  lemma RecordedIs(s: State, l: RevocationList, p: Policy, now: int)
    requires BoundInv(s) && AuthenticList(l, s.issuer, s.keyId) && ValidPolicy(p)
    requires !SkipsList(s, l, p, now) && !IsDuplicate(s, l) && !Accepts(s, l, p, now)
    ensures Contradicted(s, l) ==> Forked(s, l, p, now, ReduceList(s, l, p, now))
    ensures !Contradicted(s, l) ==> WithheldAs(s, l, p, now, ReduceList(s, l, p, now))
  {
    OnFileIsDuplicate(s, l);
    AcceptsExactly(s, l, p, now);
    ReduceNew(s, l, p, now);
    ClassifiedIs(s, l, p, now);
    var (m, o) := ClassifiedList(s, l, p, now);
    ConcludedExactly(m, o, l, Fresh(l, p, now));
    NewRecordIs(s, l, p, now, m, o.fork, ReduceList(s, l, p, now));
  }

  lemma ReduceNew(s: State, l: RevocationList, p: Policy, now: int)
    requires !SkipsList(s, l, p, now) && !IsDuplicate(s, l)
    ensures var (m, o) := ClassifiedList(s, l, p, now);
            ReduceList(s, l, p, now) == ConcludeList(m, o, l, false, Fresh(l, p, now))
  {
  }

  /** The state and the record of a new list after the fork checks. */
  lemma ClassifiedIs(s: State, l: RevocationList, p: Policy, now: int)
    requires !IsDuplicate(s, l) && ValidPolicy(p)
    ensures var (m, o) := ClassifiedList(s, l, p, now);
            && o.fork == Contradicted(s, l) && o == RecordOf(s, l, Early(l, p, now), o.fork, false)
            && m == s.(denyUnion := s.denyUnion + l.revoked, maxObserved := MaxInt(s.maxObserved, l.sequence),
                       reconcile := s.reconcile || Early(l, p, now) || o.fork,
                       futureObserved := s.futureObserved || Early(l, p, now),
                       forkSequence := if o.fork then MaxInt(MaxInt(s.forkSequence, s.floor), l.sequence)
                                       else s.forkSequence)
  {
    var n := NoteFuture(Absorb(s, l.revoked, l.sequence), BeyondSkew(l.updatedAt, now, p.clockSkew));
    ForksAreContradictions(n, l);
    ContradictionIgnoresFlags(s, n, l);
  }

  /** The shape of a new record that was not taken. */
  lemma NewRecordIs(s: State, l: RevocationList, p: Policy, now: int, m: State, fork: bool, t: State)
    requires !OnFile(s, l)
    requires m == s.(denyUnion := s.denyUnion + l.revoked, maxObserved := MaxInt(s.maxObserved, l.sequence),
                     reconcile := s.reconcile || Early(l, p, now) || fork,
                     futureObserved := s.futureObserved || Early(l, p, now),
                     forkSequence := if fork then MaxInt(MaxInt(s.forkSequence, s.floor), l.sequence)
                                     else s.forkSequence)
    requires var o := RecordOf(s, l, Early(l, p, now), fork, false);
             t == if AtOrBelowFloor(s, l) || (fork && Fresh(l, p, now)) then Append(m, o)
                  else Append(m.(reconcile := true), o.(gap := true))
    ensures fork ==> Forked(s, l, p, now, t)
    ensures !fork ==> WithheldAs(s, l, p, now, t)
  {
  }

  lemma ConcludedExactly(m: State, o: Observation, l: RevocationList, current: bool)
    requires !(current && !o.fork && MayBeTaken(m, l))
    ensures ConcludeList(m, o, l, false, current)
            == if AtOrBelowFloor(m, l) || (o.fork && current) then Append(m, o)
               else Append(m.(reconcile := true), o.(gap := true))
  {
  }

  /** Every list that is looked at is treated so. */
  lemma ListIsTreated(s: State, l: RevocationList, p: Policy, now: int)
    requires BoundInv(s) && AuthenticList(l, s.issuer, s.keyId) && ValidPolicy(p) && !SkipsList(s, l, p, now)
    ensures Treated(s, l, p, now, ReduceList(s, l, p, now))
  {
    AcceptsExactly(s, l, p, now);
    if Accepts(s, l, p, now) {
      AcceptsOutcome(s, l, p, now);
      TakenIs(s, l);
    } else if IsDuplicate(s, l) {
      ReevaluatedIs(s, l, p, now);
    } else {
      RecordedIs(s, l, p, now);
    }
  }

  /* ---- Known lists ---- */

  predicate IsOf(s: State, l: RevocationList, o: Observation) {
    o.epoch == s.epoch && o.IsList() && o.sequence == l.sequence && o.evidence == ListEvidence(l)
  }

  predicate HasSetOf(s: State, l: RevocationList, o: Observation) {
    o.epoch == s.epoch && o.IsList() && o.sequence == l.sequence && o.revokedSet == l.revoked
  }

  /** The last record of the list itself. */
  ghost predicate LastOf(s: State, l: RevocationList, i: int) {
    && 0 <= i < |s.observations| && IsOf(s, l, s.observations[i])
    && forall k :: i < k < |s.observations| ==> !IsOf(s, l, s.observations[k])
  }

  /** The last record of a list with its set at its sequence. */
  ghost predicate LastWithSet(s: State, l: RevocationList, i: int) {
    && 0 <= i < |s.observations| && HasSetOf(s, l, s.observations[i])
    && forall k :: i < k < |s.observations| ==> !HasSetOf(s, l, s.observations[k])
  }

  predicate BelowFloor(s: State, l: RevocationList) { s.hasFloor && l.sequence < s.floor }

  ghost predicate ForkOnFile(s: State, l: RevocationList) {
    exists o :: o in s.observations && o.epoch == s.epoch && o.sequence == l.sequence && o.fork
  }

  /** A record that waits for its time or for a gap to close returns when the
      list is fresh, unless a later floor or a fork has settled it. */
  ghost predicate Returns(s: State, l: RevocationList, p: Policy, now: int, o: Observation) {
    (o.futureDated || o.gap) && Fresh(l, p, now) && !BelowFloor(s, l) && !ForkOnFile(s, l)
  }

  /** A heartbeat of the floor: a later list with the accepted set, or the first
      one after pushes made the floor. */
  predicate Heartbeat(s: State, l: RevocationList, p: Policy, now: int, o: Observation) {
    && s.hasFloor && l.sequence == s.floor && s.snapshot.Some?
    && (if o.accepted
        then l.updatedAt > s.snapshot.value.updatedAt
             || (l.updatedAt == s.snapshot.value.updatedAt && l.digest < s.snapshot.value.digest)
        else s.snapshot.value.sequence < s.floor && Fresh(l, p, now))
  }

  /** Which lists are looked at: unknown ones, the list itself when it returns,
      and another list with a known set when its record is no fork and it
      returns or is a heartbeat. */
  ghost predicate LookedAt(s: State, l: RevocationList, p: Policy, now: int) {
    && (forall i :: LastOf(s, l, i) ==> !s.observations[i].accepted && Returns(s, l, p, now, s.observations[i]))
    && (!OnFile(s, l) ==> forall i :: LastWithSet(s, l, i) ==>
          var o := s.observations[i];
          !o.fork && if (o.futureDated || o.gap) && Fresh(l, p, now) then Returns(s, l, p, now, o)
                     else Heartbeat(s, l, p, now, o))
  }

  lemma LookedAtExactly(s: State, l: RevocationList, p: Policy, now: int)
    requires ValidPolicy(p)
    ensures SkipsList(s, l, p, now) <==> !LookedAt(s, l, p, now)
  {
    OnFileIsDuplicate(s, l);
    var d := LastEvidence(s.observations, s.epoch, ListEvidence(l));
    var j := LastSameSet(s.observations, s.epoch, l);
    if d >= 0 {
      assert LastOf(s, l, d);
      LastOfIsOne(s, l, d);
    } else if j >= 0 {
      NoLastOf(s, l);
      assert LastWithSet(s, l, j);
      LastWithSetIsOne(s, l, j);
    } else {
      NoLastOf(s, l);
      assert forall i :: !LastWithSet(s, l, i);
    }
  }

  lemma LastOfIsOne(s: State, l: RevocationList, d: int)
    requires LastOf(s, l, d)
    ensures forall i :: LastOf(s, l, i) ==> i == d
  {
  }

  lemma NoLastOf(s: State, l: RevocationList)
    requires !OnFile(s, l)
    ensures forall i :: !LastOf(s, l, i)
  {
  }

  lemma LastWithSetIsOne(s: State, l: RevocationList, j: int)
    requires LastWithSet(s, l, j)
    ensures forall i :: LastWithSet(s, l, i) ==> i == j
  {
  }

  /** A list application in full: a known list that is not looked at changes
      nothing, and any other one is treated as above. */
  lemma ListApplication(s: State, l: RevocationList, p: Policy, now: int)
    requires BoundInv(s) && AuthenticList(l, s.issuer, s.keyId) && ValidPolicy(p)
    ensures if LookedAt(s, l, p, now) then Treated(s, l, p, now, ReduceList(s, l, p, now))
            else ReduceList(s, l, p, now) == s
  {
    LookedAtExactly(s, l, p, now);
    if LookedAt(s, l, p, now) { ListIsTreated(s, l, p, now); }
  }
}

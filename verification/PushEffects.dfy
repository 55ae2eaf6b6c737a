/** What a push does to a state, said of the records, the floor and the push
    alone (status_state_v2.go:447-519). */
module PushEffects {
  import opened StatusTypes
  import opened StatusCompaction
  import opened StatusReducer
  import opened ReducerInvariant
  import opened ListEffects

  /** The push, or one with its body, is on record. */
  ghost predicate PushOnFile(s: State, q: RevocationPush) {
    exists o :: o in s.observations && o.epoch == s.epoch && o.IsPush() && o.sequence == q.sequence
                && (o.evidence == PushEvidence(q) || o.body == PushEvidence(q).Body())
  }

  /* ---- Contradictions ---- */

  /** Another push was signed for this sequence. */
  ghost predicate OtherPush(s: State, q: RevocationPush) {
    exists o :: o in s.observations && o.epoch == s.epoch && o.IsPush() && o.sequence == q.sequence
                && o.body != PushEvidence(q).Body()
  }

  /** The accepted list, or a withheld one after the floor, does not have what
      the push revoked before it. */
  ghost predicate OmittedAt(s: State, q: RevocationPush, sequence: int) {
    && q.sequence <= sequence
    && (|| (s.snapshot.Some? && s.snapshot.value.sequence == sequence && !(q.revoked <= s.snapshot.value.revoked))
        || exists o :: o in s.observations && o.epoch == s.epoch && o.IsList() && o.sequence == sequence > s.floor
                       && (o.fork || o.gap || o.futureDated) && !(q.revoked <= o.certs))
  }

  ghost predicate Omitted(s: State, q: RevocationPush) { exists sequence: int :: OmittedAt(s, q, sequence) }

  /** At or below the floor it revokes what is not accepted, or at a floor that
      a list set it is not what that list added. */
  predicate DiffersFromAccepted(s: State, q: RevocationPush) {
    && s.hasFloor && q.sequence <= s.floor
    && (|| !(q.revoked <= s.accepted)
        || (&& q.sequence == s.floor && s.hasPreceding && s.precedingFloor == s.floor - 1
            && s.accepted != s.precedingAccepted + q.revoked))
  }

  /* ---- Effects ---- */

  predicate PushEarly(q: RevocationPush, p: Policy, now: int) { now < q.pushedAt - p.clockSkew }

  function PushRecordOf(s: State, q: RevocationPush, early: bool, fork: bool, gap: bool): Observation {
    Observation(s.epoch, s.keyId, q.sequence, PushEvidence(q), PushEvidence(q).Body(), q.revoked, q.revoked,
                early, fork, gap, false)
  }

  predicate PushCounted(s: State, q: RevocationPush, t: State) {
    t.denyUnion == s.denyUnion + q.revoked && t.maxObserved == MaxInt(s.maxObserved, q.sequence)
  }

  /** The fork sequence covers the old one, the floor, the push and every list
      that omits it, and is one of them. */
  ghost predicate CoversFork(s: State, q: RevocationPush, sequence: int) {
    && s.forkSequence <= sequence && s.floor <= sequence && q.sequence <= sequence
    && (forall n :: OmittedAt(s, q, n) ==> n <= sequence)
    && (sequence in {s.forkSequence, s.floor, q.sequence} || OmittedAt(s, q, sequence))
  }

  ghost predicate PushForked(s: State, q: RevocationPush, p: Policy, now: int, t: State) {
    && FloorKept(s, t) && PushCounted(s, q, t) && t.reconcile && CoversFork(s, q, t.forkSequence)
    && t.futureObserved == (s.futureObserved || PushEarly(q, p, now))
    && t.observations == s.observations
                         + [PushRecordOf(s, q, PushEarly(q, p, now), true,
                                         s.hasFloor && q.sequence == s.floor && !DiffersFromAccepted(s, q))]
  }

  ghost predicate PushWithheld(s: State, q: RevocationPush, p: Policy, now: int, t: State) {
    var above := !(s.hasFloor && q.sequence <= s.floor);
    && FloorKept(s, t) && PushCounted(s, q, t) && t.forkSequence == s.forkSequence
    && t.reconcile == (s.reconcile || PushEarly(q, p, now) || above)
    && t.futureObserved == (s.futureObserved || PushEarly(q, p, now))
    && t.observations == s.observations + [PushRecordOf(s, q, PushEarly(q, p, now), false, above)]
  }

  ghost predicate PushTaken(s: State, q: RevocationPush, t: State) {
    && t.issuer == s.issuer && t.epoch == s.epoch && t.keyId == s.keyId && t.retired == s.retired
    && PushCounted(s, q, t) && t.hasFloor && t.floor == q.sequence && t.accepted == s.accepted + q.revoked
    && t.snapshot == s.snapshot && !t.hasPreceding && t.precedingFloor == 0 && t.precedingAccepted == {}
    && t.reconcile == s.reconcile && t.futureObserved == s.futureObserved && t.forkSequence == s.forkSequence
    && t.observations == s.observations + [PushRecordOf(s, q, false, false, false).(accepted := true)]
  }

  /** A new push forks exactly if it contradicts, is taken exactly if it does not,
      is due, and comes right after a floor that needs no reconciliation, and is
      withheld otherwise. */
  ghost predicate PushTreated(s: State, q: RevocationPush, p: Policy, now: int, t: State) {
    if OtherPush(s, q) || Omitted(s, q) || DiffersFromAccepted(s, q) then PushForked(s, q, p, now, t)
    else if s.hasFloor && q.sequence == s.floor + 1 && !s.reconcile && !PushEarly(q, p, now) then PushTaken(s, q, t)
    else PushWithheld(s, q, p, now, t)
  }

  /* ---- The omission ---- */

  lemma OmissionIs(s: State, m: State, q: RevocationPush)
    requires BoundInv(s) && q.sequence > 0 && (s.reconcile ==> m.reconcile)
    requires m.observations == s.observations && m.epoch == s.epoch && m.floor == s.floor && m.snapshot == s.snapshot
    ensures Omission(m, q) != 0 <==> Omitted(s, q)
    ensures Omission(m, q) != 0 ==> OmittedAt(s, q, Omission(m, q)) && q.sequence <= Omission(m, q)
    ensures forall n :: OmittedAt(s, q, n) ==> n <= Omission(m, q)
  {
    forall n | OmittedAt(s, q, n) ensures n <= Omission(m, q) { OmittedIsCovered(s, m, q, n); }
    if Omission(m, q) != 0 { OmissionOmits(s, m, q); }
  }

  lemma OmissionOmits(s: State, m: State, q: RevocationPush)
    requires q.sequence > 0 && Omission(m, q) != 0
    requires m.observations == s.observations && m.epoch == s.epoch && m.floor == s.floor && m.snapshot == s.snapshot
    ensures OmittedAt(s, q, Omission(m, q))
  {
  }

  lemma OmittedIsCovered(s: State, m: State, q: RevocationPush, n: int)
    requires BoundInv(s) && q.sequence > 0 && OmittedAt(s, q, n) && (s.reconcile ==> m.reconcile)
    requires m.observations == s.observations && m.epoch == s.epoch && m.floor == s.floor && m.snapshot == s.snapshot
    ensures n <= Omission(m, q)
  {
    if s.snapshot.Some? && s.snapshot.value.sequence == n && !(q.revoked <= s.snapshot.value.revoked) {
      OmissionAtLeastSnapshot(m, m.observations, q);
    } else {
      var o :| o in s.observations && o.epoch == s.epoch && o.IsList() && o.sequence == n > s.floor
               && (o.fork || o.gap || o.futureDated) && !(q.revoked <= o.certs);
      assert RecordOk(s, o);
      OmissionAtLeast(m, m.observations, q, o);
    }
  }

  lemma {:induction false} OmissionAtLeastSnapshot(s: State, obs: seq<Observation>, q: RevocationPush)
    requires q.sequence > 0 && s.snapshot.Some? && s.snapshot.value.sequence >= q.sequence
    requires !(q.revoked <= s.snapshot.value.revoked)
    ensures s.snapshot.value.sequence <= OmissionAmong(s, obs, q)
  {
    if obs != [] { OmissionAtLeastSnapshot(s, obs[..|obs| - 1], q); }
  }

  lemma {:induction false} OmissionAtLeast(s: State, obs: seq<Observation>, q: RevocationPush, o: Observation)
    requires q.sequence > 0 && o in obs && OmitsPush(s, o, q)
    ensures o.sequence <= OmissionAmong(s, obs, q)
  {
    var front, last := obs[..|obs| - 1], obs[|obs| - 1];
    assert obs == front + [last];
    if o != last { OmissionAtLeast(s, front, q, o); }
  }

  /* ---- Every push ---- */

  /** `m` and `o` are the prepared state and record, with or without a fork. */
  ghost predicate IsPrepared(s: State, q: RevocationPush, early: bool, fork: bool, m: State, o: Observation) {
    && o == PushRecordOf(s, q, early, fork, false)
    && m == s.(denyUnion := s.denyUnion + q.revoked, maxObserved := MaxInt(s.maxObserved, q.sequence),
               reconcile := s.reconcile || early || fork, futureObserved := s.futureObserved || early,
               forkSequence := m.forkSequence)
  }

  /** The state and the record of a new push after the fork checks. */
  lemma PreparedIs(s: State, q: RevocationPush, p: Policy, now: int)
    requires BoundInv(s) && q.sequence > 0 && ValidPolicy(p)
    ensures var (m, o) := PreparedPush(s, q, p, now); var fork := OtherPush(s, q) || Omitted(s, q);
            && IsPrepared(s, q, PushEarly(q, p, now), fork, m, o)
            && if fork then CoversFork(s, q, m.forkSequence) else m.forkSequence == s.forkSequence
  {
    var n := NoteFuture(Absorb(s, q.revoked, q.sequence), BeyondSkew(q.pushedAt, now, p.clockSkew));
    var conflict := PushConflict(n.observations, n.epoch, q);
    var m := if conflict then MarkFork(n, q.sequence) else n;
    assert conflict == OtherPush(s, q);
    OmissionIs(s, m, q);
    if conflict || Omission(m, q) != 0 { MarkedCovers(s, n, m, q, conflict, Omission(m, q)); }
  }

  lemma MarkedCovers(s: State, n: State, m: State, q: RevocationPush, conflict: bool, omitted: int)
    requires n.forkSequence == s.forkSequence && n.floor == s.floor
    requires m == if conflict then MarkFork(n, q.sequence) else n
    requires omitted != 0 <==> Omitted(s, q)
    requires omitted != 0 ==> OmittedAt(s, q, omitted) && q.sequence <= omitted
    requires forall k :: OmittedAt(s, q, k) ==> k <= omitted
    requires conflict || omitted != 0
    ensures CoversFork(s, q, (if omitted != 0 then MarkFork(m, omitted) else m).forkSequence)
  {
  }

  /** Where a push goes that differs from what was accepted. */
  lemma ConcludeDiffering(s: State, q: RevocationPush, early: bool, fork: bool, m: State, o: Observation)
    requires IsPrepared(s, q, early, fork, m, o) && DiffersFromAccepted(s, q)
    ensures ConcludePush(m, o, q, early) == Append(MarkFork(m, q.sequence), o.(fork := true))
  {
  }

  /** Where any other push goes that is not taken. */
  lemma ConcludeAgreeing(s: State, q: RevocationPush, early: bool, fork: bool, m: State, o: Observation)
    requires IsPrepared(s, q, early, fork, m, o) && !DiffersFromAccepted(s, q)
    requires !(s.hasFloor && q.sequence == s.floor + 1 && !m.reconcile && !early)
    ensures ConcludePush(m, o, q, early)
            == if s.hasFloor && (q.sequence < s.floor || (q.sequence == s.floor && !fork)) then Append(m, o)
               else Append(m.(reconcile := true), o.(gap := (s.hasFloor && q.sequence == s.floor) || !fork))
  {
  }

  lemma ConcludeTaking(s: State, q: RevocationPush, early: bool, m: State, o: Observation)
    requires IsPrepared(s, q, early, false, m, o) && m.forkSequence == s.forkSequence
    requires s.hasFloor && q.sequence == s.floor + 1 && !s.reconcile && !early
    ensures PushTaken(s, q, ConcludePush(m, o, q, early))
  {
  }

  lemma ForkCovers(s: State, q: RevocationPush, m: State, fork: bool)
    requires if fork then CoversFork(s, q, m.forkSequence) else m.forkSequence == s.forkSequence && !Omitted(s, q)
    requires m.floor == s.floor
    ensures CoversFork(s, q, MarkFork(m, q.sequence).forkSequence)
  {
    if !fork { forall n ensures !OmittedAt(s, q, n) {} }
  }

  lemma ConcludeIs(s: State, m: State, o: Observation, q: RevocationPush, p: Policy, now: int, fork: bool)
    requires fork == (OtherPush(s, q) || Omitted(s, q)) && IsPrepared(s, q, PushEarly(q, p, now), fork, m, o)
    requires if fork then CoversFork(s, q, m.forkSequence) else m.forkSequence == s.forkSequence
    ensures PushTreated(s, q, p, now, ConcludePush(m, o, q, PushEarly(q, p, now)))
  {
    var early := PushEarly(q, p, now);
    if DiffersFromAccepted(s, q) {
      ForkCovers(s, q, m, fork);
      ConcludeDiffering(s, q, early, fork, m, o);
    } else if s.hasFloor && q.sequence == s.floor + 1 && !m.reconcile && !early {
      ConcludeTaking(s, q, early, m, o);
    } else {
      ConcludeAgreeing(s, q, early, fork, m, o);
    }
  }

  /** A push application in full. */
  lemma PushApplication(s: State, q: RevocationPush, p: Policy, now: int)
    requires BoundInv(s) && AuthenticPush(q, s.issuer, s.keyId) && ValidPolicy(p)
    ensures if PushOnFile(s, q) then ReducePush(s, q, p, now) == s
            else PushTreated(s, q, p, now, ReducePush(s, q, p, now))
  {
    if !PushOnFile(s, q) {
      PreparedIs(s, q, p, now);
      var (m, o) := PreparedPush(s, q, p, now);
      ConcludeIs(s, m, o, q, p, now, o.fork);
    }
  }
}

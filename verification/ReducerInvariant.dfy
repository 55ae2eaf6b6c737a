/** The invariant of the reducer and its preservation by compaction. */
module ReducerInvariant {
  import opened StatusTypes
  import opened StatusCompaction
  import opened StatusReducer
  import opened CompactionProofs

  /** Every record is well formed, denied, below the high-water mark, and
      complete where later checks depend on it. */
  ghost predicate RecordOk(s: State, o: Observation) {
    && ObservationOk(o) && Withheld(s, o)
    && 0 < o.sequence <= MAX_SAFE_INTEGER
    && o.keyId != ""
    && "" !in o.revokedSet
    && o.revokedSet <= s.denyUnion
    && o.epoch <= s.epoch
    && (o.epoch == s.epoch ==> o.sequence <= s.maxObserved)
    && (IsBase(s, o) ==> !o.fork)
    && (Complete(s, o) ==> o.certs == o.revokedSet)
  }

  ghost predicate RecordsOk(s: State) {
    forall o :: o in s.observations ==> RecordOk(s, o)
  }

  /** The high-water mark is the sequence of a retained record. */
  ghost predicate HighWaterOk(s: State) {
    s.maxObserved > 0 ==> exists o :: o in s.observations && o.epoch == s.epoch && o.sequence == s.maxObserved
  }

  /** The reconciliation flag covers every reason to distrust the floor. */
  ghost predicate FlagsOk(s: State) {
    && (s.floor < s.maxObserved ==> s.reconcile)
    && (s.futureObserved ==> s.reconcile)
    && (s.forkSequence > 0 ==> s.reconcile)
    && (s.hasFloor && !s.reconcile ==> s.denyUnion <= s.accepted)
  }

  /** The base of the floor is retained with its whole set. */
  ghost predicate BaseRecorded(s: State) {
    exists o :: o in s.observations && IsBase(s, o) && o.accepted && o.certs == o.revokedSet
  }

  ghost predicate FloorOk(s: State)
    requires s.hasFloor ==> s.snapshot.Some?
  {
    s.hasFloor ==>
      && AuthenticList(s.snapshot.value, s.issuer, s.keyId)
      && s.floor <= s.maxObserved
      && BaseRecorded(s)
      && (forall q :: s.snapshot.value.sequence < q <= s.floor ==> PushCount(s.observations, s.epoch, q) == 1)
      && s.accepted == s.snapshot.value.revoked + FloorPathCerts(s)
  }

  ghost predicate BoundInv(s: State) {
    && s.issuer != ""
    && BindingOk(s, s.issuer, s.epoch)
    && RecordsOk(s)
    && s.denyUnion <= Witnessed(s.observations)
    && HighWaterOk(s)
    && FlagsOk(s)
    && FloorOk(s)
  }

  /** Holds of every state that the reducer produces. */
  ghost predicate Inv(s: State) {
    s == UNBOUND || BoundInv(s)
  }

  /** The invariant implies every validator clause except the fork marker. */
  lemma InvImpliesValid(s: State)
    requires BoundInv(s)
    ensures AcceptedOkButFork(s)
  {
    if s.hasFloor {
      var o :| o in s.observations && IsBase(s, o) && o.accepted && o.certs == o.revokedSet;
      assert RecordOk(s, o);
    }
  }

  lemma InvIsCompactable(s: State)
    requires BoundInv(s)
    ensures Compactable(s, s.observations) && Compactable(s, Sorted(s.observations))
  {
    forall o | o in s.observations
      ensures ObservationOk(o) && Withheld(s, o) && (IsBase(s, o) ==> !o.fork)
      ensures Complete(s, o) ==> o.certs == o.revokedSet && FullRecord(s, o)
    {
      assert RecordOk(s, o);
    }
  }

  /** The compacted list is the retained one up to a cleared gap. */
  lemma {:induction false} CompactedIsRetained(s: State)
    ensures var r := FoldAll(s, Sorted(s.observations)).retained;
            && |Compacted(s)| == |r|
            && forall i :: 0 <= i < |r| ==>
                 Compacted(s)[i] == r[i] || (ResolvesGap(s, r[i]) && Compacted(s)[i] == r[i].(gap := false))
  {
  }

  /** Every record of the compacted state is derived from a record before. */
  lemma CompactedRecords(s: State)
    requires BoundInv(s)
    ensures forall r :: r in Compacted(s) ==> RecordOk(s, r)
    ensures forall r :: r in Compacted(s) ==> exists o :: o in s.observations && Derived(r, o)
  {
    var sorted := Sorted(s.observations);
    InvIsCompactable(s);
    RetainedAreDerived(s, sorted);
    CompactedIsRetained(s);
    var retained := FoldAll(s, sorted).retained;
    forall r | r in Compacted(s)
      ensures RecordOk(s, r) && exists o :: o in s.observations && Derived(r, o)
    {
      var i :| 0 <= i < |retained| && Compacted(s)[i] == r;
      assert retained[i] in retained;
      var o :| o in sorted && Derived(retained[i], o);
      assert RecordOk(s, o);
    }
  }

  /** Every record before is covered by a compacted one. */
  lemma CompactedCovers(s: State, o: Observation)
    requires BoundInv(s) && o in s.observations
    ensures exists r :: r in Compacted(s) && Covers(s, r, o)
  {
    var sorted := Sorted(s.observations);
    InvIsCompactable(s);
    EveryObservationCovered(s, sorted);
    CompactedIsRetained(s);
    var retained := FoldAll(s, sorted).retained;
    var x :| x in retained && Covers(s, x, o);
    var i :| 0 <= i < |retained| && retained[i] == x;
    var r := Compacted(s)[i];
    assert r in Compacted(s);
    CoverIgnoresGap(s, x, r, o);
  }

  lemma CoverIgnoresGap(s: State, x: Observation, r: Observation, o: Observation)
    requires Covers(s, x, o) && (r == x || r == x.(gap := false))
    ensures Covers(s, r, o)
  {
  }

  lemma CompactedWitnesses(s: State)
    ensures Witnessed(Compacted(s)) == Witnessed(s.observations)
  {
    var sorted := Sorted(s.observations);
    NothingUnwitnessed(s, sorted);
    CompactedIsRetained(s);
    var retained := FoldAll(s, sorted).retained;
    forall c
      ensures c in Witnessed(Compacted(s)) <==> c in Witnessed(retained)
    {
      if c in Witnessed(retained) {
        var x :| x in retained && c in x.certs;
        var i :| 0 <= i < |retained| && retained[i] == x;
        assert Compacted(s)[i] in Compacted(s);
      }
      if c in Witnessed(Compacted(s)) {
        var x :| x in Compacted(s) && c in x.certs;
        var i :| 0 <= i < |retained| && Compacted(s)[i] == x;
        assert retained[i] in retained;
      }
    }
    assert Witnessed(sorted) == Witnessed(s.observations);
  }

  lemma {:induction false} CompactedPushCountAtMost(s: State, q: int)
    ensures PushCount(Compacted(s), s.epoch, q) <= PushCount(s.observations, s.epoch, q)
  {
    var sorted := Sorted(s.observations);
    PushCountSorted(s.observations, s.epoch, q);
    PushCountFold(s, sorted, s.epoch, q);
    GapsDoNotCount(s, FoldAll(s, sorted).retained, q);
  }

  lemma {:induction false} GapsDoNotCount(s: State, obs: seq<Observation>, q: int)
    ensures PushCount(ClearBaseGap(s, obs), s.epoch, q) == PushCount(obs, s.epoch, q)
  {
    PushCountPointwise(ClearBaseGap(s, obs), obs, s.epoch, q);
  }

  lemma {:induction false} CompactedPushCount(s: State, q: int)
    requires BoundInv(s)
    requires PushCount(s.observations, s.epoch, q) == 1
    ensures PushCount(Compacted(s), s.epoch, q) == 1
  {
    CompactedPushCountAtMost(s, q);
    PushCountPositive(s.observations, s.epoch, q);
    var o :| o in s.observations && Counts(o, s.epoch, q);
    var r := CoveringPush(s, o);
    PushCountPositive(Compacted(s), s.epoch, q);
  }

  /** The compacted record of an accepted push. */
  lemma CoveringPush(s: State, o: Observation) returns (r: Observation)
    requires BoundInv(s) && o in s.observations && Counts(o, s.epoch, o.sequence)
    ensures r in Compacted(s) && Counts(r, s.epoch, o.sequence)
    ensures r.body == o.body
  {
    CompactedCovers(s, o);
    r :| r in Compacted(s) && Covers(s, r, o);
  }

  lemma CompactedFloorPath(s: State)
    requires BoundInv(s)
    ensures FloorPathCerts(Compact(s)) == FloorPathCerts(s)
  {
    var t := Compact(s);
    CompactedRecords(s);
    forall c | c in FloorPathCerts(s) ensures c in FloorPathCerts(t) {
      var o :| o in s.observations && OnFloorPath(s, o) && c in o.certs;
      CompactedCovers(s, o);
      var r :| r in t.observations && Covers(s, r, o);
      assert OnFloorPath(t, r) && c in r.certs;
    }
    forall c | c in FloorPathCerts(t) ensures c in FloorPathCerts(s) {
      var r :| r in t.observations && OnFloorPath(t, r) && c in r.certs;
      PushCountPositive(t.observations, s.epoch, r.sequence);
      AcceptedPushHasSource(s, r);
    }
  }

  /** An accepted push on the floor path comes from an accepted push with the
      same set. */
  lemma AcceptedPushHasSource(s: State, r: Observation)
    requires BoundInv(s) && s.hasFloor && r in Compacted(s) && OnFloorPath(s, r)
    ensures exists o :: o in s.observations && OnFloorPath(s, o) && o.certs == r.certs
  {
    var q := r.sequence;
    assert PushCount(s.observations, s.epoch, q) == 1;
    PushCountPositive(s.observations, s.epoch, q);
    var o :| o in s.observations && Counts(o, s.epoch, q);
    var x := CoveringPush(s, o);
    CompactedPushCount(s, q);
    OnlyOne(Compacted(s), x, r, s.epoch, q);
    CompactedRecords(s);
    SameBodySameCerts(s, r, o);
  }

  lemma SameBodySameCerts(s: State, a: Observation, b: Observation)
    requires RecordOk(s, a) && RecordOk(s, b) && Complete(s, a) && Complete(s, b) && a.body == b.body
    ensures a.certs == b.certs
  {
  }

  /** Two counted pushes in a list that counts one are the same. */
  lemma {:induction false} OnlyOne(obs: seq<Observation>, a: Observation, b: Observation, epoch: int, q: int)
    requires a in obs && b in obs && Counts(a, epoch, q) && Counts(b, epoch, q)
    requires PushCount(obs, epoch, q) == 1
    ensures a == b
  {
    var front, o := obs[..|obs| - 1], obs[|obs| - 1];
    assert obs == front + [o];
    PushCountPositive(front, epoch, q);
    if !Counts(o, epoch, q) {
      OnlyOne(front, a, b, epoch, q);
    }
  }

  /** Compaction keeps the whole invariant. */
  lemma CompactKeepsInv(s: State)
    requires BoundInv(s)
    ensures BoundInv(Compact(s))
  {
    var t := Compact(s);
    CompactedRecords(s);
    forall o | o in t.observations ensures RecordOk(t, o) {
      assert RecordOk(s, o);
    }
    CompactedWitnesses(s);
    if s.maxObserved > 0 {
      var o :| o in s.observations && o.epoch == s.epoch && o.sequence == s.maxObserved;
      CompactedCovers(s, o);
    }
    if s.hasFloor {
      CompactKeepsFloor(s);
    }
  }

  lemma CompactKeepsFloor(s: State)
    requires BoundInv(s) && s.hasFloor
    ensures FloorOk(Compact(s))
  {
    var t := Compact(s);
    var o :| o in s.observations && IsBase(s, o) && o.accepted && o.certs == o.revokedSet;
    CompactedCovers(s, o);
    var r :| r in t.observations && Covers(s, r, o);
    CompactedRecords(s);
    assert RecordOk(s, r) && RecordOk(s, o);
    assert IsBase(t, r) && r.accepted && r.certs == r.revokedSet;
    forall q | s.snapshot.value.sequence < q <= s.floor
      ensures PushCount(t.observations, t.epoch, q) == 1
    {
      CompactedPushCount(s, q);
    }
    CompactedFloorPath(s);
  }

  /** Compaction neither loses nor invents a fork marker. */
  lemma CompactKeepsForkMarker(s: State)
    requires BoundInv(s)
    ensures ForkRecorded(Compact(s)) <==> ForkRecorded(s)
  {
    var t := Compact(s);
    if ForkRecorded(s) {
      var o :| o in s.observations && o.epoch == s.epoch && o.fork;
      CompactedCovers(s, o);
    }
    if ForkRecorded(t) {
      var r :| r in t.observations && r.epoch == t.epoch && r.fork;
      CompactedRecords(s);
      var o :| o in s.observations && Derived(r, o);
    }
  }
}

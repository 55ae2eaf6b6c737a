/** A journal that the store can hold and a status object that the reducer
    applies to it, but whose commit is refused: a list that arrives before its
    date, arrives again in time, and is followed by an early heartbeat with the
    same set.  The heartbeat displaces the record of the accepted list. */
module EarlyHeartbeat {
  import opened StatusTypes
  import opened StatusCompaction
  import opened StatusReducer
  import opened ReducerInvariant
  import opened ReducerSteps
  import opened ReducerRuns
  import opened ForkMarker
  import opened JournalTransitions

  /** A list of sequence 1 revoking "a", dated at 1000. */
  const FIRST: RevocationList := RevocationList("i", "k", 1, 1000, 2000, {"a"}, 5, 0)
  /** A heartbeat with the same set, dated at 5000, whose digests sort first. */
  const HEARTBEAT: RevocationList := RevocationList("i", "k", 1, 5000, 6000, {"a"}, 0, 1)

  function FirstRecord(): Observation { ListObservation(Configured("i", "k"), FIRST, true).(gap := true) }

  function AcceptedRecord(): Observation { ListObservation(Configured("i", "k"), FIRST, false).(accepted := true) }

  /** After the list arrived before its date. */
  function AfterFirst(): State {
    Configured("i", "k").(denyUnion := {"a"}, observations := [FirstRecord()], maxObserved := 1, reconcile := true,
                          futureObserved := true)
  }

  /** After it arrived again in time and was accepted. */
  function InForce(): State {
    Configured("i", "k").(denyUnion := {"a"}, observations := [FirstRecord(), AcceptedRecord()], maxObserved := 1,
                          hasFloor := true, floor := 1, snapshot := Some(FIRST), accepted := {"a"})
  }

  lemma FirstReduces()
    ensures ReduceList(Configured("i", "k"), FIRST, HOUR, 0) == AfterFirst()
  {
    var s := Configured("i", "k");
    var n := Prepared(s, FIRST, HOUR, 0);
    assert Required(n.observations, 1, 1) == {};
    assert !ListForks(n, FIRST);
    WithheldWithoutFloor(s, FIRST, HOUR, 0);
    assert n.denyUnion == {"a"};
    assert [] + [FirstRecord()] == [FirstRecord()];
  }

  lemma FirstIsWithheld()
    ensures Next(Configured("i", "k"), ListOp(FIRST, "i", 1, "k", HOUR, 0)) == AfterFirst()
  {
    ConfiguredIsBound();
    FirstIsAuthentic();
    BoundListApplies(Configured("i", "k"), FIRST, HOUR, 0);
    FirstReduces();
    CompactOne(AfterFirst(), FirstRecord());
  }

  lemma FirstIsAuthentic()
    ensures AuthenticList(FIRST, "i", "k")
  {
  }

  lemma FirstIsReevaluated()
    ensures IsDuplicate(AfterFirst(), FIRST) && !SkipsList(AfterFirst(), FIRST, HOUR, 1000)
  {
    var s := AfterFirst();
    assert s.observations[0] == FirstRecord() && SameEvidence(FirstRecord(), 1, ListEvidence(FIRST));
    assert LastEvidence(s.observations, 1, ListEvidence(FIRST)) == 0;
  }

  lemma FirstIsAcceptable()
    ensures Accepts(AfterFirst(), FIRST, HOUR, 1000)
  {
    var s := AfterFirst();
    FirstIsReevaluated();
    var n := Prepared(s, FIRST, HOUR, 1000);
    forall c | c in Required(n.observations, 1, 1) ensures c in {"a"} {
      var o :| o in n.observations && o.epoch == 1 && o.sequence <= 1 && c in o.certs;
      assert o == FirstRecord();
    }
    assert !ListForks(n, FIRST);
    assert n.denyUnion == {"a"};
  }

  lemma CompactBase(s: State, a: Observation, b: Observation)
    requires s.observations == [a, b] && IsBase(s, a) && IsBase(s, b) && !s.reconcile && s.snapshot.Some?
    requires !Before(b, a) && KeyOf(a) != KeyOf(b) && !a.accepted && b.accepted && !b.futureDated && !b.gap
    ensures Compact(s) == s
  {
    SortTwo(a, b);
    FoldTwo(s, a, b);
    ClearsNothing(s, a, b);
  }

  lemma {:induction false} ClearsNothing(s: State, a: Observation, b: Observation)
    requires !ResolvesGap(s, a) && ResolvesGap(s, b) && !b.gap
    ensures ClearBaseGap(s, [a, b]) == [a, b]
  {
    assert [a, b][1..] == [b] && [b][1..] == [];
    assert ClearBaseGap(s, [b]) == [b];
  }

  lemma AcceptedIsInForce()
    ensures AcceptedState(AfterFirst(), FIRST) == InForce()
  {
    var s := AfterFirst();
    var n := Absorb(s, FIRST.revoked, 1);
    assert n.denyUnion == {"a"};
    assert n == s;
    assert AcceptList(n, FIRST) == s.(hasFloor := true, floor := 1, snapshot := Some(FIRST), accepted := {"a"});
    assert [FirstRecord()] + [AcceptedRecord()] == [FirstRecord(), AcceptedRecord()];
  }

  lemma InForceIsCompact()
    ensures Compact(InForce()) == InForce()
  {
    CompactBase(InForce(), FirstRecord(), AcceptedRecord());
  }

  lemma FirstIsAccepted()
    requires BoundInv(AfterFirst())
    ensures Next(AfterFirst(), ListOp(FIRST, "i", 1, "k", HOUR, 1000)) == InForce()
  {
    FirstIsAcceptable();
    AcceptsOutcome(AfterFirst(), FIRST, HOUR, 1000);
    BoundListApplies(AfterFirst(), FIRST, HOUR, 1000);
    AcceptedIsInForce();
    InForceIsCompact();
  }

  lemma HeartbeatIsEvaluated()
    ensures !IsDuplicate(InForce(), HEARTBEAT) && !SkipsList(InForce(), HEARTBEAT, HOUR, 1000)
  {
    var s := InForce();
    assert s.observations[0] == FirstRecord() && s.observations[1] == AcceptedRecord();
    assert LastSameSet(s.observations, 1, HEARTBEAT) == 1;
  }

  lemma HeartbeatDisplaces()
    ensures DisplacesBase(InForce(), HEARTBEAT, HOUR, 1000)
  {
    var s := InForce();
    HeartbeatIsEvaluated();
    var n := Prepared(s, HEARTBEAT, HOUR, 1000);
    forall c | c in Required(n.observations, 1, 1) ensures c in {"a"} {
      var o :| o in n.observations && o.epoch == 1 && o.sequence <= 1 && c in o.certs;
      assert o == FirstRecord() || o == AcceptedRecord();
    }
    assert !ListForks(n, HEARTBEAT);
    assert s.observations[0] in s.observations && IsBase(s, FirstRecord());
  }

  lemma WithheldIsBound()
    ensures BoundInv(AfterFirst())
  {
    var s := Configured("i", "k");
    FirstIsWithheld();
    assert Initial(s);
    InitialInv(s);
    NextKeepsInv(s, ListOp(FIRST, "i", 1, "k", HOUR, 0));
  }
}

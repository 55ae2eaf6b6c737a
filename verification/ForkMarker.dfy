/** When the fork-marker clause of the state validator survives a step.

    The clause does not always survive: an exact duplicate that was withheld is
    evaluated again, and when it is then found to be a fork it is not appended
    a second time (status_state_v2.go:313-318).  If no other fork is on record
    the state says that a fork is unresolved without a record of one. */
module ForkMarker {
  import opened StatusTypes
  import opened StatusCompaction
  import opened StatusReducer
  import opened ReducerInvariant
  import opened ReducerSteps
  import opened ReducerRuns

  /** A withheld duplicate is evaluated again, now contradicts what was
      observed since, and no fork is on record. */
  predicate UnrecordedFork(s: State, l: RevocationList, p: Policy, now: int) {
    IsDuplicate(s, l) && !SkipsList(s, l, p, now) && ListForks(s, l) && !ForkRecorded(s)
  }

  lemma MarkerAppend(s: State, t: State, o: Observation)
    requires ForkMarked(s) && t.epoch == s.epoch == o.epoch && t.observations == s.observations + [o]
    requires t.forkSequence > 0 ==> t.reconcile
    requires t.forkSequence == s.forkSequence || t.forkSequence == 0 || o.fork
    ensures ForkMarked(t)
  {
    if t.forkSequence > 0 {
      if o.fork {
        assert o in t.observations;
      } else {
        var x :| x in s.observations && x.epoch == s.epoch && x.fork;
        assert x in t.observations;
      }
    }
  }

  lemma OutcomeKeepsMarker(s: State, l: RevocationList, t: State, outcome: ListOutcome)
    requires BoundInv(s) && ForkMarked(s) && EndsIn(s, l, t, outcome) && !outcome.Flagged?
    ensures ForkMarked(t)
  {
    match outcome
    case Ignored =>
    case Recorded(o) => MarkerAppend(s, t, o);
    case Accepted =>
      MarkerAppend(s, t, ListObservation(s, l, false).(accepted := true));
  }

  lemma ListMarker(s: State, l: RevocationList, p: Policy, now: int)
    requires BoundInv(s) && ForkMarked(s) && AuthenticList(l, s.issuer, s.keyId)
    ensures ForkMarked(ReduceList(s, l, p, now)) <==> !UnrecordedFork(s, l, p, now)
  {
    var t := ReduceList(s, l, p, now);
    var outcome := ReduceListOutcome(s, l, p, now);
    if !SkipsList(s, l, p, now) && !Accepts(s, l, p, now) && IsDuplicate(s, l) {
      DuplicateOutcome(s, l, p, now);
    } else {
      if IsDuplicate(s, l) { DuplicateIsAbsorbed(s, l); }
      NotFlagged(s, l, p, now);
    }
  }

  lemma NotFlagged(s: State, l: RevocationList, p: Policy, now: int)
    requires BoundInv(s) && ForkMarked(s) && AuthenticList(l, s.issuer, s.keyId)
    requires SkipsList(s, l, p, now) || Accepts(s, l, p, now) || !IsDuplicate(s, l)
    ensures ForkMarked(ReduceList(s, l, p, now)) && !UnrecordedFork(s, l, p, now)
  {
    if SkipsList(s, l, p, now) {
    } else if Accepts(s, l, p, now) {
      AcceptsOutcome(s, l, p, now);
      OutcomeKeepsMarker(s, l, AcceptedState(s, l), Accepted);
      if IsDuplicate(s, l) {
        DuplicateIsAbsorbed(s, l);
        assert Prepared(s, l, p, now) == s;
      }
    } else {
      RecordedOutcome(s, l, p, now);
      var t := ReduceList(s, l, p, now);
      OutcomeKeepsMarker(s, l, t, Recorded(t.observations[|t.observations| - 1]));
    }
  }

  lemma PushMarker(s: State, q: RevocationPush, p: Policy, now: int)
    requires BoundInv(s) && ForkMarked(s) && AuthenticPush(q, s.issuer, s.keyId)
    ensures ForkMarked(ReducePush(s, q, p, now))
  {
    var outcome := ReducePushOutcome(s, q, p, now);
    PushOutcomeKeepsMarker(s, q, ReducePush(s, q, p, now), outcome);
  }

  lemma PushOutcomeKeepsMarker(s: State, q: RevocationPush, t: State, outcome: PushOutcome)
    requires BoundInv(s) && ForkMarked(s) && PushEndsIn(s, q, t, outcome)
    ensures ForkMarked(t)
  {
    match outcome
    case PushIgnored =>
    case PushRecorded(o) => MarkerAppend(s, t, o);
    case PushAccepted => MarkerAppend(s, t, PushObservation(s, q, false).(accepted := true));
  }

  /** The operation evaluates a withheld duplicate again and leaves an
      unrecorded fork. */
  predicate LeavesUnrecordedFork(s: State, op: Op) {
    match op
    case ListOp(l, issuer, epoch, key, policy, now) =>
      UnrecordedFork(Bind(s, issuer, epoch, key), l, policy, now)
    case _ => false
  }

  lemma ListValidExactly(n: State, l: RevocationList, p: Policy, now: int)
    requires BoundInv(n) && ForkMarked(n) && AuthenticList(l, n.issuer, n.keyId)
    ensures ForkMarked(Compact(ReduceList(n, l, p, now))) <==> !UnrecordedFork(n, l, p, now)
  {
    ListMarker(n, l, p, now);
    ReduceListKeepsInv(n, l, p, now);
    CompactKeepsForkMarker(ReduceList(n, l, p, now));
  }

  lemma PushStaysValid(n: State, q: RevocationPush, p: Policy, now: int)
    requires BoundInv(n) && ForkMarked(n) && AuthenticPush(q, n.issuer, n.keyId)
    ensures ForkMarked(Compact(ReducePush(n, q, p, now)))
  {
    PushMarker(n, q, p, now);
    ReducePushKeepsInv(n, q, p, now);
    CompactKeepsForkMarker(ReducePush(n, q, p, now));
  }

  /** The marker clause survives an operation exactly when it is not such a
      duplicate. */
  lemma MarkedExactly(s: State, op: Op)
    requires Inv(s) && ForkMarked(s) && Attempt(s, op).Success?
    ensures ForkMarked(Next(s, op)) <==> !LeavesUnrecordedFork(s, op)
  {
    match op
    case ListOp(l, issuer, epoch, key, policy, now) =>
      BindKeepsInv(s, issuer, epoch, key);
      ListValidExactly(Bind(s, issuer, epoch, key), l, policy, now);
    case PushOp(q, issuer, epoch, key, policy, now) =>
      BindKeepsInv(s, issuer, epoch, key);
      PushStaysValid(Bind(s, issuer, epoch, key), q, policy, now);
    case CompactOp => CompactKeepsForkMarker(s);
    case EpochOp(_, _, _) =>
  }

  /** A successful operation on a valid state gives a valid state exactly when
      it is not such a duplicate. */
  lemma ValidExactly(s: State, op: Op)
    requires Inv(s) && ForkMarked(s) && Attempt(s, op).Success?
    ensures BindingOk(Next(s, op), Next(s, op).issuer, Next(s, op).epoch)
    ensures AcceptedOk(Next(s, op)) <==> !LeavesUnrecordedFork(s, op)
  {
    NextKeepsInv(s, op);
    InvImpliesValid(Next(s, op));
    MarkedExactly(s, op);
  }

  /* ---- The clause does fail ---- */

  const HOUR: Policy := Policy(3600, 3600, 0)
  /** A list of sequence 5 revoking "a", dated at 1000. */
  const EARLY: RevocationList := RevocationList("i", "k", 5, 1000, 2000, {"a"}, 0, 0)
  /** A list of sequence 3 revoking "a" and "b", dated at 0. */
  const LOWER: RevocationList := RevocationList("i", "k", 3, 0, 900, {"a", "b"}, 0, 0)

  function EarlyRecord(): Observation {
    ListObservation(Configured("i", "k"), EARLY, true).(gap := true)
  }

  function LowerRecord(): Observation {
    ListObservation(Configured("i", "k"), LOWER, false).(gap := true)
  }

  /** After the first list arrived before its date. */
  function AfterEarly(): State {
    Configured("i", "k").(denyUnion := {"a"}, observations := [EarlyRecord()],
                          maxObserved := 5, reconcile := true, futureObserved := true)
  }

  /** After the second list arrived as well. */
  function AfterLower(): State {
    AfterEarly().(denyUnion := {"a", "b"}, observations := [LowerRecord(), EarlyRecord()])
  }

  lemma CompactOne(s: State, o: Observation)
    requires s.observations == [o] && FullRecord(s, o) && s.reconcile
    ensures Compact(s) == s
  {
    assert [o][..0] == [];
    assert Sorted([o]) == [o];
    assert FoldAll(s, []) == Fold([], {}, map[]);
    assert Narrow(s, Fold([], {}, map[]), o) == o;
    assert FoldAll(s, [o]).retained == [o];
  }

  lemma SortTwo(a: Observation, b: Observation)
    ensures Sorted([a, b]) == if Before(b, a) then [b, a] else [a, b]
  {
    assert [a, b][..1] == [a] && [a][..0] == [];
    assert Insert([], a) == [a] && Sorted([a]) == [a];
    assert Insert([], b) == [b];
    assert Sorted([a, b]) == Insert([a], b);
  }

  lemma {:induction false} FoldTwo(s: State, a: Observation, b: Observation)
    requires FullRecord(s, a) && FullRecord(s, b) && KeyOf(a) != KeyOf(b)
    ensures FoldAll(s, [a, b]).retained == [a, b]
  {
    assert [a, b][..1] == [a] && [a][..0] == [];
    assert FoldAll(s, []) == Fold([], {}, map[]);
    assert FoldAll(s, [a]).retained == [a] && FoldAll(s, [a]).seen == map[KeyOf(a) := 0];
    assert Narrow(s, FoldAll(s, [a]), b) == b;
  }

  lemma CompactTwo(s: State, a: Observation, b: Observation)
    requires s.observations == [a, b] && FullRecord(s, a) && FullRecord(s, b) && s.reconcile
    requires Before(b, a) && KeyOf(a) != KeyOf(b)
    ensures Compact(s) == s.(observations := [b, a])
  {
    SortTwo(a, b);
    FoldTwo(s, b, a);
  }

  /** A new list that cannot open a floor is recorded as a gap. */
  lemma {:induction false} WithheldWithoutFloor(s: State, l: RevocationList, p: Policy, now: int)
    requires !s.hasFloor
    requires LastEvidence(s.observations, s.epoch, ListEvidence(l)) < 0
    requires LastSameSet(s.observations, s.epoch, l) < 0
    requires !ListForks(Prepared(s, l, p, now), l)
    requires !Fresh(l, p, now) || l.sequence < s.maxObserved
    ensures ReduceList(s, l, p, now)
            == Append(Prepared(s, l, p, now).(reconcile := true),
                      ListObservation(s, l, BeyondSkew(l.updatedAt, now, p.clockSkew)).(gap := true))
  {
  }

  lemma EarlyReduces()
    ensures ReduceList(Configured("i", "k"), EARLY, HOUR, 0) == AfterEarly()
  {
    var s := Configured("i", "k");
    var n := Prepared(s, EARLY, HOUR, 0);
    assert Required(n.observations, 1, 5) == {};
    assert !ListForks(n, EARLY);
    WithheldWithoutFloor(s, EARLY, HOUR, 0);
    assert n.denyUnion == {"a"};
    assert [] + [EarlyRecord()] == [EarlyRecord()];
  }

  lemma ConfiguredIsBound()
    ensures var s := Configured("i", "k");
            s.issuer == "i" && s.epoch == 1 && s.keyId == "k" && BindingOk(s, "i", 1) && AuthenticList(EARLY, "i", "k")
  {
  }

  lemma EarlyArrives()
    ensures Next(Configured("i", "k"), ListOp(EARLY, "i", 1, "k", HOUR, 0)) == AfterEarly()
  {
    ConfiguredIsBound();
    BoundListApplies(Configured("i", "k"), EARLY, HOUR, 0);
    EarlyReduces();
    CompactOne(AfterEarly(), EarlyRecord());
  }

  lemma LowerReduces()
    ensures ReduceList(AfterEarly(), LOWER, HOUR, 0)
            == AfterLower().(observations := [EarlyRecord(), LowerRecord()])
  {
    var s := AfterEarly();
    var n := Prepared(s, LOWER, HOUR, 0);
    assert s.observations == [EarlyRecord()] && [EarlyRecord()][..0] == [];
    assert Required(n.observations, 1, 3) == {};
    assert !ListForks(n, LOWER);
    WithheldWithoutFloor(s, LOWER, HOUR, 0);
    assert n.denyUnion == {"a", "b"};
    assert [EarlyRecord()] + [LowerRecord()] == [EarlyRecord(), LowerRecord()];
  }

  lemma BoundListApplies(s: State, l: RevocationList, p: Policy, now: int)
    requires s.issuer != "" && BindingOk(s, s.issuer, s.epoch) && AuthenticList(l, s.issuer, s.keyId)
    requires ValidPolicy(p) && ValidTimestamp(now)
    ensures Attempt(s, ListOp(l, s.issuer, s.epoch, s.keyId, p, now)) == Success(Compact(ReduceList(s, l, p, now)))
  {
    assert Bind(s, s.issuer, s.epoch, s.keyId) == s;
  }

  lemma LowerArrives()
    ensures Next(AfterEarly(), ListOp(LOWER, "i", 1, "k", HOUR, 0)) == AfterLower()
  {
    BoundListApplies(AfterEarly(), LOWER, HOUR, 0);
    LowerReduces();
    CompactTwo(AfterLower().(observations := [EarlyRecord(), LowerRecord()]), EarlyRecord(), LowerRecord());
  }

  lemma EarlyIsReevaluated()
    ensures IsDuplicate(AfterLower(), EARLY) && !SkipsList(AfterLower(), EARLY, HOUR, 1000)
    ensures !ForkRecorded(AfterLower())
  {
    var s := AfterLower();
    assert s.observations[1] == EarlyRecord() && SameEvidence(EarlyRecord(), 1, ListEvidence(EARLY));
    assert LastEvidence(s.observations, 1, ListEvidence(EARLY)) == 1;
  }

  lemma EarlyContradicts()
    ensures ListForks(AfterLower(), EARLY)
  {
    var s := AfterLower();
    assert s.observations[0] in s.observations && "b" in LowerRecord().certs;
    assert "b" in Required(s.observations, 1, 5);
    assert "b"[0] != "a"[0];
    assert "b" !in EARLY.revoked;
  }

  /** The first list again, when its date has come. */
  lemma EarlyReturns()
    requires BoundInv(AfterLower())
    ensures var op := ListOp(EARLY, "i", 1, "k", HOUR, 1000); var t := Next(AfterLower(), op);
            && Attempt(AfterLower(), op).Success?
            && t.forkSequence > 0 && !ForkRecorded(t)
  {
    var s := AfterLower();
    EarlyIsReevaluated();
    EarlyContradicts();
    BoundListApplies(s, EARLY, HOUR, 1000);
    UnrecordedStays(s, EARLY, HOUR, 1000);
  }

  lemma UnrecordedStays(s: State, l: RevocationList, p: Policy, now: int)
    requires BoundInv(s) && AuthenticList(l, s.issuer, s.keyId) && UnrecordedFork(s, l, p, now)
    ensures var t := Compact(ReduceList(s, l, p, now)); t.forkSequence > 0 && !ForkRecorded(t)
  {
    DuplicateIsAbsorbed(s, l);
    assert Prepared(s, l, p, now) == s;
    DuplicateOutcome(s, l, p, now);
    var m := MarkFork(s, l.sequence);
    FlagsKeepInv(s, m.forkSequence);
    CompactKeepsForkMarker(m);
  }

  lemma {:induction false} RunOneMore(s: State, ops: seq<Op>, op: Op)
    ensures Run(s, ops + [op]) == Next(Run(s, ops), op)
  {
    assert (ops + [op])[..|ops|] == ops && (ops + [op])[|ops|] == op;
  }

  lemma {:induction false} RunThree(s: State, a: Op, b: Op, c: Op)
    ensures Run(s, [a, b]) == Next(Next(s, a), b)
    ensures Run(s, [a, b, c]) == Next(Next(Next(s, a), b), c)
  {
    RunOneMore(s, [], a);
    RunOneMore(s, [a], b);
    RunOneMore(s, [a, b], c);
    assert [] + [a] == [a] && [a] + [b] == [a, b] && [a, b] + [c] == [a, b, c];
  }

  function FailingRun(): seq<Op> {
    [ListOp(EARLY, "i", 1, "k", HOUR, 0), ListOp(LOWER, "i", 1, "k", HOUR, 0), ListOp(EARLY, "i", 1, "k", HOUR, 1000)]
  }

  /** The run whose last step breaks the clause: a list that arrives early, a
      lower list with one more revocation, then the first list again. */
  lemma MarkerClauseFails()
    ensures var s := Run(Configured("i", "k"), FailingRun());
            Initial(Configured("i", "k")) && s.forkSequence > 0 && !ForkRecorded(s)
  {
    var s := Configured("i", "k");
    var a, b := ListOp(EARLY, "i", 1, "k", HOUR, 0), ListOp(LOWER, "i", 1, "k", HOUR, 0);
    RunThree(s, a, b, ListOp(EARLY, "i", 1, "k", HOUR, 1000));
    EarlyArrives();
    LowerArrives();
    ReachableInv(s, [a, b]);
    EarlyReturns();
  }
}

/** Why a batch must be steady: two objects, each of which could be committed
    by itself, whose batch is refused.  The first ends the reconciliation, so
    that the compaction after it takes certificates from a withheld record that
    an earlier record names too; the second asks for reconciliation again, and
    with it for the whole record. */
module UnsteadyBatch {
  import opened StatusTypes
  import opened StatusCompaction
  import opened StatusReducer
  import opened CompactionProofs
  import opened CompactionKeys
  import opened ReducerInvariant
  import opened ReducerSteps
  import opened ForkMarker
  import opened SecurityJournal
  import opened EarlyHeartbeat

  /* ---- How a record loses its certificates ---- */

  /** What is left under the key names no certificate. */
  ghost predicate Emptied(obs: seq<Observation>, k: SemanticKey) {
    forall o :: o in obs && KeyOf(o) == k ==> o.certs == {}
  }

  lemma {:induction false} FoldEmpties(s: State, obs: seq<Observation>, k: SemanticKey)
    requires forall j :: 0 <= j < |obs| && KeyOf(obs[j]) == k ==> Narrow(s, FoldAll(s, obs[..j]), obs[j]).certs == {}
    ensures var f := FoldAll(s, obs); k in f.seen ==> f.retained[f.seen[k]].certs == {}
  {
    if obs != [] {
      var front, o := obs[..|obs| - 1], obs[|obs| - 1];
      forall j | 0 <= j < |front| && KeyOf(front[j]) == k
        ensures Narrow(s, FoldAll(s, front[..j]), front[j]).certs == {}
      {
        assert front[..j] == obs[..j] && front[j] == obs[j];
      }
      FoldEmpties(s, front, k);
      NarrowKeepsKey(s, FoldAll(s, front), o);
    }
  }

  lemma {:induction false} CompactionEmpties(m: State, k: SemanticKey)
    requires k.future
    requires var sorted := Sorted(m.observations);
             forall j :: 0 <= j < |sorted| && KeyOf(sorted[j]) == k ==>
               Narrow(m, FoldAll(m, sorted[..j]), sorted[j]).certs == {}
    ensures Emptied(Compacted(m), k)
  {
    var sorted := Sorted(m.observations);
    FoldEmpties(m, sorted, k);
    CompactedIsRetained(m);
    forall i | 0 <= i < |Compacted(m)| && KeyOf(Compacted(m)[i]) == k ensures Compacted(m)[i].certs == {} {
      CompactedKeys(m, i);
      FutureIsUnderItsKey(m, sorted, i);
    }
  }

  lemma StaysEmptied(m: State, k: SemanticKey)
    requires k.future && Emptied(m.observations, k)
    ensures Emptied(Compacted(m), k)
  {
    var sorted := Sorted(m.observations);
    forall j | 0 <= j < |sorted| && KeyOf(sorted[j]) == k
      ensures Narrow(m, FoldAll(m, sorted[..j]), sorted[j]).certs == {}
    {
      assert sorted[j] in m.observations;
    }
    CompactionEmpties(m, k);
  }

  /** Every record under the key may be narrowed, and a record that sorts
      before names everything that it names. */
  ghost predicate Coverable(m: State, x: Observation, k: SemanticKey) {
    && x in m.observations
    && forall o :: o in m.observations && KeyOf(o) == k ==> !FullRecord(m, o) && Before(x, o) && o.certs <= x.certs
  }

  lemma CoverableIsEmptied(m: State, x: Observation, k: SemanticKey)
    requires k.future && Coverable(m, x, k)
    ensures Emptied(Compacted(m), k)
  {
    var sorted := Sorted(m.observations);
    forall j | 0 <= j < |sorted| && KeyOf(sorted[j]) == k
      ensures Narrow(m, FoldAll(m, sorted[..j]), sorted[j]).certs == {}
    {
      assert sorted[j] in m.observations;
      var i :| 0 <= i < |sorted| && sorted[i] == x;
      assert i < j;
      assert x in sorted[..j];
      NothingUnwitnessed(m, sorted[..j]);
    }
    CompactionEmpties(m, k);
  }

  lemma EmptiedIsNotRetained(t: State, o: Observation)
    requires Emptied(t.observations, KeyOf(o)) && o.certs != {} && MustRetain(t, o)
    ensures !Retains(t, o)
  {
    var i := LastWithKey(t.observations, KeyOf(o));
    if i >= 0 { assert t.observations[i] in t.observations; }
  }

  /* ---- A push after a gap ---- */

  lemma NoPushAppears(m: State)
    requires BoundInv(m) && forall o :: o in m.observations ==> o.IsList()
    ensures forall r :: r in Compacted(m) ==> r.IsList()
  {
    CompactedRecords(m);
    forall r | r in Compacted(m) ensures r.IsList() {
      var o :| o in m.observations && Derived(r, o);
    }
  }

  lemma PushAfterGap(s: State, q: RevocationPush, p: Policy, now: int) returns (o: Observation)
    requires BoundInv(s) && AuthenticPush(q, s.issuer, s.keyId) && s.hasFloor && s.floor + 1 < q.sequence
    requires !PushSeen(s.observations, s.epoch, q)
    ensures var m := ReducePush(s, q, p, now);
            m.reconcile && m.observations == s.observations + [o] && m.epoch == s.epoch
    ensures o.IsPush()
  {
    var outcome := ReducePushOutcome(s, q, p, now);
    assert outcome.PushRecorded?;
    o := outcome.o;
  }

  /** An accepted list that ends the reconciliation, and then such a push. */
  lemma ThenPush(t: State, q: RevocationPush, p: Policy, now: int, prior: Observation)
    requires BoundInv(t) && AuthenticPush(q, t.issuer, t.keyId) && t.hasFloor && t.floor + 1 < q.sequence
    requires !PushSeen(t.observations, t.epoch, q)
    requires prior.epoch == t.epoch && prior.IsList() && prior.futureDated && prior.certs != {}
    requires Emptied(t.observations, KeyOf(prior))
    ensures !Retains(Compact(Compact(ReducePush(t, q, p, now))), prior)
  {
    var m := ReducePush(t, q, p, now);
    var o := PushAfterGap(t, q, p, now);
    assert KeyOf(o) != KeyOf(prior);
    StaysEmptied(m, KeyOf(prior));
    StaysEmptied(Compact(m), KeyOf(prior));
    EmptiedIsNotRetained(Compact(Compact(m)), prior);
  }

  /* ---- The run ---- */

  /** Lists that follow FIRST with the same set and date, and a push far ahead. */
  const SECOND: RevocationList := RevocationList("i", "k", 2, 1000, 2000, {"a"}, 5, 0)
  const THIRD: RevocationList := RevocationList("i", "k", 3, 1000, 2000, {"a"}, 5, 0)
  const AHEAD: RevocationPush := RevocationPush("i", "k", 9, 1000, {"b"}, 0, 0)

  function SecondRecord(): Observation { ListObservation(Configured("i", "k"), SECOND, true).(gap := true) }

  function AfterSecond(): State {
    AfterFirst().(observations := [FirstRecord(), SecondRecord()], maxObserved := 2)
  }

  lemma AreAuthentic()
    ensures AuthenticList(SECOND, "i", "k") && AuthenticList(THIRD, "i", "k") && AuthenticPush(AHEAD, "i", "k")
  {
  }

  lemma SecondReduces()
    ensures ReduceList(AfterFirst(), SECOND, HOUR, 0) == AfterSecond()
  {
    var s := AfterFirst();
    var n := Prepared(s, SECOND, HOUR, 0);
    assert s.observations == [FirstRecord()] && [FirstRecord()][..0] == [];
    assert Required(n.observations, 1, 2) <= {"a"};
    assert !ListForks(n, SECOND);
    WithheldWithoutFloor(s, SECOND, HOUR, 0);
    assert n.denyUnion == {"a"};
    assert [FirstRecord()] + [SecondRecord()] == [FirstRecord(), SecondRecord()];
  }

  lemma SecondIsCompact()
    ensures Compact(AfterSecond()) == AfterSecond()
  {
    SortTwo(FirstRecord(), SecondRecord());
    FoldTwo(AfterSecond(), FirstRecord(), SecondRecord());
  }

  lemma ThirdIsAcceptable()
    ensures Accepts(AfterSecond(), THIRD, HOUR, 1000)
  {
    var s := AfterSecond();
    var n := Prepared(s, THIRD, HOUR, 1000);
    assert s.observations == [FirstRecord(), SecondRecord()];
    forall c | c in Required(n.observations, 1, 3) ensures c in {"a"} {
      var o :| o in n.observations && o.epoch == 1 && o.sequence <= 3 && c in o.certs;
      assert o == FirstRecord() || o == SecondRecord();
    }
    assert !ListForks(n, THIRD);
    assert n.denyUnion == {"a"};
  }

  function ThirdState(): State { AcceptedState(AfterSecond(), THIRD) }

  lemma ThirdIs()
    ensures var m := ThirdState();
            && !m.reconcile && m.hasFloor && m.floor == 3 && m.snapshot == Some(THIRD) && m.epoch == 1
            && m.issuer == "i" && m.keyId == "k"
            && m.observations == [FirstRecord(), SecondRecord(),
                                  ListObservation(AfterSecond(), THIRD, false).(accepted := true)]
  {
    var n := Absorb(AfterSecond(), THIRD.revoked, 3);
    assert n.denyUnion == {"a"};
    assert AcceptList(n, THIRD).denyUnion == {"a"};
  }

  lemma SecondIsCoverable()
    ensures Coverable(ThirdState(), FirstRecord(), KeyOf(SecondRecord()))
  {
    ThirdIs();
    var m := ThirdState();
    forall o | o in m.observations && KeyOf(o) == KeyOf(SecondRecord())
      ensures !FullRecord(m, o) && Before(FirstRecord(), o) && o.certs <= FirstRecord().certs
    {
      assert o == SecondRecord();
    }
    assert m.observations[0] in m.observations;
  }

  lemma NoPushYet()
    requires BoundInv(ThirdState())
    ensures !PushSeen(Compact(ThirdState()).observations, 1, AHEAD)
  {
    AllAreLists();
    NoPushAppears(ThirdState());
  }

  lemma AllAreLists()
    ensures forall o :: o in ThirdState().observations ==> o.IsList()
  {
    ThirdIs();
  }

  /** The record of the second list is not retained. */
  lemma SecondIsLost()
    requires BoundInv(ThirdState())
    ensures var t := Compact(ReducePush(Compact(ThirdState()), AHEAD, HOUR, 1000)); !Retains(Compact(t), SecondRecord())
  {
    var t := Compact(ThirdState());
    ThirdIs();
    AreAuthentic();
    CompactKeepsInv(ThirdState());
    SecondIsCoverable();
    CoverableIsEmptied(ThirdState(), FirstRecord(), KeyOf(SecondRecord()));
    NoPushYet();
    ThenPush(t, AHEAD, HOUR, 1000, SecondRecord());
  }
}

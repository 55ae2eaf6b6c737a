/** The unsteady batch at a journal: neither object is refusable where it is
    applied, and the commit of the two is refused. */
module RefusedBatch {
  import opened StatusTypes
  import opened StatusCompaction
  import opened StatusReducer
  import opened ReducerInvariant
  import opened ReducerSteps
  import opened ForkMarker
  import opened SecurityJournal
  import opened CompareAndSwap
  import opened JournalRecords
  import opened JournalCommits
  import opened EarlyHeartbeat
  import opened RefusedHeartbeat
  import opened UnsteadyBatch
  import Writers = JournalWriters

  const WITHHELD: seq<Entry<Update>> :=
    CONFIGURED + [Entry(1, Arrival(FIRST, 0))] + [Entry(2, Arrival(SECOND, 0))]

  /** The batch of a status stage, in the order of its sequences. */
  const BATCH: Update :=
    Deliver("i", 1, "k", [ListEvidence(THIRD), PushEvidence(AHEAD)], HOUR, 1000, true, {})

  lemma SecondGoes()
    requires BoundInv(AfterFirst())
    ensures Goes(AfterFirst(), SECOND, 0, AfterSecond())
  {
    AreAuthentic();
    BoundListApplies(AfterFirst(), SECOND, HOUR, 0);
    SecondReduces();
    SecondIsCompact();
    SecondIsNew();
  }

  lemma SecondIsNew()
    ensures !IsRefusable(AfterFirst(), ListEvidence(SECOND), Arrival(SECOND, 0))
  {
    assert AfterFirst().observations == [FirstRecord()];
  }

  lemma WithheldLast()
    ensures EndsWith(WITHHELD, 3, AfterSecond())
  {
    ConfiguredFirst();
    FirstGoes();
    WithheldIsBound();
    SecondGoes();
    TwoArrivals(CONFIGURED, Configured("i", "k"), AfterFirst(), AfterSecond(), FIRST, 0, SECOND, 0);
  }

  /* ---- The batch ---- */

  function Between(): State { Compact(ThirdState()) }

  function Afterwards(): State { Compact(ReducePush(Between(), AHEAD, HOUR, 1000)) }

  lemma ThirdApplies()
    requires BoundInv(AfterSecond())
    ensures ApplyObject(AfterSecond(), ListEvidence(THIRD), BATCH) == Success(Between()) && BoundInv(ThirdState())
  {
    AreAuthentic();
    ThirdIsAcceptable();
    AcceptsOutcome(AfterSecond(), THIRD, HOUR, 1000);
    BoundListApplies(AfterSecond(), THIRD, HOUR, 1000);
    AcceptKeepsInv(AfterSecond(), THIRD);
  }

  lemma PushApplies(s: State, q: RevocationPush, now: int)
    requires BoundInv(s) && s.issuer == "i" && s.epoch == 1 && s.keyId == "k" && ValidTimestamp(now)
    requires AuthenticPush(q, "i", "k")
    ensures ApplyPush(s, q, "i", 1, "k", HOUR, now) == Success(Compact(ReducePush(s, q, HOUR, now)))
  {
    assert Bind(s, "i", 1, "k") == s;
  }

  lemma AheadApplies()
    requires BoundInv(ThirdState())
    ensures ApplyObject(Between(), PushEvidence(AHEAD), BATCH) == Success(Afterwards())
  {
    ThirdIs();
    AreAuthentic();
    CompactKeepsInv(ThirdState());
    PushApplies(Between(), AHEAD, 1000);
  }

  lemma {:induction false} EachOfTwo<S, E>(s: S, a: E, b: E, f: (S, E) -> Result<S>, m: S)
    requires f(s, a) == Success(m)
    ensures ApplyEach(s, [a, b], f) == f(m, b)
  {
    assert [a, b][..1] == [a] && [a][..0] == [];
    assert ApplyEach(s, [a], f) == Success(m);
  }

  lemma TwoObjects(s: State, a: Evidence, b: Evidence, u: Update, m: State)
    requires u.Deliver?
    ensures ApplyObject(s, a, u) == Success(m) ==> ApplyObjects(s, [a, b], u) == ApplyObject(m, b, u)
  {
    var f := Applier(u);
    assert f(s, a) == ApplyObject(s, a, u) && f(m, b) == ApplyObject(m, b, u);
    if f(s, a) == Success(m) { EachOfTwo(s, a, b, f, m); }
  }

  lemma BatchApplies()
    requires BoundInv(AfterSecond())
    ensures ApplyObjects(AfterSecond(), BATCH.objects, BATCH) == Success(Afterwards())
  {
    ThirdApplies();
    AheadApplies();
    TwoObjects(AfterSecond(), ListEvidence(THIRD), PushEvidence(AHEAD), BATCH, Between());
  }

  lemma PushIsNotRefusable(s: State, q: RevocationPush, u: Update)
    requires u.Deliver?
    ensures !IsRefusable(s, PushEvidence(q), u)
  {
  }

  /** A new list that is not early is not refusable. */
  lemma NewIsNotRefusable(s: State, l: RevocationList, u: Update)
    requires u.Deliver? && s.issuer != "" && !IsDuplicate(s, l) && !BeyondSkew(l.updatedAt, u.now, u.policy.clockSkew)
    ensures !IsRefusable(s, ListEvidence(l), u)
  {
  }

  lemma ThirdIsNew()
    ensures !IsDuplicate(AfterSecond(), THIRD)
  {
    assert AfterSecond().observations == [FirstRecord(), SecondRecord()];
  }

  lemma NeitherIsRefusable()
    ensures !IsRefusable(AfterSecond(), ListEvidence(THIRD), BATCH)
    ensures !IsRefusable(Between(), PushEvidence(AHEAD), BATCH)
  {
    ThirdIsNew();
    NewIsNotRefusable(AfterSecond(), THIRD, BATCH);
    PushIsNotRefusable(Between(), AHEAD, BATCH);
  }

  lemma BatchChanges(c: Content)
    requires c == One(AfterSecond()) && BoundInv(AfterSecond())
    ensures Change(c, BATCH) == Success(c.(states := c.states["i" := Afterwards()]))
  {
    BatchApplies();
    DeliveryGives(c, BATCH, Afterwards());
  }

  lemma DoesNotPass()
    requires BoundInv(AfterSecond())
    ensures !Passes(AfterSecond(), Compact(Afterwards()))
  {
    ThirdApplies();
    SecondIsLost();
    assert AfterSecond().observations[1] == SecondRecord();
    assert SecondRecord() in AfterSecond().observations;
  }

  /** The journal is one that the store can hold, the reducer applies both
      objects, neither is refusable, and the batch is refused. */
  lemma BatchFails()
    ensures var j := Sequential(Writers.JournalProtocol(), WITHHELD);
            && Change(j.content, BATCH).Success? && Propose(j, BATCH) == Refused
            && "i" in j.content.states && !IsRefusable(j.content.states["i"], BATCH.objects[0], BATCH)
            && var m := ApplyObject(j.content.states["i"], BATCH.objects[0], BATCH);
               m.Success? && !IsRefusable(m.value, BATCH.objects[1], BATCH)
  {
    var j := Sequential(Writers.JournalProtocol(), WITHHELD);
    WithheldLast();
    HistoryIsCommitted(WITHHELD);
    CommittedState(j, "i");
    BatchApplies();
    ThirdApplies();
    BatchChanges(j.content);
    NeitherIsRefusable();
    DoesNotPass();
    RefusedIs(j, BATCH, AfterSecond(), Afterwards(), j.content.(states := j.content.states["i" := Afterwards()]));
  }
}

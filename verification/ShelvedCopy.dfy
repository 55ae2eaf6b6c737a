/** A run in which the newest list of an honest feed arrives fresh and the
    verifier still does not catch up: a push has already moved the floor to its
    sequence, and a first copy arrived under a policy by which it was stale. */
module ShelvedCopy {
  import opened StatusTypes
  import opened StatusCompaction
  import opened StatusReducer
  import opened ReducerInvariant
  import opened ReducerSteps
  import opened ReducerRuns
  import opened ForkMarker
  import opened StatusPublisher
  import opened PublisherDelivery
  import opened PublisherConvergence

  /** Statuses may be one second old. */
  const STRICT: Policy := Policy(3600, 1, 0)

  const PUBLISHER: Publisher := Publisher("i", "k", 1000)
  const SIGNING: Signing := Signing(0, 0)

  /** The genesis list, and the push and the list that revoke "a" at 100. */
  const OPENING: RevocationList := RevocationList("i", "k", 1, 0, 1000, {}, 0, 0)
  const PUSHED: RevocationPush := RevocationPush("i", "k", 2, 100, {"a"}, 0, 0)
  const LATEST: RevocationList := RevocationList("i", "k", 2, 100, 1100, {"a"}, 0, 0)

  function TwoLists(): Feed {
    PublishAll(PUBLISHER, Opened(Genesis(PUBLISHER, 0, SIGNING).value), [Withdraw(["a"], 100, SIGNING, SIGNING)])
  }

  function Start(): Feed { Feed(PublisherState("i", "k", 1, 0, {}), [OPENING], [], [{}, {}]) }

  lemma StartIs()
    ensures Genesis(PUBLISHER, 0, SIGNING).Success? && Opened(Genesis(PUBLISHER, 0, SIGNING).value) == Start()
  {
  }

  lemma RevocationIs()
    ensures Revoke(PUBLISHER, Start().state, ["a"], 100, SIGNING, SIGNING)
            == Success(Publication(PublisherState("i", "k", 2, 100, {"a"}), LATEST, Some(PUSHED)))
  {
    var ids := ["a"];
    assert (set id | id in ids) == {"a"};
    assert {} + {"a"} == {"a"};
    assert Distinct(ids);
  }

  lemma FeedIs()
    ensures FeedOk(TwoLists()) && TwoLists().lists == [OPENING, LATEST] && TwoLists().pushes == [PUSHED]
    ensures TwoLists().state == PublisherState("i", "k", 2, 100, {"a"}) && Newest(TwoLists()) == LATEST
  {
    StartIs();
    GenesisOpens(PUBLISHER, 0, SIGNING);
    var act := Withdraw(["a"], 100, SIGNING, SIGNING);
    PublishedFeedOk(PUBLISHER, Start(), [act]);
    assert [act][..0] == [];
    RevocationIs();
    assert TwoLists() == Publish(PUBLISHER, Start(), act);
    assert [OPENING] + [LATEST] == [OPENING, LATEST] && [] + [PUSHED] == [PUSHED];
  }

  /* ---- The states of the run ---- */

  function Opener(): Observation { ListObservation(Configured("i", "k"), OPENING, false).(accepted := true) }

  function Pushed(): Observation { PushObservation(Configured("i", "k"), PUSHED, false).(accepted := true) }

  function Copy(): Observation { ListObservation(Configured("i", "k"), LATEST, false) }

  function AfterOpening(): State {
    Configured("i", "k").(hasFloor := true, floor := 1, snapshot := Some(OPENING), maxObserved := 1,
                          observations := [Opener()])
  }

  function AfterPush(): State {
    AfterOpening().(floor := 2, accepted := {"a"}, denyUnion := {"a"}, maxObserved := 2,
                    observations := [Opener(), Pushed()])
  }

  function AfterCopy(): State { AfterPush().(observations := [Opener(), Copy(), Pushed()]) }

  lemma {:induction false} ClearsFirst(s: State, rest: seq<Observation>, a: Observation)
    requires ResolvesGap(s, a) && !a.gap
    ensures ClearBaseGap(s, [a] + rest) == [a] + rest
  {
    assert ([a] + rest)[1..] == rest;
  }

  lemma CompactOpening()
    ensures Compact(AfterOpening()) == AfterOpening()
  {
    var s, a := AfterOpening(), Opener();
    assert [a][..0] == [];
    assert Sorted([a]) == [a];
    assert FoldAll(s, []) == Fold([], {}, map[]);
    assert FoldAll(s, [a]).retained == [a];
    ClearsFirst(s, [], a);
    assert [a] + [] == [a];
  }

  lemma CompactPush()
    ensures Compact(AfterPush()) == AfterPush()
  {
    var s, a, b := AfterPush(), Opener(), Pushed();
    SortTwo(a, b);
    FoldTwo(s, a, b);
    ClearsFirst(s, [b], a);
    assert [a] + [b] == [a, b];
    CompactedAs(s, [a, b]);
  }

  lemma SortThree(a: Observation, b: Observation, c: Observation)
    requires !Before(b, a) && Before(c, b) && !Before(c, a)
    ensures Sorted([a, b, c]) == [a, c, b]
  {
    SortTwo(a, b);
    assert [a, b, c][..2] == [a, b] && [a, b][..1] == [a] && [a][..0] == [];
    assert Insert([a], c) == [a, c];
    assert Insert([a, b], c) == [a, c] + [b];
  }

  /** A record with a new key and nothing to narrow is appended. */
  lemma {:induction false} FoldAppend(s: State, obs: seq<Observation>, o: Observation)
    requires FullRecord(s, o) || FoldAll(s, obs).witnessed == {}
    requires KeyOf(o) !in FoldAll(s, obs).seen
    ensures FoldAll(s, obs + [o]).retained == FoldAll(s, obs).retained + [o]
    ensures FoldAll(s, obs + [o]).witnessed == FoldAll(s, obs).witnessed + o.certs
    ensures FoldAll(s, obs + [o]).seen.Keys == FoldAll(s, obs).seen.Keys + {KeyOf(o)}
  {
    assert (obs + [o])[..|obs|] == obs && (obs + [o])[|obs|] == o;
    assert o.certs - {} == o.certs;
    assert Narrow(s, FoldAll(s, obs), o) == o;
  }

  lemma {:induction false} FoldThree(s: State, a: Observation, b: Observation, c: Observation)
    requires FullRecord(s, a) && a.certs == {} && FullRecord(s, c)
    requires KeyOf(a) != KeyOf(b) && KeyOf(b) != KeyOf(c) && KeyOf(a) != KeyOf(c)
    ensures FoldAll(s, [a, b, c]).retained == [a, b, c]
  {
    FoldAppend(s, [], a);
    assert [] + [a] == [a] && [a] + [b] == [a, b] && [a, b] + [c] == [a, b, c];
    FoldAppend(s, [a], b);
    FoldAppend(s, [a, b], c);
  }

  lemma CopyOrder()
    ensures var a, b, c := Opener(), Pushed(), Copy();
            && !Before(b, a) && Before(c, b) && !Before(c, a) && a.certs == {} && !a.gap
            && KeyOf(a) != KeyOf(b) && KeyOf(b) != KeyOf(c) && KeyOf(a) != KeyOf(c)
  {
  }

  lemma CopyRecords(s: State)
    requires s.epoch == 1 && s.floor == 2 && s.snapshot == Some(OPENING)
    ensures FullRecord(s, Opener()) && FullRecord(s, Pushed()) && ResolvesGap(s, Opener())
  {
  }

  lemma {:induction false} CompactedAs(s: State, obs: seq<Observation>)
    requires !s.reconcile && s.snapshot.Some?
    requires Sorted(s.observations) == obs && FoldAll(s, obs).retained == obs && ClearBaseGap(s, obs) == obs
    ensures Compact(s) == s.(observations := obs)
  {
  }

  lemma {:induction false} CopySorted(o: seq<Observation>, sorted: seq<Observation>)
    requires o == [Opener(), Pushed(), Copy()] && sorted == [Opener(), Copy(), Pushed()]
    ensures Sorted(o) == sorted
  {
    CopyOrder();
    SortThree(Opener(), Pushed(), Copy());
  }

  lemma {:induction false} CopyFolded(s: State, sorted: seq<Observation>)
    requires s.epoch == 1 && s.floor == 2 && s.snapshot == Some(OPENING) && sorted == [Opener(), Copy(), Pushed()]
    ensures FoldAll(s, sorted).retained == sorted && ClearBaseGap(s, sorted) == sorted
  {
    CopyOrder();
    CopyRecords(s);
    FoldThree(s, Opener(), Copy(), Pushed());
    ClearsFirst(s, [Copy(), Pushed()], Opener());
    assert sorted == [Opener()] + [Copy(), Pushed()];
  }

  lemma CompactCopy()
    ensures Compact(AfterPush().(observations := [Opener(), Pushed(), Copy()])) == AfterCopy()
  {
    var o, sorted := [Opener(), Pushed(), Copy()], [Opener(), Copy(), Pushed()];
    var s := AfterPush().(observations := o);
    CopySorted(o, sorted);
    CopyFolded(s, sorted);
    CompactedAs(s, sorted);
  }

  /* ---- The steps ---- */

  lemma OpeningReduces()
    ensures ReduceList(Configured("i", "k"), OPENING, HOUR, 100) == AfterOpening()
  {
    var s := Configured("i", "k");
    var n := Prepared(s, OPENING, HOUR, 100);
    assert Required(n.observations, 1, 1) == {};
    assert !ListForks(n, OPENING);
    assert n.denyUnion == {};
    assert Initial(s);
    InitialInv(s);
    AcceptsOutcome(s, OPENING, HOUR, 100);
    assert [] + [Opener()] == [Opener()];
  }

  lemma PushReduces()
    ensures ReducePush(AfterOpening(), PUSHED, HOUR, 100) == AfterPush()
  {
    var s := AfterOpening();
    assert s.observations[0] == Opener();
    assert !PushSeen(s.observations, 1, PUSHED);
    var n := Absorb(s, PUSHED.revoked, 2);
    assert NoteFuture(n, false) == n;
    assert !PushConflict(n.observations, 1, PUSHED);
    assert [Opener()][..0] == [] && Omission(n, PUSHED) == 0;
    assert PreparedPush(s, PUSHED, HOUR, 100) == (n, PushObservation(s, PUSHED, false));
    assert {} + {"a"} == {"a"};
    assert [Opener()] + [Pushed()] == [Opener(), Pushed()];
  }

  lemma CopyIsStale()
    ensures !SkipsList(AfterPush(), LATEST, STRICT, 500) && !IsDuplicate(AfterPush(), LATEST)
    ensures !ListForks(AfterPush(), LATEST)
  {
    var s := AfterPush();
    assert s.observations[0] == Opener() && s.observations[1] == Pushed();
    forall c | c in Required(s.observations, 1, 2) ensures c in {"a"} {
      var o :| o in s.observations && o.epoch == 1 && o.sequence <= 2 && c in o.certs;
      assert o == Opener() || o == Pushed();
    }
    forall o | o in s.observations && o.IsPush() ensures o.certs <= LATEST.revoked { assert o == Pushed(); }
  }

  lemma CopyReduces()
    ensures ReduceList(AfterPush(), LATEST, STRICT, 500) == AfterPush().(observations := [Opener(), Pushed(), Copy()])
  {
    var s := AfterPush();
    CopyIsStale();
    assert s.denyUnion + LATEST.revoked == {"a"};
    assert Absorb(s, LATEST.revoked, 2) == s && NoteFuture(s, false) == s;
    assert ClassifiedList(s, LATEST, STRICT, 500) == (s, Copy());
    assert [Opener(), Pushed()] + [Copy()] == [Opener(), Pushed(), Copy()];
  }

  function FailingDeliveries(): seq<Delivery> {
    [DeliverList(OPENING, HOUR, 100), DeliverPush(PUSHED, HOUR, 100), DeliverList(LATEST, STRICT, 500)]
  }

  lemma FeedIsInTime()
    ensures InTimeRun(TwoLists(), FailingDeliveries())
    ensures |TwoLists().lists| > 0 && IsFreshNewest(TwoLists(), DeliverList(LATEST, HOUR, 500))
  {
    FeedIs();
    assert OPENING in [OPENING, LATEST] && LATEST in [OPENING, LATEST] && PUSHED in [PUSHED];
  }

  lemma {:induction false} ReceiveNext(s: State, ds: seq<Delivery>, d: Delivery)
    ensures ReceiveAll(s, ds + [d]) == Receive(ReceiveAll(s, ds), d)
  {
    assert (ds + [d])[..|ds|] == ds && (ds + [d])[|ds|] == d;
  }

  lemma ReceiveOpening()
    ensures Receive(Configured("i", "k"), DeliverList(OPENING, HOUR, 100)) == AfterOpening()
  {
    ConfiguredIsBound();
    BoundListApplies(Configured("i", "k"), OPENING, HOUR, 100);
    OpeningReduces();
    CompactOpening();
  }

  lemma ReceivePush()
    requires BoundInv(AfterOpening())
    ensures Receive(AfterOpening(), DeliverPush(PUSHED, HOUR, 100)) == AfterPush()
  {
    BoundPushApplies(AfterOpening(), PUSHED, HOUR, 100);
    PushReduces();
    CompactPush();
  }

  lemma BoundPushApplies(s: State, q: RevocationPush, p: Policy, now: int)
    requires s.issuer != "" && BindingOk(s, s.issuer, s.epoch) && AuthenticPush(q, s.issuer, s.keyId)
    requires ValidPolicy(p) && ValidTimestamp(now)
    ensures Attempt(s, PushOp(q, s.issuer, s.epoch, s.keyId, p, now)) == Success(Compact(ReducePush(s, q, p, now)))
  {
    assert Bind(s, s.issuer, s.epoch, s.keyId) == s;
  }

  lemma ReceiveCopy()
    requires BoundInv(AfterPush())
    ensures Receive(AfterPush(), DeliverList(LATEST, STRICT, 500)) == AfterCopy()
  {
    BoundListApplies(AfterPush(), LATEST, STRICT, 500);
    CopyReduces();
    CompactCopy();
  }

  lemma {:induction false} BoundAfter(s: State, ds: seq<Delivery>)
    requires s == Configured("i", "k") && forall d :: d in ds ==> Published(TwoLists(), d)
    ensures BoundInv(ReceiveAll(s, ds))
  {
    FeedIs();
    ConfiguredIsNew(PUBLISHER, TwoLists());
    HonestFeedNeverForks(s, TwoLists(), ds);
  }

  lemma RunIs()
    ensures ReceiveAll(Configured("i", "k"), FailingDeliveries()) == AfterCopy()
  {
    var s, ds := Configured("i", "k"), FailingDeliveries();
    FeedIsInTime();
    ReceiveNext(s, [], ds[0]);
    ReceiveNext(s, [ds[0]], ds[1]);
    ReceiveNext(s, [ds[0], ds[1]], ds[2]);
    assert [] + [ds[0]] == [ds[0]] && [ds[0]] + [ds[1]] == [ds[0], ds[1]] && [ds[0], ds[1]] + [ds[2]] == ds;
    ReceiveOpening();
    BoundAfter(s, [ds[0]]);
    ReceivePush();
    BoundAfter(s, [ds[0], ds[1]]);
    ReceiveCopy();
  }

  lemma CopyIsShelved()
    ensures |TwoLists().lists| > 0 && Shelved(AfterCopy(), TwoLists())
  {
    FeedIs();
    assert AfterCopy().observations[1] == Copy() && Copy() in AfterCopy().observations;
  }

  /** The newest list arrives fresh at 500 and is passed over; at 1050 it is
      still fresh, the list in force is not, and a certificate that was never
      revoked is not reported as such. */
  lemma ConvergenceFails()
    ensures var f, s, d := TwoLists(), Configured("i", "k"), DeliverList(LATEST, HOUR, 500);
            && FeedOk(f) && NewEpoch(s, f) && InTimeRun(f, FailingDeliveries() + [d])
            && IsFreshNewest(f, d) && Fresh(Newest(f), HOUR, 1050)
            && !CaughtUp(ReceiveAll(s, FailingDeliveries() + [d]), f)
            && !AnswersExactly(ReceiveAll(s, FailingDeliveries() + [d]), f, "b", HOUR, 1050)
  {
    var f, s, d := TwoLists(), Configured("i", "k"), DeliverList(LATEST, HOUR, 500);
    FeedIs();
    FeedIsInTime();
    ConfiguredIsNew(PUBLISHER, f);
    RunIs();
    RunTracks(s, f, FailingDeliveries());
    ReceiveNext(s, FailingDeliveries(), d);
    PassedOver();
    assert "b"[0] != "a"[0];
    InForceIsStale();
  }

  lemma PassedOver()
    requires Ran(AfterCopy(), TwoLists())
    ensures var d := DeliverList(LATEST, HOUR, 500);
            && !CaughtUp(Receive(AfterCopy(), d), TwoLists())
            && Receive(AfterCopy(), d).snapshot == Some(OPENING)
  {
    var d := DeliverList(LATEST, HOUR, 500);
    FeedIs();
    FeedIsInTime();
    CopyIsShelved();
    NewestCatchesUpExactly(AfterCopy(), TwoLists(), d);
    ReceiveTracks(AfterCopy(), TwoLists(), d);
    SnapshotIsKept(AfterCopy(), TwoLists(), d);
  }

  lemma SnapshotIsKept(s: State, f: Feed, d: Delivery)
    requires FeedOk(f) && Ran(s, f) && IsFreshNewest(f, d) && Shelved(s, f)
    ensures Receive(s, d).snapshot == s.snapshot
  {
    assert Published(f, d);
    ReceiveIs(s, f, d);
    DuplicateIsRecorded(s, Newest(f));
    TheRecord(s, f);
  }

  lemma InForceIsStale()
    ensures forall t: State, f: Feed :: t.snapshot == Some(OPENING) && "b" !in f.state.revoked ==>
              !AnswersExactly(t, f, "b", HOUR, 1050)
  {
  }
}

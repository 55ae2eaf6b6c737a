/** The journals that the store can hold, and when a delivery to one issuer
    gives a valid next record: exactly when that issuer's state passes, since
    the compaction that a commit runs over the others never fails
    (security_journal_v2.go:283-376). */
module JournalRecords {
  import opened StatusTypes
  import opened StatusCompaction
  import opened StatusReducer
  import opened CompactionProofs
  import opened CompactionKeys
  import opened ReducerInvariant
  import opened ReducerSteps
  import opened SecurityJournal
  import opened CompareAndSwap
  import opened JournalTransitions
  import Writers = JournalWriters

  /* ---- Committed journals ---- */

  /** What holds of every journal that the store can hold. */
  ghost predicate Committed(j: Journal) {
    ValidJournal(j) && forall i :: Maintained(j.content, i)
  }

  ghost predicate Maintained(c: Content, i: IssuerId) {
    i in c.states ==> c.states[i].issuer == i && BoundInv(c.states[i]) && FutureKeysDiffer(c.states[i].observations)
  }

  lemma CommittedState(j: Journal, issuer: IssuerId)
    requires Committed(j) && issuer in j.content.states
    ensures var s := j.content.states[issuer]; BoundInv(s) && ForkMarked(s) && FutureKeysDiffer(s.observations)
  {
    assert HoldsState(j.content, issuer) && Maintained(j.content, issuer);
  }

  lemma PrunedKeysDiffer(c: Content)
    ensures forall i :: i in Prune(c).states ==> FutureKeysDiffer(Prune(c).states[i].observations)
  {
    forall i | i in c.states ensures FutureKeysDiffer(Compact(c.states[i]).observations) {
      CompactedFutureKeysDiffer(c.states[i]);
    }
  }

  lemma {:induction false} HistoryIsCommitted(log: seq<Entry<Update>>)
    ensures Committed(Sequential(Writers.JournalProtocol(), log))
  {
    Writers.HistoryIsSound(log);
    HistoryKeysDiffer(log);
  }

  lemma {:induction false} HistoryKeysDiffer(log: seq<Entry<Update>>)
    ensures var c := Sequential(Writers.JournalProtocol(), log).content;
            forall i :: i in c.states ==> FutureKeysDiffer(c.states[i].observations)
  {
    if log != [] {
      var before, u := Sequential(Writers.JournalProtocol(), log[..|log| - 1]), log[|log| - 1].update;
      HistoryKeysDiffer(log[..|log| - 1]);
      SequentialStep(Writers.JournalProtocol(), log, before, Propose(before, u));
      Writers.ProposalIs(before, u);
      if Propose(before, u).Proposed? { PrunedKeysDiffer(Change(before.content, u).value); }
    }
  }

  /* ---- What a delivery leaves of a state's bindings ---- */

  /** Epoch and key of `o` are those of the state or of a record of it. */
  ghost predicate KeyedIn(s: State, o: Observation) {
    || (o.epoch == s.epoch && o.keyId == s.keyId)
    || exists x :: x in s.observations && x.epoch == o.epoch && x.keyId == o.keyId
  }

  ghost predicate Inherits(s: State, t: State) {
    && BoundInv(t) && t.issuer == s.issuer && t.epoch == s.epoch && t.keyId == s.keyId && t.retired == s.retired
    && forall o :: o in t.observations ==> KeyedIn(s, o)
  }

  lemma CompactInherits(s: State, m: State)
    requires Inherits(s, m)
    ensures Inherits(s, Compact(m))
  {
    CompactKeepsInv(m);
    CompactedRecords(m);
    forall r | r in Compacted(m) ensures KeyedIn(s, r) {
      var o :| o in m.observations && Derived(r, o);
      assert KeyedIn(s, o);
    }
  }

  lemma InheritsTrans(a: State, b: State, c: State)
    requires Inherits(a, b) && Inherits(b, c)
    ensures Inherits(a, c)
  {
    forall o | o in c.observations ensures KeyedIn(a, o) {
      assert KeyedIn(b, o);
      if !(o.epoch == b.epoch && o.keyId == b.keyId) {
        var x :| x in b.observations && x.epoch == o.epoch && x.keyId == o.keyId;
        assert KeyedIn(a, x);
      }
    }
  }

  lemma AppendedInherits(s: State, m: State, o: Observation)
    requires BoundInv(m) && m.issuer == s.issuer && m.epoch == s.epoch && m.keyId == s.keyId && m.retired == s.retired
    requires m.observations == s.observations + [o] && o.epoch == s.epoch && o.keyId == s.keyId
    ensures Inherits(s, m)
  {
  }

  lemma SameRecordsInherit(s: State, m: State)
    requires BoundInv(m) && m.issuer == s.issuer && m.epoch == s.epoch && m.keyId == s.keyId && m.retired == s.retired
    requires m.observations == s.observations
    ensures Inherits(s, m)
  {
  }

  lemma ListInherits(s: State, l: RevocationList, m: State, outcome: ListOutcome)
    requires BoundInv(m) && EndsIn(s, l, m, outcome)
    ensures Inherits(s, m)
  {
    match outcome
    case Ignored => SameRecordsInherit(s, m);
    case Flagged(_) => SameRecordsInherit(s, m);
    case Recorded(o) => AppendedInherits(s, m, o);
    case Accepted =>
      AcceptedIsAccepting(s, l);
      AppendedInherits(s, m, ListObservation(s, l, false).(accepted := true));
  }

  lemma PushInherits(s: State, q: RevocationPush, m: State, outcome: PushOutcome)
    requires BoundInv(m) && PushEndsIn(s, q, m, outcome)
    ensures Inherits(s, m)
  {
    match outcome
    case PushIgnored => SameRecordsInherit(s, m);
    case PushRecorded(o) => AppendedInherits(s, m, o);
    case PushAccepted => AppendedInherits(s, m, PushObservation(s, q, false).(accepted := true));
  }

  lemma ObjectInherits(s: State, e: Evidence, u: Update, t: State)
    requires u.Deliver? && BoundInv(s) && ApplyObject(s, e, u) == Success(t)
    ensures Inherits(s, t)
  {
    assert Bind(s, u.issuer, u.epoch, u.key) == s;
    match e
    case ListEvidence(l) =>
      var outcome := ReduceListOutcome(s, l, u.policy, u.now);
      ReduceListKeepsInv(s, l, u.policy, u.now);
      ListInherits(s, l, ReduceList(s, l, u.policy, u.now), outcome);
      CompactInherits(s, ReduceList(s, l, u.policy, u.now));
    case PushEvidence(q) =>
      var outcome := ReducePushOutcome(s, q, u.policy, u.now);
      ReducePushKeepsInv(s, q, u.policy, u.now);
      PushInherits(s, q, ReducePush(s, q, u.policy, u.now), outcome);
      CompactInherits(s, ReducePush(s, q, u.policy, u.now));
  }

  lemma BatchInherits(s: State, objects: seq<Evidence>, u: Update, t: State)
    requires u.Deliver? && BoundInv(s) && ApplyObjects(s, objects, u) == Success(t)
    ensures Inherits(s, t)
  {
    var keeps := (done: seq<Evidence>, m: State) => Inherits(s, m);
    forall done, m, e, n | keeps(done, m) && Applier(u)(m, e) == Success(n) ensures keeps(done + [e], n) {
      ObjectInherits(m, e, u, n);
      InheritsTrans(s, m, n);
    }
    Writers.EachKeeps(s, objects, Applier(u), keeps, t);
  }

  /* ---- The validator of a journal, reduced to one state ---- */

  lemma InheritedStateOk(c: Content, d: Content, i: IssuerId, s: State, t: State)
    requires StateOk(c, i, s) && Inherits(s, t) && d.bindings == c.bindings
    ensures StateOk(d, i, t) <==> AcceptedOk(t)
  {
    forall o | o in t.observations ensures Binding(i, o.epoch, o.keyId) in d.bindings && RecordOk(t, o) {
      assert KeyedIn(s, o);
    }
  }

  /** A state that nothing was delivered to. */
  lemma UntouchedIsOk(c: Content, d: Content, i: IssuerId, s: State)
    requires StateOk(c, i, s) && BoundInv(s) && d.bindings == c.bindings
    ensures StateOk(d, i, Compact(s))
  {
    CompactInherits(s, s);
    InvImpliesValid(Compact(s));
    CompactKeepsForkMarker(s);
    InheritedStateOk(c, d, i, s, Compact(s));
  }

  lemma UntouchedFollows(s: State)
    requires BoundInv(s) && FutureKeysDiffer(s.observations)
    ensures StatusTransitionOk(s, Compact(s))
  {
    CompactionLinks(s);
    ChainIsAccepted([s, Compact(s)]);
  }

  /** What a delivery makes of the content. */
  ghost predicate Delivers(c: Content, u: Update, s: State, t: State, d: Content) {
    && u.Deliver? && u.issuer in c.states && s == c.states[u.issuer]
    && ApplyObjects(s, u.objects, u) == Success(t) && d == c.(states := c.states[u.issuer := t])
  }

  lemma DeliveryIs(c: Content, u: Update) returns (s: State, t: State, d: Content)
    requires u.Deliver? && Change(c, u).Success?
    ensures Delivers(c, u, s, t, d) && Change(c, u) == Success(d)
  {
    s, t, d := c.states[u.issuer], ApplyObjects(c.states[u.issuer], u.objects, u).value, Change(c, u).value;
  }

  /** The same issuers, epochs, bindings and roles. */
  ghost predicate Alike(c: Content, d: Content) {
    && d.roles == c.roles && d.bindings == c.bindings && d.states.Keys == c.states.Keys
    && forall i :: i in c.states ==> SameEpoch(c, d, i)
  }

  predicate SameEpoch(c: Content, d: Content, i: IssuerId) {
    i in c.states && i in d.states ==> d.states[i].epoch == c.states[i].epoch
  }

  lemma PrunedState(c: Content, i: IssuerId)
    requires i in c.states
    ensures i in Prune(c).states && Prune(c).states[i] == Compact(c.states[i])
  {
  }

  lemma CompactEpoch(s: State)
    ensures Compact(s).epoch == s.epoch
  {
  }

  lemma PrunedFrame(c: Content)
    ensures Prune(c).roles == c.roles && Prune(c).bindings == c.bindings && Prune(c).states.Keys == c.states.Keys
  {
  }

  lemma PrunedEpoch(c: Content, issuer: IssuerId, t: State, d: Content, i: IssuerId)
    requires issuer in c.states && d == c.(states := c.states[issuer := t]) && t.epoch == c.states[issuer].epoch
    ensures SameEpoch(c, Prune(d), i)
  {
    if i in c.states {
      PrunedState(d, i);
      CompactEpoch(d.states[i]);
    }
  }

  lemma PrunedAlike(c: Content, issuer: IssuerId, t: State, d: Content)
    requires issuer in c.states && d == c.(states := c.states[issuer := t]) && t.epoch == c.states[issuer].epoch
    ensures Alike(c, Prune(d)) && Prune(d).states[issuer] == Compact(t)
  {
    PrunedFrame(d);
    forall i | i in c.states ensures SameEpoch(c, Prune(d), i) { PrunedEpoch(c, issuer, t, d, i); }
    PrunedState(d, issuer);
  }

  /** Everything of a valid journal but its states. */
  ghost predicate HistoriesOk(d: Content) {
    && (forall k :: k in d.roles ==> k != "" && d.roles[k] in ROLES)
    && BindingsOk(d)
    && (forall b :: b in d.bindings ==> b.issuer in d.states && b.epoch <= d.states[b.issuer].epoch)
  }

  lemma AlikeHistories(c: Content, d: Content)
    requires HistoriesOk(c) && Alike(c, d)
    ensures HistoriesOk(d)
  {
    forall b | b in d.bindings
      ensures b.issuer != "" && 0 < b.epoch && b.key != "" && b.key in d.roles && d.roles[b.key] == "status"
      ensures b.issuer in d.states && b.epoch <= d.states[b.issuer].epoch
    {
      assert b in c.bindings && b.issuer in c.states && SameEpoch(c, d, b.issuer);
    }
    forall b, e | b in d.bindings && 0 < e < b.epoch ensures IsBound(d, b.issuer, e) {
      assert IsBound(c, b.issuer, e);
    }
  }

  lemma ValidIs(j: Journal)
    requires j.generation > 0 && j.previous.Some?
    ensures ValidJournal(j) <==>
            HistoriesOk(j.content) && forall i :: i in j.content.states ==> HoldsState(j.content, i)
  {
  }

  lemma ValidHistories(j: Journal)
    requires ValidJournal(j)
    ensures HistoriesOk(j.content) && 0 <= j.generation
  {
  }

  /** Every state but one passes both validators. */
  ghost predicate OthersOk(c: Content, d: Content, issuer: IssuerId) {
    && issuer in d.states && Alike(c, d)
    && (forall i :: i != issuer ==> HoldsState(d, i))
    && (forall i :: i != issuer ==> StateFollows(c, d, i))
  }

  lemma AllButOne(c: Content, d: Content, issuer: IssuerId)
    requires OthersOk(c, d, issuer)
    ensures (forall i :: i in d.states ==> HoldsState(d, i)) <==> HoldsState(d, issuer)
    ensures StatesFollow(c, d) <==> StateFollows(c, d, issuer)
  {
  }

  lemma NextTransition(j: Journal, d: Content, issuer: IssuerId)
    requires ValidJournal(j) && OthersOk(j.content, d, issuer)
    ensures ValidTransition(j, Journal(j.generation + 1, Some(j), d)) <==>
            HoldsState(d, issuer) && StateFollows(j.content, d, issuer)
  {
    ValidHistories(j);
    AlikeHistories(j.content, d);
    AllButOne(j.content, d, issuer);
    ValidIs(Journal(j.generation + 1, Some(j), d));
    TransitionOfAlike(j, Journal(j.generation + 1, Some(j), d));
  }

  lemma TransitionOfAlike(j: Journal, next: Journal)
    requires Alike(j.content, next.content) && next.generation == j.generation + 1 && next.previous == Some(j)
    ensures ValidTransition(j, next) <==>
            ValidJournal(j) && ValidJournal(next) && StatesFollow(j.content, next.content)
  {
    AlikeFollow(j.content, next.content);
  }

  lemma AlikeFollow(c: Content, d: Content)
    requires Alike(c, d)
    ensures HistoriesFollow(c, d)
  {
  }

  lemma UntouchedAreOk(j: Journal, issuer: IssuerId, t: State, d: Content)
    requires Committed(j) && issuer in j.content.states && d == j.content.(states := j.content.states[issuer := t])
    requires t.epoch == j.content.states[issuer].epoch
    ensures OthersOk(j.content, Prune(d), issuer)
  {
    PrunedAlike(j.content, issuer, t, d);
    forall i | i != issuer ensures HoldsState(Prune(d), i) && StateFollows(j.content, Prune(d), i) {
      assert Maintained(j.content, i) && HoldsState(j.content, i);
      if i in d.states {
        UntouchedIsOk(j.content, Prune(d), i, j.content.states[i]);
        UntouchedFollows(j.content.states[i]);
      }
    }
  }

  /** What the two validators ask of the touched state. */
  ghost predicate Passes(s: State, t: State) {
    (t.hasFloor ==> t.snapshot.Some?) && AcceptedOk(t) && StatusTransitionOk(s, t)
  }

  lemma TouchedRecord(j: Journal, d: Content, issuer: IssuerId)
    requires ValidJournal(j) && OthersOk(j.content, d, issuer) && Inherits(j.content.states[issuer], d.states[issuer])
    ensures ValidTransition(j, Journal(j.generation + 1, Some(j), d)) <==>
            Passes(j.content.states[issuer], d.states[issuer])
  {
    var s, t := j.content.states[issuer], d.states[issuer];
    assert StateOk(d, issuer, t) <==> AcceptedOk(t) by {
      assert HoldsState(j.content, issuer);
      InheritedStateOk(j.content, d, issuer, s, t);
    }
    NextTransition(j, d, issuer);
  }

  lemma StaysIsOk(c: Content, issuer: IssuerId)
    requires HoldsState(c, issuer) && issuer in c.states
    ensures Passes(c.states[issuer], c.states[issuer])
  {
  }

  lemma OfferIs(j: Journal, d: Content)
    ensures OfferContent(j, d).Refused? <==>
            && d != j.content
            && (j.generation >= MAX_SAFE_INTEGER || !ValidTransition(j, Journal(j.generation + 1, Some(j), d)))
  {
  }

  /** The content is refused exactly when the touched state does not pass or no
      generation is left for a change. */
  lemma OfferedExactly(j: Journal, issuer: IssuerId, s: State, t: State, d: Content)
    requires issuer in j.content.states && j.content.states[issuer] == s && issuer in d.states && d.states[issuer] == t
    ensures ValidJournal(j) && OthersOk(j.content, d, issuer) && Inherits(s, t) ==>
            (OfferContent(j, d).Refused? <==> !Passes(s, t) || (j.generation >= MAX_SAFE_INTEGER && d != j.content))
  {
    if ValidJournal(j) && OthersOk(j.content, d, issuer) && Inherits(s, t) {
      TouchedRecord(j, d, issuer);
      OfferIs(j, d);
      assert HoldsState(j.content, issuer);
      StaysIsOk(j.content, issuer);
    }
  }
}

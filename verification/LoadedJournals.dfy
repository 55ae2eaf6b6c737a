/** What a journal that was only loaded and validated guarantees, whoever wrote
    it (security_journal_v2.go:283-535): a valid record explains its floors, and
    a validated history loses no denial, lowers no floor, rewrites no key and
    ends no reconciliation unfounded. */
module LoadedJournals {
  import opened StatusTypes
  import opened StatusCompaction
  import opened StatusReducer
  import opened SecurityJournal

  /* ---- One state ---- */

  /** A retained record of the list that the floor rests on. */
  predicate BaseRecord(s: State, o: Observation) {
    && s.snapshot.Some? && o.epoch == s.epoch && o.IsList() && o.sequence == s.snapshot.value.sequence
    && o.evidence == ListEvidence(s.snapshot.value) && o.accepted && !o.fork && !o.futureDated
  }

  /** An accepted push between the list and the floor. */
  predicate PathRecord(s: State, o: Observation) {
    && s.snapshot.Some? && o.epoch == s.epoch && o.IsPush() && o.accepted
    && s.snapshot.value.sequence < o.sequence <= s.floor
  }

  ghost predicate PushedAt(s: State, q: int) {
    exists o :: o in s.observations && PathRecord(s, o) && o.sequence == q
  }

  /** The floor is explained: its list is on record, every sequence after it up
      to the floor has one accepted push, and the accepted set is exactly what
      these name. */
  ghost predicate FloorExplained(s: State) {
    && 0 < s.floor <= s.maxObserved && s.snapshot.Some? && s.snapshot.value.issuer == s.issuer
    && 0 < s.snapshot.value.sequence <= s.floor
    && (exists o :: o in s.observations && BaseRecord(s, o))
    && (forall q :: s.snapshot.value.sequence < q <= s.floor ==> PushedAt(s, q))
    && (forall c :: c in s.accepted <==>
          c in s.snapshot.value.revoked || exists o :: o in s.observations && PathRecord(s, o) && c in o.certs)
  }

  lemma {:induction false} CountedIsThere(obs: seq<Observation>, epoch: int, q: int)
    requires PushCount(obs, epoch, q) > 0
    ensures exists o :: o in obs && o.epoch == epoch && o.IsPush() && o.accepted && o.sequence == q
  {
    var front, o := obs[..|obs| - 1], obs[|obs| - 1];
    assert obs == front + [o];
    if !(o.epoch == epoch && o.IsPush() && o.accepted && o.sequence == q) {
      CountedIsThere(front, epoch, q);
      var x :| x in front && x.epoch == epoch && x.IsPush() && x.accepted && x.sequence == q;
      assert x in obs;
    }
  }

  /** Exactly what is named by a retained record is denied, every record is of
      a sequence and a key, no ID is empty, an unresolved fork is on record, and
      a floor is explained. */
  lemma ValidStateMeans(c: Content, issuer: IssuerId)
    requires HoldsState(c, issuer) && issuer in c.states
    ensures var s := c.states[issuer];
            && s.issuer == issuer != "" && s.keyId != "" && 0 < s.epoch <= MAX_SAFE_INTEGER
            && s.keyId !in s.retired && "" !in s.retired
            && 0 <= s.precedingFloor <= MAX_SAFE_INTEGER && (s.precedingFloor == 0 ==> s.precedingAccepted == {})
            && (forall x :: x in s.denyUnion <==> exists o :: o in s.observations && x in o.certs)
            && (forall o :: o in s.observations ==>
                  0 < o.sequence <= MAX_SAFE_INTEGER && o.keyId != "" && "" !in o.certs
                  && (o.epoch == s.epoch ==> o.sequence <= s.maxObserved))
            && (s.maxObserved != 0 ==>
                exists o :: o in s.observations && o.epoch == s.epoch && o.sequence == s.maxObserved)
            && (s.forkSequence > 0 ==> s.reconcile && exists o :: o in s.observations && o.epoch == s.epoch && o.fork)
            && (if s.hasFloor then FloorExplained(s) else s.floor == 0 && s.snapshot.None? && s.accepted == {})
  {
    var s := c.states[issuer];
    forall x ensures x in s.denyUnion <==> exists o :: o in s.observations && x in o.certs {
      if x in s.denyUnion { assert x in Witnessed(s.observations); }
    }
    if s.hasFloor { FloorIsExplained(s); }
  }

  lemma FloorIsExplained(s: State)
    requires BindingOk(s, s.issuer, s.epoch) && AcceptedOk(s) && s.hasFloor
    ensures FloorExplained(s)
  {
    forall q | s.snapshot.value.sequence < q <= s.floor ensures PushedAt(s, q) {
      CountedIsThere(s.observations, s.epoch, q);
      var o :| o in s.observations && o.epoch == s.epoch && o.IsPush() && o.accepted && o.sequence == q;
      assert PathRecord(s, o);
    }
    forall o ensures PathRecord(s, o) <==> OnFloorPath(s, o) {}
    forall c ensures c in FloorPathCerts(s) <==> exists o :: o in s.observations && PathRecord(s, o) && c in o.certs {}
  }

  /* ---- One record ---- */

  ghost predicate HadKey(c: Content, issuer: IssuerId, epoch: int) {
    exists b :: b in c.bindings && b.issuer == issuer && b.epoch == epoch
  }

  /** Status keys: epochs without a gap, one key an epoch, no key twice, each in
      the status role for good, and every state and record under a bound key. */
  lemma ValidKeysMean(j: Journal)
    requires ValidJournal(j)
    ensures var c := j.content;
            && (forall b :: b in c.bindings ==>
                  b.issuer in c.states && 0 < b.epoch <= c.states[b.issuer].epoch && b.key in c.roles
                  && c.roles[b.key] == "status")
            && (forall a, b :: a in c.bindings && b in c.bindings && a != b ==>
                  a.key != b.key && (a.issuer != b.issuer || a.epoch != b.epoch))
            && (forall i, e :: i in c.states && 0 < e < c.states[i].epoch ==> HadKey(c, i, e))
  {
    var c := j.content;
    forall i, e | i in c.states && 0 < e < c.states[i].epoch ensures HadKey(c, i, e) {
      assert HoldsState(c, i);
      assert Binding(i, c.states[i].epoch, c.states[i].keyId) in c.bindings;
      assert IsBound(c, i, e);
    }
  }

  lemma ValidBindingsMean(j: Journal, issuer: IssuerId)
    requires ValidJournal(j) && issuer in j.content.states
    ensures var c, s := j.content, j.content.states[issuer];
            && Binding(issuer, s.epoch, s.keyId) in c.bindings
            && (forall o :: o in s.observations ==> Binding(issuer, o.epoch, o.keyId) in c.bindings)
            && (forall k :: k in s.retired <==>
                  exists b :: b in c.bindings && b.issuer == issuer && b.epoch < s.epoch && b.key == k)
  {
    assert HoldsState(j.content, issuer);
  }

  /* ---- One transition ---- */

  /** Within an epoch floor and high-water mark do not fall; no denial is lost;
      epochs do not go back. */
  predicate NothingLost(s: State, t: State) {
    && s.denyUnion <= t.denyUnion && s.epoch <= t.epoch
    && (s.epoch == t.epoch ==> s.maxObserved <= t.maxObserved && s.floor <= t.floor && (s.hasFloor ==> t.hasFloor))
  }

  lemma TransitionLosesNothing(j: Journal, k: Journal, issuer: IssuerId)
    requires ValidTransition(j, k) && issuer in j.content.states
    ensures issuer in k.content.states && NothingLost(j.content.states[issuer], k.content.states[issuer])
  {
    assert StateFollows(j.content, k.content, issuer) && HoldsState(j.content, issuer) && HoldsState(k.content, issuer);
  }

  /** What a record that still matters must be found as. */
  ghost predicate StillThere(t: State, o: Observation) {
    || o in t.observations
    || exists r :: r in t.observations && r.epoch == o.epoch && r.sequence == o.sequence && TypeCode(r) == TypeCode(o)
                   && DigestOf(r) == DigestOf(o) && r.futureDated == o.futureDated && r.fork == o.fork
                   && o.certs <= r.certs && (o.gap && t.reconcile ==> r.gap)
  }

  /** Accepted pushes of the floor, and while reconciling everything after the
      floor and every fork, gap or early object, are still there. */
  lemma TransitionKeepsEvidence(j: Journal, k: Journal, issuer: IssuerId, o: Observation)
    requires ValidTransition(j, k) && issuer in j.content.states && o in j.content.states[issuer].observations
    ensures issuer in k.content.states
    ensures var t := k.content.states[issuer];
            o.epoch == t.epoch
            && (PathRecord(t, o) || (t.reconcile && (t.floor < o.sequence || o.fork || o.gap || o.futureDated)))
            ==> StillThere(t, o)
  {
    assert StateFollows(j.content, k.content, issuer);
    var t := k.content.states[issuer];
    assert Retains(t, o);
    var i := LastWithKey(t.observations, KeyOf(o));
    if MustRetain(t, o) && o !in t.observations {
      assert t.observations[i] in t.observations;
    }
  }

  /** Reconciliation ends within an epoch only by an accepted list on record that
      has everything denied, lies after the fork and not before anything seen. */
  lemma TransitionEndsReconciliation(j: Journal, k: Journal, issuer: IssuerId)
    requires ValidTransition(j, k) && issuer in j.content.states
    ensures issuer in k.content.states
    ensures var s, t := j.content.states[issuer], k.content.states[issuer];
            s.epoch == t.epoch && s.reconcile && !t.reconcile ==>
              && s.denyUnion <= t.accepted
              && exists o :: o in t.observations && o.epoch == s.epoch && o.IsList() && o.accepted
                             && s.maxObserved <= o.sequence && (s.forkSequence == 0 || s.forkSequence < o.sequence)
                             && s.denyUnion <= o.certs
  {
    assert StateFollows(j.content, k.content, issuer);
  }

  /** A later epoch starts with a key that the issuer never had, and with nothing
      accepted or observed. */
  lemma TransitionStartsEpoch(j: Journal, k: Journal, issuer: IssuerId)
    requires ValidTransition(j, k) && issuer in j.content.states
    ensures issuer in k.content.states
    ensures var s, t := j.content.states[issuer], k.content.states[issuer];
            s.epoch < t.epoch ==>
              && t.keyId != s.keyId && t.keyId !in s.retired && t.retired == s.retired + {s.keyId}
              && !t.hasFloor && t.snapshot.None? && t.accepted == {} && !t.hasPreceding && t.precedingAccepted == {}
              && t.maxObserved == 0 && t.forkSequence == 0 && !t.reconcile && !t.futureObserved
              && forall o :: o in t.observations ==> o.epoch < t.epoch
  {
    assert StateFollows(j.content, k.content, issuer);
  }

  /* ---- Histories ---- */

  /** Records each of which was validated against the one before. */
  ghost predicate Validated(js: seq<Journal>) {
    js != [] && ValidJournal(js[0]) && forall i :: 0 < i < |js| ==> ValidTransition(js[i - 1], js[i])
  }

  /** Between any two records of a validated history nothing is lost, no role and
      no binding is rewritten, and the generations count the records. */
  lemma {:induction false} HistoryLosesNothing(js: seq<Journal>, i: nat, j: nat)
    requires Validated(js) && i <= j < |js|
    ensures js[j].generation == js[i].generation + j - i
    ensures var c, d := js[i].content, js[j].content;
            && (forall k :: k in c.roles ==> k in d.roles && d.roles[k] == c.roles[k]) && c.bindings <= d.bindings
            && forall issuer :: issuer in c.states ==>
                 issuer in d.states && NothingLost(c.states[issuer], d.states[issuer])
    decreases j
  {
    if i < j {
      HistoryLosesNothing(js, i, j - 1);
      assert ValidTransition(js[j - 1], js[j]);
      forall issuer | issuer in js[i].content.states
        ensures issuer in js[j].content.states
                && NothingLost(js[i].content.states[issuer], js[j].content.states[issuer])
      {
        TransitionLosesNothing(js[j - 1], js[j], issuer);
      }
    }
  }

  /** Every record of it links to all the records before. */
  lemma HistoryIsLinked(js: seq<Journal>, i: nat)
    requires Validated(js) && 0 < i < |js|
    ensures js[i].previous == Some(js[i - 1])
  {
    assert ValidTransition(js[i - 1], js[i]);
  }
}

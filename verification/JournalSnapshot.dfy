/** Export and import of the journal's portable projection
    (security_journal_snapshot_v2.go).  The projection leaves out what follows
    from the rest: a floor that is absent and a checkpoint that is absent are
    null.  The key histories are canonical lists and stay a map and a set. */
module JournalSnapshot {
  import opened StatusTypes
  import opened StatusCompaction
  import opened StatusReducer
  import opened CompactionProofs
  import opened ReducerInvariant
  import opened ReducerSteps
  import opened Ordering
  import opened SecurityJournal
  import opened CompareAndSwap
  import opened JournalWriters

  datatype Checkpoint = Checkpoint(accepted: set<CertId>, floor: int)

  datatype IssuerRecord = IssuerRecord(
    issuer: IssuerId, epoch: int, keyId: KeyId, retired: set<KeyId>, floor: Option<int>,
    snapshot: Option<RevocationList>,
    accepted: set<CertId>, preceding: Option<Checkpoint>, denyUnion: set<CertId>, observations: seq<Observation>,
    maxObserved: int, forkSequence: int, reconcile: bool, futureObserved: bool)

  datatype Snapshot = Snapshot(
    generation: int, previous: Option<Journal>, issuers: seq<IssuerRecord>, roles: map<KeyId, string>,
    bindings: set<Binding>)

  function Project(s: State): IssuerRecord {
    IssuerRecord(s.issuer, s.epoch, s.keyId, s.retired,
                 if s.hasFloor then Some(s.floor) else None, s.snapshot, s.accepted,
                 if s.hasPreceding then Some(Checkpoint(s.precedingAccepted, s.precedingFloor)) else None,
                 s.denyUnion, s.observations, s.maxObserved, s.forkSequence, s.reconcile, s.futureObserved)
  }

  function Restore(r: IssuerRecord): State {
    State(r.issuer, r.epoch, r.keyId, r.retired,
          r.floor.Some?, if r.floor.Some? then r.floor.value else 0, r.snapshot, r.accepted,
          r.preceding.Some?, if r.preceding.Some? then r.preceding.value.floor else 0,
          if r.preceding.Some? then r.preceding.value.accepted else {},
          r.denyUnion, r.observations, r.maxObserved, r.forkSequence, r.reconcile, r.futureObserved)
  }

  /** What the projection does not carry. */
  predicate NothingHidden(s: State) {
    (s.hasFloor || s.floor == 0) && (s.hasPreceding || (s.precedingFloor == 0 && s.precedingAccepted == {}))
  }

  /** A state survives the projection exactly when nothing of it is hidden. */
  lemma RestoresExactly(s: State)
    ensures Restore(Project(s)) == s <==> NothingHidden(s)
  {
  }

  function Ids(rs: seq<IssuerRecord>): (r: seq<IssuerId>)
    ensures |r| == |rs|
  {
    seq(|rs|, i requires 0 <= i < |rs| => rs[i].issuer)
  }

  predicate FloorMatches(s: State) { s.hasFloor == s.snapshot.Some? }

  /** The snapshot of a journal: its issuers in order, each projected. */
  ghost predicate Projects(j: Journal, p: Snapshot) {
    && p.generation == j.generation && p.previous == j.previous
    && p.roles == j.content.roles && p.bindings == j.content.bindings
    && (j.generation == 0 ==> j.previous.None?)
    && Ascending(Ids(p.issuers)) && Elements(Ids(p.issuers)) == j.content.states.Keys
    && (forall i :: 0 <= i < |p.issuers| ==>
          p.issuers[i].issuer in j.content.states && p.issuers[i] == Project(j.content.states[p.issuers[i].issuer]))
    && (forall i :: i in j.content.states ==> FloorMatches(j.content.states[i]))
  }

  /** A journal has one snapshot. */
  lemma ProjectsUnique(j: Journal, p: Snapshot, q: Snapshot)
    requires Projects(j, p) && Projects(j, q)
    ensures p == q
  {
    AscendingUnique(Ids(p.issuers), Ids(q.issuers));
    forall i | 0 <= i < |p.issuers| ensures p.issuers[i] == q.issuers[i] {
      assert Ids(p.issuers)[i] == Ids(q.issuers)[i];
    }
  }

  /* ---- Export ---- */

  method SortedKeys(m: map<IssuerId, State>) returns (ids: seq<IssuerId>)
    ensures Ascending(ids) && Elements(ids) == m.Keys
  {
    ids := [];
    var rest := m.Keys;
    while rest != {}
      invariant Ascending(ids) && Elements(ids) + rest == m.Keys
      decreases |rest|
    {
      var x :| x in rest;
      ids := Place(ids, x);
      rest := rest - {x};
    }
  }

  predicate Keyed(c: Content) { forall i :: i in c.states ==> c.states[i].issuer == i }

  /** securityJournalSnapshotStructV2 */
  method ProjectJournal(j: Journal) returns (r: Result<Snapshot>)
    requires Keyed(j.content)
    ensures r.Success? <==>
            && (j.generation == 0 ==> j.previous.None?)
            && forall i :: i in j.content.states ==> FloorMatches(j.content.states[i])
    ensures r.Success? ==> Projects(j, r.value)
  {
    if j.generation == 0 && j.previous.Some? { return Failure; }
    var ids := SortedKeys(j.content.states);
    var issuers: seq<IssuerRecord> := [];
    for i := 0 to |ids|
      invariant |issuers| == i
      invariant forall k :: 0 <= k < i ==> ids[k] in j.content.states && FloorMatches(j.content.states[ids[k]])
                                           && issuers[k] == Project(j.content.states[ids[k]])
    {
      assert ids[i] in Elements(ids);
      var s := j.content.states[ids[i]];
      if !FloorMatches(s) { return Failure; }
      issuers := issuers + [Project(s)];
    }
    forall i | i in j.content.states ensures FloorMatches(j.content.states[i]) {
      assert i in Elements(ids);
      var k :| 0 <= k < |ids| && ids[k] == i;
    }
    assert Ids(issuers) == ids;
    return Success(Snapshot(j.generation, j.previous, issuers, j.content.roles, j.content.bindings));
  }

  /* ---- Import ---- */

  function RebuildStates(rs: seq<IssuerRecord>): map<IssuerId, State> {
    if rs == [] then map[] else RebuildStates(rs[..|rs| - 1])[rs[|rs| - 1].issuer := Restore(rs[|rs| - 1])]
  }

  function Rebuild(p: Snapshot): Journal {
    Journal(p.generation, p.previous, Content(RebuildStates(p.issuers), p.roles, p.bindings))
  }

  predicate Adjacent(obs: seq<Observation>) {
    forall i :: 0 < i < |obs| ==> !Before(obs[i], obs[i - 1])
  }

  /** What an import demands of a snapshot and the anchored head. */
  ghost predicate Importable(p: Snapshot, head: Journal) {
    && (p.generation == 0 ==> p.previous.None?)
    && Distinct(Ids(p.issuers))
    && (forall i :: 0 <= i < |p.issuers| ==> Adjacent(p.issuers[i].observations))
    && Projects(Rebuild(p), p)
    && head == Rebuild(p)
    && ValidJournal(Rebuild(p))
  }

  lemma {:induction false} RebuiltKeys(rs: seq<IssuerRecord>)
    ensures RebuildStates(rs).Keys == Elements(Ids(rs))
    ensures forall i :: i in RebuildStates(rs) ==> RebuildStates(rs)[i].issuer == i
  {
    if rs != [] {
      var front, last := rs[..|rs| - 1], rs[|rs| - 1];
      RebuiltKeys(front);
      assert Ids(rs) == Ids(front) + [last.issuer];
    } else {
      assert Elements(Ids(rs)) == {};
    }
  }

  method ImportRecords(rs: seq<IssuerRecord>) returns (r: Result<map<IssuerId, State>>)
    ensures r.Success? <==> Distinct(Ids(rs)) && forall i :: 0 <= i < |rs| ==> Adjacent(rs[i].observations)
    ensures r.Success? ==> r.value == RebuildStates(rs)
  {
    var states: map<IssuerId, State> := map[];
    for i := 0 to |rs|
      invariant states == RebuildStates(rs[..i])
      invariant Distinct(Ids(rs[..i])) && forall k :: 0 <= k < i ==> Adjacent(rs[k].observations)
    {
      RebuiltKeys(rs[..i]);
      assert rs[..i + 1][..i] == rs[..i];
      assert Ids(rs[..i + 1]) == Ids(rs[..i]) + [rs[i].issuer];
      if rs[i].issuer in states {
        assert rs[i].issuer in Elements(Ids(rs[..i]));
        var k :| 0 <= k < i && Ids(rs[..i])[k] == rs[i].issuer;
        assert Ids(rs)[k] == Ids(rs)[i];
        return Failure;
      }
      var ordered := CheckOrder(rs[i].observations);
      if !ordered { return Failure; }
      states := states[rs[i].issuer := Restore(rs[i])];
    }
    assert rs[..|rs|] == rs;
    return Success(states);
  }

  method CheckOrder(obs: seq<Observation>) returns (ok: bool)
    ensures ok == Adjacent(obs)
  {
    for i := 0 to |obs|
      invariant forall k :: 0 < k < i ==> !Before(obs[k], obs[k - 1])
    {
      if i > 0 && Before(obs[i], obs[i - 1]) { return false; }
    }
    return true;
  }

  /** ImportSecurityJournalSnapshotV2 */
  method Import(p: Snapshot, head: Journal) returns (r: Result<Journal>)
    ensures r.Success? <==> Importable(p, head)
    ensures r.Success? ==> r.value == Rebuild(p)
  {
    if p.generation == 0 && p.previous.Some? { return Failure; }
    var states := ImportRecords(p.issuers);
    if states.Failure? { return Failure; }
    var journal := Journal(p.generation, p.previous, Content(states.value, p.roles, p.bindings));
    RebuiltKeys(p.issuers);
    var canonical := ProjectJournal(journal);
    if canonical.Failure? { return Failure; }
    if canonical.value != p {
      if Projects(journal, p) { ProjectsUnique(journal, p, canonical.value); }
      return Failure;
    }
    if head != journal || !ValidJournal(journal) { return Failure; }
    return Success(journal);
  }

  /* ---- Compaction order ---- */

  predicate SameOrder(a: Observation, b: Observation) {
    a.epoch == b.epoch && a.sequence == b.sequence && TypeCode(a) == TypeCode(b) && a.body == b.body
  }

  ghost predicate OrderedAs(r: Observation, obs: seq<Observation>) { exists o :: o in obs && SameOrder(r, o) }

  lemma {:induction false} RetainedInOrder(s: State, obs: seq<Observation>)
    requires InOrder(obs)
    ensures InOrder(FoldAll(s, obs).retained)
    ensures forall r :: r in FoldAll(s, obs).retained ==> OrderedAs(r, obs)
  {
    if obs != [] {
      var front, o := obs[..|obs| - 1], obs[|obs| - 1];
      assert obs == front + [o];
      RetainedInOrder(s, front);
      StepInOrder(s, FoldAll(s, front), front, o);
    }
  }

  lemma SameOrderInOrder(a: seq<Observation>, b: seq<Observation>)
    requires |a| == |b| && InOrder(b) && forall k :: 0 <= k < |a| ==> SameOrder(a[k], b[k])
    ensures InOrder(a)
  {
  }

  lemma AppendInOrder(a: seq<Observation>, n: Observation)
    requires InOrder(a) && forall k :: 0 <= k < |a| ==> !Before(n, a[k])
    ensures InOrder(a + [n])
  {
  }

  /** A record like an earlier one does not come after the next input. */
  lemma NotAfter(front: seq<Observation>, o: Observation, r: Observation)
    requires InOrder(front + [o]) && OrderedAs(r, front)
    ensures OrderedAs(r, front + [o]) && !Before(o, r)
  {
    var x :| x in front && SameOrder(r, x);
    assert x in front + [o];
    var i :| 0 <= i < |front| && front[i] == x;
    assert (front + [o])[i] == x && (front + [o])[|front|] == o;
    assert !Before(o, x);
  }

  lemma StepInOrder(s: State, f: Fold, front: seq<Observation>, o: Observation)
    requires FoldOk(f) && InOrder(front + [o]) && InOrder(f.retained)
    requires forall r :: r in f.retained ==> OrderedAs(r, front)
    ensures InOrder(Step(s, f, o).retained)
    ensures forall r :: r in Step(s, f, o).retained ==> OrderedAs(r, front + [o])
  {
    var n := Narrow(s, f, o);
    var g := Step(s, f, o);
    assert o in front + [o] && SameOrder(n, o);
    forall r | r in f.retained ensures OrderedAs(r, front + [o]) && !Before(o, r) { NotAfter(front, o, r); }
    StepCases(s, f, o);
    if g.retained == f.retained + [n] {
      forall i | 0 <= i < |f.retained| ensures !Before(n, f.retained[i]) { assert f.retained[i] in f.retained; }
      AppendInOrder(f.retained, n);
    } else {
      var i :| 0 <= i < |f.retained| && g.retained == f.retained[i := Merge(s, f.retained[i], n)];
      MergedInOrder(f.retained, i, Merge(s, f.retained[i], n), front + [o]);
    }
  }

  lemma MergedInOrder(rs: seq<Observation>, i: int, m: Observation, obs: seq<Observation>)
    requires 0 <= i < |rs| && InOrder(rs) && SameOrder(m, rs[i])
    requires forall r :: r in rs ==> OrderedAs(r, obs)
    ensures InOrder(rs[i := m]) && forall r :: r in rs[i := m] ==> OrderedAs(r, obs)
  {
    SameOrderInOrder(rs[i := m], rs);
    assert rs[i] in rs;
    var x :| x in obs && SameOrder(rs[i], x);
    assert SameOrder(m, x);
    forall r | r in rs[i := m] ensures OrderedAs(r, obs) {
      assert r == m || r in rs;
    }
  }

  lemma CompactedInOrder(s: State)
    ensures InOrder(Compacted(s))
  {
    RetainedInOrder(s, Sorted(s.observations));
    CompactedIsRetained(s);
    var retained := FoldAll(s, Sorted(s.observations)).retained;
    forall i | 0 <= i < |retained| ensures SameOrder(Compacted(s)[i], retained[i]) {}
  }

  /* ---- What every committed journal satisfies ---- */

  predicate PrecedingOk(s: State) { s.hasPreceding || (s.precedingFloor == 0 && s.precedingAccepted == {}) }

  lemma ListKeepsPreceding(s: State, l: RevocationList, p: Policy, now: int)
    requires BoundInv(s) && AuthenticList(l, s.issuer, s.keyId) && PrecedingOk(s)
    ensures PrecedingOk(ReduceList(s, l, p, now))
  {
    var outcome := ReduceListOutcome(s, l, p, now);
    EndKeepsPreceding(s, l, ReduceList(s, l, p, now), outcome);
  }

  lemma EndKeepsPreceding(s: State, l: RevocationList, t: State, outcome: ListOutcome)
    requires EndsIn(s, l, t, outcome) && PrecedingOk(s)
    ensures PrecedingOk(t)
  {
  }

  lemma PushKeepsPreceding(s: State, q: RevocationPush, p: Policy, now: int)
    requires BoundInv(s) && AuthenticPush(q, s.issuer, s.keyId) && PrecedingOk(s)
    ensures PrecedingOk(ReducePush(s, q, p, now))
  {
    var outcome := ReducePushOutcome(s, q, p, now);
  }

  lemma ObjectKeepsPreceding(s: State, e: Evidence, u: Update, t: State)
    requires u.Deliver? && BoundInv(s) && PrecedingOk(s) && ApplyObject(s, e, u) == Success(t)
    ensures PrecedingOk(t)
  {
    assert Bind(s, u.issuer, u.epoch, u.key) == s;
    match e
    case ListEvidence(l) => ListKeepsPreceding(s, l, u.policy, u.now);
    case PushEvidence(q) => PushKeepsPreceding(s, q, u.policy, u.now);
  }

  lemma ObjectsKeepPreceding(s: State, objects: seq<Evidence>, u: Update, t: State)
    requires u.Deliver? && BoundInv(s) && PrecedingOk(s) && ApplyObjects(s, objects, u) == Success(t)
    ensures PrecedingOk(t)
  {
    var keeps := (done: seq<Evidence>, m: State) => Applied(s, done, m) && PrecedingOk(m);
    forall done, m, e, n | keeps(done, m) && Applier(u)(m, e) == Success(n) ensures keeps(done + [e], n) {
      AppliedOneMore(s, done + [e], done, e, m, u, n);
      ObjectKeepsPreceding(m, e, u, n);
    }
    EachKeeps(s, objects, Applier(u), keeps, t);
  }

  ghost predicate Preceded(c: Content) { forall i :: i in c.states ==> PrecedingOk(c.states[i]) }

  lemma ConfigureKeepsPreceded(c: Content, issuer: IssuerId, epoch: int, key: KeyId)
    requires Preceded(c) && Configure(c, issuer, epoch, key).Success?
    ensures Preceded(Configure(c, issuer, epoch, key).value)
  {
    assert RegisterEpoch(c, issuer, epoch, key).value.states == c.states;
  }

  lemma DeliverKeepsPreceded(c: Content, u: Update)
    requires u.Deliver? && StatesOk(c) && Preceded(c) && Change(c, u).Success?
    ensures Preceded(Change(c, u).value)
  {
    var s := c.states[u.issuer];
    ObjectsKeepPreceding(s, u.objects, u, ApplyObjects(s, u.objects, u).value);
  }

  lemma ChangeKeepsPreceded(c: Content, u: Update)
    requires StatesOk(c) && Preceded(c) && Change(c, u).Success?
    ensures Preceded(Change(c, u).value)
  {
    match u
    case RecordRole(_, _) =>
    case ConfigureEpoch(issuer, epoch, key) => ConfigureKeepsPreceded(c, issuer, epoch, key);
    case Deliver(_, _, _, _, _, _, _, _) => DeliverKeepsPreceded(c, u);
  }

  /** The states are ordered and hide nothing from the projection. */
  ghost predicate Portable(c: Content) {
    forall i :: i in c.states ==> InOrder(c.states[i].observations) && PrecedingOk(c.states[i])
  }

  lemma ProposalIsPortable(j: Journal, u: Update)
    requires StatesOk(j.content) && Portable(j.content) && Propose(j, u).Proposed?
    ensures Portable(Propose(j, u).next.content)
  {
    ProposalIs(j, u);
    ChangeKeepsPreceded(j.content, u);
    var c := Change(j.content, u).value;
    forall i | i in c.states ensures InOrder(Compact(c.states[i]).observations) { CompactedInOrder(c.states[i]); }
  }

  lemma {:induction false} HistoryIsPortable(log: seq<Entry<Update>>)
    ensures Portable(Sequential(JournalProtocol(), log).content)
  {
    if log != [] {
      var before, u := Sequential(JournalProtocol(), log[..|log| - 1]), log[|log| - 1].update;
      HistoryIsPortable(log[..|log| - 1]);
      HistoryIsSound(log[..|log| - 1]);
      SequentialStep(JournalProtocol(), log, before, Propose(before, u));
      if Propose(before, u).Proposed? { ProposalIsPortable(before, u); }
    }
  }

  /* ---- The round trip ---- */

  lemma {:induction false} RebuiltStates(rs: seq<IssuerRecord>, states: map<IssuerId, State>)
    requires Distinct(Ids(rs))
    requires forall i :: 0 <= i < |rs| ==> rs[i].issuer in states && Restore(rs[i]) == states[rs[i].issuer]
    ensures forall i :: i in RebuildStates(rs) ==> i in states && RebuildStates(rs)[i] == states[i]
  {
    if rs != [] {
      var front := rs[..|rs| - 1];
      forall i, j | 0 <= i < j < |front| ensures Ids(front)[i] != Ids(front)[j] {
        assert Ids(rs)[i] == Ids(front)[i] && Ids(rs)[j] == Ids(front)[j];
      }
      RebuiltStates(front, states);
    }
  }

  lemma AscendingDistinct(ids: seq<IssuerId>)
    requires Ascending(ids)
    ensures Distinct(ids)
  {
    forall i, j | 0 <= i < j < |ids| ensures ids[i] != ids[j] { LessTotal(ids[i], ids[j]); }
  }

  lemma RestoresTo(j: Journal, p: Snapshot, i: nat)
    requires Projects(j, p) && StatesOk(j.content) && Portable(j.content) && i < |p.issuers|
    ensures Restore(p.issuers[i]) == j.content.states[p.issuers[i].issuer]
  {
    var s := j.content.states[p.issuers[i].issuer];
    assert BoundInv(s) && PrecedingOk(s);
    RestoresExactly(s);
  }

  lemma RebuildsTo(j: Journal, p: Snapshot)
    requires Projects(j, p) && StatesOk(j.content) && Portable(j.content)
    ensures Distinct(Ids(p.issuers)) && Rebuild(p) == j
  {
    var states := j.content.states;
    AscendingDistinct(Ids(p.issuers));
    forall i | 0 <= i < |p.issuers| ensures Restore(p.issuers[i]) == states[p.issuers[i].issuer] {
      RestoresTo(j, p, i);
    }
    RebuiltStates(p.issuers, states);
    RebuiltKeys(p.issuers);
    SameStates(RebuildStates(p.issuers), states);
  }

  lemma SameStates(a: map<IssuerId, State>, b: map<IssuerId, State>)
    requires a.Keys == b.Keys && forall i :: i in a ==> a[i] == b[i]
    ensures a == b
  {
  }

  /** Every journal that any writers committed, exported and imported against
      its own head, comes back as it was. */
  lemma {:induction false} ExportImportRoundTrip(events: seq<Event<Update>>, p: Snapshot)
    requires Projects(Run(JournalProtocol(), events).record, p)
    ensures Importable(p, Run(JournalProtocol(), events).record)
    ensures Rebuild(p) == Run(JournalProtocol(), events).record
  {
    var s := Run(JournalProtocol(), events);
    CommitsAreSequential(JournalProtocol(), events);
    HistoryIsSound(s.log);
    HistoryIsPortable(s.log);
    CommittedRoundTrips(s.record, p);
  }

  lemma CommittedRoundTrips(j: Journal, p: Snapshot)
    requires ValidJournal(j) && StatesOk(j.content) && Portable(j.content) && Projects(j, p)
    ensures Importable(p, j) && Rebuild(p) == j
  {
    RebuildsTo(j, p);
    forall i | 0 <= i < |p.issuers| ensures Adjacent(p.issuers[i].observations) {
      assert InOrder(j.content.states[p.issuers[i].issuer].observations);
    }
  }

  lemma CommittedIsExportable(j: Journal)
    requires ValidJournal(j) && StatesOk(j.content)
    ensures Keyed(j.content) && (j.generation == 0 ==> j.previous.None?)
    ensures forall i :: i in j.content.states ==> FloorMatches(j.content.states[i])
  {
    forall i | i in j.content.states ensures FloorMatches(j.content.states[i]) { assert BoundInv(j.content.states[i]); }
  }

  /** Export of any record that the writers left in the store succeeds, and
      importing the result against that record gives it back. */
  method ExportThenImport(j: Journal, ghost events: seq<Event<Update>>) returns (p: Snapshot, r: Result<Journal>)
    requires j == Run(JournalProtocol(), events).record
    ensures Projects(j, p) && r == Success(j)
  {
    CommitsAreSequential(JournalProtocol(), events);
    HistoryIsSound(Run(JournalProtocol(), events).log);
    CommittedIsExportable(j);
    var exported := ProjectJournal(j);
    p := exported.value;
    ExportImportRoundTrip(events, p);
    r := Import(p, j);
  }
}

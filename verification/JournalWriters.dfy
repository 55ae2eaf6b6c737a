/** Concurrent writers of one security journal: what any of them was told is
    applied stays in the journal. */
module JournalWriters {
  import opened StatusTypes
  import opened StatusCompaction
  import opened StatusReducer
  import opened ReducerInvariant
  import Runs = ReducerRuns
  import opened SecurityJournal
  import opened CompareAndSwap

  /** Only a status stage reloads, and only once. */
  function JournalProtocol(): Protocol<Journal, Update> {
    Protocol(EMPTY, ValidJournal, Propose, (u: Update) => u.Deliver? && u.stage)
  }

  ghost predicate StatesOk(c: Content) {
    forall i :: i in c.states ==> c.states[i].issuer == i && BoundInv(c.states[i])
  }

  /** Everything that the objects name is denied. */
  ghost predicate DeniesAll(s: State, objects: seq<Evidence>) {
    forall e :: e in objects ==> e.Revoked() <= s.denyUnion
  }

  /* ---- What a batch leaves ---- */

  lemma ObjectIsDenied(s: State, e: Evidence, u: Update, t: State)
    requires u.Deliver? && BoundInv(s) && ApplyObject(s, e, u) == Success(t)
    ensures BoundInv(t) && t.issuer == s.issuer && s.denyUnion <= t.denyUnion && e.Revoked() <= t.denyUnion
  {
    match e
    case ListEvidence(l) => Runs.ListApplied(s, l, u.issuer, u.epoch, u.key, u.policy, u.now, t);
    case PushEvidence(q) => Runs.PushApplied(s, q, u.issuer, u.epoch, u.key, u.policy, u.now, t);
  }

  /** What a batch makes of a state. */
  ghost predicate Applied(s: State, objects: seq<Evidence>, t: State) {
    BoundInv(t) && t.issuer == s.issuer && DeniesAll(t, objects)
  }

  lemma AppliedOneMore(s: State, objects: seq<Evidence>, front: seq<Evidence>, e: Evidence, m: State, u: Update,
                       t: State)
    requires u.Deliver? && objects == front + [e] && Applied(s, front, m) && ApplyObject(m, e, u) == Success(t)
    ensures Applied(s, objects, t)
  {
    ObjectIsDenied(m, e, u, t);
    OneMoreDenied(m, t, front, e);
  }

  /** What one application keeps, a batch keeps. */
  lemma {:induction false} EachKeeps<S(!new), E(!new)>(s: S, es: seq<E>, f: (S, E) -> Result<S>,
                                                       keeps: (seq<E>, S) -> bool, t: S)
    requires ApplyEach(s, es, f) == Success(t) && keeps([], s)
    requires forall done, m, e, n :: keeps(done, m) && f(m, e) == Success(n) ==> keeps(done + [e], n)
    ensures keeps(es, t)
    decreases |es|
  {
    if es != [] {
      var front, e := es[..|es| - 1], es[|es| - 1];
      var m := ApplyEach(s, front, f).value;
      EachKeeps(s, front, f, keeps, m);
      assert es == front + [e] && f(m, e) == Success(t);
    }
  }

  lemma ObjectsAreDenied(s: State, objects: seq<Evidence>, u: Update, t: State)
    requires u.Deliver? && BoundInv(s) && ApplyObjects(s, objects, u) == Success(t)
    ensures Applied(s, objects, t)
  {
    var keeps := (done: seq<Evidence>, m: State) => Applied(s, done, m);
    forall done, m, e, n | keeps(done, m) && Applier(u)(m, e) == Success(n) ensures keeps(done + [e], n) {
      AppliedOneMore(s, done + [e], done, e, m, u, n);
    }
    EachKeeps(s, objects, Applier(u), keeps, t);
  }

  lemma OneMoreDenied(s: State, t: State, objects: seq<Evidence>, e: Evidence)
    requires DeniesAll(s, objects) && s.denyUnion <= t.denyUnion && e.Revoked() <= t.denyUnion
    ensures DeniesAll(t, objects + [e])
  {
  }

  lemma ConfigureKeepsStates(c: Content, issuer: IssuerId, epoch: int, key: KeyId)
    requires StatesOk(c) && Configure(c, issuer, epoch, key).Success?
    ensures StatesOk(Configure(c, issuer, epoch, key).value)
  {
    assert RegisterEpoch(c, issuer, epoch, key).value.states == c.states;
    if issuer in c.states {
      if epoch != c.states[issuer].epoch { Runs.NextEpochKeepsInv(c.states[issuer], key); }
    } else {
      assert Runs.Initial(Configured(issuer, key));
      Runs.InitialInv(Configured(issuer, key));
    }
  }

  lemma ChangeKeepsStates(c: Content, u: Update)
    requires StatesOk(c) && Change(c, u).Success?
    ensures StatesOk(Change(c, u).value)
    ensures u.Deliver? ==>
              u.issuer in Change(c, u).value.states && DeniesAll(Change(c, u).value.states[u.issuer], u.objects)
  {
    match u
    case RecordRole(_, _) =>
    case ConfigureEpoch(issuer, epoch, key) => ConfigureKeepsStates(c, issuer, epoch, key);
    case Deliver(issuer, _, _, objects, _, _, _, _) =>
      ObjectsAreDenied(c.states[issuer], objects, u, ApplyObjects(c.states[issuer], objects, u).value);
  }

  lemma PruneKeepsStates(c: Content)
    requires StatesOk(c)
    ensures StatesOk(Prune(c))
  {
    forall i | i in c.states ensures BoundInv(Compact(c.states[i])) { CompactKeepsInv(c.states[i]); }
  }

  /** What a proposal is, as far as the proofs below need it. */
  lemma ProposalIs(j: Journal, u: Update)
    ensures var r := Propose(j, u);
            && (r.Proposed? || r.Unchanged? ==> Change(j.content, u).Success?)
            && (r.Proposed? ==> r.next.content == Prune(Change(j.content, u).value) && ValidTransition(j, r.next))
            && (r.Unchanged? ==> j.content == Prune(Change(j.content, u).value))
  {
  }

  lemma ProposalDenies(j: Journal, u: Update)
    requires StatesOk(j.content)
    ensures Propose(j, u).Proposed? ==> StatesOk(Propose(j, u).next.content)
    ensures u.Deliver? && Propose(j, u).Proposed? ==>
              u.issuer in Propose(j, u).next.content.states
                && DeniesAll(Propose(j, u).next.content.states[u.issuer], u.objects)
    ensures u.Deliver? && Propose(j, u).Unchanged? ==>
              u.issuer in j.content.states && DeniesAll(j.content.states[u.issuer], u.objects)
  {
    ProposalIs(j, u);
    if !Propose(j, u).Refused? {
      ChangeKeepsStates(j.content, u);
      PruneKeepsStates(Change(j.content, u).value);
      PrunedDenies(Change(j.content, u).value, u);
    }
  }

  lemma PrunedDenies(c: Content, u: Update)
    requires u.Deliver? ==> u.issuer in c.states && DeniesAll(c.states[u.issuer], u.objects)
    ensures u.Deliver? ==> u.issuer in Prune(c).states && DeniesAll(Prune(c).states[u.issuer], u.objects)
  {
  }

  /* ---- Over the sequential history ---- */

  /** `k` knows everything that `j` denies, for every issuer. */
  ghost predicate Keeps(j: Journal, k: Journal) {
    forall i :: i in j.content.states ==>
      i in k.content.states && j.content.states[i].denyUnion <= k.content.states[i].denyUnion
  }

  lemma ProposalKeeps(j: Journal, u: Update)
    requires Propose(j, u).Proposed?
    ensures Keeps(j, Propose(j, u).next) && ValidJournal(Propose(j, u).next)
  {
    ProposalIs(j, u);
    TransitionKeeps(j, Propose(j, u).next);
  }

  lemma TransitionKeeps(j: Journal, k: Journal)
    requires ValidTransition(j, k)
    ensures Keeps(j, k) && ValidJournal(k)
  {
    forall i | i in j.content.states
      ensures i in k.content.states && j.content.states[i].denyUnion <= k.content.states[i].denyUnion
    {
      assert StateFollows(j.content, k.content, i);
    }
  }

  lemma {:induction false} HistoryIsSound(log: seq<Entry<Update>>)
    ensures StatesOk(Sequential(JournalProtocol(), log).content)
    ensures ValidJournal(Sequential(JournalProtocol(), log))
  {
    if log != [] {
      var before, u := Sequential(JournalProtocol(), log[..|log| - 1]), log[|log| - 1].update;
      HistoryIsSound(log[..|log| - 1]);
      SequentialStep(JournalProtocol(), log, before, Propose(before, u));
      ProposalDenies(before, u);
      if Propose(before, u).Proposed? { ProposalKeeps(before, u); }
    }
  }

  lemma {:induction false} HistoryKeeps(log: seq<Entry<Update>>, n: nat)
    requires n <= |log|
    ensures Keeps(Sequential(JournalProtocol(), log[..n]), Sequential(JournalProtocol(), log))
  {
    if n == |log| {
      assert log[..n] == log;
    } else {
      var front := log[..|log| - 1];
      assert front[..n] == log[..n];
      HistoryKeeps(front, n);
      var before, u := Sequential(JournalProtocol(), front), log[|log| - 1].update;
      SequentialStep(JournalProtocol(), log, before, Propose(before, u));
      if Propose(before, u).Proposed? { ProposalKeeps(before, u); }
    }
  }

  /** Every journal that the store holds passes its own validator, so a load
      never rejects what a commit accepted. */
  lemma {:induction false} LoadsNeverFail(events: seq<Event<Update>>)
    ensures ValidJournal(Run(JournalProtocol(), events).record)
  {
    CommitsAreSequential(JournalProtocol(), events);
    HistoryIsSound(Run(JournalProtocol(), events).log);
  }

  /** What a writer was told is applied, or applied without being told, is
      denied in the journal, then and after everything that any writer does
      later. */
  lemma {:induction false} NoRevocationIsLost(events: seq<Event<Update>>, w: nat)
    requires var s := Run(JournalProtocol(), events);
             w in s.writers && (s.writers[w].Succeeded? || s.writers[w].Unheard?) && s.writers[w].update.Deliver?
    ensures var s := Run(JournalProtocol(), events); var u := s.writers[w].update;
            u.issuer in s.record.content.states && DeniesAll(s.record.content.states[u.issuer], u.objects)
  {
    var p := JournalProtocol();
    var s := Run(p, events);
    var x := s.writers[w];
    CommitsAreSequential(p, events);
    assert WriterOk(p, s.log, w, x);
    ResultDenies(s.log, w, x);
    HistoryKeeps(s.log, x.at);
  }

  lemma {:induction false} ResultDenies(log: seq<Entry<Update>>, w: nat, x: Writer<Journal, Update>)
    requires (x.Succeeded? || x.Unheard?) && x.update.Deliver? && WriterOk(JournalProtocol(), log, w, x)
    ensures x.at <= |log| && x.update.issuer in Sequential(JournalProtocol(), log[..x.at]).content.states
    ensures DeniesAll(Sequential(JournalProtocol(), log[..x.at]).content.states[x.update.issuer], x.update.objects)
  {
    var n := if x.Unheard? || x.changed then x.at - 1 else x.at;
    HistoryIsSound(log[..n]);
    ProposalDenies(Sequential(JournalProtocol(), log[..n]), x.update);
  }
}

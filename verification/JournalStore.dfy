/** The journal store and the two writers of it, as the source runs them: one
    attempt (security_journal_v2.go:95-146), and the status stage's loop of two
    attempts (status_provenance_v2.go:142-168), with whatever other writers
    commit in between. */
module JournalStore {
  import opened StatusTypes
  import opened StatusMachine
  import opened SecurityJournal
  import opened CompareAndSwap

  /** The batch loop of applyV2StatusBatchToJournal. */
  method ApplyBatch(s: State, u: Update) returns (r: Result<State>)
    requires u.Deliver?
    ensures r == ApplyObjects(s, u.objects, u)
  {
    var state := s;
    for i := 0 to |u.objects|
      invariant ApplyObjects(s, u.objects[..i], u) == Success(state)
    {
      ApplyOneMore(s, u.objects, i, u, state);
      var applied;
      match u.objects[i] {
        case ListEvidence(l) => applied := ApplyRevocationList(state, l, u.issuer, u.epoch, u.key, u.policy, u.now);
        case PushEvidence(q) => applied := ApplyRevocationPush(state, q, u.issuer, u.epoch, u.key, u.policy, u.now);
      }
      if applied.Failure? {
        RefusalStays(s, u.objects, i + 1, u);
        return Failure;
      }
      state := applied.value;
    }
    assert u.objects[..|u.objects|] == u.objects;
    return Success(state);
  }

  lemma {:induction false} ApplyOneMore(s: State, objects: seq<Evidence>, i: int, u: Update, m: State)
    requires u.Deliver? && 0 <= i < |objects| && ApplyObjects(s, objects[..i], u) == Success(m)
    ensures ApplyObjects(s, objects[..i + 1], u) == ApplyObject(m, objects[i], u)
  {
    assert objects[..i + 1][..i] == objects[..i];
  }

  lemma {:induction false} RefusalStays(s: State, objects: seq<Evidence>, n: nat, u: Update)
    requires u.Deliver? && n <= |objects| && ApplyObjects(s, objects[..n], u).Failure?
    ensures ApplyObjects(s, objects, u).Failure?
  {
    if n == |objects| {
      assert objects[..n] == objects;
    } else {
      assert objects[..|objects| - 1][..n] == objects[..n];
      RefusalStays(s, objects[..|objects| - 1], n, u);
    }
  }

  /** What one update makes of the record when nothing interferes. */
  function Apply(j: Journal, u: Update): Journal {
    match Propose(j, u) case Proposed(next) => next case _ => j
  }

  function ApplyAll(j: Journal, us: seq<Update>): Journal {
    if us == [] then j else Apply(ApplyAll(j, us[..|us| - 1]), us[|us| - 1])
  }

  /** How two attempts can end, from the record as first loaded, as it was at
      the first swap and as it was at the second. */
  ghost predicate Attempted(loaded: Journal, first: Journal, second: Journal, u: Update, record: Journal,
                            answer: Answer) {
    || (record == first && answer.Rejected?)
    || (record == first && answer == Done(loaded) && Propose(loaded, u).Unchanged?)
    || (record == Apply(first, u) && first == loaded && answer == Done(record))
    || (record == second && !answer.Done?)
    || (record == second && answer == Done(first) && Propose(first, u).Unchanged?)
    || (record == Apply(second, u) && second == first && answer == Done(record))
  }

  datatype Answer = Done(journal: Journal) | Conflict | Rejected

  class Store {
    var record: Journal

    constructor ()
      ensures record == EMPTY
    { record := EMPTY; }

    /** Advances only from the expected head. */
    method CompareAndSwap(head: Journal, next: Journal) returns (ok: bool)
      modifies this
      ensures ok == (old(record) == head)
      ensures record == if ok then next else old(record)
    {
      ok := record == head;
      if ok { record := next; }
    }

    /** commitSecurityJournalTransitionV2 against a record loaded earlier. */
    method CommitTransition(current: Journal, u: Update) returns (answer: Answer)
      modifies this
      ensures answer.Conflict? <==> Propose(current, u).Proposed? && old(record) != current
      ensures answer.Done? <==>
              Propose(current, u).Unchanged? || (Propose(current, u).Proposed? && old(record) == current)
      ensures answer.Done? ==> answer.journal == Apply(current, u)
      ensures record == if answer.Done? && Propose(current, u).Proposed? then answer.journal else old(record)
    {
      var proposal := Propose(current, u);
      if proposal.Refused? { return Rejected; }
      if proposal.Unchanged? { return Done(current); }
      var ok := CompareAndSwap(current, proposal.next);
      return if ok then Done(proposal.next) else Conflict;
    }

    /** Other writers, one after another. */
    method Interfere(us: seq<Update>)
      modifies this
      ensures record == ApplyAll(old(record), us)
    {
      for i := 0 to |us|
        invariant record == ApplyAll(old(record), us[..i])
      {
        assert us[..i + 1][..i] == us[..i];
        var answer := CommitTransition(record, us[i]);
      }
      assert us[..|us|] == us;
    }

    /** Two attempts; before the swap of attempt n the others commit
        `rivals[n]`.  A success is the update applied to the record as it was
        when it was loaded and, if it changed it, as it was when swapped; and
        nothing of the others is lost. */
    method CommitWithRetry(u: Update, rivals: seq<seq<Update>>) returns (answer: Answer)
      requires |rivals| == 2
      modifies this
      ensures Attempted(old(record), ApplyAll(old(record), rivals[0]),
                        ApplyAll(ApplyAll(old(record), rivals[0]), rivals[1]), u, record, answer)
    {
      answer := Conflict;
      var attempt := 0;
      while attempt < 2 && answer.Conflict?
        invariant 0 <= attempt <= 2
        invariant attempt == 0 ==> answer.Conflict? && record == old(record)
        invariant attempt == 1 && answer.Conflict? ==> record == ApplyAll(old(record), rivals[0])
        invariant attempt == 2 && answer.Conflict? ==> record == ApplyAll(ApplyAll(old(record), rivals[0]), rivals[1])
        invariant !answer.Conflict? ==>
                    Attempted(old(record), ApplyAll(old(record), rivals[0]),
                              ApplyAll(ApplyAll(old(record), rivals[0]), rivals[1]), u, record, answer)
      {
        var current := record;
        Interfere(rivals[attempt]);
        answer := CommitTransition(current, u);
        attempt := attempt + 1;
      }
    }
  }
}

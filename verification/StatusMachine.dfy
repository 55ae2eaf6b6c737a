/** The compaction and the two applications as the source runs them: a copy of
    the state updated step by step, with loops over the observations.  Each
    method is proved to compute its specification in StatusCompaction or
    StatusReducer. */
module StatusMachine {
  import opened StatusTypes
  import opened StatusCompaction
  import opened StatusReducer

  /* ---- Compaction ---- */

  /** One round of the loop over the sorted observations. */
  method RetainObservation(s: State, f: Fold, observation: Observation) returns (r: Fold)
    requires FoldOk(f)
    ensures r == Step(s, f, observation)
  {
    var o := observation;
    var base := IsBase(s, o);
    var newWitnesses := o.certs - f.witnessed;
    r := f.(witnessed := f.witnessed + newWitnesses);
    if !(base || MustRetain(s, o)) {
      o := o.(certs := newWitnesses);
    }
    assert o == Narrow(s, f, observation) && IsBase(s, o) == base;
    assert r.witnessed == f.witnessed + observation.certs;
    var key := KeyOf(o);
    if key in f.seen {
      var prior := f.retained[f.seen[key]];
      prior := prior.(accepted := prior.accepted || o.accepted);
      prior := prior.(fork := prior.fork || o.fork, gap := prior.gap || o.gap);
      prior := prior.(futureDated := (prior.futureDated || o.futureDated) && !prior.accepted);
      prior := prior.(certs := prior.certs + o.certs);
      if base {
        prior := prior.(evidence := o.evidence, accepted := true, futureDated := false);
        if !s.reconcile { prior := prior.(gap := false); }
      }
      assert prior == Merge(s, f.retained[f.seen[key]], o);
      r := r.(retained := f.retained[f.seen[key] := prior]);
    } else {
      r := r.(seen := f.seen[key := |f.retained|], retained := f.retained + [o]);
    }
  }

  lemma {:induction false} FoldOneMore(s: State, obs: seq<Observation>, i: int)
    requires 0 <= i < |obs|
    ensures FoldAll(s, obs[..i + 1]) == Step(s, FoldAll(s, obs[..i]), obs[i])
  {
    assert obs[..i + 1][..i] == obs[..i];
  }

  method RetainAll(s: State, observations: seq<Observation>) returns (f: Fold)
    ensures f == FoldAll(s, observations)
  {
    f := Fold([], {}, map[]);
    var i := 0;
    while i < |observations|
      invariant 0 <= i <= |observations|
      invariant FoldOk(f) && f == FoldAll(s, observations[..i])
    {
      FoldOneMore(s, observations, i);
      f := RetainObservation(s, f, observations[i]);
      i := i + 1;
    }
    assert observations[..i] == observations;
  }

  method PruneObservations(s: State) returns (t: State)
    ensures t == Compact(s)
  {
    var f := RetainAll(s, Sorted(s.observations));
    var retained := f.retained;
    if !s.reconcile && s.snapshot.Some? {
      retained := ClearGap(s, retained);
    }
    t := s.(observations := retained);
  }

  /** The first accepted record of the base is the one that changes. */
  lemma {:induction false} ClearBaseGapAt(s: State, obs: seq<Observation>, i: int)
    requires 0 <= i <= |obs| && forall k :: 0 <= k < i ==> !ResolvesGap(s, obs[k])
    ensures i < |obs| && ResolvesGap(s, obs[i]) ==> ClearBaseGap(s, obs) == obs[i := obs[i].(gap := false)]
    ensures i == |obs| ==> ClearBaseGap(s, obs) == obs
  {
    if i > 0 {
      ClearBaseGapAt(s, obs[1..], i - 1);
      assert obs == [obs[0]] + obs[1..];
    }
  }

  method ClearGap(s: State, retained: seq<Observation>) returns (r: seq<Observation>)
    ensures r == ClearBaseGap(s, retained)
  {
    r := retained;
    var i := 0;
    while i < |r|
      invariant 0 <= i <= |r| && r == retained
      invariant forall k :: 0 <= k < i ==> !ResolvesGap(s, r[k])
    {
      if ResolvesGap(s, r[i]) {
        ClearBaseGapAt(s, retained, i);
        r := r[i := r[i].(gap := false)];
        return;
      }
      i := i + 1;
    }
    ClearBaseGapAt(s, retained, i);
  }

  /* ---- Searches ---- */

  lemma {:induction false} LastEvidenceIs(obs: seq<Observation>, epoch: int, e: Evidence, i: int)
    requires -1 <= i < |obs|
    requires i >= 0 ==> SameEvidence(obs[i], epoch, e)
    requires forall k :: i < k < |obs| ==> !SameEvidence(obs[k], epoch, e)
    ensures LastEvidence(obs, epoch, e) == i
  {
  }

  method FindObservation(obs: seq<Observation>, epoch: int, e: Evidence) returns (i: int)
    ensures i == LastEvidence(obs, epoch, e)
  {
    i := |obs| - 1;
    while i >= 0
      invariant -1 <= i < |obs|
      invariant forall k :: i < k < |obs| ==> !SameEvidence(obs[k], epoch, e)
    {
      if SameEvidence(obs[i], epoch, e) { break; }
      i := i - 1;
    }
    LastEvidenceIs(obs, epoch, e, i);
  }

  lemma {:induction false} LastSameSetIs(obs: seq<Observation>, epoch: int, l: RevocationList, i: int)
    requires -1 <= i < |obs|
    requires i >= 0 ==> SameSet(obs[i], epoch, l)
    requires forall k :: i < k < |obs| ==> !SameSet(obs[k], epoch, l)
    ensures LastSameSet(obs, epoch, l) == i
  {
  }

  method FindSetObservation(obs: seq<Observation>, epoch: int, l: RevocationList) returns (i: int)
    ensures i == LastSameSet(obs, epoch, l)
  {
    i := |obs| - 1;
    while i >= 0
      invariant -1 <= i < |obs|
      invariant forall k :: i < k < |obs| ==> !SameSet(obs[k], epoch, l)
    {
      if SameSet(obs[i], epoch, l) { break; }
      i := i - 1;
    }
    LastSameSetIs(obs, epoch, l, i);
  }

  method HasForkedSequence(obs: seq<Observation>, epoch: int, sequence: int) returns (found: bool)
    ensures found == ForkedAt(obs, epoch, sequence)
  {
    for i := 0 to |obs|
      invariant forall o :: o in obs[..i] ==> !(o.epoch == epoch && o.sequence == sequence && o.fork)
    {
      if obs[i].epoch == epoch && obs[i].sequence == sequence && obs[i].fork { return true; }
    }
    return false;
  }

  method FindListConflict(obs: seq<Observation>, epoch: int, l: RevocationList) returns (found: bool)
    ensures found == ListConflict(obs, epoch, l)
  {
    for i := 0 to |obs|
      invariant forall o :: o in obs[..i] ==>
                  !(o.epoch == epoch && o.IsList() && o.sequence == l.sequence && o.revokedSet != l.revoked)
    {
      var o := obs[i];
      if o.epoch != epoch || o.sequence != l.sequence || !o.IsList() { continue; }
      if o.revokedSet != l.revoked { return true; }
    }
    return false;
  }

  method FindPushConflict(obs: seq<Observation>, epoch: int, q: RevocationPush) returns (found: bool)
    ensures found == PushConflict(obs, epoch, q)
  {
    for i := 0 to |obs|
      invariant forall o :: o in obs[..i] ==>
                  !(o.epoch == epoch && o.IsPush() && o.sequence == q.sequence && o.body != PushEvidence(q).Body())
    {
      var o := obs[i];
      if o.epoch != epoch || o.sequence != q.sequence || !o.IsPush() { continue; }
      if o.body != PushEvidence(q).Body() { return true; }
    }
    return false;
  }

  method HasPush(obs: seq<Observation>, epoch: int, q: RevocationPush) returns (found: bool)
    ensures found == PushSeen(obs, epoch, q)
  {
    for i := 0 to |obs|
      invariant forall o :: o in obs[..i] ==>
                  !(o.epoch == epoch && o.IsPush() && o.sequence == q.sequence
                    && (o.evidence == PushEvidence(q) || o.body == PushEvidence(q).Body()))
    {
      var o := obs[i];
      if o.epoch == epoch && o.IsPush() && o.sequence == q.sequence
         && (o.evidence == PushEvidence(q) || o.body == PushEvidence(q).Body())
      { return true; }
    }
    return false;
  }

  method RequiredRevocations(obs: seq<Observation>, epoch: int, sequence: int) returns (certs: set<CertId>)
    ensures certs == Required(obs, epoch, sequence)
  {
    certs := {};
    for i := 0 to |obs|
      invariant certs == Required(obs[..i], epoch, sequence)
    {
      RequiredOneMore(obs, i, epoch, sequence);
      if obs[i].epoch == epoch && obs[i].sequence <= sequence {
        certs := certs + obs[i].certs;
      }
    }
    assert obs[..|obs|] == obs;
  }

  lemma RequiredOneMore(obs: seq<Observation>, i: int, epoch: int, sequence: int)
    requires 0 <= i < |obs|
    ensures Required(obs[..i + 1], epoch, sequence)
            == Required(obs[..i], epoch, sequence)
               + if obs[i].epoch == epoch && obs[i].sequence <= sequence then obs[i].certs else {}
  {
    assert obs[..i + 1] == obs[..i] + [obs[i]];
    var more := if obs[i].epoch == epoch && obs[i].sequence <= sequence then obs[i].certs else {};
    forall c
      ensures c in Required(obs[..i + 1], epoch, sequence) <==> c in Required(obs[..i], epoch, sequence) + more
    {
      if c in Required(obs[..i], epoch, sequence) {
        var o :| o in obs[..i] && o.epoch == epoch && o.sequence <= sequence && c in o.certs;
        assert o in obs[..i + 1];
      }
      assert obs[i] in obs[..i + 1];
    }
  }

  method ConflictsWithPush(s: State, l: RevocationList) returns (found: bool)
    ensures found == ContradictsPush(s, l)
  {
    for i := 0 to |s.observations|
      invariant forall o :: o in s.observations[..i] && o.epoch == s.epoch && o.IsPush() && o.sequence == l.sequence ==>
                  !(if s.hasFloor && s.floor == l.sequence - 1 then l.revoked != s.accepted + o.certs
                    else !(o.certs <= l.revoked))
    {
      var o := s.observations[i];
      if o.epoch != s.epoch || !o.IsPush() || o.sequence != l.sequence { continue; }
      if s.hasFloor && s.floor == l.sequence - 1 {
        if l.revoked != s.accepted + o.certs { return true; }
      } else if !(o.certs <= l.revoked) { return true; }
    }
    return false;
  }

  lemma {:induction false} OmissionStep(s: State, obs: seq<Observation>, i: nat, q: RevocationPush)
    requires q.sequence > 0 && i < |obs|
    ensures var o, r := obs[i], OmissionAmong(s, obs[..i], q);
            OmissionAmong(s, obs[..i + 1], q) == if OmitsPush(s, o, q) && o.sequence > r then o.sequence else r
  {
    assert obs[..i + 1][..i] == obs[..i];
  }

  method OmissionForPush(s: State, q: RevocationPush) returns (sequence: int)
    requires q.sequence > 0
    ensures sequence == Omission(s, q)
  {
    sequence := 0;
    if s.snapshot.Some? && s.snapshot.value.sequence >= q.sequence && !(q.revoked <= s.snapshot.value.revoked) {
      sequence := s.snapshot.value.sequence;
    }
    for i := 0 to |s.observations|
      invariant sequence == OmissionAmong(s, s.observations[..i], q)
    {
      OmissionStep(s, s.observations, i, q);
      var o := s.observations[i];
      if OmitsPush(s, o, q) && o.sequence > sequence { sequence := o.sequence; }
    }
    assert s.observations[..|s.observations|] == s.observations;
  }

  /* ---- Full lists ---- */

  /** The early returns for a known list or a known set. */
  method IsKnownList(s: State, l: RevocationList, p: Policy, now: int) returns (known: bool, duplicate: bool)
    ensures known == SkipsList(s, l, p, now) && duplicate == IsDuplicate(s, l)
  {
    var index := FindObservation(s.observations, s.epoch, ListEvidence(l));
    duplicate := index >= 0;
    var future := BeyondSkew(l.updatedAt, now, p.clockSkew);
    var forkedHere := HasForkedSequence(s.observations, s.epoch, l.sequence);
    if duplicate {
      var prior := s.observations[index];
      if prior.accepted || (!prior.futureDated && !prior.gap) || future || !Fresh(l, p, now) { return true, true; }
      if s.hasFloor && l.sequence < s.floor { return true, true; }
      return forkedHere, true;
    }
    var j := FindSetObservation(s.observations, s.epoch, l);
    if j < 0 { return false, false; }
    var prior := s.observations[j];
    if prior.fork { return true, false; }
    if (prior.futureDated || prior.gap) && !future && Fresh(l, p, now) {
      return (s.hasFloor && l.sequence < s.floor) || forkedHere, false;
    } else if !prior.accepted && !prior.fork && s.hasFloor && l.sequence == s.floor
              && s.snapshot.Some? && s.snapshot.value.sequence < s.floor && !future && Fresh(l, p, now) {
      return false, false;
    } else if && prior.accepted && s.hasFloor && l.sequence == s.floor && s.snapshot.Some?
              && Preferred(l, s.snapshot.value)
    {
      return false, false;
    }
    return true, false;
  }

  /** The fork checks, each of which marks the state. */
  method MarkListForks(s: State, l: RevocationList) returns (next: State, forked: bool)
    ensures forked == ListForks(s, l)
    ensures next == if forked then MarkFork(s, l.sequence) else s
  {
    next, forked := s, false;
    var conflict := FindListConflict(next.observations, next.epoch, l);
    if conflict {
      next, forked := MarkFork(next, l.sequence), true;
    } else if next.hasFloor && l.sequence == next.floor && l.revoked != next.accepted {
      next, forked := MarkFork(next, l.sequence), true;
    } else if next.hasFloor && l.sequence < next.floor && !(l.revoked <= next.accepted) {
      next, forked := MarkFork(next, l.sequence), true;
    }
    var applicable := RequiredRevocations(next.observations, next.epoch, l.sequence);
    if !(applicable <= l.revoked) {
      next, forked := MarkFork(next, l.sequence), true;
    }
    var contradicted := ConflictsWithPush(next, l);
    assert contradicted == ContradictsPush(s, l);
    if contradicted {
      next, forked := MarkFork(next, l.sequence), true;
    }
  }

  /** The acceptance of a fresh, unforked list at or above the floor. */
  method TakeList(s: State, o: Observation, l: RevocationList) returns (next: State)
    ensures next == Append(Reconcile(AcceptList(s, l), l), o.(accepted := true))
  {
    next := s;
    if next.hasFloor && l.sequence == next.floor {
      if next.snapshot.None? || next.snapshot.value.sequence < l.sequence || Preferred(l, next.snapshot.value) {
        next := next.(snapshot := Some(l));
      }
    } else {
      if next.hasFloor && l.sequence == next.floor + 1 {
        next := next.(hasPreceding := true, precedingFloor := next.floor, precedingAccepted := next.accepted);
      } else {
        next := next.(hasPreceding := false, precedingFloor := 0, precedingAccepted := {});
      }
      next := next.(snapshot := Some(l), accepted := l.revoked);
      next := next.(hasFloor := true, floor := l.sequence);
    }
    if next.reconcile {
      var recoverable := next.forkSequence == 0 || (l.sequence > next.forkSequence && l.sequence >= next.maxObserved);
      if recoverable && next.denyUnion <= l.revoked && l.sequence >= next.maxObserved {
        next := next.(reconcile := false, futureObserved := false, forkSequence := 0);
      }
    }
    next := next.(observations := next.observations + [o.(accepted := true)]);
  }

  /** Absorbs the list unless it is a duplicate, and classifies it. */
  method ClassifyList(s: State, l: RevocationList, p: Policy, now: int, duplicate: bool)
    returns (next: State, o: Observation)
    requires duplicate == IsDuplicate(s, l)
    ensures (next, o) == ClassifiedList(s, l, p, now)
  {
    next := s;
    var future := BeyondSkew(l.updatedAt, now, p.clockSkew);
    o := ListObservation(next, l, future);
    if !duplicate {
      next := next.(denyUnion := next.denyUnion + l.revoked);
      if l.sequence > next.maxObserved { next := next.(maxObserved := l.sequence); }
    }
    if future {
      next := next.(futureObserved := true, reconcile := true);
    }
    assert next == NoteFuture(if duplicate then s else Absorb(s, l.revoked, l.sequence), future);
    var forked;
    next, forked := MarkListForks(next, l);
    o := o.(fork := forked);
  }

  method ReduceListStepwise(s: State, l: RevocationList, p: Policy, now: int) returns (next: State)
    ensures next == ReduceList(s, l, p, now)
  {
    next := s;
    var known, duplicate := IsKnownList(next, l, p, now);
    if known { return; }
    var o;
    next, o := ClassifyList(next, l, p, now, duplicate);
    next := FinishList(next, o, l, duplicate, Fresh(l, p, now));
  }

  method FinishList(s: State, record: Observation, l: RevocationList, duplicate: bool, current: bool)
    returns (next: State)
    ensures next == ConcludeList(s, record, l, duplicate, current)
  {
    next := s;
    var o := record;
    var withhold := false;
    if !current {
      withhold := !(next.hasFloor && l.sequence <= next.floor);
    } else if !o.fork {
      if !next.hasFloor && (!(next.denyUnion <= l.revoked) || l.sequence < next.maxObserved) {
        withhold := true;
      } else if !(next.hasFloor && l.sequence < next.floor) {
        next := TakeList(next, o, l);
        return;
      }
    }
    if withhold {
      next := next.(reconcile := true);
      o := o.(gap := true);
    }
    if !duplicate {
      next := next.(observations := next.observations + [o]);
    }
  }

  /** A refused call returns no state; otherwise the reduced, compacted one. */
  method ApplyRevocationList(s: State, l: RevocationList, issuer: IssuerId, epoch: int, key: KeyId, p: Policy, now: int)
    returns (r: Result<State>)
    ensures r == ApplyList(s, l, issuer, epoch, key, p, now)
  {
    if !ValidPolicy(p) || !ValidTimestamp(now) { return Failure; }
    if !AuthenticList(l, issuer, key) || !BindingOk(s, issuer, epoch) { return Failure; }
    if s.keyId != "" && s.keyId != key { return Failure; }
    var next := s;
    if next.issuer == "" { next := next.(issuer := issuer, epoch := epoch); }
    next := next.(keyId := key);
    next := ReduceListStepwise(next, l, p, now);
    next := PruneObservations(next);
    return Success(next);
  }

  /* ---- Pushes ---- */

  /** Absorbs the push and classifies it. */
  method ClassifyPush(s: State, q: RevocationPush, p: Policy, now: int) returns (next: State, o: Observation)
    requires q.sequence > 0
    ensures (next, o) == PreparedPush(s, q, p, now)
  {
    next := s;
    var future := BeyondSkew(q.pushedAt, now, p.clockSkew);
    o := PushObservation(next, q, future);
    next := next.(denyUnion := next.denyUnion + q.revoked);
    if q.sequence > next.maxObserved { next := next.(maxObserved := q.sequence); }
    if future { next := next.(futureObserved := true, reconcile := true); }
    assert next == NoteFuture(Absorb(s, q.revoked, q.sequence), future);
    var forked;
    next, forked := MarkPushForks(next, q);
    o := o.(fork := forked);
  }

  method ReducePushStepwise(s: State, q: RevocationPush, p: Policy, now: int) returns (next: State)
    requires q.sequence > 0
    ensures next == ReducePush(s, q, p, now)
  {
    next := s;
    var seen := HasPush(next.observations, next.epoch, q);
    if seen { return; }
    var o;
    next, o := ClassifyPush(next, q, p, now);
    next := FinishPush(next, o, q, BeyondSkew(q.pushedAt, now, p.clockSkew));
  }

  method MarkPushForks(s: State, q: RevocationPush) returns (next: State, forked: bool)
    requires q.sequence > 0
    ensures var conflict := PushConflict(s.observations, s.epoch, q);
            var m := if conflict then MarkFork(s, q.sequence) else s;
            var omitted := Omission(m, q);
            next == (if omitted != 0 then MarkFork(m, omitted) else m) && forked == (conflict || omitted != 0)
  {
    next, forked := s, false;
    var conflict := FindPushConflict(next.observations, next.epoch, q);
    if conflict { next, forked := MarkFork(next, q.sequence), true; }
    var omitted := OmissionForPush(next, q);
    if omitted != 0 { next, forked := MarkFork(next, omitted), true; }
  }

  method FinishPush(s: State, record: Observation, q: RevocationPush, future: bool) returns (next: State)
    ensures next == ConcludePush(s, record, q, future)
  {
    next := s;
    var o := record;
    if next.hasFloor && q.sequence <= next.floor {
      if q.sequence == next.floor {
        if && next.hasPreceding && next.precedingFloor == q.sequence - 1
           && next.accepted != next.precedingAccepted + q.revoked
        {
          next, o := MarkFork(next, q.sequence), o.(fork := true);
        } else if !(q.revoked <= next.accepted) {
          next, o := MarkFork(next, q.sequence), o.(fork := true);
        } else if o.fork {
          o := o.(gap := true);
          next := next.(reconcile := true);
        }
      } else if !(q.revoked <= next.accepted) {
        next, o := MarkFork(next, q.sequence), o.(fork := true);
      }
    } else if !next.hasFloor || q.sequence != next.floor + 1 || next.reconcile || future {
      o := o.(gap := !o.fork);
      next := next.(reconcile := true);
    } else {
      next := next.(accepted := next.accepted + q.revoked);
      next := next.(hasPreceding := false, precedingFloor := 0, precedingAccepted := {});
      next := next.(floor := q.sequence);
      o := o.(accepted := true);
    }
    next := next.(observations := next.observations + [o]);
  }

  method ApplyRevocationPush(s: State, q: RevocationPush, issuer: IssuerId, epoch: int, key: KeyId, p: Policy, now: int)
    returns (r: Result<State>)
    ensures r == ApplyPush(s, q, issuer, epoch, key, p, now)
  {
    if !ValidPolicy(p) || !ValidTimestamp(now) { return Failure; }
    if !AuthenticPush(q, issuer, key) || !BindingOk(s, issuer, epoch) { return Failure; }
    if s.keyId != "" && s.keyId != key { return Failure; }
    var next := s;
    if next.issuer == "" { next := next.(issuer := issuer, epoch := epoch); }
    next := next.(keyId := key);
    next := ReducePushStepwise(next, q, p, now);
    next := PruneObservations(next);
    return Success(next);
  }
}

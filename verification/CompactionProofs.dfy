/** What the compaction keeps: where every retained observation comes from, what
    still covers every compacted one, and which records stay complete. */
module CompactionProofs {
  import opened StatusTypes
  import opened StatusCompaction
  import opened StatusReducer

  /** An observation agrees with the signed object it records. */
  ghost predicate ObservationOk(o: Observation) {
    && o.certs <= o.revokedSet
    && (o.evidence.ListEvidence? <==> o.IsList())
    && o.evidence.Sequence() == o.sequence && o.evidence.Revoked() == o.revokedSet
    && o.body.Sequence() == o.sequence && o.body.Revoked() == o.revokedSet
    && (o.IsPush() ==> o.body == o.evidence.Body())
    && (o.accepted ==> !o.fork && !o.futureDated)
  }

  /** Records that compaction must leave complete: those after the floor and
      the accepted pushes up to it. */
  ghost predicate Complete(s: State, o: Observation) {
    o.epoch == s.epoch && (o.sequence > s.floor || OnFloorPath(s, o))
  }

  /** A record after the floor is withheld for a reason and not accepted. */
  ghost predicate Withheld(s: State, o: Observation) {
    o.epoch == s.epoch && o.sequence > s.floor ==> !o.accepted && (o.gap || o.fork || o.futureDated)
  }

  /** What the compaction needs of its input. */
  ghost predicate Compactable(s: State, obs: seq<Observation>) {
    && (s.snapshot.Some? ==> s.snapshot.value.sequence <= s.floor)
    && forall o :: o in obs ==>
      && ObservationOk(o) && Withheld(s, o)
      && (IsBase(s, o) ==> !o.fork)
      && (Complete(s, o) ==> o.certs == o.revokedSet && FullRecord(s, o))
  }

  /** `r` is `o` up to narrowing and merging. */
  ghost predicate Derived(r: Observation, o: Observation) {
    && r.epoch == o.epoch && r.keyId == o.keyId && r.sequence == o.sequence
    && r.body == o.body && r.revokedSet == o.revokedSet && r.fork == o.fork
  }

  /** `r` still says everything that `o` did, as far as compaction keeps it. */
  ghost predicate Covers(s: State, r: Observation, o: Observation) {
    && r.epoch == o.epoch && r.sequence == o.sequence && TypeCode(r) == TypeCode(o)
    && DigestOf(r) == DigestOf(o) && r.fork == o.fork
    && (o.accepted ==> r.accepted)
    && (FullRecord(s, o) ==> o.certs <= r.certs)
    && (IsBase(s, o) && o.accepted ==> IsBase(s, r))
  }

  /** The two ways a step changes the retained list. */
  lemma StepCases(s: State, f: Fold, o: Observation)
    requires FoldOk(f)
    ensures var n := Narrow(s, f, o); var r := Step(s, f, o);
            || r.retained == f.retained + [n]
            || exists i :: 0 <= i < |f.retained| && Carries(f.retained[i], KeyOf(n))
                           && r.retained == f.retained[i := Merge(s, f.retained[i], n)]
  {
  }

  /** What holds of every retained observation. */
  ghost predicate RetainedOk(s: State, r: Observation) {
    && ObservationOk(r) && Withheld(s, r)
    && (IsBase(s, r) ==> !r.fork)
    && (Complete(s, r) ==> r.certs == r.revokedSet)
  }

  lemma MergeKeepsOk(s: State, prior: Observation, n: Observation)
    requires s.snapshot.Some? ==> s.snapshot.value.sequence <= s.floor
    requires RetainedOk(s, prior) && RetainedOk(s, n)
    requires Carries(prior, KeyOf(n))
    ensures RetainedOk(s, Merge(s, prior, n))
    ensures Derived(Merge(s, prior, n), prior)
  {
  }

  lemma NarrowKeepsOk(s: State, f: Fold, o: Observation)
    requires ObservationOk(o) && Withheld(s, o) && (IsBase(s, o) ==> !o.fork)
    requires Complete(s, o) ==> o.certs == o.revokedSet && FullRecord(s, o)
    ensures RetainedOk(s, Narrow(s, f, o)) && Derived(Narrow(s, f, o), o)
  {
  }

  ghost predicate DerivedFrom(r: Observation, obs: seq<Observation>) {
    exists o :: o in obs && Derived(r, o)
  }

  lemma {:induction false} RetainedAreDerived(s: State, obs: seq<Observation>)
    requires Compactable(s, obs)
    ensures forall r :: r in FoldAll(s, obs).retained ==> RetainedOk(s, r) && DerivedFrom(r, obs)
  {
    if obs != [] {
      var front, o := obs[..|obs| - 1], obs[|obs| - 1];
      assert obs == front + [o];
      RetainedAreDerived(s, front);
      StepDerives(s, FoldAll(s, front), front, o);
    }
  }

  lemma StepDerives(s: State, f: Fold, front: seq<Observation>, o: Observation)
    requires FoldOk(f) && Compactable(s, front + [o])
    requires forall r :: r in f.retained ==> RetainedOk(s, r) && DerivedFrom(r, front)
    ensures forall r :: r in Step(s, f, o).retained ==> RetainedOk(s, r) && DerivedFrom(r, front + [o])
  {
    var n := Narrow(s, f, o);
    var g := Step(s, f, o);
    assert o in front + [o];
    NarrowKeepsOk(s, f, o);
    StepCases(s, f, o);
    forall r | r in g.retained ensures RetainedOk(s, r) && DerivedFrom(r, front + [o]) {
      if r in f.retained {
        var x :| x in front && Derived(r, x);
        assert x in front + [o];
      } else if r == n {
        assert Derived(r, o);
      } else {
        var i :| 0 <= i < |f.retained| && Carries(f.retained[i], KeyOf(n)) && r == Merge(s, f.retained[i], n);
        assert f.retained[i] in f.retained;
        MergeKeepsOk(s, f.retained[i], n);
        var x :| x in front && Derived(f.retained[i], x);
        assert x in front + [o] && Derived(r, x);
      }
    }
  }

  lemma {:induction false} EveryObservationCovered(s: State, obs: seq<Observation>)
    requires Compactable(s, obs)
    ensures forall o :: o in obs ==> exists r :: r in FoldAll(s, obs).retained && Covers(s, r, o)
  {
    if obs != [] {
      var front, last := obs[..|obs| - 1], obs[|obs| - 1];
      var f := FoldAll(s, front);
      var g := FoldAll(s, obs);
      EveryObservationCovered(s, front);
      forall o | o in obs
        ensures exists r :: r in g.retained && Covers(s, r, o)
      {
        assert o in front || o == last;
        if o == last {
          LastIsCovered(s, f, last);
        } else {
          var r :| r in f.retained && Covers(s, r, o);
          CoverPersists(s, f, last, r, o);
        }
      }
    }
  }

  lemma LastIsCovered(s: State, f: Fold, o: Observation)
    requires FoldOk(f)
    ensures exists r :: r in Step(s, f, o).retained && Covers(s, r, o)
  {
    var n := Narrow(s, f, o);
    var g := Step(s, f, o);
    if KeyOf(n) in f.seen {
      var i := f.seen[KeyOf(n)];
      assert g.retained[i] in g.retained && Covers(s, g.retained[i], o);
    } else {
      assert g.retained[|f.retained|] == n;
      assert n in g.retained && Covers(s, n, o);
    }
  }

  lemma CoverPersists(s: State, f: Fold, last: Observation, r: Observation, o: Observation)
    requires FoldOk(f) && r in f.retained && Covers(s, r, o)
    ensures exists x :: x in Step(s, f, last).retained && Covers(s, x, o)
  {
    var g := Step(s, f, last);
    var i :| 0 <= i < |f.retained| && f.retained[i] == r;
    StepCases(s, f, last);
    assert g.retained[i] in g.retained;
    assert g.retained[i] == r || g.retained[i] == Merge(s, r, Narrow(s, f, last));
  }

  lemma {:induction false} NothingUnwitnessed(s: State, obs: seq<Observation>)
    ensures FoldAll(s, obs).witnessed == Witnessed(obs)
    ensures Witnessed(FoldAll(s, obs).retained) == Witnessed(obs)
  {
    if obs != [] {
      var front, o := obs[..|obs| - 1], obs[|obs| - 1];
      NothingUnwitnessed(s, front);
      var f := FoldAll(s, front);
      assert obs == front + [o];
      WitnessedConcat(front, o);
      WitnessedStep(s, f, o);
    }
  }

  lemma WitnessedConcat(obs: seq<Observation>, o: Observation)
    ensures Witnessed(obs + [o]) == Witnessed(obs) + o.certs
  {
    forall c | c in Witnessed(obs) + o.certs ensures c in Witnessed(obs + [o]) {
      if c in o.certs {
        assert o in obs + [o];
      } else {
        var x :| x in obs && c in x.certs;
        assert x in obs + [o];
      }
    }
  }

  lemma WitnessedUpdate(obs: seq<Observation>, i: int, x: Observation)
    requires 0 <= i < |obs| && obs[i].certs <= x.certs
    ensures Witnessed(obs[i := x]) == Witnessed(obs) + x.certs
  {
    var g := obs[i := x];
    forall c | c in Witnessed(obs) + x.certs ensures c in Witnessed(g) {
      if c in x.certs {
        assert g[i] in g;
      } else {
        var o :| o in obs && c in o.certs;
        var j :| 0 <= j < |obs| && obs[j] == o;
        assert g[j] in g && c in g[j].certs;
      }
    }
    forall c | c in Witnessed(g) ensures c in Witnessed(obs) + x.certs {
      var o :| o in g && c in o.certs;
      var j :| 0 <= j < |g| && g[j] == o;
      assert obs[j] in obs;
    }
  }

  lemma WitnessedStep(s: State, f: Fold, o: Observation)
    requires FoldOk(f) && f.witnessed == Witnessed(f.retained)
    ensures Witnessed(Step(s, f, o).retained) == f.witnessed + o.certs
  {
    var n := Narrow(s, f, o);
    assert f.witnessed + n.certs == f.witnessed + o.certs;
    if KeyOf(n) in f.seen {
      var i := f.seen[KeyOf(n)];
      assert f.retained[i] in f.retained;
      WitnessedUpdate(f.retained, i, Merge(s, f.retained[i], n));
    } else {
      WitnessedConcat(f.retained, n);
    }
  }

  /* ---- Accepted pushes are counted exactly ---- */

  predicate Counts(o: Observation, epoch: int, q: int) {
    o.epoch == epoch && o.IsPush() && o.accepted && o.sequence == q
  }

  function One(b: bool): nat { if b then 1 else 0 }

  lemma {:induction false} PushCountUpdate(obs: seq<Observation>, i: int, x: Observation, epoch: int, q: int)
    requires 0 <= i < |obs|
    ensures PushCount(obs[i := x], epoch, q) + One(Counts(obs[i], epoch, q))
            == PushCount(obs, epoch, q) + One(Counts(x, epoch, q))
  {
    var front := obs[..|obs| - 1];
    if i == |obs| - 1 {
      assert obs[i := x][..|obs| - 1] == front;
    } else {
      assert obs[i := x][..|obs| - 1] == front[i := x];
      PushCountUpdate(front, i, x, epoch, q);
    }
  }

  lemma {:induction false} PushCountAppend(obs: seq<Observation>, x: Observation, epoch: int, q: int)
    ensures PushCount(obs + [x], epoch, q) == PushCount(obs, epoch, q) + One(Counts(x, epoch, q))
  {
    assert (obs + [x])[..|obs|] == obs;
  }

  lemma {:induction false} PushCountPositive(obs: seq<Observation>, epoch: int, q: int)
    ensures PushCount(obs, epoch, q) > 0 <==> exists o :: o in obs && Counts(o, epoch, q)
  {
    if obs != [] {
      var front, o := obs[..|obs| - 1], obs[|obs| - 1];
      PushCountPositive(front, epoch, q);
      assert obs == front + [o];
      if PushCount(front, epoch, q) > 0 {
        var x :| x in front && Counts(x, epoch, q);
        assert x in obs;
      } else if Counts(o, epoch, q) {
        assert o in obs;
      }
    }
  }

  lemma {:induction false} PushCountSorted(obs: seq<Observation>, epoch: int, q: int)
    ensures PushCount(Sorted(obs), epoch, q) == PushCount(obs, epoch, q)
  {
    if obs != [] {
      PushCountSorted(obs[..|obs| - 1], epoch, q);
      PushCountInsert(Sorted(obs[..|obs| - 1]), obs[|obs| - 1], epoch, q);
    }
  }

  lemma {:induction false} PushCountInsert(sorted: seq<Observation>, o: Observation, epoch: int, q: int)
    requires InOrder(sorted)
    ensures PushCount(Insert(sorted, o), epoch, q) == PushCount(sorted, epoch, q) + One(Counts(o, epoch, q))
  {
    if sorted == [] {
      assert [o][..0] == [];
    } else if Before(o, sorted[|sorted| - 1]) {
      PushCountInsert(sorted[..|sorted| - 1], o, epoch, q);
      PushCountAppend(Insert(sorted[..|sorted| - 1], o), sorted[|sorted| - 1], epoch, q);
    } else {
      PushCountAppend(sorted, o, epoch, q);
    }
  }

  lemma {:induction false} PushCountFold(s: State, obs: seq<Observation>, epoch: int, q: int)
    ensures PushCount(FoldAll(s, obs).retained, epoch, q) <= PushCount(obs, epoch, q)
  {
    if obs != [] {
      var front, o := obs[..|obs| - 1], obs[|obs| - 1];
      var f := FoldAll(s, front);
      var n := Narrow(s, f, o);
      var g := Step(s, f, o);
      PushCountFold(s, front, epoch, q);
      StepCases(s, f, o);
      if g.retained == f.retained + [n] {
        PushCountAppend(f.retained, n, epoch, q);
      } else {
        var i :| 0 <= i < |f.retained| && Carries(f.retained[i], KeyOf(n))
                 && g.retained == f.retained[i := Merge(s, f.retained[i], n)];
        PushCountUpdate(f.retained, i, Merge(s, f.retained[i], n), epoch, q);
      }
    }
  }

  lemma {:induction false} PushCountPointwise(a: seq<Observation>, b: seq<Observation>, epoch: int, q: int)
    requires |a| == |b|
    requires forall i :: 0 <= i < |a| ==> Counts(a[i], epoch, q) == Counts(b[i], epoch, q)
    ensures PushCount(a, epoch, q) == PushCount(b, epoch, q)
  {
    if a != [] {
      PushCountPointwise(a[..|a| - 1], b[..|b| - 1], epoch, q);
    }
  }
}

/** When a commit of delivered status objects is refused: the validators of
    JournalTransitions lifted to whole journals, for one object exactly and for
    a batch sufficiently (security_journal_v2.go:95-146). */
module JournalCommits {
  import opened StatusTypes
  import opened StatusCompaction
  import opened StatusReducer
  import opened CompactionKeys
  import opened ReducerInvariant
  import opened ForkMarker
  import opened SecurityJournal
  import opened CompareAndSwap
  import opened JournalTransitions
  import opened JournalRecords
  import Runs = ReducerRuns
  import Writers = JournalWriters

  /* ---- Refusal ---- */

  /** The generations are used up and the content is new. */
  predicate Exhausted(j: Journal, u: Update)
    requires Change(j.content, u).Success?
  {
    j.generation >= MAX_SAFE_INTEGER && Prune(Change(j.content, u).value) != j.content
  }

  lemma DeliveryInherits(c: Content, u: Update, s: State, t: State, d: Content)
    requires Delivers(c, u, s, t, d) && Maintained(c, u.issuer)
    ensures Inherits(s, Compact(t))
  {
    BatchInherits(s, u.objects, u, t);
    CompactInherits(s, t);
  }

  lemma ProposalOf(j: Journal, u: Update, d: Content)
    requires Change(j.content, u) == Success(d)
    ensures Propose(j, u) == OfferContent(j, Prune(d))
  {
  }

  lemma PrunedExactly(j: Journal, issuer: IssuerId, s: State, t: State, d: Content)
    requires issuer in j.content.states && s == j.content.states[issuer]
    requires d == j.content.(states := j.content.states[issuer := t])
    ensures Inherits(s, Compact(t)) && Committed(j) ==>
            (OfferContent(j, Prune(d)).Refused? <==>
             !Passes(s, Compact(t)) || (j.generation >= MAX_SAFE_INTEGER && Prune(d) != j.content))
  {
    if Inherits(s, Compact(t)) && Committed(j) {
      assert OthersOk(j.content, Prune(d), issuer) && Prune(d).states[issuer] == Compact(t) by {
        UntouchedAreOk(j, issuer, t, d);
        PrunedAlike(j.content, issuer, t, d);
      }
      OfferedExactly(j, issuer, s, Compact(t), Prune(d));
    }
  }

  /** A commit is refused exactly when the touched state does not pass or no
      generation is left. */
  lemma RefusedIs(j: Journal, u: Update, s: State, t: State, d: Content)
    requires Committed(j) && Delivers(j.content, u, s, t, d) && Change(j.content, u) == Success(d)
    ensures Propose(j, u).Refused? <==> !Passes(s, Compact(t)) || Exhausted(j, u)
  {
    assert Maintained(j.content, u.issuer);
    DeliveryInherits(j.content, u, s, t, d);
    PrunedExactly(j, u.issuer, s, t, d);
    ProposalOf(j, u, d);
  }

  /* ---- One object ---- */

  function OpOf(e: Evidence, u: Update): Runs.Op
    requires u.Deliver?
  {
    match e
    case ListEvidence(l) => Runs.ListOp(l, u.issuer, u.epoch, u.key, u.policy, u.now)
    case PushEvidence(q) => Runs.PushOp(q, u.issuer, u.epoch, u.key, u.policy, u.now)
  }

  predicate IsRefusable(s: State, e: Evidence, u: Update)
    requires u.Deliver?
  {
    LeavesUnrecordedFork(s, OpOf(e, u)) || LeavesDisplacedBase(s, OpOf(e, u))
  }

  /** The commit of one object that the reducer applied is refused exactly when
      it leaves an unrecorded fork, displaces the record of the base, or no
      generation is left for a change. */
  lemma {:induction false} RefusedExactly(log: seq<Entry<Update>>, u: Update, e: Evidence)
    requires u.Deliver? && u.objects == [e]
    requires Change(Sequential(Writers.JournalProtocol(), log).content, u).Success?
    ensures var j := Sequential(Writers.JournalProtocol(), log);
            && u.issuer in j.content.states
            && (Propose(j, u).Refused? <==> IsRefusable(j.content.states[u.issuer], e, u) || Exhausted(j, u))
  {
    HistoryIsCommitted(log);
    CommitRefusedExactly(Sequential(Writers.JournalProtocol(), log), u, e);
  }

  lemma CommitRefusedExactly(j: Journal, u: Update, e: Evidence)
    requires Committed(j) && u.Deliver? && u.objects == [e] && Change(j.content, u).Success?
    ensures u.issuer in j.content.states
    ensures Propose(j, u).Refused? <==> IsRefusable(j.content.states[u.issuer], e, u) || Exhausted(j, u)
  {
    var s, t, d := DeliveryIs(j.content, u);
    CommittedState(j, u.issuer);
    OneObject(s, e, u, t);
    JournalAcceptsExactly(s, OpOf(e, u));
    RefusedIs(j, u, s, t, d);
  }

  lemma OneObject(s: State, e: Evidence, u: Update, t: State)
    requires u.Deliver? && ApplyObjects(s, [e], u) == Success(t)
    ensures Runs.Attempt(s, OpOf(e, u)) == Success(t)
  {
    LastObject(s, [e], u);
    assert [e][..0] == [];
    OpIs(s, e, u);
  }

  lemma OpIs(s: State, e: Evidence, u: Update)
    requires u.Deliver?
    ensures Runs.Attempt(s, OpOf(e, u)) == ApplyObject(s, e, u)
  {
  }

  lemma {:induction false} LastObject(s: State, objects: seq<Evidence>, u: Update)
    requires u.Deliver? && objects != [] && ApplyObjects(s, objects, u).Success?
    ensures var front := ApplyObjects(s, objects[..|objects| - 1], u);
            front.Success? && ApplyObject(front.value, objects[|objects| - 1], u) == ApplyObjects(s, objects, u)
  {
  }

  /* ---- Batches ---- */

  /** The objects of a batch as operations on the issuer's state. */
  function OpsOf(objects: seq<Evidence>, u: Update): (r: seq<Runs.Op>)
    requires u.Deliver?
    ensures |r| == |objects|
  {
    if objects == [] then [] else OpsOf(objects[..|objects| - 1], u) + [OpOf(objects[|objects| - 1], u)]
  }

  /** The n-th object applies where those before it have led. */
  predicate AppliesAt(s: State, objects: seq<Evidence>, u: Update, n: int)
    requires u.Deliver? && 0 <= n < |objects|
  {
    Runs.Attempt(Runs.Run(s, OpsOf(objects[..n], u)), OpOf(objects[n], u)).Success?
  }

  ghost predicate EachApplies(s: State, objects: seq<Evidence>, u: Update)
    requires u.Deliver?
  {
    forall n :: 0 <= n < |objects| ==> AppliesAt(s, objects, u, n)
  }

  /** A batch is taken exactly if each of its objects applies after those before
      it, and then it leaves what delivering them one by one would. */
  lemma {:induction false} BatchIsRun(s: State, objects: seq<Evidence>, u: Update)
    requires u.Deliver?
    ensures var r := ApplyObjects(s, objects, u);
            && (r.Success? <==> EachApplies(s, objects, u))
            && (r.Success? ==> r.value == Runs.Run(s, OpsOf(objects, u)))
  {
    if objects != [] {
      BatchIsRun(s, objects[..|objects| - 1], u);
      EachAppliesTo(s, objects, u);
      OneMoreObject(s, objects, u);
    }
  }

  lemma EachAppliesTo(s: State, objects: seq<Evidence>, u: Update)
    requires u.Deliver? && objects != []
    ensures EachApplies(s, objects, u)
            <==> EachApplies(s, objects[..|objects| - 1], u) && AppliesAt(s, objects, u, |objects| - 1)
  {
    var front := objects[..|objects| - 1];
    assert objects == front + [objects[|objects| - 1]];
    forall n | 0 <= n < |front| ensures AppliesAt(s, objects, u, n) <==> AppliesAt(s, front, u, n) {
      AppliesToo(s, front, objects[|objects| - 1], u, n);
    }
  }

  lemma AppliesToo(s: State, front: seq<Evidence>, e: Evidence, u: Update, n: int)
    requires u.Deliver? && 0 <= n < |front|
    ensures AppliesAt(s, front + [e], u, n) <==> AppliesAt(s, front, u, n)
  {
    assert front[..n] == (front + [e])[..n];
  }

  lemma OneMoreObject(s: State, objects: seq<Evidence>, u: Update)
    requires u.Deliver? && objects != []
    requires var front := objects[..|objects| - 1]; ApplyObjects(s, front, u).Success? ==>
               ApplyObjects(s, front, u).value == Runs.Run(s, OpsOf(front, u))
    ensures var front := ApplyObjects(s, objects[..|objects| - 1], u); var r := ApplyObjects(s, objects, u);
            && (r.Success? <==> front.Success? && AppliesAt(s, objects, u, |objects| - 1))
            && (r.Success? ==> r.value == Runs.Run(s, OpsOf(objects, u)))
  {
    var front := objects[..|objects| - 1];
    if ApplyObjects(s, front, u).Success? { OpIs(ApplyObjects(s, front, u).value, objects[|objects| - 1], u); }
    var ops := OpsOf(objects, u);
    assert ops[..|ops| - 1] == OpsOf(front, u);
  }

  /** The states between the objects of a batch. */
  ghost function Stages(s: State, objects: seq<Evidence>, u: Update): (r: seq<State>)
    requires u.Deliver? && ApplyObjects(s, objects, u).Success?
    ensures |r| == |objects| + 1
  {
    if objects == [] then [s]
    else Stages(s, objects[..|objects| - 1], u) + [ApplyObjects(s, objects, u).value]
  }

  lemma {:induction false} StageAt(s: State, objects: seq<Evidence>, u: Update, n: nat)
    requires u.Deliver? && ApplyObjects(s, objects, u).Success? && n <= |objects|
    ensures ApplyObjects(s, objects[..n], u) == Success(Stages(s, objects, u)[n])
  {
    if n == |objects| {
      assert objects[..n] == objects;
    } else {
      var front := objects[..|objects| - 1];
      LastObject(s, objects, u);
      StageAt(s, front, u, n);
      assert front[..n] == objects[..n];
    }
  }

  lemma {:induction false} StageStep(s: State, objects: seq<Evidence>, u: Update, n: nat)
    requires u.Deliver? && ApplyObjects(s, objects, u).Success? && n < |objects|
    ensures var ss := Stages(s, objects, u); Runs.Attempt(ss[n], OpOf(objects[n], u)) == Success(ss[n + 1])
  {
    StageAt(s, objects, u, n);
    StageAt(s, objects, u, n + 1);
    LastObject(s, objects[..n + 1], u);
    assert objects[..n + 1][..n] == objects[..n];
    OpIs(Stages(s, objects, u)[n], objects[n], u);
  }

  lemma {:induction false} StageEnds(s: State, objects: seq<Evidence>, u: Update)
    requires u.Deliver? && ApplyObjects(s, objects, u).Success?
    ensures var ss := Stages(s, objects, u); ss[0] == s && ss[|objects|] == ApplyObjects(s, objects, u).value
  {
    StageAt(s, objects, u, 0);
    StageAt(s, objects, u, |objects|);
    assert objects[..|objects|] == objects;
  }

  /** No object of the batch is refusable where it is applied, and
      reconciliation is not cleared by one and asked for again by a later
      one. */
  ghost predicate Smooth(s: State, objects: seq<Evidence>, u: Update)
    requires u.Deliver? && ApplyObjects(s, objects, u).Success?
  {
    var ss := Stages(s, objects, u);
    && (forall i :: 0 <= i < |objects| ==> !IsRefusable(ss[i], objects[i], u))
    && Steady(ss)
  }

  lemma {:induction false} SmoothStage(s: State, objects: seq<Evidence>, u: Update, n: nat)
    requires u.Deliver? && BoundInv(s) && ForkMarked(s) && FutureKeysDiffer(s.observations)
    requires ApplyObjects(s, objects, u).Success? && Smooth(s, objects, u) && n <= |objects|
    ensures var ss := Stages(s, objects, u);
            && BoundInv(ss[n]) && ForkMarked(ss[n]) && FutureKeysDiffer(ss[n].observations)
            && (n > 0 ==> Links(ss[n - 1], ss[n]))
  {
    var ss := Stages(s, objects, u);
    StageEnds(s, objects, u);
    if n > 0 {
      SmoothStage(s, objects, u, n - 1);
      StageStep(s, objects, u, n - 1);
      assert !IsRefusable(ss[n - 1], objects[n - 1], u);
      SmoothStep(ss[n - 1], OpOf(objects[n - 1], u), ss[n]);
    }
  }

  lemma SmoothStep(s: State, op: Runs.Op, t: State)
    requires BoundInv(s) && ForkMarked(s) && FutureKeysDiffer(s.observations)
    requires Runs.Attempt(s, op) == Success(t) && !op.EpochOp?
    requires !LeavesUnrecordedFork(s, op) && !LeavesDisplacedBase(s, op)
    ensures BoundInv(t) && ForkMarked(t) && FutureKeysDiffer(t.observations) && Links(s, t)
  {
    OperationLinks(s, op);
    LinkKeeps(s, t);
    MarkedExactly(s, op);
  }

  lemma PrunedIsValid(t: State)
    requires BoundInv(t) && ForkMarked(t)
    ensures (t.hasFloor ==> t.snapshot.Some?) && AcceptedOk(Compact(t))
  {
    CompactKeepsInv(t);
    InvImpliesValid(Compact(t));
    CompactKeepsForkMarker(t);
  }

  lemma SmoothIsAccepted(s: State, objects: seq<Evidence>, u: Update, t: State)
    requires u.Deliver? && BoundInv(s) && ForkMarked(s) && FutureKeysDiffer(s.observations)
    requires ApplyObjects(s, objects, u) == Success(t) && Smooth(s, objects, u)
    ensures Passes(s, Compact(t))
  {
    var ss := Stages(s, objects, u);
    StageEnds(s, objects, u);
    SmoothStage(s, objects, u, |objects|);
    PrunedIsValid(t);
    CompactionLinks(t);
    forall i | 0 < i < |ss| ensures Links(ss[i - 1], ss[i]) { SmoothStage(s, objects, u, i); }
    OneMoreLink(ss, Compact(t));
    ChainIsAccepted(ss + [Compact(t)]);
  }

  lemma OneMoreLink(ss: seq<State>, t: State)
    requires ss != [] && BoundInv(ss[0]) && (forall i :: 0 < i < |ss| ==> Links(ss[i - 1], ss[i])) && Steady(ss)
    requires Links(Last(ss), t) && t.reconcile == Last(ss).reconcile
    ensures Chain(ss + [t]) && Steady(ss + [t])
  {
    var xs := ss + [t];
    forall i | 0 < i < |xs| ensures Links(xs[i - 1], xs[i]) {
      if i < |ss| { assert xs[i - 1] == ss[i - 1] && xs[i] == ss[i]; }
    }
  }

  /** A whole batch is committed at once when it is smooth, unless no
      generation is left. */
  lemma {:induction false} SmoothBatchIsCommitted(log: seq<Entry<Update>>, u: Update)
    requires u.Deliver? && Change(Sequential(Writers.JournalProtocol(), log).content, u).Success?
    ensures var j := Sequential(Writers.JournalProtocol(), log);
            && u.issuer in j.content.states && ApplyObjects(j.content.states[u.issuer], u.objects, u).Success?
            && (Smooth(j.content.states[u.issuer], u.objects, u) && Propose(j, u).Refused? ==> Exhausted(j, u))
  {
    HistoryIsCommitted(log);
    var j := Sequential(Writers.JournalProtocol(), log);
    var s, t, d := DeliveryIs(j.content, u);
    CommittedState(j, u.issuer);
    if Smooth(s, u.objects, u) {
      SmoothIsAccepted(s, u.objects, u, t);
      RefusedIs(j, u, s, t, d);
    }
  }
}

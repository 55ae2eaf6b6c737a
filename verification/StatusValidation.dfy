/** validateAcceptedStatusStateV2 as the source runs it: loops with accumulators
    and a sorted list of accepted pushes that must be contiguous.  It decides
    AcceptedOk. */
module StatusValidation {
  import opened StatusTypes
  import opened StatusCompaction
  import opened StatusReducer
  import opened CompactionProofs

  /* ---- Contiguity of a sorted list ---- */

  predicate Ascending(xs: seq<int>) { forall i, j :: 0 <= i < j < |xs| ==> xs[i] <= xs[j] }

  predicate Within(xs: seq<int>, base: int, floor: int) { forall i :: 0 <= i < |xs| ==> base < xs[i] <= floor }

  /** Whether every element is at most `top`. */
  predicate Below(xs: seq<int>, top: int) { forall i :: 0 <= i < |xs| ==> xs[i] <= top }

  lemma SameElements(xs: seq<int>, ys: seq<int>, i: int)
    requires multiset(xs) == multiset(ys) && 0 <= i < |xs|
    ensures exists j :: 0 <= j < |ys| && ys[j] == xs[i]
  {
    assert xs[i] in multiset(xs);
    assert xs[i] in ys;
  }

  function InsertInt(xs: seq<int>, x: int): (r: seq<int>)
    requires Ascending(xs)
    ensures Ascending(r) && multiset(r) == multiset(xs) + multiset{x}
  {
    if xs == [] then [x]
    else
      assert xs == xs[..|xs| - 1] + [xs[|xs| - 1]];
      if xs[|xs| - 1] <= x then xs + [x]
      else
        var r := InsertInt(xs[..|xs| - 1], x);
        InsertedBelow(xs[..|xs| - 1], x, r, xs[|xs| - 1]);
        r + [xs[|xs| - 1]]
  }

  lemma InsertedBelow(xs: seq<int>, x: int, r: seq<int>, top: int)
    requires multiset(r) == multiset(xs) + multiset{x} && Below(xs, top) && x <= top
    ensures Below(r, top)
  {
    assert multiset(r) == multiset(xs + [x]);
    forall i | 0 <= i < |r| ensures r[i] <= top { SameElements(r, xs + [x], i); }
  }

  function SortInts(xs: seq<int>): (r: seq<int>)
    ensures Ascending(r) && multiset(r) == multiset(xs)
  {
    if xs == [] then []
    else
      assert xs == xs[..|xs| - 1] + [xs[|xs| - 1]];
      InsertInt(SortInts(xs[..|xs| - 1]), xs[|xs| - 1])
  }

  predicate Contiguous(xs: seq<int>, base: int, floor: int) {
    base + |xs| == floor && forall i :: 0 <= i < |xs| ==> xs[i] == base + i + 1
  }

  predicate OnceEach(xs: seq<int>, base: int, floor: int) {
    forall q :: base < q <= floor ==> multiset(xs)[q] == 1
  }

  /** A sorted list over a range is contiguous exactly when it holds every
      number of the range once. */
  lemma {:induction false} ContiguousExactly(xs: seq<int>, base: int, floor: int)
    requires base <= floor && Ascending(xs) && Within(xs, base, floor)
    ensures Contiguous(xs, base, floor) <==> OnceEach(xs, base, floor)
  {
    if xs == [] {
      if base < floor { assert multiset(xs)[base + 1] == 0; }
    } else {
      var front, last := xs[..|xs| - 1], xs[|xs| - 1];
      if last != floor {
        MissingFloor(xs, base, floor);
      } else if floor in front {
        RepeatedFloor(xs, base, floor);
      } else {
        forall i | 0 <= i < |front|
          ensures base < front[i] <= floor - 1
        {
          assert front[i] == xs[i] && front[i] in front;
        }
        ContiguousExactly(front, base, floor - 1);
        OnceEachFront(xs, base, floor);
      }
    }
  }

  lemma MissingFloor(xs: seq<int>, base: int, floor: int)
    requires xs != [] && Ascending(xs) && Within(xs, base, floor) && xs[|xs| - 1] != floor
    ensures !Contiguous(xs, base, floor) && !OnceEach(xs, base, floor)
  {
    assert floor !in xs;
    assert multiset(xs)[floor] == 0;
  }

  lemma RepeatedFloor(xs: seq<int>, base: int, floor: int)
    requires xs != [] && base < floor && xs[|xs| - 1] == floor && floor in xs[..|xs| - 1]
    ensures !Contiguous(xs, base, floor) && !OnceEach(xs, base, floor)
  {
    var front := xs[..|xs| - 1];
    assert xs == front + [floor];
    var i :| 0 <= i < |front| && front[i] == floor;
    assert xs[i] == floor;
    assert floor in multiset(front) && multiset(xs)[floor] >= 2;
  }

  lemma OnceEachFront(xs: seq<int>, base: int, floor: int)
    requires xs != [] && xs[|xs| - 1] == floor && base < floor && floor !in xs[..|xs| - 1]
    ensures OnceEach(xs, base, floor) <==> OnceEach(xs[..|xs| - 1], base, floor - 1)
  {
    var front := xs[..|xs| - 1];
    assert xs == front + [floor];
    forall q ensures multiset(xs)[q] == multiset(front)[q] + if q == floor then 1 else 0 {}
    assert multiset(front)[floor] == 0;
    if OnceEach(front, base, floor - 1) {
      forall q | base < q <= floor ensures multiset(xs)[q] == 1 { assert q < floor ==> multiset(front)[q] == 1; }
    }
    if OnceEach(xs, base, floor) {
      forall q | base < q <= floor - 1 ensures multiset(front)[q] == 1 { assert multiset(xs)[q] == 1; }
    }
  }

  /* ---- The accepted pushes after the snapshot ---- */

  /** The sequences of the accepted pushes after `base`, up to `floor`. */
  function PushSequences(obs: seq<Observation>, epoch: int, base: int, floor: int): seq<int> {
    if obs == [] then []
    else
      var o := obs[|obs| - 1];
      PushSequences(obs[..|obs| - 1], epoch, base, floor)
      + if o.epoch == epoch && o.IsPush() && o.accepted && base < o.sequence <= floor then [o.sequence] else []
  }

  lemma {:induction false} SequencesCount(obs: seq<Observation>, epoch: int, base: int, floor: int, q: int)
    requires base < q <= floor
    ensures multiset(PushSequences(obs, epoch, base, floor))[q] == PushCount(obs, epoch, q)
  {
    if obs != [] {
      SequencesCount(obs[..|obs| - 1], epoch, base, floor, q);
    }
  }

  lemma {:induction false} SequencesWithin(obs: seq<Observation>, epoch: int, base: int, floor: int)
    ensures Within(PushSequences(obs, epoch, base, floor), base, floor)
  {
    if obs != [] { SequencesWithin(obs[..|obs| - 1], epoch, base, floor); }
  }

  predicate OnePushEach(obs: seq<Observation>, epoch: int, base: int, floor: int) {
    forall q :: base < q <= floor ==> PushCount(obs, epoch, q) == 1
  }

  /** The sorted pushes are contiguous from the snapshot to the floor exactly
      when every sequence between has one accepted push. */
  lemma {:induction false} PushesContiguous(obs: seq<Observation>, epoch: int, base: int, floor: int, xs: seq<int>,
                                            sorted: seq<int>)
    requires base <= floor && xs == PushSequences(obs, epoch, base, floor)
    requires Ascending(sorted) && multiset(sorted) == multiset(xs)
    ensures Contiguous(sorted, base, floor) <==> OnePushEach(obs, epoch, base, floor)
  {
    SequencesWithin(obs, epoch, base, floor);
    forall i | 0 <= i < |sorted| ensures base < sorted[i] <= floor { SameElements(sorted, xs, i); }
    ContiguousExactly(sorted, base, floor);
    forall q | base < q <= floor ensures multiset(sorted)[q] == PushCount(obs, epoch, q) {
      SequencesCount(obs, epoch, base, floor, q);
    }
    CountsAgree(obs, epoch, base, floor, sorted);
  }

  lemma {:induction false} CountsAgree(obs: seq<Observation>, epoch: int, base: int, floor: int, sorted: seq<int>)
    requires forall q :: base < q <= floor ==> multiset(sorted)[q] == PushCount(obs, epoch, q)
    ensures OnceEach(sorted, base, floor) <==> OnePushEach(obs, epoch, base, floor)
  {
    if OnceEach(sorted, base, floor) {
      forall q | base < q <= floor ensures PushCount(obs, epoch, q) == 1 { assert multiset(sorted)[q] == 1; }
    }
    if OnePushEach(obs, epoch, base, floor) {
      forall q | base < q <= floor ensures multiset(sorted)[q] == 1 { assert PushCount(obs, epoch, q) == 1; }
    }
  }

  /* ---- The loops ---- */

  predicate ObservationValid(s: State, o: Observation) {
    && 0 < o.sequence <= MAX_SAFE_INTEGER && o.keyId != "" && "" !in o.certs
    && (o.epoch == s.epoch ==> o.sequence <= s.maxObserved)
    && o.certs <= s.denyUnion
  }

  method ScanObservations(s: State) returns (ok: bool, observed: set<CertId>, forkRecorded: bool)
    ensures ok == ObservationsOk(s)
    ensures ok ==> observed == Witnessed(s.observations) && forkRecorded == ForkRecorded(s)
  {
    ok, observed, forkRecorded := true, {}, false;
    for i := 0 to |s.observations|
      invariant forall k :: 0 <= k < i ==> ObservationValid(s, s.observations[k])
      invariant observed == Witnessed(s.observations[..i])
      invariant forkRecorded <==> exists k :: 0 <= k < i && s.observations[k].epoch == s.epoch && s.observations[k].fork
    {
      var o := s.observations[i];
      if !ObservationValid(s, o) {
        assert o in s.observations;
        ok := false;
        return;
      }
      assert s.observations[..i + 1] == s.observations[..i] + [o];
      WitnessedConcat(s.observations[..i], o);
      forkRecorded := forkRecorded || (o.epoch == s.epoch && o.fork);
      observed := observed + o.certs;
    }
    assert s.observations[..|s.observations|] == s.observations;
    if forkRecorded {
      var k :| 0 <= k < |s.observations| && s.observations[k].epoch == s.epoch && s.observations[k].fork;
      assert s.observations[k] in s.observations;
    }
  }

  method HasBase(s: State) returns (found: bool)
    requires s.snapshot.Some?
    ensures found <==> exists o :: o in s.observations && IsBase(s, o) && o.accepted && !o.fork && !o.futureDated
  {
    for i := 0 to |s.observations|
      invariant forall o :: o in s.observations[..i] ==> !(IsBase(s, o) && o.accepted && !o.fork && !o.futureDated)
    {
      var o := s.observations[i];
      if IsBase(s, o) && o.accepted && !o.fork && !o.futureDated { return true; }
    }
    return false;
  }

  ghost function PathCerts(s: State, obs: seq<Observation>): set<CertId> {
    set o, c | o in obs && OnFloorPath(s, o) && c in o.certs :: c
  }

  lemma PathCertsOneMore(s: State, obs: seq<Observation>, o: Observation)
    ensures PathCerts(s, obs + [o]) == PathCerts(s, obs) + if OnFloorPath(s, o) then o.certs else {}
  {
    forall c | c in PathCerts(s, obs) ensures c in PathCerts(s, obs + [o]) {
      var x :| x in obs && OnFloorPath(s, x) && c in x.certs;
      assert x in obs + [o];
    }
    assert o in obs + [o];
  }

  method CollectPushes(s: State) returns (sequences: seq<int>, certs: set<CertId>)
    requires s.snapshot.Some?
    ensures sequences == PushSequences(s.observations, s.epoch, s.snapshot.value.sequence, s.floor)
    ensures certs == FloorPathCerts(s)
  {
    sequences, certs := [], {};
    for i := 0 to |s.observations|
      invariant sequences == PushSequences(s.observations[..i], s.epoch, s.snapshot.value.sequence, s.floor)
      invariant certs == PathCerts(s, s.observations[..i])
    {
      var o := s.observations[i];
      assert s.observations[..i + 1][..i] == s.observations[..i];
      assert s.observations[..i + 1] == s.observations[..i] + [o];
      PathCertsOneMore(s, s.observations[..i], o);
      if OnFloorPath(s, o) {
        sequences := sequences + [o.sequence];
        certs := certs + o.certs;
      }
    }
    assert s.observations[..|s.observations|] == s.observations;
  }

  method IsContiguous(xs: seq<int>, base: int, floor: int) returns (ok: bool)
    ensures ok == Contiguous(xs, base, floor)
  {
    var expected := base;
    for i := 0 to |xs|
      invariant expected == base + i && forall k :: 0 <= k < i ==> xs[k] == base + k + 1
    {
      if xs[i] != expected + 1 { return false; }
      expected := xs[i];
    }
    return expected == floor;
  }

  method ValidateAccepted(s: State) returns (ok: bool)
    requires s.hasFloor ==> s.snapshot.Some?
    ensures ok == AcceptedOk(s)
  {
    var valid, observed, forkRecorded := ScanObservations(s);
    if !valid || !(s.denyUnion <= observed) { return false; }
    if s.forkSequence > 0 && (!s.reconcile || !forkRecorded) { return false; }
    if !s.hasFloor { return true; }
    ok := ValidateHistory(s);
  }

  method ValidateHistory(s: State) returns (ok: bool)
    requires s.hasFloor && s.snapshot.Some?
    ensures ok == HistoryOk(s)
  {
    var base := s.snapshot.value.sequence;
    if s.floor > s.maxObserved || s.snapshot.value.issuer != s.issuer || base > s.floor { return false; }
    var based := HasBase(s);
    if !based { return false; }
    var sequences, certs := CollectPushes(s);
    var sorted := SortInts(sequences);
    var contiguous := IsContiguous(sorted, base, s.floor);
    PushesContiguous(s.observations, s.epoch, base, s.floor, sequences, sorted);
    assert contiguous == OnePushEach(s.observations, s.epoch, base, s.floor);
    ok := contiguous && s.accepted == s.snapshot.value.revoked + certs;
  }
}

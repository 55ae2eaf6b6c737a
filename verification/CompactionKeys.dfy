/** What the semantic keys of a compaction find afterwards.  A record is kept
    under its key unless the record of a future-dated base is merged into one
    that sorts before it: the merged record is the accepted base and no longer
    future-dated, so no record of that key is left. */
module CompactionKeys {
  import opened StatusTypes
  import opened StatusCompaction
  import opened CompactionProofs
  import opened ReducerInvariant

  /* ---- Keys ---- */

  /** No two records share a semantic key. */
  ghost predicate KeysDistinct(obs: seq<Observation>) {
    forall i, j :: 0 <= i < j < |obs| ==> KeyOf(obs[i]) != KeyOf(obs[j])
  }

  /** No future-dated record has the key of another one. */
  ghost predicate FutureKeysDiffer(obs: seq<Observation>) {
    forall i, j :: 0 <= i < j < |obs| && obs[j].futureDated ==> KeyOf(obs[i]) != KeyOf(obs[j])
  }

  /** Whether merging takes a future-dated key away: an earlier record has the
      key of a later one that is the future-dated record of the base. */
  ghost predicate Displaced(s: State, obs: seq<Observation>, i: int, j: int)
    requires 0 <= i < j < |obs|
  {
    KeyOf(obs[i]) == KeyOf(obs[j]) && obs[j].futureDated && IsBase(s, obs[j])
  }

  ghost predicate NothingDisplaced(s: State, obs: seq<Observation>) {
    forall i, j :: 0 <= i < j < |obs| ==> !Displaced(s, obs, i, j)
  }

  /** Every retained record is found under its own key. */
  ghost predicate Exact(f: Fold)
    requires FoldOk(f)
  {
    && (forall k :: k in f.seen ==> KeyOf(f.retained[f.seen[k]]) == k)
    && (forall i :: 0 <= i < |f.retained| ==> KeyOf(f.retained[i]) in f.seen && f.seen[KeyOf(f.retained[i])] == i)
  }

  lemma NarrowKeepsKey(s: State, f: Fold, o: Observation)
    ensures KeyOf(Narrow(s, f, o)) == KeyOf(o)
  {
  }

  lemma StepSeen(s: State, f: Fold, o: Observation)
    requires FoldOk(f)
    ensures forall k :: k in Step(s, f, o).seen <==> k in f.seen || k == KeyOf(o)
  {
    NarrowKeepsKey(s, f, o);
  }

  ghost predicate Occurs(obs: seq<Observation>, k: SemanticKey) {
    exists i :: 0 <= i < |obs| && KeyOf(obs[i]) == k
  }

  lemma OccursAppend(front: seq<Observation>, o: Observation, k: SemanticKey)
    ensures Occurs(front + [o], k) <==> Occurs(front, k) || KeyOf(o) == k
  {
    var obs := front + [o];
    if Occurs(front, k) {
      var i :| 0 <= i < |front| && KeyOf(front[i]) == k;
      assert KeyOf(obs[i]) == k;
    }
    if KeyOf(o) == k { assert KeyOf(obs[|front|]) == k; }
  }

  lemma {:induction false} SeenKeys(s: State, obs: seq<Observation>)
    ensures forall k :: k in FoldAll(s, obs).seen <==> Occurs(obs, k)
  {
    if obs != [] {
      var front, o := obs[..|obs| - 1], obs[|obs| - 1];
      SeenKeys(s, front);
      StepSeen(s, FoldAll(s, front), o);
      assert obs == front + [o];
      forall k ensures k in FoldAll(s, obs).seen <==> Occurs(obs, k) { OccursAppend(front, o, k); }
    }
  }

  /** A merge that is not of a future-dated base keeps the key. */
  lemma MergeKeepsKey(s: State, prior: Observation, n: Observation)
    requires ObservationOk(prior) && ObservationOk(n) && KeyOf(prior) == KeyOf(n) && (n.futureDated ==> !IsBase(s, n))
    ensures KeyOf(Merge(s, prior, n)) == KeyOf(prior)
  {
  }

  lemma StepExact(s: State, f: Fold, o: Observation)
    requires FoldOk(f) && Exact(f)
    requires forall r :: r in f.retained ==> ObservationOk(r)
    requires ObservationOk(o)
    requires KeyOf(o) in f.seen && o.futureDated ==> !IsBase(s, o)
    ensures Exact(Step(s, f, o))
  {
    var n := Narrow(s, f, o);
    NarrowKeepsKey(s, f, o);
    if KeyOf(n) in f.seen {
      var i := f.seen[KeyOf(n)];
      assert f.retained[i] in f.retained && KeyOf(f.retained[i]) == KeyOf(n);
      MergeKeepsKey(s, f.retained[i], n);
      UpdateExact(f, i, Merge(s, f.retained[i], n), f.witnessed + o.certs);
    } else {
      AppendExact(f, n, f.witnessed + o.certs);
    }
  }

  lemma UpdateExact(f: Fold, i: int, r: Observation, witnessed: set<CertId>)
    requires FoldOk(f) && Exact(f) && 0 <= i < |f.retained| && KeyOf(r) == KeyOf(f.retained[i])
    ensures var g := Fold(f.retained[i := r], witnessed, f.seen); FoldOk(g) && Exact(g)
  {
  }

  lemma AppendExact(f: Fold, n: Observation, witnessed: set<CertId>)
    requires FoldOk(f) && Exact(f) && KeyOf(n) !in f.seen
    ensures var g := Fold(f.retained + [n], witnessed, f.seen[KeyOf(n) := |f.retained|]); FoldOk(g) && Exact(g)
  {
  }

  lemma {:induction false} FoldExact(s: State, obs: seq<Observation>)
    requires Compactable(s, obs) && NothingDisplaced(s, obs)
    ensures Exact(FoldAll(s, obs))
  {
    if obs != [] {
      var front, o := obs[..|obs| - 1], obs[|obs| - 1];
      forall i, j | 0 <= i < j < |front| ensures !Displaced(s, front, i, j) { assert !Displaced(s, obs, i, j); }
      FoldExact(s, front);
      RetainedAreDerived(s, front);
      SeenKeys(s, front);
      if KeyOf(o) in FoldAll(s, front).seen {
        var i :| 0 <= i < |front| && KeyOf(front[i]) == KeyOf(o);
        assert !Displaced(s, obs, i, |obs| - 1);
      }
      StepExact(s, FoldAll(s, front), o);
    }
  }

  /* ---- What a key still finds ---- */

  /** `r` says of `o` what the validator asks for. */
  predicate StillSays(s: State, r: Observation, o: Observation) {
    && (FullRecord(s, o) ==> o.certs <= r.certs)
    && (o.fork ==> r.fork) && (o.accepted ==> r.accepted)
    && (o.gap && s.reconcile ==> r.gap)
  }

  /** Under the key of every input there is a record that still says it. */
  ghost predicate SaysAll(s: State, f: Fold, obs: seq<Observation>) {
    && FoldOk(f)
    && forall o :: o in obs ==> KeyOf(o) in f.seen && StillSays(s, f.retained[f.seen[KeyOf(o)]], o)
  }

  lemma StepSaysAll(s: State, f: Fold, front: seq<Observation>, o: Observation)
    requires SaysAll(s, f, front)
    ensures SaysAll(s, Step(s, f, o), front + [o])
  {
    var n := Narrow(s, f, o);
    var g := Step(s, f, o);
    NarrowKeepsKey(s, f, o);
    forall x | x in front + [o] ensures KeyOf(x) in g.seen && StillSays(s, g.retained[g.seen[KeyOf(x)]], x) {
      if x in front { assert StillSays(s, f.retained[f.seen[KeyOf(x)]], x); }
    }
  }

  lemma {:induction false} FoldSaysAll(s: State, obs: seq<Observation>)
    ensures SaysAll(s, FoldAll(s, obs), obs)
  {
    if obs != [] {
      FoldSaysAll(s, obs[..|obs| - 1]);
      StepSaysAll(s, FoldAll(s, obs[..|obs| - 1]), obs[..|obs| - 1], obs[|obs| - 1]);
      assert obs == obs[..|obs| - 1] + [obs[|obs| - 1]];
    }
  }

  /** The keys of the compacted records are those of the retained ones. */
  lemma {:induction false} CompactedKeys(m: State, i: int)
    requires 0 <= i < |Compacted(m)|
    ensures var r := FoldAll(m, Sorted(m.observations)).retained;
            && |r| == |Compacted(m)| && KeyOf(Compacted(m)[i]) == KeyOf(r[i])
            && Compacted(m)[i].certs == r[i].certs && Compacted(m)[i].fork == r[i].fork
            && Compacted(m)[i].accepted == r[i].accepted
            && (m.reconcile ==> Compacted(m)[i] == r[i])
  {
    CompactedIsRetained(m);
  }

  lemma {:induction false} ExactIsDistinct(m: State)
    requires Exact(FoldAll(m, Sorted(m.observations)))
    ensures KeysDistinct(Compacted(m))
  {
    var f := FoldAll(m, Sorted(m.observations));
    CompactedIsRetained(m);
    forall i, j | 0 <= i < j < |Compacted(m)| ensures KeyOf(Compacted(m)[i]) != KeyOf(Compacted(m)[j]) {
      CompactedKeys(m, i);
      CompactedKeys(m, j);
    }
  }

  /** Without displacement, every record is found under its own key, the only
      one there, and still says everything. */
  lemma FoundUnderKey(m: State, o: Observation) returns (i: nat)
    requires BoundInv(m) && NothingDisplaced(m, Sorted(m.observations)) && o in m.observations
    ensures KeysDistinct(Compacted(m)) && i < |Compacted(m)|
    ensures KeyOf(Compacted(m)[i]) == KeyOf(o) && StillSays(m, Compacted(m)[i], o)
  {
    var sorted := Sorted(m.observations);
    var f := FoldAll(m, sorted);
    UndisplacedIsDistinct(m);
    FoldSaysAll(m, sorted);
    i := f.seen[KeyOf(o)];
    CompactedIsRetained(m);
    CompactedKeys(m, i);
  }

  lemma {:induction false} UndisplacedIsDistinct(m: State)
    requires BoundInv(m) && NothingDisplaced(m, Sorted(m.observations))
    ensures Exact(FoldAll(m, Sorted(m.observations))) && KeysDistinct(Compacted(m))
  {
    InvIsCompactable(m);
    FoldExact(m, Sorted(m.observations));
    ExactIsDistinct(m);
  }

  /* ---- Displacement ---- */

  /** The record under a key is the accepted base and not future-dated. */
  predicate Settled(f: Fold, k: SemanticKey)
    requires k in f.seen && f.seen[k] < |f.retained|
  {
    f.retained[f.seen[k]].accepted && !f.retained[f.seen[k]].futureDated
  }

  lemma {:induction false} SettledStays(s: State, obs: seq<Observation>, n: nat, k: SemanticKey)
    requires n <= |obs| && k in FoldAll(s, obs[..n]).seen && Settled(FoldAll(s, obs[..n]), k)
    ensures k in FoldAll(s, obs).seen && Settled(FoldAll(s, obs), k)
  {
    if n == |obs| {
      assert obs[..n] == obs;
    } else {
      var front := obs[..|obs| - 1];
      assert front[..n] == obs[..n];
      SettledStays(s, front, n, k);
      SettledStep(s, FoldAll(s, front), obs[|obs| - 1], k);
    }
  }

  lemma SettledStep(s: State, f: Fold, o: Observation, k: SemanticKey)
    requires FoldOk(f) && k in f.seen && Settled(f, k)
    ensures k in Step(s, f, o).seen && Settled(Step(s, f, o), k)
  {
  }

  lemma SettlesKey(s: State, f: Fold, o: Observation)
    requires FoldOk(f) && KeyOf(o) in f.seen && IsBase(s, o)
    ensures KeyOf(o) in Step(s, f, o).seen && Settled(Step(s, f, o), KeyOf(o))
  {
    NarrowKeepsKey(s, f, o);
    assert IsBase(s, Narrow(s, f, o));
  }

  /** The first `n` records and the next one. */
  lemma {:induction false} FoldPrefix(s: State, obs: seq<Observation>, n: nat)
    requires n < |obs|
    ensures FoldAll(s, obs[..n + 1]) == Step(s, FoldAll(s, obs[..n]), obs[n])
  {
    assert obs[..n + 1][..n] == obs[..n];
  }

  lemma {:induction false} KeySettled(s: State, obs: seq<Observation>, i: int, j: int)
    requires 0 <= i < j < |obs| && KeyOf(obs[i]) == KeyOf(obs[j]) && IsBase(s, obs[j])
    ensures KeyOf(obs[j]) in FoldAll(s, obs[..j + 1]).seen && Settled(FoldAll(s, obs[..j + 1]), KeyOf(obs[j]))
  {
    SeenKeys(s, obs[..j]);
    assert KeyOf(obs[..j][i]) == KeyOf(obs[j]);
    SettlesKey(s, FoldAll(s, obs[..j]), obs[j]);
    FoldPrefix(s, obs, j);
  }

  /** A displaced key is settled, so no record carries it any more. */
  lemma {:induction false} DisplacedIsGone(s: State, obs: seq<Observation>, i: int, j: int)
    requires 0 <= i < j < |obs| && Displaced(s, obs, i, j)
    ensures forall r :: r in FoldAll(s, obs).retained ==> KeyOf(r) != KeyOf(obs[j])
  {
    KeySettled(s, obs, i, j);
    SettledStays(s, obs, j + 1, KeyOf(obs[j]));
    GoneWhenSettled(s, obs, KeyOf(obs[j]));
  }

  ghost predicate HasKey(f: Fold, i: int) { exists k :: k in f.seen && f.seen[k] == i }

  lemma {:induction false} RetainedHaveKeys(s: State, obs: seq<Observation>)
    ensures forall i :: 0 <= i < |FoldAll(s, obs).retained| ==> HasKey(FoldAll(s, obs), i)
  {
    if obs != [] {
      RetainedHaveKeys(s, obs[..|obs| - 1]);
      StepHasKeys(s, FoldAll(s, obs[..|obs| - 1]), obs[|obs| - 1]);
    }
  }

  lemma StepHasKeys(s: State, f: Fold, o: Observation)
    requires FoldOk(f) && forall i :: 0 <= i < |f.retained| ==> HasKey(f, i)
    ensures forall i :: 0 <= i < |Step(s, f, o).retained| ==> HasKey(Step(s, f, o), i)
  {
    var g := Step(s, f, o);
    forall i | 0 <= i < |g.retained| ensures HasKey(g, i) {
      if i < |f.retained| {
        assert HasKey(f, i);
        var k :| k in f.seen && f.seen[k] == i;
        assert k in g.seen && g.seen[k] == i;
      } else {
        var k := KeyOf(Narrow(s, f, o));
        assert k in g.seen && g.seen[k] == i;
      }
    }
  }

  lemma {:induction false} GoneWhenSettled(s: State, obs: seq<Observation>, k: SemanticKey)
    requires k.future && k in FoldAll(s, obs).seen && Settled(FoldAll(s, obs), k)
    ensures forall r :: r in FoldAll(s, obs).retained ==> KeyOf(r) != k
  {
    var f := FoldAll(s, obs);
    RetainedHaveKeys(s, obs);
    forall i | 0 <= i < |f.retained| ensures KeyOf(f.retained[i]) != k {
      assert HasKey(f, i);
      var x :| x in f.seen && f.seen[x] == i;
      assert Carries(f.retained[i], x);
    }
  }

  /** No record has the key. */
  ghost predicate Gone(obs: seq<Observation>, k: SemanticKey) { forall o :: o in obs ==> KeyOf(o) != k }

  lemma DisplacedKeyIsGone(m: State, i: int, j: int)
    requires 0 <= i < j < |Sorted(m.observations)| && Displaced(m, Sorted(m.observations), i, j)
    ensures Gone(Compacted(m), KeyOf(Sorted(m.observations)[j]))
  {
    var sorted := Sorted(m.observations);
    DisplacedIsGone(m, sorted, i, j);
    CompactedIsGone(m, KeyOf(sorted[j]));
  }

  lemma {:induction false} CompactedIsGone(m: State, k: SemanticKey)
    requires Gone(FoldAll(m, Sorted(m.observations)).retained, k)
    ensures Gone(Compacted(m), k)
  {
    var retained := FoldAll(m, Sorted(m.observations)).retained;
    CompactedIsRetained(m);
    forall n | 0 <= n < |Compacted(m)| ensures KeyOf(Compacted(m)[n]) != k {
      CompactedKeys(m, n);
      assert retained[n] in retained;
    }
  }

  /** A future-dated record is retained under its own key. */
  lemma {:induction false} FutureIsUnderItsKey(s: State, obs: seq<Observation>, i: int)
    requires 0 <= i < |FoldAll(s, obs).retained| && FoldAll(s, obs).retained[i].futureDated
    ensures var f := FoldAll(s, obs); KeyOf(f.retained[i]) in f.seen && f.seen[KeyOf(f.retained[i])] == i
  {
    var f := FoldAll(s, obs);
    RetainedHaveKeys(s, obs);
    assert HasKey(f, i);
    var k :| k in f.seen && f.seen[k] == i;
    assert Carries(f.retained[i], k);
  }

  /** Compaction invents no future-dated key. */
  lemma {:induction false} GoneStaysGone(m: State, k: SemanticKey)
    requires k.future && Gone(m.observations, k)
    ensures Gone(Compacted(m), k)
  {
    var sorted := Sorted(m.observations);
    var f := FoldAll(m, sorted);
    SeenKeys(m, sorted);
    forall i | 0 <= i < |f.retained| ensures KeyOf(f.retained[i]) != k {
      if f.retained[i].futureDated { FutureIsUnderItsKey(m, sorted, i); }
    }
    CompactedIsGone(m, k);
  }

  /** Whatever was merged, the future-dated keys of a compacted state differ. */
  lemma {:induction false} CompactedFutureKeysDiffer(m: State)
    ensures FutureKeysDiffer(Compacted(m))
  {
    var sorted := Sorted(m.observations);
    var f := FoldAll(m, sorted);
    CompactedIsRetained(m);
    forall i, j | 0 <= i < j < |Compacted(m)| && Compacted(m)[j].futureDated
      ensures KeyOf(Compacted(m)[i]) != KeyOf(Compacted(m)[j])
    {
      CompactedKeys(m, i);
      CompactedKeys(m, j);
      if f.retained[i].futureDated {
        FutureIsUnderItsKey(m, sorted, i);
        FutureIsUnderItsKey(m, sorted, j);
      }
    }
  }

  /* ---- Where one new record can displace ---- */

  /** Insertion splits a sorted list: what follows sorts after the new one. */
  lemma {:induction false} InsertPlace(sorted: seq<Observation>, o: Observation) returns (c: nat)
    requires InOrder(sorted)
    ensures c <= |sorted| && Insert(sorted, o) == sorted[..c] + [o] + sorted[c..]
    ensures forall k :: c <= k < |sorted| ==> Before(o, sorted[k])
  {
    if sorted == [] || !Before(o, sorted[|sorted| - 1]) {
      c := |sorted|;
      assert sorted[..c] + [o] + sorted[c..] == sorted + [o];
    } else {
      var front, last := sorted[..|sorted| - 1], sorted[|sorted| - 1];
      assert sorted == front + [last];
      InsertFront(sorted, o);
      c := InsertPlace(front, o);
      PlaceBeforeLast(front, last, o, c);
      forall k | c <= k < |sorted| ensures Before(o, sorted[k]) {
        if k < |front| { assert Before(o, front[k]); }
      }
    }
  }

  lemma {:induction false} InsertFront(sorted: seq<Observation>, o: Observation)
    requires InOrder(sorted) && sorted != [] && Before(o, sorted[|sorted| - 1])
    ensures Insert(sorted, o) == Insert(sorted[..|sorted| - 1], o) + [sorted[|sorted| - 1]]
  {
  }

  lemma PlaceBeforeLast(front: seq<Observation>, last: Observation, o: Observation, c: nat)
    requires c <= |front|
    ensures (front[..c] + [o] + front[c..]) + [last] == (front + [last])[..c] + [o] + (front + [last])[c..]
  {
    assert (front + [last])[..c] == front[..c];
    assert (front + [last])[c..] == front[c..] + [last];
  }

  lemma {:induction false} SortedKeysDiffer(obs: seq<Observation>)
    requires FutureKeysDiffer(obs)
    ensures FutureKeysDiffer(Sorted(obs))
  {
    if obs != [] {
      var front, o := obs[..|obs| - 1], obs[|obs| - 1];
      SortedKeysDiffer(front);
      forall x | x in Sorted(front) && (x.futureDated || o.futureDated) ensures KeyOf(x) != KeyOf(o) {
        var i :| 0 <= i < |front| && front[i] == x;
        assert obs[i] == x;
      }
      var c := InsertPlace(Sorted(front), o);
      InsertKeysDiffer(Sorted(front), o, c);
    }
  }

  lemma InsertKeysDiffer(a: seq<Observation>, o: Observation, c: nat)
    requires c <= |a| && FutureKeysDiffer(a)
    requires forall x :: x in a && (x.futureDated || o.futureDated) ==> KeyOf(x) != KeyOf(o)
    ensures FutureKeysDiffer(a[..c] + [o] + a[c..])
  {
    var b := a[..c] + [o] + a[c..];
    forall i, j | 0 <= i < j < |b| && b[j].futureDated ensures KeyOf(b[i]) != KeyOf(b[j]) {
      assert b[i] == (if i < c then a[i] else if i == c then o else a[i - 1]);
      assert b[j] == (if j < c then a[j] else if j == c then o else a[j - 1]);
    }
  }

  /** The new record displaces the future-dated record of the base. */
  ghost predicate Supplants(m: State, obs: seq<Observation>, o: Observation) {
    exists x :: x in obs && KeyOf(x) == KeyOf(o) && x.futureDated && IsBase(m, x) && Before(o, x)
  }

  lemma {:induction false} OldKeysAreNotDisplaced(m: State, obs: seq<Observation>)
    requires FutureKeysDiffer(obs)
    ensures NothingDisplaced(m, Sorted(obs))
  {
    SortedKeysDiffer(obs);
  }

  lemma {:induction false} NewRecordDisplaces(m: State, obs: seq<Observation>, o: Observation)
    requires FutureKeysDiffer(obs) && (o.futureDated ==> !IsBase(m, o))
    ensures NothingDisplaced(m, Sorted(obs + [o])) <==> !Supplants(m, obs, o)
    ensures Supplants(m, obs, o) ==>
              exists i, j :: 0 <= i < j < |Sorted(obs + [o])| && Displaced(m, Sorted(obs + [o]), i, j)
                             && Sorted(obs + [o])[j] in obs
  {
    var a := Sorted(obs);
    SortedKeysDiffer(obs);
    assert (obs + [o])[..|obs|] == obs && (obs + [o])[|obs|] == o;
    var c := InsertPlace(a, o);
    var b := a[..c] + [o] + a[c..];
    assert Sorted(obs + [o]) == b;
    PlacesIn(a, o, c);
    if Supplants(m, obs, o) {
      var x :| x in obs && KeyOf(x) == KeyOf(o) && x.futureDated && IsBase(m, x) && Before(o, x);
      SupplantedIsDisplaced(m, a, o, c, x);
    } else {
      forall i, j | 0 <= i < j < |b| ensures !Displaced(m, b, i, j) {
        if Displaced(m, b, i, j) { DisplacedSupplants(m, obs, a, o, c, i, j); }
      }
    }
  }

  lemma PlacesIn(a: seq<Observation>, o: Observation, c: nat)
    requires c <= |a|
    ensures var b := a[..c] + [o] + a[c..];
            && |b| == |a| + 1 && b[c] == o
            && (forall i :: 0 <= i < c ==> b[i] == a[i])
            && (forall i :: c < i < |b| ==> b[i] == a[i - 1])
  {
  }

  lemma SupplantedIsDisplaced(m: State, a: seq<Observation>, o: Observation, c: nat, x: Observation)
    requires c <= |a| && InOrder(a[..c] + [o] + a[c..]) && x in a
    requires KeyOf(x) == KeyOf(o) && x.futureDated && IsBase(m, x) && Before(o, x)
    ensures var b := a[..c] + [o] + a[c..];
            exists j :: c < j < |b| && b[j] == x && Displaced(m, b, c, j)
  {
    var b := a[..c] + [o] + a[c..];
    PlacesIn(a, o, c);
    forall i | 0 <= i < c ensures !Before(o, a[i]) { assert b[i] == a[i] && b[c] == o && !Before(b[c], b[i]); }
    var k :| 0 <= k < |a| && a[k] == x;
    assert c <= k && b[k + 1] == x && Displaced(m, b, c, k + 1);
  }

  lemma OldPairsDiffer(a: seq<Observation>, o: Observation, c: nat, i: int, j: int)
    requires c <= |a| && FutureKeysDiffer(a) && 0 <= i < j <= |a| && i != c && j != c
    ensures var b := a[..c] + [o] + a[c..]; b[j].futureDated ==> KeyOf(b[i]) != KeyOf(b[j])
  {
    PlacesIn(a, o, c);
    var x, y := if i < c then i else i - 1, if j < c then j else j - 1;
    assert a[y].futureDated ==> KeyOf(a[x]) != KeyOf(a[y]);
  }

  lemma DisplacedSupplants(m: State, obs: seq<Observation>, a: seq<Observation>, o: Observation, c: nat, i: int, j: int)
    requires c <= |a| && FutureKeysDiffer(a) && (forall x :: x in a <==> x in obs)
    requires forall k :: c <= k < |a| ==> Before(o, a[k])
    requires o.futureDated ==> !IsBase(m, o)
    requires 0 <= i < j <= |a| && Displaced(m, a[..c] + [o] + a[c..], i, j)
    ensures Supplants(m, obs, o)
  {
    var b := a[..c] + [o] + a[c..];
    PlacesIn(a, o, c);
    if i != c && j != c { OldPairsDiffer(a, o, c, i, j); }
    assert i == c && b[j] == a[j - 1] && a[j - 1] in a;
  }
}

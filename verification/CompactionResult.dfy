/** The closed form of the compaction loop (security_journal_v2.go:543-620): what
    the record under a semantic key is, in terms of all the records with that
    key and of what the records before them named. */
module CompactionResult {
  import opened StatusTypes
  import opened StatusCompaction
  import opened StatusReducer
  import opened CompactionProofs
  import opened CompactionKeys
  import opened ReducerInvariant

  /** A record that no later check may find cut: the accepted list, the accepted
      pushes after it, and while reconciling everything after the floor and
      every fork, gap or early object. */
  ghost predicate Whole(s: State, o: Observation) {
    && o.epoch == s.epoch
    && (|| (s.snapshot.Some? && o.IsList() && o.sequence == s.snapshot.value.sequence
            && o.evidence == ListEvidence(s.snapshot.value))
        || (s.snapshot.Some? && o.IsPush() && o.accepted && s.snapshot.value.sequence < o.sequence <= s.floor)
        || (s.reconcile && (s.floor < o.sequence || o.fork || o.gap || o.futureDated)))
  }

  /** A certificate counts for its record if the record stays whole or is the
      first to name it. */
  ghost predicate Counts(s: State, obs: seq<Observation>, j: int, c: CertId)
    requires 0 <= j < |obs|
  {
    c in obs[j].certs && (Whole(s, obs[j]) || forall i :: 0 <= i < j ==> c !in obs[i].certs)
  }

  ghost predicate IsFirst(obs: seq<Observation>, k: SemanticKey, j: int) {
    0 <= j < |obs| && KeyOf(obs[j]) == k && forall i :: 0 <= i < j ==> KeyOf(obs[i]) != k
  }

  ghost predicate HasKeyAt(obs: seq<Observation>, k: SemanticKey, j: int) { 0 <= j < |obs| && KeyOf(obs[j]) == k }

  /** The record of the accepted list. */
  predicate OfSnapshot(s: State, o: Observation) {
    && s.snapshot.Some? && o.epoch == s.epoch && o.IsList() && o.sequence == s.snapshot.value.sequence
    && o.evidence == ListEvidence(s.snapshot.value)
  }

  /** Named by some record with the key that it counts for. */
  ghost predicate CertIn(s: State, obs: seq<Observation>, k: SemanticKey, c: CertId) {
    exists j :: HasKeyAt(obs, k, j) && Counts(s, obs, j, c)
  }

  /** Some record with the key was accepted, or the accepted list joined it. */
  ghost predicate AcceptedIn(s: State, obs: seq<Observation>, k: SemanticKey) {
    exists j :: HasKeyAt(obs, k, j) && (obs[j].accepted || (OfSnapshot(s, obs[j]) && !IsFirst(obs, k, j)))
  }

  ghost predicate JoinedBySnapshot(s: State, obs: seq<Observation>, k: SemanticKey) {
    exists j :: HasKeyAt(obs, k, j) && OfSnapshot(s, obs[j]) && !IsFirst(obs, k, j)
  }

  ghost predicate GapIn(obs: seq<Observation>, k: SemanticKey) { exists j :: HasKeyAt(obs, k, j) && obs[j].gap }

  /** What the retained record of a key is. */
  ghost predicate Sums(s: State, obs: seq<Observation>, k: SemanticKey, r: Observation) {
    && (forall c :: c in r.certs <==> CertIn(s, obs, k, c))
    && (r.accepted <==> AcceptedIn(s, obs, k))
    && (s.reconcile ==> (r.gap <==> GapIn(obs, k)))
    && exists j :: IsFirst(obs, k, j) && Inherited(s, obs, k, obs[j], r)
  }

  /** The rest is the first record's, with the accepted list's evidence if that
      list joined it. */
  ghost predicate Inherited(s: State, obs: seq<Observation>, k: SemanticKey, first: Observation, r: Observation) {
    && r.epoch == first.epoch && r.keyId == first.keyId && r.sequence == first.sequence && r.body == first.body
    && r.revokedSet == first.revokedSet && r.fork == first.fork
    && r.evidence == (if JoinedBySnapshot(s, obs, k) then ListEvidence(s.snapshot.value) else first.evidence)
  }

  /* ---- Other keys ---- */

  lemma AppendKeeps(s: State, front: seq<Observation>, o: Observation, k: SemanticKey, r: Observation)
    requires KeyOf(o) != k && Sums(s, front, k, r)
    ensures Sums(s, front + [o], k, r)
  {
    var obs := front + [o];
    forall j ensures HasKeyAt(obs, k, j) <==> HasKeyAt(front, k, j) {}
    forall j ensures IsFirst(obs, k, j) <==> IsFirst(front, k, j) { FirstStays(front, o, k, j); }
    forall c ensures CertIn(s, obs, k, c) <==> CertIn(s, front, k, c) { CertStays(s, front, o, k, c); }
    assert AcceptedIn(s, obs, k) <==> AcceptedIn(s, front, k);
    assert JoinedBySnapshot(s, obs, k) <==> JoinedBySnapshot(s, front, k);
    assert GapIn(obs, k) <==> GapIn(front, k);
    var j :| IsFirst(front, k, j) && Inherited(s, front, k, front[j], r);
    assert obs[j] == front[j];
  }

  lemma FirstStays(front: seq<Observation>, o: Observation, k: SemanticKey, j: int)
    requires KeyOf(o) != k || exists i :: HasKeyAt(front, k, i)
    ensures IsFirst(front + [o], k, j) <==> IsFirst(front, k, j)
  {
    var obs := front + [o];
    assert forall i :: 0 <= i < |front| ==> obs[i] == front[i];
    if i :| HasKeyAt(front, k, i) { assert KeyOf(obs[i]) == k; }
  }

  lemma CountsStays(s: State, front: seq<Observation>, o: Observation, j: int, c: CertId)
    requires 0 <= j < |front|
    ensures Counts(s, front + [o], j, c) <==> Counts(s, front, j, c)
  {
    assert forall i :: 0 <= i < |front| ==> (front + [o])[i] == front[i];
  }

  lemma CertStays(s: State, front: seq<Observation>, o: Observation, k: SemanticKey, c: CertId)
    ensures CertIn(s, front + [o], k, c) <==>
            CertIn(s, front, k, c) || (KeyOf(o) == k && Counts(s, front + [o], |front|, c))
  {
    var obs := front + [o];
    if CertIn(s, obs, k, c) {
      var j :| HasKeyAt(obs, k, j) && Counts(s, obs, j, c);
      if j < |front| {
        CountsStays(s, front, o, j, c);
        assert HasKeyAt(front, k, j);
      }
    }
    if CertIn(s, front, k, c) {
      var j :| HasKeyAt(front, k, j) && Counts(s, front, j, c);
      CountsStays(s, front, o, j, c);
      assert HasKeyAt(obs, k, j);
    }
    if KeyOf(o) == k && Counts(s, obs, |front|, c) { assert HasKeyAt(obs, k, |front|); }
  }

  /* ---- The key of the record ---- */

  lemma WholeIsFull(s: State, o: Observation)
    ensures Whole(s, o) <==> FullRecord(s, o)
    ensures OfSnapshot(s, o) <==> IsBase(s, o)
  {
  }

  /** What narrowing leaves of the record. */
  lemma {:induction false} NarrowedCounts(s: State, front: seq<Observation>, o: Observation, c: CertId)
    ensures c in Narrow(s, FoldAll(s, front), o).certs <==> Counts(s, front + [o], |front|, c)
  {
    var obs := front + [o];
    NothingUnwitnessed(s, front);
    WholeIsFull(s, o);
    assert obs[|front|] == o && forall i :: 0 <= i < |front| ==> obs[i] == front[i];
    if c in Witnessed(front) {
      var x :| x in front && c in x.certs;
      var i :| 0 <= i < |front| && front[i] == x;
      assert c in obs[i].certs;
    } else {
      forall i | 0 <= i < |front| ensures c !in obs[i].certs { assert front[i] in front; }
    }
  }

  lemma {:induction false} NewKeySums(s: State, front: seq<Observation>, o: Observation)
    requires forall i :: 0 <= i < |front| ==> KeyOf(front[i]) != KeyOf(o)
    ensures Sums(s, front + [o], KeyOf(o), Narrow(s, FoldAll(s, front), o))
  {
    var obs, k, n := front + [o], KeyOf(o), Narrow(s, FoldAll(s, front), o);
    assert forall i :: 0 <= i < |front| ==> obs[i] == front[i];
    assert IsFirst(obs, k, |front|) && obs[|front|] == o;
    forall j ensures HasKeyAt(obs, k, j) <==> j == |front| {}
    forall c ensures c in n.certs <==> CertIn(s, obs, k, c) {
      NarrowedCounts(s, front, o, c);
      CertStays(s, front, o, k, c);
    }
    assert AcceptedIn(s, obs, k) <==> o.accepted;
    assert !JoinedBySnapshot(s, obs, k);
    assert GapIn(obs, k) <==> o.gap;
    assert Inherited(s, obs, k, o, n);
  }

  lemma {:induction false} MergedSums(s: State, front: seq<Observation>, o: Observation, r: Observation)
    requires Sums(s, front, KeyOf(o), r) && (exists i :: HasKeyAt(front, KeyOf(o), i)) && Carries(r, KeyOf(o))
    ensures Sums(s, front + [o], KeyOf(o), Merge(s, r, Narrow(s, FoldAll(s, front), o)))
  {
    var obs, k, n := front + [o], KeyOf(o), Narrow(s, FoldAll(s, front), o);
    var m := Merge(s, r, n);
    WholeIsFull(s, o);
    WholeIsFull(s, n);
    forall j ensures IsFirst(obs, k, j) <==> IsFirst(front, k, j) { FirstStays(front, o, k, j); }
    forall c ensures c in m.certs <==> CertIn(s, obs, k, c) {
      NarrowedCounts(s, front, o, c);
      CertStays(s, front, o, k, c);
    }
    MergedFlags(s, front, o, k);
    var j :| IsFirst(front, k, j) && Inherited(s, front, k, front[j], r);
    assert obs[j] == front[j] && Inherited(s, obs, k, obs[j], m);
  }

  /** A further record adds its own flags. */
  lemma MergedFlags(s: State, front: seq<Observation>, o: Observation, k: SemanticKey)
    requires KeyOf(o) == k && exists i :: HasKeyAt(front, k, i)
    ensures AcceptedIn(s, front + [o], k) <==> AcceptedIn(s, front, k) || o.accepted || OfSnapshot(s, o)
    ensures JoinedBySnapshot(s, front + [o], k) <==> JoinedBySnapshot(s, front, k) || OfSnapshot(s, o)
    ensures GapIn(front + [o], k) <==> GapIn(front, k) || o.gap
  {
    var obs := front + [o];
    assert forall i :: 0 <= i < |front| ==> obs[i] == front[i];
    assert obs[|front|] == o && HasKeyAt(obs, k, |front|);
    forall j ensures IsFirst(obs, k, j) <==> IsFirst(front, k, j) { FirstStays(front, o, k, j); }
    assert !IsFirst(obs, k, |front|);
    forall j | j != |front| ensures HasKeyAt(obs, k, j) <==> HasKeyAt(front, k, j) {}
    if j :| HasKeyAt(front, k, j) && (front[j].accepted || (OfSnapshot(s, front[j]) && !IsFirst(front, k, j))) {
      assert HasKeyAt(obs, k, j);
    }
    if j :| HasKeyAt(front, k, j) && OfSnapshot(s, front[j]) && !IsFirst(front, k, j) { assert HasKeyAt(obs, k, j); }
    if j :| HasKeyAt(front, k, j) && front[j].gap { assert HasKeyAt(obs, k, j); }
  }

  /* ---- All keys ---- */

  /** The loop retains one record for every key, and it is the sum of the
      records with that key. */
  lemma {:induction false} FoldSums(s: State, obs: seq<Observation>, k: SemanticKey)
    requires k in FoldAll(s, obs).seen
    ensures Sums(s, obs, k, FoldAll(s, obs).retained[FoldAll(s, obs).seen[k]])
  {
    var front, o := obs[..|obs| - 1], obs[|obs| - 1];
    assert obs == front + [o];
    SeenKeys(s, front);
    if k in FoldAll(s, front).seen { FoldSums(s, front, k); }
    OneMoreSums(s, front, o, k);
  }

  lemma {:induction false} OneMoreSums(s: State, front: seq<Observation>, o: Observation, k: SemanticKey)
    requires k in FoldAll(s, front + [o]).seen && FoldOk(FoldAll(s, front))
    requires k in FoldAll(s, front).seen <==> Occurs(front, k)
    requires k in FoldAll(s, front).seen ==> Sums(s, front, k, FoldAll(s, front).retained[FoldAll(s, front).seen[k]])
    ensures FoldOk(FoldAll(s, front + [o]))
    ensures Sums(s, front + [o], k, FoldAll(s, front + [o]).retained[FoldAll(s, front + [o]).seen[k]])
  {
    var f := FoldAll(s, front);
    assert (front + [o])[..|front|] == front;
    NarrowKeepsKey(s, f, o);
    if k != KeyOf(o) {
      AppendKeeps(s, front, o, k, f.retained[f.seen[k]]);
    } else if k in f.seen {
      assert Occurs(front, k);
      var i :| 0 <= i < |front| && KeyOf(front[i]) == k;
      assert HasKeyAt(front, k, i);
      MergedSums(s, front, o, f.retained[f.seen[k]]);
    } else {
      assert !Occurs(front, k);
      NewKeySums(s, front, o);
    }
  }

  /** Every compacted record is, up to a gap of the accepted list that was
      resolved, the sum of the sorted records with one key. */
  lemma CompactedSums(s: State, i: nat)
    requires i < |Compacted(s)|
    ensures exists k, r :: Sums(s, Sorted(s.observations), k, r) && Compacted(s)[i] == r.(gap := Compacted(s)[i].gap)
                           && (Compacted(s)[i].gap == r.gap || (!s.reconcile && OfSnapshot(s, r) && r.accepted))
  {
    var sorted := Sorted(s.observations);
    var f := FoldAll(s, sorted);
    CompactedIsRetained(s);
    RetainedHaveKeys(s, sorted);
    assert HasKey(f, i);
    var k :| k in f.seen && f.seen[k] == i;
    FoldSums(s, sorted, k);
    WholeIsFull(s, f.retained[i]);
  }

  /** While not reconciling, the first accepted record of the accepted list has
      no gap. */
  lemma {:induction false} BaseGapIsCleared(s: State, obs: seq<Observation>, i: nat)
    requires i < |obs| && ResolvesGap(s, obs[i]) && forall j :: 0 <= j < i ==> !ResolvesGap(s, obs[j])
    ensures !ClearBaseGap(s, obs)[i].gap
    ensures forall j :: 0 <= j < |obs| && j != i ==> ClearBaseGap(s, obs)[j] == obs[j]
  {
    if i > 0 {
      assert obs[1..][i - 1] == obs[i];
      forall j | 0 <= j < i - 1 ensures !ResolvesGap(s, obs[1..][j]) { assert obs[1..][j] == obs[j + 1]; }
      BaseGapIsCleared(s, obs[1..], i - 1);
      forall j | 0 <= j < |obs| && j != i ensures ClearBaseGap(s, obs)[j] == obs[j] {
        if j > 0 { assert ClearBaseGap(s, obs)[j] == ClearBaseGap(s, obs[1..])[j - 1]; }
      }
    }
  }
}

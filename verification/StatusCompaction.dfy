/** Compaction of one issuer's observations (security_journal_v2.go,
    pruneSecurityJournalObservationsV2).  These functions say what the loops
    compute; the loops are in StatusMachine. */
module StatusCompaction {
  import opened StatusTypes

  /** The type codes of the two objects; a list sorts before a push. */
  function TypeCode(o: Observation): int {
    if o.IsList() then 3 else 5
  }

  /** The strict compaction order: epoch, sequence, type, digest bytes. */
  predicate Before(a: Observation, b: Observation) {
    if a.epoch != b.epoch then a.epoch < b.epoch
    else if a.sequence != b.sequence then a.sequence < b.sequence
    else if TypeCode(a) != TypeCode(b) then TypeCode(a) < TypeCode(b)
    else a.body.Rank() < b.body.Rank()
  }

  ghost predicate InOrder(obs: seq<Observation>) {
    forall i, j :: 0 <= i < j < |obs| ==> !Before(obs[j], obs[i])
  }

  /** Inserts after every observation that does not sort later, so equal keys
      keep their order. */
  function Insert(sorted: seq<Observation>, o: Observation): (r: seq<Observation>)
    requires InOrder(sorted)
    ensures InOrder(r) && multiset(r) == multiset(sorted) + multiset{o}
  {
    if sorted == [] then [o]
    else
      var last := sorted[|sorted| - 1];
      var front := sorted[..|sorted| - 1];
      assert sorted == front + [last];
      if Before(o, last) then
        var r := Insert(front, o);
        InsertedInOrder(front, o, r, last);
        r + [last]
      else
        AppendedInOrder(sorted, o);
        sorted + [o]
  }

  lemma InsertedInOrder(front: seq<Observation>, o: Observation, r: seq<Observation>, last: Observation)
    requires InOrder(r) && multiset(r) == multiset(front) + multiset{o} && Before(o, last)
    requires forall i :: 0 <= i < |front| ==> !Before(last, front[i])
    ensures InOrder(r + [last])
  {
    forall i | 0 <= i < |r| ensures !Before(last, r[i]) {
      assert r[i] in multiset(r);
      assert r[i] == o || r[i] in front;
    }
  }

  lemma AppendedInOrder(sorted: seq<Observation>, o: Observation)
    requires InOrder(sorted) && sorted != [] && !Before(o, sorted[|sorted| - 1])
    ensures InOrder(sorted + [o])
  {
    var last := sorted[|sorted| - 1];
    forall i | 0 <= i < |sorted| ensures !Before(o, sorted[i]) {
      if i < |sorted| - 1 { assert !Before(last, sorted[i]); }
    }
  }

  function Sorted(obs: seq<Observation>): (r: seq<Observation>)
    ensures InOrder(r) && multiset(r) == multiset(obs)
    ensures forall x :: x in r <==> x in obs
  {
    if obs == [] then []
    else
      assert obs == obs[..|obs| - 1] + [obs[|obs| - 1]];
      var r := Insert(Sorted(obs[..|obs| - 1]), obs[|obs| - 1]);
      SameMembers(r, obs);
      r
  }

  lemma SameMembers(a: seq<Observation>, b: seq<Observation>)
    requires multiset(a) == multiset(b)
    ensures forall x :: x in a <==> x in b
  {
    forall x ensures x in a <==> x in b {
      assert x in a <==> x in multiset(a);
      assert x in b <==> x in multiset(b);
    }
  }

  /** What the semantic key takes from the digests: the set of a list, the body
      of a push. */
  datatype KeyDigest = SetDigest(revoked: set<CertId>) | BodyDigest(body: Evidence)

  datatype SemanticKey = SemanticKey(
    epoch: int, typeCode: int, sequence: int, digest: KeyDigest, future: bool, fork: bool)

  function DigestOf(o: Observation): KeyDigest {
    if o.IsList() then SetDigest(o.revokedSet) else BodyDigest(o.body)
  }

  function KeyOf(o: Observation): SemanticKey {
    SemanticKey(o.epoch, TypeCode(o), o.sequence, DigestOf(o), o.futureDated, o.fork)
  }

  /** The observation of the list that the accepted snapshot holds. */
  predicate IsBase(s: State, o: Observation) {
    && s.snapshot.Some?
    && o.epoch == s.epoch
    && o.IsList()
    && o.sequence == s.snapshot.value.sequence
    && o.evidence == ListEvidence(s.snapshot.value)
  }

  /** An accepted push after the accepted snapshot, up to the floor. */
  predicate OnFloorPath(s: State, o: Observation) {
    && s.snapshot.Some?
    && o.epoch == s.epoch
    && o.IsPush()
    && o.accepted
    && s.snapshot.value.sequence < o.sequence <= s.floor
  }

  /** mustRetainStatusObservationV2 */
  predicate MustRetain(s: State, o: Observation) {
    && o.epoch == s.epoch
    && (|| OnFloorPath(s, o)
        || (s.reconcile && (o.sequence > s.floor || o.fork || o.gap || o.futureDated)))
  }

  predicate FullRecord(s: State, o: Observation) { IsBase(s, o) || MustRetain(s, o) }

  /** The loop variables of the compaction. */
  datatype Fold = Fold(
    retained: seq<Observation>, witnessed: set<CertId>, seen: map<SemanticKey, nat>)

  /** Whether an observation still carries what its map key says. */
  predicate Carries(o: Observation, k: SemanticKey) {
    && o.epoch == k.epoch && TypeCode(o) == k.typeCode && o.sequence == k.sequence
    && DigestOf(o) == k.digest && o.fork == k.fork
    && (o.futureDated ==> k.future)
  }

  ghost predicate FoldOk(f: Fold) {
    && (forall k :: k in f.seen ==> f.seen[k] < |f.retained| && Carries(f.retained[f.seen[k]], k))
    && (forall k, m :: k in f.seen && m in f.seen && f.seen[k] == f.seen[m] ==> k == m)
  }

  function Narrow(s: State, f: Fold, o: Observation): Observation {
    if FullRecord(s, o) then o else o.(certs := o.certs - f.witnessed)
  }

  /** Merges `o` into the retained observation with the same semantic key. */
  function Merge(s: State, prior: Observation, o: Observation): Observation {
    var accepted := prior.accepted || o.accepted || IsBase(s, o);
    prior.(accepted := accepted,
           fork := prior.fork || o.fork,
           gap := if IsBase(s, o) && !s.reconcile then false else prior.gap || o.gap,
           futureDated := (prior.futureDated || o.futureDated) && !accepted,
           certs := prior.certs + o.certs,
           evidence := if IsBase(s, o) then o.evidence else prior.evidence)
  }

  function Step(s: State, f: Fold, o: Observation): (r: Fold)
    requires FoldOk(f)
    ensures FoldOk(r)
  {
    var n := Narrow(s, f, o);
    var witnessed := f.witnessed + o.certs;
    var k := KeyOf(n);
    if k in f.seen then
      Fold(f.retained[f.seen[k] := Merge(s, f.retained[f.seen[k]], n)], witnessed, f.seen)
    else
      Fold(f.retained + [n], witnessed, f.seen[k := |f.retained|])
  }

  function FoldAll(s: State, obs: seq<Observation>): (r: Fold)
    ensures FoldOk(r)
  {
    if obs == [] then Fold([], {}, map[])
    else Step(s, FoldAll(s, obs[..|obs| - 1]), obs[|obs| - 1])
  }

  /** The first accepted record of the base, whose gap is resolved. */
  predicate ResolvesGap(s: State, o: Observation) {
    IsBase(s, o) && o.accepted && !o.futureDated
  }

  function ClearBaseGap(s: State, obs: seq<Observation>): (r: seq<Observation>)
    ensures |r| == |obs|
    ensures forall i :: 0 <= i < |obs| ==> r[i] == obs[i] || r[i] == obs[i].(gap := false)
    ensures forall i :: 0 <= i < |obs| && !ResolvesGap(s, obs[i]) ==> r[i] == obs[i]
  {
    if obs == [] then []
    else if ResolvesGap(s, obs[0]) then [obs[0].(gap := false)] + obs[1..]
    else [obs[0]] + ClearBaseGap(s, obs[1..])
  }

  function Compacted(s: State): seq<Observation> {
    var retained := FoldAll(s, Sorted(s.observations)).retained;
    if !s.reconcile && s.snapshot.Some? then ClearBaseGap(s, retained) else retained
  }

  function Compact(s: State): State {
    s.(observations := Compacted(s))
  }
}

/** The reducer of signed status objects (status_state_v2.go) and the validators
    of its state (status_state_v2.go:531, security_journal_v2.go:460). */
module StatusReducer {
  import opened StatusTypes
  import opened StatusCompaction

  /* ---- Validators ---- */

  /** validateStatusStateBindingV2 */
  predicate BindingOk(s: State, issuer: IssuerId, epoch: int) {
    && (s.issuer != "" ==> s.issuer == issuer && s.epoch == epoch && s.keyId != "")
    && 0 <= s.floor && 0 <= s.maxObserved <= MAX_SAFE_INTEGER
    && 0 <= s.forkSequence <= MAX_SAFE_INTEGER
    && 0 <= s.precedingFloor <= MAX_SAFE_INTEGER
    && (s.precedingFloor == 0 ==> s.precedingAccepted == {})
    && (s.hasFloor ==>
          && 0 < s.floor <= MAX_SAFE_INTEGER
          && s.snapshot.Some?
          && 0 < s.snapshot.value.sequence <= s.floor)
    && (!s.hasFloor ==> s.floor == 0 && s.snapshot.None? && s.accepted == {})
    && 0 < epoch <= MAX_SAFE_INTEGER
    && s.keyId !in s.retired && "" !in s.retired
  }

  /** How many accepted pushes of the epoch sit at one sequence. */
  function PushCount(obs: seq<Observation>, epoch: int, sequence: int): nat {
    if obs == [] then 0
    else
      var o := obs[|obs| - 1];
      PushCount(obs[..|obs| - 1], epoch, sequence)
      + if o.epoch == epoch && o.IsPush() && o.accepted && o.sequence == sequence then 1 else 0
  }

  /** Everything that the retained observations still name. */
  function Witnessed(obs: seq<Observation>): set<CertId> {
    set o, c | o in obs && c in o.certs :: c
  }

  function FloorPathCerts(s: State): set<CertId> {
    set o, c | o in s.observations && OnFloorPath(s, o) && c in o.certs :: c
  }

  /** Some retained observation of the current epoch is marked as a fork. */
  predicate ForkRecorded(s: State) {
    exists o :: o in s.observations && o.epoch == s.epoch && o.fork
  }

  /** The clause that an unresolved fork keeps its retained marker. */
  predicate ForkMarked(s: State) {
    s.forkSequence > 0 ==> s.reconcile && ForkRecorded(s)
  }

  predicate ObservationsOk(s: State) {
    forall o :: o in s.observations ==>
      && 0 < o.sequence <= MAX_SAFE_INTEGER
      && o.keyId != ""
      && "" !in o.certs
      && (o.epoch == s.epoch ==> o.sequence <= s.maxObserved)
      && o.certs <= s.denyUnion
  }

  /** The accepted snapshot and the accepted pushes explain floor and set. */
  predicate HistoryOk(s: State)
    requires s.hasFloor ==> s.snapshot.Some?
  {
    s.hasFloor ==>
      && s.floor <= s.maxObserved
      && s.snapshot.value.issuer == s.issuer
      && s.snapshot.value.sequence <= s.floor
      && (exists o :: o in s.observations && IsBase(s, o) && o.accepted && !o.fork && !o.futureDated)
      && (forall q :: s.snapshot.value.sequence < q <= s.floor ==> PushCount(s.observations, s.epoch, q) == 1)
      && s.accepted == s.snapshot.value.revoked + FloorPathCerts(s)
  }

  /** validateAcceptedStatusStateV2 without its fork clause. */
  predicate AcceptedOkButFork(s: State)
    requires s.hasFloor ==> s.snapshot.Some?
  {
    && ObservationsOk(s)
    && s.denyUnion <= Witnessed(s.observations)
    && HistoryOk(s)
  }

  predicate AcceptedOk(s: State)
    requires s.hasFloor ==> s.snapshot.Some?
  {
    AcceptedOkButFork(s) && ForkMarked(s)
  }

  /* ---- Searches over the observations ---- */

  predicate SameEvidence(o: Observation, epoch: int, e: Evidence) {
    o.epoch == epoch && (o.IsList() <==> e.ListEvidence?) && o.sequence == e.Sequence() && o.evidence == e
  }

  /** findStatusObservationV2: the last record of exactly this object, or -1. */
  function LastEvidence(obs: seq<Observation>, epoch: int, e: Evidence): (i: int)
    ensures -1 <= i < |obs|
    ensures i >= 0 ==> SameEvidence(obs[i], epoch, e)
    ensures forall k :: i < k < |obs| ==> !SameEvidence(obs[k], epoch, e)
  {
    if obs == [] then -1
    else if SameEvidence(obs[|obs| - 1], epoch, e) then |obs| - 1
    else
      var front := obs[..|obs| - 1];
      assert forall k :: 0 <= k < |front| ==> front[k] == obs[k];
      LastEvidence(front, epoch, e)
  }

  predicate SameSet(o: Observation, epoch: int, l: RevocationList) {
    o.epoch == epoch && o.IsList() && o.sequence == l.sequence && o.revokedSet == l.revoked
  }

  /** findStatusSetObservationV2: the last list record with this set, or -1. */
  function LastSameSet(obs: seq<Observation>, epoch: int, l: RevocationList): (i: int)
    ensures -1 <= i < |obs|
    ensures i >= 0 ==> SameSet(obs[i], epoch, l)
    ensures forall k :: i < k < |obs| ==> !SameSet(obs[k], epoch, l)
  {
    if obs == [] then -1
    else if SameSet(obs[|obs| - 1], epoch, l) then |obs| - 1
    else
      var front := obs[..|obs| - 1];
      assert forall k :: 0 <= k < |front| ==> front[k] == obs[k];
      LastSameSet(front, epoch, l)
  }

  predicate ForkedAt(obs: seq<Observation>, epoch: int, sequence: int) {
    exists o :: o in obs && o.epoch == epoch && o.sequence == sequence && o.fork
  }

  predicate PushSeen(obs: seq<Observation>, epoch: int, p: RevocationPush) {
    exists o :: o in obs && o.epoch == epoch && o.IsPush() && o.sequence == p.sequence
                && (o.evidence == PushEvidence(p) || o.body == PushEvidence(p).Body())
  }

  /** Another list with a different set at the same sequence. */
  predicate ListConflict(obs: seq<Observation>, epoch: int, l: RevocationList) {
    exists o :: o in obs && o.epoch == epoch && o.IsList() && o.sequence == l.sequence && o.revokedSet != l.revoked
  }

  predicate PushConflict(obs: seq<Observation>, epoch: int, p: RevocationPush) {
    exists o :: && o in obs && o.epoch == epoch && o.IsPush() && o.sequence == p.sequence
                && o.body != PushEvidence(p).Body()
  }

  /** requiredRevocationsForSnapshotV2 */
  function Required(obs: seq<Observation>, epoch: int, sequence: int): set<CertId> {
    set o, c | o in obs && o.epoch == epoch && o.sequence <= sequence && c in o.certs :: c
  }

  /** snapshotConflictsWithObservedPushV2 */
  predicate ContradictsPush(s: State, l: RevocationList) {
    exists o :: o in s.observations && o.epoch == s.epoch && o.IsPush() && o.sequence == l.sequence
                && if s.hasFloor && s.floor == l.sequence - 1
                   then l.revoked != s.accepted + o.certs
                   else !(o.certs <= l.revoked)
  }

  /** A withheld or forked list after the floor that omits the push. */
  predicate OmitsPush(s: State, o: Observation, p: RevocationPush) {
    && s.reconcile
    && o.epoch == s.epoch && o.IsList()
    && o.sequence > s.floor && o.sequence >= p.sequence
    && (o.fork || o.gap || o.futureDated)
    && !(p.revoked <= o.certs)
  }

  function OmissionAmong(s: State, obs: seq<Observation>, p: RevocationPush): (r: int)
    requires p.sequence > 0
    ensures r == 0 || p.sequence <= r
    ensures r != 0 ==> (s.snapshot.Some? && r == s.snapshot.value.sequence && !(p.revoked <= s.snapshot.value.revoked))
                       || exists o :: o in obs && r == o.sequence && OmitsPush(s, o, p)
    ensures r == 0 ==> forall o :: o in obs ==> !OmitsPush(s, o, p)
  {
    if obs == [] then
      if s.snapshot.Some? && s.snapshot.value.sequence >= p.sequence && !(p.revoked <= s.snapshot.value.revoked)
      then s.snapshot.value.sequence else 0
    else
      var r := OmissionAmong(s, obs[..|obs| - 1], p);
      var o := obs[|obs| - 1];
      assert forall x :: x in obs <==> x in obs[..|obs| - 1] || x == o;
      if OmitsPush(s, o, p) && o.sequence > r then o.sequence else r
  }

  /** snapshotOmissionForPushV2: the greatest list sequence that contradicts
      the push, or 0. */
  function Omission(s: State, p: RevocationPush): int
    requires p.sequence > 0
  {
    OmissionAmong(s, s.observations, p)
  }

  /* ---- State updates ---- */

  function Bind(s: State, issuer: IssuerId, epoch: int, key: KeyId): State {
    (if s.issuer == "" then s.(issuer := issuer, epoch := epoch) else s).(keyId := key)
  }

  function MarkFork(s: State, sequence: int): State {
    s.(reconcile := true, forkSequence := MaxInt(MaxInt(s.forkSequence, s.floor), sequence))
  }

  function Append(s: State, o: Observation): State {
    s.(observations := s.observations + [o])
  }

  /** A duplicate is already recorded; anything else is appended. */
  function AppendNew(s: State, o: Observation, duplicate: bool): State {
    if duplicate then s else Append(s, o)
  }

  function Absorb(s: State, certs: set<CertId>, sequence: int): State {
    s.(denyUnion := s.denyUnion + certs, maxObserved := MaxInt(s.maxObserved, sequence))
  }

  function NoteFuture(s: State, future: bool): State {
    if future then s.(futureObserved := true, reconcile := true) else s
  }

  /* ---- Full lists ---- */

  function ListObservation(s: State, l: RevocationList, future: bool): Observation {
    Observation(s.epoch, s.keyId, l.sequence, ListEvidence(l), ListEvidence(l).Body(),
                l.revoked, l.revoked, future, false, false, false)
  }

  /** Whether the record found for an exact duplicate ends the application. */
  predicate SkipsDuplicate(s: State, prior: Observation, l: RevocationList, p: Policy, now: int) {
    || prior.accepted
    || (!prior.futureDated && !prior.gap)
    || BeyondSkew(l.updatedAt, now, p.clockSkew)
    || !Fresh(l, p, now)
    || (s.hasFloor && l.sequence < s.floor)
    || ForkedAt(s.observations, s.epoch, l.sequence)
  }

  /** Whether a record with the same set at the same sequence ends it. */
  predicate SkipsSameSet(s: State, prior: Observation, l: RevocationList, p: Policy, now: int) {
    var future := BeyondSkew(l.updatedAt, now, p.clockSkew);
    var current := Fresh(l, p, now);
    || prior.fork
    || if (prior.futureDated || prior.gap) && !future && current then
         (s.hasFloor && l.sequence < s.floor) || ForkedAt(s.observations, s.epoch, l.sequence)
       else if !prior.accepted && !prior.fork && s.hasFloor && l.sequence == s.floor
               && s.snapshot.Some? && s.snapshot.value.sequence < s.floor && !future && current then
         false
       else
         !(prior.accepted && s.hasFloor && l.sequence == s.floor
           && s.snapshot.Some? && Preferred(l, s.snapshot.value))
  }

  predicate IsDuplicate(s: State, l: RevocationList) {
    LastEvidence(s.observations, s.epoch, ListEvidence(l)) >= 0
  }

  predicate SkipsList(s: State, l: RevocationList, p: Policy, now: int) {
    var d := LastEvidence(s.observations, s.epoch, ListEvidence(l));
    if d >= 0 then SkipsDuplicate(s, s.observations[d], l, p, now)
    else
      var j := LastSameSet(s.observations, s.epoch, l);
      j >= 0 && SkipsSameSet(s, s.observations[j], l, p, now)
  }

  /** The contradictions that mark a list as a fork. */
  predicate ListForks(s: State, l: RevocationList) {
    || ListConflict(s.observations, s.epoch, l)
    || (s.hasFloor && l.sequence == s.floor && l.revoked != s.accepted)
    || (s.hasFloor && l.sequence < s.floor && !(l.revoked <= s.accepted))
    || !(Required(s.observations, s.epoch, l.sequence) <= l.revoked)
    || ContradictsPush(s, l)
  }

  function AcceptList(s: State, l: RevocationList): State {
    if s.hasFloor && l.sequence == s.floor then
      if s.snapshot.None? || s.snapshot.value.sequence < l.sequence || Preferred(l, s.snapshot.value)
      then s.(snapshot := Some(l)) else s
    else
      var next := s.hasFloor && l.sequence == s.floor + 1;
      s.(hasPreceding := next,
         precedingFloor := if next then s.floor else 0,
         precedingAccepted := if next then s.accepted else {},
         snapshot := Some(l), accepted := l.revoked, hasFloor := true, floor := l.sequence)
  }

  /** An accepted list ends reconciliation only when it is caught up with every
      observed sequence and every denial, and lies after the fork. */
  function Reconcile(s: State, l: RevocationList): State {
    if && s.reconcile
       && (s.forkSequence == 0 || l.sequence > s.forkSequence)
       && s.denyUnion <= l.revoked
       && l.sequence >= s.maxObserved
    then s.(reconcile := false, futureObserved := false, forkSequence := 0)
    else s
  }

  /** Everything after the fork checks. */
  function ConcludeList(s: State, o: Observation, l: RevocationList, duplicate: bool, current: bool): State {
    var withheld := AppendNew(s.(reconcile := true), o.(gap := true), duplicate);
    if !current then
      if s.hasFloor && l.sequence <= s.floor then AppendNew(s, o, duplicate) else withheld
    else if o.fork then AppendNew(s, o, duplicate)
    else if !s.hasFloor && !(s.denyUnion <= l.revoked) then withheld
    else if !s.hasFloor && l.sequence < s.maxObserved then withheld
    else if s.hasFloor && l.sequence < s.floor then AppendNew(s, o, duplicate)
    else Append(Reconcile(AcceptList(s, l), l), o.(accepted := true))
  }

  /** The state and the record after the fork checks. */
  function ClassifiedList(s: State, l: RevocationList, p: Policy, now: int): (State, Observation) {
    var future := BeyondSkew(l.updatedAt, now, p.clockSkew);
    var n := NoteFuture(if IsDuplicate(s, l) then s else Absorb(s, l.revoked, l.sequence), future);
    var forks := ListForks(n, l);
    (if forks then MarkFork(n, l.sequence) else n, ListObservation(s, l, future).(fork := forks))
  }

  function ReduceList(s: State, l: RevocationList, p: Policy, now: int): State {
    if SkipsList(s, l, p, now) then s
    else
      var (m, o) := ClassifiedList(s, l, p, now);
      ConcludeList(m, o, l, IsDuplicate(s, l), Fresh(l, p, now))
  }

  predicate CallOk(s: State, issuer: IssuerId, epoch: int, key: KeyId, p: Policy, now: int) {
    && ValidPolicy(p) && ValidTimestamp(now)
    && BindingOk(s, issuer, epoch)
    && (s.keyId != "" ==> s.keyId == key)
  }

  /** ApplyRevocationListV2 */
  function ApplyList(s: State, l: RevocationList, issuer: IssuerId, epoch: int, key: KeyId, p: Policy, now: int)
    : Result<State>
  {
    if AuthenticList(l, issuer, key) && CallOk(s, issuer, epoch, key, p, now)
    then Success(Compact(ReduceList(Bind(s, issuer, epoch, key), l, p, now)))
    else Failure
  }

  /* ---- Pushes ---- */

  function PushObservation(s: State, q: RevocationPush, future: bool): Observation {
    Observation(s.epoch, s.keyId, q.sequence, PushEvidence(q), PushEvidence(q).Body(),
                q.revoked, q.revoked, future, false, false, false)
  }

  function ConcludePush(s: State, o: Observation, q: RevocationPush, future: bool): State {
    var forked := Append(MarkFork(s, q.sequence), o.(fork := true));
    if s.hasFloor && q.sequence == s.floor then
      if s.hasPreceding && s.precedingFloor == q.sequence - 1 && s.accepted != s.precedingAccepted + q.revoked then
        forked
      else if !(q.revoked <= s.accepted) then forked
      else if !o.fork then Append(s, o)
      else Append(s.(reconcile := true), o.(gap := true))
    else if s.hasFloor && q.sequence < s.floor then
      if !(q.revoked <= s.accepted) then forked else Append(s, o)
    else if !s.hasFloor || q.sequence != s.floor + 1 || s.reconcile || future then
      Append(s.(reconcile := true), o.(gap := !o.fork))
    else
      Append(s.(accepted := s.accepted + q.revoked, floor := q.sequence,
                hasPreceding := false, precedingFloor := 0, precedingAccepted := {}),
             o.(accepted := true))
  }

  /** The state and the record after the fork checks. */
  function PreparedPush(s: State, q: RevocationPush, p: Policy, now: int): (State, Observation)
    requires q.sequence > 0
  {
    var future := BeyondSkew(q.pushedAt, now, p.clockSkew);
    var n := NoteFuture(Absorb(s, q.revoked, q.sequence), future);
    var conflict := PushConflict(n.observations, n.epoch, q);
    var m := if conflict then MarkFork(n, q.sequence) else n;
    var omitted := Omission(m, q);
    (if omitted != 0 then MarkFork(m, omitted) else m,
     PushObservation(s, q, future).(fork := conflict || omitted != 0))
  }

  function ReducePush(s: State, q: RevocationPush, p: Policy, now: int): State
    requires q.sequence > 0
  {
    if PushSeen(s.observations, s.epoch, q) then s
    else
      var (m, o) := PreparedPush(s, q, p, now);
      ConcludePush(m, o, q, BeyondSkew(q.pushedAt, now, p.clockSkew))
  }

  /** ApplyRevocationPushV2 */
  function ApplyPush(s: State, q: RevocationPush, issuer: IssuerId, epoch: int, key: KeyId, p: Policy, now: int)
    : Result<State>
  {
    if AuthenticPush(q, issuer, key) && CallOk(s, issuer, epoch, key, p, now)
    then Success(Compact(ReducePush(Bind(s, issuer, epoch, key), q, p, now)))
    else Failure
  }

  /* ---- Epochs and queries ---- */

  function NextEpoch(s: State, key: KeyId): State {
    s.(retired := s.retired + {s.keyId}, epoch := s.epoch + 1, keyId := key,
       hasFloor := false, floor := 0, snapshot := None, accepted := {},
       hasPreceding := false, precedingFloor := 0, precedingAccepted := {},
       maxObserved := 0, forkSequence := 0, reconcile := false, futureObserved := false)
  }

  /** TransitionRevocationStatusEpochV2 */
  function Transition(s: State, issuer: IssuerId, nextEpoch: int, key: KeyId): Result<State> {
    if && issuer != "" && 0 < nextEpoch <= MAX_SAFE_INTEGER
       && s.issuer == issuer && 0 < s.epoch < MAX_SAFE_INTEGER && nextEpoch == s.epoch + 1
       && BindingOk(s, issuer, s.epoch) && AcceptedOk(s)
       && key != "" && key != s.keyId && key !in s.retired
    then Success(NextEpoch(s, key))
    else Failure
  }

  datatype Status = Revoked | NotRevoked(freshUntil: int) | Stale | Unavailable

  /** RevocationStatusForCertV2, without the evidence it reports. */
  function Query(s: State, issuer: IssuerId, cert: CertId, epoch: int, key: KeyId, p: Policy, now: int)
    : Result<Status>
  {
    if !(&& ValidPolicy(p) && BindingOk(s, issuer, epoch) && AcceptedOk(s)
         && cert != "" && ValidTimestamp(now) && key != ""
         && s.issuer == issuer && s.epoch == epoch && s.keyId == key
         && (s.snapshot.Some? ==> AuthenticList(s.snapshot.value, issuer, key)))
    then Failure
    else if cert in s.denyUnion then Success(Revoked)
    else if || !s.hasFloor || s.snapshot.None? || p.maxListLifetime == 0 || p.maxStatusAge == 0
            || s.futureObserved || s.reconcile || s.floor < s.maxObserved || !(s.denyUnion <= s.accepted)
    then Success(Unavailable)
    else if !Fresh(s.snapshot.value, p, now) then Success(Stale)
    else
      var l := s.snapshot.value;
      Success(NotRevoked(if l.nextUpdate < l.updatedAt + p.maxStatusAge then l.nextUpdate
                         else l.updatedAt + p.maxStatusAge))
  }
}

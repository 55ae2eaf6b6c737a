/** The security journal: every issuer's status state and the key histories in
    one hash-linked record (security_journal_v2.go).  A digest is modelled by the
    record it is computed from, so a record links to its whole past. */
module SecurityJournal {
  import opened StatusTypes
  import opened StatusCompaction
  import opened StatusReducer
  import opened CompareAndSwap

  datatype Binding = Binding(issuer: IssuerId, epoch: int, key: KeyId)

  /** The logical content.  `roles` maps each key to its permanent role. */
  datatype Content = Content(states: map<IssuerId, State>, roles: map<KeyId, string>, bindings: set<Binding>)

  datatype Journal = Journal(generation: int, previous: Option<Journal>, content: Content)

  const EMPTY: Journal := Journal(0, None, Content(map[], map[], {}))

  const ROLES: set<string> := {"status", "delegation", "rotation", "verifier", "witness", "receiver", "issuer", "other"}

  /* ---- Validation of one record ---- */

  /** The high-water mark is the greatest sequence on record in the epoch. */
  predicate HighWaterExact(s: State) {
    && (forall o :: o in s.observations && o.epoch == s.epoch ==> o.sequence <= s.maxObserved)
    && (s.maxObserved == 0 || exists o :: o in s.observations && o.epoch == s.epoch && o.sequence == s.maxObserved)
  }

  predicate StateOk(c: Content, issuer: IssuerId, s: State) {
    && issuer != "" && s.issuer == issuer && s.epoch != 0
    && BindingOk(s, issuer, s.epoch) && AcceptedOk(s)
    && Binding(issuer, s.epoch, s.keyId) in c.bindings
    && (forall o :: o in s.observations ==> Binding(issuer, o.epoch, o.keyId) in c.bindings)
    && HighWaterExact(s)
    && s.retired == set b | b in c.bindings && b.issuer == issuer && b.epoch < s.epoch :: b.key
  }

  /** The state of an issuer, if there is one, is valid. */
  predicate HoldsState(c: Content, issuer: IssuerId) {
    issuer in c.states ==> StateOk(c, issuer, c.states[issuer])
  }

  predicate IsBound(c: Content, issuer: IssuerId, epoch: int) {
    exists b :: b in c.bindings && b.issuer == issuer && b.epoch == epoch
  }

  /** Contiguous epochs from 1, one key an epoch, no key twice, each key with
      the status role. */
  predicate BindingsOk(c: Content) {
    && (forall b :: b in c.bindings ==>
          && b.issuer != "" && 0 < b.epoch && b.key != ""
          && b.key in c.roles && c.roles[b.key] == "status")
    && (forall b, e :: b in c.bindings && 0 < e < b.epoch ==> IsBound(c, b.issuer, e))
    && (forall a, b :: a in c.bindings && b in c.bindings && a != b ==>
          a.key != b.key && !(a.issuer == b.issuer && a.epoch == b.epoch))
  }

  /** ValidateSecurityJournalV2 */
  predicate ValidJournal(j: Journal) {
    && 0 <= j.generation
    && (j.generation == 0 ==> j.previous.None? && j.content == EMPTY.content)
    && (j.generation > 0 ==> j.previous.Some?)
    && (forall i {:trigger HoldsState(j.content, i)} :: i in j.content.states ==> HoldsState(j.content, i))
    && (forall k :: k in j.content.roles ==> k != "" && j.content.roles[k] in ROLES)
    && BindingsOk(j.content)
    && (forall b :: b in j.content.bindings ==>
          b.issuer in j.content.states && b.epoch <= j.content.states[b.issuer].epoch)
  }

  /* ---- Validation of a transition ---- */

  /** The last record with a semantic key, or -1. */
  function LastWithKey(obs: seq<Observation>, k: SemanticKey): (i: int)
    ensures -1 <= i < |obs|
    ensures i >= 0 ==> KeyOf(obs[i]) == k
  {
    if obs == [] then -1
    else if KeyOf(obs[|obs| - 1]) == k then |obs| - 1
    else LastWithKey(obs[..|obs| - 1], k)
  }

  /** A record that the next state must retain is there, unchanged or under
      its semantic key with everything that still matters. */
  predicate Retains(t: State, prior: Observation) {
    || prior in t.observations
    || !MustRetain(t, prior)
    || (var i := LastWithKey(t.observations, KeyOf(prior));
        && i >= 0
        && prior.certs <= t.observations[i].certs
        && (prior.fork ==> t.observations[i].fork)
        && (prior.gap && t.reconcile ==> t.observations[i].gap)
        && (prior.futureDated && t.futureObserved ==> t.observations[i].futureDated))
  }

  /** The fail-closed reset that a later epoch must perform. */
  predicate Resets(s: State, t: State) {
    && t.keyId != s.keyId && t.keyId !in s.retired && t.retired == s.retired + {s.keyId}
    && !t.hasFloor && t.floor == 0 && t.snapshot.None? && t.accepted == {}
    && !t.hasPreceding && t.precedingFloor == 0 && t.precedingAccepted == {}
    && t.maxObserved == 0 && t.forkSequence == 0 && !t.reconcile && !t.futureObserved
    && (forall o :: o in t.observations ==> o.epoch < t.epoch)
  }

  /** An accepted list that has caught up with everything observed before. */
  predicate CaughtUpAfter(t: State, s: State) {
    && (exists o :: o in t.observations && o.epoch == s.epoch && o.IsList() && o.accepted
                    && o.sequence >= s.maxObserved && (s.forkSequence == 0 || o.sequence > s.forkSequence)
                    && s.denyUnion <= o.certs)
    && s.denyUnion <= t.accepted
  }

  predicate StatusTransitionOk(s: State, t: State) {
    && s.denyUnion <= t.denyUnion
    && (forall prior :: prior in s.observations ==> Retains(t, prior))
    && s.epoch <= t.epoch
    && (s.epoch < t.epoch ==> Resets(s, t))
    && (s.epoch == t.epoch && s.hasFloor ==> t.hasFloor && s.floor <= t.floor)
    && (s.epoch == t.epoch ==> s.maxObserved <= t.maxObserved)
    && (s.epoch == t.epoch && s.reconcile && !t.reconcile ==> CaughtUpAfter(t, s))
  }

  /** Roles and bindings are permanent, and a new state has its binding. */
  predicate HistoriesFollow(c: Content, d: Content) {
    && (forall k :: k in c.roles ==> k in d.roles && d.roles[k] == c.roles[k])
    && c.bindings <= d.bindings
    && (forall i :: i in d.states && i !in c.states ==> Binding(i, d.states[i].epoch, d.states[i].keyId) in d.bindings)
  }

  predicate StateFollows(c: Content, d: Content, issuer: IssuerId) {
    issuer in c.states ==> issuer in d.states && StatusTransitionOk(c.states[issuer], d.states[issuer])
  }

  predicate StatesFollow(c: Content, d: Content) {
    forall i {:trigger StateFollows(c, d, i)} :: i in c.states ==> StateFollows(c, d, i)
  }

  /** Equal digests. */
  predicate Same<T(==)>(a: T, b: T) { a == b }

  /** ValidateSecurityJournalTransitionV2 */
  predicate ValidTransition(current: Journal, next: Journal) {
    && ValidJournal(current) && ValidJournal(next)
    && next.generation == current.generation + 1 && Same(next.previous, Some(current))
    && HistoriesFollow(current.content, next.content)
    && StatesFollow(current.content, next.content)
  }

  /* ---- Updates ---- */

  datatype Update =
    | RecordRole(role: string, roleKey: KeyId)
    | ConfigureEpoch(configured: IssuerId, newEpoch: int, newKey: KeyId)
    /** One object, or the whole batch of a status stage; a stage also checks
        role separation against the keys of the proof. */
    | Deliver(issuer: IssuerId, epoch: int, key: KeyId, objects: seq<Evidence>, policy: Policy, now: int,
              stage: bool, proofKeys: set<KeyId>)

  function RegisterRole(c: Content, role: string, key: KeyId): Result<Content> {
    if key == "" then Failure
    else if key !in c.roles then Success(c.(roles := c.roles[key := role]))
    else if c.roles[key] == role then Success(c)
    else Failure
  }

  /** The epoch after the highest one on record. */
  predicate IsNextEpoch(c: Content, issuer: IssuerId, epoch: int) {
    && (forall b :: b in c.bindings && b.issuer == issuer ==> b.epoch < epoch)
    && (epoch == 1 || IsBound(c, issuer, epoch - 1))
  }

  /** RegisterStatusKeyEpochV2 */
  function RegisterEpoch(c: Content, issuer: IssuerId, epoch: int, key: KeyId): Result<Content> {
    if issuer == "" || !(0 < epoch <= MAX_SAFE_INTEGER) || key == "" then Failure
    else if Binding(issuer, epoch, key) in c.bindings then Success(c)
    else if exists b :: b in c.bindings && ((b.issuer == issuer && b.epoch == epoch) || b.key == key) then Failure
    else if !IsNextEpoch(c, issuer, epoch) then Failure
    else
      match RegisterRole(c, "status", key)
      case Success(d) => Success(d.(bindings := d.bindings + {Binding(issuer, epoch, key)}))
      case Failure => Failure
  }

  /** requireJournalStatusKeyV2 */
  predicate CurrentKey(c: Content, issuer: IssuerId, epoch: int, key: KeyId) {
    && issuer != "" && epoch != 0
    && Binding(issuer, epoch, key) in c.bindings
    && issuer in c.states && c.states[issuer].epoch == epoch && c.states[issuer].keyId == key
  }

  /** ConfigureStatusKeyEpochV2 */
  function Configure(c: Content, issuer: IssuerId, epoch: int, key: KeyId): Result<Content> {
    match RegisterEpoch(c, issuer, epoch, key)
    case Failure => Failure
    case Success(d) =>
      if issuer in d.states then
        if epoch == d.states[issuer].epoch then (if CurrentKey(d, issuer, epoch, key) then Success(d) else Failure)
        else
          match Transition(d.states[issuer], issuer, epoch, key)
          case Success(t) => Success(d.(states := d.states[issuer := t]))
          case Failure => Failure
      else if epoch != 1 then Failure
      else Success(d.(states := d.states[issuer := Configured(issuer, key)]))
  }

  function ApplyObject(s: State, e: Evidence, u: Update): Result<State>
    requires u.Deliver?
  {
    match e
    case ListEvidence(l) => ApplyList(s, l, u.issuer, u.epoch, u.key, u.policy, u.now)
    case PushEvidence(q) => ApplyPush(s, q, u.issuer, u.epoch, u.key, u.policy, u.now)
  }

  /** The elements in order; one refusal refuses them all. */
  function ApplyEach<S, E>(s: S, es: seq<E>, f: (S, E) -> Result<S>): Result<S> {
    if es == [] then Success(s)
    else
      match ApplyEach(s, es[..|es| - 1], f)
      case Success(t) => f(t, es[|es| - 1])
      case Failure => Failure
  }

  function Applier(u: Update): (State, Evidence) -> Result<State>
    requires u.Deliver?
  {
    (s: State, e: Evidence) => ApplyObject(s, e, u)
  }

  function ApplyObjects(s: State, objects: seq<Evidence>, u: Update): Result<State>
    requires u.Deliver?
  {
    ApplyEach(s, objects, Applier(u))
  }

  /** checkV2StatusRoleSeparation, with a key standing for its components. */
  predicate RolesSeparated(c: Content, u: Update)
    requires u.Deliver?
  {
    u.key in c.roles && c.roles[u.key] == "status" && u.key !in u.proofKeys
  }

  function Change(c: Content, u: Update): Result<Content> {
    match u
    case RecordRole(role, key) =>
      if role in ROLES && role != "status" then RegisterRole(c, role, key) else Failure
    case ConfigureEpoch(issuer, epoch, key) => Configure(c, issuer, epoch, key)
    case Deliver(issuer, epoch, key, objects, _, _, stage, _) =>
      if !CurrentKey(c, issuer, epoch, key) || (stage && !RolesSeparated(c, u)) then Failure
      else
        match ApplyObjects(c.states[issuer], objects, u)
        case Success(t) => Success(c.(states := c.states[issuer := t]))
        case Failure => Failure
  }

  /* ---- Commit ---- */

  function Prune(c: Content): Content {
    c.(states := map i | i in c.states :: Compact(c.states[i]))
  }

  /** Unchanged content is not committed, and a refused record is not offered. */
  function Offer(current: Journal, next: Journal, valid: bool): Proposal<Journal> {
    if next.content == current.content then Unchanged
    else if next.generation > MAX_SAFE_INTEGER || !valid then Refused
    else Proposed(next)
  }

  function OfferContent(current: Journal, content: Content): Proposal<Journal> {
    var next := Journal(current.generation + 1, Some(current), content);
    Offer(current, next, ValidTransition(current, next))
  }

  /** Everything of an update between the load and the compare-and-swap. */
  function Propose(current: Journal, u: Update): Proposal<Journal> {
    match Change(current.content, u)
    case Failure => Refused
    case Success(changed) => OfferContent(current, Prune(changed))
  }
}

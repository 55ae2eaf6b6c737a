/** The records of the revocation status feed and the reducer state that a
    verifier keeps for one issuer (status_state_v2.go, protocol_v2_wire.go).

    Digests are modelled by the content they are computed from, so two digests
    are equal exactly when the digested values are.  Where the source compares
    digest bytes for order, the record carries that order as a number: `digest`
    for the evidence digest and `rank` for the revoked-set and body digests.
    Nothing is assumed about these numbers. */
module StatusTypes {

  type CertId = string
  type KeyId = string
  type IssuerId = string

  datatype Option<+T> = None | Some(value: T)

  datatype Result<+T> = Success(value: T) | Failure

  const MAX_SAFE_INTEGER: int := 9007199254740991
  const MAX_TIMESTAMP: int := 253402300799
  const MAX_STATUS_LIFETIME: int := 86400
  const MAX_FUTURE_SKEW: int := 300
  const MAX_DELEGATION_LIFETIME: int := 315360000

  /** A signed full list.  `signedBy` names the key whose signature verifies. */
  datatype RevocationList = RevocationList(
    issuer: IssuerId, signedBy: KeyId, sequence: int, updatedAt: int, nextUpdate: int,
    revoked: set<CertId>, rank: nat, digest: nat)

  /** A signed push: the certificates newly revoked at one sequence. */
  datatype RevocationPush = RevocationPush(
    issuer: IssuerId, signedBy: KeyId, sequence: int, pushedAt: int,
    revoked: set<CertId>, rank: nat, digest: nat)

  /** A signed object as the evidence digest identifies it. */
  datatype Evidence = ListEvidence(list: RevocationList) | PushEvidence(push: RevocationPush) {
    function Sequence(): int {
      match this case ListEvidence(l) => l.sequence case PushEvidence(p) => p.sequence
    }

    function Revoked(): set<CertId> {
      match this case ListEvidence(l) => l.revoked case PushEvidence(p) => p.revoked
    }

    function Rank(): nat {
      match this case ListEvidence(l) => l.rank case PushEvidence(p) => p.rank
    }

    /** The signed body: everything but the signature. */
    function Body(): Evidence {
      match this
      case ListEvidence(l) => ListEvidence(l.(digest := 0))
      case PushEvidence(p) => PushEvidence(p.(digest := 0))
    }
  }

  /** RevocationObservationV2.  `revokedSet` is what the revoked-set digest
      identifies: the full set of the object.  `certs` is the retained list of
      certificate IDs, which compaction narrows. */
  datatype Observation = Observation(
    epoch: int, keyId: KeyId, sequence: int, evidence: Evidence, body: Evidence,
    revokedSet: set<CertId>, certs: set<CertId>,
    futureDated: bool, fork: bool, gap: bool, accepted: bool)
  {
    predicate IsList() { body.ListEvidence? }
    predicate IsPush() { body.PushEvidence? }
  }

  /** RevocationStatusStateV2: one issuer's rollback-protected reducer state.
      The issuer is "" until the first object binds it. */
  datatype State = State(
    issuer: IssuerId, epoch: int, keyId: KeyId, retired: set<KeyId>,
    hasFloor: bool, floor: int, snapshot: Option<RevocationList>, accepted: set<CertId>,
    hasPreceding: bool, precedingFloor: int, precedingAccepted: set<CertId>,
    denyUnion: set<CertId>, observations: seq<Observation>,
    maxObserved: int, forkSequence: int, reconcile: bool, futureObserved: bool)

  datatype Policy = Policy(maxListLifetime: int, maxStatusAge: int, clockSkew: int)

  predicate ValidTimestamp(t: int) { 0 <= t <= MAX_TIMESTAMP }

  predicate ValidPolicy(p: Policy) {
    && 0 <= p.maxListLifetime <= MAX_STATUS_LIFETIME
    && 0 <= p.maxStatusAge <= MAX_STATUS_LIFETIME
    && 0 <= p.clockSkew <= MAX_FUTURE_SKEW
  }

  predicate BeyondSkew(timestamp: int, now: int, skew: int) {
    timestamp > now && timestamp - now > skew
  }

  predicate Fresh(l: RevocationList, p: Policy, now: int) {
    && p.maxListLifetime != 0
    && p.maxStatusAge != 0
    && l.nextUpdate - l.updatedAt <= p.maxListLifetime
    && !BeyondSkew(l.updatedAt, now, p.clockSkew)
    && now < l.nextUpdate
    && (now < l.updatedAt || now - l.updatedAt < p.maxStatusAge)
  }

  /** The list decodes and its signature verifies for this issuer and key. */
  predicate AuthenticList(l: RevocationList, issuer: IssuerId, key: KeyId) {
    && issuer != "" && key != ""
    && l.issuer == issuer && l.signedBy == key
    && 0 < l.sequence <= MAX_SAFE_INTEGER
    && ValidTimestamp(l.updatedAt) && ValidTimestamp(l.nextUpdate) && l.updatedAt < l.nextUpdate
    && "" !in l.revoked
  }

  predicate AuthenticPush(p: RevocationPush, issuer: IssuerId, key: KeyId) {
    && issuer != "" && key != ""
    && p.issuer == issuer && p.signedBy == key
    && 0 < p.sequence <= MAX_SAFE_INTEGER
    && ValidTimestamp(p.pushedAt)
    && "" !in p.revoked
  }

  /** heartbeatPreferredV2: later update time first, then the smaller digest. */
  predicate Preferred(incoming: RevocationList, current: RevocationList) {
    if incoming.updatedAt != current.updatedAt then incoming.updatedAt > current.updatedAt
    else incoming.digest < current.digest
  }

  function MaxInt(a: int, b: int): int { if a < b then b else a }

  function Min(a: int, b: int): int { if a < b then a else b }

  predicate Distinct<T(==)>(xs: seq<T>) {
    forall i, j :: 0 <= i < j < |xs| ==> xs[i] != xs[j]
  }

  /** The state before any object or configuration: the Go zero value. */
  const UNBOUND: State := State(
    "", 0, "", {}, false, 0, None, {}, false, 0, {}, {}, [], 0, 0, false, false)

  /** The state that the first status-key configuration writes. */
  function Configured(issuer: IssuerId, key: KeyId): State {
    UNBOUND.(issuer := issuer, epoch := 1, keyId := key)
  }
}

/** The key-rotation journal (key_rotation_journal_v2.go and the state checks of
    key_rotation_v2.go): a hash-linked chain of accepted statements with replay,
    fork freeze and recovery epochs.  A body digest is modelled by the body, so
    a head hash holds the chain behind it. */
module KeyRotation {
  import opened StatusTypes

  /** ZERO is the 48 zero bytes before the first statement of an epoch. */
  datatype Hash = ZERO | Digest(body: Body)

  datatype Body = Body(
    authority: string, epoch: int, role: string, sequence: int, previous: Hash,
    oldKey: KeyId, newKey: KeyId, issuedAt: int, notBefore: int)

  /** A statement with the keys whose signatures over the body verify. */
  datatype Statement = Statement(body: Body, oldSigner: KeyId, newSigner: KeyId)

  datatype Entry = Entry(sequence: int, digest: Hash, oldKey: KeyId)

  datatype Journal = Journal(
    authority: string, epoch: int, role: string, sequence: int, head: Hash, current: KeyId, used: seq<KeyId>,
    accepted: seq<Entry>, frozen: bool)

  const ROLES: set<string> := {"organization_root", "issuer", "agent"}

  predicate HexDigit(c: char) { '0' <= c <= '9' || 'a' <= c <= 'f' }

  predicate ValidAuthority(a: string) { |a| == 32 && forall i :: 0 <= i < |a| ==> HexDigit(a[i]) }

  /** validateKeyRotationStatementV2 */
  predicate ValidBody(b: Body) {
    && ValidAuthority(b.authority)
    && 0 < b.epoch <= MAX_SAFE_INTEGER && 0 < b.sequence <= MAX_SAFE_INTEGER
    && ValidTimestamp(b.issuedAt) && ValidTimestamp(b.notBefore)
    && b.role in ROLES
    && (b.sequence == 1 <==> b.previous == ZERO)
    && b.oldKey != "" && b.newKey != "" && b.oldKey != b.newKey
  }

  function New(authority: string, epoch: int, role: string, genesis: KeyId): Result<Journal> {
    if genesis == "" || !ValidAuthority(authority) || !(0 < epoch <= MAX_SAFE_INTEGER) || role !in ROLES then Failure
    else Success(Journal(authority, epoch, role, 0, ZERO, genesis, [genesis], [], false))
  }

  /** The used-key checks of VerifyKeyRotationStatementV2. */
  predicate UsedOk(used: seq<KeyId>, current: KeyId, replacement: KeyId) {
    used != [] && "" !in used && Distinct(used) && current in used && replacement !in used
  }

  method CheckUsedKeys(used: seq<KeyId>, current: KeyId, replacement: KeyId) returns (ok: bool)
    ensures ok == UsedOk(used, current, replacement)
  {
    if used == [] { return false; }
    var seen: set<KeyId> := {};
    for i := 0 to |used|
      invariant forall k :: k in seen <==> k in used[..i]
      invariant "" !in used[..i] && Distinct(used[..i])
    {
      if used[i] == "" { return false; }
      if used[i] in seen { return false; }
      seen := seen + {used[i]};
    }
    assert used[..|used|] == used;
    return current in seen && replacement !in seen;
  }

  /** VerifyKeyRotationStatementV2 */
  predicate Extends(s: Statement, j: Journal, now: int, skew: int) {
    && ValidBody(s.body)
    && j.current != "" && 0 <= j.sequence < MAX_SAFE_INTEGER && 0 < j.epoch <= MAX_SAFE_INTEGER
    && (j.sequence == 0 <==> j.head == ZERO)
    && UsedOk(j.used, j.current, s.body.newKey)
    && ValidTimestamp(now) && 0 <= skew <= MAX_FUTURE_SKEW
    && s.body.oldKey == j.current && s.body.authority == j.authority && s.body.epoch == j.epoch && s.body.role == j.role
    && s.body.sequence == j.sequence + 1 && s.body.previous == j.head
    && s.body.issuedAt <= now + skew && s.body.notBefore <= now + skew
    && s.oldSigner == j.current && s.newSigner == s.body.newKey
  }

  datatype Answer = Appended | Replay | Fork | Refused

  /** AcceptKeyRotationStatementV2, with the journal the caller persists. */
  function Accept(s: Statement, j: Journal, now: int, skew: int): (Journal, Answer) {
    if !ValidBody(s.body) || |j.accepted| != j.sequence || j.frozen then (j, Refused)
    else if s.body.authority != j.authority || s.body.epoch != j.epoch || s.body.role != j.role then (j, Refused)
    else if s.body.sequence <= j.sequence then
      var prior := j.accepted[s.body.sequence - 1];
      if prior.sequence != s.body.sequence || s.body.oldKey != prior.oldKey then (j, Refused)
      else if s.oldSigner != prior.oldKey || s.newSigner != s.body.newKey then (j, Refused)
      else if Digest(s.body) == prior.digest then (j, Replay)
      else (j.(frozen := true), Fork)
    else if !Extends(s, j, now, skew) then (j, Refused)
    else
      (j.(accepted := j.accepted + [Entry(s.body.sequence, Digest(s.body), s.body.oldKey)],
          sequence := s.body.sequence, head := Digest(s.body), current := s.body.newKey,
          used := j.used + [s.body.newKey]),
       Appended)
  }

  /** RecoverKeyRotationV2 */
  function Recover(j: Journal, epoch: int, genesis: KeyId): Result<Journal> {
    if genesis == "" || epoch <= j.epoch || epoch > MAX_SAFE_INTEGER || genesis in j.used then Failure
    else Success(j.(epoch := epoch, sequence := 0, head := ZERO, current := genesis,
                    used := j.used + [genesis], accepted := [], frozen := false))
  }

  /* ---- Runs ---- */

  datatype Op = AcceptOp(statement: Statement, now: int, skew: int) | RecoverOp(epoch: int, genesis: KeyId)

  function Next(j: Journal, op: Op): Journal {
    match op
    case AcceptOp(s, now, skew) => Accept(s, j, now, skew).0
    case RecoverOp(epoch, genesis) => (match Recover(j, epoch, genesis) case Success(t) => t case Failure => j)
  }

  function Run(j: Journal, ops: seq<Op>): Journal {
    if ops == [] then j else Next(Run(j, ops[..|ops| - 1]), ops[|ops| - 1])
  }

  /** Whether an operation makes a key current. */
  predicate Installs(j: Journal, op: Op) {
    match op
    case AcceptOp(s, now, skew) => Accept(s, j, now, skew).1 == Appended
    case RecoverOp(epoch, genesis) => Recover(j, epoch, genesis).Success?
  }

  /** Every key that was ever made current, in order, across all epochs. */
  function Installed(j: Journal, ops: seq<Op>): seq<KeyId> {
    if ops == [] then [j.current]
    else
      var before := Run(j, ops[..|ops| - 1]);
      var op := ops[|ops| - 1];
      Installed(j, ops[..|ops| - 1]) + if Installs(before, op) then [Next(before, op).current] else []
  }

  /* ---- The chain ---- */

  /** The accepted entries form one chain that ends in the head. */
  ghost predicate Chained(j: Journal) {
    && |j.accepted| == j.sequence
    && (j.sequence == 0 ==> j.head == ZERO)
    && (j.sequence > 0 ==> && j.head == j.accepted[j.sequence - 1].digest && j.head.Digest?
                           && j.current == j.head.body.newKey)
    && (forall i :: 0 <= i < |j.accepted| ==> LinkOk(j, i))
  }

  ghost predicate LinkOk(j: Journal, i: int)
    requires 0 <= i < |j.accepted|
  {
    var e := j.accepted[i];
    && e.sequence == i + 1 && e.digest.Digest?
    && e.oldKey == e.digest.body.oldKey
    && ValidBody(e.digest.body) && e.digest.body.sequence == i + 1
    && e.digest.body.previous == (if i == 0 then ZERO else j.accepted[i - 1].digest)
    && e.digest.body.authority == j.authority && e.digest.body.epoch == j.epoch && e.digest.body.role == j.role
  }

  ghost predicate JournalOk(j: Journal) {
    && Chained(j) && ValidAuthority(j.authority) && j.role in ROLES
    && j.current != "" && 0 < j.epoch <= MAX_SAFE_INTEGER
    && "" !in j.used && Distinct(j.used)
    && j.used != [] && j.used[|j.used| - 1] == j.current
  }

  lemma AcceptKeepsOk(s: Statement, j: Journal, now: int, skew: int)
    requires JournalOk(j)
    ensures JournalOk(Accept(s, j, now, skew).0)
  {
    var t := Accept(s, j, now, skew).0;
    forall i | 0 <= i < |t.accepted| ensures LinkOk(t, i) {
      if i < |j.accepted| { assert LinkOk(j, i); }
    }
  }

  lemma NextKeepsOk(j: Journal, op: Op)
    requires JournalOk(j)
    ensures JournalOk(Next(j, op))
  {
    match op
    case AcceptOp(s, now, skew) => AcceptKeepsOk(s, j, now, skew);
    case RecoverOp(_, _) =>
  }

  lemma {:induction false} RunKeepsOk(j: Journal, ops: seq<Op>)
    requires JournalOk(j)
    ensures JournalOk(Run(j, ops))
  {
    if ops != [] {
      RunKeepsOk(j, ops[..|ops| - 1]);
      NextKeepsOk(Run(j, ops[..|ops| - 1]), ops[|ops| - 1]);
    }
  }

  /** Equal digests at one place of two chains make the chains equal up to it. */
  lemma {:induction false} ChainsAgree(a: Journal, b: Journal, i: int)
    requires Chained(a) && Chained(b) && 0 <= i < |a.accepted| && i < |b.accepted|
    requires a.accepted[i].digest == b.accepted[i].digest
    ensures a.accepted[..i + 1] == b.accepted[..i + 1]
  {
    assert LinkOk(a, i) && LinkOk(b, i);
    assert a.accepted[i] == b.accepted[i];
    if i > 0 {
      ChainsAgree(a, b, i - 1);
      assert a.accepted[..i + 1] == a.accepted[..i] + [a.accepted[i]];
      assert b.accepted[..i + 1] == b.accepted[..i] + [b.accepted[i]];
    }
  }

  lemma SameHeadSameChain(a: Journal, b: Journal)
    requires Chained(a) && Chained(b) && a.sequence == b.sequence >= 1 && a.head == b.head
    ensures a.accepted == b.accepted && a.current == b.current
    ensures a.authority == b.authority && a.epoch == b.epoch && a.role == b.role
  {
    var last := a.sequence - 1;
    ChainsAgree(a, b, last);
    assert LinkOk(a, last) && LinkOk(b, last);
    assert a.accepted[..last + 1] == a.accepted && b.accepted[..last + 1] == b.accepted;
  }

  /** Two reachable journals with the same sequence, at least 1, and equal
      heads have accepted the same history, for the same authority, epoch and
      role, and have the same current key. */
  lemma {:induction false} SameHeadSameHistory(j: Journal, ops: seq<Op>, k: Journal, more: seq<Op>)
    requires JournalOk(j) && JournalOk(k)
    requires Run(j, ops).sequence == Run(k, more).sequence >= 1 && Run(j, ops).head == Run(k, more).head
    ensures var a, b := Run(j, ops), Run(k, more);
            && a.accepted == b.accepted && a.current == b.current
            && a.authority == b.authority && a.epoch == b.epoch && a.role == b.role
  {
    RunKeepsOk(j, ops);
    RunKeepsOk(k, more);
    SameHeadSameChain(Run(j, ops), Run(k, more));
  }

  /* ---- Keys ---- */

  /** From a new journal, the used keys are exactly the keys that were ever
      current, in order, and none of them was current twice. */
  lemma {:induction false} NoKeyIsCurrentTwice(j: Journal, ops: seq<Op>)
    requires JournalOk(j) && j.used == [j.current]
    ensures Run(j, ops).used == Installed(j, ops) && Distinct(Installed(j, ops)) && Installed(j, ops) != []
    ensures Run(j, ops).current == Installed(j, ops)[|Installed(j, ops)| - 1]
  {
    RunKeepsOk(j, ops);
    if ops != [] {
      NoKeyIsCurrentTwice(j, ops[..|ops| - 1]);
    }
  }

  /* ---- Freeze and recovery ---- */

  /** A frozen journal does not change until a recovery, which needs a larger
      epoch and a key that was never used. */
  lemma {:induction false} FrozenUntilRecovery(j: Journal, ops: seq<Op>)
    requires JournalOk(j) && j.frozen
    requires forall i :: 0 <= i < |ops| && ops[i].RecoverOp? ==> ops[i].epoch <= j.epoch || ops[i].genesis in j.used
    ensures Run(j, ops) == j
  {
    if ops != [] {
      FrozenUntilRecovery(j, ops[..|ops| - 1]);
    }
  }

  /** A journal freezes exactly when a statement authenticated by the key of an
      accepted sequence has a different body there. */
  lemma FreezesExactly(s: Statement, j: Journal, now: int, skew: int)
    requires JournalOk(j) && !j.frozen
    ensures Accept(s, j, now, skew).0.frozen <==>
            && ValidBody(s.body) && s.body.authority == j.authority && s.body.epoch == j.epoch && s.body.role == j.role
            && s.body.sequence <= j.sequence
            && j.accepted[s.body.sequence - 1].digest != Digest(s.body)
            && s.body.oldKey == s.oldSigner == j.accepted[s.body.sequence - 1].oldKey && s.newSigner == s.body.newKey
  {
    if ValidBody(s.body) && s.body.sequence <= j.sequence {
      assert LinkOk(j, s.body.sequence - 1);
    }
  }

  /** Any earlier statement of the history, re-signed or not, is a replay that
      changes nothing. */
  lemma AcceptedIsReplay(s: Statement, j: Journal, now: int, skew: int)
    requires JournalOk(j) && !j.frozen && 1 <= s.body.sequence <= j.sequence
    requires Digest(s.body) == j.accepted[s.body.sequence - 1].digest
    requires s.oldSigner == s.body.oldKey && s.newSigner == s.body.newKey
    ensures Accept(s, j, now, skew) == (j, Replay)
  {
    assert LinkOk(j, s.body.sequence - 1);
  }

  /* ---- Who installs a key ---- */

  /** What makes a statement the next one of a journal, said of the two alone:
      it continues the chain, both keys signed it, its time has come, and its
      key is new. */
  ghost predicate Succeeds(s: Statement, j: Journal, now: int, skew: int) {
    var b := s.body;
    && !j.frozen && b.authority == j.authority && b.epoch == j.epoch && b.role == j.role
    && b.sequence == j.sequence + 1 <= MAX_SAFE_INTEGER && b.previous == j.head && b.oldKey == j.current
    && s.oldSigner == j.current && s.newSigner == b.newKey && b.newKey != "" && b.newKey !in j.used
    && ValidTimestamp(b.issuedAt) && ValidTimestamp(b.notBefore) && ValidTimestamp(now)
    && 0 <= skew <= MAX_FUTURE_SKEW && b.issuedAt <= now + skew && b.notBefore <= now + skew
  }

  /** The journal after such a statement. */
  ghost predicate Succeeded(s: Statement, j: Journal, t: Journal) {
    && t.authority == j.authority && t.epoch == j.epoch && t.role == j.role && !t.frozen
    && t.sequence == j.sequence + 1 && t.head == Digest(s.body) && t.current == s.body.newKey
    && t.used == j.used + [s.body.newKey]
    && t.accepted == j.accepted + [Entry(j.sequence + 1, Digest(s.body), j.current)]
  }

  /** A statement is appended exactly when it is the next one. */
  lemma AppendedExactly(s: Statement, j: Journal, now: int, skew: int)
    requires JournalOk(j)
    ensures Accept(s, j, now, skew).1 == Appended <==> Succeeds(s, j, now, skew)
    ensures Succeeds(s, j, now, skew) ==> Succeeded(s, j, Accept(s, j, now, skew).0)
    ensures Accept(s, j, now, skew).1 in {Replay, Refused} ==> Accept(s, j, now, skew).0 == j
  {
    if j.sequence > 0 { assert LinkOk(j, j.sequence - 1); }
    assert j.used[|j.used| - 1] in j.used;
  }

  /** An accepted sequence is answered by replay or fork exactly for a statement
      that the keys of that place signed; which one, the body decides. */
  lemma OldExactly(s: Statement, j: Journal, now: int, skew: int)
    requires JournalOk(j)
    ensures var a := Accept(s, j, now, skew).1;
            a in {Replay, Fork} <==>
            && !j.frozen && s.body.authority == j.authority && s.body.epoch == j.epoch && s.body.role == j.role
            && 0 < s.body.sequence <= j.sequence && (s.body.sequence == 1 <==> s.body.previous == ZERO)
            && ValidTimestamp(s.body.issuedAt) && ValidTimestamp(s.body.notBefore)
            && s.body.newKey != "" && s.body.newKey != s.body.oldKey
            && s.oldSigner == s.body.oldKey == j.accepted[s.body.sequence - 1].oldKey && s.newSigner == s.body.newKey
    ensures var (t, a) := Accept(s, j, now, skew);
            && (a == Replay ==> Digest(s.body) == j.accepted[s.body.sequence - 1].digest)
            && (a == Fork ==> Digest(s.body) != j.accepted[s.body.sequence - 1].digest && t == j.(frozen := true))
  {
    if 0 < s.body.sequence <= j.sequence { assert LinkOk(j, s.body.sequence - 1); }
  }

  /** A new journal opens exactly for a well-formed authority, epoch, role and
      key, and the key is the only one it ever used. */
  lemma OpensExactly(authority: string, epoch: int, role: string, genesis: KeyId)
    ensures var r := New(authority, epoch, role, genesis);
            && (r.Success? <==>
                && |authority| == 32 && (forall c :: c in authority ==> '0' <= c <= '9' || 'a' <= c <= 'f')
                && 0 < epoch <= MAX_SAFE_INTEGER && genesis != ""
                && (role == "organization_root" || role == "issuer" || role == "agent"))
            && (r.Success? ==>
                && JournalOk(r.value) && !r.value.frozen && r.value.sequence == 0 && r.value.epoch == epoch
                && r.value.authority == authority && r.value.role == role
                && r.value.current == genesis && r.value.used == [genesis])
  {
    forall i | 0 <= i < |authority| ensures authority[i] in authority {}
  }

  /** A later epoch and a key that was never used. */
  predicate Recovers(j: Journal, epoch: int, genesis: KeyId) {
    j.epoch < epoch <= MAX_SAFE_INTEGER && genesis != "" && genesis !in j.used
  }

  /** How the current key can change in one step. */
  ghost predicate Handover(a: Journal, op: Op, b: Journal) {
    match op
    case AcceptOp(s, now, skew) => Succeeds(s, a, now, skew) && Succeeded(s, a, b)
    case RecoverOp(epoch, genesis) =>
      && Recovers(a, epoch, genesis)
      && b.current == genesis && b.used == a.used + [genesis] && b.epoch == epoch && b.sequence == 0 && b.head == ZERO
      && b.accepted == [] && !b.frozen && b.authority == a.authority && b.role == a.role
  }

  /** Over every run, a key becomes current only by a recovery, or by a timely
      statement that the key current just before and the new key have signed;
      and whenever one of these is given, its key becomes current. */
  lemma {:induction false} KeysAreHandedOver(j: Journal, ops: seq<Op>, n: nat)
    requires JournalOk(j) && n < |ops|
    ensures var a, b := Run(j, ops[..n]), Run(j, ops[..n + 1]);
            && (a.current != b.current <==> Handover(a, ops[n], b))
            && (ops[n].AcceptOp? && Succeeds(ops[n].statement, a, ops[n].now, ops[n].skew) ==> Handover(a, ops[n], b))
            && (ops[n].RecoverOp? && Recovers(a, ops[n].epoch, ops[n].genesis) ==> Handover(a, ops[n], b))
  {
    var a := Run(j, ops[..n]);
    assert ops[..n + 1][..n] == ops[..n];
    RunKeepsOk(j, ops[..n]);
    assert a.used[|a.used| - 1] in a.used;
    if ops[n].AcceptOp? { AppendedExactly(ops[n].statement, a, ops[n].now, ops[n].skew); }
  }
}

/** Aggregation of one status result for every certificate of a chain
    (status_evaluation_v2.go).  The reported evidence list is sorted and without
    duplicates, so it is modelled as a set. */
module StatusAggregation {
  import opened StatusTypes

  const LIST: int := 3
  const PUSH: int := 5

  datatype Row = Row(issuer: IssuerId, key: KeyId, objectType: int, sequence: int, digest: string, digestOk: bool)

  datatype Kind = NotRevoked | Revoked | Unavailable | Stale | Malformed

  /** A reducer result.  `freshUntil` belongs to a not-revoked one. */
  datatype StatusResult = StatusResult(kind: Kind, freshUntil: int, evidence: seq<Row>)

  datatype Check = Check(index: int, issuer: IssuerId, subject: KeyId, cert: CertId)

  datatype Roles = Roles(keyIssuers: map<KeyId, IssuerId>, current: map<IssuerId, KeyId>, reserved: set<KeyId>)

  datatype Verdict = Current | HasRevoked | IsUnavailable | IsStale

  datatype Assessment = Assessment(verdict: Verdict, evidence: set<Row>, freshUntil: int)

  /* ---- One result ---- */

  /** The key IDs that the chain itself uses. */
  function Taken(checks: seq<Check>): set<KeyId> {
    (set c | c in checks :: c.issuer) + (set c | c in checks :: c.subject)
  }

  predicate RowOk(taken: set<KeyId>, roles: Roles, issuer: IssuerId, kind: Kind, row: Row) {
    && row.issuer == issuer && row.key != ""
    && 0 < row.sequence <= MAX_SAFE_INTEGER && row.digestOk
    && row.objectType in {LIST, PUSH}
    && row.key !in taken && row.key !in roles.reserved
    && row.key in roles.keyIssuers && roles.keyIssuers[row.key] == row.issuer
    && (kind == Revoked || (row.issuer in roles.current && roles.current[row.issuer] == row.key))
  }

  function Pushes(rows: seq<Row>): (r: seq<Row>)
    ensures forall x :: x in r <==> x in rows && x.objectType == PUSH
  {
    if rows == [] then []
    else
      assert rows == rows[..|rows| - 1] + [rows[|rows| - 1]];
      Pushes(rows[..|rows| - 1]) + if rows[|rows| - 1].objectType == PUSH then [rows[|rows| - 1]] else []
  }

  function Lists(rows: seq<Row>): (r: seq<Row>)
    ensures forall x :: x in r <==> x in rows && x.objectType == LIST
  {
    if rows == [] then []
    else
      assert rows == rows[..|rows| - 1] + [rows[|rows| - 1]];
      Lists(rows[..|rows| - 1]) + if rows[|rows| - 1].objectType == LIST then [rows[|rows| - 1]] else []
  }

  function InsertBySequence(rows: seq<Row>, x: Row): (r: seq<Row>)
    ensures |r| == |rows| + 1
    ensures forall y :: y in r <==> y in rows || y == x
  {
    if rows == [] || rows[|rows| - 1].sequence <= x.sequence then rows + [x]
    else
      assert rows == rows[..|rows| - 1] + [rows[|rows| - 1]];
      InsertBySequence(rows[..|rows| - 1], x) + [rows[|rows| - 1]]
  }

  function SortBySequence(rows: seq<Row>): (r: seq<Row>)
    ensures |r| == |rows|
    ensures forall y :: y in r <==> y in rows
  {
    if rows == [] then []
    else
      assert rows == rows[..|rows| - 1] + [rows[|rows| - 1]];
      InsertBySequence(SortBySequence(rows[..|rows| - 1]), rows[|rows| - 1])
  }

  /** validCurrentStatusEvidenceV2: one base and contiguous pushes after it. */
  predicate ValidCurrent(rows: seq<Row>, issuer: IssuerId) {
    && rows != []
    && (forall r :: r in rows ==> RowOf(r, issuer))
    && |Lists(rows)| == 1
    && (var base := Lists(rows)[0]; var pushes := SortBySequence(Pushes(rows));
        forall i :: 0 <= i < |pushes| ==> pushes[i].key == base.key && pushes[i].sequence == base.sequence + i + 1)
  }

  predicate RowOf(r: Row, issuer: IssuerId) { r.issuer == issuer && r.objectType in {LIST, PUSH} }

  method RowsOf(rows: seq<Row>, issuer: IssuerId) returns (ok: bool)
    ensures ok == forall r :: r in rows ==> RowOf(r, issuer)
  {
    for i := 0 to |rows|
      invariant forall k :: 0 <= k < i ==> RowOf(rows[k], issuer)
    {
      if !RowOf(rows[i], issuer) { return false; }
    }
    return true;
  }

  method SplitRows(rows: seq<Row>) returns (bases: seq<Row>, pushes: seq<Row>)
    ensures bases == Lists(rows) && pushes == Pushes(rows)
  {
    bases, pushes := [], [];
    for i := 0 to |rows|
      invariant bases == Lists(rows[..i]) && pushes == Pushes(rows[..i])
    {
      assert rows[..i + 1][..i] == rows[..i];
      if rows[i].objectType == LIST { bases := bases + [rows[i]]; }
      if rows[i].objectType == PUSH { pushes := pushes + [rows[i]]; }
    }
    assert rows[..|rows|] == rows;
  }

  method CheckCurrentEvidence(rows: seq<Row>, issuer: IssuerId) returns (ok: bool)
    ensures ok == ValidCurrent(rows, issuer)
  {
    if rows == [] { return false; }
    var all := RowsOf(rows, issuer);
    if !all { return false; }
    var bases, pushes := SplitRows(rows);
    if |bases| != 1 { return false; }
    pushes := SortBySequence(pushes);
    ok := Contiguous(bases[0], pushes);
  }

  method Contiguous(base: Row, pushes: seq<Row>) returns (ok: bool)
    ensures ok == forall i :: 0 <= i < |pushes| ==>
              pushes[i].key == base.key && pushes[i].sequence == base.sequence + i + 1
  {
    for i := 0 to |pushes|
      invariant forall k :: 0 <= k < i ==> pushes[k].key == base.key && pushes[k].sequence == base.sequence + k + 1
    {
      if pushes[i].key != base.key || pushes[i].sequence != base.sequence + i + 1 { return false; }
    }
    return true;
  }

  predicate RowsOk(taken: set<KeyId>, roles: Roles, issuer: IssuerId, result: StatusResult) {
    forall r :: r in result.evidence ==> RowOk(taken, roles, issuer, result.kind, r)
  }

  /** Valid on its own, before it is compared with the others. */
  predicate ResultOk(taken: set<KeyId>, roles: Roles, issuer: IssuerId, result: StatusResult) {
    && (result.kind == Unavailable || RowsOk(taken, roles, issuer, result))
    && match result.kind
       case NotRevoked => 0 < result.freshUntil <= MAX_SAFE_INTEGER && ValidCurrent(result.evidence, issuer)
       case Revoked => result.evidence != []
       case Unavailable => true
       case Stale => ValidCurrent(result.evidence, issuer)
       case Malformed => false
  }

  /* ---- The aggregate ---- */

  predicate ChecksOk(checks: seq<Check>) {
    && (forall i :: 0 <= i < |checks| ==>
          checks[i].index == i && checks[i].issuer != "" && checks[i].subject != "" && checks[i].cert != "")
    && (forall i, j :: 0 <= i < j < |checks| ==>
        !(checks[i].issuer == checks[j].issuer && checks[i].cert == checks[j].cert))
  }

  /** validateV2StatusRoleBindings */
  predicate RolesOk(roles: Roles, checks: seq<Check>, allowUnbound: bool) {
    && (forall k :: k in roles.keyIssuers ==> k != "" && roles.keyIssuers[k] != "" && k !in roles.reserved)
    && (forall c :: c in checks ==>
          || (c.issuer !in roles.current && allowUnbound)
          || (c.issuer in roles.current && roles.current[c.issuer] in roles.keyIssuers
              && roles.keyIssuers[roles.current[c.issuer]] == c.issuer))
    && "" !in roles.reserved
  }

  /** The authenticated rows of all results. */
  function Rows(checks: seq<Check>, results: seq<StatusResult>, roles: Roles): set<Row>
    requires |checks| == |results|
  {
    set i, r | && 0 <= i < |checks| && r in results[i].evidence
               && RowOk(Taken(checks), roles, checks[i].issuer, results[i].kind, r) :: r
  }

  /** Digests that two different rows claim. */
  predicate Conflicted(rows: set<Row>, digest: string) {
    exists a, b :: a in rows && b in rows && a != b && a.digest == digest && b.digest == digest
  }

  function Unconflicted(rows: set<Row>): set<Row> {
    set r | r in rows && !Conflicted(rows, r.digest)
  }

  predicate Comparable(r: StatusResult) { r.kind == NotRevoked || r.kind == Stale }

  /** Two results of one issuer rest on different histories. */
  predicate Disagree(checks: seq<Check>, results: seq<StatusResult>, i: int, j: int)
    requires 0 <= i < |checks| == |results| && 0 <= j < |checks|
  {
    && checks[i].issuer == checks[j].issuer && Comparable(results[i]) && Comparable(results[j])
    && multiset(results[i].evidence) != multiset(results[j].evidence)
  }

  predicate AnyMalformed(checks: seq<Check>, results: seq<StatusResult>, roles: Roles)
    requires |checks| == |results|
  {
    exists i :: 0 <= i < |checks| && !ResultOk(Taken(checks), roles, checks[i].issuer, results[i])
  }

  predicate AnyDisagreement(checks: seq<Check>, results: seq<StatusResult>)
    requires |checks| == |results|
  {
    exists i, j :: 0 <= i < |checks| && 0 <= j < |checks| && Disagree(checks, results, i, j)
  }

  predicate AnyConflict(rows: set<Row>) { exists r :: r in rows && Conflicted(rows, r.digest) }

  predicate AnyInvalid(checks: seq<Check>, results: seq<StatusResult>, roles: Roles)
    requires |checks| == |results|
  {
    AnyMalformed(checks, results, roles) || AnyDisagreement(checks, results)
      || AnyConflict(Rows(checks, results, roles))
  }

  predicate ProvesRevoked(checks: seq<Check>, results: seq<StatusResult>, roles: Roles, i: int)
    requires 0 <= i < |checks| == |results|
  {
    && results[i].kind == Revoked && ResultOk(Taken(checks), roles, checks[i].issuer, results[i])
    && forall r :: r in results[i].evidence ==> !Conflicted(Rows(checks, results, roles), r.digest)
  }

  predicate AnyRevoked(checks: seq<Check>, results: seq<StatusResult>, roles: Roles)
    requires |checks| == |results|
  {
    exists i :: 0 <= i < |checks| && ProvesRevoked(checks, results, roles, i)
  }

  predicate AnyOf(results: seq<StatusResult>, kind: Kind) { exists r :: r in results && r.kind == kind }

  /** Revoked over unavailable over stale over current. */
  function VerdictOf(checks: seq<Check>, results: seq<StatusResult>, roles: Roles): Verdict
    requires |checks| == |results|
  {
    if AnyRevoked(checks, results, roles) then HasRevoked
    else if AnyInvalid(checks, results, roles) || AnyOf(results, Unavailable) then IsUnavailable
    else if AnyOf(results, Stale) then IsStale
    else Current
  }

  /** The least freshness bound of the results. */
  ghost predicate IsLeast(results: seq<StatusResult>, f: int) {
    (exists r :: r in results && r.freshUntil == f) && forall r :: r in results ==> f <= r.freshUntil
  }

  /** What the aggregate of the results is. */
  ghost predicate IsAggregate(checks: seq<Check>, results: seq<StatusResult>, roles: Roles, a: Assessment)
    requires |checks| == |results|
  {
    && a.verdict == VerdictOf(checks, results, roles)
    && a.evidence == Unconflicted(Rows(checks, results, roles))
    && (if a.verdict == Current then IsLeast(results, a.freshUntil) else a.freshUntil == 0)
  }

  /* ---- Order independence ---- */

  /** `p` and its inverse `q` permute the chain consistently, with the indices
      renumbered. */
  ghost predicate Permutes(p: seq<int>, q: seq<int>, checks: seq<Check>, results: seq<StatusResult>,
                           checks': seq<Check>, results': seq<StatusResult>) {
    && |p| == |q| == |checks| == |results| == |checks'| == |results'|
    && (forall i :: 0 <= i < |p| ==> 0 <= p[i] < |p| && q[p[i]] == i)
    && (forall j :: 0 <= j < |q| ==> 0 <= q[j] < |q| && p[q[j]] == j)
    && (forall i :: 0 <= i < |p| ==> checks'[i] == checks[p[i]].(index := i) && results'[i] == results[p[i]])
  }

  lemma Inverts(p: seq<int>, q: seq<int>, checks: seq<Check>, results: seq<StatusResult>, checks': seq<Check>,
                results': seq<StatusResult>)
    requires Permutes(p, q, checks, results, checks', results') && ChecksOk(checks)
    ensures Permutes(q, p, checks', results', checks, results)
  {
    forall j | 0 <= j < |q| ensures checks[j] == checks'[q[j]].(index := j) && results[j] == results'[q[j]] {
      assert p[q[j]] == j;
    }
  }

  /** What one chain has, the other has: one direction of every clause. */
  lemma TakenCarries(p: seq<int>, q: seq<int>, checks: seq<Check>, results: seq<StatusResult>, checks': seq<Check>,
                     results': seq<StatusResult>)
    requires Permutes(p, q, checks, results, checks', results')
    ensures Taken(checks') <= Taken(checks)
  {
    forall c | c in checks' ensures c.issuer in Taken(checks) && c.subject in Taken(checks) {
      var i :| 0 <= i < |checks'| && checks'[i] == c;
      assert checks[p[i]] in checks;
    }
  }

  lemma RowsCarry(p: seq<int>, q: seq<int>, checks: seq<Check>, results: seq<StatusResult>, checks': seq<Check>,
                  results': seq<StatusResult>, roles: Roles)
    requires Permutes(p, q, checks, results, checks', results') && Taken(checks') == Taken(checks)
    ensures Rows(checks', results', roles) <= Rows(checks, results, roles)
  {
    forall r | r in Rows(checks', results', roles) ensures r in Rows(checks, results, roles) {
      var i :| 0 <= i < |checks'| && r in results'[i].evidence
               && RowOk(Taken(checks'), roles, checks'[i].issuer, results'[i].kind, r);
      var j := p[i];
      assert 0 <= j < |checks| && r in results[j].evidence;
      assert RowOk(Taken(checks), roles, checks[j].issuer, results[j].kind, r);
    }
  }

  lemma RevokedCarries(p: seq<int>, q: seq<int>, checks: seq<Check>, results: seq<StatusResult>, checks': seq<Check>,
                       results': seq<StatusResult>, roles: Roles)
    requires Permutes(p, q, checks, results, checks', results') && Taken(checks') == Taken(checks)
    requires Rows(checks', results', roles) == Rows(checks, results, roles)
    ensures AnyRevoked(checks', results', roles) ==> AnyRevoked(checks, results, roles)
  {
    if AnyRevoked(checks', results', roles) {
      var i :| 0 <= i < |checks'| && ProvesRevoked(checks', results', roles, i);
      assert ProvesRevoked(checks, results, roles, p[i]);
    }
  }

  lemma InvalidCarries(p: seq<int>, q: seq<int>, checks: seq<Check>, results: seq<StatusResult>, checks': seq<Check>,
                       results': seq<StatusResult>, roles: Roles)
    requires Permutes(p, q, checks, results, checks', results') && Taken(checks') == Taken(checks)
    requires Rows(checks', results', roles) == Rows(checks, results, roles)
    ensures AnyInvalid(checks', results', roles) ==> AnyInvalid(checks, results, roles)
  {
    if i :| 0 <= i < |checks'| && !ResultOk(Taken(checks'), roles, checks'[i].issuer, results'[i]) {
      var j := p[i];
      assert 0 <= j < |checks| && !ResultOk(Taken(checks), roles, checks[j].issuer, results[j]);
    } else if i, k :| 0 <= i < |checks'| && 0 <= k < |checks'| && Disagree(checks', results', i, k) {
      assert Disagree(checks, results, p[i], p[k]);
    }
  }

  lemma ResultsCarry(p: seq<int>, q: seq<int>, checks: seq<Check>, results: seq<StatusResult>, checks': seq<Check>,
                     results': seq<StatusResult>)
    requires Permutes(p, q, checks, results, checks', results')
    ensures forall r :: r in results' ==> r in results
  {
    forall r | r in results' ensures r in results {
      var i :| 0 <= i < |results'| && results'[i] == r;
      assert results[p[i]] in results;
    }
  }

  /** The assessment, its evidence and its freshness bound do not depend on
      the order of the chain. */
  lemma OrderIndependent(p: seq<int>, q: seq<int>, checks: seq<Check>, results: seq<StatusResult>, checks': seq<Check>,
                         results': seq<StatusResult>,
                         roles: Roles, a: Assessment, b: Assessment)
    requires Permutes(p, q, checks, results, checks', results') && ChecksOk(checks)
    requires IsAggregate(checks, results, roles, a) && IsAggregate(checks', results', roles, b)
    ensures a == b
  {
    Inverts(p, q, checks, results, checks', results');
    TakenCarries(p, q, checks, results, checks', results');
    TakenCarries(q, p, checks', results', checks, results);
    RowsCarry(p, q, checks, results, checks', results', roles);
    RowsCarry(q, p, checks', results', checks, results, roles);
    RevokedCarries(p, q, checks, results, checks', results', roles);
    RevokedCarries(q, p, checks', results', checks, results, roles);
    InvalidCarries(p, q, checks, results, checks', results', roles);
    InvalidCarries(q, p, checks', results', checks, results, roles);
    ResultsCarry(p, q, checks, results, checks', results');
    ResultsCarry(q, p, checks', results', checks, results);
    assert AnyOf(results, Unavailable) == AnyOf(results', Unavailable);
    assert AnyOf(results, Stale) == AnyOf(results', Stale);
    SameAggregate(results, results', a, b);
  }

  lemma SameAggregate(results: seq<StatusResult>, results': seq<StatusResult>, a: Assessment, b: Assessment)
    requires forall r :: r in results <==> r in results'
    requires a.verdict == b.verdict && a.evidence == b.evidence
    requires if a.verdict == Current then IsLeast(results, a.freshUntil) && IsLeast(results', b.freshUntil)
             else a.freshUntil == b.freshUntil
    ensures a == b
  {
  }

  /* ---- Histories ---- */

  /** One base list and contiguous pushes after it, all under one key: what
      hasAcceptedStatusHistoryPerIssuerV2 demands of an issuer's rows. */
  ghost predicate HasHistory(rows: set<Row>, issuer: IssuerId) {
    exists base: Row, n: nat :: IsHistory(rows, issuer, base, n)
  }

  ghost predicate IsHistory(rows: set<Row>, issuer: IssuerId, base: Row, n: nat) {
    && base in rows && base.issuer == issuer && base.objectType == LIST
    && (forall r :: r in rows && r.issuer == issuer ==> r.key == base.key)
    && (forall r :: r in rows && r.issuer == issuer && r.objectType == LIST ==> r == base)
    && (forall r :: r in rows && r.issuer == issuer && r.objectType != LIST ==>
        base.sequence < r.sequence <= base.sequence + n)
    && (forall k :: base.sequence < k <= base.sequence + n ==> HasPush(rows, issuer, k))
    && (forall r, x :: r in rows && x in rows && IsPush(r, issuer, r.sequence) && IsPush(x, issuer, r.sequence) ==>
        r == x)
  }

  ghost predicate HasPush(rows: set<Row>, issuer: IssuerId, k: int) {
    exists r :: r in rows && IsPush(r, issuer, k)
  }

  predicate IsPush(r: Row, issuer: IssuerId, sequence: int) {
    r.issuer == issuer && r.objectType != LIST && r.sequence == sequence
  }

  /** A valid evidence list is a history. */
  lemma ValidIsHistory(rows: seq<Row>, issuer: IssuerId)
    requires ValidCurrent(rows, issuer)
    ensures HasHistory((set r | r in rows), issuer)
  {
    SplitIsHistory(rows, issuer, Lists(rows), Pushes(rows), SortBySequence(Pushes(rows)));
  }

  lemma SplitIsHistory(rows: seq<Row>, issuer: IssuerId, lists: seq<Row>, pushes: seq<Row>, sorted: seq<Row>)
    requires forall r :: r in rows ==> RowOf(r, issuer)
    requires forall r :: r in lists <==> r in rows && r.objectType == LIST
    requires forall r :: r in pushes <==> r in rows && r.objectType == PUSH
    requires forall r :: r in sorted <==> r in pushes
    requires |lists| == 1
    requires forall i :: 0 <= i < |sorted| ==>
               sorted[i].key == lists[0].key && sorted[i].sequence == lists[0].sequence + i + 1
    ensures HasHistory((set r | r in rows), issuer)
  {
    assert lists[0] in lists;
    SortedIsHistory((set r | r in rows), issuer, lists[0], sorted);
  }

  lemma SortedIsHistory(all: set<Row>, issuer: IssuerId, base: Row, pushes: seq<Row>)
    requires base in all && base.objectType == LIST
    requires forall r :: r in all ==> r.issuer == issuer && (if r.objectType == LIST then r == base else r in pushes)
    requires forall r :: r in pushes ==> r in all && r.objectType != LIST
    requires forall i :: 0 <= i < |pushes| ==> pushes[i].key == base.key && pushes[i].sequence == base.sequence + i + 1
    ensures HasHistory(all, issuer)
  {
    var n: nat := |pushes|;
    forall k | base.sequence < k <= base.sequence + n ensures HasPush(all, issuer, k) {
      var r := pushes[k - base.sequence - 1];
      assert r in pushes && IsPush(r, issuer, k);
    }
    assert IsHistory(all, issuer, base, n);
  }

  /** In an aggregate without invalid results, the rows of an issuer are the
      evidence of any one of its results. */
  lemma IssuerRows(checks: seq<Check>, results: seq<StatusResult>, roles: Roles, i: int)
    requires |checks| == |results| && 0 <= i < |checks|
    requires !AnyInvalid(checks, results, roles)
    requires forall r :: r in results ==> Comparable(r)
    ensures forall r :: r in Unconflicted(Rows(checks, results, roles)) && r.issuer == checks[i].issuer <==>
            r in results[i].evidence
  {
    forall r
      ensures r in Unconflicted(Rows(checks, results, roles)) && r.issuer == checks[i].issuer <==>
              r in results[i].evidence
    {
      if r in Rows(checks, results, roles) && r.issuer == checks[i].issuer {
        var j :| && 0 <= j < |checks| && r in results[j].evidence
                 && RowOk(Taken(checks), roles, checks[j].issuer, results[j].kind, r);
        assert results[i] in results && results[j] in results;
        assert !Disagree(checks, results, i, j);
        assert r in multiset(results[j].evidence);
        assert r in multiset(results[i].evidence);
      }
      if r in results[i].evidence {
        assert results[i] in results;
        assert ResultOk(Taken(checks), roles, checks[i].issuer, results[i]);
        assert RowOk(Taken(checks), roles, checks[i].issuer, results[i].kind, r);
        assert r in Rows(checks, results, roles);
      }
    }
  }

  /** Every current or stale aggregate carries, for every issuer of the chain,
      one base list and contiguous pushes. */
  lemma CurrentHasHistories(checks: seq<Check>, results: seq<StatusResult>, roles: Roles, a: Assessment, i: int)
    requires |checks| == |results| && 0 <= i < |checks|
    requires IsAggregate(checks, results, roles, a) && a.verdict in {Current, IsStale}
    ensures HasHistory(a.evidence, checks[i].issuer)
  {
    assert !AnyInvalid(checks, results, roles) && !AnyOf(results, Unavailable) && !AnyRevoked(checks, results, roles);
    forall r | r in results ensures Comparable(r) {
      var j :| 0 <= j < |results| && results[j] == r;
      assert ResultOk(Taken(checks), roles, checks[j].issuer, results[j]);
      if r.kind == Revoked { RevokedIsProof(checks, results, roles, j); }
    }
    assert results[i] in results && ResultOk(Taken(checks), roles, checks[i].issuer, results[i]);
    ValidIsHistory(results[i].evidence, checks[i].issuer);
    var mine := set r | r in results[i].evidence;
    var base: Row, n: nat :| IsHistory(mine, checks[i].issuer, base, n);
    IssuerRows(checks, results, roles, i);
    SameIssuerSameHistory(mine, a.evidence, checks[i].issuer, base, n);
  }

  lemma SameIssuerSameHistory(a: set<Row>, b: set<Row>, issuer: IssuerId, base: Row, n: nat)
    requires IsHistory(a, issuer, base, n)
    requires forall r :: r in b && r.issuer == issuer <==> r in a
    ensures HasHistory(b, issuer)
  {
    forall k | base.sequence < k <= base.sequence + n ensures HasPush(b, issuer, k) {
      assert HasPush(a, issuer, k);
      var r :| r in a && IsPush(r, issuer, k);
      assert r in b;
    }
    assert IsHistory(b, issuer, base, n);
  }

  /** Without conflicts a valid revoked result proves the revocation. */
  lemma RevokedIsProof(checks: seq<Check>, results: seq<StatusResult>, roles: Roles, j: int)
    requires |checks| == |results| && 0 <= j < |checks|
    requires !AnyInvalid(checks, results, roles) && results[j].kind == Revoked
    requires ResultOk(Taken(checks), roles, checks[j].issuer, results[j])
    ensures AnyRevoked(checks, results, roles)
  {
    forall r | r in results[j].evidence ensures !Conflicted(Rows(checks, results, roles), r.digest) {
      assert RowOk(Taken(checks), roles, checks[j].issuer, results[j].kind, r);
      assert r in Rows(checks, results, roles);
    }
    assert ProvesRevoked(checks, results, roles, j);
  }

  /** A current aggregate means that every certificate is not revoked, with a
      bound that none of the results outlives. */
  lemma CurrentMeans(checks: seq<Check>, results: seq<StatusResult>, roles: Roles, a: Assessment)
    requires |checks| == |results| && IsAggregate(checks, results, roles, a) && a.verdict == Current
    ensures forall r :: r in results ==> r.kind == NotRevoked && a.freshUntil <= r.freshUntil
    ensures 0 < a.freshUntil <= MAX_SAFE_INTEGER
  {
    forall r | r in results ensures r.kind == NotRevoked && 0 < r.freshUntil <= MAX_SAFE_INTEGER {
      var j :| 0 <= j < |results| && results[j] == r;
      assert ResultOk(Taken(checks), roles, checks[j].issuer, results[j]);
      if r.kind == Revoked { RevokedIsProof(checks, results, roles, j); }
      assert !AnyOf(results, Unavailable) && !AnyOf(results, Stale);
    }
  }

  /* ---- The loops ---- */

  /** The authenticated rows of the first `n` results. */
  ghost function RowsTo(checks: seq<Check>, results: seq<StatusResult>, roles: Roles, n: nat): set<Row>
    requires n <= |checks| == |results|
  {
    set i, r | && 0 <= i < n && r in results[i].evidence
               && RowOk(Taken(checks), roles, checks[i].issuer, results[i].kind, r) :: r
  }

  lemma RowsOneMore(checks: seq<Check>, results: seq<StatusResult>, roles: Roles, n: nat)
    requires n < |checks| == |results|
    ensures RowsTo(checks, results, roles, n + 1)
            == RowsTo(checks, results, roles, n)
               + set r | r in results[n].evidence && RowOk(Taken(checks), roles, checks[n].issuer, results[n].kind, r)
  {
  }

  /** One row at a time, with the last row seen for every digest. */
  datatype Collected = Collected(rows: set<Row>, bindings: map<string, Row>, conflicts: set<string>)

  ghost predicate CollectedOk(c: Collected) {
    && (forall d :: d in c.bindings ==> c.bindings[d] in c.rows && c.bindings[d].digest == d)
    && (forall r :: r in c.rows ==> r.digest in c.bindings)
    && (forall d :: d in c.conflicts <==> Conflicted(c.rows, d))
  }

  function Collect(c: Collected, r: Row): Collected {
    Collected(c.rows + {r}, c.bindings[r.digest := r],
              if r.digest in c.bindings && c.bindings[r.digest] != r then c.conflicts + {r.digest} else c.conflicts)
  }

  lemma CollectOk(c: Collected, r: Row)
    requires CollectedOk(c)
    ensures CollectedOk(Collect(c, r))
  {
    var t := Collect(c, r);
    forall d ensures d in t.conflicts <==> Conflicted(t.rows, d) {
      if Conflicted(t.rows, d) && !Conflicted(c.rows, d) {
        var a, b :| a in t.rows && b in t.rows && a != b && a.digest == d && b.digest == d;
        assert r.digest == d && c.bindings[d] != r;
      }
      if d in t.conflicts && d !in c.conflicts {
        assert c.bindings[d] in t.rows && r in t.rows;
      }
      if Conflicted(c.rows, d) {
        var a, b :| a in c.rows && b in c.rows && a != b && a.digest == d && b.digest == d;
        assert a in t.rows && b in t.rows;
      }
    }
  }

  /** The authenticated rows among the first `n` of a result. */
  ghost function ValidRows(taken: set<KeyId>, roles: Roles, issuer: IssuerId, result: StatusResult, n: nat): set<Row>
    requires n <= |result.evidence|
  {
    set i | 0 <= i < n && RowOk(taken, roles, issuer, result.kind, result.evidence[i]) :: result.evidence[i]
  }

  method CollectResult(taken: set<KeyId>, roles: Roles, issuer: IssuerId, result: StatusResult, start: Collected)
    returns (c: Collected)
    requires CollectedOk(start)
    ensures CollectedOk(c)
    ensures c.rows == start.rows + set r | r in result.evidence && RowOk(taken, roles, issuer, result.kind, r)
  {
    c := start;
    for k := 0 to |result.evidence|
      invariant CollectedOk(c) && c.rows == start.rows + ValidRows(taken, roles, issuer, result, k)
    {
      if RowOk(taken, roles, issuer, result.kind, result.evidence[k]) {
        CollectOk(c, result.evidence[k]);
        c := Collect(c, result.evidence[k]);
      }
    }
    assert ValidRows(taken, roles, issuer, result, |result.evidence|)
           == set r | r in result.evidence && RowOk(taken, roles, issuer, result.kind, r);
  }

  method CollectRows(checks: seq<Check>, results: seq<StatusResult>, roles: Roles) returns (c: Collected)
    requires |checks| == |results|
    ensures CollectedOk(c) && c.rows == Rows(checks, results, roles)
  {
    c := Collected({}, map[], {});
    for i := 0 to |checks|
      invariant CollectedOk(c) && c.rows == RowsTo(checks, results, roles, i)
    {
      RowsOneMore(checks, results, roles, i);
      c := CollectResult(Taken(checks), roles, checks[i].issuer, results[i], c);
    }
  }

  /** The histories seen so far agree with every comparable result. */
  ghost predicate HistoriesOk(checks: seq<Check>, results: seq<StatusResult>, histories: map<IssuerId, multiset<Row>>,
                              n: int)
    requires 0 <= n <= |checks| == |results|
  {
    && (forall k :: 0 <= k < n && Comparable(results[k]) ==>
          checks[k].issuer in histories && histories[checks[k].issuer] == multiset(results[k].evidence))
    && (forall i :: i in histories ==>
          exists k :: && 0 <= k < n && Comparable(results[k]) && checks[k].issuer == i
                      && multiset(results[k].evidence) == histories[i])
  }

  lemma HistoriesGrow(checks: seq<Check>, results: seq<StatusResult>, histories: map<IssuerId, multiset<Row>>, n: int)
    requires 0 <= n < |checks| == |results| && HistoriesOk(checks, results, histories, n)
    requires Comparable(results[n]) && checks[n].issuer in histories ==>
               histories[checks[n].issuer] == multiset(results[n].evidence)
    ensures HistoriesOk(checks, results,
                        if Comparable(results[n])
                        then histories[checks[n].issuer := multiset(results[n].evidence)] else histories,
                        n + 1)
  {
  }

  lemma HistoriesAgree(checks: seq<Check>, results: seq<StatusResult>, histories: map<IssuerId, multiset<Row>>)
    requires |checks| == |results| && HistoriesOk(checks, results, histories, |checks|)
    ensures !AnyDisagreement(checks, results)
  {
  }

  /** An earlier result of the issuer with another history. */
  lemma EarlierDisagrees(checks: seq<Check>, results: seq<StatusResult>, histories: map<IssuerId, multiset<Row>>,
                         n: int)
    requires 0 <= n < |checks| == |results| && HistoriesOk(checks, results, histories, n)
    requires Comparable(results[n]) && checks[n].issuer in histories
    requires histories[checks[n].issuer] != multiset(results[n].evidence)
    ensures AnyDisagreement(checks, results)
  {
    var k :| 0 <= k < n && Comparable(results[k]) && checks[k].issuer == checks[n].issuer
             && multiset(results[k].evidence) == histories[checks[n].issuer];
    assert Disagree(checks, results, k, n);
  }

  method FindMalformed(checks: seq<Check>, results: seq<StatusResult>, roles: Roles) returns (found: bool)
    requires |checks| == |results|
    ensures found == AnyMalformed(checks, results, roles)
  {
    for i := 0 to |checks|
      invariant forall k :: 0 <= k < i ==> ResultOk(Taken(checks), roles, checks[k].issuer, results[k])
    {
      if !ResultOk(Taken(checks), roles, checks[i].issuer, results[i]) { return true; }
    }
    return false;
  }

  /** addIssuerHistoryV2 over the chain. */
  method FindDisagreement(checks: seq<Check>, results: seq<StatusResult>) returns (found: bool)
    requires |checks| == |results|
    ensures found == AnyDisagreement(checks, results)
  {
    var histories: map<IssuerId, multiset<Row>> := map[];
    for i := 0 to |checks|
      invariant HistoriesOk(checks, results, histories, i)
    {
      if && Comparable(results[i]) && checks[i].issuer in histories
         && histories[checks[i].issuer] != multiset(results[i].evidence)
      {
        EarlierDisagrees(checks, results, histories, i);
        return true;
      }
      HistoriesGrow(checks, results, histories, i);
      if Comparable(results[i]) {
        histories := histories[checks[i].issuer := multiset(results[i].evidence)];
      }
    }
    HistoriesAgree(checks, results, histories);
    return false;
  }

  method AnyRevocation(checks: seq<Check>, results: seq<StatusResult>, roles: Roles, c: Collected)
    returns (revoked: bool)
    requires |checks| == |results| && CollectedOk(c) && c.rows == Rows(checks, results, roles)
    ensures revoked == AnyRevoked(checks, results, roles)
  {
    for i := 0 to |checks|
      invariant forall k :: 0 <= k < i ==> !ProvesRevoked(checks, results, roles, k)
    {
      if results[i].kind == Revoked && ResultOk(Taken(checks), roles, checks[i].issuer, results[i])
         && forall r :: r in results[i].evidence ==> r.digest !in c.conflicts
      {
        assert ProvesRevoked(checks, results, roles, i);
        return true;
      }
    }
    return false;
  }

  method LeastFresh(results: seq<StatusResult>) returns (f: int)
    requires results != []
    ensures IsLeast(results, f)
  {
    f := results[0].freshUntil;
    for i := 1 to |results|
      invariant exists k :: 0 <= k < i && results[k].freshUntil == f
      invariant forall k :: 0 <= k < i ==> f <= results[k].freshUntil
    {
      if results[i].freshUntil < f { f := results[i].freshUntil; }
    }
    var k :| 0 <= k < |results| && results[k].freshUntil == f;
    assert results[k] in results;
  }

  /** aggregateCertificateStatusV2.  The source asks once more for the history
      of every issuer before it answers current; CurrentHasHistories shows that
      the answer is always yes. */
  method Aggregate(checks: seq<Check>, results: seq<StatusResult>, roles: Roles, allowUnbound: bool)
    returns (r: Result<Assessment>)
    ensures r.Success? <==>
            checks != [] && |checks| == |results| && RolesOk(roles, checks, allowUnbound) && ChecksOk(checks)
    ensures r.Success? ==> IsAggregate(checks, results, roles, r.value)
  {
    if checks == [] || |checks| != |results| || !RolesOk(roles, checks, allowUnbound) || !ChecksOk(checks) {
      return Failure;
    }
    var c := CollectRows(checks, results, roles);
    var malformed := FindMalformed(checks, results, roles);
    var disagreement := FindDisagreement(checks, results);
    var revoked := AnyRevocation(checks, results, roles, c);
    var evidence := set x | x in c.rows && x.digest !in c.conflicts;
    assert evidence == Unconflicted(c.rows);
    ConflictsFound(c);
    if revoked { return Success(Assessment(HasRevoked, evidence, 0)); }
    if malformed || disagreement || c.conflicts != {} || AnyOf(results, Unavailable) {
      return Success(Assessment(IsUnavailable, evidence, 0));
    }
    if AnyOf(results, Stale) { return Success(Assessment(IsStale, evidence, 0)); }
    var least := LeastFresh(results);
    return Success(Assessment(Current, evidence, least));
  }

  lemma ConflictsFound(c: Collected)
    requires CollectedOk(c)
    ensures c.conflicts != {} <==> AnyConflict(c.rows)
  {
    if d :| d in c.conflicts {
      var a, b :| a in c.rows && b in c.rows && a != b && a.digest == d && b.digest == d;
    }
  }
}

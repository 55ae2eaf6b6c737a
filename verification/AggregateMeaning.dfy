/** What the aggregation of status results answers (status_evaluation_v2.go),
    said of the checks, the results and the key roles alone. */
module AggregateMeaning {
  import opened StatusTypes
  import opened StatusAggregation

  /* ---- One history ---- */

  predicate Follows(r: Row, base: Row, n: int) {
    && r.issuer == base.issuer && r.key == base.key && r.objectType == PUSH
    && base.sequence < r.sequence <= base.sequence + n
  }

  /** The row at `b` is the list, and the others are one push for each of the
      sequences that come next, in any order. */
  predicate BaseAt(rows: seq<Row>, b: int)
    requires 0 <= b < |rows|
  {
    && rows[b].objectType == LIST
    && (forall i :: 0 <= i < |rows| && i != b ==> Follows(rows[i], rows[b], |rows| - 1))
    && (forall i, j :: 0 <= i < j < |rows| && i != b && j != b ==> rows[i].sequence != rows[j].sequence)
  }

  ghost predicate OneHistory(rows: seq<Row>, issuer: IssuerId) {
    exists b :: 0 <= b < |rows| && rows[b].issuer == issuer && BaseAt(rows, b)
  }

  /** All pushes under one key, one for each sequence after `base`. */
  predicate OneEach(ps: seq<Row>, base: Row) {
    && (forall i :: 0 <= i < |ps| ==> ps[i].key == base.key && base.sequence < ps[i].sequence <= base.sequence + |ps|)
    && (forall i, j :: 0 <= i < j < |ps| ==> ps[i].sequence != ps[j].sequence)
  }

  predicate InTurn(ps: seq<Row>, base: Row) {
    forall i :: 0 <= i < |ps| ==> ps[i].key == base.key && ps[i].sequence == base.sequence + i + 1
  }

  predicate NoneLater(rows: seq<Row>, top: int) { forall r :: r in rows ==> r.sequence <= top }

  predicate Ordered(rows: seq<Row>) { forall i, j :: 0 <= i < j < |rows| ==> rows[i].sequence <= rows[j].sequence }

  lemma {:induction false} InsertSorts(rows: seq<Row>, x: Row)
    requires Ordered(rows)
    ensures Ordered(InsertBySequence(rows, x))
    ensures multiset(InsertBySequence(rows, x)) == multiset(rows) + multiset{x}
  {
    if rows != [] {
      var front, last := rows[..|rows| - 1], rows[|rows| - 1];
      assert rows == front + [last];
      if last.sequence > x.sequence {
        InsertSorts(front, x);
        assert NoneLater(InsertBySequence(front, x), last.sequence);
      }
    }
  }

  lemma {:induction false} SortSorts(rows: seq<Row>)
    ensures Ordered(SortBySequence(rows)) && multiset(SortBySequence(rows)) == multiset(rows)
  {
    if rows != [] {
      var front := rows[..|rows| - 1];
      assert rows == front + [rows[|rows| - 1]];
      SortSorts(front);
      InsertSorts(SortBySequence(front), rows[|rows| - 1]);
    }
  }

  lemma Twice(ys: seq<Row>, x: Row)
    requires multiset(ys)[x] >= 2
    ensures exists k, l :: 0 <= k < l < |ys| && ys[k] == x && ys[l] == x
  {
    assert x in multiset(ys) && x in ys;
    var k :| 0 <= k < |ys| && ys[k] == x;
    assert ys == ys[..k] + [x] + ys[k + 1..];
    if x in ys[..k] {
      var l :| 0 <= l < k && ys[l] == x;
    } else {
      assert multiset(ys[..k])[x] == 0;
      assert x in multiset(ys[k + 1..]) && x in ys[k + 1..];
    }
  }

  /** Two places of a list are two places of any rearrangement. */
  lemma TwoPlaces(xs: seq<Row>, ys: seq<Row>, i: int, j: int) returns (k: int, l: int)
    requires multiset(xs) == multiset(ys) && 0 <= i < j < |xs|
    ensures 0 <= k < |ys| && 0 <= l < |ys| && k != l && ys[k] == xs[i] && ys[l] == xs[j]
  {
    assert xs[i] in multiset(ys) && xs[j] in multiset(ys);
    assert xs[i] in ys && xs[j] in ys;
    if xs[i] == xs[j] {
      assert xs == xs[..i] + [xs[i]] + xs[i + 1..j] + [xs[j]] + xs[j + 1..];
      assert multiset(xs)[xs[i]] >= 2;
      Twice(ys, xs[i]);
      k, l :| 0 <= k < l < |ys| && ys[k] == xs[i] && ys[l] == xs[i];
    } else {
      k :| 0 <= k < |ys| && ys[k] == xs[i];
      l :| 0 <= l < |ys| && ys[l] == xs[j];
    }
  }

  lemma OneEachMoves(xs: seq<Row>, ys: seq<Row>, base: Row)
    requires multiset(xs) == multiset(ys) && OneEach(xs, base)
    ensures OneEach(ys, base)
  {
    assert |xs| == |multiset(xs)| == |ys|;
    forall i | 0 <= i < |ys|
      ensures ys[i].key == base.key && base.sequence < ys[i].sequence <= base.sequence + |ys|
    {
      assert ys[i] in multiset(xs) && ys[i] in xs;
    }
    forall i, j | 0 <= i < j < |ys| ensures ys[i].sequence != ys[j].sequence {
      var k, l := TwoPlaces(ys, xs, i, j);
    }
  }

  lemma {:induction false} AtLeast(ps: seq<Row>, base: Row, i: int)
    requires Ordered(ps) && OneEach(ps, base) && 0 <= i < |ps|
    ensures ps[i].sequence >= base.sequence + i + 1
  {
    if i > 0 { AtLeast(ps, base, i - 1); }
  }

  lemma {:induction false} AtMost(ps: seq<Row>, base: Row, i: int)
    requires Ordered(ps) && OneEach(ps, base) && 0 <= i < |ps|
    ensures ps[i].sequence <= base.sequence + i + 1
    decreases |ps| - i
  {
    if i < |ps| - 1 { AtMost(ps, base, i + 1); }
  }

  lemma {:induction false} SortedInTurn(ps: seq<Row>, base: Row)
    ensures InTurn(SortBySequence(ps), base) <==> OneEach(ps, base)
  {
    var sorted := SortBySequence(ps);
    SortSorts(ps);
    if InTurn(sorted, base) { OneEachMoves(sorted, ps, base); }
    if OneEach(ps, base) {
      OneEachMoves(ps, sorted, base);
      forall i | 0 <= i < |sorted| ensures sorted[i].sequence == base.sequence + i + 1 {
        AtLeast(sorted, base, i);
        AtMost(sorted, base, i);
      }
    }
  }

  predicate Typed(rows: seq<Row>) { forall r :: r in rows ==> r.objectType in {LIST, PUSH} }

  predicate NoList(rows: seq<Row>) { forall r :: r in rows ==> r.objectType == PUSH }

  lemma {:induction false} SplitAddsOne(rows: seq<Row>, r: Row)
    ensures Lists(rows + [r]) == Lists(rows) + if r.objectType == LIST then [r] else []
    ensures Pushes(rows + [r]) == Pushes(rows) + if r.objectType == PUSH then [r] else []
  {
    assert (rows + [r])[..|rows|] == rows;
  }

  lemma {:induction false} PushesAfter(rows: seq<Row>, ys: seq<Row>)
    requires NoList(ys)
    ensures Lists(rows + ys) == Lists(rows)
    ensures Pushes(rows + ys) == Pushes(rows) + ys
  {
    if ys == [] {
      assert rows + ys == rows;
    } else {
      var front, last := ys[..|ys| - 1], ys[|ys| - 1];
      assert rows + ys == rows + front + [last] && ys == front + [last];
      assert last in ys;
      PushesAfter(rows, front);
      SplitAddsOne(rows + front, last);
    }
  }

  lemma {:induction false} UpToBase(before: seq<Row>, base: Row)
    requires base.objectType == LIST && NoList(before)
    ensures Lists(before + [base]) == [base] && Pushes(before + [base]) == before
  {
    AllPushes(before);
    SplitAddsOne(before, base);
  }

  lemma {:induction false} SplitsAround(rows: seq<Row>, front: seq<Row>, base: Row, before: seq<Row>, later: seq<Row>)
    requires NoList(later) && rows == front + later
    requires Lists(front) == [base] && Pushes(front) == before
    ensures Lists(rows) == [base] && Pushes(rows) == before + later
  {
    PushesAfter(front, later);
  }

  lemma {:induction false} SplitsAsOnly(rows: seq<Row>, b: int)
    requires 0 <= b < |rows| && rows[b].objectType == LIST && NoList(rows[..b]) && NoList(rows[b + 1..])
    ensures Lists(rows) == [rows[b]] && Pushes(rows) == rows[..b] + rows[b + 1..]
  {
    UpToBase(rows[..b], rows[b]);
    WholeIs(rows, b);
    SplitsAround(rows, rows[..b] + [rows[b]], rows[b], rows[..b], rows[b + 1..]);
  }

  lemma WholeIs(rows: seq<Row>, b: int)
    requires 0 <= b < |rows|
    ensures rows == rows[..b] + [rows[b]] + rows[b + 1..]
  {
  }

  lemma {:induction false} AllPushes(rows: seq<Row>)
    requires NoList(rows)
    ensures Lists(rows) == [] && Pushes(rows) == rows
  {
    if rows != [] {
      assert rows == rows[..|rows| - 1] + [rows[|rows| - 1]];
      AllPushes(rows[..|rows| - 1]);
    }
  }

  /** The place of the only list. */
  lemma {:induction false} OnlyList(rows: seq<Row>) returns (b: int)
    requires Typed(rows) && |Lists(rows)| == 1
    ensures 0 <= b < |rows| && rows[b].objectType == LIST && NoList(rows[..b]) && NoList(rows[b + 1..])
  {
    var front, last := rows[..|rows| - 1], rows[|rows| - 1];
    assert rows == front + [last];
    if last.objectType == LIST {
      b := |rows| - 1;
      assert Lists(front) == [];
      forall r | r in front ensures r.objectType == PUSH { assert r !in Lists(front); }
      assert rows[..b] == front;
    } else {
      b := OnlyList(front);
      assert rows[..b] == front[..b] && rows[b + 1..] == front[b + 1..] + [last];
    }
  }

  lemma HistoryFound(rows: seq<Row>, issuer: IssuerId)
    requires ValidCurrent(rows, issuer)
    ensures OneHistory(rows, issuer)
  {
    var b := OnlyList(rows);
    SplitsAsOnly(rows, b);
    SortedInTurn(rows[..b] + rows[b + 1..], rows[b]);
    assert InTurn(SortBySequence(Pushes(rows)), rows[b]);
    BaseFound(rows, issuer, b);
  }

  lemma HistoryAccepted(rows: seq<Row>, b: int)
    requires 0 <= b < |rows| && BaseAt(rows, b)
    ensures ValidCurrent(rows, rows[b].issuer)
  {
    BaseGives(rows, b);
    SplitsAsOnly(rows, b);
    SortedInTurn(rows[..b] + rows[b + 1..], rows[b]);
    assert InTurn(SortBySequence(Pushes(rows)), rows[b]);
  }

  /** The evidence check accepts exactly one base list with one push for each
      sequence after it. */
  lemma HistoryExactly(rows: seq<Row>, issuer: IssuerId)
    ensures ValidCurrent(rows, issuer) <==> OneHistory(rows, issuer)
  {
    if ValidCurrent(rows, issuer) { HistoryFound(rows, issuer); }
    if b :| 0 <= b < |rows| && rows[b].issuer == issuer && BaseAt(rows, b) { HistoryAccepted(rows, b); }
  }

  lemma BaseFound(rows: seq<Row>, issuer: IssuerId, b: int)
    requires 0 <= b < |rows| && rows[b].objectType == LIST && NoList(rows[..b]) && NoList(rows[b + 1..])
    requires (forall r :: r in rows ==> RowOf(r, issuer)) && OneEach(rows[..b] + rows[b + 1..], rows[b])
    ensures OneHistory(rows, issuer)
  {
    var others := rows[..b] + rows[b + 1..];
    forall i | 0 <= i < |rows| && i != b ensures Follows(rows[i], rows[b], |rows| - 1) {
      assert rows[i] == others[if i < b then i else i - 1];
      assert rows[i] in rows && rows[b] in rows;
      assert if i < b then rows[i] == rows[..b][i] else rows[i] == rows[b + 1..][i - b - 1];
    }
    forall i, j | 0 <= i < j < |rows| && i != b && j != b ensures rows[i].sequence != rows[j].sequence {
      assert rows[i] == others[if i < b then i else i - 1] && rows[j] == others[if j < b then j else j - 1];
    }
    assert rows[b] in rows && BaseAt(rows, b);
  }

  lemma BaseGives(rows: seq<Row>, b: int)
    requires 0 <= b < |rows| && BaseAt(rows, b)
    ensures OneEach(rows[..b] + rows[b + 1..], rows[b])
  {
    var others := rows[..b] + rows[b + 1..];
    forall i | 0 <= i < |others|
      ensures others[i] == rows[if i < b then i else i + 1] && Follows(others[i], rows[b], |others|)
    {
    }
  }

  /* ---- Rows and results ---- */

  /** A well-formed row for the issuer's certificate, under a key that is one of
      the issuer's status keys and nothing else. */
  predicate Genuine(checks: seq<Check>, roles: Roles, i: int, row: Row)
    requires 0 <= i < |checks|
  {
    && row.issuer == checks[i].issuer && row.key != "" && row.digestOk
    && 1 <= row.sequence <= MAX_SAFE_INTEGER && (row.objectType == LIST || row.objectType == PUSH)
    && row.key in roles.keyIssuers && roles.keyIssuers[row.key] == checks[i].issuer
    && row.key !in roles.reserved
    && forall k :: 0 <= k < |checks| ==> checks[k].issuer != row.key && checks[k].subject != row.key
  }

  /** The row is under the key that is the issuer's status key now. */
  predicate UnderCurrent(roles: Roles, row: Row) {
    row.issuer in roles.current && roles.current[row.issuer] == row.key
  }

  /** A row that may be reported: a retired key still witnesses a revocation. */
  predicate Reports(checks: seq<Check>, results: seq<StatusResult>, roles: Roles, i: int, row: Row)
    requires 0 <= i < |checks| == |results|
  {
    && row in results[i].evidence && Genuine(checks, roles, i, row)
    && (results[i].kind == Revoked || UnderCurrent(roles, row))
  }

  predicate Reported(checks: seq<Check>, results: seq<StatusResult>, roles: Roles, row: Row)
    requires |checks| == |results|
  {
    exists i :: 0 <= i < |checks| && Reports(checks, results, roles, i, row)
  }

  /** No other reported row claims the digest of this one. */
  ghost predicate Unrivalled(checks: seq<Check>, results: seq<StatusResult>, roles: Roles, row: Row)
    requires |checks| == |results|
  {
    forall x :: Reported(checks, results, roles, x) && x.digest == row.digest ==> x == row
  }

  /** A revoked result with rows, every one reportable and unrivalled. */
  ghost predicate Witnesses(checks: seq<Check>, results: seq<StatusResult>, roles: Roles, i: int)
    requires 0 <= i < |checks| == |results|
  {
    && results[i].kind == Revoked && results[i].evidence != []
    && forall r :: r in results[i].evidence ==>
         Reports(checks, results, roles, i, r) && Unrivalled(checks, results, roles, r)
  }

  /** A result that says how its issuer's history stands: every row reportable
      and unrivalled, one base list with the pushes that follow it. */
  ghost predicate Stands(checks: seq<Check>, results: seq<StatusResult>, roles: Roles, i: int)
    requires 0 <= i < |checks| == |results|
  {
    && (results[i].kind == NotRevoked || results[i].kind == Stale)
    && (results[i].kind == NotRevoked ==> 1 <= results[i].freshUntil <= MAX_SAFE_INTEGER)
    && OneHistory(results[i].evidence, checks[i].issuer)
    && forall r :: r in results[i].evidence ==>
         Reports(checks, results, roles, i, r) && Unrivalled(checks, results, roles, r)
  }

  /** Results of one issuer carry the same rows, each as often. */
  predicate SameIssuerSameRows(checks: seq<Check>, results: seq<StatusResult>)
    requires |checks| == |results|
  {
    forall i, j :: 0 <= i < |checks| && 0 <= j < |checks| && checks[i].issuer == checks[j].issuer ==>
      multiset(results[i].evidence) == multiset(results[j].evidence)
  }

  lemma GenuineExactly(checks: seq<Check>, roles: Roles, i: int, kind: Kind, row: Row)
    requires 0 <= i < |checks|
    ensures RowOk(Taken(checks), roles, checks[i].issuer, kind, row)
            <==> Genuine(checks, roles, i, row) && (kind == Revoked || UnderCurrent(roles, row))
  {
    TakenExactly(checks, row.key);
  }

  lemma TakenExactly(checks: seq<Check>, key: KeyId)
    ensures key !in Taken(checks)
            <==> forall k :: 0 <= k < |checks| ==> checks[k].issuer != key && checks[k].subject != key
  {
    if k :| 0 <= k < |checks| && (checks[k].issuer == key || checks[k].subject == key) { assert checks[k] in checks; }
  }

  lemma ReportedExactly(checks: seq<Check>, results: seq<StatusResult>, roles: Roles, row: Row)
    requires |checks| == |results|
    ensures row in Rows(checks, results, roles) <==> Reported(checks, results, roles, row)
  {
    forall i | 0 <= i < |checks|
      ensures Reports(checks, results, roles, i, row)
              <==> && row in results[i].evidence
                   && RowOk(Taken(checks), roles, checks[i].issuer, results[i].kind, row)
    {
      GenuineExactly(checks, roles, i, results[i].kind, row);
    }
  }

  lemma UnrivalledExactly(checks: seq<Check>, results: seq<StatusResult>, roles: Roles, row: Row)
    requires |checks| == |results| && Reported(checks, results, roles, row)
    ensures Conflicted(Rows(checks, results, roles), row.digest) <==> !Unrivalled(checks, results, roles, row)
  {
    ReportedExactly(checks, results, roles, row);
    if Conflicted(Rows(checks, results, roles), row.digest) {
      var a, b :| && a in Rows(checks, results, roles) && b in Rows(checks, results, roles) && a != b
                  && a.digest == row.digest && b.digest == row.digest;
      ReportedExactly(checks, results, roles, a);
      ReportedExactly(checks, results, roles, b);
    }
    if x :| Reported(checks, results, roles, x) && x.digest == row.digest && x != row {
      ReportedExactly(checks, results, roles, x);
    }
  }

  lemma AllReported(checks: seq<Check>, results: seq<StatusResult>, roles: Roles, i: int)
    requires 0 <= i < |checks| == |results|
    ensures RowsOk(Taken(checks), roles, checks[i].issuer, results[i])
            <==> forall r :: r in results[i].evidence ==> Reports(checks, results, roles, i, r)
  {
    forall r ensures r in results[i].evidence ==>
        (RowOk(Taken(checks), roles, checks[i].issuer, results[i].kind, r)
         <==> Reports(checks, results, roles, i, r))
    {
      GenuineExactly(checks, roles, i, results[i].kind, r);
    }
  }

  lemma RowIsReported(checks: seq<Check>, results: seq<StatusResult>, roles: Roles, i: int, r: Row)
    requires 0 <= i < |checks| == |results| && Reports(checks, results, roles, i, r)
    ensures Reported(checks, results, roles, r)
  {
  }

  lemma WitnessesExactly(checks: seq<Check>, results: seq<StatusResult>, roles: Roles, i: int)
    requires 0 <= i < |checks| == |results|
    ensures ProvesRevoked(checks, results, roles, i) <==> Witnesses(checks, results, roles, i)
  {
    AllReported(checks, results, roles, i);
    forall r | r in results[i].evidence && Reports(checks, results, roles, i, r)
      ensures Conflicted(Rows(checks, results, roles), r.digest) <==> !Unrivalled(checks, results, roles, r)
    {
      RowIsReported(checks, results, roles, i, r);
      UnrivalledExactly(checks, results, roles, r);
    }
  }

  /* ---- The verdict ---- */

  ghost predicate AllStand(checks: seq<Check>, results: seq<StatusResult>, roles: Roles)
    requires |checks| == |results|
  {
    forall i :: 0 <= i < |checks| ==> Stands(checks, results, roles, i)
  }

  ghost predicate OneWitnesses(checks: seq<Check>, results: seq<StatusResult>, roles: Roles)
    requires |checks| == |results|
  {
    exists i :: 0 <= i < |checks| && Witnesses(checks, results, roles, i)
  }

  lemma StandsIfSound(checks: seq<Check>, results: seq<StatusResult>, roles: Roles, i: int)
    requires 0 <= i < |checks| == |results|
    requires !AnyInvalid(checks, results, roles) && !AnyOf(results, Unavailable) && !AnyRevoked(checks, results, roles)
    ensures Stands(checks, results, roles, i)
  {
    assert results[i] in results;
    assert ResultOk(Taken(checks), roles, checks[i].issuer, results[i]);
    if results[i].kind == Revoked {
      RevokedIsProof(checks, results, roles, i);
    } else {
      HistoryExactly(results[i].evidence, checks[i].issuer);
      AllReported(checks, results, roles, i);
      forall r | r in results[i].evidence ensures Unrivalled(checks, results, roles, r) {
        RowIsReported(checks, results, roles, i, r);
        ReportedExactly(checks, results, roles, r);
        UnrivalledExactly(checks, results, roles, r);
      }
    }
  }

  lemma StandsIsOk(checks: seq<Check>, results: seq<StatusResult>, roles: Roles, i: int)
    requires 0 <= i < |checks| == |results| && Stands(checks, results, roles, i)
    ensures ResultOk(Taken(checks), roles, checks[i].issuer, results[i])
  {
    HistoryExactly(results[i].evidence, checks[i].issuer);
    AllReported(checks, results, roles, i);
  }

  lemma NoConflicts(checks: seq<Check>, results: seq<StatusResult>, roles: Roles)
    requires |checks| == |results| && AllStand(checks, results, roles)
    ensures !AnyConflict(Rows(checks, results, roles))
  {
    forall r | r in Rows(checks, results, roles) ensures !Conflicted(Rows(checks, results, roles), r.digest) {
      ReportedExactly(checks, results, roles, r);
      var i :| 0 <= i < |checks| && Reports(checks, results, roles, i, r);
      assert Stands(checks, results, roles, i);
      UnrivalledExactly(checks, results, roles, r);
    }
  }

  lemma SoundExactly(checks: seq<Check>, results: seq<StatusResult>, roles: Roles)
    requires |checks| == |results|
    ensures !AnyInvalid(checks, results, roles) && !AnyOf(results, Unavailable) && !AnyRevoked(checks, results, roles)
            <==> AllStand(checks, results, roles) && SameIssuerSameRows(checks, results)
  {
    if !AnyInvalid(checks, results, roles) && !AnyOf(results, Unavailable) && !AnyRevoked(checks, results, roles) {
      forall i | 0 <= i < |checks| ensures Stands(checks, results, roles, i) {
        StandsIfSound(checks, results, roles, i);
      }
      SoundAgree(checks, results, roles);
    }
    if AllStand(checks, results, roles) && SameIssuerSameRows(checks, results) {
      AllStandSound(checks, results, roles);
    }
  }

  lemma SoundAgree(checks: seq<Check>, results: seq<StatusResult>, roles: Roles)
    requires |checks| == |results| && AllStand(checks, results, roles) && !AnyDisagreement(checks, results)
    ensures SameIssuerSameRows(checks, results)
  {
    forall i, j | 0 <= i < |checks| && 0 <= j < |checks| && checks[i].issuer == checks[j].issuer
      ensures multiset(results[i].evidence) == multiset(results[j].evidence)
    {
      assert Stands(checks, results, roles, i) && Stands(checks, results, roles, j);
      assert !Disagree(checks, results, i, j);
    }
  }

  lemma AllStandSound(checks: seq<Check>, results: seq<StatusResult>, roles: Roles)
    requires |checks| == |results| && AllStand(checks, results, roles) && SameIssuerSameRows(checks, results)
    ensures !AnyInvalid(checks, results, roles) && !AnyOf(results, Unavailable) && !AnyRevoked(checks, results, roles)
  {
    NoConflicts(checks, results, roles);
    forall i | 0 <= i < |checks|
      ensures ResultOk(Taken(checks), roles, checks[i].issuer, results[i])
      ensures results[i].kind != Revoked && results[i].kind != Unavailable
    {
      assert Stands(checks, results, roles, i);
      StandsIsOk(checks, results, roles, i);
    }
  }

  /** Revoked exactly when some result witnesses it; otherwise current or stale
      exactly when every result stands and those of one issuer agree. */
  lemma VerdictExactly(checks: seq<Check>, results: seq<StatusResult>, roles: Roles, a: Assessment)
    requires |checks| == |results| && IsAggregate(checks, results, roles, a)
    ensures a.verdict == HasRevoked <==> OneWitnesses(checks, results, roles)
    ensures a.verdict in {Current, IsStale} <==> AllStand(checks, results, roles) && SameIssuerSameRows(checks, results)
    ensures a.verdict == Current
            <==> && AllStand(checks, results, roles) && SameIssuerSameRows(checks, results)
                 && forall i :: 0 <= i < |checks| ==> results[i].kind == NotRevoked
    ensures OneWitnesses(checks, results, roles) ==> !AllStand(checks, results, roles)
  {
    forall i | 0 <= i < |checks|
      ensures ProvesRevoked(checks, results, roles, i) <==> Witnesses(checks, results, roles, i)
      ensures Witnesses(checks, results, roles, i) ==> !Stands(checks, results, roles, i)
    {
      WitnessesExactly(checks, results, roles, i);
    }
    SoundExactly(checks, results, roles);
    KindsExactly(checks, results, roles);
  }

  lemma KindsExactly(checks: seq<Check>, results: seq<StatusResult>, roles: Roles)
    requires |checks| == |results|
    ensures AllStand(checks, results, roles) ==>
              (!AnyOf(results, Stale) <==> forall i :: 0 <= i < |checks| ==> results[i].kind == NotRevoked)
  {
    if AllStand(checks, results, roles) {
      forall i | 0 <= i < |checks| ensures results[i].kind == NotRevoked || results[i].kind == Stale {
        assert Stands(checks, results, roles, i);
      }
      forall i | 0 <= i < |checks| ensures results[i] in results {}
    }
  }

  /** The reported evidence is every reportable row that no other one rivals,
      whatever the verdict. */
  lemma EvidenceExactly(checks: seq<Check>, results: seq<StatusResult>, roles: Roles, a: Assessment, row: Row)
    requires |checks| == |results| && IsAggregate(checks, results, roles, a)
    ensures row in a.evidence
            <==> Reported(checks, results, roles, row) && Unrivalled(checks, results, roles, row)
  {
    ReportedExactly(checks, results, roles, row);
    if Reported(checks, results, roles, row) { UnrivalledExactly(checks, results, roles, row); }
  }

  /* ---- When there is an answer ---- */

  /** The checks name the certificates of a chain in order, none twice. */
  predicate ChainNamed(checks: seq<Check>) {
    && (forall i :: 0 <= i < |checks| ==> checks[i].index == i)
    && (forall i :: 0 <= i < |checks| ==> "" !in [checks[i].issuer, checks[i].subject, checks[i].cert])
    && forall i, j :: 0 <= i < |checks| && 0 <= j < |checks| && i != j ==>
         (checks[i].issuer, checks[i].cert) != (checks[j].issuer, checks[j].cert)
  }

  predicate CurrentBound(roles: Roles, issuer: IssuerId) {
    exists k :: && k in roles.keyIssuers && roles.keyIssuers[k] == issuer
                && issuer in roles.current && roles.current[issuer] == k
  }

  /** Status keys are named and separate from every reserved key, and an issuer
      of the chain has a current key of its own; the live verifier tolerates an
      issuer without any. */
  predicate RolesApart(checks: seq<Check>, roles: Roles, allowUnbound: bool) {
    && (forall k :: k in roles.keyIssuers.Keys + roles.reserved ==> k != "")
    && "" !in roles.keyIssuers.Values && roles.keyIssuers.Keys !! roles.reserved
    && forall i :: 0 <= i < |checks| ==>
         if checks[i].issuer in roles.current then CurrentBound(roles, checks[i].issuer) else allowUnbound
  }

  lemma AnswersExactly(checks: seq<Check>, roles: Roles, allowUnbound: bool)
    ensures ChecksOk(checks) <==> ChainNamed(checks)
    ensures RolesOk(roles, checks, allowUnbound) <==> RolesApart(checks, roles, allowUnbound)
  {
    if ChecksOk(checks) {
      forall i, j | 0 <= i < |checks| && 0 <= j < |checks| && i != j
        ensures (checks[i].issuer, checks[i].cert) != (checks[j].issuer, checks[j].cert)
      {
        assert checks[i] != checks[j];
      }
    }
    forall i | 0 <= i < |checks| ensures checks[i] in checks {}
    RolesExactly(checks, roles, allowUnbound);
  }

  lemma RolesExactly(checks: seq<Check>, roles: Roles, allowUnbound: bool)
    ensures RolesOk(roles, checks, allowUnbound) <==> RolesApart(checks, roles, allowUnbound)
  {
    forall i | 0 <= i < |checks| ensures checks[i] in checks {}
    if RolesOk(roles, checks, allowUnbound) {
      forall v | v in roles.keyIssuers.Values ensures v != "" {
        var k :| k in roles.keyIssuers && roles.keyIssuers[k] == v;
      }
    }
    if RolesApart(checks, roles, allowUnbound) {
      forall k | k in roles.keyIssuers ensures k != "" && roles.keyIssuers[k] != "" && k !in roles.reserved {
        assert k in roles.keyIssuers.Keys + roles.reserved && roles.keyIssuers[k] in roles.keyIssuers.Values;
      }
      assert "" !in roles.keyIssuers.Keys + roles.reserved;
    }
  }
}

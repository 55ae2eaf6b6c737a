/** The evidence rows of a status answer (status_state_v2.go:129-151 and 809-866)
    and what the aggregation makes of them: the answer of a valid journal state
    is always a valid result.  Rows are listed in the order in which they are
    collected; the aggregation does not depend on it. */
module StatusReport {
  import opened StatusTypes
  import opened StatusCompaction
  import opened StatusReducer
  import opened StatusValidation
  import opened SecurityJournal
  import Agg = StatusAggregation

  /** The text of an evidence digest. */
  type Rendering = Evidence -> string

  function RowOf(issuer: IssuerId, o: Observation, digest: Rendering): Agg.Row {
    Agg.Row(issuer, o.keyId, if o.IsList() then Agg.LIST else Agg.PUSH, o.sequence, digest(o.evidence), true)
  }

  function BaseRow(s: State, issuer: IssuerId, digest: Rendering): Agg.Row
    requires s.snapshot.Some?
  {
    Agg.Row(issuer, s.keyId, Agg.LIST, s.snapshot.value.sequence, digest(ListEvidence(s.snapshot.value)), true)
  }

  /** appendStatusEvidenceV2 over the observations that are included. */
  function AddRows(rows: seq<Agg.Row>, obs: seq<Observation>, picks: Observation -> bool, issuer: IssuerId,
                   digest: Rendering)
    : seq<Agg.Row>
  {
    if obs == [] then rows
    else
      var front := AddRows(rows, obs[..|obs| - 1], picks, issuer, digest);
      var row := RowOf(issuer, obs[|obs| - 1], digest);
      if picks(obs[|obs| - 1]) && row !in front then front + [row] else front
  }

  function OnPath(s: State): Observation -> bool { (o: Observation) => OnFloorPath(s, o) }

  function Naming(cert: CertId): Observation -> bool { (o: Observation) => cert in o.certs }

  /** acceptedStatusEvidenceV2 */
  function AcceptedRows(s: State, issuer: IssuerId, digest: Rendering): seq<Agg.Row> {
    if s.snapshot.None? then []
    else AddRows([BaseRow(s, issuer, digest)], s.observations, OnPath(s), issuer, digest)
  }

  function Unsettled(s: State): Observation -> bool {
    (o: Observation) =>
      o.epoch == s.epoch && (o.sequence > s.floor || o.fork || o.gap || o.futureDated || (s.reconcile && !o.accepted))
  }

  /* ---- Which rows there are ---- */

  lemma {:induction false} RowsAre(rows: seq<Agg.Row>, obs: seq<Observation>, picks: Observation -> bool,
                                   issuer: IssuerId, digest: Rendering)
    ensures forall r :: r in AddRows(rows, obs, picks, issuer, digest) ==>
              r in rows || exists o :: o in obs && picks(o) && r == RowOf(issuer, o, digest)
    ensures forall o :: o in obs && picks(o) ==> RowOf(issuer, o, digest) in AddRows(rows, obs, picks, issuer, digest)
    ensures forall r :: r in rows ==> r in AddRows(rows, obs, picks, issuer, digest)
  {
    if obs != [] {
      var front, o := obs[..|obs| - 1], obs[|obs| - 1];
      assert obs == front + [o];
      RowsAre(rows, front, picks, issuer, digest);
      forall r | r in AddRows(rows, obs, picks, issuer, digest)
        ensures r in rows || exists x :: x in obs && picks(x) && r == RowOf(issuer, x, digest)
      {
        if r in AddRows(rows, front, picks, issuer, digest) && r !in rows {
          var x :| x in front && picks(x) && r == RowOf(issuer, x, digest);
          assert x in obs;
        }
      }
    }
  }

  /* ---- Sequences of the pushes ---- */

  function Sequences(rows: seq<Agg.Row>): seq<int> {
    if rows == [] then [] else Sequences(rows[..|rows| - 1]) + [rows[|rows| - 1].sequence]
  }

  lemma {:induction false} SequencesAt(rows: seq<Agg.Row>, i: int)
    requires 0 <= i < |rows|
    ensures |Sequences(rows)| == |rows| && Sequences(rows)[i] == rows[i].sequence
  {
    if |rows| > 1 { SequencesAt(rows[..|rows| - 1], if i < |rows| - 1 then i else 0); }
  }

  lemma {:induction false} SequencesAppend(rows: seq<Agg.Row>, r: Agg.Row)
    ensures Sequences(rows + [r]) == Sequences(rows) + [r.sequence]
  {
    assert (rows + [r])[..|rows|] == rows;
  }

  lemma {:induction false} InsertedSequences(rows: seq<Agg.Row>, x: Agg.Row)
    requires Ascending(Sequences(rows))
    ensures Sequences(Agg.InsertBySequence(rows, x)) == InsertInt(Sequences(rows), x.sequence)
  {
    if rows == [] {
      SequencesAppend([], x);
      assert [] + [x] == [x];
    } else {
      var front, last := rows[..|rows| - 1], rows[|rows| - 1];
      SequencesAt(rows, |rows| - 1);
      assert Sequences(rows)[..|rows| - 1] == Sequences(front);
      if last.sequence <= x.sequence {
        SequencesAppend(rows, x);
      } else {
        assert forall i :: 0 <= i < |Sequences(front)| ==> Sequences(front)[i] == Sequences(rows)[i];
        InsertedSequences(front, x);
        SequencesAppend(Agg.InsertBySequence(front, x), last);
      }
    }
  }

  lemma {:induction false} SortedSequences(rows: seq<Agg.Row>)
    ensures Sequences(Agg.SortBySequence(rows)) == SortInts(Sequences(rows))
  {
    if rows != [] {
      var front, last := rows[..|rows| - 1], rows[|rows| - 1];
      SortedSequences(front);
      assert Sequences(rows)[..|Sequences(rows)| - 1] == Sequences(front);
      InsertedSequences(Agg.SortBySequence(front), last);
    }
  }

  /* ---- The accepted rows are a history ---- */

  function PathRows(s: State, obs: seq<Observation>, issuer: IssuerId, digest: Rendering): seq<Agg.Row>
    requires s.snapshot.Some?
  {
    AddRows([BaseRow(s, issuer, digest)], obs, OnPath(s), issuer, digest)
  }

  function Extended(rows: seq<Agg.Row>, row: Agg.Row, on: bool): seq<Agg.Row> {
    if on && row !in rows then rows + [row] else rows
  }

  lemma PathStep(s: State, obs: seq<Observation>, issuer: IssuerId, digest: Rendering)
    requires s.snapshot.Some? && obs != []
    ensures var front, o := obs[..|obs| - 1], obs[|obs| - 1];
            PathRows(s, obs, issuer, digest)
            == Extended(PathRows(s, front, issuer, digest), RowOf(issuer, o, digest), OnFloorPath(s, o))
  {
  }

  lemma PathStart(s: State, issuer: IssuerId, digest: Rendering)
    requires s.snapshot.Some?
    ensures Agg.Lists(PathRows(s, [], issuer, digest)) == [BaseRow(s, issuer, digest)]
    ensures Agg.Pushes(PathRows(s, [], issuer, digest)) == []
  {
    BaseAlone(BaseRow(s, issuer, digest));
  }

  lemma BaseAlone(base: Agg.Row)
    requires base.objectType == Agg.LIST
    ensures Agg.Lists([base]) == [base] && Agg.Pushes([base]) == []
  {
    var rows := [base];
    assert Agg.Lists(rows[..0]) == [] && Agg.Pushes(rows[..0]) == [];
    assert Agg.Lists(rows) == Agg.Lists(rows[..0]) + [base];
  }

  /** The rows are one base and pushes between it and the floor. */
  ghost predicate Shaped(rows: seq<Agg.Row>, base: Agg.Row, floor: int) {
    Agg.Lists(rows) == [base] && Within(Sequences(Agg.Pushes(rows)), base.sequence, floor)
  }

  lemma WithinOneMore(xs: seq<int>, x: int, base: int, floor: int)
    requires Within(xs, base, floor) && base < x <= floor
    ensures Within(xs + [x], base, floor)
  {
  }

  lemma {:induction false} ExtendedIsShaped(rows: seq<Agg.Row>, base: Agg.Row, floor: int, row: Agg.Row, on: bool)
    requires Shaped(rows, base, floor) && (on ==> row.objectType == Agg.PUSH && base.sequence < row.sequence <= floor)
    ensures Shaped(Extended(rows, row, on), base, floor)
  {
    if on && row !in rows {
      PushAppended(rows, row);
      WithinOneMore(Sequences(Agg.Pushes(rows)), row.sequence, base.sequence, floor);
    }
  }

  lemma {:induction false} PathRowsAre(s: State, obs: seq<Observation>, issuer: IssuerId, digest: Rendering)
    requires s.snapshot.Some?
    ensures Shaped(PathRows(s, obs, issuer, digest), BaseRow(s, issuer, digest), s.floor)
  {
    if obs == [] {
      PathStart(s, issuer, digest);
    } else {
      var front, o := obs[..|obs| - 1], obs[|obs| - 1];
      PathRowsAre(s, front, issuer, digest);
      PathStep(s, obs, issuer, digest);
      ExtendedIsShaped(PathRows(s, front, issuer, digest), BaseRow(s, issuer, digest), s.floor,
                       RowOf(issuer, o, digest), OnFloorPath(s, o));
    }
  }

  lemma {:induction false} PushAppended(rows: seq<Agg.Row>, row: Agg.Row)
    requires row.objectType == Agg.PUSH
    ensures Agg.Lists(rows + [row]) == Agg.Lists(rows)
    ensures Agg.Pushes(rows + [row]) == Agg.Pushes(rows) + [row]
    ensures Sequences(Agg.Pushes(rows + [row])) == Sequences(Agg.Pushes(rows)) + [row.sequence]
  {
    assert (rows + [row])[..|rows|] == rows;
    SequencesAppend(Agg.Pushes(rows), row);
  }

  lemma {:induction false} InSequences(rows: seq<Agg.Row>, r: Agg.Row)
    requires r in rows
    ensures r.sequence in Sequences(rows)
  {
    var i :| 0 <= i < |rows| && rows[i] == r;
    SequencesAt(rows, i);
  }

  function Count(rows: seq<Agg.Row>, q: int): nat { multiset(Sequences(Agg.Pushes(rows)))[q] }

  /** At most `n` rows of a sequence, and one if there is any. */
  predicate Counted(rows: seq<Agg.Row>, q: int, n: nat) { Count(rows, q) <= n && (n > 0 ==> Count(rows, q) > 0) }

  lemma CountOneMore(xs: seq<int>, x: int, q: int)
    ensures multiset(xs + [x])[q] == multiset(xs)[q] + if x == q then 1 else 0
  {
  }

  lemma {:induction false} ExtendedIsCounted(rows: seq<Agg.Row>, row: Agg.Row, on: bool, q: int, n: nat)
    requires Counted(rows, q, n) && (on ==> row.objectType == Agg.PUSH)
    ensures Counted(Extended(rows, row, on), q, if on && row.sequence == q then n + 1 else n)
  {
    if on {
      if row in rows {
        InSequences(Agg.Pushes(rows), row);
      } else {
        PushAppended(rows, row);
        CountOneMore(Sequences(Agg.Pushes(rows)), row.sequence, q);
      }
    }
  }

  /** As many rows as pushes at most, and one where there is a push. */
  lemma {:induction false} RowsCount(s: State, obs: seq<Observation>, issuer: IssuerId, digest: Rendering, q: int)
    requires s.snapshot.Some? && s.snapshot.value.sequence < q <= s.floor
    ensures Counted(PathRows(s, obs, issuer, digest), q, PushCount(obs, s.epoch, q))
  {
    if obs == [] {
      PathStart(s, issuer, digest);
    } else {
      var front, o := obs[..|obs| - 1], obs[|obs| - 1];
      RowsCount(s, front, issuer, digest, q);
      PathStep(s, obs, issuer, digest);
      ExtendedIsCounted(PathRows(s, front, issuer, digest), RowOf(issuer, o, digest), OnFloorPath(s, o), q,
                        PushCount(front, s.epoch, q));
    }
  }

  /** The pushes after the base are contiguous up to the floor. */
  lemma PathIsContiguous(s: State, issuer: IssuerId, digest: Rendering)
    requires s.hasFloor && s.snapshot.Some? && HistoryOk(s)
    ensures var xs := SortInts(Sequences(Agg.Pushes(AcceptedRows(s, issuer, digest))));
            Contiguous(xs, s.snapshot.value.sequence, s.floor)
  {
    var base := s.snapshot.value.sequence;
    var rows := PathRows(s, s.observations, issuer, digest);
    var xs := Sequences(Agg.Pushes(rows));
    PathRowsAre(s, s.observations, issuer, digest);
    var sorted := SortInts(xs);
    forall i | 0 <= i < |sorted| ensures base < sorted[i] <= s.floor { SameElements(sorted, xs, i); }
    forall q | base < q <= s.floor ensures multiset(sorted)[q] == 1 { RowsCount(s, s.observations, issuer, digest, q); }
    ContiguousExactly(sorted, base, s.floor);
  }

  /** The keys of the current epoch's records are the current key. */
  lemma CurrentKeyed(c: Content, issuer: IssuerId, o: Observation)
    requires BindingsOk(c) && issuer in c.states && StateOk(c, issuer, c.states[issuer])
    requires o in c.states[issuer].observations
    ensures Binding(issuer, o.epoch, o.keyId) in c.bindings
    ensures o.epoch == c.states[issuer].epoch ==> o.keyId == c.states[issuer].keyId
  {
  }

  /** A row of the issuer under its current key. */
  predicate CurrentRow(r: Agg.Row, issuer: IssuerId, key: KeyId) {
    Agg.RowOf(r, issuer) && r.key == key && 0 < r.sequence <= MAX_SAFE_INTEGER && r.digestOk
  }

  lemma RowIsCurrent(c: Content, issuer: IssuerId, o: Observation, digest: Rendering)
    requires BindingsOk(c) && issuer in c.states && StateOk(c, issuer, c.states[issuer])
    requires o in c.states[issuer].observations
    requires o.epoch == c.states[issuer].epoch
    ensures CurrentRow(RowOf(issuer, o, digest), issuer, c.states[issuer].keyId)
  {
    CurrentKeyed(c, issuer, o);
  }

  lemma BaseIsCurrent(s: State, issuer: IssuerId, digest: Rendering)
    requires s.hasFloor && BindingOk(s, issuer, s.epoch)
    ensures CurrentRow(BaseRow(s, issuer, digest), issuer, s.keyId)
  {
  }

  lemma PathKeys(c: Content, issuer: IssuerId, digest: Rendering)
    requires BindingsOk(c) && issuer in c.states && StateOk(c, issuer, c.states[issuer]) && c.states[issuer].hasFloor
    ensures forall r :: r in AcceptedRows(c.states[issuer], issuer, digest) ==>
              CurrentRow(r, issuer, c.states[issuer].keyId)
  {
    var s := c.states[issuer];
    var base := BaseRow(s, issuer, digest);
    BaseIsCurrent(s, issuer, digest);
    forall o | o in s.observations && o.epoch == s.epoch ensures CurrentRow(RowOf(issuer, o, digest), issuer, s.keyId) {
      RowIsCurrent(c, issuer, o, digest);
    }
    AllCurrent(s, issuer, digest);
  }

  lemma AllCurrent(s: State, issuer: IssuerId, digest: Rendering)
    requires s.snapshot.Some? && CurrentRow(BaseRow(s, issuer, digest), issuer, s.keyId)
    requires forall o :: o in s.observations && o.epoch == s.epoch ==>
               CurrentRow(RowOf(issuer, o, digest), issuer, s.keyId)
    ensures forall r :: r in AcceptedRows(s, issuer, digest) ==> CurrentRow(r, issuer, s.keyId)
  {
    RowsAre([BaseRow(s, issuer, digest)], s.observations, OnPath(s), issuer, digest);
  }

  /** The rows behind a not-revoked or stale answer of a valid state are one
      base and contiguous pushes under the current key, as the aggregation
      demands. */
  lemma AcceptedRowsAreCurrent(c: Content, issuer: IssuerId, digest: Rendering)
    requires BindingsOk(c) && issuer in c.states && StateOk(c, issuer, c.states[issuer]) && c.states[issuer].hasFloor
    ensures Agg.ValidCurrent(AcceptedRows(c.states[issuer], issuer, digest), issuer)
  {
    var s := c.states[issuer];
    PathRowsAre(s, s.observations, issuer, digest);
    PathKeys(c, issuer, digest);
    PathIsContiguous(s, issuer, digest);
    ShapedIsCurrent(AcceptedRows(s, issuer, digest), BaseRow(s, issuer, digest), s.floor, issuer, s.keyId);
  }

  lemma {:induction false} ShapedIsCurrent(rows: seq<Agg.Row>, base: Agg.Row, floor: int, issuer: IssuerId, key: KeyId)
    requires Shaped(rows, base, floor) && forall r :: r in rows ==> CurrentRow(r, issuer, key)
    requires Contiguous(SortInts(Sequences(Agg.Pushes(rows))), base.sequence, floor)
    ensures Agg.ValidCurrent(rows, issuer)
  {
    var pushes := Agg.Pushes(rows);
    var sorted := Agg.SortBySequence(pushes);
    SortedSequences(pushes);
    forall i | 0 <= i < |sorted| ensures sorted[i].key == key && sorted[i].sequence == base.sequence + i + 1 {
      SequencesAt(sorted, i);
      assert sorted[i] in sorted && sorted[i] in rows;
    }
    assert Agg.Lists(rows)[0] in rows;
  }

  /* ---- Every answer is a valid result ---- */

  /** The roles that the status stage builds for an issuer, with the separation
      that it has checked. */
  ghost predicate RolesFor(c: Content, issuer: IssuerId, taken: set<KeyId>, roles: Agg.Roles) {
    && issuer in c.states && issuer in roles.current && roles.current[issuer] == c.states[issuer].keyId
    && forall b :: b in c.bindings && b.issuer == issuer ==>
         b.key in roles.keyIssuers && roles.keyIssuers[b.key] == issuer && b.key !in taken && b.key !in roles.reserved
  }

  lemma AcceptedRowsOk(c: Content, issuer: IssuerId, taken: set<KeyId>, roles: Agg.Roles, kind: Agg.Kind,
                       digest: Rendering)
    requires BindingsOk(c) && RolesFor(c, issuer, taken, roles) && StateOk(c, issuer, c.states[issuer])
    ensures forall r :: r in AcceptedRows(c.states[issuer], issuer, digest) ==> Agg.RowOk(taken, roles, issuer, kind, r)
  {
    var s := c.states[issuer];
    assert Binding(issuer, s.epoch, s.keyId) in c.bindings;
    if s.snapshot.Some? { PathKeys(c, issuer, digest); }
  }

  lemma {:induction false} NamingRowsOk(c: Content, issuer: IssuerId, cert: CertId, taken: set<KeyId>,
                                        roles: Agg.Roles, digest: Rendering)
    requires BindingsOk(c) && RolesFor(c, issuer, taken, roles) && StateOk(c, issuer, c.states[issuer])
    requires cert in c.states[issuer].denyUnion
    ensures var s := c.states[issuer];
            var rows := AddRows(AcceptedRows(s, issuer, digest), s.observations, Naming(cert), issuer, digest);
            rows != [] && forall r :: r in rows ==> Agg.RowOk(taken, roles, issuer, Agg.Revoked, r)
  {
    var s := c.states[issuer];
    AcceptedRowsOk(c, issuer, taken, roles, Agg.Revoked, digest);
    RowsAre(AcceptedRows(s, issuer, digest), s.observations, Naming(cert), issuer, digest);
    var witness' :| witness' in s.observations && cert in witness'.certs;
    var rows := AddRows(AcceptedRows(s, issuer, digest), s.observations, Naming(cert), issuer, digest);
    assert RowOf(issuer, witness', digest) in rows;
    forall r | r in rows && r !in AcceptedRows(s, issuer, digest)
      ensures Agg.RowOk(taken, roles, issuer, Agg.Revoked, r)
    {
      var o :| o in s.observations && cert in o.certs && r == RowOf(issuer, o, digest);
      CurrentKeyed(c, issuer, o);
    }
  }

  /** What an answer says of the state. */
  lemma AnswerMeans(s: State, issuer: IssuerId, cert: CertId, epoch: int, key: KeyId, p: Policy, now: int)
    ensures var r := Query(s, issuer, cert, epoch, key, p, now);
            && (r == Success(Revoked) ==> cert in s.denyUnion)
            && (r == Success(Stale) ==> s.hasFloor)
            && (r.Success? && r.value.NotRevoked? ==> s.hasFloor && 0 < r.value.freshUntil <= MAX_SAFE_INTEGER)
  {
  }

  /** The report of an answer. */
  function Reported(s: State, issuer: IssuerId, cert: CertId, answer: Result<Status>, digest: Rendering)
    : Agg.StatusResult
  {
    var accepted := AcceptedRows(s, issuer, digest);
    if answer.Failure? then Agg.StatusResult(Agg.Unavailable, 0, [])
    else
      match answer.value
      case Revoked =>
        Agg.StatusResult(Agg.Revoked, 0, AddRows(accepted, s.observations, Naming(cert), issuer, digest))
      case NotRevoked(until) => Agg.StatusResult(Agg.NotRevoked, until, accepted)
      case Stale => Agg.StatusResult(Agg.Stale, 0, accepted)
      case Unavailable =>
        Agg.StatusResult(Agg.Unavailable, 0, AddRows(accepted, s.observations, Unsettled(s), issuer, digest))
  }

  lemma ReportedIsValid(c: Content, issuer: IssuerId, cert: CertId, answer: Result<Status>, digest: Rendering,
                        taken: set<KeyId>, roles: Agg.Roles)
    requires BindingsOk(c) && RolesFor(c, issuer, taken, roles) && StateOk(c, issuer, c.states[issuer])
    requires answer == Success(Revoked) ==> cert in c.states[issuer].denyUnion
    requires answer == Success(Stale) ==> c.states[issuer].hasFloor
    requires answer.Success? && answer.value.NotRevoked? ==>
               c.states[issuer].hasFloor && 0 < answer.value.freshUntil <= MAX_SAFE_INTEGER
    ensures Agg.ResultOk(taken, roles, issuer, Reported(c.states[issuer], issuer, cert, answer, digest))
  {
    if answer.Success? {
      match answer.value
      case Revoked => NamingRowsOk(c, issuer, cert, taken, roles, digest);
      case NotRevoked(_) =>
        AcceptedRowsAreCurrent(c, issuer, digest);
        AcceptedRowsOk(c, issuer, taken, roles, Agg.NotRevoked, digest);
      case Stale =>
        AcceptedRowsAreCurrent(c, issuer, digest);
        AcceptedRowsOk(c, issuer, taken, roles, Agg.Stale, digest);
      case Unavailable =>
    }
  }

  /** RevocationStatusForCertV2 with its rows, as the status stage uses it: a
      refused query is unavailable. */
  function Report(s: State, issuer: IssuerId, cert: CertId, epoch: int, key: KeyId, p: Policy, now: int,
                  digest: Rendering)
    : Agg.StatusResult
  {
    Reported(s, issuer, cert, Query(s, issuer, cert, epoch, key, p, now), digest)
  }

  /** Whatever a valid journal answers for a certificate, with its rows, the
      aggregation accepts it as a valid result of that kind. */
  lemma ReportIsValid(c: Content, issuer: IssuerId, cert: CertId, epoch: int, key: KeyId, p: Policy, now: int,
                      digest: Rendering, taken: set<KeyId>, roles: Agg.Roles)
    requires BindingsOk(c) && RolesFor(c, issuer, taken, roles) && StateOk(c, issuer, c.states[issuer])
    ensures Agg.ResultOk(taken, roles, issuer, Report(c.states[issuer], issuer, cert, epoch, key, p, now, digest))
  {
    AnswerMeans(c.states[issuer], issuer, cert, epoch, key, p, now);
    ReportedIsValid(c, issuer, cert, Query(c.states[issuer], issuer, cert, epoch, key, p, now), digest, taken, roles);
  }

  /* ---- Which rows are reported ---- */

  /** A record that a row is made of. */
  ghost predicate RowFrom(s: State, issuer: IssuerId, digest: Rendering, r: Agg.Row, o: Observation) {
    && o in s.observations && r.issuer == issuer && r.key == o.keyId && r.sequence == o.sequence && r.digestOk
    && r.objectType == (if o.body.ListEvidence? then 3 else 5) && r.digest == digest(o.evidence)
  }

  /** The list that the floor rests on, or an accepted push between it and the
      floor. */
  ghost predicate FloorRow(s: State, issuer: IssuerId, digest: Rendering, r: Agg.Row) {
    && s.snapshot.Some?
    && (|| r == Agg.Row(issuer, s.keyId, 3, s.snapshot.value.sequence, digest(ListEvidence(s.snapshot.value)), true)
        || exists o :: RowFrom(s, issuer, digest, r, o) && o.epoch == s.epoch && o.IsPush() && o.accepted
                       && s.snapshot.value.sequence < o.sequence <= s.floor)
  }

  ghost predicate NamingRow(s: State, issuer: IssuerId, digest: Rendering, cert: CertId, r: Agg.Row) {
    exists o :: RowFrom(s, issuer, digest, r, o) && cert in o.certs
  }

  /** A record of the epoch that keeps the state from being settled. */
  ghost predicate OpenRow(s: State, issuer: IssuerId, digest: Rendering, r: Agg.Row) {
    exists o :: RowFrom(s, issuer, digest, r, o) && o.epoch == s.epoch
                && (s.floor < o.sequence || o.fork || o.gap || o.futureDated || (s.reconcile && !o.accepted))
  }

  lemma {:induction false} RowsOnce(rows: seq<Agg.Row>, obs: seq<Observation>, picks: Observation -> bool,
                                    issuer: IssuerId, digest: Rendering)
    requires Distinct(rows)
    ensures Distinct(AddRows(rows, obs, picks, issuer, digest))
  {
    if obs != [] { RowsOnce(rows, obs[..|obs| - 1], picks, issuer, digest); }
  }

  lemma AcceptedExactly(s: State, issuer: IssuerId, digest: Rendering, r: Agg.Row)
    ensures r in AcceptedRows(s, issuer, digest) <==> FloorRow(s, issuer, digest, r)
    ensures Distinct(AcceptedRows(s, issuer, digest))
  {
    if s.snapshot.Some? {
      RowsAre([BaseRow(s, issuer, digest)], s.observations, OnPath(s), issuer, digest);
      RowsOnce([BaseRow(s, issuer, digest)], s.observations, OnPath(s), issuer, digest);
      forall o | o in s.observations ensures RowFrom(s, issuer, digest, r, o) <==> r == RowOf(issuer, o, digest) {}
    }
  }

  lemma {:induction false} MoreExactly(s: State, picks: Observation -> bool, issuer: IssuerId, digest: Rendering,
                                      r: Agg.Row)
    ensures var rows := AddRows(AcceptedRows(s, issuer, digest), s.observations, picks, issuer, digest);
            && Distinct(rows)
            && (r in rows <==> || FloorRow(s, issuer, digest, r)
                               || exists o :: RowFrom(s, issuer, digest, r, o) && picks(o))
  {
    AcceptedExactly(s, issuer, digest, r);
    RowsAre(AcceptedRows(s, issuer, digest), s.observations, picks, issuer, digest);
    RowsOnce(AcceptedRows(s, issuer, digest), s.observations, picks, issuer, digest);
    forall o | o in s.observations ensures RowFrom(s, issuer, digest, r, o) <==> r == RowOf(issuer, o, digest) {}
  }

  /** The rows of an answer, each once: those that the floor rests on, with the
      records that name a revoked certificate or that leave the state unsettled. */
  lemma RowsExactly(s: State, issuer: IssuerId, cert: CertId, answer: Result<Status>, digest: Rendering, r: Agg.Row)
    requires answer.Success?
    ensures var rows := Reported(s, issuer, cert, answer, digest).evidence;
            && Distinct(rows)
            && (r in rows <==>
                || FloorRow(s, issuer, digest, r)
                || (answer.value.Revoked? && NamingRow(s, issuer, digest, cert, r))
                || (answer.value.Unavailable? && OpenRow(s, issuer, digest, r)))
  {
    AcceptedExactly(s, issuer, digest, r);
    match answer.value
    case Revoked => MoreExactly(s, Naming(cert), issuer, digest, r);
    case Unavailable =>
      MoreExactly(s, Unsettled(s), issuer, digest, r);
      forall o ensures RowFrom(s, issuer, digest, r, o) && Unsettled(s)(o) ==> OpenRow(s, issuer, digest, r) {}
    case _ =>
  }
}

/** The receiver-audience stage (audience_v2.go): every deferred audience link
    against caller-authenticated memberships at the claim time. */
module Audience {
  import opened StatusTypes

  const MAX_MEMBERSHIP_AGE: int := 86400

  /** A deferred audience constraint at its place in the chain.  `sealed` says
      that its canonical encoding decodes to itself. */
  datatype Link = Link(delegation: int, position: int, exact: set<string>, domains: set<string>, maxAge: int,
                       sealed: bool)

  datatype Membership = Membership(
    delegation: int, position: int, receiver: string, domains: seq<string>,
    issuedAt: int, expiresAt: int, digest: string, digestOk: bool)

  datatype Status = Passed | Denied | Unverifiable

  datatype Assessment = Assessment(status: Status, evidence: set<string>, freshUntil: int)

  predicate At(m: Membership, l: Link) { m.delegation == l.delegation && m.position == l.position }

  /** The memberships for one link, in order. */
  function For(ms: seq<Membership>, l: Link): seq<Membership> {
    if ms == [] then []
    else For(ms[..|ms| - 1], l) + if At(ms[|ms| - 1], l) then [ms[|ms| - 1]] else []
  }

  predicate LinkOk(l: Link) {
    l.sealed && 0 <= l.delegation && 0 <= l.position && (l.domains != {} ==> 0 < l.maxAge <= MAX_MEMBERSHIP_AGE)
  }

  predicate LinksOk(ls: seq<Link>) {
    && ls != []
    && (forall i :: 0 <= i < |ls| ==> LinkOk(ls[i]))
    && (forall i, j :: 0 <= i < j < |ls| ==> !SamePlace(ls[i], ls[j]))
  }

  /** The least age limit of the chain; it holds for every link. */
  function AgeLimit(ls: seq<Link>): int {
    if ls == [] then MAX_SAFE_INTEGER
    else
      var l := ls[|ls| - 1];
      var rest := AgeLimit(ls[..|ls| - 1]);
      if l.domains != {} && l.maxAge < rest then l.maxAge else rest
  }

  predicate Usable(m: Membership, receiver: string, now: int, skew: int, maxAge: int) {
    && m.receiver == receiver && m.digestOk
    && ValidTimestamp(m.issuedAt) && ValidTimestamp(m.expiresAt) && m.issuedAt < m.expiresAt && now < m.expiresAt
    && !BeyondSkew(m.issuedAt, now, skew)
    && (now < m.issuedAt || now - m.issuedAt < maxAge)
    && "" !in m.domains && Distinct(m.domains)
  }

  datatype Verdict = Exact | Impossible | Unusable | Outsider(digest: string) | Member(m: Membership)

  predicate Overlaps(m: Membership, l: Link) { exists d :: d in m.domains && d in l.domains }

  function Judge(l: Link, receiver: string, ms: seq<Membership>, now: int, skew: int, maxAge: int): Verdict {
    if receiver in l.exact then Exact
    else if l.domains == {} then Impossible
    else
      var found := For(ms, l);
      if |found| != 1 || !Usable(found[0], receiver, now, skew, maxAge) then Unusable
      else if Overlaps(found[0], l) then Member(found[0])
      else Outsider(found[0].digest)
  }

  /** The running values of the loop over the links. */
  datatype Tally = Tally(impossible: bool, denied: bool, unavailable: bool, evidence: set<string>, freshUntil: int)

  function Add(t: Tally, v: Verdict, maxAge: int): Tally {
    match v
    case Exact => t
    case Impossible => t.(impossible := true)
    case Unusable => t.(unavailable := true)
    case Outsider(d) => t.(denied := true, evidence := t.evidence + {d})
    case Member(m) =>
      t.(evidence := t.evidence + {m.digest}, freshUntil := Min(Min(t.freshUntil, m.expiresAt), m.issuedAt + maxAge))
  }

  function TallyOf(ls: seq<Link>, receiver: string, ms: seq<Membership>, now: int, skew: int, maxAge: int): Tally {
    if ls == [] then Tally(false, false, false, {}, MAX_SAFE_INTEGER)
    else Add(TallyOf(ls[..|ls| - 1], receiver, ms, now, skew, maxAge),
             Judge(ls[|ls| - 1], receiver, ms, now, skew, maxAge), maxAge)
  }

  /** EvaluateReceiverAudienceV2 */
  function Evaluate(ls: seq<Link>, receiver: string, ms: seq<Membership>, now: int, skew: int): Result<Assessment> {
    if receiver == "" || !ValidTimestamp(now) || !(0 <= skew <= MAX_FUTURE_SKEW) || !LinksOk(ls) then Failure
    else
      var t := TallyOf(ls, receiver, ms, now, skew, AgeLimit(ls));
      if t.impossible then Failure
      else if t.denied then Success(Assessment(Denied, t.evidence, 0))
      else if t.unavailable then Success(Assessment(Unverifiable, t.evidence, 0))
      else Success(Assessment(Passed, t.evidence, t.freshUntil))
  }

  /* ---- The loops ---- */

  /** A second membership for the link makes it unusable. */
  method FindMembership(ms: seq<Membership>, l: Link) returns (found: Option<Membership>)
    ensures found.Some? <==> |For(ms, l)| == 1
    ensures found.Some? ==> found.value == For(ms, l)[0]
  {
    found := None;
    for i := 0 to |ms|
      invariant |For(ms[..i], l)| <= 1
      invariant found.None? ==> For(ms[..i], l) == []
      invariant found.Some? ==> For(ms[..i], l) == [found.value]
    {
      assert ms[..i + 1][..i] == ms[..i];
      if At(ms[i], l) {
        if found.Some? {
          ForGrows(ms, i + 1, l);
          return None;
        }
        found := Some(ms[i]);
      }
    }
    assert ms[..|ms|] == ms;
  }

  lemma {:induction false} ForGrows(ms: seq<Membership>, n: nat, l: Link)
    requires n <= |ms|
    ensures |For(ms[..n], l)| <= |For(ms, l)|
  {
    if n == |ms| {
      assert ms[..n] == ms;
    } else {
      assert ms[..|ms| - 1][..n] == ms[..n];
      ForGrows(ms[..|ms| - 1], n, l);
    }
  }

  method DomainsMatch(m: Membership, l: Link) returns (malformed: bool, match': bool)
    ensures malformed == !("" !in m.domains && Distinct(m.domains))
    ensures !malformed ==> match' == Overlaps(m, l)
  {
    malformed, match' := false, false;
    var seen: set<string> := {};
    for i := 0 to |m.domains|
      invariant forall d :: d in seen <==> d in m.domains[..i]
      invariant "" !in m.domains[..i] && Distinct(m.domains[..i])
      invariant match' <==> exists d :: d in m.domains[..i] && d in l.domains
    {
      if m.domains[i] == "" || m.domains[i] in seen {
        malformed := true;
        return;
      }
      seen := seen + {m.domains[i]};
      match' := match' || m.domains[i] in l.domains;
    }
    assert m.domains[..|m.domains|] == m.domains;
  }

  method JudgeLink(l: Link, receiver: string, ms: seq<Membership>, now: int, skew: int, maxAge: int)
    returns (v: Verdict)
    ensures v == Judge(l, receiver, ms, now, skew, maxAge)
  {
    if receiver in l.exact { return Exact; }
    if l.domains == {} { return Impossible; }
    var membership := FindMembership(ms, l);
    if membership.None? { return Unusable; }
    var m := membership.value;
    if m.receiver != receiver || !m.digestOk || !ValidTimestamp(m.issuedAt) || !ValidTimestamp(m.expiresAt)
       || m.issuedAt >= m.expiresAt || now >= m.expiresAt || BeyondSkew(m.issuedAt, now, skew)
       || (now >= m.issuedAt && now - m.issuedAt >= maxAge)
    { return Unusable; }
    var malformed, overlap := DomainsMatch(m, l);
    if malformed { return Unusable; }
    return if overlap then Member(m) else Outsider(m.digest);
  }

  predicate SamePlace(a: Link, b: Link) { a.delegation == b.delegation && a.position == b.position }

  /** The first loop: every link well formed, none twice, the least age. */
  method CheckLinks(ls: seq<Link>) returns (ok: bool, maxAge: int)
    ensures ok == LinksOk(ls)
    ensures ok ==> maxAge == AgeLimit(ls)
  {
    maxAge := MAX_SAFE_INTEGER;
    for i := 0 to |ls|
      invariant forall k :: 0 <= k < i ==> LinkOk(ls[k])
      invariant forall j, k :: 0 <= j < k < i ==> !SamePlace(ls[j], ls[k])
      invariant maxAge == AgeLimit(ls[..i])
    {
      var seen := exists k :: 0 <= k < i && SamePlace(ls[k], ls[i]);
      if !LinkOk(ls[i]) || seen { return false, 0; }
      assert ls[..i + 1][..i] == ls[..i];
      if ls[i].domains != {} && ls[i].maxAge < maxAge { maxAge := ls[i].maxAge; }
    }
    assert ls[..|ls|] == ls;
    ok := ls != [];
  }

  method EvaluateAudience(ls: seq<Link>, receiver: string, ms: seq<Membership>, now: int, skew: int)
    returns (r: Result<Assessment>)
    ensures r == Evaluate(ls, receiver, ms, now, skew)
  {
    if receiver == "" || !ValidTimestamp(now) || !(0 <= skew <= MAX_FUTURE_SKEW) { return Failure; }
    var ok, maxAge := CheckLinks(ls);
    if !ok { return Failure; }
    var t := TallyLinks(ls, receiver, ms, now, skew, maxAge);
    if t.impossible { return Failure; }
    return Success(if t.denied then Assessment(Denied, t.evidence, 0)
                   else if t.unavailable then Assessment(Unverifiable, t.evidence, 0)
                   else Assessment(Passed, t.evidence, t.freshUntil));
  }

  /** The second loop; an impossible link ends it at once. */
  method TallyLinks(ls: seq<Link>, receiver: string, ms: seq<Membership>, now: int, skew: int, maxAge: int)
    returns (t: Tally)
    ensures t.impossible == TallyOf(ls, receiver, ms, now, skew, maxAge).impossible
    ensures !t.impossible ==> t == TallyOf(ls, receiver, ms, now, skew, maxAge)
  {
    t := Tally(false, false, false, {}, MAX_SAFE_INTEGER);
    for i := 0 to |ls|
      invariant t == TallyOf(ls[..i], receiver, ms, now, skew, maxAge) && !t.impossible
    {
      assert ls[..i + 1][..i] == ls[..i];
      var v := JudgeLink(ls[i], receiver, ms, now, skew, maxAge);
      t := Add(t, v, maxAge);
      if v == Impossible {
        ImpossibleStays(ls, i + 1, receiver, ms, now, skew, maxAge);
        return;
      }
    }
    assert ls[..|ls|] == ls;
  }

  lemma {:induction false} ImpossibleStays(ls: seq<Link>, n: nat, receiver: string, ms: seq<Membership>, now: int,
                                           skew: int, maxAge: int)
    requires n <= |ls| && TallyOf(ls[..n], receiver, ms, now, skew, maxAge).impossible
    ensures TallyOf(ls, receiver, ms, now, skew, maxAge).impossible
  {
    if n == |ls| {
      assert ls[..n] == ls;
    } else {
      assert ls[..|ls| - 1][..n] == ls[..n];
      ImpossibleStays(ls[..|ls| - 1], n, receiver, ms, now, skew, maxAge);
    }
  }

  /* ---- What a pass means ---- */

  /** The receiver is named, or the one membership on file still holds. */
  ghost predicate Holds(l: Link, receiver: string, ms: seq<Membership>, t: int) {
    || receiver in l.exact
    || exists m :: m in ms && At(m, l) && m.receiver == receiver && Overlaps(m, l)
                   && t < m.expiresAt && (t < m.issuedAt || t - m.issuedAt < l.maxAge)
  }

  lemma {:induction false} AgeLimitIsLeast(ls: seq<Link>, i: int)
    requires 0 <= i < |ls| && ls[i].domains != {}
    ensures AgeLimit(ls) <= ls[i].maxAge
  {
    if i < |ls| - 1 {
      assert ls[..|ls| - 1][i] == ls[i];
      AgeLimitIsLeast(ls[..|ls| - 1], i);
    }
  }

  lemma {:induction false} TallyMeans(ls: seq<Link>, receiver: string, ms: seq<Membership>, now: int, skew: int,
                                      maxAge: int, i: int)
    requires 0 <= i < |ls|
    ensures var t := TallyOf(ls, receiver, ms, now, skew, maxAge);
            match Judge(ls[i], receiver, ms, now, skew, maxAge)
            case Exact => true
            case Impossible => t.impossible
            case Unusable => t.unavailable
            case Outsider(_) => t.denied
            case Member(m) => t.freshUntil <= m.expiresAt && t.freshUntil <= m.issuedAt + maxAge
  {
    if i < |ls| - 1 {
      assert ls[..|ls| - 1][i] == ls[i];
      TallyMeans(ls[..|ls| - 1], receiver, ms, now, skew, maxAge, i);
    }
  }

  lemma {:induction false} ForIsFound(ms: seq<Membership>, l: Link)
    ensures forall m :: m in For(ms, l) ==> m in ms && At(m, l)
  {
    if ms != [] {
      ForIsFound(ms[..|ms| - 1], l);
    }
  }

  /** A pass relies, for every link, on the receiver's name or on a membership
      that stays unexpired and within the link's age limit until `freshUntil`. */
  lemma PassStaysValid(ls: seq<Link>, receiver: string, ms: seq<Membership>, now: int, skew: int, i: int, t: int)
    requires var r := Evaluate(ls, receiver, ms, now, skew);
             r.Success? && r.value.status == Passed && t < r.value.freshUntil
    requires 0 <= i < |ls|
    ensures Holds(ls[i], receiver, ms, t)
  {
    var maxAge := AgeLimit(ls);
    TallyMeans(ls, receiver, ms, now, skew, maxAge, i);
    var l := ls[i];
    match Judge(l, receiver, ms, now, skew, maxAge)
    case Member(m) =>
      ForIsFound(ms, l);
      AgeLimitIsLeast(ls, i);
      assert m == For(ms, l)[0];
    case _ =>
  }

  /** The horizon of a pass lies after the claim time. */
  lemma {:induction false} FreshUntilIsLater(ls: seq<Link>, receiver: string, ms: seq<Membership>, now: int, skew: int,
                                             maxAge: int)
    requires ValidTimestamp(now)
    requires forall i :: 0 <= i < |ls| ==> (match Judge(ls[i], receiver, ms, now, skew, maxAge)
                                           case Member(m) => now < m.issuedAt + maxAge
                                           case _ => true)
    ensures now < TallyOf(ls, receiver, ms, now, skew, maxAge).freshUntil
  {
    if ls != [] {
      forall i | 0 <= i < |ls| - 1 ensures ls[..|ls| - 1][i] == ls[i] {}
      FreshUntilIsLater(ls[..|ls| - 1], receiver, ms, now, skew, maxAge);
      var v := Judge(ls[|ls| - 1], receiver, ms, now, skew, maxAge);
    }
  }

  lemma {:induction false} AgeLimitPositive(ls: seq<Link>)
    requires forall i :: 0 <= i < |ls| ==> LinkOk(ls[i])
    ensures 0 < AgeLimit(ls)
  {
    if ls != [] { AgeLimitPositive(ls[..|ls| - 1]); }
  }

  lemma PassIsLater(ls: seq<Link>, receiver: string, ms: seq<Membership>, now: int, skew: int)
    requires var r := Evaluate(ls, receiver, ms, now, skew); r.Success? && r.value.status == Passed
    ensures now < Evaluate(ls, receiver, ms, now, skew).value.freshUntil
  {
    AgeLimitPositive(ls);
    FreshUntilIsLater(ls, receiver, ms, now, skew, AgeLimit(ls));
  }
}

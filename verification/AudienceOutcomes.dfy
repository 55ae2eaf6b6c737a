/** When the audience stage denies, cannot verify or passes, said of the links
    and the memberships alone (audience_v2.go:45-167). */
module AudienceOutcomes {
  import opened StatusTypes
  import opened Audience

  /** The membership is on file for the link's place in the chain. */
  predicate Concerns(m: Membership, l: Link) { m.delegation == l.delegation && m.position == l.position }

  /** `m` is the only membership on file for the link. */
  ghost predicate OnlyOne(ms: seq<Membership>, l: Link, m: Membership) {
    exists i :: && 0 <= i < |ms| && ms[i] == m && Concerns(m, l)
                && forall j :: 0 <= j < |ms| && Concerns(ms[j], l) ==> j == i
  }

  /** The membership is the receiver's, genuine, in force at the claim time, and
      not older than any link of the chain allows. */
  ghost predicate InForce(ls: seq<Link>, m: Membership, receiver: string, now: int, skew: int) {
    && m.receiver == receiver && m.digestOk
    && 0 <= m.issuedAt <= now + skew && now < m.expiresAt <= MAX_TIMESTAMP && m.issuedAt < m.expiresAt
    && (forall l :: l in ls && l.domains != {} ==> now - m.issuedAt < l.maxAge)
    && "" !in m.domains && (forall i, j :: 0 <= i < j < |m.domains| ==> m.domains[i] != m.domains[j])
  }

  /** The link names domains but not the receiver, and its one membership, in
      force, has none of them. */
  ghost predicate LinkDenies(ls: seq<Link>, l: Link, receiver: string, ms: seq<Membership>, now: int, skew: int) {
    && receiver !in l.exact && l.domains != {}
    && exists m :: && OnlyOne(ms, l, m) && InForce(ls, m, receiver, now, skew)
                   && forall d :: d in m.domains ==> d !in l.domains
  }

  /** The link names domains but not the receiver, and no membership is the only
      one and in force. */
  ghost predicate LinkOpen(ls: seq<Link>, l: Link, receiver: string, ms: seq<Membership>, now: int, skew: int) {
    && receiver !in l.exact && l.domains != {}
    && forall m :: OnlyOne(ms, l, m) ==> !InForce(ls, m, receiver, now, skew)
  }

  /** No receiver but a named one can meet the link. */
  predicate LinkExcludes(l: Link, receiver: string) { receiver !in l.exact && l.domains == {} }

  /** The links are well formed, each at its own place. */
  ghost predicate WellPlaced(ls: seq<Link>) {
    && ls != []
    && (forall l :: l in ls ==> l.sealed && 0 <= l.delegation && 0 <= l.position
                                && (l.domains != {} ==> 0 < l.maxAge <= 86400))
    && (forall i, j :: 0 <= i < j < |ls| ==>
          ls[i].delegation != ls[j].delegation || ls[i].position != ls[j].position)
  }

  /* ---- The membership of a link ---- */

  lemma {:induction false} ForKeeps(ms: seq<Membership>, l: Link, m: Membership)
    ensures m in For(ms, l) <==> m in ms && Concerns(m, l)
  {
    if ms != [] {
      ForKeeps(ms[..|ms| - 1], l, m);
      assert ms == ms[..|ms| - 1] + [ms[|ms| - 1]];
    }
  }

  lemma {:induction false} ForIsEmpty(ms: seq<Membership>, l: Link)
    ensures For(ms, l) == [] <==> forall j :: 0 <= j < |ms| ==> !Concerns(ms[j], l)
  {
    if ms != [] {
      var front := ms[..|ms| - 1];
      ForIsEmpty(front, l);
      assert forall j :: 0 <= j < |front| ==> front[j] == ms[j];
    }
  }

  lemma {:induction false} ForIsOne(ms: seq<Membership>, l: Link, m: Membership)
    ensures For(ms, l) == [m] <==> OnlyOne(ms, l, m)
  {
    if ms != [] {
      var front, last := ms[..|ms| - 1], ms[|ms| - 1];
      ForIsOne(front, l, m);
      ForIsEmpty(front, l);
      if Concerns(last, l) {
        OnlyOneLast(ms, l, m);
        assert For(ms, l)[|For(front, l)|] == last;
        assert forall j :: 0 <= j < |front| ==> front[j] == ms[j];
        assert For(ms, l) == [m] <==> For(front, l) == [] && m == last;
      } else {
        OnlyOneFront(ms, l, m);
      }
    }
  }

  lemma OnlyOneLast(ms: seq<Membership>, l: Link, m: Membership)
    requires ms != [] && Concerns(ms[|ms| - 1], l)
    ensures OnlyOne(ms, l, m) <==> m == ms[|ms| - 1] && forall j :: 0 <= j < |ms| - 1 ==> !Concerns(ms[j], l)
  {
    if m == ms[|ms| - 1] && forall j :: 0 <= j < |ms| - 1 ==> !Concerns(ms[j], l) { assert ms[|ms| - 1] == m; }
  }

  lemma OnlyOneFront(ms: seq<Membership>, l: Link, m: Membership)
    requires ms != [] && !Concerns(ms[|ms| - 1], l)
    ensures OnlyOne(ms, l, m) <==> OnlyOne(ms[..|ms| - 1], l, m)
  {
    var front := ms[..|ms| - 1];
    if OnlyOne(ms, l, m) {
      var i :| && 0 <= i < |ms| && ms[i] == m && Concerns(m, l)
               && forall j :: 0 <= j < |ms| && Concerns(ms[j], l) ==> j == i;
      assert front[i] == m;
      forall j | 0 <= j < |front| && Concerns(front[j], l) ensures j == i { assert ms[j] == front[j]; }
    }
    if OnlyOne(front, l, m) {
      var i :| && 0 <= i < |front| && front[i] == m && Concerns(m, l)
               && forall j :: 0 <= j < |front| && Concerns(front[j], l) ==> j == i;
      assert ms[i] == m;
      forall j | 0 <= j < |ms| && Concerns(ms[j], l) ensures j == i { if j < |front| { assert front[j] == ms[j]; } }
    }
  }

  /* ---- The age limit ---- */

  lemma {:induction false} AgeLimitExactly(ls: seq<Link>, age: int)
    requires age < MAX_SAFE_INTEGER
    ensures age < AgeLimit(ls) <==> forall l :: l in ls && l.domains != {} ==> age < l.maxAge
  {
    if ls != [] {
      AgeLimitExactly(ls[..|ls| - 1], age);
      assert ls == ls[..|ls| - 1] + [ls[|ls| - 1]];
    }
  }

  lemma {:induction false} UsableExactly(ls: seq<Link>, m: Membership, receiver: string, now: int, skew: int)
    requires ValidTimestamp(now) && 0 <= skew
    requires forall l :: l in ls && l.domains != {} ==> 0 < l.maxAge
    ensures Usable(m, receiver, now, skew, AgeLimit(ls)) <==> InForce(ls, m, receiver, now, skew)
  {
    if 0 <= m.issuedAt { AgeLimitExactly(ls, now - m.issuedAt); }
  }

  /* ---- One link ---- */

  lemma {:induction false} JudgeExactly(ls: seq<Link>, l: Link, receiver: string, ms: seq<Membership>, now: int,
                                       skew: int)
    requires ValidTimestamp(now) && 0 <= skew
    requires forall x :: x in ls && x.domains != {} ==> 0 < x.maxAge
    ensures var v := Judge(l, receiver, ms, now, skew, AgeLimit(ls));
            && (v.Impossible? <==> LinkExcludes(l, receiver))
            && (v.Outsider? <==> LinkDenies(ls, l, receiver, ms, now, skew))
            && (v.Unusable? <==> LinkOpen(ls, l, receiver, ms, now, skew))
            && (v.Exact? <==> receiver in l.exact)
            && (v.Member? ==> OnlyOne(ms, l, v.m) && InForce(ls, v.m, receiver, now, skew))
  {
    var found := For(ms, l);
    forall m ensures OnlyOne(ms, l, m) <==> found == [m] { ForIsOne(ms, l, m); }
    forall m ensures Usable(m, receiver, now, skew, AgeLimit(ls)) <==> InForce(ls, m, receiver, now, skew) {
      UsableExactly(ls, m, receiver, now, skew);
    }
    if |found| == 1 { assert found == [found[0]]; }
  }

  /* ---- The chain ---- */

  lemma {:induction false} TallyExactly(ls: seq<Link>, receiver: string, ms: seq<Membership>, now: int, skew: int,
                                        age: int)
    ensures var t := TallyOf(ls, receiver, ms, now, skew, age);
            && (t.impossible <==> exists l :: l in ls && Judge(l, receiver, ms, now, skew, age).Impossible?)
            && (t.denied <==> exists l :: l in ls && Judge(l, receiver, ms, now, skew, age).Outsider?)
            && (t.unavailable <==> exists l :: l in ls && Judge(l, receiver, ms, now, skew, age).Unusable?)
  {
    if ls != [] {
      TallyExactly(ls[..|ls| - 1], receiver, ms, now, skew, age);
      assert ls == ls[..|ls| - 1] + [ls[|ls| - 1]];
    }
  }

  /** The evaluation succeeds exactly for a well-formed call without a link that
      only excludes the receiver; it denies exactly if some link denies, and
      otherwise cannot verify exactly if some link is open. */
  lemma EvaluateExactly(ls: seq<Link>, receiver: string, ms: seq<Membership>, now: int, skew: int)
    ensures var r := Evaluate(ls, receiver, ms, now, skew);
            && (r.Success? <==>
                && receiver != "" && 0 <= now <= MAX_TIMESTAMP && 0 <= skew <= 300 && WellPlaced(ls)
                && forall l :: l in ls ==> !LinkExcludes(l, receiver))
            && (r.Success? ==>
                && (r.value.status == Denied <==> exists l :: l in ls && LinkDenies(ls, l, receiver, ms, now, skew))
                && (r.value.status == Unverifiable <==>
                    && (forall l :: l in ls ==> !LinkDenies(ls, l, receiver, ms, now, skew))
                    && exists l :: l in ls && LinkOpen(ls, l, receiver, ms, now, skew)))
  {
    assert LinksOk(ls) <==> WellPlaced(ls);
    if LinksOk(ls) && ValidTimestamp(now) && 0 <= skew {
      forall l | l in ls ensures l.domains != {} ==> 0 < l.maxAge {}
      TallyExactly(ls, receiver, ms, now, skew, AgeLimit(ls));
      forall l ensures var v := Judge(l, receiver, ms, now, skew, AgeLimit(ls));
                       && (v.Impossible? <==> LinkExcludes(l, receiver))
                       && (v.Outsider? <==> LinkDenies(ls, l, receiver, ms, now, skew))
                       && (v.Unusable? <==> LinkOpen(ls, l, receiver, ms, now, skew))
      {
        JudgeExactly(ls, l, receiver, ms, now, skew);
      }
    }
  }

  /* ---- Until when a pass lasts ---- */

  /** A membership of a link expires, or reaches an age limit of the chain. */
  ghost predicate RunsOut(ls: seq<Link>, receiver: string, ms: seq<Membership>, until: int) {
    exists l, m :: l in ls && receiver !in l.exact && OnlyOne(ms, l, m)
                   && (until == m.expiresAt || exists x :: x in ls && x.domains != {} && until == m.issuedAt + x.maxAge)
  }

  lemma {:induction false} AgeLimitIsSome(ls: seq<Link>)
    ensures AgeLimit(ls) == MAX_SAFE_INTEGER || exists x :: x in ls && x.domains != {} && AgeLimit(ls) == x.maxAge
  {
    if ls != [] {
      var front, last := ls[..|ls| - 1], ls[|ls| - 1];
      AgeLimitIsSome(front);
      assert ls == front + [last];
      if last.domains != {} && last.maxAge < AgeLimit(front) {
        assert last in ls;
      } else if AgeLimit(front) != MAX_SAFE_INTEGER {
        var x :| x in front && x.domains != {} && AgeLimit(front) == x.maxAge;
        assert x in ls;
      }
    }
  }

  /** The bound of a tally and the verdict that it comes from. */
  lemma {:induction false} TallyBound(ls: seq<Link>, receiver: string, ms: seq<Membership>, now: int, skew: int,
                                      age: int)
    ensures var until := TallyOf(ls, receiver, ms, now, skew, age).freshUntil;
            || until == MAX_SAFE_INTEGER
            || exists l :: l in ls && var v := Judge(l, receiver, ms, now, skew, age);
                           v.Member? && (until == v.m.expiresAt || until == v.m.issuedAt + age)
  {
    if ls != [] {
      var front, last := ls[..|ls| - 1], ls[|ls| - 1];
      TallyBound(front, receiver, ms, now, skew, age);
      assert ls == front + [last] && last in ls;
    }
  }

  /** The bound of a pass is where a membership behind it runs out, unless every
      link names the receiver. */
  lemma PassEndsExactly(ls: seq<Link>, receiver: string, ms: seq<Membership>, now: int, skew: int)
    requires var r := Evaluate(ls, receiver, ms, now, skew); r.Success? && r.value.status == Passed
    ensures var until := Evaluate(ls, receiver, ms, now, skew).value.freshUntil;
            until == MAX_SAFE_INTEGER || RunsOut(ls, receiver, ms, until)
  {
    var age := AgeLimit(ls);
    var until := Evaluate(ls, receiver, ms, now, skew).value.freshUntil;
    TallyBound(ls, receiver, ms, now, skew, age);
    AgeLimitIsSome(ls);
    if until != MAX_SAFE_INTEGER {
      var l :| l in ls && var v := Judge(l, receiver, ms, now, skew, age);
                          v.Member? && (until == v.m.expiresAt || until == v.m.issuedAt + age);
      var m := Judge(l, receiver, ms, now, skew, age).m;
      forall x | x in ls && x.domains != {} ensures 0 < x.maxAge <= MAX_MEMBERSHIP_AGE {}
      JudgeExactly(ls, l, receiver, ms, now, skew);
      AgeIsBounded(ls, l);
      assert OnlyOne(ms, l, m);
    }
  }

  lemma {:induction false} AgeIsBounded(ls: seq<Link>, l: Link)
    requires l in ls && l.domains != {} && l.maxAge <= MAX_MEMBERSHIP_AGE
    ensures AgeLimit(ls) < MAX_SAFE_INTEGER
  {
    var i :| 0 <= i < |ls| && ls[i] == l;
    AgeLimitIsLeast(ls, i);
  }

  /** The evidence is the digests of the memberships that decided links. */
  lemma {:induction false} TallyEvidence(ls: seq<Link>, receiver: string, ms: seq<Membership>, now: int, skew: int,
                                         age: int, d: string)
    ensures d in TallyOf(ls, receiver, ms, now, skew, age).evidence <==>
            exists l :: l in ls && var v := Judge(l, receiver, ms, now, skew, age);
                        v == Outsider(d) || (v.Member? && v.m.digest == d)
  {
    if ls != [] {
      TallyEvidence(ls[..|ls| - 1], receiver, ms, now, skew, age, d);
      assert ls == ls[..|ls| - 1] + [ls[|ls| - 1]];
    }
  }

  /** A digest is evidence exactly if it is that of the one membership, in
      force, of a link that does not name the receiver. */
  lemma EvidenceExactly(ls: seq<Link>, receiver: string, ms: seq<Membership>, now: int, skew: int, d: string)
    requires Evaluate(ls, receiver, ms, now, skew).Success?
    ensures d in Evaluate(ls, receiver, ms, now, skew).value.evidence <==>
            exists l, m :: l in ls && receiver !in l.exact && l.domains != {} && OnlyOne(ms, l, m)
                           && InForce(ls, m, receiver, now, skew) && m.digest == d
  {
    TallyEvidence(ls, receiver, ms, now, skew, AgeLimit(ls), d);
    forall l | l in ls
      ensures var v := Judge(l, receiver, ms, now, skew, AgeLimit(ls));
              (v == Outsider(d) || (v.Member? && v.m.digest == d)) <==>
              exists m :: receiver !in l.exact && l.domains != {} && OnlyOne(ms, l, m)
                          && InForce(ls, m, receiver, now, skew) && m.digest == d
    {
      JudgedEvidence(ls, l, receiver, ms, now, skew, d);
    }
  }

  lemma {:induction false} JudgedEvidence(ls: seq<Link>, l: Link, receiver: string, ms: seq<Membership>, now: int,
                                         skew: int, d: string)
    requires ValidTimestamp(now) && 0 <= skew && forall x :: x in ls && x.domains != {} ==> 0 < x.maxAge
    ensures var v := Judge(l, receiver, ms, now, skew, AgeLimit(ls));
            (v == Outsider(d) || (v.Member? && v.m.digest == d)) <==>
            exists m :: receiver !in l.exact && l.domains != {} && OnlyOne(ms, l, m)
                        && InForce(ls, m, receiver, now, skew) && m.digest == d
  {
    var found := For(ms, l);
    forall m ensures OnlyOne(ms, l, m) <==> found == [m] { ForIsOne(ms, l, m); }
    forall m ensures Usable(m, receiver, now, skew, AgeLimit(ls)) <==> InForce(ls, m, receiver, now, skew) {
      UsableExactly(ls, m, receiver, now, skew);
    }
    if |found| == 1 { assert found == [found[0]]; }
  }
}

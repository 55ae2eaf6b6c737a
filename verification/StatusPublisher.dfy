/** The publisher of the status feed (status_publisher_v2.go).  Each operation
    is a transition of the durable publisher state; a signature contributes the
    digest order of the signed object, which the caller of the model supplies. */
module StatusPublisher {
  import opened StatusTypes

  const MAX_PUSH_REFS: nat := 512
  const MAX_LIST_REFS: nat := 10000
  const MAX_ID_BYTES: nat := 512

  datatype Publisher = Publisher(issuer: IssuerId, key: KeyId, lifetime: int)

  datatype PublisherState = PublisherState(
    issuer: IssuerId, key: KeyId, sequence: int, updatedAt: int, revoked: set<CertId>)

  datatype Publication = Publication(state: PublisherState, list: RevocationList, push: Option<RevocationPush>)

  /** The digest bytes that signing produces, as far as order is concerned. */
  datatype Signing = Signing(rank: nat, digest: nat)

  /** NewV2StatusPublisher's bounds. */
  predicate ValidPublisher(p: Publisher) {
    p.issuer != "" && p.key != "" && 1 <= p.lifetime <= MAX_STATUS_LIFETIME
  }

  function SignList(p: Publisher, s: PublisherState, sequence: int, updatedAt: int, signing: Signing)
    : Result<Publication>
  {
    if ValidTimestamp(updatedAt) && ValidTimestamp(updatedAt + p.lifetime) then
      Success(Publication(
                s.(sequence := sequence, updatedAt := updatedAt),
                RevocationList(p.issuer, p.key, sequence, updatedAt, updatedAt + p.lifetime, s.revoked, signing.rank,
                               signing.digest),
                None))
    else Failure
  }

  function Genesis(p: Publisher, updatedAt: int, signing: Signing): Result<Publication> {
    SignList(p, PublisherState(p.issuer, p.key, 0, 0, {}), 1, updatedAt, signing)
  }

  predicate StateOk(p: Publisher, s: PublisherState, at: int) {
    && s.issuer == p.issuer && s.key == p.key
    && 1 <= s.sequence <= MAX_SAFE_INTEGER
    && ValidTimestamp(s.updatedAt)
    && s.updatedAt < at
  }

  function Heartbeat(p: Publisher, s: PublisherState, at: int, signing: Signing): Result<Publication> {
    if StateOk(p, s, at) then SignList(p, s, s.sequence, at, signing) else Failure
  }

  function Revoke(p: Publisher, s: PublisherState, ids: seq<CertId>, at: int, push: Signing, list: Signing)
    : Result<Publication>
  {
    var added := set id | id in ids;
    if && StateOk(p, s, at)
       && 0 < |ids| <= MAX_PUSH_REFS
       && Distinct(ids)
       && (forall id :: id in ids ==> 0 < |id| <= MAX_ID_BYTES && id !in s.revoked)
       && |s.revoked| + |ids| <= MAX_LIST_REFS
       && s.sequence + 1 <= MAX_SAFE_INTEGER
    then
      match SignList(p, s.(revoked := s.revoked + added), s.sequence + 1, at, list)
      case Success(out) =>
        Success(out.(push := Some(RevocationPush(p.issuer, p.key, s.sequence + 1, at, added, push.rank, push.digest))))
      case Failure => Failure
    else Failure
  }

  /* ---- Runs ---- */

  datatype Action =
    | Beat(at: int, signing: Signing)
    | Withdraw(ids: seq<CertId>, at: int, push: Signing, list: Signing)

  /** Everything a run has published.  `sets[n]` is the cumulative set at
      sequence n; index 0 is before the first list. */
  datatype Feed = Feed(
    state: PublisherState, lists: seq<RevocationList>, pushes: seq<RevocationPush>, sets: seq<set<CertId>>)

  function Publish(p: Publisher, f: Feed, a: Action): Feed {
    match a
    case Beat(at, signing) =>
      (match Heartbeat(p, f.state, at, signing)
       case Success(out) => f.(state := out.state, lists := f.lists + [out.list])
       case Failure => f)
    case Withdraw(ids, at, push, list) =>
      (match Revoke(p, f.state, ids, at, push, list)
       case Success(out) =>
         f.(state := out.state, lists := f.lists + [out.list],
            pushes := if out.push.Some? then f.pushes + [out.push.value] else f.pushes,
            sets := f.sets + [out.state.revoked])
       case Failure => f)
  }

  function PublishAll(p: Publisher, f: Feed, actions: seq<Action>): Feed {
    if actions == [] then f else Publish(p, PublishAll(p, f, actions[..|actions| - 1]), actions[|actions| - 1])
  }

  function Opened(out: Publication): Feed {
    Feed(out.state, [out.list], [], [{}, {}])
  }

  /* ---- What every feed satisfies ---- */

  ghost predicate Cumulative(f: Feed) {
    && |f.sets| == f.state.sequence + 1 && |f.sets| >= 2
    && f.sets[0] == {} && f.sets[1] == {}
    && f.sets[f.state.sequence] == f.state.revoked
    && forall i, j :: 0 <= i <= j < |f.sets| ==> f.sets[i] <= f.sets[j]
  }

  ghost predicate ListInFeed(f: Feed, l: RevocationList) {
    && AuthenticList(l, f.state.issuer, f.state.key)
    && l.sequence < |f.sets|
    && l.revoked == f.sets[l.sequence]
  }

  ghost predicate PushInFeed(f: Feed, q: RevocationPush) {
    && AuthenticPush(q, f.state.issuer, f.state.key)
    && 2 <= q.sequence < |f.sets|
    && q.revoked == f.sets[q.sequence] - f.sets[q.sequence - 1]
  }

  /** One push a sequence; update times strictly increase, so the last list is
      the newest one and carries the whole published set. */
  ghost predicate FeedOk(f: Feed) {
    && Cumulative(f)
    && (forall l :: l in f.lists ==> ListInFeed(f, l))
    && (forall q :: q in f.pushes ==> PushInFeed(f, q))
    && (forall q, r :: q in f.pushes && r in f.pushes && q.sequence == r.sequence ==> q == r)
    && |f.lists| > 0
    && (forall i, j :: 0 <= i < j < |f.lists| ==> f.lists[i].updatedAt < f.lists[j].updatedAt)
    && Newest(f).sequence == f.state.sequence && Newest(f).updatedAt == f.state.updatedAt
  }

  function Newest(f: Feed): RevocationList
    requires |f.lists| > 0
  {
    f.lists[|f.lists| - 1]
  }

  lemma GenesisOpens(p: Publisher, at: int, signing: Signing)
    requires ValidPublisher(p) && Genesis(p, at, signing).Success?
    ensures FeedOk(Opened(Genesis(p, at, signing).value))
    ensures Opened(Genesis(p, at, signing).value).state.issuer == p.issuer
    ensures Opened(Genesis(p, at, signing).value).state.key == p.key
  {
  }

  lemma BeatKeepsFeed(p: Publisher, f: Feed, at: int, signing: Signing)
    requires ValidPublisher(p) && FeedOk(f)
    ensures FeedOk(Publish(p, f, Beat(at, signing)))
    ensures Publish(p, f, Beat(at, signing)).state.issuer == f.state.issuer
    ensures Publish(p, f, Beat(at, signing)).state.key == f.state.key
  {
    var g := Publish(p, f, Beat(at, signing));
    forall l | l in g.lists ensures ListInFeed(g, l) {
      if l in f.lists { assert ListInFeed(f, l); }
      else { assert ListInFeed(f, Newest(f)); }
    }
  }

  /** What a revocation adds to a feed. */
  ghost predicate Extends(f: Feed, g: Feed, l: RevocationList, q: RevocationPush, added: set<CertId>) {
    && g.lists == f.lists + [l] && g.pushes == f.pushes + [q] && g.sets == f.sets + [f.state.revoked + added]
    && g.state.issuer == f.state.issuer && g.state.key == f.state.key && g.state.revoked == f.state.revoked + added
    && g.state.sequence == f.state.sequence + 1 == l.sequence == q.sequence
    && l.updatedAt == g.state.updatedAt > f.state.updatedAt
    && l.revoked == g.state.revoked && q.revoked == added && added !! f.state.revoked
    && AuthenticList(l, f.state.issuer, f.state.key) && AuthenticPush(q, f.state.issuer, f.state.key)
  }

  lemma WithdrawExtends(p: Publisher, f: Feed, ids: seq<CertId>, at: int, push: Signing, list: Signing)
    requires ValidPublisher(p) && FeedOk(f)
    ensures var g := Publish(p, f, Withdraw(ids, at, push, list));
            g == f || exists l, q, added :: Extends(f, g, l, q, added)
  {
    var g := Publish(p, f, Withdraw(ids, at, push, list));
    if g != f {
      assert ListInFeed(f, Newest(f)) && "" !in f.state.revoked;
      var added := set id | id in ids;
      assert Extends(f, g, g.lists[|f.lists|], g.pushes[|f.pushes|], added);
    }
  }

  lemma ExtendedFeedOk(f: Feed, g: Feed, l: RevocationList, q: RevocationPush, added: set<CertId>)
    requires FeedOk(f) && Extends(f, g, l, q, added)
    ensures FeedOk(g)
  {
    assert (f.state.revoked + added) - f.state.revoked == added;
    forall x | x in g.lists ensures ListInFeed(g, x) {
      if x in f.lists { assert ListInFeed(f, x); }
    }
    forall x | x in g.pushes ensures PushInFeed(g, x) {
      if x in f.pushes { assert PushInFeed(f, x); }
    }
    forall x | x in f.pushes ensures x.sequence != q.sequence { assert PushInFeed(f, x); }
    forall i, j | 0 <= i < j < |g.lists| ensures g.lists[i].updatedAt < g.lists[j].updatedAt {
      if i < |f.lists| - 1 { assert f.lists[i].updatedAt < Newest(f).updatedAt; }
    }
  }

  lemma WithdrawKeepsFeed(p: Publisher, f: Feed, ids: seq<CertId>, at: int, push: Signing, list: Signing)
    requires ValidPublisher(p) && FeedOk(f)
    ensures FeedOk(Publish(p, f, Withdraw(ids, at, push, list)))
    ensures Publish(p, f, Withdraw(ids, at, push, list)).state.issuer == f.state.issuer
    ensures Publish(p, f, Withdraw(ids, at, push, list)).state.key == f.state.key
  {
    var g := Publish(p, f, Withdraw(ids, at, push, list));
    WithdrawExtends(p, f, ids, at, push, list);
    if g != f {
      var l, q, added :| Extends(f, g, l, q, added);
      ExtendedFeedOk(f, g, l, q, added);
    }
  }

  /** Whatever a publisher does after genesis, its feed is cumulative, with
      exact pushes and lists that agree at every sequence. */
  lemma {:induction false} PublishedFeedOk(p: Publisher, f: Feed, actions: seq<Action>)
    requires ValidPublisher(p) && FeedOk(f)
    ensures FeedOk(PublishAll(p, f, actions))
    ensures PublishAll(p, f, actions).state.issuer == f.state.issuer
    ensures PublishAll(p, f, actions).state.key == f.state.key
  {
    if actions != [] {
      var front, a := actions[..|actions| - 1], actions[|actions| - 1];
      PublishedFeedOk(p, f, front);
      match a
      case Beat(at, signing) => BeatKeepsFeed(p, PublishAll(p, f, front), at, signing);
      case Withdraw(ids, at, push, list) => WithdrawKeepsFeed(p, PublishAll(p, f, front), ids, at, push, list);
    }
  }
}

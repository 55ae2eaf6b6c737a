/** When a publisher's action is published, and what then is, said of the
    action, the published set and the clock (status_publisher_v2.go:133-224). */
module PublisherActions {
  import opened StatusTypes
  import opened StatusPublisher

  /** A list can be dated now if it and its next update are timestamps. */
  predicate CanDate(p: Publisher, at: int) { 0 <= at <= MAX_TIMESTAMP && at + p.lifetime <= MAX_TIMESTAMP }

  /** The IDs are 1 to 512, each of 1 to 512 bytes, none twice, none revoked, and
      the whole list stays within 10000. */
  ghost predicate CanRevoke(revoked: set<CertId>, ids: seq<CertId>) {
    && 1 <= |ids| <= 512 && |revoked| + |ids| <= 10000
    && (forall i :: 0 <= i < |ids| ==> 1 <= |ids[i]| <= 512 && ids[i] !in revoked)
    && (forall i, j :: 0 <= i < j < |ids| ==> ids[i] != ids[j])
  }

  /** A publisher has a key for its issuer and lists that live up to a day. */
  predicate IsConfigured(p: Publisher) { p.issuer != "" && p.key != "" && 1 <= p.lifetime <= 86400 }

  /** The state belongs to the publisher, and the clock has gone on. */
  predicate Continues(p: Publisher, s: PublisherState, at: int) {
    && s.issuer == p.issuer && s.key == p.key && 1 <= s.sequence <= MAX_SAFE_INTEGER
    && 0 <= s.updatedAt <= MAX_TIMESTAMP && s.updatedAt < at
  }

  /** The full list of a state: signed by the publisher, dated, and due for an
      update one lifetime later. */
  predicate IsFullList(p: Publisher, s: PublisherState, l: RevocationList) {
    && l.issuer == p.issuer && l.signedBy == p.key && l.sequence == s.sequence && l.revoked == s.revoked
    && l.updatedAt == s.updatedAt && l.nextUpdate == l.updatedAt + p.lifetime
  }

  lemma GenesisExactly(p: Publisher, at: int, signing: Signing)
    requires IsConfigured(p)
    ensures var r := Genesis(p, at, signing);
            && (r.Success? <==> CanDate(p, at))
            && (r.Success? ==> && r.value.state == PublisherState(p.issuer, p.key, 1, at, {})
                               && IsFullList(p, r.value.state, r.value.list) && r.value.push == None)
  {
  }

  lemma HeartbeatExactly(p: Publisher, s: PublisherState, at: int, signing: Signing)
    requires IsConfigured(p)
    ensures var r := Heartbeat(p, s, at, signing);
            && (r.Success? <==> Continues(p, s, at) && CanDate(p, at))
            && (r.Success? ==> && r.value.state == s.(updatedAt := at)
                               && IsFullList(p, r.value.state, r.value.list) && r.value.push == None)
  {
  }

  /** A revocation takes the next sequence, with a push of exactly the new IDs
      and a full list of all of them. */
  lemma RevokeExactly(p: Publisher, s: PublisherState, ids: seq<CertId>, at: int, push: Signing, list: Signing)
    requires IsConfigured(p)
    ensures var r := Revoke(p, s, ids, at, push, list); var added := set id | id in ids;
            && (r.Success? <==>
                Continues(p, s, at) && s.sequence < MAX_SAFE_INTEGER && CanDate(p, at) && CanRevoke(s.revoked, ids))
            && (r.Success? ==>
                && r.value.state == PublisherState(p.issuer, p.key, s.sequence + 1, at, s.revoked + added)
                && IsFullList(p, r.value.state, r.value.list) && r.value.push.Some?
                && var q := r.value.push.value;
                   q.issuer == p.issuer && q.signedBy == p.key && q.sequence == s.sequence + 1 && q.pushedAt == at
                   && q.revoked == added)
  {
    if CanRevoke(s.revoked, ids) {
      forall id | id in ids ensures 0 < |id| <= MAX_ID_BYTES && id !in s.revoked {
        var i :| 0 <= i < |ids| && ids[i] == id;
      }
    }
    if forall id :: id in ids ==> 0 < |id| <= MAX_ID_BYTES && id !in s.revoked {
      forall i | 0 <= i < |ids| ensures 1 <= |ids[i]| <= 512 && ids[i] !in s.revoked { assert ids[i] in ids; }
    }
  }

  /* ---- Runs ---- */

  /** Every list of a feed is due one lifetime after its date. */
  ghost predicate OneLifetime(p: Publisher, f: Feed) {
    forall l :: l in f.lists ==> l.nextUpdate == l.updatedAt + p.lifetime
  }

  lemma {:induction false} FeedsKeepLifetime(p: Publisher, f: Feed, actions: seq<Action>)
    requires IsConfigured(p) && OneLifetime(p, f)
    ensures OneLifetime(p, PublishAll(p, f, actions))
  {
    if actions != [] {
      var front, a := actions[..|actions| - 1], actions[|actions| - 1];
      FeedsKeepLifetime(p, f, front);
      var before := PublishAll(p, f, front);
      match a
      case Beat(at, signing) => HeartbeatExactly(p, before.state, at, signing);
      case Withdraw(ids, at, push, list) => RevokeExactly(p, before.state, ids, at, push, list);
    }
  }

  /** On a feed of the publisher an action is published exactly if the clock has
      gone on and can be dated and, for a revocation, the IDs can be revoked and
      a sequence is left. */
  lemma PublishedExactly(p: Publisher, f: Feed, a: Action)
    requires IsConfigured(p) && FeedOk(f) && f.state.issuer == p.issuer && f.state.key == p.key
    requires f.state.sequence <= MAX_SAFE_INTEGER
    ensures var g := Publish(p, f, a);
            && (g.lists != f.lists <==>
                && f.state.updatedAt < a.at && CanDate(p, a.at)
                && (a.Withdraw? ==> f.state.sequence < MAX_SAFE_INTEGER && CanRevoke(f.state.revoked, a.ids)))
            && (g.lists == f.lists ==> g == f)
  {
    assert Newest(f) in f.lists && ListInFeed(f, Newest(f));
    match a
    case Beat(at, signing) => HeartbeatExactly(p, f.state, at, signing);
    case Withdraw(ids, at, push, list) => RevokeExactly(p, f.state, ids, at, push, list);
  }
}

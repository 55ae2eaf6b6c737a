/** Which updates a journal that the store can hold takes, and what they change,
    said of its roles, bindings and states (security_journal_v2.go:171-281,
    status_provenance_v2.go:309-359). */
module JournalChanges {
  import opened StatusTypes
  import opened StatusReducer
  import opened SecurityJournal
  import opened JournalRecords

  /** A key has one role for good. */
  predicate MayHaveRole(c: Content, key: KeyId, role: string) { key != "" && (key in c.roles ==> c.roles[key] == role) }

  /** Any role but that of a status key can be recorded for a key that has no
      other one. */
  lemma RecordRoleExactly(c: Content, role: string, key: KeyId)
    ensures var r := Change(c, RecordRole(role, key));
            && (r.Success? <==>
                && (role == "delegation" || role == "rotation" || role == "verifier" || role == "witness"
                    || role == "receiver" || role == "issuer" || role == "other")
                && MayHaveRole(c, key, role))
            && (r.Success? ==> r.value == c.(roles := c.roles[key := role]))
  {
    assert forall k: KeyId :: k in c.roles ==> c.roles[k := c.roles[k]] == c.roles;
  }

  /** The issuer is at this epoch with this key. */
  predicate IsAt(c: Content, issuer: IssuerId, epoch: int, key: KeyId) {
    issuer in c.states && c.states[issuer].epoch == epoch && c.states[issuer].keyId == key
  }

  /** The epoch is the next one of the issuer, or its first, and nobody ever had
      the key as a status key or in another role. */
  ghost predicate IsNext(c: Content, issuer: IssuerId, epoch: int, key: KeyId) {
    && epoch == (if issuer in c.states then c.states[issuer].epoch + 1 else 1) && epoch <= MAX_SAFE_INTEGER
    && (forall b :: b in c.bindings ==> b.key != key) && MayHaveRole(c, key, "status")
  }

  /** What the new epoch leaves of an issuer's state: the denials, the records
      and the keys that were; everything accepted and observed starts again. */
  predicate StartsAgain(s: State, t: State, key: KeyId) {
    && t.issuer == s.issuer && t.epoch == s.epoch + 1 && t.keyId == key && t.retired == s.retired + {s.keyId}
    && t.denyUnion == s.denyUnion && t.observations == s.observations
    && !t.hasFloor && t.floor == 0 && t.snapshot.None? && t.accepted == {}
    && !t.hasPreceding && t.precedingFloor == 0 && t.precedingAccepted == {}
    && t.maxObserved == 0 && t.forkSequence == 0 && !t.reconcile && !t.futureObserved
  }

  ghost predicate NextConfigured(c: Content, issuer: IssuerId, epoch: int, key: KeyId, d: Content) {
    && d.roles == c.roles[key := "status"] && d.bindings == c.bindings + {Binding(issuer, epoch, key)}
    && d.states.Keys == c.states.Keys + {issuer}
    && (forall i :: i in c.states && i != issuer ==> d.states[i] == c.states[i])
    && if issuer in c.states then StartsAgain(c.states[issuer], d.states[issuer], key)
       else d.states[issuer] == State(issuer, 1, key, {}, false, 0, None, {}, false, 0, {}, {}, [], 0, 0, false, false)
  }

  lemma BoundIsKnown(j: Journal, b: Binding)
    requires Committed(j) && b in j.content.bindings
    ensures b.issuer in j.content.states && 0 < b.epoch <= j.content.states[b.issuer].epoch
  {
    ValidHistories(j);
  }

  /** The state of an issuer and its binding. */
  lemma StateIsBound(j: Journal, issuer: IssuerId)
    requires Committed(j) && issuer in j.content.states
    ensures var s := j.content.states[issuer];
            && Binding(issuer, s.epoch, s.keyId) in j.content.bindings && BindingOk(s, issuer, s.epoch) && AcceptedOk(s)
            && s.issuer == issuer != "" && 0 < s.epoch <= MAX_SAFE_INTEGER
            && s.retired == set b | b in j.content.bindings && b.issuer == issuer && b.epoch < s.epoch :: b.key
  {
    assert HoldsState(j.content, issuer);
  }

  /** Two bindings of a key, or of an issuer at an epoch, are one. */
  lemma BindingsDiffer(j: Journal, a: Binding, b: Binding)
    requires Committed(j) && a in j.content.bindings && b in j.content.bindings
    requires a.key == b.key || (a.issuer == b.issuer && a.epoch == b.epoch)
    ensures a == b
  {
    ValidHistories(j);
  }

  /** An epoch is configured exactly if the issuer is at it with this key, which
      changes nothing, or if it is the next one with a new key. */
  lemma ConfigureExactly(j: Journal, issuer: IssuerId, epoch: int, key: KeyId)
    requires Committed(j) && issuer != ""
    ensures var c := j.content; var r := Change(c, ConfigureEpoch(issuer, epoch, key));
            && (r.Success? <==> IsAt(c, issuer, epoch, key) || IsNext(c, issuer, epoch, key))
            && (r.Success? ==> if IsAt(c, issuer, epoch, key) then r.value == c
                               else NextConfigured(c, issuer, epoch, key, r.value))
  {
    var c := j.content;
    if issuer in c.states { StateIsBound(j, issuer); }
    forall b | b in c.bindings ensures b.issuer in c.states && 0 < b.epoch <= c.states[b.issuer].epoch {
      BoundIsKnown(j, b);
    }
    if IsAt(c, issuer, epoch, key) {
      AtIsUnchanged(c, issuer, epoch, key);
    } else if Binding(issuer, epoch, key) in c.bindings {
      PastIsRefused(j, issuer, epoch, key);
    } else if IsNext(c, issuer, epoch, key) {
      NextIsTaken(j, issuer, epoch, key);
    } else {
      OtherIsRefused(j, issuer, epoch, key);
    }
  }

  lemma AtIsUnchanged(c: Content, issuer: IssuerId, epoch: int, key: KeyId)
    requires issuer != "" && key != "" && 0 < epoch <= MAX_SAFE_INTEGER && IsAt(c, issuer, epoch, key)
    requires Binding(issuer, epoch, key) in c.bindings
    ensures Configure(c, issuer, epoch, key) == Success(c)
  {
  }

  /** An earlier epoch of the issuer is not configured again. */
  lemma PastIsRefused(j: Journal, issuer: IssuerId, epoch: int, key: KeyId)
    requires Committed(j) && issuer != "" && Binding(issuer, epoch, key) in j.content.bindings
    requires !IsAt(j.content, issuer, epoch, key)
    ensures Configure(j.content, issuer, epoch, key).Failure? && !IsNext(j.content, issuer, epoch, key)
  {
    var c := j.content;
    BoundIsKnown(j, Binding(issuer, epoch, key));
    StateIsBound(j, issuer);
    if epoch == c.states[issuer].epoch {
      BindingsDiffer(j, Binding(issuer, epoch, key), Binding(issuer, epoch, c.states[issuer].keyId));
    }
    assert RegisterEpoch(c, issuer, epoch, key) in {Success(c), Failure};
  }

  lemma NextIsTaken(j: Journal, issuer: IssuerId, epoch: int, key: KeyId)
    requires Committed(j) && issuer != "" && IsNext(j.content, issuer, epoch, key)
    ensures var r := Configure(j.content, issuer, epoch, key);
            r.Success? && NextConfigured(j.content, issuer, epoch, key, r.value)
  {
    var c := j.content;
    forall b | b in c.bindings && b.issuer == issuer ensures issuer in c.states && b.epoch < epoch {
      BoundIsKnown(j, b);
    }
    if issuer in c.states {
      StateIsBound(j, issuer);
      var s := c.states[issuer];
      assert IsBound(c, issuer, epoch - 1) by { assert Binding(issuer, s.epoch, s.keyId) in c.bindings; }
      assert key !in s.retired && key != s.keyId;
    }
    RegisterNext(c, issuer, epoch, key);
  }

  lemma RegisterNext(c: Content, issuer: IssuerId, epoch: int, key: KeyId)
    requires issuer != "" && 0 < epoch <= MAX_SAFE_INTEGER && MayHaveRole(c, key, "status")
    requires forall b :: b in c.bindings ==> b.key != key && (b.issuer == issuer ==> b.epoch < epoch)
    requires epoch == 1 || IsBound(c, issuer, epoch - 1)
    ensures RegisterEpoch(c, issuer, epoch, key)
            == Success(c.(roles := c.roles[key := "status"], bindings := c.bindings + {Binding(issuer, epoch, key)}))
  {
    assert IsNextEpoch(c, issuer, epoch);
    if key in c.roles { assert c.roles[key := "status"] == c.roles; }
  }

  /** Any other epoch or key is refused. */
  lemma OtherIsRefused(j: Journal, issuer: IssuerId, epoch: int, key: KeyId)
    requires Committed(j) && issuer != "" && Binding(issuer, epoch, key) !in j.content.bindings
    requires !IsNext(j.content, issuer, epoch, key)
    ensures Configure(j.content, issuer, epoch, key).Failure?
  {
    var c := j.content;
    var r := RegisterEpoch(c, issuer, epoch, key);
    if r.Success? {
      assert r.value.states == c.states;
      if issuer in c.states { StateIsBound(j, issuer); }
    }
  }

  /* ---- Deliveries ---- */

  /** Objects are delivered exactly under the issuer's current key, all of them
      apply, and in a status stage the key is none of the proof's own; only that
      issuer's state changes. */
  lemma DeliverExactly(j: Journal, u: Update)
    requires Committed(j) && u.Deliver?
    ensures var c := j.content; var r := Change(c, u);
            && (r.Success? <==>
                && IsAt(c, u.issuer, u.epoch, u.key) && (u.stage ==> u.key !in u.proofKeys)
                && ApplyObjects(c.states[u.issuer], u.objects, u).Success?)
            && (r.Success? ==>
                r.value == c.(states := c.states[u.issuer := ApplyObjects(c.states[u.issuer], u.objects, u).value]))
  {
    var c := j.content;
    if IsAt(c, u.issuer, u.epoch, u.key) {
      StateIsBound(j, u.issuer);
      KeyHasRole(j, Binding(u.issuer, u.epoch, u.key));
    }
  }

  lemma KeyHasRole(j: Journal, b: Binding)
    requires Committed(j) && b in j.content.bindings
    ensures b.key in j.content.roles && j.content.roles[b.key] == "status"
  {
    ValidHistories(j);
  }
}

/** What a released decision rests on, said of the claim, the receipt, the
    checkpoint and the clock alone (release_v2.go:314-447). */
module ReleaseGrounds {
  import opened StatusTypes
  import opened Release

  /** The claim as loaded is the sealed one, final and not abandoned. */
  predicate IsSealed(k: Claim, c: Committed) {
    && !k.abandoned && k.terminal && k.body == c.body
    && k.challengeExpiresAt == c.challengeExpiresAt && k.allowHorizon == c.allowHorizon
  }

  /** The receipt is a genuine one of the configured log and verifier for the
      committed body. */
  predicate IsGenuine(c: Committed, receipt: Option<Published>, config: Config) {
    && config.verifier == c.verifier && receipt.Some? && receipt.value.genuine && receipt.value.entry.Entry?
    && receipt.value.entry.log == config.log && receipt.value.entry.body == c.body && c.body.verifier == c.verifier
  }

  /** The checkpoint holds the entry at its place, at that time, and its
      predecessor one place before. */
  predicate IsAcknowledged(e: Entry, acks: Checkpoint, time: int)
    requires e.Entry?
  {
    && (e.log, e.sequence) in acks && acks[(e.log, e.sequence)] == Ack(e, time)
    && (e.sequence > 1 ==> (e.log, e.sequence - 1) in acks && acks[(e.log, e.sequence - 1)].entry == e.previous)
  }

  /** The times are in order and every deadline lies ahead of both. */
  predicate IsInTime(k: Claim, c: Committed, ack: int, clock: Clock) {
    && clock.Reading? && ValidTimestamp(k.finalizedAt) && ValidTimestamp(ack) && k.finalizedAt <= ack <= clock.time
    && clock.time < c.challengeExpiresAt && (c.body.decision == Allow ==> clock.time < c.allowHorizon)
  }

  /** Nothing is on record yet, or this very release is. */
  predicate IsUnrecorded(k: Claim, c: Committed, e: Entry, ack: int) {
    k.release.None? || k.release == Some(Record(c.claim, e, ack, Released, NoReason))
  }

  /** The facts that a release needs. */
  ghost predicate Releasable(k: Claim, c: Committed, receipt: Option<Published>, config: Config, acks: Checkpoint,
                             clock: Clock, ack: int)
  {
    && IsSealed(k, c) && IsGenuine(c, receipt, config) && IsAcknowledged(receipt.value.entry, acks, ack)
    && IsInTime(k, c, ack, clock) && IsUnrecorded(k, c, receipt.value.entry, ack)
  }

  /** The result that then is returned. */
  function Decided(c: Committed, e: Entry, ack: int): Release.Result {
    Actionable(c.claim, c.body.decision, e, ack, c.challengeExpiresAt,
               if c.body.decision == Allow then c.allowHorizon else 0)
  }

  lemma GrantsExactly(k: Claim, c: Committed, receipt: Option<Published>, config: Config, acks: Checkpoint,
                      clock: Clock)
    ensures var v := Judge(k, c, receipt, config, acks, clock);
            && (v.Grant? <==> exists ack :: Releasable(k, c, receipt, config, acks, clock, ack))
            && (v.Grant? ==> Releasable(k, c, receipt, config, acks, clock, v.record.ackTime)
                             && v.result == Decided(c, receipt.value.entry, v.record.ackTime)
                             && v.record == Record(c.claim, receipt.value.entry, v.record.ackTime, Released, NoReason))
            && (v.Stop? ==> !v.result.Actionable?)
  {
    var v := Judge(k, c, receipt, config, acks, clock);
    if v.Grant? { assert Releasable(k, c, receipt, config, acks, clock, v.record.ackTime); }
  }

  /** The record that is there is one of this claim, with a reason that fits. */
  predicate RecordFits(r: Record, c: Committed) {
    && r.claim == c.claim
    && (if r.outcome == Released then r.reason == NoReason
        else r.reason == ClockRegressed || r.reason == ChallengeExpired || r.reason == AllowHorizonPassed)
  }

  /** The answer without a record and without a decision: the first thing that
      is wrong, in the order of the steps. */
  ghost predicate Refuses(k: Claim, c: Committed, receipt: Option<Published>, config: Config, acks: Checkpoint,
                          clock: Clock, r: Release.Result)
  {
    if k.abandoned then r == Held(ReceiptAbandoned)
    else if !IsSealed(k, c) || config.verifier != c.verifier || (k.release.Some? && !RecordFits(k.release.value, c))
    then r == Rejected(StateMismatch)
    else if k.release.Some? && k.release.value.outcome == Withheld then r == Held(k.release.value.reason)
    else if receipt.None? then r == Pending(NotAppended)
    else
      var e := receipt.value.entry;
      if !receipt.value.genuine || e.Genesis? || e.log != config.log || e.body.verifier != c.verifier
      then r == Rejected(ReceiptInvalid)
      else if e.body != c.body then r == Rejected(BodyMismatch)
      else if k.release.Some? && k.release.value.entry != e then r == Rejected(StateMismatch)
      else if e.sequence > 1 && (e.log, e.sequence - 1) !in acks then r == Pending(AckUnavailable)
      else if e.sequence > 1 && acks[(e.log, e.sequence - 1)].entry != e.previous
      then r == Rejected(PredecessorMismatch)
      else if (e.log, e.sequence) !in acks then r == Pending(AckUnavailable)
      else if acks[(e.log, e.sequence)].entry != e then r == Rejected(AckMismatch)
      else if k.release.Some? && k.release.value.ackTime != acks[(e.log, e.sequence)].time
      then r == Rejected(StateMismatch)
      else clock == NoReading && r == Pending(ClockUnavailable)
  }

  lemma StopsExactly(k: Claim, c: Committed, receipt: Option<Published>, config: Config, acks: Checkpoint, clock: Clock)
    ensures var v := Judge(k, c, receipt, config, acks, clock);
            (v.Stop? <==> exists r :: Refuses(k, c, receipt, config, acks, clock, r))
            && (v.Stop? ==> Refuses(k, c, receipt, config, acks, clock, v.result))
  {
    var v := Judge(k, c, receipt, config, acks, clock);
    if v.Stop? { assert Refuses(k, c, receipt, config, acks, clock, v.result); }
  }

  /** Why an acknowledged receipt is withheld for good: the clock went back or
      the times are out of order, before an expired challenge, before a passed
      horizon. */
  function WithheldFor(k: Claim, c: Committed, ack: int, clock: Clock): Release.Reason {
    if || !clock.Reading? || !ValidTimestamp(k.finalizedAt) || !ValidTimestamp(ack)
       || !(k.finalizedAt <= ack <= clock.time) then ClockRegressed
    else if clock.time >= c.challengeExpiresAt then ChallengeExpired
    else AllowHorizonPassed
  }

  /** A withheld record is due exactly when everything but the time is right
      and the clock gives an answer. */
  lemma WithholdsExactly(k: Claim, c: Committed, receipt: Option<Published>, config: Config, acks: Checkpoint,
                         clock: Clock)
    ensures var v := Judge(k, c, receipt, config, acks, clock);
            && (v.Withhold? <==>
                && IsSealed(k, c) && IsGenuine(c, receipt, config) && clock != NoReading
                && exists ack :: IsAcknowledged(receipt.value.entry, acks, ack) && !IsInTime(k, c, ack, clock)
                                 && IsUnrecorded(k, c, receipt.value.entry, ack))
            && (v.Withhold? ==> var ack := v.record.ackTime;
                                && IsAcknowledged(receipt.value.entry, acks, ack)
                                && v.record == Record(c.claim, receipt.value.entry, ack, Withheld,
                                                      WithheldFor(k, c, ack, clock)))
  {
    var v := Judge(k, c, receipt, config, acks, clock);
    if v.Withhold? { assert IsAcknowledged(receipt.value.entry, acks, v.record.ackTime); }
  }

  /* ---- An undisturbed call ---- */

  /** A call that no other event came between, and whose record the store took
      and confirmed, is released exactly under these facts, with these values,
      and leaves the record of it. */
  lemma UndisturbedExactly(c: Committed, s: System, i: nat, receipt: Option<Published>, config: Config, clock: Clock)
    requires i in s.calls && s.calls[i] == Loaded(s.claim)
    ensures var t := Next(c, s, Finish(i, receipt, config, clock, Answers));
            && i in t.calls && t.calls[i].Returned?
            && (t.calls[i].result.Actionable? <==>
                exists ack :: Releasable(s.claim, c, receipt, config, s.acks, clock, ack))
            && forall ack :: Releasable(s.claim, c, receipt, config, s.acks, clock, ack) ==>
                 && t.calls[i].result == Decided(c, receipt.value.entry, ack)
                 && t.claim.release == Some(Record(c.claim, receipt.value.entry, ack, Released, NoReason))
  {
    GrantsExactly(s.claim, c, receipt, config, s.acks, clock);
  }

  /* ---- A call that others came before ---- */

  /** The store has room for the record: there is none, or it is the same. */
  predicate TakesRecord(k: Claim, r: Record) { k.release == None || k.release == Some(r) }

  /** What a call that had loaded the claim earlier returns and leaves: it is
      released exactly under the facts as they were loaded, if the record since
      then, by whatever calls, is none or its own.  A record of another outcome
      stands, and the call is refused. */
  lemma LateCallExactly(c: Committed, s: System, i: nat, receipt: Option<Published>, config: Config, clock: Clock,
                        ack: int)
    requires SystemOk(c, s) && i in s.calls && s.calls[i].Loaded?
    requires Releasable(s.calls[i].claim, c, receipt, config, s.acks, clock, ack)
    ensures var t := Next(c, s, Finish(i, receipt, config, clock, Answers));
            var r := Record(c.claim, receipt.value.entry, ack, Released, NoReason);
            && i in t.calls
            && t.calls[i] == Returned(if TakesRecord(s.claim, r) then Decided(c, receipt.value.entry, ack)
                                      else Rejected(StateMismatch), clock)
            && t.claim == if TakesRecord(s.claim, r) then s.claim.(release := Some(r)) else s.claim
  {
    var k := s.calls[i].claim;
    GrantsExactly(k, c, receipt, config, s.acks, clock);
    assert CallOk(c, s.claim, s.calls[i]);
  }

  /** When the store fails, a first release is pending, recorded or not; one that
      was on record when it was loaded is returned all the same. */
  lemma FailingStoreExactly(c: Committed, s: System, i: nat, receipt: Option<Published>, config: Config, clock: Clock,
                            ack: int, reply: Reply)
    requires SystemOk(c, s) && i in s.calls && s.calls[i].Loaded? && reply != Answers
    requires Releasable(s.calls[i].claim, c, receipt, config, s.acks, clock, ack)
    ensures var t := Next(c, s, Finish(i, receipt, config, clock, reply)); var loaded := s.calls[i].claim.release;
            var r := Record(c.claim, receipt.value.entry, ack, Released, NoReason);
            && i in t.calls
            && t.calls[i] == Returned(
                 if loaded.Some? then Decided(c, receipt.value.entry, ack)
                 else if reply == FailsAfter && !TakesRecord(s.claim, r) then Rejected(StateMismatch)
                 else Pending(StoreUnavailable), clock)
            && t.claim
               == if reply == FailsAfter && TakesRecord(s.claim, r) then s.claim.(release := Some(r)) else s.claim
  {
    var k := s.calls[i].claim;
    GrantsExactly(k, c, receipt, config, s.acks, clock);
    assert CallOk(c, s.claim, s.calls[i]);
  }

  /** A late call that is to be withheld leaves the record of it if there is none
      yet; another record stands, and if it came in between the call is refused. */
  lemma LateWithheldExactly(c: Committed, s: System, i: nat, receipt: Option<Published>, config: Config, clock: Clock,
                            ack: int)
    requires SystemOk(c, s) && i in s.calls && s.calls[i].Loaded?
    requires var k := s.calls[i].claim;
             && IsSealed(k, c) && IsGenuine(c, receipt, config) && clock != NoReading
             && IsAcknowledged(receipt.value.entry, s.acks, ack) && !IsInTime(k, c, ack, clock)
             && IsUnrecorded(k, c, receipt.value.entry, ack)
    ensures var t := Next(c, s, Finish(i, receipt, config, clock, Answers)); var loaded := s.calls[i].claim;
            var reason := WithheldFor(loaded, c, ack, clock);
            var r := Record(c.claim, receipt.value.entry, ack, Withheld, reason);
            && i in t.calls
            && t.calls[i] == Returned(if loaded.release.Some? || TakesRecord(s.claim, r) then Held(reason)
                                      else Rejected(StateMismatch), clock)
            && t.claim
               == if loaded.release.None? && TakesRecord(s.claim, r) then s.claim.(release := Some(r)) else s.claim
  {
    var k := s.calls[i].claim;
    WithholdsExactly(k, c, receipt, config, s.acks, clock);
    assert CallOk(c, s.claim, s.calls[i]);
  }

  /* ---- Every run ---- */

  /** The acknowledgements only grow. */
  lemma {:induction false} AcksStay(c: Committed, start: Claim, events: seq<Event>, n: nat)
    requires n <= |events|
    ensures forall p :: p in Run(c, start, events[..n]).acks ==>
              p in Run(c, start, events).acks && Run(c, start, events).acks[p] == Run(c, start, events[..n]).acks[p]
  {
    if n == |events| {
      assert events[..n] == events;
    } else {
      var front := events[..|events| - 1];
      assert front[..n] == events[..n];
      AcksStay(c, start, front, n);
    }
  }

  /** The event that returned the result, and the claim that it had loaded. */
  ghost predicate ReturnedBy(c: Committed, start: Claim, events: seq<Event>, i: nat, n: nat, k: Claim) {
    && n < |events| && events[n].Finish? && events[n].call == i
    && i in Run(c, start, events[..n]).calls && Run(c, start, events[..n]).calls[i] == Loaded(k)
  }

  lemma {:induction false} ReturnedOnce(c: Committed, start: Claim, events: seq<Event>, i: nat)
    returns (n: nat, k: Claim)
    requires i in Run(c, start, events).calls && Run(c, start, events).calls[i].Returned?
    ensures ReturnedBy(c, start, events, i, n, k)
    ensures i in Run(c, start, events[..n + 1]).calls
    ensures Run(c, start, events).calls[i] == Run(c, start, events[..n + 1]).calls[i]
  {
    var front, e := events[..|events| - 1], events[|events| - 1];
    var before := Run(c, start, front);
    if i in before.calls && before.calls[i].Returned? {
      n, k := ReturnedOnce(c, start, front, i);
      assert front[..n] == events[..n] && front[..n + 1] == events[..n + 1];
    } else {
      n, k := |front|, before.calls[i].claim;
      assert events[..n + 1] == events;
    }
  }

  /** The claim that a call had loaded is an earlier state of the claim. */
  lemma {:induction false} LoadedEarlier(c: Committed, start: Claim, events: seq<Event>, i: nat) returns (m: nat)
    requires i in Run(c, start, events).calls && Run(c, start, events).calls[i].Loaded?
    ensures m <= |events| && Run(c, start, events).calls[i].claim == Run(c, start, events[..m]).claim
  {
    var front := events[..|events| - 1];
    var before := Run(c, start, front);
    if i in before.calls {
      m := LoadedEarlier(c, start, front, i);
      assert front[..m] == events[..m];
    } else {
      m := |front|;
    }
  }

  /** Whenever a result carries a decision, however the calls interleaved, the
      claim that its call had loaded was the sealed one, its receipt was
      genuine, the checkpoint holds its entry and the predecessor, and every
      deadline lay ahead of the reading of its call. */
  lemma {:induction false} ReleasedRestsOn(c: Committed, start: Claim, events: seq<Event>, i: nat)
    returns (n: nat, m: nat)
    requires var s := Run(c, start, events);
             i in s.calls && s.calls[i].Returned? && s.calls[i].result.Actionable?
    ensures var s := Run(c, start, events); var r := s.calls[i].result;
            && n < |events| && events[n].Finish? && events[n].call == i && s.calls[i].clock == events[n].clock
            && m <= n && Releasable(Run(c, start, events[..m]).claim, c, events[n].receipt, events[n].config, s.acks,
                                    events[n].clock, r.releaseTime)
            && r == Decided(c, events[n].receipt.value.entry, r.releaseTime)
  {
    var k;
    n, k := ReturnedOnce(c, start, events, i);
    var before := Run(c, start, events[..n]);
    m := LoadedEarlier(c, start, events[..n], i);
    assert events[..n][..m] == events[..m] && events[..n + 1][..n] == events[..n];
    var e := events[n];
    GrantsExactly(k, c, e.receipt, e.config, before.acks, e.clock);
    AcksStay(c, start, events, n);
    assert Run(c, start, events[..n + 1]) == Next(c, before, e);
  }

  /** A returned decision may be acted on exactly while it is the committed allow
      and both of its deadlines lie ahead. */
  lemma {:induction false} ActedOnExactly(c: Committed, start: Claim, events: seq<Event>, i: nat, now: int)
    requires 0 <= now && i in Run(c, start, events).calls && Run(c, start, events).calls[i].Returned?
    ensures var r := Run(c, start, events).calls[i].result;
            Allowed(r, now) <==>
            r.Actionable? && c.body.decision == Allow && now < c.challengeExpiresAt && now < c.allowHorizon
  {
    if Run(c, start, events).calls[i].result.Actionable? {
      var n, m := ReleasedRestsOn(c, start, events, i);
    }
  }
}

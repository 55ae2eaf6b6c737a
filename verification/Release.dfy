/** Release of a committed decision (release_v2.go): an ordered chain of checks
    against a store that keeps the first release record, a checkpoint whose
    acknowledgements never change, and a clock.  A hash is modelled by the
    entry it is computed from. */
module Release {
  import opened StatusTypes

  datatype Decision = Allow | Deny | Indeterminate

  /** The receipt outbox body; `payload` is everything the release ignores. */
  datatype Body = Body(verifier: KeyId, decision: Decision, payload: string)

  /** A log entry: a body at its place in the receipt log. */
  datatype Entry = Genesis | Entry(log: string, sequence: int, previous: Entry, body: Body)

  /** A published receipt.  `genuine` says that it decodes and its signature
      verifies under the configured verifier key. */
  datatype Published = Published(entry: Entry, genuine: bool)

  datatype Committed = Committed(claim: string, verifier: KeyId, body: Body, challengeExpiresAt: int, allowHorizon: int)

  datatype Reason =
    | NoReason | ClockRegressed | ChallengeExpired | AllowHorizonPassed | ReceiptAbandoned
    | StateMismatch | StoreUnavailable | NotAppended | ReceiptInvalid | BodyMismatch
    | AckUnavailable | PredecessorMismatch | AckMismatch | ClockUnavailable

  datatype Outcome = Released | Withheld

  datatype Record = Record(claim: string, entry: Entry, ackTime: int, outcome: Outcome, reason: Reason)

  datatype Claim = Claim(
    terminal: bool, body: Body, challengeExpiresAt: int, allowHorizon: int, finalizedAt: int,
    abandoned: bool, release: Option<Record>)

  datatype Ack = Ack(entry: Entry, time: int)

  /** The acknowledgements by log and sequence. */
  type Checkpoint = map<(string, int), Ack>

  datatype Config = Config(log: string, verifier: KeyId)

  datatype Clock = Reading(time: int) | Regressed | NoReading

  /** What a release call returns: only `Actionable` carries a decision. */
  datatype Result =
    | Actionable(claim: string, decision: Decision, entry: Entry, releaseTime: int, challengeExpiresAt: int,
                 allowHorizon: int)
    | Pending(reason: Reason)
    | Held(reason: Reason)
    | Rejected(reason: Reason)

  predicate ValidRecord(r: Record) {
    match r.outcome
    case Released => r.reason == NoReason
    case Withheld => r.reason in {ClockRegressed, ChallengeExpired, AllowHorizonPassed}
  }

  /** What the checks before the record say to do. */
  datatype Verdict = Stop(result: Result) | Withhold(record: Record) | Grant(record: Record, result: Result)

  /** Steps 1 to 4: the loaded claim and the published receipt agree. */
  function Bound(k: Claim, c: Committed, receipt: Option<Published>, config: Config): Option<Result> {
    if k.abandoned then Some(Held(ReceiptAbandoned))
    else if !k.terminal || k.body != c.body || k.challengeExpiresAt != c.challengeExpiresAt
            || k.allowHorizon != c.allowHorizon || config.verifier != c.verifier then Some(Rejected(StateMismatch))
    else if k.release.Some? && (k.release.value.claim != c.claim || !ValidRecord(k.release.value)) then
      Some(Rejected(StateMismatch))
    else if k.release.Some? && k.release.value.outcome == Withheld then Some(Held(k.release.value.reason))
    else if receipt.None? then Some(Pending(NotAppended))
    else
      var e := receipt.value.entry;
      if !receipt.value.genuine || e.Genesis? || e.log != config.log || e.body.verifier != c.verifier then
        Some(Rejected(ReceiptInvalid))
      else if e.body != c.body then Some(Rejected(BodyMismatch))
      else if k.release.Some? && k.release.value.entry != e then Some(Rejected(StateMismatch))
      else None
  }

  /** Steps 5 and 6: predecessor and acknowledgement. */
  function Acknowledged(k: Claim, e: Entry, acks: Checkpoint): Option<Result>
    requires e.Entry?
  {
    if e.sequence > 1 && (e.log, e.sequence - 1) !in acks then Some(Pending(AckUnavailable))
    else if e.sequence > 1 && acks[(e.log, e.sequence - 1)].entry != e.previous then Some(Rejected(PredecessorMismatch))
    else if (e.log, e.sequence) !in acks then Some(Pending(AckUnavailable))
    else if acks[(e.log, e.sequence)].entry != e then Some(Rejected(AckMismatch))
    else if k.release.Some? && k.release.value.ackTime != acks[(e.log, e.sequence)].time then
      Some(Rejected(StateMismatch))
    else None
  }

  /** Steps 7 and 8: clock and deadlines, for an acknowledged entry. */
  function Timely(k: Claim, c: Committed, e: Entry, ack: int, clock: Clock): Verdict
    requires e.Entry?
  {
    var withheld := (reason: Reason) => Withhold(Record(c.claim, e, ack, Withheld, reason));
    match clock
    case Regressed => withheld(ClockRegressed)
    case NoReading => Stop(Pending(ClockUnavailable))
    case Reading(now) =>
      if !ValidTimestamp(k.finalizedAt) || !ValidTimestamp(ack) || k.finalizedAt > ack || ack > now then
        withheld(ClockRegressed)
      else if ack >= c.challengeExpiresAt || now >= c.challengeExpiresAt then withheld(ChallengeExpired)
      else if e.body.decision == Allow && (c.allowHorizon <= 0 || ack >= c.allowHorizon || now >= c.allowHorizon)
      then withheld(AllowHorizonPassed)
      else Grant(Record(c.claim, e, ack, Released, NoReason),
                 Actionable(c.claim, e.body.decision, e, ack, c.challengeExpiresAt,
                            if e.body.decision == Allow then c.allowHorizon else 0))
  }

  /** Everything between the load and the record. */
  function Judge(k: Claim, c: Committed, receipt: Option<Published>, config: Config, acks: Checkpoint, clock: Clock)
    : Verdict
  {
    var bound := Bound(k, c, receipt, config);
    if bound.Some? then Stop(bound.value)
    else if receipt.None? || receipt.value.entry.Genesis? then Stop(Rejected(ReceiptInvalid))
    else
      var e := receipt.value.entry;
      var acknowledged := Acknowledged(k, e, acks);
      if acknowledged.Some? then Stop(acknowledged.value)
      else if (e.log, e.sequence) !in acks then Stop(Pending(AckUnavailable))
      else Timely(k, c, e, acks[(e.log, e.sequence)].time, clock)
  }

  /* ---- The store ---- */

  /** How the store answers a write: it may fail before or after it took
      effect. */
  datatype Reply = Answers | FailsBefore | FailsAfter

  /** The first record wins; the same record again is accepted. */
  predicate Accepts(k: Claim, r: Record) { k.release.None? || k.release == Some(r) }

  function Write(k: Claim, r: Record, reply: Reply): Claim {
    if Accepts(k, r) && reply != FailsBefore then k.(release := Some(r)) else k
  }

  /** Steps 9 and 10, and the recording of a withheld result.  `loaded` is the
      claim as this call read it, `k` the claim as it is now. */
  function Conclude(loaded: Claim, k: Claim, v: Verdict, reply: Reply): (Claim, Result) {
    match v
    case Stop(result) => (k, result)
    case Withhold(r) =>
      if loaded.release.Some? then (k, Held(r.reason))
      else if reply != FailsBefore && !Accepts(k, r) then (k, Rejected(StateMismatch))
      else (Write(k, r, reply), Held(r.reason))
    case Grant(r, result) =>
      if loaded.release.Some? then (k, result)
      else if reply != FailsBefore && !Accepts(k, r) then (k, Rejected(StateMismatch))
      else (Write(k, r, reply), if reply == Answers then result else Pending(StoreUnavailable))
  }

  /** V2ReleasedDecision.Allowed */
  predicate Allowed(r: Result, now: int) {
    r.Actionable? && r.decision == Allow && r.allowHorizon > 0 && now < r.challengeExpiresAt && now < r.allowHorizon
  }

  /** The store as an object, for one claim. */
  class ReleaseStore {
    var claim: Claim

    constructor (k: Claim)
      ensures claim == k
    { claim := k; }

    method RecordRelease(r: Record, reply: Reply) returns (ok: bool, mismatch: bool)
      modifies this
      ensures claim == Write(old(claim), r, reply)
      ensures mismatch == (reply != FailsBefore && !Accepts(old(claim), r))
      ensures ok == (reply == Answers && Accepts(old(claim), r))
    {
      mismatch := reply != FailsBefore && !Accepts(claim, r);
      ok := reply == Answers && !mismatch;
      if Accepts(claim, r) && reply != FailsBefore { claim := claim.(release := Some(r)); }
    }

    /** A release call that nothing interleaves with. */
    method ReleaseDecision(c: Committed, receipt: Option<Published>, config: Config, acks: Checkpoint, clock: Clock,
                           reply: Reply)
      returns (result: Result)
      modifies this
      ensures (claim, result) == Conclude(old(claim), old(claim), Judge(old(claim), c, receipt, config, acks, clock),
                                          reply)
    {
      var loaded := claim;
      var verdict := Judge(loaded, c, receipt, config, acks, clock);
      match verdict
      case Stop(stopped) => return stopped;
      case Withhold(r) =>
        if loaded.release.None? {
          var ok, mismatch := RecordRelease(r, reply);
          if mismatch { return Rejected(StateMismatch); }
        }
        return Held(r.reason);
      case Grant(r, granted) =>
        if loaded.release.None? {
          var ok, mismatch := RecordRelease(r, reply);
          if mismatch { return Rejected(StateMismatch); }
          if !ok { return Pending(StoreUnavailable); }
        }
        return granted;
    }
  }

  /* ---- Interleaved calls ---- */

  /** A call has loaded the claim, or has returned at some clock reading. */
  datatype Call = Loaded(claim: Claim) | Returned(result: Result, clock: Clock)

  datatype System = System(claim: Claim, acks: Checkpoint, calls: map<nat, Call>)

  datatype Event =
    | Load(call: nat)
    | Finish(call: nat, receipt: Option<Published>, config: Config, clock: Clock, reply: Reply)
    | Acknowledge(entry: Entry, time: int)
    | Abandon

  /** An acknowledgement is immutable: a second one for a place is ignored. */
  function Next(c: Committed, s: System, e: Event): System {
    match e
    case Load(i) => if i in s.calls then s else s.(calls := s.calls[i := Loaded(s.claim)])
    case Finish(i, receipt, config, clock, reply) =>
      if i !in s.calls || !s.calls[i].Loaded? then s
      else
        var loaded := s.calls[i].claim;
        var (k, result) := Conclude(loaded, s.claim, Judge(loaded, c, receipt, config, s.acks, clock), reply);
        s.(claim := k, calls := s.calls[i := Returned(result, clock)])
    case Acknowledge(entry, time) =>
      if entry.Genesis? || (entry.log, entry.sequence) in s.acks then s
      else s.(acks := s.acks[(entry.log, entry.sequence) := Ack(entry, time)])
    case Abandon => s.(claim := s.claim.(abandoned := true))
  }

  function Run(c: Committed, start: Claim, events: seq<Event>): System {
    if events == [] then System(start, map[], map[])
    else Next(c, Run(c, start, events[..|events| - 1]), events[|events| - 1])
  }

  /** Whether `later` keeps what a load of `earlier` saw. */
  ghost predicate Keeps(earlier: Claim, later: Claim) {
    && later.finalizedAt == earlier.finalizedAt
    && (earlier.release.Some? ==> later.release == earlier.release)
  }

  /** The deadlines that a released result met, at the reading of its call. */
  ghost predicate InTime(c: Committed, k: Claim, r: Result, clock: Clock)
    requires r.Actionable?
  {
    && clock.Reading?
    && k.finalizedAt <= r.releaseTime <= clock.time < c.challengeExpiresAt
    && (r.decision == Allow ==> clock.time < c.allowHorizon && r.allowHorizon == c.allowHorizon)
    && r.challengeExpiresAt == c.challengeExpiresAt
  }

  /** A released result is the one on record. */
  ghost predicate OnRecord(c: Committed, k: Claim, r: Result)
    requires r.Actionable?
  {
    k.release == Some(Record(c.claim, r.entry, r.releaseTime, Released, NoReason))
  }

  ghost predicate CallOk(c: Committed, k: Claim, call: Call) {
    match call
    case Loaded(earlier) => Keeps(earlier, k)
    case Returned(r, clock) => r.Actionable? ==> OnRecord(c, k, r) && InTime(c, k, r, clock)
  }

  ghost predicate SystemOk(c: Committed, s: System) {
    forall i :: i in s.calls ==> CallOk(c, s.claim, s.calls[i])
  }

  lemma GrantMeans(k: Claim, c: Committed, receipt: Option<Published>, config: Config, acks: Checkpoint, clock: Clock)
    requires Judge(k, c, receipt, config, acks, clock).Grant?
    ensures var v := Judge(k, c, receipt, config, acks, clock);
            && v.result.Actionable?
            && v.record == Record(c.claim, v.result.entry, v.result.releaseTime, Released, NoReason)
            && InTime(c, k, v.result, clock)
            && (k.release.Some? ==> k.release == Some(v.record))
    ensures c.claim == Judge(k, c, receipt, config, acks, clock).result.claim
  {
    var e := receipt.value.entry;
    var ack := acks[(e.log, e.sequence)].time;
    assert Judge(k, c, receipt, config, acks, clock) == Timely(k, c, e, ack, clock);
    if k.release.Some? {
      var r := k.release.value;
      assert r.outcome == Released && r.reason == NoReason && r.claim == c.claim;
      assert r == Record(c.claim, e, ack, Released, NoReason);
    }
  }

  lemma StopIsNotActionable(k: Claim, c: Committed, receipt: Option<Published>, config: Config, acks: Checkpoint,
                            clock: Clock)
    ensures var v := Judge(k, c, receipt, config, acks, clock); v.Stop? ==> !v.result.Actionable?
  {
  }

  lemma ConcludeOk(c: Committed, loaded: Claim, k: Claim, v: Verdict, reply: Reply, clock: Clock)
    requires Keeps(loaded, k)
    requires v.Stop? ==> !v.result.Actionable?
    requires v.Grant? ==> && v.result.Actionable? && InTime(c, loaded, v.result, clock)
                          && v.record == Record(c.claim, v.result.entry, v.result.releaseTime, Released, NoReason)
                          && (loaded.release.Some? ==> loaded.release == Some(v.record))
    ensures var (m, r) := Conclude(loaded, k, v, reply);
            Keeps(k, m) && (r.Actionable? ==> OnRecord(c, m, r) && InTime(c, m, r, clock))
  {
  }

  lemma NextOk(c: Committed, s: System, e: Event)
    requires SystemOk(c, s)
    ensures SystemOk(c, Next(c, s, e)) && Keeps(s.claim, Next(c, s, e).claim)
  {
    var t := Next(c, s, e);
    match e
    case Finish(i, receipt, config, clock, reply) =>
      if i in s.calls && s.calls[i].Loaded? {
        var loaded := s.calls[i].claim;
        assert CallOk(c, s.claim, s.calls[i]);
        var v := Judge(loaded, c, receipt, config, s.acks, clock);
        StopIsNotActionable(loaded, c, receipt, config, s.acks, clock);
        if v.Grant? { GrantMeans(loaded, c, receipt, config, s.acks, clock); }
        ConcludeOk(c, loaded, s.claim, v, reply, clock);
        forall j | j in t.calls ensures CallOk(c, t.claim, t.calls[j]) {
          if j != i { assert CallOk(c, s.claim, s.calls[j]); }
        }
      }
    case Abandon =>
      forall j | j in t.calls ensures CallOk(c, t.claim, t.calls[j]) { assert CallOk(c, s.claim, s.calls[j]); }
    case _ =>
  }

  lemma {:induction false} RunOk(c: Committed, start: Claim, events: seq<Event>)
    ensures SystemOk(c, Run(c, start, events)) && Keeps(start, Run(c, start, events).claim)
  {
    if events != [] {
      RunOk(c, start, events[..|events| - 1]);
      NextOk(c, Run(c, start, events[..|events| - 1]), events[|events| - 1]);
    }
  }

  /** Two released results of one claim, however their calls interleaved with
      each other and with anything else, carry the same entry and the same
      acknowledgement time, and each met every deadline at its own reading. */
  lemma {:induction false} ReleasedResultsAgree(c: Committed, start: Claim, events: seq<Event>, i: nat, j: nat)
    requires var s := Run(c, start, events);
             && i in s.calls && s.calls[i].Returned? && s.calls[i].result.Actionable?
             && j in s.calls && s.calls[j].Returned? && s.calls[j].result.Actionable?
    ensures var s := Run(c, start, events); var a, b := s.calls[i].result, s.calls[j].result;
            a.entry == b.entry && a.releaseTime == b.releaseTime
            && InTime(c, start, a, s.calls[i].clock) && InTime(c, start, b, s.calls[j].clock)
  {
    RunOk(c, start, events);
    var s := Run(c, start, events);
    assert CallOk(c, s.claim, s.calls[i]) && CallOk(c, s.claim, s.calls[j]);
  }

  lemma {:induction false} RecordStays(c: Committed, start: Claim, events: seq<Event>, n: nat)
    requires n <= |events|
    ensures Keeps(Run(c, start, events[..n]).claim, Run(c, start, events).claim)
  {
    if n == |events| {
      assert events[..n] == events;
    } else {
      var front := events[..|events| - 1];
      assert front[..n] == events[..n];
      RecordStays(c, start, front, n);
      RunOk(c, start, front);
      NextOk(c, Run(c, start, front), events[|events| - 1]);
    }
  }

  /** Once a withheld record exists, no call has returned or will return a
      released result, even one that loaded the claim before the record. */
  lemma {:induction false} WithheldIsFinal(c: Committed, start: Claim, events: seq<Event>, n: nat, i: nat)
    requires n <= |events|
    requires var k := Run(c, start, events[..n]).claim; k.release.Some? && k.release.value.outcome == Withheld
    requires var s := Run(c, start, events); i in s.calls && s.calls[i].Returned?
    ensures !Run(c, start, events).calls[i].result.Actionable?
  {
    RecordStays(c, start, events, n);
    RunOk(c, start, events);
    assert CallOk(c, Run(c, start, events).claim, Run(c, start, events).calls[i]);
  }
}

/** The early heartbeat at a journal: configured, delivered the list twice, and
    then delivered the heartbeat, whose commit the journal refuses. */
module RefusedHeartbeat {
  import opened StatusTypes
  import opened StatusCompaction
  import opened StatusReducer
  import opened ReducerInvariant
  import opened ReducerSteps
  import opened ForkMarker
  import opened SecurityJournal
  import opened CompareAndSwap
  import opened JournalRecords
  import opened JournalCommits
  import opened EarlyHeartbeat
  import Runs = ReducerRuns
  import Writers = JournalWriters

  /** A journal of the one issuer. */
  function One(s: State): Content { Content(map["i" := s], map["k" := "status"], {Binding("i", 1, "k")}) }

  function Arrival(l: RevocationList, now: int): Update {
    Deliver("i", 1, "k", [ListEvidence(l)], HOUR, now, false, {})
  }

  predicate IsOurs(s: State) { s.issuer == "i" && s.epoch == 1 && s.keyId == "k" }

  function Applied(s: State, l: RevocationList, now: int): Result<State> {
    Runs.Attempt(s, Runs.ListOp(l, "i", 1, "k", HOUR, now))
  }

  lemma ArrivalApplies(s: State, l: RevocationList, now: int)
    ensures ApplyObjects(s, [ListEvidence(l)], Arrival(l, now)) == Applied(s, l, now)
  {
    var e, u := ListEvidence(l), Arrival(l, now);
    assert [e][..0] == [];
    OpIs(s, e, u);
    assert ApplyObjects(s, [], u) == Success(s);
  }

  lemma ArrivalChanges(s: State, l: RevocationList, now: int, t: State)
    requires IsOurs(s) && Applied(s, l, now) == Success(t)
    ensures Change(One(s), Arrival(l, now)) == Success(One(t))
  {
    ArrivalApplies(s, l, now);
    DeliveryGives(One(s), Arrival(l, now), t);
    OneUpdated(s, t);
  }

  lemma DeliveryGives(c: Content, u: Update, t: State)
    requires u.Deliver? && CurrentKey(c, u.issuer, u.epoch, u.key) && (u.stage ==> RolesSeparated(c, u))
    requires ApplyObjects(c.states[u.issuer], u.objects, u) == Success(t)
    ensures Change(c, u) == Success(c.(states := c.states[u.issuer := t]))
  {
  }

  lemma OneUpdated(s: State, t: State)
    ensures One(s).(states := One(s).states["i" := t]) == One(t)
  {
    assert One(s).states["i" := t] == One(t).states;
  }

  lemma PrunedOne(t: State)
    requires Compact(t) == t
    ensures Prune(One(t)) == One(t)
  {
    PrunedFrame(One(t));
    PrunedState(One(t), "i");
    IsOne(Prune(One(t)), t);
  }

  lemma IsOne(c: Content, t: State)
    ensures c.roles == One(t).roles && c.bindings == One(t).bindings && c.states.Keys == One(t).states.Keys ==>
            (c.states["i"] == t ==> c == One(t))
  {
    if c.states.Keys == {"i"} && c.states["i"] == t { assert c.states == map["i" := t]; }
  }

  lemma OneDiffers(s: State, t: State)
    requires s != t
    ensures One(s) != One(t)
  {
    assert One(s).states["i"] != One(t).states["i"];
  }

  lemma OfferNext(j: Journal, d: Content)
    requires d != j.content && !OfferContent(j, d).Refused?
    ensures OfferContent(j, d) == Proposed(Journal(j.generation + 1, Some(j), d))
  {
  }

  /** The arrival of a list that is not refusable is committed. */
  lemma ArrivalCommits(j: Journal, s: State, l: RevocationList, now: int, t: State)
    requires Committed(j) && j.content == One(s) && j.generation < MAX_SAFE_INTEGER
    requires IsOurs(s) && Applied(s, l, now) == Success(t) && Compact(t) == t && t != s
    requires !IsRefusable(s, ListEvidence(l), Arrival(l, now))
    ensures Propose(j, Arrival(l, now)) == Proposed(Journal(j.generation + 1, Some(j), One(t)))
  {
    var u := Arrival(l, now);
    ArrivalChanges(s, l, now, t);
    CommitRefusedExactly(j, u, ListEvidence(l));
    ProposalOf(j, u, One(t));
    PrunedOne(t);
    OneDiffers(s, t);
    OfferNext(j, One(t));
  }

  /* ---- The first record ---- */

  lemma ConfigureGives()
    ensures Change(EMPTY.content, ConfigureEpoch("i", 1, "k")) == Success(One(Configured("i", "k")))
  {
    var c := EMPTY.content;
    assert IsNextEpoch(c, "i", 1);
    assert c.bindings + {Binding("i", 1, "k")} == {Binding("i", 1, "k")};
    assert RegisterRole(c, "status", "k") == Success(c.(roles := map["k" := "status"]));
    assert RegisterEpoch(c, "i", 1, "k")
        == Success(c.(roles := map["k" := "status"], bindings := {Binding("i", 1, "k")}));
  }

  lemma ConfiguredIsOk()
    ensures HoldsState(One(Configured("i", "k")), "i")
  {
    var s := Configured("i", "k");
    assert s.retired == set b | b in One(s).bindings && b.issuer == "i" && b.epoch < s.epoch :: b.key;
    assert Witnessed(s.observations) == {};
  }

  lemma OneIsOk(s: State)
    requires HoldsState(One(s), "i") && s.epoch == 1
    ensures ValidTransition(EMPTY, Journal(1, Some(EMPTY), One(s)))
  {
    var j := Journal(1, Some(EMPTY), One(s));
    assert ValidJournal(EMPTY);
    assert BindingsOk(One(s));
    assert HistoriesOk(One(s));
    ValidIs(j);
  }

  lemma ConfiguredIsCompact()
    ensures Compact(Configured("i", "k")) == Configured("i", "k")
  {
  }

  lemma Starts()
    ensures Propose(EMPTY, ConfigureEpoch("i", 1, "k")) == Proposed(Journal(1, Some(EMPTY), One(Configured("i", "k"))))
  {
    var s := Configured("i", "k");
    ConfigureGives();
    ConfiguredIsOk();
    OneIsOk(s);
    ProposalOf(EMPTY, ConfigureEpoch("i", 1, "k"), One(s));
    ConfiguredIsCompact();
    PrunedOne(s);
    OfferIs(EMPTY, One(s));
    OfferNext(EMPTY, One(s));
  }

  /* ---- The history ---- */

  lemma {:induction false} OneMoreCommit(log: seq<Entry<Update>>, j: Journal, e: Entry<Update>, next: Journal)
    requires Sequential(Writers.JournalProtocol(), log) == j && Propose(j, e.update) == Proposed(next)
    ensures Sequential(Writers.JournalProtocol(), log + [e]) == next
  {
    assert (log + [e])[..|log|] == log;
    SequentialStep(Writers.JournalProtocol(), log + [e], j, Propose(j, e.update));
  }

  lemma {:induction false} ArrivalExtends(log: seq<Entry<Update>>, j: Journal, s: State, w: nat, l: RevocationList,
                                          now: int, t: State)
    requires Sequential(Writers.JournalProtocol(), log) == j && j.content == One(s) && j.generation < MAX_SAFE_INTEGER
    requires IsOurs(s) && Applied(s, l, now) == Success(t) && Compact(t) == t && t != s
    requires !IsRefusable(s, ListEvidence(l), Arrival(l, now))
    ensures Sequential(Writers.JournalProtocol(), log + [Entry(w, Arrival(l, now))])
            == Journal(j.generation + 1, Some(j), One(t))
  {
    HistoryIsCommitted(log);
    ArrivalCommits(j, s, l, now, t);
    OneMoreCommit(log, j, Entry(w, Arrival(l, now)), Journal(j.generation + 1, Some(j), One(t)));
  }

  lemma FirstIsNotRefusable()
    ensures !IsRefusable(Configured("i", "k"), ListEvidence(FIRST), Arrival(FIRST, 0))
  {
  }

  lemma AgainIsNotRefusable()
    requires BoundInv(AfterFirst())
    ensures !IsRefusable(AfterFirst(), ListEvidence(FIRST), Arrival(FIRST, 1000))
  {
    FirstIsReevaluated();
    FirstIsAcceptable();
    DuplicateIsAbsorbed(AfterFirst(), FIRST);
  }

  const CONFIGURED: seq<Entry<Update>> := [Entry(0, ConfigureEpoch("i", 1, "k"))]
  const ACCEPTED: seq<Entry<Update>> :=
    CONFIGURED + [Entry(1, Arrival(FIRST, 0))] + [Entry(2, Arrival(FIRST, 1000))]

  /** The record after the log is the `n`-th and holds the state. */
  ghost predicate EndsWith(log: seq<Entry<Update>>, n: int, s: State) {
    var j := Sequential(Writers.JournalProtocol(), log);
    j.generation == n && j.content == One(s)
  }

  lemma ConfiguredFirst()
    ensures EndsWith(CONFIGURED, 1, Configured("i", "k"))
  {
    Starts();
    OneMoreCommit([], EMPTY, CONFIGURED[0], Journal(1, Some(EMPTY), One(Configured("i", "k"))));
    assert [] + [CONFIGURED[0]] == CONFIGURED;
  }

  /** The arrival makes `t` of `s`, and nothing is wrong with it. */
  ghost predicate Goes(s: State, l: RevocationList, now: int, t: State) {
    && IsOurs(s) && Applied(s, l, now) == Success(t) && Compact(t) == t && t != s
    && !IsRefusable(s, ListEvidence(l), Arrival(l, now))
  }

  lemma ArrivalEnds(log: seq<Entry<Update>>, n: int, s: State, w: nat, l: RevocationList, now: int, t: State)
    requires n < MAX_SAFE_INTEGER
    ensures EndsWith(log, n, s) && Goes(s, l, now, t) ==> EndsWith(log + [Entry(w, Arrival(l, now))], n + 1, t)
  {
    if EndsWith(log, n, s) && Goes(s, l, now, t) {
      ArrivalExtends(log, Sequential(Writers.JournalProtocol(), log), s, w, l, now, t);
    }
  }

  lemma FirstGoes()
    ensures Goes(Configured("i", "k"), FIRST, 0, AfterFirst())
  {
    FirstApplies();
    FirstIsNotRefusable();
  }

  lemma AgainGoes()
    ensures Goes(AfterFirst(), FIRST, 1000, InForce())
  {
    FirstApplies();
    WithheldIsBound();
    AgainApplies();
    AgainIsNotRefusable();
  }

  lemma AcceptedLast()
    ensures EndsWith(ACCEPTED, 3, InForce())
  {
    ConfiguredFirst();
    FirstGoes();
    AgainGoes();
    TwoArrivals(CONFIGURED, Configured("i", "k"), AfterFirst(), InForce(), FIRST, 0, FIRST, 1000);
  }

  lemma TwoArrivals(log: seq<Entry<Update>>, r: State, s: State, t: State,
                    a: RevocationList, at: int, b: RevocationList, bt: int)
    ensures EndsWith(log, 1, r) && Goes(r, a, at, s) && Goes(s, b, bt, t) ==>
            EndsWith(log + [Entry(1, Arrival(a, at))] + [Entry(2, Arrival(b, bt))], 3, t)
  {
    ArrivalEnds(log, 1, r, 1, a, at, s);
    ArrivalEnds(log + [Entry(1, Arrival(a, at))], 2, s, 2, b, bt, t);
  }

  lemma FirstApplies()
    ensures Applied(Configured("i", "k"), FIRST, 0) == Success(AfterFirst()) && Compact(AfterFirst()) == AfterFirst()
    ensures AfterFirst() != Configured("i", "k") && IsOurs(AfterFirst())
  {
    FirstIsWithheld();
    ConfiguredIsBound();
    FirstIsAuthentic();
    BoundListApplies(Configured("i", "k"), FIRST, HOUR, 0);
    CompactOne(AfterFirst(), FirstRecord());
  }

  lemma AgainApplies()
    requires BoundInv(AfterFirst())
    ensures Applied(AfterFirst(), FIRST, 1000) == Success(InForce()) && Compact(InForce()) == InForce()
    ensures InForce() != AfterFirst() && IsOurs(InForce())
  {
    FirstIsAccepted();
    FirstIsAuthentic();
    BoundListApplies(AfterFirst(), FIRST, HOUR, 1000);
    InForceIsCompact();
  }

  /** The journal is one that the store can hold, the reducer applies the
      heartbeat to it, and the commit is refused. */
  lemma CommitFails()
    ensures var j := Sequential(Writers.JournalProtocol(), ACCEPTED); var u := Arrival(HEARTBEAT, 1000);
            Change(j.content, u).Success? && Propose(j, u) == Refused
  {
    var j, u := Sequential(Writers.JournalProtocol(), ACCEPTED), Arrival(HEARTBEAT, 1000);
    AcceptedLast();
    HistoryIsCommitted(ACCEPTED);
    HeartbeatApplies(j);
    HeartbeatDisplaces();
    CommitRefusedExactly(j, u, ListEvidence(HEARTBEAT));
  }

  lemma HeartbeatApplies(j: Journal)
    requires Committed(j) && j.content == One(InForce())
    ensures Change(j.content, Arrival(HEARTBEAT, 1000)).Success?
  {
    CommittedState(j, "i");
    BoundListApplies(InForce(), HEARTBEAT, HOUR, 1000);
    ArrivalChanges(InForce(), HEARTBEAT, 1000, Applied(InForce(), HEARTBEAT, 1000).value);
  }
}

/** Writers that load a record, compute a replacement and commit it by
    compare-and-swap, in any interleaving, with one reload for those that may
    retry (security_journal_v2.go:95-165, status_provenance_v2.go:142-168).
    What a record is and how an update changes it are parameters. */
module CompareAndSwap {

  datatype Proposal<J> = Refused | Unchanged | Proposed(next: J)

  /** `usable` is the check of a load, `propose` everything between the load
      and the swap, `retries` whether a conflict is retried once. */
  datatype Protocol<!J, !U> = Protocol(initial: J, usable: J -> bool, propose: (J, U) -> Proposal<J>,
                                       retries: U -> bool)

  /** `since` counts the commits before the load that the writer works on,
      `at` those up to the point where it took effect.  The swap of an unheard
      writer took effect, but the writer saw an error. */
  datatype Writer<J, U> =
    | Loaded(update: U, base: J, since: nat, retried: bool)
    | Conflicted(update: U)
    | Succeeded(update: U, result: J, since: nat, at: nat, changed: bool)
    | Unheard(update: U, at: nat)
    | Failed(update: U)

  datatype Entry<U> = Entry(writer: nat, update: U)

  /** The store's record, the commits made to it in order, and the writers. */
  datatype System<J, U> = System(record: J, log: seq<Entry<U>>, writers: map<nat, Writer<J, U>>)

  /** A finish may lose the store's reply to the swap. */
  datatype Event<U> = Load(w: nat, u: U) | Finish(w: nat, heard: bool) | Reload(w: nat) | Abort(w: nat)

  function Set<J, U>(s: System<J, U>, w: nat, x: Writer<J, U>): System<J, U> {
    s.(writers := s.writers[w := x])
  }

  function LoadInto<J(==), U>(p: Protocol<J, U>, s: System<J, U>, w: nat, u: U, retried: bool): System<J, U> {
    Set(s, w, if p.usable(s.record) then Loaded(u, s.record, |s.log|, retried) else Failed(u))
  }

  function Swapped<J, U>(x: Writer<J, U>, next: J, at: nat, heard: bool): Writer<J, U>
    requires x.Loaded?
  {
    if heard then Succeeded(x.update, next, x.since, at, true) else Unheard(x.update, at)
  }

  /** The swap succeeds only on the record that was loaded. */
  function Commit<J(==), U>(p: Protocol<J, U>, s: System<J, U>, w: nat, x: Writer<J, U>, heard: bool): System<J, U>
    requires x.Loaded?
  {
    match p.propose(x.base, x.update)
    case Refused => Set(s, w, Failed(x.update))
    case Unchanged => Set(s, w, Succeeded(x.update, x.base, x.since, x.since, false))
    case Proposed(next) =>
      if s.record == x.base then
        System(next, s.log + [Entry(w, x.update)], s.writers[w := Swapped(x, next, |s.log| + 1, heard)])
      else
        Set(s, w, if p.retries(x.update) && !x.retried && heard then Conflicted(x.update) else Failed(x.update))
  }

  function Next<J(==), U>(p: Protocol<J, U>, s: System<J, U>, e: Event<U>): System<J, U> {
    match e
    case Load(w, u) => if w in s.writers then s else LoadInto(p, s, w, u, false)
    case Finish(w, heard) => if w in s.writers && s.writers[w].Loaded? then Commit(p, s, w, s.writers[w], heard) else s
    case Reload(w) =>
      if w in s.writers && s.writers[w].Conflicted? then LoadInto(p, s, w, s.writers[w].update, true) else s
    case Abort(w) =>
      if w in s.writers && (s.writers[w].Loaded? || s.writers[w].Conflicted?)
      then Set(s, w, Failed(s.writers[w].update)) else s
  }

  function Run<J(==), U>(p: Protocol<J, U>, events: seq<Event<U>>): System<J, U> {
    if events == [] then System(p.initial, [], map[])
    else Next(p, Run(p, events[..|events| - 1]), events[|events| - 1])
  }

  /** The record that the updates give one after another. */
  function Sequential<J, U>(p: Protocol<J, U>, log: seq<Entry<U>>): J {
    if log == [] then p.initial
    else
      var before := Sequential(p, log[..|log| - 1]);
      match p.propose(before, log[|log| - 1].update)
      case Proposed(next) => next
      case _ => before
  }

  lemma {:induction false} SequentialStep<J, U>(p: Protocol<J, U>, log: seq<Entry<U>>, before: J, proposal: Proposal<J>)
    requires log != [] && before == Sequential(p, log[..|log| - 1])
    requires proposal == p.propose(before, log[|log| - 1].update)
    ensures Sequential(p, log) == if proposal.Proposed? then proposal.next else before
  {
  }

  /** The writer took effect at one point of the sequential history, after its
      load: its own commit, or a no-op on the record it loaded. */
  ghost predicate TookEffect<J(!new), U(!new)>(p: Protocol<J, U>, log: seq<Entry<U>>, w: nat, x: Writer<J, U>)
    requires x.Succeeded?
  {
    && x.since <= x.at <= |log|
    && x.result == Sequential(p, log[..x.at])
    && (x.changed ==> && x.since < x.at && log[x.at - 1] == Entry(w, x.update)
                      && p.propose(Sequential(p, log[..x.at - 1]), x.update) == Proposed(x.result))
    && (!x.changed ==> p.propose(x.result, x.update) == Unchanged)
  }

  ghost predicate WriterOk<J(!new), U(!new)>(p: Protocol<J, U>, log: seq<Entry<U>>, w: nat, x: Writer<J, U>) {
    && (x.Loaded? ==> x.since <= |log| && x.base == Sequential(p, log[..x.since]))
    && (x.Succeeded? ==> TookEffect(p, log, w, x))
    && (x.Unheard? ==>
          && 0 < x.at <= |log| && log[x.at - 1] == Entry(w, x.update)
          && p.propose(Sequential(p, log[..x.at - 1]), x.update) == Proposed(Sequential(p, log[..x.at])))
  }

  predicate CommittedAt<J, U>(x: Writer<J, U>, at: nat) {
    ((x.Succeeded? && x.changed) || x.Unheard?) && x.at == at
  }

  /** Every commit belongs to the one writer that reported it or whose reply
      was lost. */
  ghost predicate Accounted<J(!new), U(!new)>(s: System<J, U>) {
    forall k :: 0 <= k < |s.log| ==> s.log[k].writer in s.writers && CommittedAt(s.writers[s.log[k].writer], k + 1)
  }

  ghost predicate SystemOk<J(!new), U(!new)>(p: Protocol<J, U>, s: System<J, U>) {
    && s.record == Sequential(p, s.log)
    && (forall w :: w in s.writers ==> WriterOk(p, s.log, w, s.writers[w]))
    && Accounted(s)
  }

  lemma WriterSurvives<J(!new), U(!new)>(p: Protocol<J, U>, log: seq<Entry<U>>, e: Entry<U>, w: nat, x: Writer<J, U>)
    requires WriterOk(p, log, w, x)
    ensures WriterOk(p, log + [e], w, x)
  {
    if x.Loaded? { assert (log + [e])[..x.since] == log[..x.since]; }
    if x.Succeeded? || x.Unheard? {
      assert (log + [e])[..x.at] == log[..x.at];
      if x.at > 0 { assert (log + [e])[..x.at - 1] == log[..x.at - 1]; }
    }
  }

  lemma SetOk<J(!new), U(!new)>(p: Protocol<J, U>, s: System<J, U>, w: nat, x: Writer<J, U>)
    requires SystemOk(p, s) && WriterOk(p, s.log, w, x)
    requires w in s.writers ==> !s.writers[w].Succeeded? && !s.writers[w].Unheard?
    ensures SystemOk(p, Set(s, w, x))
  {
  }

  lemma LoadOk<J(!new), U(!new)>(p: Protocol<J, U>, s: System<J, U>, w: nat, u: U, retried: bool)
    requires SystemOk(p, s) && (w in s.writers ==> !s.writers[w].Succeeded? && !s.writers[w].Unheard?)
    ensures SystemOk(p, LoadInto(p, s, w, u, retried))
  {
    assert s.log[..|s.log|] == s.log;
    SetOk(p, s, w, if p.usable(s.record) then Loaded(u, s.record, |s.log|, retried) else Failed(u));
  }

  /** A successful swap extends the sequential history by one update. */
  lemma SwapOk<J(!new), U(!new)>(p: Protocol<J, U>, s: System<J, U>, w: nat, x: Writer<J, U>, heard: bool,
                                 t: System<J, U>)
    requires SystemOk(p, s) && w in s.writers && s.writers[w] == x && x.Loaded?
    requires p.propose(s.record, x.update).Proposed?
    requires t == System(p.propose(s.record, x.update).next, s.log + [Entry(w, x.update)],
                         s.writers[w := Swapped(x, p.propose(s.record, x.update).next, |s.log| + 1, heard)])
    ensures SystemOk(p, t)
  {
    SwapperOk(p, s.log, w, x, p.propose(s.record, x.update).next, heard);
    SwapAccounted(s, t, w);
    forall v | v in t.writers ensures WriterOk(p, t.log, v, t.writers[v]) {
      if v != w { WriterSurvives(p, s.log, Entry(w, x.update), v, s.writers[v]); }
    }
  }

  lemma {:induction false} SwapperOk<J(!new), U(!new)>(p: Protocol<J, U>, log: seq<Entry<U>>, w: nat, x: Writer<J, U>,
                                                       next: J, heard: bool)
    requires x.Loaded? && WriterOk(p, log, w, x) && p.propose(Sequential(p, log), x.update) == Proposed(next)
    ensures WriterOk(p, log + [Entry(w, x.update)], w, Swapped(x, next, |log| + 1, heard))
    ensures Sequential(p, log + [Entry(w, x.update)]) == next
  {
    var after := log + [Entry(w, x.update)];
    assert after[..|log|] == log && after[..|log| + 1] == after;
    SequentialStep(p, after, Sequential(p, log), Proposed(next));
  }

  lemma SwapAccounted<J(!new), U(!new)>(s: System<J, U>, t: System<J, U>, w: nat)
    requires Accounted(s) && w in s.writers && s.writers[w].Loaded?
    requires |t.log| == |s.log| + 1 && t.log[..|s.log|] == s.log && t.log[|s.log|].writer == w
    requires w in t.writers && t.writers == s.writers[w := t.writers[w]] && CommittedAt(t.writers[w], |t.log|)
    ensures Accounted(t)
  {
    forall k | 0 <= k < |s.log| ensures t.log[k].writer in t.writers && CommittedAt(t.writers[t.log[k].writer], k + 1) {
      assert t.log[k] == t.log[..|s.log|][k];
    }
  }

  lemma CommitOk<J(!new), U(!new)>(p: Protocol<J, U>, s: System<J, U>, w: nat, x: Writer<J, U>, heard: bool)
    requires SystemOk(p, s) && w in s.writers && s.writers[w] == x && x.Loaded?
    ensures SystemOk(p, Commit(p, s, w, x, heard))
  {
    match p.propose(x.base, x.update)
    case Refused => SetOk(p, s, w, Failed(x.update));
    case Unchanged => SetOk(p, s, w, Succeeded(x.update, x.base, x.since, x.since, false));
    case Proposed(next) =>
      if s.record == x.base {
        SwapOk(p, s, w, x, heard, Commit(p, s, w, x, heard));
      } else {
        SetOk(p, s, w, if p.retries(x.update) && !x.retried && heard then Conflicted(x.update) else Failed(x.update));
      }
  }

  lemma NextOk<J(!new), U(!new)>(p: Protocol<J, U>, s: System<J, U>, e: Event<U>)
    requires SystemOk(p, s)
    ensures SystemOk(p, Next(p, s, e))
  {
    match e
    case Load(w, u) => if w !in s.writers { LoadOk(p, s, w, u, false); }
    case Finish(w, heard) => if w in s.writers && s.writers[w].Loaded? { CommitOk(p, s, w, s.writers[w], heard); }
    case Reload(w) => if w in s.writers && s.writers[w].Conflicted? { LoadOk(p, s, w, s.writers[w].update, true); }
    case Abort(w) =>
      if w in s.writers && (s.writers[w].Loaded? || s.writers[w].Conflicted?) {
        SetOk(p, s, w, Failed(s.writers[w].update));
      }
  }

  /** Under every interleaving the record is the sequential application of the
      committed updates, exactly one for every writer that reported a change or
      whose reply was lost; every other successful writer was a no-op on the
      record it loaded. */
  lemma {:induction false} CommitsAreSequential<J(!new), U(!new)>(p: Protocol<J, U>, events: seq<Event<U>>)
    ensures SystemOk(p, Run(p, events))
  {
    if events != [] {
      CommitsAreSequential(p, events[..|events| - 1]);
      NextOk(p, Run(p, events[..|events| - 1]), events[|events| - 1]);
    }
  }

  /* ---- Attempts ---- */

  /** The event gives the writer a record to work on. */
  predicate Starts<J, U>(s: System<J, U>, e: Event<U>, w: nat) {
    match e
    case Load(v, _) => v == w && w !in s.writers
    case Reload(v) => v == w && w in s.writers && s.writers[w].Conflicted?
    case _ => false
  }

  /** How often the writer was given a record. */
  function Attempts<J(==), U>(p: Protocol<J, U>, events: seq<Event<U>>, w: nat): nat {
    if events == [] then 0
    else
      var front := events[..|events| - 1];
      Attempts(p, front, w) + if Starts(Run(p, front), events[|events| - 1], w) then 1 else 0
  }

  /** A writer that could not have a second record has had one. */
  ghost predicate AttemptsOk<J(!new), U(!new)>(p: Protocol<J, U>, s: System<J, U>, w: nat, n: nat) {
    if w !in s.writers then n == 0
    else
      var x := s.writers[w];
      && 1 <= n <= 2 && (n == 2 ==> p.retries(x.update))
      && (x.Loaded? ==> n == if x.retried then 2 else 1)
      && (x.Conflicted? ==> n == 1 && p.retries(x.update))
  }

  /** No writer works on more than two records, and on more than one only if it
      may retry. */
  lemma {:induction false} AtMostTwoAttempts<J(!new), U(!new)>(p: Protocol<J, U>, events: seq<Event<U>>, w: nat)
    ensures AttemptsOk(p, Run(p, events), w, Attempts(p, events, w))
  {
    if events != [] { AtMostTwoAttempts(p, events[..|events| - 1], w); }
  }

  /** How an attempt ends: a refused or unchanged proposal leaves the record, a
      new one is taken exactly if the record is still the loaded one, and a
      conflict is tried again exactly once by those that may and heard of it. */
  lemma FinishGives<J(!new), U(!new)>(p: Protocol<J, U>, s: System<J, U>, w: nat, heard: bool)
    requires w in s.writers && s.writers[w].Loaded?
    ensures var x, t := s.writers[w], Next(p, s, Finish(w, heard)); var r := p.propose(x.base, x.update);
            && w in t.writers
            && (t.log != s.log <==> r.Proposed? && s.record == x.base)
            && (t.log != s.log ==> t.record == r.next && t.log == s.log + [Entry(w, x.update)])
            && (t.log == s.log ==> t.record == s.record)
            && (t.writers[w].Succeeded? <==> r.Unchanged? || (r.Proposed? && s.record == x.base && heard))
            && (t.writers[w].Unheard? <==> r.Proposed? && s.record == x.base && !heard)
            && (t.writers[w].Conflicted? <==>
                r.Proposed? && s.record != x.base && heard && p.retries(x.update) && !x.retried)
            && (forall v :: v in s.writers && v != w ==> v in t.writers && t.writers[v] == s.writers[v])
  {
  }
}

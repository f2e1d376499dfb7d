/** The signals of the peer's state: one for every transition, no more and no less. */
module PeerSignals {
  import opened Base
  import opened PeerState

  // A start callback either leaves the state alone or stops the peer, which is signalled once.
  predicate StopsAtMost(p: Peer, q: Peer) {
    || (q.state == p.state && q.changes == p.changes)
    || (p.state < STOPPED && q.state == STOPPED && q.changes == p.changes + [STOPPED])
  }

  lemma {:induction false} PerformSignals(p: Peer, s: Script)
    requires p.state <= STOPPED
    ensures StopsAtMost(p, Perform(p, s))
    decreases s
  {
    match s
    case Done =>
    case Insert(id, e, rest) =>
      InsertedSignals(p, id, e);
      PerformSignals(Inserted(p, id, e), rest);
    case Remove(id, rest) => PerformSignals(p.(table := p.table - {id}), rest);
    case Stop(rest) => PerformSignals(Stopped(p), rest);
  }

  lemma {:induction false} InsertedSignals(p: Peer, id: Id, e: Entry)
    requires p.state <= STOPPED
    ensures StopsAtMost(p, Inserted(p, id, e))
    decreases e, 1
  {
    if p.state == STARTED && e.startable {
      var q := Inserting(p, id, e);
      PerformSignals(q.(started := q.started + [e.ref]), e.onStart);
    }
  }

  lemma {:induction false} StartAllSignals(p: Peer, entries: seq<Entry>)
    requires p.state <= STOPPED
    ensures StopsAtMost(p, StartAll(p, entries))
  {
    if entries != [] {
      StartAllSignals(p, Front(entries));
      var q, e := StartAll(p, Front(entries)), Last(entries);
      PerformSignals(q.(started := q.started + [e.ref]), e.onStart);
    }
  }

  lemma SetStateSignals(p: Peer, state: nat, order: seq<Id>)
    requires Visits(order, p.table) && p.state <= STOPPED && (state == STARTED || state == STOPPED)
    ensures var q := SetState(p, state, order);
            if state <= p.state then q == p
            else
              && q.state >= state && q.state <= STOPPED
              && (q.changes == p.changes + [state]
                  || (state == STARTED && q.state == STOPPED && q.changes == p.changes + [STOPPED, STOPPED]))
              && Last(q.changes) == q.state
  {
    if state > p.state {
      var q := p.(state := state);
      if state == STARTED {
        var entries := Startable(order, p.table);
        StartAllSignals(q.(present := Refs(entries)), entries);
      }
      hide StartAll, Startable;
    }
  }

  /** The INFO call has completed in time, on the events. */
  ghost predicate GotStarted(events: seq<Event>) {
    events != [] &&
    var p, e := Run(Front(events)), Last(events);
    GotStarted(Front(events)) || (e.InfoDone? && e.ok && Enumerates(e.order, p.table) && p.state == STARTING)
  }

  /** What the handlers have seen, by the state the peer is in and whether it was STARTED. */
  ghost predicate Seen(p: Peer, wasStarted: bool) {
    match p.state
    case 0 => !wasStarted && p.changes == []
    case 1 => wasStarted && p.changes == [STARTED]
    case 2 =>
      if wasStarted then p.changes == [STARTED, STOPPED] || p.changes == [STOPPED, STOPPED] else p.changes == [STOPPED]
    case _ => false
  }

  lemma NextSeen(p: Peer, e: Event, wasStarted: bool)
    requires Seen(p, wasStarted)
    ensures Seen(Next(p, e), wasStarted || (e.InfoDone? && e.ok && Enumerates(e.order, p.table) && p.state == STARTING))
  {
    match e
    case EntryInsert(id, entry) => InsertedSignals(p, id, entry); hide Inserted;
    case EntryRemove(id) =>
    case InfoDone(ok, order) =>
      if !ok {
        SetStateSignals(p, STOPPED, []);
      } else if Enumerates(order, p.table) {
        SetStateSignals(p, STARTED, order);
      }
      hide SetState;
    case RpcStopped => SetStateSignals(p, STOPPED, []); hide SetState;
  }

  /** Over every run: the state signal is emitted exactly once for each transition; the last
      emission finds the state as it is; and a peer that a start callback stops during the
      transition is seen as STOPPED twice and never as STARTED. */
  lemma {:induction false} SignalsExactly(events: seq<Event>)
    ensures Seen(Run(events), GotStarted(events))
  {
    if events != [] {
      SignalsExactly(Front(events));
      hide Next, Seen;
      NextSeen(Run(Front(events)), Last(events), GotStarted(Front(events)));
    }
  }

  /** A run in which that happens: the one entry stops the peer when it is started. */
  lemma StoppedTwice()
    ensures var p := Run([EntryInsert(1, Entry(1, true, Stop(Done))), InfoDone(true, [1])]);
            p.state == STOPPED && p.started == [1] && p.changes == [STOPPED, STOPPED]
  {
    var e := Entry(1, true, Stop(Done));
    var events := [EntryInsert(1, e), InfoDone(true, [1])];
    var first := [EntryInsert(1, e)];
    assert Front(events) == first && Front(first) == [];
    assert Run([]) == CREATED;
    var p := Run(first);
    assert p == Next(CREATED, EntryInsert(1, e));
    assert p == Inserting(CREATED, 1, e);
    assert Enumerates([1], p.table);
    ListsOne(1, e, p.table);
    StartsOne(p.(state := STARTED, present := Refs([e])), e);
    hide Startable, StartAll;
  }

  lemma ListsOne(id: Id, e: Entry, table: map<Id, Entry>)
    requires id in table && table[id] == e && e.startable
    ensures Startable([id], table) == [e]
  {
    assert Front([id]) == [];
    assert Startable([], table) == [];
  }

  lemma StartsOne(p: Peer, e: Entry)
    requires e.onStart == Stop(Done)
    ensures StartAll(p, [e]) == Stopped(p.(started := p.started + [e.ref]))
  {
    assert Front([e]) == [];
    assert StartAll(p, []) == p;
    var q := p.(started := p.started + [e.ref]);
    assert Perform(q, Stop(Done)) == Perform(Stopped(q), Done);
  }
}

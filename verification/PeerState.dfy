/** The state of the peer and the start of its entries: entries inserted before the INFO
    call has completed are started at that moment, later ones when they are inserted. */
module PeerState {
  import opened Base

  const STARTING: nat := 0
  const STARTED: nat := 1
  const STOPPED: nat := 2

  type Ref = nat

  /** What a start callback does before it returns, in order. It may insert further
      entries, whose own start callbacks then run inside it. */
  datatype Script =
    | Done
    | Insert(id: Id, entry: Entry, rest: Script)
    | Remove(id: Id, rest: Script)
    | Stop(rest: Script)

  datatype Entry = Entry(ref: Ref, startable: bool, onStart: Script)

  datatype Insertion = Insertion(entry: Entry, state: nat)

  datatype Peer = Peer(
    state: nat,
    table: map<Id, Entry>,
    // History
    started: seq<Ref>,          // start callbacks that have run
    changes: seq<nat>,          // what the handlers of the state signal have seen
    inserted: seq<Insertion>,   // with the state at the time
    present: seq<Ref>           // startable entries in the table when it became STARTED
  )

  const CREATED: Peer := Peer(STARTING, map[], [], [], [], [])

  function Inserting(p: Peer, id: Id, e: Entry): Peer {
    p.(table := p.table[id := e], inserted := p.inserted + [Insertion(e, p.state)])
  }

  function Stopped(p: Peer): Peer {
    if STOPPED > p.state then p.(state := STOPPED, changes := p.changes + [STOPPED]) else p
  }

  function Perform(p: Peer, s: Script): Peer
    decreases s
  {
    match s
    case Done => p
    case Insert(id, e, rest) => Perform(Inserted(p, id, e), rest)
    case Remove(id, rest) => Perform(p.(table := p.table - {id}), rest)
    case Stop(rest) => Perform(Stopped(p), rest)
  }

  function Started(p: Peer, e: Entry): Peer
    decreases e, 0
  {
    Perform(p.(started := p.started + [e.ref]), e.onStart)
  }

  function Inserted(p: Peer, id: Id, e: Entry): Peer
    decreases e, 1
  {
    var q := Inserting(p, id, e);
    if p.state == STARTED && e.startable then Started(q, e) else q
  }

  function StartAll(p: Peer, entries: seq<Entry>): Peer {
    if entries == [] then p else Started(StartAll(p, Front(entries)), Last(entries))
  }

  predicate Visits(order: seq<Id>, table: map<Id, Entry>) {
    forall k :: 0 <= k < |order| ==> order[k] in table
  }

  function Startable(order: seq<Id>, table: map<Id, Entry>): seq<Entry>
    requires Visits(order, table)
  {
    if order == [] then []
    else Startable(Front(order), table) + if table[Last(order)].startable then [table[Last(order)]] else []
  }

  function Refs(entries: seq<Entry>): seq<Ref> {
    seq(|entries|, i requires 0 <= i < |entries| => entries[i].ref)
  }

  // order: in which an iterator visits the table.
  function SetState(p: Peer, state: nat, order: seq<Id>): Peer
    requires Visits(order, p.table)
  {
    if state <= p.state then p
    else
      var q := p.(state := state);
      var r := if state == STARTED then
                 var entries := Startable(order, p.table);
                 StartAll(q.(present := Refs(entries)), entries)
               else q;
      r.(changes := r.changes + [r.state])
  }

  // ---------- Exactly once ----------

  predicate StartedInline(i: Insertion) {
    i.entry.startable && i.state == STARTED
  }

  function Inline(inserted: seq<Insertion>): multiset<Ref> {
    if inserted == [] then multiset{}
    else
      var i := Last(inserted);
      Inline(Front(inserted)) + if StartedInline(i) then multiset{i.entry.ref} else multiset{}
  }

  /** Which entries are to be started: those that were there when the peer became
      STARTED, and those inserted while it was. */
  function Due(p: Peer): multiset<Ref> {
    multiset(p.present) + Inline(p.inserted)
  }

  // Everything has been started except the entries in owed, which are next in line.
  predicate Balanced(p: Peer, owed: multiset<Ref>) {
    multiset(p.started) + owed == Due(p)
  }

  lemma InsertingBalance(p: Peer, id: Id, e: Entry, owed: multiset<Ref>)
    requires Balanced(p, owed)
    ensures Balanced(Inserting(p, id, e),
                     if p.state == STARTED && e.startable then owed + multiset{e.ref} else owed)
  {
    var q, i := Inserting(p, id, e), Insertion(e, p.state);
    InlineSnoc(p.inserted, i);
    hide Inline;
    var more := if StartedInline(i) then multiset{i.entry.ref} else multiset{};
    assert Due(q) == Due(p) + more;
    assert multiset(q.started) + (owed + more) == multiset(q.started) + owed + more;
    assert owed + multiset{} == owed;
  }

  lemma InlineSnoc(inserted: seq<Insertion>, i: Insertion)
    ensures Inline(inserted + [i])
            == Inline(inserted) + if StartedInline(i) then multiset{i.entry.ref} else multiset{}
  {
    assert Front(inserted + [i]) == inserted;
  }

  lemma {:induction false} PerformBalance(p: Peer, s: Script, owed: multiset<Ref>)
    requires Balanced(p, owed)
    ensures Balanced(Perform(p, s), owed)
    decreases s
  {
    hide Balanced;
    match s
    case Done =>
    case Insert(id, e, rest) =>
      InsertedBalance(p, id, e, owed);
      PerformBalance(Inserted(p, id, e), rest, owed);
    case Remove(id, rest) =>
      TableBalance(p, p.(table := p.table - {id}), owed);
      PerformBalance(p.(table := p.table - {id}), rest, owed);
    case Stop(rest) =>
      TableBalance(p, Stopped(p), owed);
      PerformBalance(Stopped(p), rest, owed);
  }

  lemma TableBalance(p: Peer, q: Peer, owed: multiset<Ref>)
    requires Balanced(p, owed) && q.started == p.started && q.inserted == p.inserted && q.present == p.present
    ensures Balanced(q, owed)
  {
  }

  lemma {:induction false} StartedBalance(p: Peer, e: Entry, owed: multiset<Ref>)
    requires Balanced(p, owed + multiset{e.ref})
    ensures Balanced(Started(p, e), owed)
    decreases e, 0
  {
    PerformBalance(p.(started := p.started + [e.ref]), e.onStart, owed);
  }

  lemma {:induction false} InsertedBalance(p: Peer, id: Id, e: Entry, owed: multiset<Ref>)
    requires Balanced(p, owed)
    ensures Balanced(Inserted(p, id, e), owed)
    decreases e, 1
  {
    hide Balanced;
    InsertingBalance(p, id, e, owed);
    if p.state == STARTED && e.startable {
      StartedBalance(Inserting(p, id, e), e, owed);
    }
  }

  lemma {:induction false} StartAllBalance(p: Peer, entries: seq<Entry>, owed: multiset<Ref>)
    requires Balanced(p, owed + multiset(Refs(entries)))
    ensures Balanced(StartAll(p, entries), owed)
  {
    hide Balanced;
    if entries == [] {
      assert owed + multiset(Refs(entries)) == owed;
    } else {
      assert Refs(entries) == Refs(Front(entries)) + [Last(entries).ref];
      assert owed + multiset(Refs(entries)) == owed + multiset{Last(entries).ref} + multiset(Refs(Front(entries)));
      StartAllBalance(p, Front(entries), owed + multiset{Last(entries).ref});
      StartedBalance(StartAll(p, Front(entries)), Last(entries), owed);
    }
  }

  // ---------- What a callback cannot undo ----------

  /** The state never goes back, and what has been seen of it was in order. */
  predicate Later(p: Peer, q: Peer) {
    && p.state <= q.state <= STOPPED && q.present == p.present
    && |p.changes| <= |q.changes| && q.changes[..|p.changes|] == p.changes
    && (forall k :: |p.changes| <= k < |q.changes| ==> p.state <= q.changes[k] <= q.state)
    && (forall j, k :: |p.changes| <= j < k < |q.changes| ==> q.changes[j] <= q.changes[k])
  }

  lemma LaterTrans(p: Peer, q: Peer, r: Peer)
    requires Later(p, q) && Later(q, r)
    ensures Later(p, r)
  {
    assert forall k :: |p.changes| <= k < |q.changes| ==> r.changes[k] == q.changes[k];
    assert r.changes[..|p.changes|] == r.changes[..|q.changes|][..|p.changes|];
    forall j, k | |p.changes| <= j < k < |r.changes|
      ensures r.changes[j] <= r.changes[k]
    {
    }
  }

  lemma {:induction false} PerformLater(p: Peer, s: Script)
    requires p.state <= STOPPED
    ensures Later(p, Perform(p, s))
    decreases s
  {
    match s
    case Done =>
    case Insert(id, e, rest) =>
      InsertedLater(p, id, e);
      PerformLater(Inserted(p, id, e), rest);
      hide Later;
      LaterTrans(p, Inserted(p, id, e), Perform(p, s));
    case Remove(id, rest) =>
      PerformLater(p.(table := p.table - {id}), rest);
    case Stop(rest) =>
      assert Later(p, Stopped(p));
      PerformLater(Stopped(p), rest);
      hide Later;
      LaterTrans(p, Stopped(p), Perform(p, s));
  }

  lemma {:induction false} InsertedLater(p: Peer, id: Id, e: Entry)
    requires p.state <= STOPPED
    ensures Later(p, Inserted(p, id, e))
    decreases e, 1
  {
    var q := Inserting(p, id, e);
    if p.state == STARTED && e.startable {
      PerformLater(q.(started := q.started + [e.ref]), e.onStart);
    }
  }

  lemma {:induction false} StartAllLater(p: Peer, entries: seq<Entry>)
    requires p.state <= STOPPED
    ensures Later(p, StartAll(p, entries))
  {
    if entries != [] {
      StartAllLater(p, Front(entries));
      var q, e := StartAll(p, Front(entries)), Last(entries);
      PerformLater(q.(started := q.started + [e.ref]), e.onStart);
      assert Later(q, Started(q, e));
      hide Later;
      LaterTrans(p, q, StartAll(p, entries));
    }
  }

  // ---------- Whole runs ----------

  datatype Event =
    | EntryInsert(id: Id, entry: Entry)
    | EntryRemove(id: Id)
    | InfoDone(ok: bool, order: seq<Id>)
    | RpcStopped

  ghost predicate Enumerates(order: seq<Id>, table: map<Id, Entry>) {
    && (forall j, k :: 0 <= j < k < |order| ==> order[j] != order[k])
    && (forall id :: id in order <==> id in table)
  }

  ghost function Next(p: Peer, e: Event): Peer {
    match e
    case EntryInsert(id, entry) => Inserted(p, id, entry)
    case EntryRemove(id) => p.(table := p.table - {id})
    case InfoDone(ok, order) =>
      if !ok then SetState(p, STOPPED, [])
      else if Enumerates(order, p.table) then SetState(p, STARTED, order) else p
    case RpcStopped => SetState(p, STOPPED, [])
  }

  ghost function Run(events: seq<Event>): Peer {
    if events == [] then CREATED else Next(Run(Front(events)), Last(events))
  }

  // At the transition everything in the list is owed.
  lemma NothingStartedYet(p: Peer, r: Peer, listed: seq<Ref>)
    requires Balanced(p, multiset{}) && p.present == [] && p.started == []
    requires r.present == listed && r.started == [] && r.inserted == p.inserted
    ensures Balanced(r, multiset{} + multiset(listed))
  {
    hide Inline;
    assert multiset(p.started) == multiset{} && multiset(p.present) == multiset{};
    assert multiset{} + Inline(p.inserted) == Inline(p.inserted);
    assert Inline(p.inserted) == multiset{};
    assert multiset(listed) + multiset{} == multiset(listed);
    assert multiset{} + multiset(listed) == multiset(listed);
  }

  lemma SetStateKeeps(p: Peer, state: nat, order: seq<Id>)
    requires Visits(order, p.table) && state <= STOPPED && p.state <= STOPPED
    requires Balanced(p, multiset{}) && (p.state == STARTING ==> p.present == [] && p.started == [])
    requires forall k :: 0 <= k < |p.changes| ==> p.changes[k] <= p.state
    ensures var q := SetState(p, state, order);
            && Balanced(q, multiset{})
            && p.state <= q.state <= STOPPED
            && |q.changes| >= |p.changes| && q.changes[..|p.changes|] == p.changes
            && (forall k :: |p.changes| <= k < |q.changes| ==> p.state < q.changes[k] <= q.state)
            && (forall j, k :: |p.changes| <= j < k < |q.changes| ==> q.changes[j] <= q.changes[k])
  {
    if state > p.state {
      var q := p.(state := state);
      if state == STARTED {
        var entries := Startable(order, p.table);
        var r := q.(present := Refs(entries));
        NothingStartedYet(p, r, Refs(entries));
        StartAllLater(r, entries);
        StartAllBalance(r, entries, multiset{});
        hide StartAll, Refs, Startable, Balanced;
        TableBalance(StartAll(r, entries), SetState(p, state, order), multiset{});
      } else {
        hide Balanced;
        TableBalance(p, SetState(p, state, order), multiset{});
      }
    }
  }

  predicate Good(p: Peer) {
    && p.state <= STOPPED && Balanced(p, multiset{}) && (p.state == STARTING ==> p.present == [] && p.started == [])
    && (forall k :: 0 <= k < |p.changes| ==> p.changes[k] <= p.state)
    && (forall j, k :: 0 <= j < k < |p.changes| ==> p.changes[j] <= p.changes[k])
  }

  lemma SetStateGood(p: Peer, state: nat, order: seq<Id>)
    requires Visits(order, p.table) && state <= STOPPED && Good(p) && state != STARTING
    ensures Good(SetState(p, state, order)) && p.state <= SetState(p, state, order).state
  {
    SetStateKeeps(p, state, order);
    var q := SetState(p, state, order);
    assert forall k :: 0 <= k < |p.changes| ==> q.changes[k] == p.changes[k];
    if state > p.state {
      SetStateReaches(p, state, order);
    }
    hide SetState, Balanced;
  }

  lemma SetStateReaches(p: Peer, state: nat, order: seq<Id>)
    requires Visits(order, p.table) && p.state < state <= STOPPED
    ensures SetState(p, state, order).state >= state
  {
    if state == STARTED {
      var entries := Startable(order, p.table);
      StartAllLater(p.(state := state, present := Refs(entries)), entries);
    }
  }

  lemma NextGood(p: Peer, e: Event)
    requires Good(p)
    ensures Good(Next(p, e)) && p.state <= Next(p, e).state
  {
    match e
    case EntryInsert(id, entry) =>
      InsertedLater(p, id, entry);
      InsertedBalance(p, id, entry, multiset{});
      var q := Inserted(p, id, entry);
      assert forall k :: 0 <= k < |p.changes| ==> q.changes[k] == p.changes[k];
      assert p.state == STARTING ==> q == Inserting(p, id, entry);
      hide Inserted, Balanced;
    case EntryRemove(id) => TableBalance(p, p.(table := p.table - {id}), multiset{});
    case InfoDone(ok, order) =>
      if !ok {
        SetStateGood(p, STOPPED, []);
      } else if Enumerates(order, p.table) {
        assert forall k :: 0 <= k < |order| ==> order[k] in order;
        SetStateGood(p, STARTED, order);
      }
    case RpcStopped => SetStateGood(p, STOPPED, []);
  }

  lemma {:induction false} RunGood(events: seq<Event>)
    ensures Good(Run(events))
  {
    if events != [] {
      RunGood(Front(events));
      hide Good, Next;
      NextGood(Run(Front(events)), Last(events));
    }
  }

  /** Over every run, whatever the callbacks inserted, removed or stopped: the start
      callbacks that have run are those of the entries listed at the transition and of
      those inserted while STARTED, each as often as it was listed or inserted. */
  lemma StartedAsDue(events: seq<Event>)
    ensures multiset(Run(events).started) == multiset(Run(events).present) + Inline(Run(events).inserted)
  {
    RunGood(events);
    hide Run, Inline;
    assert multiset(Run(events).started) + multiset{} == multiset(Run(events).started);
  }

  /** The state only moves forward, and the handlers of the state signal see it in order. */
  lemma StateOnlyAdvances(events: seq<Event>)
    ensures var p := Run(events);
            && p.state <= STOPPED
            && (events != [] ==> Run(Front(events)).state <= p.state)
            && (forall j, k :: 0 <= j < k < |p.changes| ==> p.changes[j] <= p.changes[k])
            && (forall k :: 0 <= k < |p.changes| ==> p.changes[k] <= p.state)
  {
    RunGood(events);
    if events != [] {
      RunGood(Front(events));
      hide Good, Next;
      NextGood(Run(Front(events)), Last(events));
    }
  }

  predicate Distinct(table: map<Id, Entry>) {
    forall i, j :: i in table && j in table && table[i].ref == table[j].ref ==> i == j
  }

  /** The list made at the transition holds every startable entry of the table once. */
  lemma {:induction false} StartableIsExact(order: seq<Id>, table: map<Id, Entry>)
    requires Visits(order, table) && Distinct(table)
    requires forall j, k :: 0 <= j < k < |order| ==> order[j] != order[k]
    ensures forall id :: id in order ==>
              multiset(Refs(Startable(order, table)))[table[id].ref] == if table[id].startable then 1 else 0
    ensures forall r :: r in Refs(Startable(order, table)) ==> exists id :: id in order && table[id].ref == r
  {
    if order != [] {
      var before, id := Front(order), Last(order);
      StartableIsExact(before, table);
      var a, e := Startable(before, table), table[id];
      assert order == before + [id] && id !in before;
      assert Refs(a + [e]) == Refs(a) + [e.ref];
      assert a + [] == a;
      assert e.ref !in Refs(a);
    }
  }

  class FwdPeerState {
    var state: nat
    var table: map<Id, Entry>
    var started: seq<Ref>
    var changes: seq<nat>
    ghost var inserted: seq<Insertion>
    ghost var present: seq<Ref>

    ghost function View(): Peer
      reads this
    {
      Peer(state, table, started, changes, inserted, present)
    }

    constructor ()
      ensures View() == CREATED
    {
      state, table, started, changes, inserted, present := STARTING, map[], [], [], [], [];
    }

    // The body of a start callback.
    method Execute(s: Script)
      modifies this
      ensures View() == Perform(old(View()), s)
      decreases s
    {
      match s {
        case Done =>
        case Insert(id, e, rest) =>
          DoInsert(id, e);
          Execute(rest);
        case Remove(id, rest) =>
          table := table - {id};
          Execute(rest);
        case Stop(rest) =>
          if STOPPED > state {
            state := STOPPED;
            changes := changes + [STOPPED];
          }
          Execute(rest);
      }
    }

    method StartEntry(e: Entry)
      modifies this
      ensures View() == Started(old(View()), e)
      decreases e, 0
    {
      started := started + [e.ref];
      Execute(e.onStart);
    }

    method DoInsert(id: Id, e: Entry)
      modifies this
      ensures View() == Inserted(old(View()), id, e)
      decreases e, 1
    {
      table := table[id := e];
      inserted := inserted + [Insertion(e, state)];
      if state == STARTED && e.startable {
        StartEntry(e);
      }
    }

    method DoSetState(newState: nat, order: seq<Id>)
      requires Visits(order, table)
      modifies this
      ensures View() == SetState(old(View()), newState, order)
    {
      if newState > state {
        ghost var p := View();
        state := newState;
        if newState == STARTED {
          var entries := ListStartable(order);
          present := Refs(entries);
          ghost var r := View();
          var i := 0;
          while i < |entries|
            invariant 0 <= i <= |entries|
            invariant View() == StartAll(r, entries[..i])
          {
            assert Front(entries[..i + 1]) == entries[..i];
            StartEntry(entries[i]);
            i := i + 1;
          }
          assert entries[..i] == entries;
        }
        changes := changes + [state];
      }
    }

    method ListStartable(order: seq<Id>) returns (entries: seq<Entry>)
      requires Visits(order, table)
      ensures entries == Startable(order, table)
    {
      entries := [];
      var i := 0;
      while i < |order|
        invariant 0 <= i <= |order|
        invariant entries == Startable(order[..i], table)
      {
        assert Front(order[..i + 1]) == order[..i];
        if table[order[i]].startable {
          entries := entries + [table[order[i]]];
        }
        i := i + 1;
      }
      assert order[..i] == order;
    }
  }
}

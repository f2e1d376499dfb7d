/** Which entries are started, over whole runs: an entry that is there when the peer
    becomes STARTED, or is inserted while it is, exactly once; and when an entry is started
    although it has left the table. */
module PeerStarts {
  import opened Base
  import opened PeerState

  // ---------- Entries and where they come from ----------

  // The entries a script can insert, in however deep a callback.
  function ScriptRefs(s: Script): multiset<Ref> {
    match s
    case Done => multiset{}
    case Insert(_, e, rest) => EntryRefs(e) + ScriptRefs(rest)
    case Remove(_, rest) => ScriptRefs(rest)
    case Stop(rest) => ScriptRefs(rest)
  }

  function EntryRefs(e: Entry): multiset<Ref> {
    multiset{e.ref} + ScriptRefs(e.onStart)
  }

  /** All entries that can be inserted in the course of a run. */
  function RunRefs(events: seq<Event>): multiset<Ref> {
    if events == [] then multiset{}
    else RunRefs(Front(events)) + EventRefs(Last(events))
  }

  function EventRefs(e: Event): multiset<Ref> {
    if e.EntryInsert? then EntryRefs(e.entry) else multiset{}
  }

  ghost predicate Unique(refs: multiset<Ref>) {
    forall r :: refs[r] <= 1
  }

  function InsertedRefs(log: seq<Insertion>): multiset<Ref> {
    if log == [] then multiset{} else InsertedRefs(Front(log)) + multiset{Last(log).entry.ref}
  }

  function Entries(log: seq<Insertion>): seq<Entry> {
    seq(|log|, i requires 0 <= i < |log| => log[i].entry)
  }

  function Scripts(entries: seq<Entry>): multiset<Ref> {
    if entries == [] then multiset{} else Scripts(Front(entries)) + ScriptRefs(Last(entries).onStart)
  }

  predicate Logged(log: seq<Insertion>, e: Entry) {
    exists k :: 0 <= k < |log| && log[k].entry == e
  }

  /** Every entry of the table has been inserted, and none is there twice. */
  predicate TableOk(p: Peer) {
    Distinct(p.table) && forall id :: id in p.table ==> Logged(p.inserted, p.table[id])
  }

  lemma InsertedSnoc(log: seq<Insertion>, i: Insertion)
    ensures InsertedRefs(log + [i]) == InsertedRefs(log) + multiset{i.entry.ref}
  {
    assert Front(log + [i]) == log;
  }

  lemma {:induction false} InsertedRef(log: seq<Insertion>, k: nat)
    requires k < |log|
    ensures log[k].entry.ref in InsertedRefs(log)
  {
    if k < |log| - 1 {
      InsertedRef(Front(log), k);
    }
  }

  /** If no entry is inserted twice, the log tells entries by their reference. */
  lemma {:induction false} UniqueLog(log: seq<Insertion>, j: nat, k: nat)
    requires Unique(InsertedRefs(log)) && j < k < |log|
    ensures log[j].entry.ref != log[k].entry.ref
  {
    if k < |log| - 1 {
      assert forall r :: InsertedRefs(Front(log))[r] <= InsertedRefs(log)[r];
      UniqueLog(Front(log), j, k);
    } else {
      InsertedRef(Front(log), j);
      var r := Last(log).entry.ref;
      assert InsertedRefs(log)[r] == InsertedRefs(Front(log))[r] + 1;
    }
  }

  // ---------- Running scripts ----------

  // The log has only grown.
  predicate Extends(p: Peer, q: Peer) {
    |p.inserted| <= |q.inserted| && q.inserted[..|p.inserted|] == p.inserted
  }

  lemma ExtendsTrans(p: Peer, q: Peer, r: Peer)
    requires Extends(p, q) && Extends(q, r)
    ensures Extends(p, r)
  {
    assert r.inserted[..|p.inserted|] == r.inserted[..|q.inserted|][..|p.inserted|];
  }

  /** What a callback that may insert the given entries keeps, if no reference occurs
      twice among all. */
  ghost predicate Room(p: Peer, more: multiset<Ref>) {
    TableOk(p) && Unique(InsertedRefs(p.inserted) + more)
  }

  ghost predicate Kept(p: Peer, q: Peer, more: multiset<Ref>) {
    TableOk(q) && Extends(p, q) && InsertedRefs(q.inserted) <= InsertedRefs(p.inserted) + more
  }

  lemma KeptTrans(p: Peer, q: Peer, r: Peer, a: multiset<Ref>, b: multiset<Ref>)
    requires Kept(p, q, a) && Kept(q, r, b)
    ensures Kept(p, r, a + b)
  {
    ExtendsTrans(p, q, r);
  }

  lemma RoomLeft(p: Peer, q: Peer, a: multiset<Ref>, b: multiset<Ref>)
    requires Room(p, a + b)
    ensures Room(p, a)
    ensures Kept(p, q, a) ==> Room(q, b)
  {
    hide TableOk, Extends, InsertedRefs;
    assert forall r :: (InsertedRefs(p.inserted) + (a + b))[r] == InsertedRefs(p.inserted)[r] + a[r] + b[r];
  }

  // Nothing is inserted, and nothing appears in the table.
  lemma SameLog(p: Peer, q: Peer)
    requires TableOk(p) && q.inserted == p.inserted
    requires forall id :: id in q.table ==> id in p.table && q.table[id] == p.table[id]
    ensures Kept(p, q, multiset{})
  {
    hide InsertedRefs;
  }

  lemma InsertingKept(p: Peer, id: Id, e: Entry)
    requires Room(p, multiset{e.ref})
    ensures Kept(p, Inserting(p, id, e), multiset{e.ref})
  {
    var q := Inserting(p, id, e);
    InsertedSnoc(p.inserted, Insertion(e, p.state));
    assert (InsertedRefs(p.inserted) + multiset{e.ref})[e.ref] == InsertedRefs(p.inserted)[e.ref] + 1;
    hide InsertedRefs;
    forall i | i in p.table
      ensures p.table[i].ref != e.ref
    {
      var k :| 0 <= k < |p.inserted| && p.inserted[k].entry == p.table[i];
      InsertedRef(p.inserted, k);
    }
    forall i | i in q.table
      ensures Logged(q.inserted, q.table[i])
    {
      if i == id {
        assert q.inserted[|p.inserted|].entry == e;
      } else {
        var k :| 0 <= k < |p.inserted| && p.inserted[k].entry == p.table[i];
        assert q.inserted[k].entry == q.table[i];
      }
    }
  }

  lemma {:induction false} PerformKept(p: Peer, s: Script)
    requires Room(p, ScriptRefs(s))
    ensures Kept(p, Perform(p, s), ScriptRefs(s))
    decreases s
  {
    hide Room, Kept;
    match s
    case Done => RoomTable(p, ScriptRefs(s)); SameLog(p, p);
    case Insert(id, e, rest) =>
      var q := Inserted(p, id, e);
      RoomLeft(p, q, EntryRefs(e), ScriptRefs(rest));
      InsertedKept(p, id, e);
      PerformKept(q, rest);
      KeptTrans(p, q, Perform(p, s), EntryRefs(e), ScriptRefs(rest));
    case Remove(id, rest) =>
      var q := p.(table := p.table - {id});
      RoomTable(p, ScriptRefs(s));
      SameLog(p, q);
      Unchanged(p, q, ScriptRefs(rest));
      PerformKept(q, rest);
      KeptTrans(p, q, Perform(p, s), multiset{}, ScriptRefs(rest));
      assert multiset{} + ScriptRefs(rest) == ScriptRefs(s);
    case Stop(rest) =>
      var q := Stopped(p);
      RoomTable(p, ScriptRefs(s));
      SameLog(p, q);
      Unchanged(p, q, ScriptRefs(rest));
      PerformKept(q, rest);
      KeptTrans(p, q, Perform(p, s), multiset{}, ScriptRefs(rest));
      assert multiset{} + ScriptRefs(rest) == ScriptRefs(s);
  }

  lemma RoomTable(p: Peer, more: multiset<Ref>)
    requires Room(p, more)
    ensures TableOk(p)
  {
  }

  lemma Unchanged(p: Peer, q: Peer, more: multiset<Ref>)
    requires Room(p, more) && Kept(p, q, multiset{})
    ensures Room(q, more)
  {
    RoomLeft(p, q, multiset{}, more) by {
      assert multiset{} + more == more;
    }
  }

  lemma {:induction false} InsertedKept(p: Peer, id: Id, e: Entry)
    requires Room(p, EntryRefs(e))
    ensures Kept(p, Inserted(p, id, e), EntryRefs(e))
    decreases e, 1
  {
    hide Room, Kept, InsertedRefs, ScriptRefs;
    var q := Inserting(p, id, e);
    RoomLeft(p, q, multiset{e.ref}, ScriptRefs(e.onStart));
    InsertingKept(p, id, e);
    if p.state == STARTED && e.startable {
      StartedKept(q, e);
      KeptTrans(p, q, Inserted(p, id, e), multiset{e.ref}, ScriptRefs(e.onStart));
    } else {
      MoreRoom(p, q, multiset{e.ref}, ScriptRefs(e.onStart));
    }
  }

  lemma MoreRoom(p: Peer, q: Peer, a: multiset<Ref>, b: multiset<Ref>)
    requires Kept(p, q, a)
    ensures Kept(p, q, a + b)
  {
    hide InsertedRefs, TableOk;
  }

  lemma {:induction false} StartedKept(p: Peer, e: Entry)
    requires Room(p, ScriptRefs(e.onStart))
    ensures Kept(p, Started(p, e), ScriptRefs(e.onStart))
    decreases e, 0
  {
    hide InsertedRefs, ScriptRefs, TableOk;
    var q := p.(started := p.started + [e.ref]);
    SameTableOk(p, q);
    PerformKept(q, e.onStart);
  }

  lemma SameTableOk(p: Peer, q: Peer)
    requires TableOk(p) && q.table == p.table && q.inserted == p.inserted
    ensures TableOk(q)
  {
  }

  lemma {:induction false} StartAllKept(p: Peer, entries: seq<Entry>)
    requires Room(p, Scripts(entries))
    ensures Kept(p, StartAll(p, entries), Scripts(entries))
  {
    hide Room, Kept;
    RoomTable(p, Scripts(entries));
    if entries == [] {
      SameLog(p, p);
    } else {
      var q, e := StartAll(p, Front(entries)), Last(entries);
      RoomLeft(p, q, Scripts(Front(entries)), ScriptRefs(e.onStart));
      StartAllKept(p, Front(entries));
      StartedKept(q, e);
      KeptTrans(p, q, StartAll(p, entries), Scripts(Front(entries)), ScriptRefs(e.onStart));
    }
  }

  // ---------- The transition ----------

  lemma {:induction false} ScriptsWithout(b: seq<Entry>, k: nat)
    requires k < |b|
    ensures Scripts(b) == Scripts(b[..k] + b[k + 1..]) + ScriptRefs(b[k].onStart)
  {
    var rest := b[..k] + b[k + 1..];
    if k == |b| - 1 {
      assert rest == Front(b);
    } else {
      ScriptsWithout(Front(b), k);
      assert Front(rest) == Front(b)[..k] + Front(b)[k + 1..] && Last(rest) == Last(b);
    }
  }

  /** Entries that differ, each out of a list, insert no more than those of the list. */
  lemma {:induction false} SubScripts(a: seq<Entry>, b: seq<Entry>)
    requires Different(a) && AllIn(a, b)
    ensures Scripts(a) <= Scripts(b)
  {
    if a != [] {
      assert a[|a| - 1] in b;
      var k :| 0 <= k < |b| && b[k] == a[|a| - 1];
      var rest := b[..k] + b[k + 1..];
      ScriptsWithout(b, k);
      StillIn(a, b, k);
      hide ScriptRefs, Scripts, Different, AllIn;
      SubScripts(Front(a), rest);
      OneMore(a, Scripts(rest), Scripts(b));
    }
  }

  lemma StillIn(a: seq<Entry>, b: seq<Entry>, k: nat)
    requires a != [] && Different(a) && AllIn(a, b) && k < |b| && b[k] == Last(a)
    ensures Different(Front(a)) && AllIn(Front(a), b[..k] + b[k + 1..])
  {
    var rest := b[..k] + b[k + 1..];
    forall j | 0 <= j < |Front(a)|
      ensures Front(a)[j] in rest
    {
      assert a[j] in b && a[j] != a[|a| - 1];
      var i :| 0 <= i < |b| && b[i] == a[j];
      assert b[i] == if i < k then rest[i] else rest[i - 1];
    }
  }

  lemma OneMore(a: seq<Entry>, rest: multiset<Ref>, all: multiset<Ref>)
    requires a != [] && Scripts(Front(a)) <= rest && all == rest + ScriptRefs(Last(a).onStart)
    ensures Scripts(a) <= all
  {
  }

  // The list made at the transition has no entry twice, and only entries of the table.
  lemma {:induction false} ListedEntries(order: seq<Id>, table: map<Id, Entry>)
    requires Visits(order, table) && Distinct(table)
    requires forall j, k :: 0 <= j < k < |order| ==> order[j] != order[k]
    ensures Different(Startable(order, table))
    ensures AllVisited(order, table, Startable(order, table))
  {
    if order != [] {
      var before, id := Front(order), Last(order);
      ListedEntries(before, table);
      StartableSnoc(order, table);
      assert order == before + [id] && id !in before;
      hide Startable;
      OneMoreListed(before, id, table, Startable(before, table));
      assert Startable(before, table) + [] == Startable(before, table);
    }
  }

  lemma OneMoreListed(before: seq<Id>, id: Id, table: map<Id, Entry>, a: seq<Entry>)
    requires Different(a) && AllVisited(before, table, a) && Distinct(table) && id in table && id !in before
    ensures Different(a + [table[id]]) && AllVisited(before + [id], table, a + [table[id]])
    ensures AllVisited(before + [id], table, a)
  {
    var order, e := before + [id], table[id];
    forall j | 0 <= j < |a|
      ensures a[j] != e && Visited(order, table, a[j])
    {
      assert Visited(before, table, a[j]);
      var i :| i in before && i in table && table[i] == a[j];
      assert i in order;
    }
    assert id in order && Visited(order, table, e);
  }

  lemma StartableSnoc(order: seq<Id>, table: map<Id, Entry>)
    requires order != [] && Visits(order, table)
    ensures var id := Last(order);
            Startable(order, table) == Startable(Front(order), table) + if table[id].startable then [table[id]] else []
  {
  }

  predicate Different(a: seq<Entry>) {
    forall j, k :: 0 <= j < k < |a| ==> a[j] != a[k]
  }

  predicate AllIn(a: seq<Entry>, b: seq<Entry>) {
    forall j :: 0 <= j < |a| ==> a[j] in b
  }

  predicate AllVisited(order: seq<Id>, table: map<Id, Entry>, a: seq<Entry>) {
    forall j :: 0 <= j < |a| ==> Visited(order, table, a[j])
  }

  predicate Visited(order: seq<Id>, table: map<Id, Entry>, e: Entry) {
    exists id :: id in order && id in table && table[id] == e
  }

  lemma TransitionRoom(p: Peer, q: Peer, order: seq<Id>, refs: multiset<Ref>)
    requires TableOk(p) && Enumerates(order, p.table) && Visits(order, p.table) && Unique(refs)
    requires InsertedRefs(p.inserted) + Scripts(Entries(p.inserted)) <= refs
    requires q.table == p.table && q.inserted == p.inserted
    ensures Room(q, Scripts(Startable(order, p.table)))
    ensures InsertedRefs(p.inserted) + Scripts(Startable(order, p.table)) <= refs
  {
    var a, b := Startable(order, p.table), Entries(p.inserted);
    ListedLogged(p, order);
    SameTableOk(p, q);
    hide *;
    SubScripts(a, b);
    LessRefs(InsertedRefs(p.inserted), Scripts(a), Scripts(b), refs);
    RoomFor(q, InsertedRefs(p.inserted), Scripts(a));
  }

  lemma LessRefs(log: multiset<Ref>, some: multiset<Ref>, all: multiset<Ref>, refs: multiset<Ref>)
    requires log + all <= refs && some <= all && Unique(refs)
    ensures log + some <= refs && Unique(log + some)
  {
    assert forall r :: (log + some)[r] <= (log + all)[r] <= refs[r];
  }

  // What is listed at the transition differs and has been inserted.
  lemma ListedLogged(p: Peer, order: seq<Id>)
    requires TableOk(p) && Enumerates(order, p.table) && Visits(order, p.table)
    ensures Different(Startable(order, p.table)) && AllIn(Startable(order, p.table), Entries(p.inserted))
  {
    var a, b := Startable(order, p.table), Entries(p.inserted);
    ListedEntries(order, p.table);
    hide Startable;
    forall j | 0 <= j < |a|
      ensures a[j] in b
    {
      assert Visited(order, p.table, a[j]);
      var id :| id in order && id in p.table && p.table[id] == a[j];
      var k :| 0 <= k < |p.inserted| && p.inserted[k].entry == p.table[id];
      assert b[k] == a[j];
    }
  }

  // ---------- Whole runs ----------

  ghost predicate Starts(p: Peer, e: Event) {
    p.state == STARTING && e.InfoDone? && e.ok && Enumerates(e.order, p.table)
  }

  /** The table at the moment when the peer became STARTED; empty if it never did. */
  ghost function TableAtStart(events: seq<Event>): map<Id, Entry> {
    if events == [] then map[]
    else
      var p := Run(Front(events));
      if Starts(p, Last(events)) then p.table else TableAtStart(Front(events))
  }

  // Every entry of the table has been inserted while the peer was in the given state.
  predicate LoggedIn(log: seq<Insertion>, table: map<Id, Entry>, state: nat) {
    forall id :: id in table ==> exists k :: 0 <= k < |log| && log[k] == Insertion(table[id], state)
  }

  ghost predicate Ready(p: Peer, refs: multiset<Ref>) {
    && TableOk(p)
    && (if p.state == STARTING then InsertedRefs(p.inserted) + Scripts(Entries(p.inserted)) <= refs
        else InsertedRefs(p.inserted) <= refs)
    && (p.state == STARTING ==> LoggedIn(p.inserted, p.table, STARTING))
  }

  /** What the peer listed at the transition is what was startable in its table then. */
  ghost predicate Listed(p: Peer, table: map<Id, Entry>) {
    && LoggedIn(p.inserted, table, STARTING)
    && forall r :: multiset(p.present)[r] == if DueAtStart(table, r) then 1 else 0
  }

  ghost predicate DueAtStart(table: map<Id, Entry>, r: Ref) {
    exists id :: id in table && table[id].startable && table[id].ref == r
  }

  ghost predicate DueInline(log: seq<Insertion>, r: Ref) {
    exists k :: 0 <= k < |log| && StartedInline(log[k]) && log[k].entry.ref == r
  }

  lemma WasListed(p: Peer, q: Peer, table: map<Id, Entry>, state: nat)
    requires LoggedIn(p.inserted, table, state) && Extends(p, q)
    ensures LoggedIn(q.inserted, table, state)
  {
    forall id | id in table
      ensures exists k :: 0 <= k < |q.inserted| && q.inserted[k] == Insertion(table[id], state)
    {
      var k :| 0 <= k < |p.inserted| && p.inserted[k] == Insertion(table[id], state);
      assert q.inserted[k] == p.inserted[k];
    }
  }

  lemma InsertReady(p: Peer, id: Id, e: Entry, refs: multiset<Ref>)
    requires p.state <= STOPPED && Ready(p, refs) && Unique(refs + EntryRefs(e))
    ensures Ready(Inserted(p, id, e), refs + EntryRefs(e)) && Extends(p, Inserted(p, id, e))
  {
    assert InsertedRefs(p.inserted) <= refs;
    RoomFor(p, refs, EntryRefs(e));
    if p.state == STARTING {
      var q := Inserting(p, id, e);
      assert Inserted(p, id, e) == q;
      hide InsertedRefs, ScriptRefs, TableOk, LoggedIn, Room, Unique;
      RoomLeft(p, q, multiset{e.ref}, ScriptRefs(e.onStart));
      InsertingKept(p, id, e);
      InsertedSnoc(p.inserted, Insertion(e, p.state));
      ScriptsSnoc(p.inserted, Insertion(e, p.state));
      InsertLogged(p, id, e);
      hide Scripts, Entries;
      assert InsertedRefs(q.inserted) + Scripts(Entries(q.inserted)) <= refs + EntryRefs(e);
    } else {
      InsertedLater(p, id, e);
      hide InsertedRefs, TableOk, Room, Unique, Inserted, EntryRefs;
      InsertedKept(p, id, e);
    }
  }

  lemma RoomFor(p: Peer, refs: multiset<Ref>, more: multiset<Ref>)
    requires TableOk(p) && InsertedRefs(p.inserted) <= refs && Unique(refs + more)
    ensures Room(p, more)
  {
    hide TableOk, InsertedRefs;
    assert forall r :: (InsertedRefs(p.inserted) + more)[r] <= (refs + more)[r];
  }

  lemma ScriptsSnoc(log: seq<Insertion>, i: Insertion)
    ensures Scripts(Entries(log + [i])) == Scripts(Entries(log)) + ScriptRefs(i.entry.onStart)
  {
    var all := Entries(log + [i]);
    assert Front(all) == Entries(log) && Last(all) == i.entry;
  }

  lemma InsertLogged(p: Peer, id: Id, e: Entry)
    requires LoggedIn(p.inserted, p.table, p.state)
    ensures LoggedIn(Inserting(p, id, e).inserted, Inserting(p, id, e).table, p.state)
  {
    var q := Inserting(p, id, e);
    assert Extends(p, q);
    WasListed(p, q, p.table, p.state);
    assert q.inserted[|p.inserted|] == Insertion(e, p.state);
  }

  // The state changes, and entries may leave the table, but nothing is inserted.
  lemma SameReady(p: Peer, q: Peer, refs: multiset<Ref>)
    requires Ready(p, refs) && q.inserted == p.inserted && (q.state == STARTING ==> p.state == STARTING)
    requires forall id :: id in q.table ==> id in p.table && q.table[id] == p.table[id]
    ensures Ready(q, refs) && Extends(p, q)
  {
    SameLog(p, q);
    hide InsertedRefs, Scripts;
  }

  lemma TransitionReady(p: Peer, order: seq<Id>, refs: multiset<Ref>)
    requires Good(p) && Ready(p, refs) && p.state == STARTING && Enumerates(order, p.table) && Visits(order, p.table)
    requires Unique(refs)
    ensures var q := SetState(p, STARTED, order);
            && Ready(q, refs) && Extends(p, q) && q.state != STARTING
            && q.present == Refs(Startable(order, p.table))
  {
    var entries := Startable(order, p.table);
    var r := p.(state := STARTED, present := Refs(entries));
    StartAllLater(r, entries);
    hide Startable, Refs, InsertedRefs, Scripts, Entries, TableOk, Unique, LoggedIn, Room, Good;
    TransitionRoom(p, r, order, refs);
    StartAllKept(r, entries);
    var t, q := StartAll(r, entries), SetState(p, STARTED, order);
    SameTableOk(t, q);
  }

  ghost predicate Advances(p: Peer, e: Event, refs: multiset<Ref>) {
    && Ready(Next(p, e), refs + EventRefs(e)) && Extends(p, Next(p, e))
    && (!Starts(p, e) ==> Next(p, e).present == p.present)
    && (Starts(p, e) ==> Visits(e.order, p.table) && Next(p, e).present == Refs(Startable(e.order, p.table)))
  }

  // Neither an insertion nor the transition to STARTED.
  lemma QuietReady(p: Peer, e: Event, refs: multiset<Ref>)
    requires Ready(p, refs) && !e.EntryInsert? && !Starts(p, e)
    ensures Advances(p, e, refs)
  {
    var q := Next(p, e);
    assert refs + EventRefs(e) == refs;
    QuietNext(p, e);
    hide *;
    SameReady(p, q, refs);
    AdvancesIntro(p, e, refs);
  }

  lemma QuietNext(p: Peer, e: Event)
    requires !e.EntryInsert? && !Starts(p, e)
    ensures var q := Next(p, e);
            && q.inserted == p.inserted && q.present == p.present && (q.state == STARTING ==> p.state == STARTING)
            && forall id :: id in q.table ==> id in p.table && q.table[id] == p.table[id]
  {
    hide Startable, StartAll;
  }

  lemma AdvancesIntro(p: Peer, e: Event, refs: multiset<Ref>)
    requires Ready(Next(p, e), refs + EventRefs(e)) && Extends(p, Next(p, e))
    requires Next(p, e).present == p.present && !Starts(p, e)
    ensures Advances(p, e, refs)
  {
    hide Ready, Extends, Next, Starts, EventRefs;
  }

  lemma InsertAdvances(p: Peer, id: Id, entry: Entry, refs: multiset<Ref>)
    requires p.state <= STOPPED && Ready(p, refs) && Unique(refs + EntryRefs(entry))
    ensures Advances(p, EntryInsert(id, entry), refs)
  {
    InsertedLater(p, id, entry);
    hide Ready, EntryRefs, Unique, Inserted;
    InsertReady(p, id, entry, refs);
  }

  lemma TransitionAdvances(p: Peer, e: Event, refs: multiset<Ref>)
    requires Good(p) && Ready(p, refs) && Unique(refs) && Starts(p, e)
    ensures Advances(p, e, refs)
  {
    assert forall k :: 0 <= k < |e.order| ==> e.order[k] in e.order;
    assert refs + EventRefs(e) == refs;
    hide Ready, Unique, Good, SetState, Startable, Refs, Extends;
    TransitionReady(p, e.order, refs);
  }

  lemma NextReady(p: Peer, e: Event, refs: multiset<Ref>)
    requires Good(p) && Ready(p, refs) && Unique(refs + EventRefs(e))
    ensures Advances(p, e, refs)
  {
    assert p.state <= STOPPED;
    UniqueFewer(refs, EventRefs(e));
    hide Good, Ready, Unique, Advances, Starts;
    if e.EntryInsert? {
      InsertAdvances(p, e.id, e.entry, refs);
    } else if Starts(p, e) {
      TransitionAdvances(p, e, refs);
    } else {
      QuietReady(p, e, refs);
    }
  }

  // Each startable entry is listed once.
  lemma ListedOnce(order: seq<Id>, table: map<Id, Entry>, r: Ref)
    requires Enumerates(order, table) && Visits(order, table) && Distinct(table)
    ensures multiset(Refs(Startable(order, table)))[r] == if DueAtStart(table, r) then 1 else 0
  {
    StartableIsExact(order, table);
    hide Startable;
    var refs := Refs(Startable(order, table));
    if id :| id in table && table[id].startable && table[id].ref == r {
      assert id in order;
    } else {
      assert r !in refs;
    }
  }

  lemma {:induction false} RunReady(events: seq<Event>)
    requires Unique(RunRefs(events))
    ensures Ready(Run(events), RunRefs(events)) && Listed(Run(events), TableAtStart(events))
  {
    if events == [] {
      NothingReady();
    } else {
      var p, e, refs := Run(Front(events)), Last(events), RunRefs(Front(events));
      assert RunRefs(events) == refs + EventRefs(e);
      assert Run(events) == Next(p, e);
      hide *;
      UniqueFewer(refs, EventRefs(e));
      RunReady(Front(events));
      RunGood(Front(events));
      NextReady(p, e, refs);
      assert Ready(Next(p, e), refs + EventRefs(e)) by { AdvancesReady(p, e, refs); }
      NextListed(events, refs);
    }
  }

  lemma AdvancesReady(p: Peer, e: Event, refs: multiset<Ref>)
    requires Advances(p, e, refs)
    ensures Ready(Next(p, e), refs + EventRefs(e))
  {
    hide Ready, Next, Extends;
  }

  lemma NothingReady()
    ensures Ready(Run([]), RunRefs([])) && Listed(Run([]), TableAtStart([]))
  {
    assert Entries([]) == [];
  }

  lemma UniqueFewer(refs: multiset<Ref>, more: multiset<Ref>)
    requires Unique(refs + more)
    ensures Unique(refs)
  {
    assert forall r :: refs[r] <= (refs + more)[r];
  }

  lemma NextListed(events: seq<Event>, refs: multiset<Ref>)
    requires events != [] && Ready(Run(Front(events)), refs)
    requires Listed(Run(Front(events)), TableAtStart(Front(events)))
    requires Advances(Run(Front(events)), Last(events), refs)
    ensures Listed(Run(events), TableAtStart(events))
  {
    var p, e := Run(Front(events)), Last(events);
    hide Ready, Next, Startable, Refs, LoggedIn, Extends;
    if Starts(p, e) {
      NowListed(p, e, refs);
    } else {
      WasListed(p, Next(p, e), TableAtStart(Front(events)), STARTING);
    }
  }

  lemma NowListed(p: Peer, e: Event, refs: multiset<Ref>)
    requires Ready(p, refs) && Starts(p, e) && Visits(e.order, p.table) && Extends(p, Next(p, e))
    requires Next(p, e).present == Refs(Startable(e.order, p.table))
    ensures Listed(Next(p, e), p.table)
  {
    hide Next, Startable, Refs;
    WasListed(p, Next(p, e), p.table, STARTING);
    forall r
      ensures multiset(Next(p, e).present)[r] == if DueAtStart(p.table, r) then 1 else 0
    {
      ListedOnce(e.order, p.table, r);
    }
  }

  lemma {:induction false} InlineWithin(log: seq<Insertion>)
    ensures Inline(log) <= InsertedRefs(log)
  {
    if log != [] {
      InlineWithin(Front(log));
    }
  }

  lemma DueFront(log: seq<Insertion>, r: Ref)
    requires log != []
    ensures DueInline(log, r) <==> DueInline(Front(log), r) || (StartedInline(Last(log)) && Last(log).entry.ref == r)
  {
    if DueInline(Front(log), r) {
      var k :| 0 <= k < |Front(log)| && StartedInline(Front(log)[k]) && Front(log)[k].entry.ref == r;
      assert log[k] == Front(log)[k];
    }
    if DueInline(log, r) {
      var k :| 0 <= k < |log| && StartedInline(log[k]) && log[k].entry.ref == r;
      assert k < |log| - 1 ==> Front(log)[k] == log[k];
    }
  }

  lemma {:induction false} InlineIs(log: seq<Insertion>, r: Ref)
    requires Unique(InsertedRefs(log))
    ensures Inline(log)[r] == if DueInline(log, r) then 1 else 0
  {
    if log != [] {
      var i, before := Last(log), InsertedRefs(Front(log));
      assert InsertedRefs(log) == before + multiset{i.entry.ref};
      assert Inline(log) == Inline(Front(log)) + if StartedInline(i) then multiset{i.entry.ref} else multiset{};
      hide InsertedRefs, Inline;
      UniqueFewer(before, multiset{i.entry.ref});
      InlineIs(Front(log), r);
      InlineWithin(Front(log));
      DueFront(log, r);
      hide DueInline;
      assert (before + multiset{i.entry.ref})[i.entry.ref] == before[i.entry.ref] + 1;
    }
  }

  /** Over every run in which no entry is inserted twice, by an event or by a callback:
      the start callback of an entry has run exactly once if the entry is startable and
      was in the table when the peer became STARTED, or was inserted while it was, by
      another start callback for instance; and otherwise it has not run. */
  lemma StartedExactlyOnce(events: seq<Event>, r: Ref)
    requires Unique(RunRefs(events))
    ensures multiset(Run(events).started)[r]
            == if DueAtStart(TableAtStart(events), r) || DueInline(Run(events).inserted, r) then 1 else 0
  {
    RunReady(events);
    StartedAsDue(events);
    hide *;
    var p, table := Run(events), TableAtStart(events);
    ReadyLog(p, RunRefs(events), table);
    InlineIs(p.inserted, r);
    NotTwice(p.inserted, table, r);
    assert (multiset(p.present) + Inline(p.inserted))[r] == multiset(p.present)[r] + Inline(p.inserted)[r];
  }

  lemma ReadyLog(p: Peer, refs: multiset<Ref>, table: map<Id, Entry>)
    requires Ready(p, refs) && Listed(p, table) && Unique(refs)
    ensures Unique(InsertedRefs(p.inserted)) && LoggedIn(p.inserted, table, STARTING)
    ensures forall r :: multiset(p.present)[r] == if DueAtStart(table, r) then 1 else 0
  {
    assert InsertedRefs(p.inserted) <= refs;
    hide InsertedRefs, LoggedIn, DueAtStart, TableOk, Scripts;
  }

  // An entry of the table at the transition is not inserted again.
  lemma NotTwice(log: seq<Insertion>, table: map<Id, Entry>, r: Ref)
    requires Unique(InsertedRefs(log)) && LoggedIn(log, table, STARTING)
    ensures !DueAtStart(table, r) || !DueInline(log, r)
  {
    hide Unique, InsertedRefs;
    if DueAtStart(table, r) && DueInline(log, r) {
      var id :| id in table && table[id].startable && table[id].ref == r;
      var j :| 0 <= j < |log| && log[j] == Insertion(table[id], STARTING);
      var k :| 0 <= k < |log| && StartedInline(log[k]) && log[k].entry.ref == r;
      UniqueLog(log, if j < k then j else k, if j < k then k else j);
      assert false;
    }
  }

  // ---------- Entries that are gone when their turn comes ----------

  // A script puts an entry into the table under an id, or takes out what is there.
  datatype Touch = Put(id: Id, entry: Entry) | Del(id: Id)

  function EndState(state: nat, s: Script): nat
    decreases s
  {
    match s
    case Done => state
    case Insert(_, e, rest) => EndState(if Runs(state, e) then EndState(state, e.onStart) else state, rest)
    case Remove(_, rest) => EndState(state, rest)
    case Stop(rest) => EndState(if STOPPED > state then STOPPED else state, rest)
  }

  predicate Runs(state: nat, e: Entry) {
    state == STARTED && e.startable
  }

  /** What a script does to the table, in order, with the callbacks of the entries that it
      inserts; these run only while the peer is STARTED. */
  function Touches(state: nat, s: Script): seq<Touch>
    decreases s
  {
    match s
    case Done => []
    case Insert(id, e, rest) =>
      [Put(id, e)] + (if Runs(state, e) then Touches(state, e.onStart) else [])
      + Touches(if Runs(state, e) then EndState(state, e.onStart) else state, rest)
    case Remove(id, rest) => [Del(id)] + Touches(state, rest)
    case Stop(rest) => Touches(if STOPPED > state then STOPPED else state, rest)
  }

  function AllEnd(state: nat, entries: seq<Entry>): nat {
    if entries == [] then state else EndState(AllEnd(state, Front(entries)), Last(entries).onStart)
  }

  function AllTouches(state: nat, entries: seq<Entry>): seq<Touch> {
    if entries == [] then []
    else AllTouches(state, Front(entries)) + Touches(AllEnd(state, Front(entries)), Last(entries).onStart)
  }

  /** The last thing done to the id is to remove what is there, or to put something else in
      the place of the entry. */
  predicate Gone(touches: seq<Touch>, id: Id, e: Entry) {
    exists j :: 0 <= j < |touches| && Ousts(touches[j], id, e) && Untouched(touches, j + 1, id)
  }

  predicate Ousts(t: Touch, id: Id, e: Entry) {
    t.id == id && t != Put(id, e)
  }

  // Nothing is done to the id from the k-th touch on.
  predicate Untouched(touches: seq<Touch>, k: nat, id: Id) {
    forall i :: k <= i < |touches| ==> touches[i].id != id
  }

  function Replay(table: map<Id, Entry>, touches: seq<Touch>): map<Id, Entry> {
    if touches == [] then table else Touched(Replay(table, Front(touches)), Last(touches))
  }

  function Touched(table: map<Id, Entry>, t: Touch): map<Id, Entry> {
    if t.Put? then table[t.id := t.entry] else table - {t.id}
  }

  lemma {:induction false} ReplayConcat(table: map<Id, Entry>, a: seq<Touch>, b: seq<Touch>)
    ensures Replay(table, a + b) == Replay(Replay(table, a), b)
  {
    if b == [] {
      assert a + b == a;
    } else {
      ReplayConcat(table, a, Front(b));
      assert Front(a + b) == a + Front(b);
    }
  }

  lemma ReplayOne(table: map<Id, Entry>, t: Touch)
    ensures Replay(table, [t]) == Touched(table, t)
  {
    assert Front([t]) == [];
  }

  lemma GoneFront(touches: seq<Touch>, id: Id, e: Entry)
    requires touches != []
    ensures Gone(touches, id, e) <==>
              Ousts(Last(touches), id, e) || (Last(touches).id != id && Gone(Front(touches), id, e))
  {
    var front := Front(touches);
    assert forall k :: 0 <= k < |front| ==> touches[k] == front[k];
    assert touches[|front|] == Last(touches);
    if Gone(touches, id, e) {
      var j :| 0 <= j < |touches| && Ousts(touches[j], id, e) && Untouched(touches, j + 1, id);
      if j < |front| {
        assert Ousts(front[j], id, e) && Untouched(front, j + 1, id);
      }
    }
    if Ousts(Last(touches), id, e) {
      assert Untouched(touches, |front| + 1, id);
    }
    if Last(touches).id != id && Gone(front, id, e) {
      var j :| 0 <= j < |front| && Ousts(front[j], id, e) && Untouched(front, j + 1, id);
      assert Ousts(touches[j], id, e) && Untouched(touches, j + 1, id);
    }
  }

  // The table holds that very entry under the id.
  predicate Holds(table: map<Id, Entry>, id: Id, e: Entry) {
    id in table && table[id] == e
  }

  lemma {:induction false} ReplayGone(table: map<Id, Entry>, touches: seq<Touch>, id: Id, e: Entry)
    requires Holds(table, id, e)
    ensures !Holds(Replay(table, touches), id, e) <==> Gone(touches, id, e)
  {
    if touches != [] {
      ReplayGone(table, Front(touches), id, e);
      GoneFront(touches, id, e);
      hide Gone;
    }
  }

  // What is in the table and the state of the peer are what the scripts make of them.
  predicate Replays(p: Peer, q: Peer, touches: seq<Touch>, state: nat) {
    q.table == Replay(p.table, touches) && q.state == state && p.started <= q.started
  }

  lemma ReplaysTrans(p: Peer, q: Peer, r: Peer, a: seq<Touch>, b: seq<Touch>, s: nat, t: nat)
    requires Replays(p, q, a, s) && Replays(q, r, b, t)
    ensures Replays(p, r, a + b, t)
  {
    ReplayConcat(p.table, a, b);
  }

  lemma {:induction false} PerformReplays(p: Peer, s: Script)
    ensures Replays(p, Perform(p, s), Touches(p.state, s), EndState(p.state, s))
    decreases s
  {
    match s
    case Done =>
    case Insert(id, e, rest) =>
      var q := Inserted(p, id, e);
      var more := if Runs(p.state, e) then Touches(p.state, e.onStart) else [];
      InsertedReplays(p, id, e);
      assert q.state == if Runs(p.state, e) then EndState(p.state, e.onStart) else p.state;
      hide Replays;
      PerformReplays(q, rest);
      ReplaysTrans(p, q, Perform(p, s), [Put(id, e)] + more, Touches(q.state, rest), q.state, EndState(q.state, rest));
    case Remove(id, rest) =>
      var q := p.(table := p.table - {id});
      ReplayOne(p.table, Del(id));
      assert Replays(p, q, [Del(id)], p.state);
      PerformReplays(q, rest);
      hide Replays;
      ReplaysTrans(p, q, Perform(p, s), [Del(id)], Touches(p.state, rest), p.state, EndState(p.state, rest));
    case Stop(rest) =>
      var q := Stopped(p);
      assert Replays(p, q, [], q.state);
      PerformReplays(q, rest);
      hide Replays;
      ReplaysTrans(p, q, Perform(p, s), [], Touches(q.state, rest), q.state, EndState(q.state, rest));
      assert [] + Touches(q.state, rest) == Touches(q.state, rest);
  }

  lemma {:induction false} InsertedReplays(p: Peer, id: Id, e: Entry)
    ensures Replays(p, Inserted(p, id, e), [Put(id, e)] + if Runs(p.state, e) then Touches(p.state, e.onStart) else [],
                    if Runs(p.state, e) then EndState(p.state, e.onStart) else p.state)
    decreases e, 1
  {
    var q := Inserting(p, id, e);
    ReplayOne(p.table, Put(id, e));
    assert Replays(p, q, [Put(id, e)], p.state);
    assert [Put(id, e)] + [] == [Put(id, e)];
    if Runs(p.state, e) {
      hide Replays;
      StartedReplays(q, e);
      ReplaysTrans(p, q, Inserted(p, id, e), [Put(id, e)], Touches(p.state, e.onStart), p.state,
                   EndState(p.state, e.onStart));
    }
  }

  lemma {:induction false} StartedReplays(p: Peer, e: Entry)
    ensures Replays(p, Started(p, e), Touches(p.state, e.onStart), EndState(p.state, e.onStart))
    ensures p.started + [e.ref] <= Started(p, e).started
    decreases e, 0
  {
    PerformReplays(p.(started := p.started + [e.ref]), e.onStart);
  }

  lemma {:induction false} StartAllReplays(p: Peer, entries: seq<Entry>)
    ensures Replays(p, StartAll(p, entries), AllTouches(p.state, entries), AllEnd(p.state, entries))
  {
    if entries != [] {
      var q, e := StartAll(p, Front(entries)), Last(entries);
      StartAllReplays(p, Front(entries));
      StartedReplays(q, e);
      assert q.state == AllEnd(p.state, Front(entries));
      hide Replays;
      ReplaysTrans(p, q, StartAll(p, entries), AllTouches(p.state, Front(entries)), Touches(q.state, e.onStart),
                   q.state, EndState(q.state, e.onStart));
    }
  }

  // The ids of the entries that are listed at the transition.
  function ListedIds(order: seq<Id>, table: map<Id, Entry>): seq<Id>
    requires Visits(order, table)
  {
    if order == [] then []
    else ListedIds(Front(order), table) + if table[Last(order)].startable then [Last(order)] else []
  }

  lemma {:induction false} ListedUnder(order: seq<Id>, table: map<Id, Entry>)
    requires Visits(order, table)
    ensures var ids, entries := ListedIds(order, table), Startable(order, table);
            && |ids| == |entries|
            && forall k :: 0 <= k < |ids| ==> ids[k] in table && entries[k] == table[ids[k]]
  {
    if order != [] {
      ListedUnder(Front(order), table);
    }
  }

  lemma {:induction false} StartedPrefix(p: Peer, entries: seq<Entry>, k: nat)
    requires k <= |entries|
    ensures StartAll(p, entries[..k]).started <= StartAll(p, entries).started
  {
    if k == |entries| {
      assert entries[..k] == entries;
    } else {
      assert Front(entries)[..k] == entries[..k];
      StartedPrefix(p, Front(entries), k);
      StartedReplays(StartAll(p, Front(entries)), Last(entries));
    }
  }

  /** At the transition every entry of the list is started when its turn comes. By then it
      has left the table if and only if, in the callbacks run before, the last thing done
      to its id was to remove what was there or to put another entry in its place. */
  lemma StartedAfterRemoval(p: Peer, order: seq<Id>, k: nat)
    requires p.state == STARTING && Visits(order, p.table) && k < |ListedIds(order, p.table)|
    ensures |Startable(order, p.table)| == |ListedIds(order, p.table)|
    ensures var id, entries := ListedIds(order, p.table)[k], Startable(order, p.table);
            var before := StartAll(p.(state := STARTED, present := Refs(entries)), entries[..k]);
            && id in p.table && entries[k] == p.table[id]
            && before.started + [entries[k].ref] <= SetState(p, STARTED, order).started
            && (!Holds(before.table, id, entries[k]) <==> Gone(AllTouches(STARTED, entries[..k]), id, entries[k]))
  {
    ListedUnder(order, p.table);
    var id, entries := ListedIds(order, p.table)[k], Startable(order, p.table);
    var r := p.(state := STARTED, present := Refs(entries));
    assert Front(entries[..k + 1]) == entries[..k] && Last(entries[..k + 1]) == entries[k];
    StartedReplays(StartAll(r, entries[..k]), entries[k]);
    StartedPrefix(r, entries, k + 1);
    StartAllReplays(r, entries[..k]);
    ReplayGone(p.table, AllTouches(STARTED, entries[..k]), id, entries[k]);
    hide Refs, Startable, Gone, Replay, AllTouches, AllEnd;
  }

  // An instance: the first of two callbacks removes the second entry.
  lemma RemovedAndStarted()
    ensures var p := CREATED.(table := map[1 := Entry(10, true, Remove(2, Done)), 2 := Entry(20, true, Done)]);
            var q := SetState(p, STARTED, [1, 2]);
            q.started == [10, 20] && 2 !in q.table
  {
    var a, b := Entry(10, true, Remove(2, Done)), Entry(20, true, Done);
    var p := CREATED.(table := map[1 := a, 2 := b]);
    assert Front([1, 2]) == [1] && Front([1]) == [];
    StartableSnoc([1], p.table);
    StartableSnoc([1, 2], p.table);
    assert Startable([], p.table) == [] && [] + [a] == [a] && [a] + [b] == [a, b];
    assert Front([a, b]) == [a] && Front([a]) == [];
    var r := p.(state := STARTED, present := Refs([a, b]));
    assert StartAll(r, [a]) == Started(r, a);
    assert Started(r, a).table == r.table - {2};
  }
}

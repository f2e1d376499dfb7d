/** The end of the peer: the socket table is emptied at once, and then the destroy callback
    of every entry runs, in any order. The callbacks find no entry in the table any more, so
    nothing is signalled; but connections are shared with the maps of their parents. */
module TableDisposal {
  import opened Base
  import opened Table
  import opened TableChain
  import TableRuns
  import Connection

  /** The table is empty, and the reference it had to every connection is in hand. */
  function Cleared(s: State): State {
    s.(sockets := map[], held := s.held + multiset(s.conns.Keys))
  }

  // The destroy callback of a connection in the socket table.
  function ConnDisposed(s: State, r: Ref): State
    requires r in s.conns && s.conns[r].refs > 0
  {
    Unref(DisposedConn(s, r), r)
  }

  /** The destroy callback of a connection in the address map of a parent: it is stopped,
      not found in the socket table, and let go. */
  function LetGo(s: State, r: Ref): State
    requires r in s.conns && s.conns[r].refs > 0
  {
    s.(conns := Release(s.conns, r, s.conns[r].conn.(io := false), 1), held := s.held - multiset{r})
  }

  lemma LetGoIsDetached(s: State, r: Ref)
    requires r in s.conns && RefsExact(s, r) && r in s.held && s.sockets == map[]
    ensures Detached(s, r) == LetGo(s, r)
  {
  }

  // None if a connection were used after it has been freed; PeerDisposed shows it is not.
  function LetGoAll(s: State, kids: seq<Ref>): Option<State> {
    if kids == [] then Some(s)
    else
      var t := LetGoAll(s, Front(kids));
      if t.Some? && Last(kids) in t.value.conns && t.value.conns[Last(kids)].refs > 0
      then Some(LetGo(t.value, Last(kids))) else None
  }

  // The destroy callback of a listener or a local forwarder; kids: its connections, in the
  // order in which the destroy callbacks of its address map run.
  function ParentDisposed(s: State, h: Ref, kids: seq<Ref>): Option<State> {
    if h !in s.parents then None
    else
      var t := LetGoAll(Emptied(s, h), kids);
      if t.Some? then
        Some(FreeParent(t.value, h).(parentCloses := t.value.parentCloses + ParentClose(s.parents[h], h)))
      else None
  }

  datatype Turn = Turn(id: Id, kids: seq<Ref>)

  function EntryDisposed(s: State, e: Entry, kids: seq<Ref>): Option<State> {
    match e
    case ConnE(r) => if r in s.conns && s.conns[r].refs > 0 then Some(ConnDisposed(s, r)) else None
    case ParentE(h) => ParentDisposed(s, h, kids)
    case OtherE(_) => Some(s)
  }

  /** The destroy callbacks of the entries that were in the table, one after the other. */
  function AllDisposed(s: State, turns: seq<Turn>): Option<State> {
    if turns == [] then Some(Cleared(s))
    else
      var t := AllDisposed(s, Front(turns));
      if t.Some? && Last(turns).id in s.sockets
      then EntryDisposed(t.value, s.sockets[Last(turns).id], Last(turns).kids) else None
  }

  // ---------- Connections ----------

  /** out: the connections whose own callback has run; loose: those that their parent has
      let go. A connection is there as long as one of the two has not happened. */
  function ConnsLeft(conns: map<Ref, Slot>, out: set<Ref>, loose: set<Ref>): map<Ref, Slot> {
    map r | r in conns && (r !in out || r !in loose) ::
      Slot(ConnLeft(conns[r].conn, r in out, r in loose), conns[r].parent,
           if r !in out && r !in loose then 2 else 1)
  }

  function ConnLeft(c: Connection.Conn, out: bool, loose: bool): Connection.Conn {
    if out then Connection.Dispose(c).conn else if loose then c.(io := false) else c
  }

  lemma OneOut(conns: map<Ref, Slot>, out: set<Ref>, loose: set<Ref>, r: Ref)
    requires r in conns && r !in out
    ensures var left := ConnsLeft(conns, out, loose);
            && r in left && left[r].refs > 0 && left[r].conn.rid == conns[r].conn.rid
            && var d := Connection.Dispose(left[r].conn).conn;
               Release(left[r := left[r].(conn := d)], r, d, 1) == ConnsLeft(conns, out + {r}, loose)
  {
  }

  lemma OneLoose(conns: map<Ref, Slot>, out: set<Ref>, loose: set<Ref>, r: Ref)
    requires r in conns && r !in loose
    ensures var left := ConnsLeft(conns, out, loose);
            && r in left && left[r].refs > 0
            && Release(left, r, left[r].conn.(io := false), 1) == ConnsLeft(conns, out, loose + {r})
  {
  }

  lemma AllLeft(conns: map<Ref, Slot>)
    requires forall r :: r in conns ==> conns[r].refs == 2
    ensures ConnsLeft(conns, {}, {}) == conns && ConnsLeft(conns, conns.Keys, conns.Keys) == map[]
  {
  }

  // ---------- Between two callbacks ----------

  function OutOf(s: State, ids: set<Id>): set<Ref> {
    set r | r in s.conns && s.conns[r].conn.id in ids
  }

  function LooseOf(s: State, ids: set<Id>): set<Ref> {
    set r | r in s.conns && s.conns[r].parent in s.parents && s.parents[s.conns[r].parent].id in ids
  }

  function ParentsLeft(s: State, ids: set<Id>): map<Ref, Parent> {
    map h | h in s.parents && s.parents[h].id !in ids :: s.parents[h]
  }

  function Closing(s: State, out: set<Ref>): set<(Ref, Id)> {
    set r | r in out && r in s.conns && s.conns[r].conn.rid != 0 :: (r, s.conns[r].conn.rid)
  }

  function ParentsClosing(s: State, ids: set<Id>): set<(Ref, Id)> {
    set h | h in s.parents && s.parents[h].id in ids && s.parents[h].kind == Listen && s.parents[h].rid != 0
      :: (h, s.parents[h].rid)
  }

  predicate Logs(s: State, t: State, ids: set<Id>) {
    && t.sockets == map[] && t.signals == s.signals
    && t.closes == s.closes + multiset(Closing(s, OutOf(s, ids)))
    && t.parentCloses == s.parentCloses + multiset(ParentsClosing(s, ids))
  }

  /** Where the tables are when the callbacks of these ids have run. */
  predicate Mid(s: State, t: State, ids: set<Id>) {
    && Logs(s, t, ids)
    && t.conns == ConnsLeft(s.conns, OutOf(s, ids), LooseOf(s, ids))
    && t.held == multiset(s.conns.Keys - OutOf(s, ids))
    && t.parents == ParentsLeft(s, ids)
    && forall h :: h in t.handlers ==> h in t.parents
  }

  predicate ConnOwned(s: State, r: Ref)
    requires r in s.conns
  {
    s.conns[r].refs == 2 && s.conns[r].parent in s.parents && InSockets(s, r)
  }

  predicate ParentOwned(s: State, h: Ref)
    requires h in s.parents
  {
    s.parents[h].id in s.sockets && s.sockets[s.parents[h].id] == ParentE(h)
  }

  predicate IsChild(s: State, h: Ref, r: Ref) {
    r in s.conns && s.conns[r].parent == h
  }

  ghost predicate KidsOwned(s: State, h: Ref)
    requires h in s.parents
  {
    forall r :: r in Children(s, h) <==> IsChild(s, h, r)
  }

  // What settled tables tell about the entries of the socket table.
  ghost predicate Owned(s: State) {
    && (forall r :: r in s.conns ==> ConnOwned(s, r))
    && (forall h :: h in s.parents ==> ParentOwned(s, h) && KidsOwned(s, h))
    && AllTabled(s)
    && (forall h :: h in s.handlers ==> h in s.parents) && s.held == multiset{}
  }

  lemma SettledConn(s: State, r: Ref)
    requires Settled(s) && r in s.conns
    ensures ConnOwned(s, r)
  {
    assert InSockets(s, r) && Linked(s, r) && RefsExact(s, r);
  }

  lemma SettledParent(s: State, h: Ref)
    requires Settled(s) && h in s.parents
    ensures ParentOwned(s, h) && KidsOwned(s, h)
  {
    hide AllMirror, InBothTables, AllTabled, Counted, IdsUnique;
    forall r
      ensures r in Children(s, h) <==> IsChild(s, h, r)
    {
      KidsKnown(s, h, r);
    }
  }

  lemma SettledOwned(s: State)
    requires Settled(s)
    ensures Owned(s)
  {
    hide AllMirror, InBothTables, AllTabled, Counted, IdsUnique, ParentsTabled, KidsOwned, ParentOwned, ConnOwned;
    assert AllTabled(s) && NoneDangling(s);
    forall r | r in s.conns
      ensures ConnOwned(s, r)
    {
      SettledConn(s, r);
    }
    forall h | h in s.parents
      ensures ParentOwned(s, h) && KidsOwned(s, h)
    {
      SettledParent(s, h);
    }
  }

  lemma KidsKnown(s: State, h: Ref, r: Ref)
    requires AllMirror(s) && InBothTables(s) && h in s.parents
    ensures r in s.parents[h].addrMap.Values <==> r in s.conns && s.conns[r].parent == h
  {
    assert Mirror(s, h);
    if r in s.parents[h].addrMap.Values {
      var a :| a in s.parents[h].addrMap && s.parents[h].addrMap[a] == r;
      assert AddrEntry(s, h, a);
    }
    if r in s.conns && s.conns[r].parent == h {
      assert Linked(s, r);
    }
  }

  lemma NothingRun(s: State)
    requires Owned(s)
    ensures Mid(s, Cleared(s), {})
  {
    hide ConnsLeft, OutOf, LooseOf, ParentsLeft, ParentsClosing, Closing, AllTabled, ConnOwned, ParentOwned, KidsOwned;
    assert ConnsLeft(s.conns, {}, {}) == s.conns by {
      forall r | r in s.conns
        ensures s.conns[r].refs == 2
      {
        RefsOwned(s, r);
      }
      AllLeft(s.conns);
    }
    NoSets(s);
    var t := Cleared(s);
    assert Logs(s, t, {}) by {
      hide Owned;
      assert s.closes + multiset{} == s.closes && s.parentCloses + multiset{} == s.parentCloses;
    }
    hide Logs;
    assert t.held == multiset(s.conns.Keys - {}) by {
      assert s.conns.Keys - {} == s.conns.Keys;
      assert multiset{} + multiset(s.conns.Keys) == multiset(s.conns.Keys);
    }
  }

  lemma RefsOwned(s: State, r: Ref)
    requires r in s.conns && ConnOwned(s, r)
    ensures s.conns[r].refs == 2
  {
  }

  lemma NoSets(s: State)
    ensures OutOf(s, {}) == {} && LooseOf(s, {}) == {} && Closing(s, {}) == {} && ParentsClosing(s, {}) == {}
    ensures ParentsLeft(s, {}) == s.parents
  {
  }

  // ---------- A connection's turn ----------

  lemma ConnSets(s: State, ids: set<Id>, r: Ref)
    requires Owned(s) && r in s.conns && s.conns[r].conn.id !in ids
    ensures var more := ids + {s.conns[r].conn.id};
            && OutOf(s, more) == OutOf(s, ids) + {r} && r !in OutOf(s, ids)
            && LooseOf(s, more) == LooseOf(s, ids) && ParentsLeft(s, more) == ParentsLeft(s, ids)
            && ParentsClosing(s, more) == ParentsClosing(s, ids)
  {
  }

  lemma OneClosing(s: State, out: set<Ref>, r: Ref)
    requires r in s.conns && r !in out
    ensures multiset(Closing(s, out + {r})) == multiset(Closing(s, out)) + CloseOf(r, s.conns[r].conn.rid)
  {
    var c := (r, s.conns[r].conn.rid);
    if s.conns[r].conn.rid != 0 {
      assert Closing(s, out + {r}) == Closing(s, out) + {c} && c !in Closing(s, out);
    } else {
      assert Closing(s, out + {r}) == Closing(s, out);
    }
  }

  lemma OneLessHeld(keys: set<Ref>, out: set<Ref>, r: Ref)
    requires r in keys && r !in out
    ensures multiset(keys - out) - multiset{r} == multiset(keys - (out + {r}))
  {
    assert keys - out == keys - (out + {r}) + {r};
  }

  lemma ConnTurn(s: State, t: State, ids: set<Id>, r: Ref)
    requires Owned(s) && Mid(s, t, ids) && r in s.conns && s.conns[r].conn.id !in ids
    ensures r in t.conns && t.conns[r].refs > 0
    ensures Mid(s, ConnDisposed(t, r), ids + {s.conns[r].conn.id})
  {
    ConnSets(s, ids, r);
    OneOut(s.conns, OutOf(s, ids), LooseOf(s, ids), r);
    OneLessHeld(s.conns.Keys, OutOf(s, ids), r);
    hide Owned, OutOf, LooseOf, ParentsLeft, ConnsLeft, Connection.Dispose, Release;
    ConnLogs(s, t, ids, r);
    hide Logs;
  }

  lemma ConnLogs(s: State, t: State, ids: set<Id>, r: Ref)
    requires Owned(s) && Logs(s, t, ids) && r in s.conns && s.conns[r].conn.id !in ids
    requires r in t.conns && t.conns[r].refs > 0 && t.conns[r].conn.rid == s.conns[r].conn.rid
    ensures Logs(s, ConnDisposed(t, r), ids + {s.conns[r].conn.id})
  {
    ConnSets(s, ids, r);
    OneClosing(s, OutOf(s, ids), r);
    hide Owned, OutOf, LooseOf, ParentsLeft, ParentsClosing, Closing, Connection.Dispose, Release, CloseOf;
  }

  // ---------- A parent's turn ----------

  // The parent's maps are empty, and the first kids have been let go.
  predicate Loosening(s: State, t: State, u: State, ids: set<Id>, h: Ref, done: set<Ref>) {
    && h in t.parents && h in s.parents
    && u == t.(conns := u.conns, held := u.held, parents := Emptied(t, h).parents)
    && u.conns == ConnsLeft(s.conns, OutOf(s, ids), LooseOf(s, ids) + done)
    && u.held == multiset(s.conns.Keys - OutOf(s, ids)) + multiset(Children(s, h) - done)
  }

  function SetOf(kids: seq<Ref>): set<Ref> {
    set r | r in kids
  }

  predicate KidsOf(s: State, h: Ref, kids: seq<Ref>) {
    && h in s.parents && SetOf(kids) == Children(s, h)
    && forall j, k :: 0 <= j < k < |kids| ==> kids[j] != kids[k]
  }

  lemma StillThere(s: State, t: State, ids: set<Id>, h: Ref)
    requires Owned(s) && Mid(s, t, ids) && h in s.parents && s.parents[h].id !in ids
    ensures h in t.parents && t.parents[h] == s.parents[h] && Children(t, h) == Children(s, h)
    ensures Children(s, h) !! LooseOf(s, ids) && Children(s, h) <= s.conns.Keys
  {
    hide ConnsLeft, Logs;
  }

  lemma FirstLoosening(s: State, t: State, ids: set<Id>, h: Ref)
    requires Owned(s) && Mid(s, t, ids) && h in s.parents && s.parents[h].id !in ids
    ensures h in t.parents && Loosening(s, t, Emptied(t, h), ids, h, {})
  {
    StillThere(s, t, ids, h);
    hide Owned, ConnsLeft, OutOf, LooseOf, ParentsLeft, Logs, Children;
    assert LooseOf(s, ids) + {} == LooseOf(s, ids) && Children(s, h) - {} == Children(s, h);
  }

  lemma OneMoreLoose(s: State, t: State, u: State, ids: set<Id>, h: Ref, done: set<Ref>, r: Ref)
    requires Loosening(s, t, u, ids, h, done) && r in Children(s, h) && r !in done && r in s.conns
    requires r !in LooseOf(s, ids)
    ensures r in u.conns && u.conns[r].refs > 0
    ensures Loosening(s, t, LetGo(u, r), ids, h, done + {r})
  {
    OneLoose(s.conns, OutOf(s, ids), LooseOf(s, ids) + done, r);
    assert LooseOf(s, ids) + done + {r} == LooseOf(s, ids) + (done + {r});
    OneLessHeld(Children(s, h), done, r);
    hide ConnsLeft, OutOf, LooseOf, Release, Children;
    var held := multiset(s.conns.Keys - OutOf(s, ids));
    assert r in multiset(Children(s, h) - done);
    assert held + multiset(Children(s, h) - done) - multiset{r}
           == held + (multiset(Children(s, h) - done) - multiset{r});
  }

  lemma {:induction false} AllLoose(s: State, t: State, ids: set<Id>, h: Ref, kids: seq<Ref>)
    requires Owned(s) && Mid(s, t, ids) && h in s.parents && s.parents[h].id !in ids
    requires SetOf(kids) <= Children(s, h)
    requires forall j, k :: 0 <= j < k < |kids| ==> kids[j] != kids[k]
    ensures h in t.parents
    ensures LetGoAll(Emptied(t, h), kids).Some?
    ensures Loosening(s, t, LetGoAll(Emptied(t, h), kids).value, ids, h, SetOf(kids))
  {
    hide Owned, Mid, Loosening, LetGo, LooseOf, Children, Emptied;
    StillThere(s, t, ids, h);
    if kids == [] {
      FirstLoosening(s, t, ids, h);
      assert SetOf(kids) == {};
    } else {
      var r, before := kids[|kids| - 1], kids[..|kids| - 1];
      assert SetOf(kids) == SetOf(before) + {r} && r !in SetOf(before);
      AllLoose(s, t, ids, h, before);
      assert r in Children(s, h) && r in s.conns.Keys;
      OneMoreLoose(s, t, LetGoAll(Emptied(t, h), before).value, ids, h, SetOf(before), r);
    }
  }

  lemma ParentSets(s: State, ids: set<Id>, h: Ref)
    requires Owned(s) && h in s.parents && s.parents[h].id !in ids
    ensures var more := ids + {s.parents[h].id};
            && OutOf(s, more) == OutOf(s, ids) && LooseOf(s, more) == LooseOf(s, ids) + Children(s, h)
            && ParentsLeft(s, more) == ParentsLeft(s, ids) - {h}
  {
    forall r
      ensures r in Children(s, h) <==> r in s.conns && s.conns[r].parent == h
    {
      assert KidsOwned(s, h);
      assert r in Children(s, h) <==> IsChild(s, h, r);
    }
  }

  lemma OneParentClosing(s: State, ids: set<Id>, h: Ref)
    requires Owned(s) && h in s.parents && s.parents[h].id !in ids
    ensures multiset(ParentsClosing(s, ids + {s.parents[h].id}))
            == multiset(ParentsClosing(s, ids)) + ParentClose(s.parents[h], h)
  {
    var more, c := ids + {s.parents[h].id}, (h, s.parents[h].rid);
    assert forall g :: g in s.parents && s.parents[g].id == s.parents[h].id ==> g == h;
    if s.parents[h].kind == Listen && s.parents[h].rid != 0 {
      assert ParentsClosing(s, more) == ParentsClosing(s, ids) + {c} && c !in ParentsClosing(s, ids);
    } else {
      assert ParentsClosing(s, more) == ParentsClosing(s, ids);
    }
  }

  lemma ParentTurn(s: State, t: State, ids: set<Id>, h: Ref, kids: seq<Ref>)
    requires Owned(s) && Mid(s, t, ids) && KidsOf(s, h, kids) && s.parents[h].id !in ids
    ensures ParentDisposed(t, h, kids).Some?
    ensures Mid(s, ParentDisposed(t, h, kids).value, ids + {s.parents[h].id})
  {
    StillThere(s, t, ids, h);
    AllLoose(s, t, ids, h, kids);
    hide Owned;
    var u := LetGoAll(Emptied(t, h), kids).value;
    assert ParentDisposed(t, h, kids)
        == Some(Finished(s, u, h));
    hide LetGoAll, KidsOf, ParentDisposed;
    LastLoose(s, t, u, ids, h);
  }

  function Finished(s: State, u: State, h: Ref): State
    requires h in s.parents
  {
    FreeParent(u, h).(parentCloses := u.parentCloses + ParentClose(s.parents[h], h))
  }

  lemma FinishedParts(s: State, u: State, h: Ref)
    requires h in s.parents
    ensures var v := Finished(s, u, h); v.conns == u.conns && v.held == u.held && v.parents == u.parents - {h}
  {
  }

  lemma LastLoose(s: State, t: State, u: State, ids: set<Id>, h: Ref)
    requires Owned(s) && Mid(s, t, ids) && h in s.parents && s.parents[h].id !in ids
    requires Loosening(s, t, u, ids, h, Children(s, h))
    ensures Mid(s, Finished(s, u, h), ids + {s.parents[h].id})
  {
    ParentSets(s, ids, h);
    LastLogs(s, t, u, ids, h);
    LastHandlers(s, t, u, h);
    LastMaps(s, t, u, ids, h);
    hide Owned, Logs, ConnsLeft, OutOf, LooseOf, ParentsLeft, Children, Drop, Finished, Loosening;
  }

  lemma LastMaps(s: State, t: State, u: State, ids: set<Id>, h: Ref)
    requires Owned(s) && Mid(s, t, ids) && h in s.parents && s.parents[h].id !in ids
    requires Loosening(s, t, u, ids, h, Children(s, h))
    ensures var v, more := Finished(s, u, h), ids + {s.parents[h].id};
            && v.conns == ConnsLeft(s.conns, OutOf(s, more), LooseOf(s, more))
            && v.held == multiset(s.conns.Keys - OutOf(s, more))
            && v.parents == ParentsLeft(s, more)
  {
    ParentSets(s, ids, h);
    FinishedParts(s, u, h);
    LoosenedParts(s, t, u, ids, h);
    hide *;
  }

  lemma LoosenedParts(s: State, t: State, u: State, ids: set<Id>, h: Ref)
    requires Mid(s, t, ids) && h in s.parents && Loosening(s, t, u, ids, h, Children(s, h))
    ensures u.conns == ConnsLeft(s.conns, OutOf(s, ids), LooseOf(s, ids) + Children(s, h))
    ensures u.held == multiset(s.conns.Keys - OutOf(s, ids))
    ensures u.parents - {h} == ParentsLeft(s, ids) - {h}
  {
    hide ConnsLeft, OutOf, LooseOf, ParentsLeft, Logs, Children;
    assert multiset(Children(s, h) - Children(s, h)) == multiset{};
    assert u.parents - {h} == t.parents - {h};
  }

  lemma LastHandlers(s: State, t: State, u: State, h: Ref)
    requires forall g :: g in t.handlers ==> g in t.parents
    requires h in s.parents && h in t.parents && u.handlers == t.handlers && u.parents == Emptied(t, h).parents
    ensures forall g :: g in Finished(s, u, h).handlers ==> g in Finished(s, u, h).parents
  {
    DropKeeps(u.handlers, h);
    hide Drop, Children, ParentClose;
  }

  lemma LastLogs(s: State, t: State, u: State, ids: set<Id>, h: Ref)
    requires Owned(s) && Logs(s, t, ids) && h in s.parents && s.parents[h].id !in ids
    requires OutOf(s, ids) == OutOf(s, ids + {s.parents[h].id})
    requires h in t.parents
    requires u == t.(conns := u.conns, held := u.held, parents := Emptied(t, h).parents)
    ensures Logs(s, Finished(s, u, h), ids + {s.parents[h].id})
  {
    OneParentClosing(s, ids, h);
    hide Owned, OutOf, ParentsClosing, Closing, ParentClose, Emptied, Drop;
  }

  // ---------- All turns ----------

  function Ids(turns: seq<Turn>): set<Id> {
    set k | 0 <= k < |turns| :: turns[k].id
  }

  /** Entries of the table, each at most once, with the connections of every parent. */
  predicate Turns(s: State, turns: seq<Turn>) {
    && (forall j, k :: 0 <= j < k < |turns| ==> turns[j].id != turns[k].id)
    && (forall k :: 0 <= k < |turns| ==>
          && turns[k].id in s.sockets
          && (s.sockets[turns[k].id].ParentE? ==> KidsOf(s, s.sockets[turns[k].id].parent, turns[k].kids)))
  }

  lemma OtherSets(s: State, ids: set<Id>, id: Id)
    requires Owned(s) && id in s.sockets && s.sockets[id].OtherE?
    ensures var more := ids + {id};
            && OutOf(s, more) == OutOf(s, ids) && LooseOf(s, more) == LooseOf(s, ids)
            && ParentsLeft(s, more) == ParentsLeft(s, ids) && ParentsClosing(s, more) == ParentsClosing(s, ids)
  {
    assert forall r :: r in s.conns ==> ConnOwned(s, r);
    assert forall h :: h in s.parents ==> ParentOwned(s, h);
    hide Owned, KidsOwned;
  }

  lemma OtherTurn(s: State, t: State, ids: set<Id>, id: Id)
    requires Owned(s) && Mid(s, t, ids) && id in s.sockets && s.sockets[id].OtherE?
    ensures Mid(s, t, ids + {id})
  {
    OtherSets(s, ids, id);
    hide Owned, ConnsLeft, OutOf, LooseOf, ParentsLeft, ParentsClosing, Closing;
  }

  lemma TurnMid(s: State, t: State, ids: set<Id>, turn: Turn)
    requires Owned(s) && Mid(s, t, ids) && turn.id !in ids && turn.id in s.sockets
    requires s.sockets[turn.id].ParentE? ==> KidsOf(s, s.sockets[turn.id].parent, turn.kids)
    ensures var u := EntryDisposed(t, s.sockets[turn.id], turn.kids); u.Some? && Mid(s, u.value, ids + {turn.id})
  {
    var e := s.sockets[turn.id];
    assert e.ConnE? ==> e.conn in s.conns && s.conns[e.conn].conn.id == turn.id;
    assert e.ParentE? ==> e.parent in s.parents && s.parents[e.parent].id == turn.id;
    hide Owned, Mid, KidsOf, ConnDisposed, ParentDisposed;
    match e
    case ConnE(r) => ConnTurn(s, t, ids, r);
    case ParentE(h) => ParentTurn(s, t, ids, h, turn.kids);
    case OtherE(_) => OtherTurn(s, t, ids, turn.id);
  }

  lemma {:induction false} TurnsMid(s: State, turns: seq<Turn>)
    requires Owned(s) && Turns(s, turns)
    ensures AllDisposed(s, turns).Some? && Mid(s, AllDisposed(s, turns).value, Ids(turns))
  {
    hide Owned, Mid, Cleared, EntryDisposed, KidsOf;
    if turns == [] {
      NothingRun(s);
      assert Ids(turns) == {};
    } else {
      var before, turn := Front(turns), turns[|turns| - 1];
      TurnsMid(s, before);
      IdsSnoc(turns);
      hide Ids;
      TurnMid(s, AllDisposed(s, before).value, Ids(before), turn);
    }
  }

  lemma IdsSnoc(turns: seq<Turn>)
    requires turns != [] && forall j, k :: 0 <= j < k < |turns| ==> turns[j].id != turns[k].id
    ensures Ids(turns) == Ids(Front(turns)) + {turns[|turns| - 1].id}
    ensures turns[|turns| - 1].id !in Ids(Front(turns))
  {
    var front := Front(turns);
    assert forall k :: 0 <= k < |front| ==> front[k] == turns[k];
    forall i | i in Ids(turns)
      ensures i in Ids(front) || i == turns[|turns| - 1].id
    {
      var k :| 0 <= k < |turns| && turns[k].id == i;
      assert k < |front| ==> front[k].id == i;
    }
    forall i | i in Ids(front)
      ensures i in Ids(turns)
    {
      var k :| 0 <= k < |front| && front[k].id == i;
      assert turns[k].id == i;
    }
  }

  /** Disposing of the peer, in whatever order the destroy callbacks of the socket table and
      of the maps of its parents run: no callback meets a connection or a parent that has
      been freed already; in the end all of them have been freed, no reference is left, and
      no signal has been emitted; and every connection with a counterpart, and every
      listener with one, has closed it exactly once. */
  lemma PeerDisposed(s: State, turns: seq<Turn>)
    requires Settled(s) && Turns(s, turns) && Ids(turns) == s.sockets.Keys
    ensures AllDisposed(s, turns).Some?
    ensures var t := AllDisposed(s, turns).value;
            && t.sockets == map[] && t.conns == map[] && t.parents == map[] && t.handlers == []
            && t.held == multiset{} && t.signals == s.signals
            && t.closes == s.closes + multiset(Closing(s, s.conns.Keys))
            && t.parentCloses == s.parentCloses + multiset(ParentsClosing(s, s.sockets.Keys))
  {
    SettledOwned(s);
    TurnsMid(s, turns);
    hide Settled, Turns, Ids, AllDisposed;
    AllTurned(s, AllDisposed(s, turns).value);
  }

  lemma AllTurned(s: State, t: State)
    requires Owned(s) && Mid(s, t, s.sockets.Keys)
    ensures t.sockets == map[] && t.conns == map[] && t.parents == map[] && t.handlers == []
    ensures t.held == multiset{} && t.signals == s.signals
    ensures t.closes == s.closes + multiset(Closing(s, s.conns.Keys))
    ensures t.parentCloses == s.parentCloses + multiset(ParentsClosing(s, s.sockets.Keys))
  {
    AllSets(s);
    assert ConnsLeft(s.conns, s.conns.Keys, s.conns.Keys) == map[];
    hide Owned, ConnsLeft, OutOf, LooseOf, ParentsLeft, Closing, ParentsClosing;
    assert s.conns.Keys - s.conns.Keys == {};
    HasMember(t.handlers);
  }

  lemma HasMember(q: seq<Ref>)
    ensures q == [] || exists h :: h in q
  {
    if q != [] {
      assert q[0] in q;
    }
  }

  lemma AllSets(s: State)
    requires Owned(s)
    ensures OutOf(s, s.sockets.Keys) == s.conns.Keys && LooseOf(s, s.sockets.Keys) == s.conns.Keys
    ensures ParentsLeft(s, s.sockets.Keys) == map[]
  {
    forall r | r in s.conns
      ensures s.conns[r].conn.id in s.sockets && s.conns[r].parent in s.parents
      ensures s.parents[s.conns[r].parent].id in s.sockets
    {
      assert ConnOwned(s, r) && ParentOwned(s, s.conns[r].parent);
    }
    forall h | h in s.parents
      ensures s.parents[h].id in s.sockets
    {
      assert ParentOwned(s, h);
    }
  }

  /** What has been freed does not come back: every connection is freed once. */
  lemma NeverBack(s: State, turns: seq<Turn>)
    requires Settled(s) && Turns(s, turns) && turns != []
    ensures AllDisposed(s, turns).Some? && AllDisposed(s, Front(turns)).Some?
    ensures AllDisposed(s, turns).value.conns.Keys <= AllDisposed(s, Front(turns)).value.conns.Keys
    ensures AllDisposed(s, turns).value.parents.Keys <= AllDisposed(s, Front(turns)).value.parents.Keys
  {
    SettledOwned(s);
    TurnsMid(s, turns);
    TurnsMid(s, Front(turns));
    IdsSnoc(turns);
    var ids, more := Ids(Front(turns)), Ids(turns);
    hide Settled, Turns, Ids, AllDisposed, Owned, Logs;
    assert ids <= more;
    assert OutOf(s, ids) <= OutOf(s, more) && LooseOf(s, ids) <= LooseOf(s, more);
  }
}

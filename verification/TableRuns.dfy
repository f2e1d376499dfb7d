/** Whole runs of the socket table: after every top-level event the tables are settled
    again, and every entry that was inserted is either present or has been signalled
    as removed exactly once. */
module TableRuns {
  import opened Base
  import opened Table
  import opened TableSteps
  import opened TableSettled
  import Connection

  /** A CLOSE request: the close callback of the entry, then its removal. The entry
      forgets its counterpart first, so nothing is sent back. */
  function Closed(s: State, id: Id): State
    requires Inv(s)
  {
    if id !in s.sockets then s
    else
      assert Tabled(s, id);
      match s.sockets[id]
      case ConnE(r) =>
        var c := s.conns[r].conn.(rid := 0);
        SetConnInv(s, r, c);
        Removed(SetConn(s, r, c), id)
      case ParentE(h) =>
        if s.parents[h].kind == Local then s
        else
          SetRidInv(s, h);
          Removed(SetRid(s, h), id)
      case OtherE(closable) => if closable then Removed(s, id) else s
  }

  function SetRid(s: State, h: Ref): State
    requires h in s.parents
  {
    s.(parents := s.parents[h := s.parents[h].(rid := 0)])
  }

  lemma SetRidInv(s: State, h: Ref)
    requires Inv(s) && h in s.parents
    ensures Inv(SetRid(s, h))
  {
    var t := SetRid(s, h);
    FrameTabled(s, t);
    FrameIds(s, t);
    SetRidShares(s, h);
  }

  lemma SetRidShares(s: State, h: Ref)
    requires AllMirror(s) && Counted(s) && h in s.parents
    ensures AllMirror(SetRid(s, h)) && Counted(SetRid(s, h))
  {
    var t := SetRid(s, h);
    forall g | g in t.parents
      ensures Mirror(t, g)
    {
      FrameMirror(s, t, g);
    }
    FrameCounted(s, t, {});
  }

  lemma SameTables(s: State, t: State)
    requires InBothTables(s) && ParentsTabled(s)
    requires t.sockets == s.sockets && t.handlers == s.handlers
    requires t.conns.Keys == s.conns.Keys && forall q :: q in t.conns ==> SameIdentity(s, t, q)
    requires t.parents.Keys == s.parents.Keys
    requires forall h :: h in t.parents ==>
               t.parents[h].id == s.parents[h].id && t.parents[h].addrMap == s.parents[h].addrMap
    ensures InBothTables(t) && ParentsTabled(t)
  {
    forall q | q in t.conns
      ensures InSockets(t, q) && Linked(t, q)
    {
      assert InSockets(s, q) && Linked(s, q);
    }
  }

  lemma SettledParts(s: State)
    requires Settled(s)
    ensures Inv(s) && InBothTables(s) && ParentsTabled(s) && s.held == multiset{}
  {
  }

  lemma SettledIntro(s: State)
    requires Inv(s) && InBothTables(s) && ParentsTabled(s) && s.held == multiset{}
    ensures Settled(s)
  {
  }

  lemma SetConnTables(s: State, r: Ref, c: Connection.Conn)
    requires InBothTables(s) && ParentsTabled(s)
    requires r in s.conns && c.id == s.conns[r].conn.id && c.addr == s.conns[r].conn.addr
    ensures InBothTables(SetConn(s, r, c)) && ParentsTabled(SetConn(s, r, c))
    ensures SetConn(s, r, c).held == s.held
  {
    SameTables(s, SetConn(s, r, c));
  }

  lemma SettledSetConn(s: State, r: Ref, c: Connection.Conn)
    requires Settled(s) && r in s.conns && c.id == s.conns[r].conn.id && c.addr == s.conns[r].conn.addr
    ensures Settled(SetConn(s, r, c))
  {
    hide *;
    SettledParts(s);
    SetConnInv(s, r, c);
    SetConnTables(s, r, c);
    SettledIntro(SetConn(s, r, c));
  }

  lemma SetRidTables(s: State, h: Ref)
    requires InBothTables(s) && ParentsTabled(s) && h in s.parents
    ensures InBothTables(SetRid(s, h)) && ParentsTabled(SetRid(s, h)) && SetRid(s, h).held == s.held
  {
    SameTables(s, SetRid(s, h));
  }

  lemma SettledSetRid(s: State, h: Ref)
    requires Settled(s) && h in s.parents
    ensures Settled(SetRid(s, h))
  {
    hide *;
    SettledParts(s);
    SetRidInv(s, h);
    SetRidTables(s, h);
    SettledIntro(SetRid(s, h));
  }

  lemma SettledTabled(s: State, id: Id)
    requires Settled(s) && id in s.sockets
    ensures Tabled(s, id)
  {
  }

  lemma SettledClosed(s: State, id: Id)
    requires Settled(s)
    ensures Settled(Closed(s, id))
  {
    if id in s.sockets {
      SettledTabled(s, id);
      SettledParts(s);
      hide Inv, Settled, InBothTables, ParentsTabled, Removed, SetConn, SetRid;
      match s.sockets[id]
      case ConnE(r) =>
        SettledSetConn(s, r, s.conns[r].conn.(rid := 0));
        SettledRemoved(SetConn(s, r, s.conns[r].conn.(rid := 0)), id);
      case ParentE(h) =>
        SettledSetRid(s, h);
        SettledRemoved(SetRid(s, h), id);
      case OtherE(_) => SettledRemoved(s, id);
    }
  }

  /** Closing never echoes: the entry named by an incoming CLOSE sends none, be it a
      connection or a listener. */
  lemma CloseDoesNotEcho(s: State, id: Id)
    requires Settled(s) && id in s.sockets && Tabled(s, id)
    ensures s.sockets[id].ConnE? ==> Closed(s, id).closes == s.closes
    ensures Closed(s, id).parentCloses == s.parentCloses
  {
    match s.sockets[id]
    case ConnE(r) =>
      SetConnInv(s, r, s.conns[r].conn.(rid := 0));
    case ParentE(h) =>
      SetRidInv(s, h);
    case OtherE(_) =>
  }

  datatype Op =
    | AddParent(h: Ref, kind: Kind, id: Id, rid: Id)
    | AddOther(id: Id, closable: bool)
    | AddConn(h: Ref, r: Ref, c: Connection.Conn, evicted: Option<Id>)
    | Remove(id: Id)
    | CloseMsg(id: Id)
    | RemoveAll(ids: seq<Id>)
    | Update(r: Ref, c: Connection.Conn)

  // A fresh id is one that the table does not hold; an eviction hits a sibling.
  predicate Enabled(s: State, op: Op) {
    match op
    case AddParent(h, _, id, _) => h !in s.parents && id !in s.sockets
    case AddOther(id, _) => id !in s.sockets
    case AddConn(h, r, c, evicted) =>
      && Fresh(s, h, r, c)
      && (evicted.Some? ==>
            && evicted.value in s.sockets && s.sockets[evicted.value].ConnE?
            && s.sockets[evicted.value].conn in s.conns && s.conns[s.sockets[evicted.value].conn].parent == h)
    case Update(r, c) => r in s.conns && c.id == s.conns[r].conn.id && c.addr == s.conns[r].conn.addr
    case _ => true
  }

  function RemovedAll(s: State, ids: seq<Id>): (t: State)
    requires Settled(s)
    ensures Settled(t)
    decreases |ids|
  {
    if ids == [] then s
    else
      SettledRemoved(RemovedAll(s, Front(ids)), Last(ids));
      Removed(RemovedAll(s, Front(ids)), Last(ids))
  }

  function Evicted(s: State, evicted: Option<Id>): State
    requires Settled(s)
  {
    if evicted.Some? then Removed(s, evicted.value) else s
  }

  function Step(s: State, op: Op): State
    requires Settled(s)
  {
    if !Enabled(s, op) then s
    else match op
      case AddParent(h, kind, id, rid) =>
        s.(parents := s.parents[h := Parent(kind, id, rid, map[], map[])],
           handlers := s.handlers + [h], sockets := s.sockets[id := ParentE(h)])
      case AddOther(id, closable) => s.(sockets := s.sockets[id := OtherE(closable)])
      case AddConn(h, r, c, evicted) =>
        EvictionKeepsParent(s, h, r, c, evicted);
        Added(Evicted(s, evicted), h, r, c)
      case Remove(id) => Removed(s, id)
      case CloseMsg(id) => Closed(s, id)
      case RemoveAll(ids) => RemovedAll(s, ids)
      case Update(r, c) => SetConn(s, r, c)
  }

  lemma EvictionKeepsParent(s: State, h: Ref, r: Ref, c: Connection.Conn, evicted: Option<Id>)
    requires Settled(s) && Enabled(s, AddConn(h, r, c, evicted))
    ensures Fresh(Evicted(s, evicted), h, r, c) && Settled(Evicted(s, evicted))
  {
    if evicted.Some? {
      SettledRemoved(s, evicted.value);
      SettledConnRemoved(s, evicted.value);
      EvictionFresh(s, h, r, c, evicted.value);
    }
  }

  lemma EvictionFresh(s: State, h: Ref, r: Ref, c: Connection.Conn, id: Id)
    requires Fresh(s, h, r, c) && id in s.sockets && s.sockets[id].ConnE? && Tabled(s, id)
    requires RefsExact(s, s.sockets[id].conn) && s.held == multiset{}
    ensures Fresh(ConnRemoved(s, id), h, r, c)
  {
  }

  // The ids that an event inserts.
  function Born(s: State, op: Op): multiset<Id> {
    if !Enabled(s, op) then multiset{}
    else match op
      case AddParent(_, _, id, _) => multiset{id}
      case AddOther(id, _) => multiset{id}
      case AddConn(_, _, c, _) => multiset{c.id}
      case _ => multiset{}
  }

  lemma SettledAddParent(s: State, h: Ref, kind: Kind, id: Id, rid: Id)
    requires Settled(s) && h !in s.parents && id !in s.sockets
    ensures Settled(Step(s, AddParent(h, kind, id, rid)))
  {
    var t := Step(s, AddParent(h, kind, id, rid));
    AddParentMirror(s, t, h);
    AddParentCounted(s, t, h);
    AddParentTabled(s, t, h, id);
    AddParentIds(s, t, h, id);
  }

  // The maps of a new parent are empty, and no connection claims it.
  predicate PlusParent(s: State, t: State, h: Ref, id: Id) {
    && h !in s.parents && id !in s.sockets
    && t.conns == s.conns && t.held == s.held
    && h in t.parents && t.parents[h].addrMap == map[] && t.parents[h].idMap == map[] && t.parents[h].id == id
    && t.parents == s.parents[h := t.parents[h]]
    && t.handlers == s.handlers + [h] && t.sockets == s.sockets[id := ParentE(h)]
  }

  lemma AddParentMirror(s: State, t: State, h: Ref)
    requires AllMirror(s) && h !in s.parents && t.conns == s.conns
    requires h in t.parents && t.parents[h].addrMap == map[] && t.parents[h].idMap == map[]
    requires t.parents == s.parents[h := t.parents[h]]
    ensures AllMirror(t)
  {
    forall g | g in s.parents
      ensures Mirror(t, g)
    {
      FrameMirror(s, t, g);
    }
  }

  lemma AddParentCounted(s: State, t: State, h: Ref)
    requires Counted(s) && InBothTables(s) && h in t.parents && PlusParent(s, t, h, t.parents[h].id)
    ensures Counted(t) && InBothTables(t)
  {
    forall q | q in t.conns
      ensures RefsExact(t, q) && InSockets(t, q) && Linked(t, q)
    {
      assert RefsExact(s, q) && InSockets(s, q) && Linked(s, q);
    }
  }

  lemma AddParentTabled(s: State, t: State, h: Ref, id: Id)
    requires AllTabled(s) && PlusParent(s, t, h, id)
    ensures AllTabled(t)
  {
    forall i | i in t.sockets
      ensures Tabled(t, i)
    {
      assert i != id ==> Tabled(s, i);
    }
  }

  lemma AddParentIds(s: State, t: State, h: Ref, id: Id)
    requires InBothTables(s) && IdsUnique(s) && NoneDangling(s) && ParentsTabled(s)
    requires PlusParent(s, t, h, id)
    ensures IdsUnique(t) && NoneDangling(t) && ParentsTabled(t)
  {
    AddParentUnique(s, t, h, id);
    hide IdsUnique, InBothTables;
    AddParentOthers(s, t, h, id);
  }

  lemma AddParentUnique(s: State, t: State, h: Ref, id: Id)
    requires InBothTables(s) && IdsUnique(s) && PlusParent(s, t, h, id)
    ensures IdsUnique(t)
  {
    forall q | q in t.conns
      ensures InSockets(t, q)
    {
      assert InSockets(s, q);
    }
    assert t.conns == s.conns;
    hide InBothTables, InSockets, PlusParent;
  }

  lemma AddParentOthers(s: State, t: State, h: Ref, id: Id)
    requires NoneDangling(s) && ParentsTabled(s) && PlusParent(s, t, h, id)
    ensures NoneDangling(t) && ParentsTabled(t)
  {
  }

  lemma SettledAddOther(s: State, id: Id, closable: bool)
    requires Settled(s) && id !in s.sockets
    ensures Settled(Step(s, AddOther(id, closable)))
  {
    var t := Step(s, AddOther(id, closable));
    FrameAllMirror(s, t);
    AddOtherTables(s, t, id);
    AddOtherTabled(s, t, id);
  }

  lemma AddOtherTables(s: State, t: State, id: Id)
    requires Counted(s) && InBothTables(s) && ParentsTabled(s) && id !in s.sockets
    requires id in t.sockets && t == s.(sockets := s.sockets[id := t.sockets[id]])
    ensures Counted(t) && InBothTables(t) && ParentsTabled(t)
  {
    forall q | q in t.conns
      ensures RefsExact(t, q) && InSockets(t, q) && Linked(t, q)
    {
      assert RefsExact(s, q) && InSockets(s, q) && Linked(s, q);
    }
  }

  lemma AddOtherTabled(s: State, t: State, id: Id)
    requires AllTabled(s) && InBothTables(s) && IdsUnique(s) && id !in s.sockets
    requires id in t.sockets && t.sockets[id].OtherE? && t == s.(sockets := s.sockets[id := t.sockets[id]])
    ensures AllTabled(t) && IdsUnique(t)
  {
    forall i | i in t.sockets
      ensures Tabled(t, i)
    {
      assert i != id ==> Tabled(s, i);
    }
    assert forall q :: q in t.conns ==> InSockets(s, q);
  }

  // Everything that was ever inserted: what has been signalled and what is present.
  function Balance(s: State): multiset<Id> {
    s.signals + multiset(s.sockets.Keys)
  }

  lemma {:induction false} RemovedAllBalance(s: State, ids: seq<Id>)
    requires Settled(s)
    ensures Balance(RemovedAll(s, ids)) == Balance(s)
    decreases |ids|
  {
    if ids != [] {
      RemovedAllBalance(s, Front(ids));
      SettledInv(RemovedAll(s, Front(ids)));
      RemovedBalance(RemovedAll(s, Front(ids)), Last(ids));
    }
  }

  lemma SplitKeys(keys: set<Id>, l: set<Id>)
    requires l <= keys
    ensures multiset(keys) == multiset(keys - l) + multiset(l)
  {
    assert keys == keys - l + l;
  }

  lemma RemovedBalance(s: State, id: Id)
    requires Inv(s)
    ensures Balance(Removed(s, id)) == Balance(s)
  {
    InvParts(s);
    hide Inv, Removed, Leaving;
    SignalledOnce(s, id);
    SplitKeys(s.sockets.Keys, Leaving(s, id));
  }

  lemma InvParts(s: State)
    requires Inv(s)
    ensures AllTabled(s) && Counted(s)
  {
  }

  /** Every top-level event leads from settled tables to settled tables. */
  lemma SettledStep(s: State, op: Op)
    requires Settled(s)
    ensures Settled(Step(s, op))
  {
    if Enabled(s, op) {
      match op
      case AddParent(h, kind, id, rid) => SettledAddParent(s, h, kind, id, rid);
      case AddOther(id, closable) => SettledAddOther(s, id, closable);
      case AddConn(h, r, c, evicted) =>
        EvictionKeepsParent(s, h, r, c, evicted);
        SettledAdded(Evicted(s, evicted), h, r, c);
      case Remove(id) => SettledRemoved(s, id);
      case CloseMsg(id) => SettledClosed(s, id);
      case RemoveAll(ids) =>
      case Update(r, c) => SettledSetConn(s, r, c);
    }
  }

  lemma ClosedBalance(s: State, id: Id)
    requires Inv(s)
    ensures Balance(Closed(s, id)) == Balance(s)
  {
    if id in s.sockets {
      assert Tabled(s, id);
      InvParts(s);
      match s.sockets[id]
      case ConnE(r) =>
        var c := s.conns[r].conn.(rid := 0);
        SetConnInv(s, r, c);
        hide Balance, Inv, Removed;
        RemovedBalance(SetConn(s, r, c), id);
        UpdateBalance(s, r, c);
      case ParentE(h) =>
        SetRidInv(s, h);
        hide Balance, Inv, Removed;
        RemovedBalance(SetRid(s, h), id);
        SetRidBalance(s, h);
      case OtherE(_) =>
        hide Balance, Inv, Removed;
        RemovedBalance(s, id);
    }
  }

  lemma SetRidBalance(s: State, h: Ref)
    requires h in s.parents
    ensures Balance(SetRid(s, h)) == Balance(s)
  {
  }

  lemma BornBalance(s: State, t: State, id: Id)
    requires id !in s.sockets && t.sockets.Keys == s.sockets.Keys + {id} && t.signals == s.signals
    ensures Balance(t) == Balance(s) + multiset{id}
  {
  }

  lemma AddConnBalance(s: State, h: Ref, r: Ref, c: Connection.Conn, evicted: Option<Id>)
    requires Settled(s) && Enabled(s, AddConn(h, r, c, evicted))
    ensures Balance(Step(s, AddConn(h, r, c, evicted))) == Balance(s) + multiset{c.id}
  {
    hide *;
    EvictionKeepsParent(s, h, r, c, evicted);
    EvictedBalance(s, evicted);
    AddedBalance(Evicted(s, evicted), h, r, c);
    StepIsAdded(s, h, r, c, evicted);
  }

  lemma AddedBalance(s: State, h: Ref, r: Ref, c: Connection.Conn)
    requires Fresh(s, h, r, c)
    ensures h in s.parents && Balance(Added(s, h, r, c)) == Balance(s) + multiset{c.id}
  {
    BornBalance(s, Added(s, h, r, c), c.id);
  }

  lemma StepIsAdded(s: State, h: Ref, r: Ref, c: Connection.Conn, evicted: Option<Id>)
    requires Settled(s) && Enabled(s, AddConn(h, r, c, evicted)) && h in Evicted(s, evicted).parents
    ensures Step(s, AddConn(h, r, c, evicted)) == Added(Evicted(s, evicted), h, r, c)
  {
    hide Settled;
  }

  lemma EvictedBalance(s: State, evicted: Option<Id>)
    requires Settled(s)
    ensures Balance(Evicted(s, evicted)) == Balance(s)
  {
    SettledInv(s);
    hide Settled, Balance, Removed, Inv;
    if evicted.Some? {
      RemovedBalance(s, evicted.value);
    }
  }

  lemma StepBalance(s: State, op: Op)
    requires Settled(s)
    ensures Balance(Step(s, op)) == Balance(s) + Born(s, op)
  {
    hide Balance, Settled, Inv;
    if Enabled(s, op) {
      match op
      case AddParent(_, _, id, _) => BornBalance(s, Step(s, op), id);
      case AddOther(id, _) => BornBalance(s, Step(s, op), id);
      case AddConn(h, r, c, evicted) => AddConnBalance(s, h, r, c, evicted);
      case Remove(id) => SettledInv(s); RemovedBalance(s, id);
      case CloseMsg(id) => SettledInv(s); ClosedBalance(s, id);
      case RemoveAll(ids) => RemovedAllBalance(s, ids);
      case Update(r, c) => UpdateBalance(s, r, c);
    }
  }

  lemma SettledInv(s: State)
    requires Settled(s)
    ensures Inv(s)
  {
  }

  lemma UpdateBalance(s: State, r: Ref, c: Connection.Conn)
    requires r in s.conns
    ensures Balance(SetConn(s, r, c)) == Balance(s)
  {
  }

  const INITIAL: State := State(map[], map[], map[], [], multiset{}, multiset{}, multiset{}, multiset{})

  datatype History = History(state: State, born: multiset<Id>)

  // A state that is not settled would stop the run; RunsStaySettled shows there is none.
  function Run(ops: seq<Op>): History {
    if ops == [] then History(INITIAL, multiset{})
    else
      var g := Run(Front(ops));
      if Settled(g.state) then
        History(Step(g.state, Last(ops)), g.born + Born(g.state, Last(ops)))
      else g
  }

  /** Over every run: the tables are settled after each event, and each inserted entry
      is either still in the socket table or has had exactly one "removed" signal. */
  lemma {:induction false} RunsStaySettled(ops: seq<Op>)
    ensures Settled(Run(ops).state)
    ensures Balance(Run(ops).state) == Run(ops).born
  {
    if ops != [] {
      var g := Run(Front(ops));
      RunsStaySettled(Front(ops));
      hide Settled, Step, Born, Balance;
      SettledStep(g.state, Last(ops));
      StepBalance(g.state, Last(ops));
    }
  }
}

/** Between top-level events the tables are settled: removal and insertion both lead
    from settled tables to settled tables. */
module TableSettled {
  import opened Base
  import opened Table
  import opened TableSteps
  import opened TableChain
  import Connection

  // ---------- Removal keeps the invariant ----------

  lemma KnownSteps(s: State, id: Id)
    requires id in s.sockets && s.sockets[id].ConnE? && Tabled(s, id)
    requires var r := s.sockets[id].conn; RefsExact(s, r) && Known(s, r)
    ensures var r := s.sockets[id].conn;
            var u := UnlinkHeld(DisposedConn(Out(s, id), r), r);
            && r in u.conns && u.conns[r].refs > 0 && r in u.held
            && var v := Unref(u, r);
            && r in v.conns && v.conns[r].refs > 0 && r in v.held
            && Signalled(Unref(v, r), id) == ConnRemoved(s, id)
  {
    var r := s.sockets[id].conn;
    var v := Unref(UnlinkHeld(DisposedConn(Out(s, id), r), r), r);
    assert Unref(v, r).conns == ConnRemoved(s, id).conns;
    assert Unref(v, r).held == s.held;
  }

  lemma DisposedInv(s: State, r: Ref)
    requires Inv(s) && r in s.conns
    ensures Inv(DisposedConn(s, r))
  {
    var d := Connection.Dispose(s.conns[r].conn).conn;
    SetConnInv(s, r, d);
    LogsDontMatter(SetConn(s, r, d), DisposedConn(s, r));
  }

  lemma ConnRemovedInv(s: State, id: Id)
    requires Inv(s) && id in s.sockets && s.sockets[id].ConnE?
    ensures Tabled(s, id) && RefsExact(s, s.sockets[id].conn) && Inv(ConnRemoved(s, id))
  {
    assert Tabled(s, id);
    var r := s.sockets[id].conn;
    assert RefsExact(s, r);
    OutInv(s, id);
    DisposedInv(Out(s, id), r);
    var d := DisposedConn(Out(s, id), r);
    if Known(s, r) {
      KnownSteps(s, id);
      UnlinkInv(d, r);
      UnrefInv(UnlinkHeld(d, r), r);
      var v := Unref(UnlinkHeld(d, r), r);
      UnrefInv(v, r);
      LogsDontMatter(Unref(v, r), ConnRemoved(s, id));
    } else {
      UnknownChain(s, id);
      UnrefInv(d, r);
      LogsDontMatter(Unref(d, r), ConnRemoved(s, id));
    }
  }

  lemma DetachedInv(s: State, r: Ref)
    requires Inv(s) && r in s.conns && r in s.held && !Linked(s, r)
    ensures RefsExact(s, r) && Inv(Detached(s, r))
  {
    DetachChain(s, r);
    var c := s.conns[r].conn;
    var stopped := SetConn(s, r, c.(io := false));
    if c.id in stopped.sockets {
      assert InSockets(s, r);
      ConnRemovedInv(stopped, c.id);
    }
    UnrefInv(Removed(stopped, c.id), r);
  }

  lemma KidsGoneStep(s: State, done: set<Ref>, r: Ref)
    requires AllTabled(s) && Inv(KidsGone(s, done))
    requires r !in done && r in s.conns && s.held[r] == 1 && !Linked(s, r) && RefsExact(s, r)
    ensures Inv(KidsGone(s, done + {r}))
  {
    hide *;
    OneMoreKid(s, done, r);
    DetachedInv(KidsGone(s, done), r);
  }

  lemma {:induction false} KidsGoneInv(s: State, kids: set<Ref>)
    requires Inv(s) && AllTabled(s)
    requires forall r :: r in kids ==> r in s.conns && s.held[r] == 1 && !Linked(s, r) && RefsExact(s, r)
    ensures Inv(KidsGone(s, kids))
    decreases kids
  {
    hide *;
    if kids == {} {
      NoKidsYet(s);
    } else {
      var r :| r in kids;
      KidsGoneInv(s, kids - {r});
      KidsGoneStep(s, kids - {r}, r);
      assert kids == kids - {r} + {r};
    }
  }

  lemma ParentRemovedInv(s: State, id: Id)
    requires Inv(s) && id in s.sockets && s.sockets[id].ParentE? && KidsFree(s, id)
    ensures Tabled(s, id) && Inv(ParentRemoved(s, id))
  {
    ReadyToDispose(s, id);
    var h := s.sockets[id].parent;
    OutInv(s, id);
    var o := Out(s, id);
    ParentGoneInv(o, h);
    LogsDontMatter(ParentGone(o, h), ParentRemoved(s, id));
  }

  lemma ParentGoneInv(s: State, h: Ref)
    requires Inv(s) && h in s.parents && ParentE(h) !in s.sockets.Values
    requires forall r :: r in Children(s, h) ==> r !in s.held
    ensures Inv(ParentGone(s, h))
  {
    var o := s;
    if s.parents[h].kind == Local {
      HandlersDropped(s, h);
      o := s.(handlers := Drop(s.handlers, h));
    }
    EmptiedInv(o, h);
    EmptiedKids(o, h);
    KidsGoneInv(Emptied(o, h), Children(o, h));
    ParentChainInv(s, h);
    ParentChain(s, h);
  }

  lemma RemovedInv(s: State, id: Id)
    requires Inv(s) && KidsFree(s, id)
    ensures Inv(Removed(s, id))
  {
    if id in s.sockets {
      match s.sockets[id]
      case ConnE(_) => ConnRemovedInv(s, id);
      case ParentE(_) => ParentRemovedInv(s, id);
      case OtherE(_) =>
        OutInv(s, id);
        LogsDontMatter(Out(s, id), Signalled(Out(s, id), id));
    }
  }

  // ---------- Between top-level events ----------

  lemma SettledIsKnown(s: State, r: Ref)
    requires Settled(s) && r in s.conns
    ensures Known(s, r) && RefsExact(s, r) && s.conns[r].refs == 2
  {
    assert RefsExact(s, r);
  }

  lemma ConnGoneTables(s: State, id: Id)
    requires InBothTables(s) && ParentsTabled(s) && AllTabled(s)
    requires id in s.sockets && s.sockets[id].ConnE? && Tabled(s, id)
    requires var r := s.sockets[id].conn; RefsExact(s, r) && Known(s, r) && s.conns[r].refs == 2
    ensures var t := ConnRemoved(s, id);
            InBothTables(t) && ParentsTabled(t) && t.held == s.held && t.conns == s.conns - {s.sockets[id].conn}
  {
    var t, r := ConnRemoved(s, id), s.sockets[id].conn;
    assert t.conns == s.conns - {r} && t.sockets == s.sockets - {id} && t.parents == Unlink(s, r);
    assert Linked(s, r);
    ConnGoneParents(s, id);
    hide ConnRemoved, ParentsTabled, Unlink, RefsExact, Known, AllTabled;
    forall q | q in t.conns
      ensures InSockets(t, q) && Linked(t, q)
    {
      assert InSockets(s, q) && Linked(s, q);
      OtherStays(s, id, q, t);
    }
  }

  lemma OtherStays(s: State, id: Id, q: Ref, t: State)
    requires id in s.sockets && s.sockets[id].ConnE? && Tabled(s, id)
    requires var r := s.sockets[id].conn;
             Linked(s, r) && t.conns == s.conns - {r} && t.sockets == s.sockets - {id} && t.parents == Unlink(s, r)
    requires q in t.conns && InSockets(s, q) && Linked(s, q)
    ensures InSockets(t, q) && Linked(t, q)
  {
  }

  lemma ConnGoneParents(s: State, id: Id)
    requires ParentsTabled(s) && id in s.sockets && s.sockets[id].ConnE? && Tabled(s, id)
    requires RefsExact(s, s.sockets[id].conn)
    ensures ParentsTabled(ConnRemoved(s, id))
  {
    hide RefsExact, Release;
  }

  lemma SettledConnRemoved(s: State, id: Id)
    requires Settled(s) && id in s.sockets && s.sockets[id].ConnE?
    ensures Tabled(s, id) && RefsExact(s, s.sockets[id].conn)
    ensures Settled(ConnRemoved(s, id)) && ConnRemoved(s, id).conns == s.conns - {s.sockets[id].conn}
  {
    ConnRemovedInv(s, id);
    SettledIsKnown(s, s.sockets[id].conn);
    assert AllTabled(s);
    hide Inv, ConnRemoved, Known, RefsExact, InBothTables, ParentsTabled;
    ConnGoneTables(s, id);
  }

  lemma ParentGoneKeeps(s: State, h: Ref, q: Ref)
    requires AllMirror(s) && h in s.parents && q in s.conns && q !in Children(s, h)
    ensures var t := ParentGone(s, h);
            && q in t.conns && t.conns[q] == s.conns[q]
            && InSockets(t, q) == InSockets(s, q) && Linked(t, q) == Linked(s, q)
  {
    KidsAreLinked(s, h, q);
  }

  lemma OutKeeps(s: State, id: Id, q: Ref)
    requires id in s.sockets && s.sockets[id].ParentE? && q in s.conns && s.conns[q].conn.id != id
    ensures InSockets(Out(s, id), q) == InSockets(s, q) && Linked(Out(s, id), q) == Linked(s, q)
  {
  }

  lemma ParentGoneTables(s: State, id: Id)
    requires InBothTables(s) && AllMirror(s) && IdsUnique(s)
    requires id in s.sockets && s.sockets[id].ParentE? && Tabled(s, id)
    ensures InBothTables(ParentRemoved(s, id))
  {
    var h, o := s.sockets[id].parent, Out(s, id);
    NotAConn(s, id);
    FrameAllMirror(s, o);
    hide AllMirror, IdsUnique;
    forall q | q in o.conns && q !in Children(o, h)
      ensures var t := ParentGone(o, h); q in t.conns && InSockets(t, q) && Linked(t, q)
    {
      OutKeeps(s, id, q);
      ParentGoneKeeps(o, h, q);
    }
  }

  lemma ParentGoneParents(s: State, id: Id)
    requires ParentsTabled(s) && AllTabled(s)
    requires id in s.sockets && s.sockets[id].ParentE? && Tabled(s, id)
    ensures ParentsTabled(ParentRemoved(s, id))
  {
    DropKeeps(s.handlers, s.sockets[id].parent);
  }

  lemma NothingHeld(s: State, id: Id)
    requires s.held == multiset{}
    requires id in s.sockets && s.sockets[id].ParentE? && Tabled(s, id)
    ensures ParentRemoved(s, id).held == multiset{}
  {
    var kids := Children(s, s.sockets[id].parent);
    assert multiset(kids) - multiset(kids) == multiset{};
  }

  lemma SettledParentRemoved(s: State, id: Id)
    requires Settled(s) && id in s.sockets && s.sockets[id].ParentE?
    ensures Tabled(s, id) && Settled(ParentRemoved(s, id))
  {
    ParentRemovedInv(s, id);
    hide ParentRemoved;
    ParentGoneTables(s, id);
    ParentGoneParents(s, id);
    NothingHeld(s, id);
  }

  lemma OtherGoneTables(s: State, id: Id)
    requires InBothTables(s) && ParentsTabled(s) && id in s.sockets && s.sockets[id].OtherE?
    ensures var t := Signalled(Out(s, id), id); InBothTables(t) && ParentsTabled(t)
  {
    var t := Signalled(Out(s, id), id);
    forall q | q in t.conns
      ensures InSockets(t, q) && Linked(t, q)
    {
      assert InSockets(s, q) && Linked(s, q);
    }
  }

  /** Removing any entry leaves settled tables settled. */
  lemma SettledRemoved(s: State, id: Id)
    requires Settled(s)
    ensures Settled(Removed(s, id))
  {
    if id in s.sockets {
      assert Tabled(s, id);
      match s.sockets[id]
      case ConnE(_) => SettledConnRemoved(s, id);
      case ParentE(_) => SettledParentRemoved(s, id);
      case OtherE(_) =>
        RemovedInv(s, id);
        OtherGoneTables(s, id);
    }
  }

  // The ids that a removal takes out of the table.
  function Leaving(s: State, id: Id): set<Id>
    requires AllTabled(s)
  {
    if id !in s.sockets then {}
    else
      assert Tabled(s, id);
      if s.sockets[id].ParentE? then {id} + GoneIds(s, Children(s, s.sockets[id].parent)) else {id}
  }

  lemma SignalledOnceParent(s: State, id: Id)
    requires id in s.sockets && s.sockets[id].ParentE? && Tabled(s, id)
    ensures var t, kids := ParentRemoved(s, id), Children(s, s.sockets[id].parent);
            && t.sockets.Keys == s.sockets.Keys - ({id} + GoneIds(s, kids))
            && t.signals == s.signals + multiset({id} + GoneIds(s, kids))
  {
    var kids := Children(s, s.sockets[id].parent);
    var gone := GoneIds(s, kids);
    assert id !in gone && GoneIds(Out(s, id), kids) == gone;
    assert multiset({id} + gone) == multiset(gone) + multiset{id};
    assert ParentRemoved(s, id).signals == s.signals + multiset(GoneIds(Out(s, id), kids)) + multiset{id};
  }

  /** One "removed" signal per entry that left the table, and no other. */
  lemma SignalledOnce(s: State, id: Id)
    requires AllTabled(s) && Counted(s)
    ensures var t := Removed(s, id);
            && t.sockets.Keys == s.sockets.Keys - Leaving(s, id)
            && t.signals == s.signals + multiset(Leaving(s, id))
            && Leaving(s, id) <= s.sockets.Keys
  {
    if id in s.sockets {
      assert Tabled(s, id);
      match s.sockets[id]
      case ConnE(r) =>
        assert RefsExact(s, r);
        hide AllTabled, Counted;
        assert multiset({id}) == multiset{id};
      case ParentE(_) => SignalledOnceParent(s, id);
      case OtherE(_) => assert multiset({id}) == multiset{id};
    }
  }

  // ---------- Insertion ----------

  // The connection is in both maps of its parent; its first reference is in hand.
  function Shared(s: State, h: Ref, r: Ref, c: Connection.Conn): State
    requires h in s.parents
  {
    var p := s.parents[h];
    s.(conns := s.conns[r := Slot(c, h, 2)],
       parents := s.parents[h := p.(addrMap := p.addrMap[c.addr := r], idMap := p.idMap[c.id := r])],
       held := s.held + multiset{r})
  }

  // The socket table takes over the reference in hand.
  function Entered(s: State, r: Ref, id: Id): State {
    s.(sockets := s.sockets[id := ConnE(r)], held := s.held - multiset{r})
  }

  function Added(s: State, h: Ref, r: Ref, c: Connection.Conn): State
    requires h in s.parents
  {
    Entered(Shared(s, h, r, c), r, c.id)
  }

  // The memory, the id and the source address of a new connection are unused.
  predicate Fresh(s: State, h: Ref, r: Ref, c: Connection.Conn) {
    && h in s.parents && r !in s.conns && r !in s.held
    && c.id !in s.sockets && c.addr !in s.parents[h].addrMap
  }

  /** Fresh ids and addresses are in no map of any parent: no insert replaces a key. */
  lemma NoKeyReplaced(s: State, h: Ref, r: Ref, c: Connection.Conn, g: Ref)
    requires Settled(s) && Fresh(s, h, r, c) && g in s.parents
    ensures c.id !in s.parents[g].idMap
    ensures forall q :: q in s.conns ==> s.conns[q].conn.id != c.id
    ensures r !in s.parents[g].addrMap.Values
  {
    if c.id in s.parents[g].idMap {
      KnowsIsLinked(s, g, c.id);
    }
    KidsAreLinked(s, g, r);
  }

  lemma SharedAddrs(s: State, h: Ref, r: Ref, c: Connection.Conn, g: Ref, a: Addr)
    requires AllMirror(s) && Fresh(s, h, r, c) && g in s.parents && c.id !in s.parents[g].idMap
    requires a in Shared(s, h, r, c).parents[g].addrMap
    ensures AddrEntry(Shared(s, h, r, c), g, a)
  {
    assert Mirror(s, g);
    if g != h || a != c.addr {
      assert AddrEntry(s, g, a);
    }
  }

  lemma SharedIds(s: State, h: Ref, r: Ref, c: Connection.Conn, g: Ref, i: Id)
    requires AllMirror(s) && Fresh(s, h, r, c) && g in s.parents
    requires i in Shared(s, h, r, c).parents[g].idMap
    ensures IdEntry(Shared(s, h, r, c), g, i)
  {
    assert Mirror(s, g);
    if g != h || i != c.id {
      assert IdEntry(s, g, i);
    }
  }

  lemma SharedMirror(s: State, h: Ref, r: Ref, c: Connection.Conn)
    requires Settled(s) && Fresh(s, h, r, c)
    ensures AllMirror(Shared(s, h, r, c))
  {
    var t := Shared(s, h, r, c);
    assert AllMirror(s);
    hide AllMirror, Inv;
    forall g | g in t.parents
      ensures Mirror(t, g)
    {
      NoKeyReplaced(s, h, r, c, g);
      forall a | a in t.parents[g].addrMap
        ensures AddrEntry(t, g, a)
      {
        SharedAddrs(s, h, r, c, g, a);
      }
      forall i | i in t.parents[g].idMap
        ensures IdEntry(t, g, i)
      {
        SharedIds(s, h, r, c, g, i);
      }
    }
    AllMirrorIntro(t);
  }

  lemma AllMirrorIntro(s: State)
    requires forall h :: h in s.parents ==> Mirror(s, h)
    ensures AllMirror(s)
  {
  }

  lemma SharedCounted(s: State, h: Ref, r: Ref, c: Connection.Conn)
    requires Counted(s) && InBothTables(s) && s.held == multiset{} && Fresh(s, h, r, c)
    ensures Counted(Shared(s, h, r, c))
  {
    var t := Shared(s, h, r, c);
    forall q | q in t.conns
      ensures RefsExact(t, q)
    {
      if q != r {
        assert RefsExact(s, q) && Linked(s, q);
      }
    }
  }

  lemma SharedRest(s: State, h: Ref, r: Ref, c: Connection.Conn)
    requires Settled(s) && Fresh(s, h, r, c)
    ensures var t := Shared(s, h, r, c); AllTabled(t) && IdsUnique(t) && NoneDangling(t)
  {
    NoKeyReplaced(s, h, r, c, h);
    SharedTabled(s, h, r, c);
    SharedUnique(s, h, r, c);
  }

  lemma SharedTabled(s: State, h: Ref, r: Ref, c: Connection.Conn)
    requires AllTabled(s) && Fresh(s, h, r, c)
    ensures AllTabled(Shared(s, h, r, c))
  {
    var t := Shared(s, h, r, c);
    forall i | i in t.sockets
      ensures Tabled(t, i)
    {
      assert Tabled(s, i);
    }
  }

  lemma SharedUnique(s: State, h: Ref, r: Ref, c: Connection.Conn)
    requires IdsUnique(s) && NoneDangling(s) && Fresh(s, h, r, c)
    requires forall q :: q in s.conns ==> s.conns[q].conn.id != c.id
    ensures var t := Shared(s, h, r, c); IdsUnique(t) && NoneDangling(t)
  {
    var t := Shared(s, h, r, c);
    forall q | q in t.conns && t.conns[q].conn.id in t.sockets
      ensures InSockets(t, q)
    {
      assert q != r ==> InSockets(s, q);
    }
  }

  lemma SharedInv(s: State, h: Ref, r: Ref, c: Connection.Conn)
    requires Settled(s) && Fresh(s, h, r, c)
    ensures Inv(Shared(s, h, r, c))
  {
    SharedMirror(s, h, r, c);
    SharedCounted(s, h, r, c);
    SharedRest(s, h, r, c);
  }

  lemma EnteredTabled(s: State, h: Ref, r: Ref, c: Connection.Conn)
    requires Settled(s) && Fresh(s, h, r, c)
    ensures var t := Added(s, h, r, c); AllTabled(t) && IdsUnique(t) && NoneDangling(t)
  {
    SharedRest(s, h, r, c);
    var u, t := Shared(s, h, r, c), Added(s, h, r, c);
    forall i | i in t.sockets
      ensures Tabled(t, i)
    {
      assert i != c.id ==> Tabled(u, i);
    }
  }

  lemma EnteredCounted(s: State, h: Ref, r: Ref, c: Connection.Conn)
    requires InBothTables(s) && Counted(s) && s.held == multiset{} && Fresh(s, h, r, c)
    ensures var t := Added(s, h, r, c); Counted(t) && InBothTables(t) && t.held == multiset{}
  {
    var t := Added(s, h, r, c);
    forall q | q in t.conns
      ensures InSockets(t, q) && Linked(t, q) && RefsExact(t, q)
    {
      assert q != r ==> InSockets(s, q) && Linked(s, q) && RefsExact(s, q);
    }
  }

  lemma AddedParents(s: State, h: Ref, r: Ref, c: Connection.Conn)
    requires ParentsTabled(s) && Fresh(s, h, r, c)
    ensures ParentsTabled(Added(s, h, r, c))
  {
  }

  lemma AddedMirror(s: State, h: Ref, r: Ref, c: Connection.Conn)
    requires h in s.parents && AllMirror(Shared(s, h, r, c))
    ensures AllMirror(Added(s, h, r, c))
  {
    FrameAllMirror(Shared(s, h, r, c), Added(s, h, r, c));
  }

  lemma SettledAdded(s: State, h: Ref, r: Ref, c: Connection.Conn)
    requires Settled(s) && Fresh(s, h, r, c)
    ensures Settled(Added(s, h, r, c))
  {
    SharedMirror(s, h, r, c);
    EnteredTabled(s, h, r, c);
    hide Fresh, Added, Shared, AllMirror, AllTabled, IdsUnique, NoneDangling, Counted, InBothTables, ParentsTabled;
    FreshParent(s, h, r, c);
    AddedMirror(s, h, r, c);
    EnteredCounted(s, h, r, c);
    AddedParents(s, h, r, c);
  }

  lemma FreshParent(s: State, h: Ref, r: Ref, c: Connection.Conn)
    requires Fresh(s, h, r, c)
    ensures h in s.parents
  {
  }

  // The listener shares the new connection before it evicts the oldest one.
  lemma EvictWhileShared(s: State, h: Ref, r: Ref, c: Connection.Conn, id: Id)
    requires Fresh(s, h, r, c) && c.id !in s.parents[h].idMap
    requires id in s.sockets && s.sockets[id].ConnE? && Tabled(s, id)
    requires var q := s.sockets[id].conn; Known(s, q) && s.conns[q].parent == h && RefsExact(s, q)
    ensures var u := Shared(s, h, r, c);
            && Tabled(u, id) && RefsExact(u, s.sockets[id].conn)
            && ConnRemoved(u, id) == Shared(ConnRemoved(s, id), h, r, c)
  {
    hide Connection.Dispose;
    var q, p, u := s.sockets[id].conn, s.parents[h], Shared(s, h, r, c);
    InsertThenDrop(p.addrMap, c.addr, r, s.conns[q].conn.addr);
    InsertThenDrop(p.idMap, c.id, r, id);
    InsertThenDrop(s.conns, r, Slot(c, h, 2), q);
    assert Known(u, q) && RefsExact(u, q);
    var a, b := ConnRemoved(u, id), Shared(ConnRemoved(s, id), h, r, c);
    assert a.parents == b.parents;
    assert a.conns == b.conns;
    assert a.held == b.held;
  }

  lemma InsertThenDrop<K, V>(m: map<K, V>, k: K, v: V, d: K)
    requires k != d
    ensures m[k := v] - {d} == (m - {d})[k := v]
  {
  }
}

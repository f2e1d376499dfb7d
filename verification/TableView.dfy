/** How a listener or a local forwarder sees its connections: the maps from addresses to
    connections that modules Listen and ForwardLocal work with are what the tables of the
    peer amount to, and every operation on the tables is the one they take it to be. */
module TableView {
  import opened Base
  import opened Table
  import opened TableSettled
  import opened TableRuns
  import opened TableSweep
  import opened Pool
  import Connection
  import ForwardLocal
  import Listen

  function Seen(s: State, h: Ref): Conns
    requires h in s.parents
  {
    SeenIn(s.parents[h].addrMap, s.conns)
  }

  function SeenIn(addrMap: map<Addr, Ref>, conns: map<Ref, Slot>): Conns {
    map a | a in addrMap && addrMap[a] in conns :: conns[addrMap[a]].conn
  }

  /** Parent h has come to see the given connections, and every other parent sees what it
      saw before. */
  predicate NowSees(s: State, t: State, h: Ref, view: Conns) {
    && h in s.parents && t.parents.Keys == s.parents.Keys
    && forall g :: g in s.parents ==> Seen(t, g) == if g == h then view else Seen(s, g)
  }

  lemma SeesTrans(s: State, t: State, u: State, h: Ref, first: Conns, second: Conns)
    requires NowSees(s, t, h, first) && NowSees(t, u, h, second)
    ensures NowSees(s, u, h, second)
  {
    hide Seen;
  }

  lemma SeesHere(s: State, t: State, h: Ref, view: Conns)
    requires NowSees(s, t, h, view)
    ensures h in s.parents && h in t.parents && Seen(t, h) == view
  {
    hide Seen;
  }

  lemma SeesSame(s: State, h: Ref)
    requires h in s.parents
    ensures NowSees(s, s, h, Seen(s, h))
  {
    hide Seen;
  }

  lemma SeenPlus(addrMap: map<Addr, Ref>, conns: map<Ref, Slot>, a: Addr, r: Ref, slot: Slot)
    requires forall b :: b in addrMap ==> addrMap[b] in conns
    requires r in conns ==> forall b :: b in addrMap && addrMap[b] == r ==> b == a
    ensures SeenIn(addrMap[a := r], conns[r := slot]) == SeenIn(addrMap, conns)[a := slot.conn]
  {
  }

  lemma AllPresent(s: State, h: Ref)
    requires Settled(s) && h in s.parents
    ensures forall a :: a in s.parents[h].addrMap ==>
              var q := s.parents[h].addrMap[a]; q in s.conns && s.conns[q].conn.addr == a && s.conns[q].parent == h
  {
    hide Settled, Seen;
    forall a | a in s.parents[h].addrMap
      ensures var q := s.parents[h].addrMap[a]; q in s.conns && s.conns[q].conn.addr == a && s.conns[q].parent == h
    {
      SeenAt(s, h, a);
    }
  }

  lemma SeenAt(s: State, h: Ref, a: Addr)
    requires Settled(s) && h in s.parents && a in s.parents[h].addrMap
    ensures var r := s.parents[h].addrMap[a];
            && r in s.conns && s.conns[r].conn.addr == a && s.conns[r].parent == h
            && a in Seen(s, h) && Seen(s, h)[a] == s.conns[r].conn
  {
    SettledParts(s);
    assert Mirror(s, h) && AddrEntry(s, h, a);
  }

  /** In settled tables a connection is seen by its parent, under its address, and by no
      other parent. */
  lemma SeenByParent(s: State, r: Ref)
    requires Settled(s) && r in s.conns
    ensures var h, c := s.conns[r].parent, s.conns[r].conn;
            && h in s.parents && c.addr in Seen(s, h) && Seen(s, h)[c.addr] == c
            && c.addr in s.parents[h].addrMap && s.parents[h].addrMap[c.addr] == r
  {
    SettledParts(s);
    assert Linked(s, r);
  }

  // ---------- One connection ----------

  lemma UnlinkedSeen(s: State, t: State, r: Ref, g: Ref)
    requires r in s.conns && s.conns[r].parent in s.parents && g in s.parents
    requires t.conns == s.conns - {r} && t.parents == Unlink(s, r)
    requires forall a :: a in s.parents[g].addrMap ==>
               var q := s.parents[g].addrMap[a]; q in s.conns && s.conns[q].conn.addr == a && s.conns[q].parent == g
    ensures g in t.parents
    ensures Seen(t, g) == if g == s.conns[r].parent then Seen(s, g) - {s.conns[r].conn.addr} else Seen(s, g)
  {
  }

  /** Removing a connection takes it out of the view of its parent and changes nothing
      else that any parent sees. */
  lemma RemovedSeen(s: State, r: Ref)
    requires Settled(s) && r in s.conns && AllTabled(s) && Counted(s)
    ensures var h, t := s.conns[r].parent, Removed(s, s.conns[r].conn.id);
            h in s.parents && NowSees(s, t, h, Seen(s, h) - {s.conns[r].conn.addr})
  {
    RemovedNext(s, r);
    var t := Removed(s, s.conns[r].conn.id);
    ParentsUnlinked(s, r);
    hide *;
    forall g | g in s.parents
      ensures g in t.parents
      ensures Seen(t, g) == if g == s.conns[r].parent then Seen(s, g) - {s.conns[r].conn.addr} else Seen(s, g)
    {
      AllPresent(s, g);
      UnlinkedSeen(s, t, r, g);
    }
    UnlinkedKeys(s, t, r);
    SeesIntro(s, t, s.conns[r].parent, Seen(s, s.conns[r].parent) - {s.conns[r].conn.addr});
  }

  lemma UnlinkedKeys(s: State, t: State, r: Ref)
    requires r in s.conns && s.conns[r].parent in s.parents && t.parents == Unlink(s, r)
    ensures t.parents.Keys == s.parents.Keys
  {
  }

  lemma SeesIntro(s: State, t: State, h: Ref, view: Conns)
    requires h in s.parents && t.parents.Keys == s.parents.Keys
    requires forall g :: g in s.parents ==> g in t.parents && Seen(t, g) == if g == h then view else Seen(s, g)
    ensures NowSees(s, t, h, view)
  {
    hide Seen;
  }

  lemma ParentsUnlinked(s: State, r: Ref)
    requires Settled(s) && r in s.conns && AllTabled(s) && Counted(s)
    ensures s.conns[r].parent in s.parents && Removed(s, s.conns[r].conn.id).parents == Unlink(s, r)
  {
    SettledParts(s);
    RemovedNext(s, r);
    hide Inv, Settled, AllTabled, Counted;
  }

  lemma AddedSeen(s: State, h: Ref, r: Ref, c: Connection.Conn)
    requires Settled(s) && Fresh(s, h, r, c)
    ensures h in s.parents && NowSees(s, Added(s, h, r, c), h, Seen(s, h)[c.addr := c])
  {
    hide *;
    AddedShape(s, h, r, c);
    var t := Added(s, h, r, c);
    forall g | g in s.parents
      ensures Seen(t, g) == if g == h then Seen(s, h)[c.addr := c] else Seen(s, g)
    {
      AllPresent(s, g);
      SeenIs(s, g);
      SeenIs(t, g);
      if g == h {
        SeenPlus(s.parents[h].addrMap, s.conns, c.addr, r, Slot(c, h, 2));
      } else {
        SeenBeside(s.parents[g].addrMap, s.conns, r, Slot(c, h, 2));
      }
    }
    SeesIntro(s, t, h, Seen(s, h)[c.addr := c]);
  }

  // A slot that the map does not lead to makes no difference.
  lemma SeenBeside(addrMap: map<Addr, Ref>, conns: map<Ref, Slot>, r: Ref, slot: Slot)
    requires forall b :: b in addrMap ==> addrMap[b] in conns && addrMap[b] != r
    ensures SeenIn(addrMap, conns[r := slot]) == SeenIn(addrMap, conns)
  {
  }

  lemma SeenIs(s: State, h: Ref)
    requires h in s.parents
    ensures Seen(s, h) == SeenIn(s.parents[h].addrMap, s.conns)
  {
  }

  lemma AddedShape(s: State, h: Ref, r: Ref, c: Connection.Conn)
    requires Fresh(s, h, r, c)
    ensures h in s.parents && r !in s.conns
    ensures var t := Added(s, h, r, c);
            && t.parents.Keys == s.parents.Keys && t.parents[h].addrMap == s.parents[h].addrMap[c.addr := r]
            && (forall g :: g in s.parents && g != h ==> t.parents[g] == s.parents[g])
            && t.conns == s.conns[r := Slot(c, h, 2)]
  {
  }

  /** A callback that changes a connection changes it under its address, for its parent
      alone. */
  lemma UpdatedSeen(s: State, r: Ref, c: Connection.Conn)
    requires Settled(s) && r in s.conns && c.addr == s.conns[r].conn.addr
    ensures var h := s.conns[r].parent;
            h in s.parents && NowSees(s, SetConn(s, r, c), h, Seen(s, h)[c.addr := c])
  {
    hide *;
    SeenByParent(s, r);
    var h, t := s.conns[r].parent, SetConn(s, r, c);
    UpdatedShape(s, r, c);
    forall g | g in s.parents
      ensures Seen(t, g) == if g == h then Seen(s, h)[c.addr := c] else Seen(s, g)
    {
      AllPresent(s, g);
      SeenIs(s, g);
      SeenIs(t, g);
      if g == h {
        assert s.parents[h].addrMap[c.addr := r] == s.parents[h].addrMap;
        SeenPlus(s.parents[h].addrMap, s.conns, c.addr, r, s.conns[r].(conn := c));
      } else {
        SeenBeside(s.parents[g].addrMap, s.conns, r, s.conns[r].(conn := c));
      }
    }
    SeesIntro(s, t, h, Seen(s, h)[c.addr := c]);
  }

  lemma UpdatedShape(s: State, r: Ref, c: Connection.Conn)
    requires r in s.conns
    ensures var t := SetConn(s, r, c); t.parents == s.parents && t.conns == s.conns[r := s.conns[r].(conn := c)]
  {
  }

  // ---------- A new connection ----------

  /** The id of the connection that its parent sees under the given address. */
  function IdAt(s: State, h: Ref, a: Addr): Id
    requires h in s.parents && a in Seen(s, h)
  {
    Seen(s, h)[a].id
  }

  lemma EvictedSeen(s: State, h: Ref, r: Ref, c: Connection.Conn, a: Addr)
    requires Settled(s) && Fresh(s, h, r, c) && a in Seen(s, h)
    ensures var v := Some(IdAt(s, h, a));
            && Enabled(s, AddConn(h, r, c, v))
            && NowSees(s, Step(s, AddConn(h, r, c, v)), h, (Seen(s, h) - {a})[c.addr := c])
  {
    SeenAt(s, h, a);
    SettledParts(s);
    InvParts(s);
    var q := s.parents[h].addrMap[a];
    assert InSockets(s, q);
    var v := Some(IdAt(s, h, a));
    EvictionKeepsParent(s, h, r, c, v);
    RemovedSeen(s, q);
    var e := Evicted(s, v);
    assert e == Removed(s, s.conns[q].conn.id);
    hide Settled, Inv, Removed, Enabled, Step, Added, Seen, NowSees;
    SeesHere(s, e, h, Seen(s, h) - {a});
    StepIsAdded(s, h, r, c, v);
    AddedSeen(e, h, r, c);
    SeesTrans(s, e, Step(s, AddConn(h, r, c, v)), h, Seen(s, h) - {a}, (Seen(s, h) - {a})[c.addr := c]);
  }

  lemma InsertedSeen(s: State, h: Ref, r: Ref, c: Connection.Conn)
    requires Settled(s) && Fresh(s, h, r, c)
    ensures Enabled(s, AddConn(h, r, c, None)) && h in s.parents
    ensures NowSees(s, Step(s, AddConn(h, r, c, None)), h, Seen(s, h)[c.addr := c])
  {
    hide *;
    AddedSeen(s, h, r, c);
    NobodyEvicted(s, h, r, c);
    StepIsAdded(s, h, r, c, None);
  }

  lemma NobodyEvicted(s: State, h: Ref, r: Ref, c: Connection.Conn)
    requires Settled(s) && Fresh(s, h, r, c)
    ensures Enabled(s, AddConn(h, r, c, None)) && Evicted(s, None) == s && h in s.parents
  {
  }

  // Whom the local forwarder evicts.
  function LocalVictim(s: State, h: Ref, limit: nat, order: seq<Addr>): Option<Id>
    requires h in s.parents && Enumerates(order, Seen(s, h)) && limit > 0
  {
    NonEmptyOrder(order, Seen(s, h));
    if |Seen(s, h)| >= limit then Some(IdAt(s, h, Oldest(order, Seen(s, h)))) else None
  }

  /** The local forwarder: evicting from the tables whom its view of them names, and then
      inserting, is the insertion of module ForwardLocal; no other parent sees a change. */
  lemma LocalInsertion(s: State, h: Ref, r: Ref, c: Connection.Conn, f: ForwardLocal.Forwarder, order: seq<Addr>)
    requires Settled(s) && Fresh(s, h, r, c) && f.conns == Seen(s, h) && f.limit > 0 && Enumerates(order, f.conns)
    ensures var v := LocalVictim(s, h, f.limit, order);
            && Enabled(s, AddConn(h, r, c, v))
            && NowSees(s, Step(s, AddConn(h, r, c, v)), h, ForwardLocal.Room(f, order)[c.addr := c])
  {
    RoomIs(s, h, f, order);
    hide *;
    if |f.conns| >= f.limit {
      EvictedSeen(s, h, r, c, Oldest(order, f.conns));
    } else {
      InsertedSeen(s, h, r, c);
    }
  }

  lemma RoomIs(s: State, h: Ref, f: ForwardLocal.Forwarder, order: seq<Addr>)
    requires h in s.parents && f.conns == Seen(s, h) && f.limit > 0 && Enumerates(order, f.conns)
    ensures |f.conns| < f.limit ==> LocalVictim(s, h, f.limit, order) == None && ForwardLocal.Room(f, order) == f.conns
    ensures |f.conns| >= f.limit ==>
              && order != [] && Oldest(order, f.conns) in f.conns
              && LocalVictim(s, h, f.limit, order) == Some(IdAt(s, h, Oldest(order, f.conns)))
              && ForwardLocal.Room(f, order) == f.conns - {Oldest(order, f.conns)}
  {
    NonEmptyOrder(order, f.conns);
    hide Seen, Oldest, Enumerates, FirstMinimum;
  }

  // Whom the listener evicts: nobody if it is the newcomer.
  function ListenVictim(all: Conns, limit: nat, a: Addr, order: seq<Addr>): Option<Id>
    requires Enumerates(order, all) && a in all
  {
    NonEmptyOrder(order, all);
    if |all| > limit && Oldest(order, all) != a then Some(all[Oldest(order, all)].id) else None
  }

  /** The listener: the victim is chosen among all, the newcomer included, and if it is
      the newcomer the tables only gain it; no other parent sees a change. */
  lemma ListenInsertion(s: State, h: Ref, r: Ref, c: Connection.Conn, all: Conns, limit: nat, order: seq<Addr>)
    requires Settled(s) && Fresh(s, h, r, c) && Enumerates(order, all) && all == Seen(s, h)[c.addr := c]
    ensures Enabled(s, AddConn(h, r, c, ListenVictim(all, limit, c.addr, order)))
    ensures var t := Step(s, AddConn(h, r, c, ListenVictim(all, limit, c.addr, order)));
            NowSees(s, t, h, Listen.Evicted(all, limit, c.addr, order))
  {
    EvictedIs(all, limit, c.addr, order);
    NewAddress(s, h, r, c);
    hide *;
    var oldest := Oldest(order, all);
    if |all| > limit && oldest != c.addr {
      VictimSeen(s, h, c, all, oldest);
      EvictedSeen(s, h, r, c, oldest);
    } else {
      InsertedSeen(s, h, r, c);
    }
  }

  lemma NewAddress(s: State, h: Ref, r: Ref, c: Connection.Conn)
    requires Fresh(s, h, r, c)
    ensures h in s.parents && c.addr !in Seen(s, h)
  {
  }

  lemma VictimSeen(s: State, h: Ref, c: Connection.Conn, all: Conns, a: Addr)
    requires h in s.parents && all == Seen(s, h)[c.addr := c] && a in all && a != c.addr
    ensures a in Seen(s, h) && IdAt(s, h, a) == all[a].id && (Seen(s, h) - {a})[c.addr := c] == all - {a}
  {
    hide Seen;
  }

  lemma EvictedIs(all: Conns, limit: nat, a: Addr, order: seq<Addr>)
    requires Enumerates(order, all) && a in all
    ensures order != []
    ensures var oldest := Oldest(order, all);
            if |all| > limit && oldest != a then
              && oldest in all && ListenVictim(all, limit, a, order) == Some(all[oldest].id)
              && Listen.Evicted(all, limit, a, order) == all - {oldest}
            else ListenVictim(all, limit, a, order) == None && Listen.Evicted(all, limit, a, order) == all
  {
    NonEmptyOrder(order, all);
    hide Oldest, Enumerates, FirstMinimum;
  }

  // ---------- The inactivity check ----------

  function Addrs(s: State, rs: seq<Ref>): set<Addr>
    requires forall k :: 0 <= k < |rs| ==> rs[k] in s.conns
  {
    if rs == [] then {} else Addrs(s, Front(rs)) + {s.conns[Last(rs)].conn.addr}
  }

  lemma {:induction false} AllRemovedSeen(s: State, h: Ref, rs: seq<Ref>)
    requires Sweepable(s, rs) && h in s.parents
    requires forall k :: 0 <= k < |rs| ==> s.conns[rs[k]].parent == h
    ensures NowSees(s, RemovedAll(s, IdsOf(s, rs)), h, Seen(s, h) - Addrs(s, rs))
    decreases |rs|
  {
    hide *;
    SweepableSettled(s, rs);
    if rs == [] {
      NoneRemoved(s, h);
    } else {
      var r, before := Last(rs), Front(rs);
      SweepFront(s, h, rs);
      AllRemovedSeen(s, h, before);
      RemovedSoFar(s, before);
      IdsSnoc(s, before, r);
      RemovedAllSnoc(s, IdsOf(s, before), s.conns[r].conn.id);
      var t := RemovedAll(s, IdsOf(s, before));
      SeesHere(s, t, h, Seen(s, h) - Addrs(s, before));
      RemovedSeenSettled(t, r, h);
      OneMoreGone(Seen(s, h), Addrs(s, before), s.conns[r].conn.addr);
      SeesTrans(s, t, RemovedAll(s, IdsOf(s, rs)), h, Seen(s, h) - Addrs(s, before), Seen(s, h) - Addrs(s, rs));
    }
  }

  lemma NoneRemoved(s: State, h: Ref)
    requires Settled(s) && h in s.parents
    ensures NowSees(s, RemovedAll(s, IdsOf(s, [])), h, Seen(s, h) - Addrs(s, []))
  {
    hide Settled, Seen, Removed;
    assert IdsOf(s, []) == [];
    assert Seen(s, h) - {} == Seen(s, h);
    SeesSame(s, h);
  }

  // The last connection of the list, and the ones before it.
  lemma SweepFront(s: State, h: Ref, rs: seq<Ref>)
    requires Sweepable(s, rs) && rs != [] && h in s.parents
    requires forall k :: 0 <= k < |rs| ==> s.conns[rs[k]].parent == h
    ensures var r, before := Last(rs), Front(rs);
            && Settled(s) && Sweepable(s, before) && Distinct(before) && rs == before + [r]
            && (forall k :: 0 <= k < |before| ==> before[k] in s.conns && s.conns[before[k]].parent == h)
            && r in s.conns && s.conns[r].parent == h && r !in SetOf(before)
            && Addrs(s, rs) == Addrs(s, before) + {s.conns[r].conn.addr}
  {
    hide Settled;
    NotYetRemoved(rs);
  }

  lemma IdsSnoc(s: State, before: seq<Ref>, r: Ref)
    requires r in s.conns && forall k :: 0 <= k < |before| ==> before[k] in s.conns
    ensures IdsOf(s, before + [r]) == IdsOf(s, before) + [s.conns[r].conn.id]
  {
  }

  lemma OneMoreGone(m: Conns, gone: set<Addr>, a: Addr)
    ensures m - gone - {a} == m - (gone + {a})
  {
  }

  lemma NotYetRemoved(rs: seq<Ref>)
    requires rs != [] && Distinct(rs)
    ensures Last(rs) !in SetOf(Front(rs))
  {
  }

  lemma RemovedSeenSettled(t: State, r: Ref, h: Ref)
    requires Settled(t) && r in t.conns && h in t.parents && t.conns[r].parent == h
    ensures AllTabled(t) && Counted(t)
    ensures NowSees(t, Removed(t, t.conns[r].conn.id), h, Seen(t, h) - {t.conns[r].conn.addr})
  {
    SettledParts(t);
    InvParts(t);
    hide Settled, Inv, Seen, Removed, AllTabled, Counted, NowSees;
    RemovedSeen(t, r);
  }

  lemma {:induction false} AddrsAre(s: State, rs: seq<Ref>)
    requires forall k :: 0 <= k < |rs| ==> rs[k] in s.conns
    ensures forall a :: a in Addrs(s, rs) <==> exists k :: 0 <= k < |rs| && s.conns[rs[k]].conn.addr == a
  {
    if rs != [] {
      AddrsAre(s, Front(rs));
    }
  }

  /** The inactivity check: removing exactly the expired connections of a parent from the
      tables leaves it with exactly the unexpired ones, and no other parent sees a change. */
  lemma ExpiredSeen(s: State, h: Ref, rs: seq<Ref>, now: int)
    requires Sweepable(s, rs) && h in s.parents
    requires forall r :: r in rs <==> r in s.conns && s.conns[r].parent == h && Expired(s.conns[r].conn, now)
    ensures NowSees(s, RemovedAll(s, IdsOf(s, rs)), h, Unexpired(Seen(s, h), now))
  {
    AllRemovedSeen(s, h, rs);
    hide *;
    forall a | a in Seen(s, h)
      ensures a in Addrs(s, rs) <==> Expired(Seen(s, h)[a], now)
    {
      SweepableSettled(s, rs);
      ExpiredAt(s, h, rs, now, a);
    }
    ExpiredGone(Seen(s, h), Addrs(s, rs), now);
  }

  lemma SweepableSettled(s: State, rs: seq<Ref>)
    requires Sweepable(s, rs)
    ensures Settled(s) && forall k :: 0 <= k < |rs| ==> rs[k] in s.conns
  {
  }

  lemma ExpiredGone(m: Conns, gone: set<Addr>, now: int)
    requires forall a :: a in m ==> (a in gone <==> Expired(m[a], now))
    ensures m - gone == Unexpired(m, now)
  {
  }

  lemma ExpiredAt(s: State, h: Ref, rs: seq<Ref>, now: int, a: Addr)
    requires Settled(s) && h in s.parents && a in Seen(s, h)
    requires forall k :: 0 <= k < |rs| ==> rs[k] in s.conns
    requires forall r :: r in rs <==> r in s.conns && s.conns[r].parent == h && Expired(s.conns[r].conn, now)
    ensures a in Addrs(s, rs) <==> Expired(Seen(s, h)[a], now)
  {
    AddrsAre(s, rs);
    SeenAt(s, h, a);
    hide Settled, Seen, Addrs;
    if k :| 0 <= k < |rs| && s.conns[rs[k]].conn.addr == a {
      SeenByParent(s, rs[k]);
      assert rs[k] in rs;
    }
    var r := s.parents[h].addrMap[a];
    if Expired(s.conns[r].conn, now) {
      assert r in rs;
    }
  }
}

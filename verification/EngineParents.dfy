/** What the coming and going of entries does to what the parents see in the shared tables:
    new parents, removals of any entry, and CLOSE requests. */
module EngineParents {
  import opened Base
  import opened Pool
  import opened Table
  import opened TableView
  import opened Engine
  import Connection
  import TableRuns

  // ---------- Parents that come and go ----------

  /** The parents that are left see what they saw. */
  predicate OthersSee(s: State, t: State) {
    forall g :: g in s.parents && g in t.parents ==> Seen(t, g) == Seen(s, g)
  }

  lemma AddedParentSees(s: State, h: Ref, kind: Kind, id: Id, rid: Id)
    requires Settled(s) && h !in s.parents && id !in s.sockets
    ensures var t := TableRuns.Step(s, TableRuns.AddParent(h, kind, id, rid));
            t.parents.Keys == s.parents.Keys + {h} && Seen(t, h) == map[] && OthersSee(s, t)
  {
    hide *;
    AddedParentShape(s, h, kind, id, rid);
    EmptyParentSees(s, TableRuns.Step(s, TableRuns.AddParent(h, kind, id, rid)), h, Parent(kind, id, rid, map[], map[]));
  }

  lemma EmptyParentSees(s: State, t: State, h: Ref, p: Parent)
    requires h !in s.parents && t.parents == s.parents[h := p] && t.conns == s.conns && p.addrMap == map[]
    ensures t.parents.Keys == s.parents.Keys + {h} && Seen(t, h) == map[] && OthersSee(s, t)
  {
  }

  lemma AddedParentShape(s: State, h: Ref, kind: Kind, id: Id, rid: Id)
    requires Settled(s) && h !in s.parents && id !in s.sockets
    ensures var t := TableRuns.Step(s, TableRuns.AddParent(h, kind, id, rid));
            && t.parents == s.parents[h := Parent(kind, id, rid, map[], map[])] && t.conns == s.conns
  {
    hide Settled;
  }

  lemma AddedOtherSees(s: State, id: Id, closable: bool)
    requires Settled(s)
    ensures var t := TableRuns.Step(s, TableRuns.AddOther(id, closable)); SameParents(s, t)
  {
    AddedOtherShape(s, id, closable);
    SameView(s, TableRuns.Step(s, TableRuns.AddOther(id, closable)));
  }

  // The same parents see the same.
  predicate SameParents(s: State, t: State) {
    t.parents.Keys == s.parents.Keys && OthersSee(s, t)
  }

  lemma AddedOtherShape(s: State, id: Id, closable: bool)
    requires Settled(s)
    ensures var t := TableRuns.Step(s, TableRuns.AddOther(id, closable));
            t.parents == s.parents && t.conns == s.conns
  {
    hide Settled;
  }

  lemma SameView(s: State, t: State)
    requires t.parents == s.parents && t.conns == s.conns
    ensures SameParents(s, t)
  {
  }

  lemma ParentRemovedSees(s: State, id: Id)
    requires Settled(s) && AllTabled(s) && Counted(s) && id in s.sockets && s.sockets[id].ParentE?
    ensures var h, t := s.sockets[id].parent, Removed(s, id);
            h in s.parents && t.parents.Keys == s.parents.Keys - {h} && OthersSee(s, t)
  {
    var h, t := s.sockets[id].parent, Removed(s, id);
    assert Tabled(s, id);
    ParentRemovedShape(s, id);
    hide Removed, Settled, AllTabled, Counted, Tabled, Children;
    forall g | g in s.parents && g in t.parents
      ensures Seen(t, g) == Seen(s, g)
    {
      AllPresent(s, g);
      AllPresent(s, h);
      ChildrenOf(s, h);
      SeenLess(s.parents[g].addrMap, s.conns, Children(s, h));
    }
  }

  lemma ParentRemovedShape(s: State, id: Id)
    requires AllTabled(s) && Counted(s) && id in s.sockets && s.sockets[id].ParentE? && s.sockets[id].parent in s.parents
    ensures var h, t := s.sockets[id].parent, Removed(s, id);
            && t.parents == s.parents - {h} && t.conns == s.conns - Children(s, h)
  {
    var h, t := s.sockets[id].parent, Removed(s, id);
    hide AllTabled, Counted;
    assert Children(Out(s, id), h) == Children(s, h);
    assert t.parents == s.parents - {h};
  }

  lemma ChildrenOf(s: State, h: Ref)
    requires h in s.parents
    requires forall a :: a in s.parents[h].addrMap ==>
               var q := s.parents[h].addrMap[a]; q in s.conns && s.conns[q].conn.addr == a && s.conns[q].parent == h
    ensures forall q :: q in Children(s, h) ==> q in s.conns && s.conns[q].parent == h
  {
  }

  lemma SeenLess(addrMap: map<Addr, Ref>, conns: map<Ref, Slot>, gone: set<Ref>)
    requires forall b :: b in addrMap ==> addrMap[b] in conns && addrMap[b] !in gone
    ensures SeenIn(addrMap, conns - gone) == SeenIn(addrMap, conns)
  {
  }

  lemma OtherRemovedSees(s: State, id: Id)
    requires AllTabled(s) && Counted(s) && (id in s.sockets ==> s.sockets[id].OtherE?)
    ensures Removed(s, id).parents.Keys == s.parents.Keys && OthersSee(s, Removed(s, id))
  {
    hide AllTabled, Counted;
  }

  lemma SetRidSees(s: State, h: Ref)
    requires h in s.parents
    ensures var t := TableRuns.SetRid(s, h); t.parents.Keys == s.parents.Keys && OthersSee(s, t)
  {
  }

  lemma SeesOthers(s: State, t: State, g: Ref)
    requires OthersSee(s, t) && g in s.parents && g in t.parents
    ensures Seen(t, g) == Seen(s, g)
  {
    hide Seen;
  }

  lemma SeesBeside(s: State, t: State, h: Ref, conns: Conns, g: Ref)
    requires NowSees(s, t, h, conns) && g in s.parents
    ensures t.parents.Keys == s.parents.Keys && g in t.parents
    ensures Seen(t, g) == if g == h then conns else Seen(s, g)
  {
    hide Seen;
  }

  // ---------- Removal and CLOSE ----------

  // A CLOSE does nothing to an entry that cannot be closed.
  predicate Unclosable(s: State, id: Id) {
    id in s.sockets && s.sockets[id].ParentE? && s.sockets[id].parent in s.parents
    && s.parents[s.sockets[id].parent].kind.Local?
  }

  lemma RemovedConnSees(s: State, id: Id)
    requires Settled(s) && id in s.sockets && s.sockets[id].ConnE?
    ensures var r := s.sockets[id].conn;
            && r in s.conns && s.conns[r].parent in s.parents
            && NowSees(s, TableRuns.Step(s, TableRuns.Remove(id)), s.conns[r].parent,
                       Seen(s, s.conns[r].parent) - {s.conns[r].conn.addr})
  {
    TableRuns.SettledParts(s);
    TableRuns.InvParts(s);
    assert Tabled(s, id);
    hide *;
    RemoveStep(s, id);
    RemovedSeen(s, s.sockets[id].conn);
  }

  lemma ClosedConnSees(s: State, id: Id)
    requires Settled(s) && id in s.sockets && s.sockets[id].ConnE?
    ensures var r := s.sockets[id].conn;
            && r in s.conns && s.conns[r].parent in s.parents
            && NowSees(s, TableRuns.Step(s, TableRuns.CloseMsg(id)), s.conns[r].parent,
                       Seen(s, s.conns[r].parent) - {s.conns[r].conn.addr})
  {
    hide *;
    ConnParts(s, id);
    var r := s.sockets[id].conn;
    var c := s.conns[r].conn.(rid := 0);
    var h, t := s.conns[r].parent, SetConn(s, r, c);
    UpdatedSeen(s, r, c);
    TableRuns.SettledSetConn(s, r, c);
    SetConnIs(s, r, c);
    RemovedConnSees(t, id);
    RemoveStep(t, id);
    CloseStepConn(s, id);
    SeesBeside(s, t, h, Seen(s, h)[c.addr := c], h);
    assert Seen(s, h)[c.addr := c] - {c.addr} == Seen(s, h) - {c.addr};
    SeesTrans(s, t, TableRuns.Step(s, TableRuns.CloseMsg(id)), h, Seen(s, h)[c.addr := c], Seen(s, h) - {c.addr});
  }

  lemma ConnParts(s: State, id: Id)
    requires Settled(s) && id in s.sockets && s.sockets[id].ConnE?
    ensures var r := s.sockets[id].conn; r in s.conns && s.conns[r].parent in s.parents && s.conns[r].conn.id == id
    ensures Inv(s)
  {
    TableRuns.SettledParts(s);
    TableRuns.InvParts(s);
    assert Tabled(s, id);
    hide Settled, Inv;
    SeenByParent(s, s.sockets[id].conn);
  }

  lemma SetConnIs(s: State, r: Ref, c: Connection.Conn)
    requires r in s.conns
    ensures var t := SetConn(s, r, c);
            && t.sockets == s.sockets && t.parents == s.parents && r in t.conns
            && t.conns[r].conn == c && t.conns[r].parent == s.conns[r].parent
  {
  }

  lemma CloseStepConn(s: State, id: Id)
    requires Settled(s) && Inv(s) && id in s.sockets && s.sockets[id].ConnE? && s.sockets[id].conn in s.conns
    requires var t := SetConn(s, s.sockets[id].conn, s.conns[s.sockets[id].conn].conn.(rid := 0));
             AllTabled(t) && Counted(t)
    ensures var t := SetConn(s, s.sockets[id].conn, s.conns[s.sockets[id].conn].conn.(rid := 0));
            TableRuns.Step(s, TableRuns.CloseMsg(id)) == Removed(t, id)
  {
    CloseStep(s, id);
    hide Settled, Inv, Removed, AllTabled, Counted, SetConn, TableRuns.Step;
  }

  lemma CloseStep(s: State, id: Id)
    requires Settled(s) && Inv(s)
    ensures TableRuns.Step(s, TableRuns.CloseMsg(id)) == TableRuns.Closed(s, id)
  {
    hide Settled, Inv, TableRuns.Closed;
  }

  lemma ParentParts(s: State, id: Id)
    requires Settled(s) && id in s.sockets && s.sockets[id].ParentE?
    ensures s.sockets[id].parent in s.parents && Inv(s)
  {
    TableRuns.SettledParts(s);
    TableRuns.InvParts(s);
    assert Tabled(s, id);
  }

  lemma RemovedParentSees(s: State, id: Id)
    requires Settled(s) && id in s.sockets && s.sockets[id].ParentE?
    ensures var h, t := s.sockets[id].parent, TableRuns.Step(s, TableRuns.Remove(id));
            h in s.parents && t.parents.Keys == s.parents.Keys - {h} && OthersSee(s, t)
  {
    hide *;
    RemoveStep(s, id);
    ParentParts(s, id);
    ParentRemovedSees(s, id);
  }

  lemma ClosedParentSees(s: State, id: Id)
    requires Settled(s) && id in s.sockets && s.sockets[id].ParentE?
    ensures var h, t := s.sockets[id].parent, TableRuns.Step(s, TableRuns.CloseMsg(id));
            h in s.parents && OthersSee(s, t)
            && t.parents.Keys == s.parents.Keys - if Unclosable(s, id) then {} else {h}
  {
    hide *;
    ParentParts(s, id);
    CloseStep(s, id);
    var h := s.sockets[id].parent;
    UnclosableIs(s, id);
    if Unclosable(s, id) {
      NothingClosed(s, id);
      SameView(s, s);
      SameParentsIs(s, s);
    } else {
      var t := TableRuns.SetRid(s, h);
      TableRuns.SettledSetRid(s, h);
      RemoveStep(t, id);
      CloseStepParent(s, id);
      SetRidSees(s, h);
      SetRidIs(s, h);
      RemovedParentSees(t, id);
      OthersTrans(s, t, TableRuns.Step(s, TableRuns.CloseMsg(id)));
    }
  }

  lemma UnclosableIs(s: State, id: Id)
    requires id in s.sockets && s.sockets[id].ParentE? && s.sockets[id].parent in s.parents
    ensures Unclosable(s, id) <==> s.parents[s.sockets[id].parent].kind.Local?
  {
  }

  lemma NothingClosed(s: State, id: Id)
    requires Inv(s) && id in s.sockets && s.sockets[id].ParentE? && s.sockets[id].parent in s.parents
    requires s.parents[s.sockets[id].parent].kind.Local?
    ensures TableRuns.Closed(s, id) == s
  {
    hide Inv;
  }

  lemma CloseStepParent(s: State, id: Id)
    requires Inv(s) && id in s.sockets && s.sockets[id].ParentE? && s.sockets[id].parent in s.parents
    requires !s.parents[s.sockets[id].parent].kind.Local?
    requires var t := TableRuns.SetRid(s, s.sockets[id].parent); AllTabled(t) && Counted(t)
    ensures TableRuns.Closed(s, id) == Removed(TableRuns.SetRid(s, s.sockets[id].parent), id)
  {
    hide Inv, AllTabled, Counted, Removed, TableRuns.SetRid;
  }

  lemma SetRidIs(s: State, h: Ref)
    requires h in s.parents
    ensures TableRuns.SetRid(s, h).sockets == s.sockets
  {
  }

  lemma SameParentsIs(s: State, t: State)
    requires SameParents(s, t)
    ensures t.parents.Keys == s.parents.Keys && OthersSee(s, t)
  {
  }

  lemma OthersTrans(s: State, t: State, u: State)
    requires OthersSee(s, t) && OthersSee(t, u) && t.parents.Keys == s.parents.Keys
    ensures OthersSee(s, u)
  {
    hide Seen;
  }

  // An entry of another kind, or none, is removed or closed.
  lemma OtherSees(s: State, id: Id)
    requires Settled(s) && (id in s.sockets ==> s.sockets[id].OtherE?)
    ensures SameParents(s, TableRuns.Step(s, TableRuns.Remove(id)))
    ensures SameParents(s, TableRuns.Step(s, TableRuns.CloseMsg(id)))
  {
    hide *;
    RemoveStep(s, id);
    TableRuns.SettledInv(s);
    OtherRemovedSees(s, id);
    SameParentsIntro(s, TableRuns.Step(s, TableRuns.Remove(id)));
    CloseStep(s, id);
    OtherClosedIs(s, id);
    SameView(s, s);
  }

  lemma OtherClosedIs(s: State, id: Id)
    requires Inv(s) && AllTabled(s) && Counted(s) && (id in s.sockets ==> s.sockets[id].OtherE?)
    ensures TableRuns.Closed(s, id) == s || TableRuns.Closed(s, id) == Removed(s, id)
  {
    hide Inv, AllTabled, Counted, Removed;
  }

  lemma SameParentsIntro(s: State, t: State)
    requires t.parents.Keys == s.parents.Keys && OthersSee(s, t)
    ensures SameParents(s, t)
  {
  }
}

/** Every elementary step of a removal keeps the table invariant. */
module TableSteps {
  import opened Base
  import opened Table
  import Connection

  // ---------- Frames for the parts of the invariant ----------

  predicate SameIdentity(s: State, t: State, r: Ref)
    requires r in s.conns
  {
    && r in t.conns && t.conns[r].parent == s.conns[r].parent
    && t.conns[r].conn.id == s.conns[r].conn.id && t.conns[r].conn.addr == s.conns[r].conn.addr
  }

  predicate SameShare(s: State, t: State, r: Ref)
    requires r in s.conns && r in t.conns
  {
    && t.conns[r].refs == s.conns[r].refs && t.held[r] == s.held[r]
    && InSockets(t, r) == InSockets(s, r) && Linked(t, r) == Linked(s, r)
  }

  lemma FrameTabled(s: State, t: State)
    requires AllTabled(s)
    requires forall i :: i in t.sockets ==> i in s.sockets && t.sockets[i] == s.sockets[i]
    requires forall i, r :: i in t.sockets && t.sockets[i] == ConnE(r) ==>
               r in s.conns ==> SameIdentity(s, t, r)
    requires forall i, h :: i in t.sockets && t.sockets[i] == ParentE(h) ==>
               h in s.parents ==> h in t.parents && t.parents[h].id == s.parents[h].id
    ensures AllTabled(t)
  {
    forall i | i in t.sockets
      ensures Tabled(t, i)
    {
      assert Tabled(s, i);
    }
  }

  lemma FrameMirror(s: State, t: State, h: Ref)
    requires h in s.parents && h in t.parents && Mirror(s, h)
    requires s.parents[h].addrMap == t.parents[h].addrMap && s.parents[h].idMap == t.parents[h].idMap
    requires forall r :: r in s.conns && Linked(s, r) ==> SameIdentity(s, t, r)
    ensures Mirror(t, h)
  {
    forall a | a in t.parents[h].addrMap
      ensures AddrEntry(t, h, a)
    {
      assert AddrEntry(s, h, a);
    }
    forall i | i in t.parents[h].idMap
      ensures IdEntry(t, h, i)
    {
      assert IdEntry(s, h, i);
    }
  }

  lemma FrameAllMirror(s: State, t: State)
    requires AllMirror(s) && t.parents == s.parents
    requires forall r :: r in s.conns && Linked(s, r) ==> SameIdentity(s, t, r)
    ensures AllMirror(t)
  {
    forall h | h in t.parents
      ensures Mirror(t, h)
    {
      FrameMirror(s, t, h);
    }
  }

  lemma FrameCounted(s: State, t: State, changed: set<Ref>)
    requires Counted(s)
    requires forall r :: r in t.conns && r !in changed ==> r in s.conns && SameShare(s, t, r)
    requires forall r :: r in t.conns && r in changed ==> RefsExact(t, r)
    ensures Counted(t)
  {
    forall r | r in t.conns
      ensures RefsExact(t, r)
    {
      assert r !in changed ==> RefsExact(s, r);
    }
  }

  lemma FrameIds(s: State, t: State)
    requires IdsUnique(s)
    requires forall i :: i in t.sockets ==> i in s.sockets && t.sockets[i] == s.sockets[i]
    requires forall r :: r in t.conns ==> r in s.conns && SameIdentity(s, t, r)
    ensures IdsUnique(t)
  {
    forall r | r in t.conns && t.conns[r].conn.id in t.sockets
      ensures InSockets(t, r)
    {
      assert InSockets(s, r);
    }
  }

  // ---------- Every step keeps the invariant ----------

  lemma OutInv(s: State, id: Id)
    requires Inv(s) && id in s.sockets
    ensures Inv(Out(s, id))
  {
    var t := Out(s, id);
    assert Tabled(s, id);
    FrameTabled(s, t);
    FrameAllMirror(s, t);
    FrameIds(s, t);
    if s.sockets[id].ConnE? {
      assert RefsExact(s, s.sockets[id].conn);
      FrameCounted(s, t, {s.sockets[id].conn});
    } else {
      FrameCounted(s, t, {});
    }
  }

  lemma SetConnInv(s: State, r: Ref, c: Connection.Conn)
    requires Inv(s) && r in s.conns && c.id == s.conns[r].conn.id && c.addr == s.conns[r].conn.addr
    ensures Inv(SetConn(s, r, c))
  {
    var t := SetConn(s, r, c);
    FrameTabled(s, t);
    FrameAllMirror(s, t);
    FrameIds(s, t);
    FrameCounted(s, t, {});
  }

  lemma UnrefShares(s: State, r: Ref)
    requires Counted(s) && r in s.held && r in s.conns
    ensures s.conns[r].refs > 0 && Counted(Unref(s, r))
    ensures r !in Unref(s, r).conns <==> !InSockets(s, r) && !Linked(s, r) && s.held[r] == 1
  {
    assert RefsExact(s, r);
    FrameCounted(s, Unref(s, r), {r});
  }

  lemma UnrefTabled(s: State, r: Ref)
    requires AllTabled(s) && Counted(s) && r in s.held && r in s.conns
    ensures s.conns[r].refs > 0 && AllTabled(Unref(s, r))
  {
    UnrefShares(s, r);
    forall i | i in s.sockets
      ensures Tabled(Unref(s, r), i)
    {
      assert Tabled(s, i);
    }
  }

  lemma UnrefMirror(s: State, r: Ref)
    requires AllMirror(s) && IdsUnique(s) && Counted(s) && r in s.held && r in s.conns
    ensures s.conns[r].refs > 0 && AllMirror(Unref(s, r)) && IdsUnique(Unref(s, r))
  {
    UnrefShares(s, r);
    FrameAllMirror(s, Unref(s, r));
    FrameIds(s, Unref(s, r));
  }

  lemma UnrefInv(s: State, r: Ref)
    requires Inv(s) && r in s.held
    ensures r in s.conns && s.conns[r].refs > 0 && Inv(Unref(s, r))
  {
    UnrefShares(s, r);
    UnrefTabled(s, r);
    UnrefMirror(s, r);
  }

  lemma UnlinkMirror(s: State, r: Ref)
    requires AllMirror(s) && r in s.conns && Linked(s, r)
    ensures AllMirror(UnlinkHeld(s, r))
  {
    var t := UnlinkHeld(s, r);
    assert Mirror(s, s.conns[r].parent);
    forall h, a | h in t.parents && a in t.parents[h].addrMap
      ensures AddrEntry(t, h, a)
    {
      assert Mirror(s, h) && AddrEntry(s, h, a);
    }
    forall h, i | h in t.parents && i in t.parents[h].idMap
      ensures IdEntry(t, h, i)
    {
      assert Mirror(s, h) && IdEntry(s, h, i);
    }
  }

  lemma UnlinkCounted(s: State, r: Ref)
    requires Counted(s) && AllMirror(s) && r in s.conns && Linked(s, r)
    ensures Counted(UnlinkHeld(s, r))
  {
    var t := UnlinkHeld(s, r);
    assert RefsExact(s, r);
    forall q | q in t.conns && q != r
      ensures SameShare(s, t, q)
    {
      if Linked(s, q) {
        assert Mirror(s, s.conns[q].parent) && AddrEntry(s, s.conns[q].parent, s.conns[q].conn.addr);
      }
    }
    FrameCounted(s, t, {r});
  }

  lemma UnlinkInv(s: State, r: Ref)
    requires Inv(s) && r in s.conns && Linked(s, r)
    ensures Inv(UnlinkHeld(s, r))
  {
    var t := UnlinkHeld(s, r);
    UnlinkMirror(s, r);
    UnlinkCounted(s, r);
    FrameTabled(s, t);
    FrameIds(s, t);
  }

  lemma KidsAreLinked(s: State, h: Ref, r: Ref)
    requires AllMirror(s) && h in s.parents
    ensures r in Children(s, h) <==> r in s.conns && s.conns[r].parent == h && Linked(s, r)
  {
    assert Mirror(s, h);
    if r in Children(s, h) {
      var a :| a in s.parents[h].addrMap && s.parents[h].addrMap[a] == r;
      assert AddrEntry(s, h, a);
    }
  }

  lemma EmptiedMirror(s: State, h: Ref)
    requires AllMirror(s) && h in s.parents
    ensures AllMirror(Emptied(s, h))
  {
    var t := Emptied(s, h);
    forall g, a | g in t.parents && a in t.parents[g].addrMap
      ensures AddrEntry(t, g, a)
    {
      assert Mirror(s, g) && AddrEntry(s, g, a);
    }
    forall g, i | g in t.parents && i in t.parents[g].idMap
      ensures IdEntry(t, g, i)
    {
      assert Mirror(s, g) && IdEntry(s, g, i);
    }
  }

  lemma EmptiedCounted(s: State, h: Ref)
    requires Counted(s) && AllMirror(s) && h in s.parents
    ensures Counted(Emptied(s, h))
  {
    var t := Emptied(s, h);
    forall r | r in t.conns
      ensures RefsExact(t, r)
    {
      assert RefsExact(s, r);
      KidsAreLinked(s, h, r);
    }
  }

  lemma EmptiedInv(s: State, h: Ref)
    requires Inv(s) && h in s.parents
    ensures Inv(Emptied(s, h))
  {
    var t := Emptied(s, h);
    EmptiedMirror(s, h);
    EmptiedCounted(s, h);
    FrameTabled(s, t);
    FrameIds(s, t);
    forall r | r in Children(s, h)
      ensures r in t.conns
    {
      KidsAreLinked(s, h, r);
    }
  }

  lemma FreeParentMirror(s: State, h: Ref)
    requires AllMirror(s)
    ensures AllMirror(FreeParent(s, h))
  {
    var t := FreeParent(s, h);
    forall g | g in t.parents
      ensures Mirror(t, g)
    {
      FrameMirror(s, t, g);
    }
  }

  lemma FreeParentCounted(s: State, h: Ref)
    requires Counted(s) && h in s.parents && s.parents[h].addrMap == map[]
    ensures Counted(FreeParent(s, h))
  {
    FrameCounted(s, FreeParent(s, h), {});
  }

  lemma FreeParentInv(s: State, h: Ref)
    requires Inv(s) && h in s.parents && s.parents[h].addrMap == map[]
    requires ParentE(h) !in s.sockets.Values
    ensures Inv(FreeParent(s, h))
  {
    var t := FreeParent(s, h);
    DropKeeps(s.handlers, h);
    FreeParentMirror(s, h);
    FreeParentCounted(s, h);
    FrameTabled(s, t);
    FrameIds(s, t);
  }
}

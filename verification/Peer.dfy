/** The peer object: removal as the source runs it, by mutually recursive callbacks
    over the tables. Each method is tied to its closed form on the state. */
module Peer {
  import opened Base
  import opened Table
  import opened TableSteps
  import opened TableChain
  import opened TableSettled
  import opened TableRuns
  import opened TableSweep
  import Connection

  // A listener evicts while the new connection is shared already.
  lemma ListenEviction(s: State, h: Ref, r: Ref, c: Connection.Conn, victim: Option<Id>)
    requires Settled(s) && Fresh(s, h, r, c)
    requires victim == Some(c.id) || Enabled(s, AddConn(h, r, c, victim))
    ensures var u := Shared(s, h, r, c);
            var evicted := if victim == Some(c.id) then None else victim;
            && h in s.parents && Inv(u) && AllTabled(u) && Counted(u)
            && (victim.Some? ==> KidsFree(u, victim.value))
            && Entered(if victim.Some? then Removed(u, victim.value) else u, r, c.id)
               == Step(s, AddConn(h, r, c, evicted))
  {
    var u := Shared(s, h, r, c);
    SharedInv(s, h, r, c);
    if victim.Some? && victim != Some(c.id) {
      var id := victim.value;
      var q := s.sockets[id].conn;
      assert Tabled(s, id) && Linked(s, q) && RefsExact(s, q);
      NoKeyReplaced(s, h, r, c, h);
      EvictWhileShared(s, h, r, c, id);
      EvictionKeepsParent(s, h, r, c, victim);
    } else {
      StepIsAdded(s, h, r, c, None);
    }
  }

  lemma LocalEviction(s: State, h: Ref, r: Ref, c: Connection.Conn, victim: Option<Id>)
    requires Settled(s) && Enabled(s, AddConn(h, r, c, victim))
    ensures var e := Evicted(s, victim);
            && AllTabled(s) && Counted(s) && (victim.Some? ==> KidsFree(s, victim.value)) && Inv(s)
            && e == (if victim.Some? then Removed(s, victim.value) else s)
            && h in e.parents && Entered(Shared(e, h, r, c), r, c.id) == Step(s, AddConn(h, r, c, victim))
  {
    EvictionKeepsParent(s, h, r, c, victim);
    StepIsAdded(s, h, r, c, victim);
  }

  predicate Closable(s: State, id: Id)
    requires id in s.sockets
  {
    match s.sockets[id]
    case ConnE(_) => true
    case ParentE(h) => h in s.parents && s.parents[h].kind == Listen
    case OtherE(closable) => closable
  }

  // The close callback itself removes the entry.
  predicate HasRemote(s: State, id: Id)
    requires id in s.sockets
  {
    match s.sockets[id]
    case ConnE(r) => r in s.conns && s.conns[r].conn.rid != 0
    case ParentE(h) => h in s.parents && s.parents[h].kind == Listen && s.parents[h].rid != 0
    case OtherE(closable) => closable
  }

  predicate CanClose(s: State, id: Id) {
    && Inv(s) && id in s.sockets && Tabled(s, id) && KidsFree(s, id)
    && match s.sockets[id]
       case ConnE(r) =>
         var t := SetConn(s, r, s.conns[r].conn.(rid := 0));
         Inv(t) && AllTabled(t) && Counted(t) && KidsFree(t, id) && Closed(s, id) == Removed(t, id)
       case ParentE(h) =>
         var t := SetRid(s, h);
         Inv(t) && AllTabled(t) && Counted(t) && KidsFree(t, id)
         && Closed(s, id) == if s.parents[h].kind == Listen then Removed(t, id) else s
       case OtherE(closable) => AllTabled(s) && Counted(s) && Closed(s, id) == if closable then Removed(s, id) else s
  }

  lemma CloseFacts(s: State, id: Id)
    requires Settled(s) && id in s.sockets
    ensures Tabled(s, id) && Inv(s) && AllTabled(s) && Counted(s) && CanClose(s, id)
  {
    CloseTabled(s, id);
    hide Settled, Inv, CanClose;
    match s.sockets[id]
    case ConnE(r) => CloseConnFacts(s, id, r);
    case ParentE(h) => CloseParentFacts(s, id, h);
    case OtherE(_) => CloseOtherFacts(s, id);
  }

  lemma CloseTabled(s: State, id: Id)
    requires Settled(s) && id in s.sockets
    ensures Inv(s) && AllTabled(s) && Counted(s) && Tabled(s, id) && s.held == multiset{}
  {
    assert Tabled(s, id);
  }

  lemma CloseConnFacts(s: State, id: Id, r: Ref)
    requires Inv(s) && id in s.sockets && s.sockets[id] == ConnE(r) && Tabled(s, id)
    ensures CanClose(s, id)
  {
    SetConnInv(s, r, s.conns[r].conn.(rid := 0));
    InvParts(SetConn(s, r, s.conns[r].conn.(rid := 0)));
    hide Inv, AllTabled, Counted, Removed;
  }

  lemma CloseParentFacts(s: State, id: Id, h: Ref)
    requires Inv(s) && id in s.sockets && s.sockets[id] == ParentE(h) && Tabled(s, id) && s.held == multiset{}
    ensures CanClose(s, id)
  {
    SetRidInv(s, h);
    InvParts(SetRid(s, h));
    hide Inv, AllTabled, Counted, Removed;
  }

  lemma CloseOtherFacts(s: State, id: Id)
    requires Inv(s) && id in s.sockets && s.sockets[id].OtherE?
    ensures CanClose(s, id)
  {
    InvParts(s);
    hide Inv, AllTabled, Counted, Removed;
  }

  lemma RemovedIsGone(s: State, id: Id)
    requires AllTabled(s) && Counted(s)
    ensures id !in Removed(s, id).sockets
  {
    SignalledOnce(s, id);
  }

  lemma NothingToRemove(s: State, id: Id)
    requires Settled(s) && id !in s.sockets
    ensures Inv(s) && AllTabled(s) && Counted(s) && KidsFree(s, id) && Removed(s, id) == s
  {
  }

  lemma ClosedWithoutRemote(s: State, id: Id)
    requires id in s.sockets && CanClose(s, id) && Closable(s, id) && !HasRemote(s, id)
    ensures AllTabled(s) && Counted(s) && Closed(s, id) == Removed(s, id)
  {
    hide Inv;
    match s.sockets[id]
    case ConnE(r) => assert SetConn(s, r, s.conns[r].conn.(rid := 0)) == s;
    case ParentE(h) => assert SetRid(s, h) == s;
    case OtherE(_) =>
  }

  lemma ClosedWithRemote(s: State, id: Id)
    requires id in s.sockets && CanClose(s, id) && HasRemote(s, id)
    ensures id !in Closed(s, id).sockets
  {
    hide Inv;
    match s.sockets[id]
    case ConnE(r) => RemovedIsGone(SetConn(s, r, s.conns[r].conn.(rid := 0)), id);
    case ParentE(h) => RemovedIsGone(SetRid(s, h), id);
    case OtherE(_) => RemovedIsGone(s, id);
  }

  // Whichever of the two removals is the effective one, the result is the same.
  lemma ClosedIsGone(s: State, id: Id)
    requires Inv(s) && id in s.sockets && CanClose(s, id) && Closable(s, id) && Settled(Closed(s, id))
    requires KidsFree(s, id)
    ensures var t := if HasRemote(s, id) then Closed(s, id) else s;
            Inv(t) && AllTabled(t) && Counted(t) && KidsFree(t, id) && Removed(t, id) == Closed(s, id)
  {
    hide *;
    if HasRemote(s, id) {
      ClosedWithRemote(s, id);
      NothingToRemove(Closed(s, id), id);
    } else {
      ClosedWithoutRemote(s, id);
    }
  }

  class FwdPeer {
    var sockets: map<Id, Entry>
    var conns: map<Ref, Slot>
    var parents: map<Ref, Parent>
    var handlers: seq<Ref>
    ghost var held: multiset<Ref>
    var signals: multiset<Id>
    var closes: multiset<(Ref, Id)>
    var parentCloses: multiset<(Ref, Id)>

    ghost function View(): State
      reads this
    {
      State(sockets, conns, parents, handlers, held, signals, closes, parentCloses)
    }

    constructor ()
      ensures Settled(View()) && sockets == map[] && parents == map[]
    {
      sockets, conns, parents, handlers, held := map[], map[], map[], [], multiset{};
      signals, closes, parentCloses := multiset{}, multiset{}, multiset{};
    }

    method UnrefConn(r: Ref)
      requires Inv(View()) && r in held && r in conns
      modifies this`conns, this`held
      ensures old(conns[r].refs) > 0 && View() == Unref(old(View()), r) && Inv(View())
    {
      UnrefInv(View(), r);
      hide Inv;
      var slot := conns[r];
      conns := if slot.refs == 1 then conns - {r} else conns[r := slot.(refs := slot.refs - 1)];
      held := held - multiset{r};
    }

    // The destroy callback of the socket table: dispose, then drop the reference.
    method DisposeConnCb(r: Ref)
      requires Inv(View()) && r in held && r in conns
      modifies this`conns, this`held, this`closes
      ensures var d := DisposedConn(old(View()), r);
              d.conns[r].refs > 0 && View() == Unref(d, r) && Inv(View())
    {
      hide Inv;
      var c := conns[r].conn;
      SetConnInv(View(), r, Connection.Dispose(c).conn);
      ghost var d := DisposedConn(View(), r);
      assert Inv(d) by { LogsDontMatter(SetConn(View(), r, Connection.Dispose(c).conn), d); }
      if c.rid != 0 {
        closes := closes + multiset{(r, c.rid)};
      }
      conns := conns[r := conns[r].(conn := Connection.Dispose(c).conn)];
      UnrefConn(r);
    }
  
    // fwd_entry_remove, and the same two steps in fwd_peer_remove_forwarder.
    method EntryRemove(id: Id)
      requires Inv(View()) && KidsFree(View(), id)
      modifies this
      ensures Inv(View()) && View() == Removed(old(View()), id)
      ensures sockets.Keys <= old(sockets.Keys)
      decreases sockets.Keys, 2
    {
      if id !in sockets {
        return;
      }
      ghost var s := View();
      var e := sockets[id];
      OutInv(s, id);
      ReadyToDispose(s, id);
      hide Inv;
      sockets := sockets - {id};
      held := if e.ConnE? then held + multiset{e.conn} else held;
      assert View() == Out(s, id);
      match e {
        case ConnE(r) =>
          DisposeConnCb(r);
        case ParentE(h) =>
          ParentDispose(h);
        case OtherE(_) =>
      }
      ghost var d := View();
      signals := signals + multiset{id};
      LogsDontMatter(d, View());
      RemovalChain(s, id, View());
      EmitRemoved(id);
    }

    // The "removed" signal runs the handlers of all connected parents.
    method EmitRemoved(id: Id)
      requires Inv(View()) && id !in sockets
      modifies this
      ensures Inv(View()) && View() == Emitted(old(View()), id)
      ensures sockets.Keys <= old(sockets.Keys)
      decreases sockets.Keys, 5
    {
      ghost var s := View();
      var hs := handlers;
      var i := 0;
      assert EmitProgress(s, s, id, 0);
      while i < |hs|
        invariant 0 <= i <= |hs| == |s.handlers| && hs == s.handlers
        invariant Inv(View()) && EmitProgress(s, View(), id, i)
        invariant sockets.Keys <= s.sockets.Keys
      {
        hide Inv;
        ghost var v := View();
        HandlerRemoved(hs[i], id);
        EmitStep(s, v, id, i);
        i := i + 1;
      }
    }

    // entry_removed of a listener or of a local forwarder.
    method HandlerRemoved(h: Ref, id: Id)
      requires Inv(View()) && h in parents && id !in sockets
      modifies this
      ensures Inv(View()) && View() == Heard(old(View()), h, id)
      ensures sockets.Keys <= old(sockets.Keys)
      decreases sockets.Keys, 4
    {
      ghost var s := View();
      if id in parents[h].idMap {
        HeardHit(s, h, id);
        var r := parents[h].idMap[id];
        hide Inv, Heard, Detached, RefsExact;
        ForgetConn(h, r);
        ConnectionRemove(r);
      } else {
        HeardMiss(s, h, id);
      }
    }

    // g_hash_table_remove on id_map and then on addr_map, up to its destroy callback.
    method ForgetConn(h: Ref, r: Ref)
      requires h in parents && r in conns && conns[r].parent == h
      modifies this`parents, this`held
      ensures View() == UnlinkHeld(old(View()), r)
    {
      var c, p := conns[r].conn, parents[h];
      parents := parents[h := p.(idMap := p.idMap - {c.id})];
      parents := parents[h := parents[h].(addrMap := p.addrMap - {c.addr})];
      held := held + multiset{r};
      assert parents == Unlink(old(View()), r);
    }

    // The destroy callback of addr_map.
    method ConnectionRemove(r: Ref)
      requires Inv(View()) && r in held && r in conns && !Linked(View(), r)
      modifies this
      ensures RefsExact(old(View()), r)
      ensures Inv(View()) && View() == Detached(old(View()), r)
      ensures sockets.Keys <= old(sockets.Keys)
      decreases sockets.Keys, 3, 0
    {
      ghost var s := View();
      DetachChain(s, r);
      assert conns[r].conn.id in sockets ==> InSockets(s, r);
      hide Inv;
      conns := conns[r := conns[r].(conn := conns[r].conn.(io := false))];
      EntryRemove(conns[r].conn.id);
      UnrefConn(r);
    }

    // The dispose callback of a parent, and the last reference to it.
    method ParentDispose(h: Ref)
      requires Inv(View()) && h in parents && ParentE(h) !in sockets.Values
      requires forall r :: r in Children(View(), h) ==> r !in held
      modifies this
      ensures Inv(View()) && View() == ParentGone(old(View()), h)
      ensures sockets.Keys <= old(sockets.Keys)
      decreases sockets.Keys, 5
    {
      ghost var s := View();
      var p := parents[h];
      if p.kind == Local {
        HandlersDropped(s, h);
        handlers := Drop(handlers, h);
      }
      hide Inv, KidsGone, Emptied, Children;
      assert Children(View(), h) == Children(s, h) by { ChildrenSame(s, View(), h); }
      MapsRemoveAll(h);
      assert View() == MapsGone(s, h);
      ParentFree(h, p, s);
    }

    method ParentFree(h: Ref, p: Parent, ghost s: State)
      requires Inv(View()) && h in s.parents && p == s.parents[h] && ParentE(h) !in s.sockets.Values
      requires View() == MapsGone(s, h)
      modifies this`parents, this`handlers, this`parentCloses
      ensures Inv(View()) && View() == ParentGone(s, h)
    {
      hide Inv, MapsGone, ParentGone;
      ParentChainInv(s, h);
      ParentChain(s, h);
      MapsGoneKeeps(s, h);
      if p.kind == Listen {
        if p.rid != 0 {
          parentCloses := parentCloses + multiset{(h, p.rid)};
        }
        handlers := Drop(handlers, h);
      }
      parents := parents - {h};
      assert View() == LastOfParent(s, h, MapsGone(s, h));
    }

    // g_hash_table_remove_all on both maps: they are emptied before any callback runs.
    method MapsRemoveAll(h: Ref)
      requires Inv(View()) && h in parents
      requires forall r :: r in Children(View(), h) ==> r !in held
      modifies this
      ensures Inv(View()) && View() == KidsGone(Emptied(old(View()), h), Children(old(View()), h))
      ensures sockets.Keys <= old(sockets.Keys)
      decreases sockets.Keys, 4
    {
      ghost var s := View();
      EmptiedInv(s, h);
      EmptiedKids(s, h);
      var kids := parents[h].addrMap.Values;
      parents := parents[h := parents[h].(addrMap := map[], idMap := map[])];
      held := held + multiset(kids);
      assert View() == Emptied(s, h);
      hide Inv, KidsGone;
      DropKids(kids);
    }

    method DropKids(kids: set<Ref>)
      requires Inv(View()) && AllTabled(View())
      requires forall r :: r in kids ==>
                 r in conns && held[r] == 1 && !Linked(View(), r) && RefsExact(View(), r)
      modifies this
      ensures Inv(View()) && View() == KidsGone(old(View()), kids)
      ensures sockets.Keys <= old(sockets.Keys)
      decreases sockets.Keys, 3, 1
    {
      hide Inv, KidsGone, Detached, RefsExact, AllTabled, Linked;
      ghost var s := View();
      var rest, done := kids, {};
      NoKidsYet(s);
      while rest != {}
        invariant Inv(View()) && View() == KidsGone(s, done)
        invariant done !! rest && done + rest == kids
        invariant sockets.Keys <= s.sockets.Keys
        decreases rest
      {
        var r :| r in rest;
        OneMoreKid(s, done, r);
        ConnectionRemove(r);
        rest, done := rest - {r}, done + {r};
      }
      assert done == kids;
    }
  
    // ---------- Top-level events ----------

    method Share(h: Ref, r: Ref, c: Connection.Conn)
      requires h in parents
      modifies this`conns, this`parents, this`held
      ensures View() == Shared(old(View()), h, r, c)
    {
      conns := conns[r := Slot(c, h, 2)];
      var p := parents[h];
      parents := parents[h := p.(addrMap := p.addrMap[c.addr := r])];
      parents := parents[h := parents[h].(idMap := p.idMap[c.id := r])];
      held := held + multiset{r};
      assert parents == Shared(old(View()), h, r, c).parents;
    }

    method Enter(r: Ref, id: Id)
      modifies this`sockets, this`held
      ensures View() == Entered(old(View()), r, id)
    {
      sockets := sockets[id := ConnE(r)];
      held := held - multiset{r};
    }

    // A listener puts the new connection into its maps, evicts the oldest one if they
    // have outgrown the limit, and only then hands the new one to the socket table.
    // If the oldest one is the new one, the socket table does not know it and the
    // removal does nothing.
    method ListenConnectionNew(h: Ref, r: Ref, c: Connection.Conn, victim: Option<Id>)
      requires Settled(View())
      requires victim == Some(c.id) || Enabled(View(), AddConn(h, r, c, victim))
      requires victim == Some(c.id) ==> Enabled(View(), AddConn(h, r, c, None))
      modifies this
      ensures Settled(View())
      ensures View() == Step(old(View()), AddConn(h, r, c, if victim == Some(c.id) then None else victim))
    {
      ghost var s := View();
      ListenEviction(s, h, r, c, victim);
      SettledStep(s, AddConn(h, r, c, if victim == Some(c.id) then None else victim));
      hide *;
      Share(h, r, c);
      if victim.Some? {
        EntryRemove(victim.value);
      }
      Enter(r, c.id);
    }

    // A local forwarder evicts before it inserts.
    method LocalConnectionNew(h: Ref, r: Ref, c: Connection.Conn, victim: Option<Id>)
      requires Settled(View()) && Enabled(View(), AddConn(h, r, c, victim))
      modifies this
      ensures Settled(View()) && View() == Step(old(View()), AddConn(h, r, c, victim))
    {
      ghost var s := View();
      LocalEviction(s, h, r, c, victim);
      SettledStep(s, AddConn(h, r, c, victim));
      hide *;
      if victim.Some? {
        EntryRemove(victim.value);
      }
      Share(h, r, c);
      Enter(r, c.id);
    }

    // A CLOSE request: the close callback of the entry, then removal by id unless
    // the callback has seen to it.
    method HandleClose(id: Id)
      requires Settled(View())
      modifies this
      ensures Settled(View()) && View() == Closed(old(View()), id)
    {
      ghost var s := View();
      if id in sockets {
        CloseFacts(s, id);
        SettledClosed(s, id);
        var closable := CloseCallback(id);
        if closable {
          ClosedIsGone(s, id);
          hide *;
          EntryRemove(id);
        }
      }
    }

    // The close callback of an entry, if its kind has one.
    method CloseCallback(id: Id) returns (closable: bool)
      requires CanClose(View(), id) && Inv(View()) && AllTabled(View()) && Counted(View())
      modifies this
      ensures closable == Closable(old(View()), id)
      ensures Inv(View())
      ensures View() == if HasRemote(old(View()), id) then Closed(old(View()), id) else old(View())
    {
      ghost var s := View();
      closable := true;
      match sockets[id] {
        case ConnE(r) =>
          if conns[r].conn.rid != 0 {
            ForgetRemote(r);
            hide *;
            EntryRemove(id);
          }
        case ParentE(h) =>
          if parents[h].kind == Local {
            closable := false;
          } else if parents[h].rid != 0 {
            ForgetRemoteOfParent(h);
            hide *;
            EntryRemove(id);
          }
        case OtherE(c) =>
          closable := c;
          if c {
            hide *;
            EntryRemove(id);
          }
      }
    }

    method ForgetRemoteOfParent(h: Ref)
      requires h in parents
      modifies this`parents
      ensures View() == SetRid(old(View()), h)
    {
      parents := parents[h := parents[h].(rid := 0)];
    }

    // The inactivity check: a temporary reference to every expired connection, then
    // all removals, then the references are dropped.
    method Expire(expired: seq<Ref>)
      requires Sweepable(View(), expired)
      modifies this
      ensures Settled(View())
      ensures View() == RemovedAll(old(View()), IdsOf(old(View()), expired))
    {
      ghost var s := View();
      GrabEnds(s, expired);
      DropEnds(s, expired);
      SettledParts(s);
      hide *;
      GrabAll(expired, s);
      RemoveAllGrabbed(expired, s);
      DropAll(expired, s);
    }

    method GrabAll(expired: seq<Ref>, ghost s: State)
      requires Sweepable(s, expired) && Inv(View()) && View() == Grabbed(s, expired, 0)
      modifies this
      ensures Inv(View()) && View() == Grabbed(s, expired, |expired|)
    {
      hide Inv, Settled, Sweepable, Grabbed, Swept, Dropped, Grab;
      var i := 0;
      while i < |expired|
        invariant 0 <= i <= |expired|
        invariant Inv(View()) && View() == Grabbed(s, expired, i)
      {
        ghost var v := View();
        GrabStep(s, expired, i);
        GrabInv(v, expired[i]);
        TakeRef(expired[i]);
        i := i + 1;
      }
    }

    method RemoveAllGrabbed(expired: seq<Ref>, ghost s: State)
      requires Sweepable(s, expired) && Inv(View()) && View() == Swept(s, expired, 0)
      modifies this
      ensures Inv(View()) && View() == Swept(s, expired, |expired|)
    {
      hide Inv, Settled, Sweepable, Grabbed, Swept, Dropped, ConnRemoved, Unref, RefsExact, Tabled;
      var i := 0;
      while i < |expired|
        invariant 0 <= i <= |expired|
        invariant Inv(View()) && View() == Swept(s, expired, i)
      {
        SweepStep(s, expired, i);
        RemoveOne(expired[i]);
        i := i + 1;
      }
    }

    method DropAll(expired: seq<Ref>, ghost s: State)
      requires Sweepable(s, expired) && Inv(View()) && View() == Dropped(s, expired, 0)
      modifies this
      ensures Inv(View()) && View() == Dropped(s, expired, |expired|)
    {
      hide Inv, Settled, Sweepable, Grabbed, Swept, Dropped, ConnRemoved, Unref, RefsExact, Tabled;
      var i := 0;
      while i < |expired|
        invariant 0 <= i <= |expired|
        invariant Inv(View()) && View() == Dropped(s, expired, i)
      {
        DropStep(s, expired, i);
        UnrefConn(expired[i]);
        i := i + 1;
      }
    }

    method TakeRef(r: Ref)
      requires r in conns
      modifies this`conns, this`held
      ensures View() == Grab(old(View()), r)
    {
      conns := conns[r := conns[r].(refs := conns[r].refs + 1)];
      held := held + multiset{r};
    }

    method RemoveOne(r: Ref)
      requires Inv(View()) && r in conns && conns[r].conn.id in sockets && sockets[conns[r].conn.id] == ConnE(r)
      modifies this
      ensures Tabled(old(View()), old(conns[r].conn.id)) && RefsExact(old(View()), r)
      ensures Inv(View()) && View() == ConnRemoved(old(View()), old(conns[r].conn.id))
    {
      ghost var s := View();
      var id := conns[r].conn.id;
      assert Tabled(s, id) && RefsExact(s, r);
      hide Inv;
      EntryRemove(id);
    }

    method ForgetRemote(r: Ref)
      requires r in conns
      modifies this`conns
      ensures View() == SetConn(old(View()), r, old(conns[r].conn).(rid := 0))
    {
      conns := conns[r := conns[r].(conn := conns[r].conn.(rid := 0))];
    }
  }
}

/** The re-entrant removal chain, callback by callback, and what it adds up to. */
module TableChain {
  import opened Base
  import opened Table
  import opened TableSteps
  import Connection

  // ---------- The re-entrant chain, step by step ----------

  function DisposedConn(s: State, r: Ref): State
    requires r in s.conns
  {
    var c := s.conns[r].conn;
    SetConn(s, r, Connection.Dispose(c).conn).(closes := s.closes + CloseOf(r, c.rid))
  }

  /** A connection that neither map of its parent knows any more is stopped, removed
      and let go; the reference in hand is the one that addr_map had. */
  function Detached(s: State, r: Ref): State
    requires r in s.conns && RefsExact(s, r) && r in s.held
  {
    var c := s.conns[r].conn;
    if InSockets(s, r) then
      s.(sockets := s.sockets - {c.id},
         conns := Release(s.conns, r, Connection.Dispose(c).conn, 2),
         held := s.held - multiset{r},
         signals := s.signals + multiset{c.id},
         closes := s.closes + CloseOf(r, c.rid))
    else
      s.(conns := Release(s.conns, r, c.(io := false), 1), held := s.held - multiset{r})
  }

  // The logs are no part of the invariant.
  lemma LogsDontMatter(s: State, t: State)
    requires Inv(s)
    requires t == s.(signals := t.signals, closes := t.closes, parentCloses := t.parentCloses)
    ensures Inv(t)
  {
    forall i | i in t.sockets
      ensures Tabled(t, i)
    {
      assert Tabled(s, i);
    }
    FrameAllMirror(s, t);
    FrameCounted(s, t, {});
  }

  predicate Knows(s: State, h: Ref, id: Id)
    requires h in s.parents
  {
    id in s.parents[h].idMap
  }

  lemma KnowsIsLinked(s: State, h: Ref, id: Id)
    requires AllMirror(s) && h in s.parents && Knows(s, h, id)
    ensures var r := s.parents[h].idMap[id];
            r in s.conns && s.conns[r].conn.id == id && s.conns[r].parent == h && Linked(s, r)
  {
    assert Mirror(s, h) && IdEntry(s, h, id);
  }

  lemma LinkedIsKnown(s: State, r: Ref)
    requires AllMirror(s) && r in s.conns && Linked(s, r)
    ensures var p := s.parents[s.conns[r].parent];
            s.conns[r].conn.id in p.idMap && p.idMap[s.conns[r].conn.id] == r
  {
    assert Mirror(s, s.conns[r].parent) && AddrEntry(s, s.conns[r].parent, s.conns[r].conn.addr);
  }

  /** What the signal handler of parent h does. */
  function Heard(s: State, h: Ref, id: Id): State
    requires Inv(s) && h in s.parents
  {
    if Knows(s, h, id) then
      KnowsIsLinked(s, h, id);
      var r := s.parents[h].idMap[id];
      UnlinkInv(s, r);
      assert RefsExact(UnlinkHeld(s, r), r);
      Detached(UnlinkHeld(s, r), r)
    else s
  }

  lemma KnowersUnique(s: State, g: Ref, h: Ref, id: Id)
    requires AllMirror(s) && IdsUnique(s) && g in s.parents && h in s.parents
    requires Knows(s, g, id) && Knows(s, h, id)
    ensures g == h
  {
    KnowsIsLinked(s, g, id);
    KnowsIsLinked(s, h, id);
  }

  lemma HeardIsForgotten(s: State, h: Ref, id: Id, g: Ref)
    requires Inv(s) && h in s.parents && Knows(s, h, id) && g in s.parents
    ensures g in Heard(s, h, id).parents && !Knows(Heard(s, h, id), g, id)
  {
    KnowsIsLinked(s, h, id);
    if Knows(s, g, id) {
      KnowersUnique(s, g, h, id);
    }
    HeardParents(s, h, id);
    hide Inv, Heard, AllMirror, Counted, AllTabled, IdsUnique, NoneDangling;
  }

  lemma HeardParents(s: State, h: Ref, id: Id)
    requires Inv(s) && h in s.parents && Knows(s, h, id)
    ensures var r := s.parents[h].idMap[id];
            && r in s.conns && s.conns[r].conn.id == id && s.conns[r].parent == h
            && Heard(s, h, id).parents == Unlink(s, r)
  {
    KnowsIsLinked(s, h, id);
    UnlinkInv(s, s.parents[h].idMap[id]);
    hide Inv, Unlink;
  }

  /** The net effect of the signal: the one parent that knows the connection, if it
      is still connected, lets go of it. */
  ghost function Emitted(s: State, id: Id): State
    requires Inv(s)
  {
    if exists h :: h in s.handlers && Knows(s, h, id) then
      var h :| h in s.handlers && Knows(s, h, id);
      Heard(s, h, id)
    else s
  }

  lemma EmittedIs(s: State, id: Id, h: Ref)
    requires Inv(s) && h in s.handlers && Knows(s, h, id)
    ensures Emitted(s, id) == Heard(s, h, id)
  {
    var g :| g in s.handlers && Knows(s, g, id) && Emitted(s, id) == Heard(s, g, id);
    KnowersUnique(s, g, h, id);
  }

  // Nobody knows an id that no live connection has.
  lemma EmittedNothing(s: State, id: Id)
    requires Inv(s) && forall r :: r in s.conns ==> s.conns[r].conn.id != id || !Known(s, r)
    ensures Emitted(s, id) == s
  {
    if h :| h in s.handlers && Knows(s, h, id) {
      KnowsIsLinked(s, h, id);
    }
  }

  // What the chain has done when it emits the signal of a connection.
  function Announced(s: State, id: Id): State
    requires id in s.sockets && s.sockets[id].ConnE? && Tabled(s, id) && RefsExact(s, s.sockets[id].conn)
  {
    var r := s.sockets[id].conn;
    Signalled(Unref(DisposedConn(Out(s, id), r), r), id)
  }

  // A connection that its parent knows has another reference when the signal is emitted.
  lemma KnownAnnounced(s: State, id: Id)
    requires id in s.sockets && s.sockets[id].ConnE? && Tabled(s, id)
    requires var r := s.sockets[id].conn; RefsExact(s, r) && Known(s, r)
    ensures var r, t := s.sockets[id].conn, Announced(s, id);
            var c := s.conns[r].conn;
            && s.conns[r].refs >= 2
            && t == s.(sockets := s.sockets - {id},
                       conns := s.conns[r := Slot(Connection.Dispose(c).conn, s.conns[r].parent, s.conns[r].refs - 1)],
                       signals := s.signals + multiset{id}, closes := s.closes + CloseOf(r, c.rid))
  {
    var r, t := s.sockets[id].conn, Announced(s, id);
    hide Connection.Dispose, CloseOf;
    assert s.held + multiset{r} - multiset{r} == s.held;
    assert t.conns == s.conns[r := Slot(Connection.Dispose(s.conns[r].conn).conn, s.conns[r].parent,
                                        s.conns[r].refs - 1)];
  }

  // Giving back one reference twice, the connection being disposed of, is giving back two.
  lemma ReleasedTwice(conns: map<Ref, Slot>, r: Ref, d: Connection.Conn)
    requires r in conns && conns[r].refs >= 2
    ensures Release(conns[r := Slot(d, conns[r].parent, conns[r].refs - 1)], r, d, 1) == Release(conns, r, d, 2)
  {
  }

  lemma KnownRefs(s: State, t: State, id: Id, r: Ref)
    requires id in s.sockets && s.sockets[id] == ConnE(r) && r in s.conns && s.conns[r].conn.id == id
    requires RefsExact(s, r) && Known(s, r) && s.conns[r].refs >= 2
    requires t.sockets == s.sockets - {id} && t.parents == s.parents && t.handlers == s.handlers && t.held == s.held
    requires r in t.conns && t.conns[r].conn.id == id && t.conns[r].conn.addr == s.conns[r].conn.addr
    requires t.conns[r].parent == s.conns[r].parent && t.conns[r].refs == s.conns[r].refs - 1
    ensures Known(t, r) && var u := UnlinkHeld(t, r); r in u.held && RefsExact(u, r) && !InSockets(u, r)
    ensures Unlink(t, r) == Unlink(s, r)
  {
  }

  lemma KnownChain(s: State, id: Id)
    requires id in s.sockets && s.sockets[id].ConnE? && Tabled(s, id)
    requires var r := s.sockets[id].conn; RefsExact(s, r) && Known(s, r)
    ensures var r, t := s.sockets[id].conn, Announced(s, id);
            && r in t.conns && Known(t, r)
            && var u := UnlinkHeld(t, r);
            && r in u.held && RefsExact(u, r) && Detached(u, r) == ConnRemoved(s, id)
  {
    var r, t := s.sockets[id].conn, Announced(s, id);
    var d := Connection.Dispose(s.conns[r].conn).conn;
    assert d.id == id && d.addr == s.conns[r].conn.addr && d.(io := false) == d;
    KnownAnnounced(s, id);
    hide Announced, Connection.Dispose, CloseOf, Release, Unlink, RefsExact, Known;
    KnownRefs(s, t, id, r);
    ReleasedTwice(s.conns, r, d);
    assert t.held + multiset{r} - multiset{r} == s.held;
  }

  lemma UnknownChain(s: State, id: Id)
    requires id in s.sockets && s.sockets[id].ConnE? && Tabled(s, id)
    requires var r := s.sockets[id].conn; RefsExact(s, r) && !Known(s, r)
    ensures Announced(s, id) == ConnRemoved(s, id)
  {
    assert Announced(s, id).held == s.held;
  }

  // What the chain computes for a connection is ConnRemoved.
  lemma ConnChain(s: State, id: Id)
    requires Inv(s) && id in s.sockets && s.sockets[id].ConnE? && Tabled(s, id)
    requires RefsExact(s, s.sockets[id].conn) && Inv(Announced(s, id))
    ensures Emitted(Announced(s, id), id) == ConnRemoved(s, id)
  {
    var r, t := s.sockets[id].conn, Announced(s, id);
    if Known(s, r) {
      KnownChain(s, id);
      LinkedIsKnown(t, r);
      EmittedIs(t, id, s.conns[r].parent);
    } else {
      UnknownChain(s, id);
      forall q | q in t.conns && t.conns[q].conn.id == id
        ensures !Known(t, q)
      {
        assert s.conns[q].conn.id == id;
      }
      EmittedNothing(t, id);
    }
  }

  // An entry that is no connection has an id that no connection has.
  lemma NotAConn(s: State, id: Id)
    requires IdsUnique(s) && id in s.sockets && !s.sockets[id].ConnE?
    ensures forall r :: r in s.conns ==> s.conns[r].conn.id != id
  {
  }

  // Stopping and removing a connection that no map knows, then dropping the reference.
  lemma DetachChain(s: State, r: Ref)
    requires Inv(s) && r in s.conns && r in s.held && !Linked(s, r)
    ensures RefsExact(s, r)
    ensures var c := s.conns[r].conn;
            var stopped := SetConn(s, r, c.(io := false));
            && Inv(stopped)
            && var t := Removed(stopped, c.id);
            && r in t.conns && t.conns[r].refs > 0 && r in t.held
            && Unref(t, r) == Detached(s, r)
  {
    assert RefsExact(s, r);
    var c := s.conns[r].conn;
    SetConnInv(s, r, c.(io := false));
    StoppedChain(s, r);
  }

  lemma StoppedConn(s: State, r: Ref)
    requires r in s.conns && RefsExact(s, r) && r in s.held && InSockets(s, r) && !Linked(s, r)
    ensures var c := s.conns[r].conn;
            var stopped := SetConn(s, r, c.(io := false));
            && Tabled(stopped, c.id) && RefsExact(stopped, r)
            && var t := ConnRemoved(stopped, c.id);
            && r in t.conns && t.conns[r].refs > 0 && r in t.held
            && Unref(t, r) == Detached(s, r)
  {
    var c := s.conns[r].conn;
    var t := ConnRemoved(SetConn(s, r, c.(io := false)), c.id);
    assert Unref(t, r).conns == Detached(s, r).conns;
  }

  lemma StoppedChain(s: State, r: Ref)
    requires r in s.conns && RefsExact(s, r) && r in s.held && !Linked(s, r)
    requires s.conns[r].conn.id in s.sockets ==> InSockets(s, r)
    requires AllTabled(SetConn(s, r, s.conns[r].conn.(io := false)))
    requires Counted(SetConn(s, r, s.conns[r].conn.(io := false)))
    ensures var t := Removed(SetConn(s, r, s.conns[r].conn.(io := false)), s.conns[r].conn.id);
            r in t.conns && t.conns[r].refs > 0 && r in t.held && Unref(t, r) == Detached(s, r)
  {
    hide AllTabled, Counted;
    if InSockets(s, r) {
      StoppedConn(s, r);
    }
  }

  // The state in which the "removed" signal of an entry is emitted.
  function BeforeSignal(s: State, id: Id): State
    requires id in s.sockets && Tabled(s, id)
    requires s.sockets[id].ConnE? ==> RefsExact(s, s.sockets[id].conn)
  {
    match s.sockets[id]
    case ConnE(_) => Announced(s, id)
    case ParentE(_) => ParentRemoved(s, id)
    case OtherE(_) => Signalled(Out(s, id), id)
  }

  lemma RemovalChain(s: State, id: Id, t: State)
    requires Inv(s) && id in s.sockets && Tabled(s, id)
    requires s.sockets[id].ConnE? ==> RefsExact(s, s.sockets[id].conn)
    requires t == BeforeSignal(s, id) && Inv(t)
    ensures AllTabled(s) && Counted(s) && Emitted(t, id) == Removed(s, id)
  {
    if s.sockets[id].ConnE? {
      ConnChain(s, id);
    } else {
      NotAConn(s, id);
      hide Inv;
      assert forall r :: r in t.conns ==> t.conns[r].conn.id != id;
      EmittedNothing(t, id);
    }
  }

  // What the destroy callback of the socket table may rely on.
  lemma ReadyToDispose(s: State, id: Id)
    requires Inv(s) && id in s.sockets && KidsFree(s, id)
    ensures Tabled(s, id) && (s.sockets[id].ConnE? ==> RefsExact(s, s.sockets[id].conn))
    ensures s.sockets[id].ParentE? ==>
              && ParentE(s.sockets[id].parent) !in Out(s, id).sockets.Values
              && forall r :: r in Children(Out(s, id), s.sockets[id].parent) ==> r !in Out(s, id).held
  {
    assert Tabled(s, id);
    if s.sockets[id].ParentE? {
      forall i | i in s.sockets && s.sockets[i] == s.sockets[id]
        ensures i == id
      {
        assert Tabled(s, i);
      }
    } else if s.sockets[id].ConnE? {
      assert RefsExact(s, s.sockets[id].conn);
    }
  }

  // No temporary reference is held on a connection of the parent with this id.
  predicate KidsFree(s: State, id: Id) {
    id in s.sockets && s.sockets[id].ParentE? && s.sockets[id].parent in s.parents ==>
      forall r :: r in Children(s, s.sockets[id].parent) ==> r !in s.held
  }

  lemma HandlersDropped(s: State, h: Ref)
    requires Inv(s)
    ensures Inv(s.(handlers := Drop(s.handlers, h)))
  {
    var t := s.(handlers := Drop(s.handlers, h));
    DropKeeps(s.handlers, h);
    FrameTabled(s, t);
    FrameAllMirror(s, t);
    FrameCounted(s, t, {});
    FrameIds(s, t);
  }

  function GoneIds(s: State, kids: set<Ref>): set<Id> {
    set i | i in s.sockets && IsKid(s.sockets[i], kids)
  }

  function KidCloses(s: State, kids: set<Ref>): set<(Ref, Id)> {
    set r | r in kids && r in s.conns && InSockets(s, r) && s.conns[r].conn.rid != 0
      :: (r, s.conns[r].conn.rid)
  }

  lemma OneMoreId(s: State, done: set<Ref>, r: Ref)
    requires AllTabled(s) && r in s.conns && r !in done
    ensures var id := s.conns[r].conn.id;
            && GoneIds(s, done + {r}) == GoneIds(s, done) + (if InSockets(s, r) then {id} else {})
            && (InSockets(s, r) ==> id !in GoneIds(s, done))
            && (forall i :: i in s.sockets && s.sockets[i] == ConnE(r) ==> i == id)
  {
    forall i | i in s.sockets && s.sockets[i] == ConnE(r)
      ensures i == s.conns[r].conn.id
    {
      assert Tabled(s, i);
    }
  }

  lemma OneMoreClose(s: State, done: set<Ref>, r: Ref)
    requires r in s.conns && r !in done
    ensures multiset(KidCloses(s, done + {r}))
            == multiset(KidCloses(s, done))
               + if InSockets(s, r) then CloseOf(r, s.conns[r].conn.rid) else multiset{}
  {
    var rid := s.conns[r].conn.rid;
    if InSockets(s, r) && rid != 0 {
      assert KidCloses(s, done + {r}) == KidCloses(s, done) + {(r, rid)};
    } else {
      assert KidCloses(s, done + {r}) == KidCloses(s, done);
    }
  }

  lemma StillThere(s: State, done: set<Ref>, r: Ref)
    requires r in s.conns && r !in done && s.held[r] == 1 && !Linked(s, r) && RefsExact(s, r)
    ensures var t := KidsGone(s, done);
            && r in t.conns && t.conns[r] == s.conns[r] && t.held[r] == 1 && !Linked(t, r)
            && InSockets(t, r) == InSockets(s, r) && RefsExact(t, r)
            && Detached(t, r).conns == t.conns - {r}
  {
  }

  lemma KidSockets(s: State, done: set<Ref>, r: Ref)
    requires AllTabled(s) && r in s.conns && r !in done
    ensures KidsGone(s, done + {r}).sockets
            == if InSockets(s, r) then KidsGone(s, done).sockets - {s.conns[r].conn.id}
               else KidsGone(s, done).sockets
  {
    OneMoreId(s, done, r);
    var id, m := s.conns[r].conn.id, KidsGone(s, done).sockets;
    var m' := KidsGone(s, done + {r}).sockets;
    assert m' == if InSockets(s, r) then m - {id} else m;
  }

  lemma HeldStep(m: multiset<Ref>, done: set<Ref>, r: Ref)
    requires r !in done
    ensures m - multiset(done) - multiset{r} == m - multiset(done + {r})
  {
  }

  /** One more connection of an emptied parent goes. */
  lemma OneMoreKid(s: State, done: set<Ref>, r: Ref)
    requires AllTabled(s) && r in s.conns && r !in done && s.held[r] == 1 && !Linked(s, r) && RefsExact(s, r)
    ensures var t := KidsGone(s, done);
            && r in t.conns && r in t.held && !Linked(t, r) && RefsExact(t, r)
            && Detached(t, r) == KidsGone(s, done + {r})
  {
    hide *;
    StillThere(s, done, r);
    OneMoreId(s, done, r);
    OneMoreClose(s, done, r);
    KidSockets(s, done, r);
    KidFields(s, done, r);
    KidStep(s, KidsGone(s, done), KidsGone(s, done + {r}), r);
  }

  lemma NoKidsYet(s: State)
    ensures KidsGone(s, {}) == s
  {
    assert KidsGone(s, {}).sockets == s.sockets;
    assert GoneIds(s, {}) == {} && KidCloses(s, {}) == {};
    assert s.signals + multiset(GoneIds(s, {})) == s.signals;
  }

  lemma KidFields(s: State, done: set<Ref>, r: Ref)
    requires r !in done
    ensures var t, u := KidsGone(s, done), KidsGone(s, done + {r});
            && u.conns == t.conns - {r} && u.held == t.held - multiset{r}
            && u.parents == t.parents && u.handlers == t.handlers && u.parentCloses == t.parentCloses
            && t.signals == s.signals + multiset(GoneIds(s, done))
            && u.signals == s.signals + multiset(GoneIds(s, done + {r}))
            && t.closes == s.closes + multiset(KidCloses(s, done))
            && u.closes == s.closes + multiset(KidCloses(s, done + {r}))
  {
    HeldStep(s.held, done, r);
  }

  // The fields of one step, once every set of the step is known.
  lemma KidStep(s: State, t: State, u: State, r: Ref)
    requires r in t.conns && r in t.held && RefsExact(t, r) && Detached(t, r).conns == t.conns - {r} == u.conns
    requires u.sockets == if InSockets(t, r) then t.sockets - {t.conns[r].conn.id} else t.sockets
    requires u.held == t.held - multiset{r}
    requires u.parents == t.parents && u.handlers == t.handlers && u.parentCloses == t.parentCloses
    requires u.signals == t.signals + if InSockets(t, r) then multiset{t.conns[r].conn.id} else multiset{}
    requires u.closes == t.closes + if InSockets(t, r) then CloseOf(r, t.conns[r].conn.rid) else multiset{}
    ensures Detached(t, r) == u
  {
  }

  /** The handlers before i have run: either none of them knew the id, or one did and
      nobody knows it any more. */
  ghost predicate EmitProgress(s: State, v: State, id: Id, i: nat)
    requires Inv(s)
  {
    && i <= |s.handlers| && v.handlers == s.handlers && v.parents.Keys == s.parents.Keys
    && v.sockets.Keys <= s.sockets.Keys && Inv(v)
    && (|| (v == s && forall j :: 0 <= j < i ==> !Knows(s, s.handlers[j], id))
        || (v == Emitted(s, id) && forall g :: g in v.parents ==> !Knows(v, g, id)))
  }

  lemma EmitHit(s: State, id: Id, h: Ref)
    requires Inv(s) && h in s.handlers && Knows(s, h, id)
    ensures h in s.parents && Heard(s, h, id) == Emitted(s, id)
    ensures forall g :: g in Heard(s, h, id).parents ==> !Knows(Heard(s, h, id), g, id)
    ensures Heard(s, h, id).handlers == s.handlers && Heard(s, h, id).parents.Keys == s.parents.Keys
    ensures Heard(s, h, id).sockets.Keys <= s.sockets.Keys
  {
    EmittedIs(s, id, h);
    forall g | g in Heard(s, h, id).parents
      ensures !Knows(Heard(s, h, id), g, id)
    {
      HeardIsForgotten(s, h, id, g);
    }
  }

  lemma EmitStep(s: State, v: State, id: Id, i: nat)
    requires Inv(s) && i < |s.handlers| && s.handlers[i] in v.parents
    requires EmitProgress(s, v, id, i) && Inv(Heard(v, s.handlers[i], id))
    ensures EmitProgress(s, Heard(v, s.handlers[i], id), id, i + 1)
  {
    hide Inv, Emitted, Heard;
    var h := s.handlers[i];
    if Knows(v, h, id) {
      EmitHit(s, id, h);
    } else {
      HeardMiss(v, h, id);
    }
  }

  lemma HeardHit(s: State, h: Ref, id: Id)
    requires Inv(s) && h in s.parents && Knows(s, h, id)
    ensures var r := s.parents[h].idMap[id];
            && r in s.conns && s.conns[r].parent == h && s.conns[r].conn.id == id
            && var u := UnlinkHeld(s, r);
            && Inv(u) && RefsExact(u, r) && !Linked(u, r) && r in u.held
            && Heard(s, h, id) == Detached(u, r)
  {
    KnowsIsLinked(s, h, id);
    UnlinkInv(s, s.parents[h].idMap[id]);
  }

  lemma HeardMiss(s: State, h: Ref, id: Id)
    requires Inv(s) && h in s.parents && !Knows(s, h, id)
    ensures Heard(s, h, id) == s
  {
  }

  // Every connection of an emptied parent has exactly one reference in hand.
  lemma EmptiedKids(s: State, h: Ref)
    requires Inv(s) && h in s.parents && forall r :: r in Children(s, h) ==> r !in s.held
    ensures var e := Emptied(s, h);
            && AllTabled(e)
            && forall r :: r in Children(s, h) ==>
                 r in e.conns && e.held[r] == 1 && !Linked(e, r) && RefsExact(e, r)
  {
    EmptiedInv(s, h);
    var e := Emptied(s, h);
    forall r | r in Children(s, h)
      ensures r in e.conns && e.held[r] == 1 && !Linked(e, r) && RefsExact(e, r)
    {
      KidsAreLinked(s, h, r);
      assert RefsExact(e, r);
    }
  }

  lemma {:induction false} DropAbsent(q: seq<Ref>, x: Ref)
    requires x !in q
    ensures Drop(q, x) == q
  {
    if q != [] {
      DropAbsent(q[1..], x);
      assert q == [q[0]] + q[1..];
    }
  }

  // A local forwarder disconnects its handler before its maps, a listener after them.
  function MapsGone(s: State, h: Ref): State
    requires h in s.parents
  {
    var hs := if s.parents[h].kind == Local then Drop(s.handlers, h) else s.handlers;
    KidsGone(Emptied(s.(handlers := hs), h), Children(s, h))
  }

  function LastOfParent(s: State, h: Ref, k: State): State
    requires h in s.parents
  {
    k.(parents := k.parents - {h}, handlers := Drop(s.handlers, h),
       parentCloses := s.parentCloses + ParentClose(s.parents[h], h))
  }

  lemma MapsGoneKeeps(s: State, h: Ref)
    requires h in s.parents
    ensures MapsGone(s, h).parentCloses == s.parentCloses
    ensures MapsGone(s, h).handlers == if s.parents[h].kind == Local then Drop(s.handlers, h) else s.handlers
  {
  }

  lemma ChildrenSame(s: State, t: State, h: Ref)
    requires h in s.parents && t.parents == s.parents
    ensures Children(t, h) == Children(s, h)
  {
  }

  lemma ParentChainInv(s: State, h: Ref)
    requires h in s.parents && ParentE(h) !in s.sockets.Values && Inv(MapsGone(s, h))
    ensures Inv(LastOfParent(s, h, MapsGone(s, h)))
  {
    var k := MapsGone(s, h);
    DropKeeps(s.handlers, h);
    DropAbsent(Drop(s.handlers, h), h);
    assert ParentE(h) !in k.sockets.Values;
    FreeParentInv(k, h);
    LogsDontMatter(FreeParent(k, h), LastOfParent(s, h, k));
  }

  lemma ParentChain(s: State, h: Ref)
    requires h in s.parents
    ensures LastOfParent(s, h, MapsGone(s, h)) == ParentGone(s, h)
  {
    DropTwice(s.handlers, h);
    KidsGoneFrame(Emptied(s, h), Drop(s.handlers, h), Children(s, h));
    hide KidsGone, Drop, ParentClose, Children;
  }

  lemma KidsGoneFrame(s: State, hs: seq<Ref>, kids: set<Ref>)
    ensures var k := KidsGone(s, kids);
            && KidsGone(s.(handlers := hs), kids) == k.(handlers := hs)
            && k.parents == s.parents && k.handlers == s.handlers && k.parentCloses == s.parentCloses
  {
  }

  lemma DropTwice(q: seq<Ref>, h: Ref)
    ensures Drop(Drop(q, h), h) == Drop(q, h)
  {
    DropKeeps(q, h);
    DropAbsent(Drop(q, h), h);
  }
}

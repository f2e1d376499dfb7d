/** Who can send a CLOSE, and that an entry which an incoming CLOSE has removed never
    does, for the rest of the run. */
module LinkSilence {
  import opened Base
  import opened Link
  import opened LinkKinds
  import opened LinkOnce
  import Connection

  /** Connection cid has gone without closing any socket that was made for it. */
  predicate SilentEast(w: World, cid: Id) {
    && cid in w.connAddr && cid !in w.conns
    && forall sid :: sid in w.madeFor && w.madeFor[sid] == cid ==> w.closesEast[sid] == 0
  }

  /** The socket made for connection cid has gone without closing it, and there will be
      no other. */
  predicate SilentWest(w: World, cid: Id) {
    cid in w.claimed && w.closesWest[cid] == 0 && NoSocket(w, cid)
  }

  predicate NoSocket(w: World, cid: Id) {
    forall s :: s in w.sockets ==> w.sockets[s].rid != cid
  }

  // What can be said of every step about the ids that a CLOSE may name.
  ghost predicate Shape(w: World, u: World) {
    && (forall sid :: sid in w.madeFor ==> sid in u.madeFor && u.madeFor[sid] == w.madeFor[sid])
    && w.claimed <= u.claimed && w.connAddr.Keys <= u.connAddr.Keys
    && (forall cid :: cid in w.connAddr && cid in u.conns ==> cid in w.conns)
    && (forall sid :: u.closesEast[sid] > w.closesEast[sid] ==> sid in w.madeFor && w.madeFor[sid] in w.conns)
    && (forall cid :: cid in w.claimed && NoSocket(w, cid) ==> NoSocket(u, cid) && u.closesWest[cid] <= w.closesWest[cid])
  }

  // Nothing of this changes.
  lemma SameShape(w: World, u: World)
    requires u.madeFor == w.madeFor && u.claimed == w.claimed && u.connAddr == w.connAddr
    requires u.conns.Keys <= w.conns.Keys && u.closesEast == w.closesEast && u.closesWest == w.closesWest
    requires forall s :: s in u.sockets ==> s in w.sockets && u.sockets[s].rid == w.sockets[s].rid
    ensures Shape(w, u)
  {
  }

  // One CLOSE, of the socket made for a connection that is still there.
  lemma ClosingShape(w: World, u: World, rid: Id)
    requires u.madeFor == w.madeFor && u.claimed == w.claimed && u.connAddr == w.connAddr && u.sockets == w.sockets
    requires u.conns.Keys <= w.conns.Keys && u.closesEast == w.closesEast + multiset{rid}
    requires u.closesWest == w.closesWest && rid in w.madeFor && w.madeFor[rid] in w.conns
    ensures Shape(w, u)
  {
  }

  lemma DroppedShape(w: World, u: World, cid: Id, c: Connection.Conn)
    requires cid in w.conns && cid in u.conns && u.conns[cid] == c && (c.rid != 0 ==> Made(w.madeFor, c.rid, cid))
    requires u == w.(conns := u.conns, east := u.east) && u.conns.Keys == w.conns.Keys
    ensures Shape(w, Dropped(u, cid))
  {
    var v := Dropped(u, cid);
    DisposeShape(c);
    if c.rid != 0 {
      OneClose(c.rid);
      hide Connection.Dispose, Closes, Shape, Wire;
      ClosingShape(w, v, c.rid);
    } else {
      NoCloses([]);
      assert u.closesEast + multiset{} == u.closesEast;
      hide Connection.Dispose, Closes, Shape, Wire;
      SameShape(w, v);
    }
  }

  lemma HappensShape(w: World, cid: Id, e: Connection.Event)
    requires Kinds(w) && (cid in w.conns ==> Fits(w, cid, e))
    ensures Shape(w, Happens(w, cid, e))
  {
    if cid in w.conns {
      var c, o := w.conns[cid], Connection.Apply(w.conns[cid], e);
      assert ConnOk(w.connAddr, w.madeFor, cid, c);
      ApplyShape(c, e);
      EffectsConn(w, cid, e);
      NoCloses(o.calls);
      assert w.closesEast + multiset{} == w.closesEast;
      var u := w.(conns := w.conns[cid := o.conn], east := w.east + Wire(cid, o.calls));
      hide Connection.Apply, Closes, Dropped, Shape, Kinds, Wire, Fits, Steady;
      if o.remove {
        DroppedShape(w, u, cid, o.conn);
      } else {
        SameShape(w, u);
      }
    } else {
      SameShape(w, w);
    }
  }

  lemma SocketGoneShape(w: World, sid: Id)
    requires sid in w.sockets
    ensures Shape(w, SocketGone(w, sid))
  {
  }

  lemma SocketMadeShape(w: World, u: World, sid: Id, cid: Id, to: Option<Addr>)
    requires sid !in w.madeFor && cid !in w.claimed
    requires u.madeFor == w.madeFor[sid := cid] && u.claimed == w.claimed + {cid} && u.connAddr == w.connAddr
    requires u.sockets == w.sockets[sid := Socket(cid, to)] && u.conns == w.conns
    requires u.closesEast == w.closesEast && u.closesWest == w.closesWest
    ensures Shape(w, u)
  {
  }

  lemma RefusedShape(w: World, u: World, cid: Id)
    requires cid !in w.claimed
    requires u.madeFor == w.madeFor && u.claimed == w.claimed + {cid} && u.connAddr == w.connAddr
    requires u.sockets == w.sockets && u.conns == w.conns && u.closesEast == w.closesEast
    requires u.closesWest == w.closesWest || u.closesWest == w.closesWest + multiset{cid}
    ensures Shape(w, u)
  {
  }

  lemma SocketShape(w: World, cid: Id, sid: Id, to: Addr, ok: bool)
    requires sid !in w.madeFor && cid !in w.claimed
    ensures Shape(w, HandleEast(w, SocketCall(cid), sid, to, ok))
  {
    var u := HandleEast(w, SocketCall(cid), sid, to, ok);
    hide Shape;
    if ok {
      SocketMadeShape(w, u, sid, cid, None);
    } else {
      RefusedShape(w, u, cid);
    }
  }

  lemma AcceptShape(w: World, t: Ticket, cid: Id, sid: Id, to: Addr, ok: bool)
    requires sid !in w.madeFor && cid !in w.claimed
    ensures Shape(w, HandleEast(w, AcceptOk(t, cid), sid, to, ok))
  {
    var u := HandleEast(w, AcceptOk(t, cid), sid, to, ok);
    hide Shape;
    if t.fwd !in w.fwds || t.slot !in w.fwds[t.fwd] {
      SameShape(w, u);
    } else if ok {
      SocketMadeShape(w, u, sid, cid, Some(to));
    } else {
      RefusedShape(w, u, cid);
    }
  }

  lemma HandleEastShape(w: World, m: East, sid: Id, to: Addr, ok: bool)
    requires sid !in w.madeFor && ((m.SocketCall? || m.AcceptOk?) ==> m.cid !in w.claimed)
    ensures Shape(w, HandleEast(w, m, sid, to, ok))
  {
    hide Shape, HandleEast;
    if m.SocketCall? {
      SocketShape(w, m.cid, sid, to, ok);
    } else if m.AcceptOk? {
      AcceptShape(w, m.ticket, m.cid, sid, to, ok);
    } else {
      OtherShape(w, m, sid, to, ok);
      SameShape(w, HandleEast(w, m, sid, to, ok));
    }
  }

  lemma HandleWestShape(w: World, m: West, now: int, listening: bool)
    requires Kinds(w) && WestOk(w.connAddr, w.madeFor, m)
    ensures Shape(w, HandleWest(w, m, now, listening))
  {
    var u := HandleWest(w, m, now, listening);
    hide Shape, Happens, Kinds;
    match m
    case SocketDone(cid, s) => HappensShape(w, cid, Connection.GotSocket(s));
    case ConnectDone(cid, ok) => HappensShape(w, cid, Connection.GotConnected(if ok then 0 else 1, now));
    case Accepted(cid, s) => HappensShape(w, cid, Connection.GotAccepted(s));
    case CloseWest(_) => ConnectionClosed(w, m, now, listening); hide HandleWest; SameShape(w, u);
    case DataWest(_, _, _) => SameShape(w, u);
    case AcceptCall(_) => SameShape(w, u);
  }

  lemma OpenedShape(w: World, u: World, cid: Id)
    requires cid !in w.connAddr
    requires u.madeFor == w.madeFor && u.claimed == w.claimed && u.sockets == w.sockets
    requires u.connAddr.Keys == w.connAddr.Keys + {cid} && u.conns.Keys == w.conns.Keys + {cid}
    requires u.closesEast == w.closesEast && u.closesWest == w.closesWest
    ensures Shape(w, u)
  {
  }

  lemma LocalShape(w: World, a: Action)
    requires Kinds(w) && Enabled(w, a) && !a.DeliverEast? && !a.DeliverWest?
    ensures Shape(w, Step(w, a))
  {
    var u := Step(w, a);
    hide HandleEast, HandleWest, Happens, Dropped, SocketGone;
    match a
    case OpenLocal(cid, _, _, _, _, _) => hide Shape, Kinds, Wire; OpenedShape(w, u, cid);
    case OpenRemote(cid, _, _, _, _, _) => hide Shape, Kinds; OpenedShape(w, u, cid);
    case Callback(cid, e) => hide Shape, Kinds, Happens; HappensShape(w, cid, e);
    case RemoveConn(cid) =>
      assert ConnOk(w.connAddr, w.madeFor, cid, w.conns[cid]);
      hide Shape, Dropped, Kinds, Steady;
      DroppedShape(w, w, cid, w.conns[cid]);
    case RemoveSocket(sid) => hide Shape, Kinds; SocketGoneShape(w, sid);
    case _ => hide Shape, Kinds; SameShape(w, u);
  }

  // The message at the head of the channel asks for a socket that has not been decided on.
  lemma HeadUnclaimed(w: World)
    requires Asked(w) && w.east != []
    ensures (w.east[0].SocketCall? || w.east[0].AcceptOk?) ==> w.east[0].cid !in w.claimed
  {
    var m := w.east[0];
    if m.SocketCall? || m.AcceptOk? {
      assert Asks(m, m.cid) && AskedOnce(w, m.cid);
      AskingHead(w.east, m.cid);
    }
  }

  lemma OnceAsked(w: World)
    requires Once(w)
    ensures Asked(w)
  {
  }

  lemma StepShape(w: World, a: Action)
    requires Kinds(w) && Once(w)
    ensures Shape(w, Step(w, a))
  {
    if !Enabled(w, a) {
      SameShape(w, w);
    } else if a.DeliverEast? {
      hide Shape;
      EastShape(w, a);
    } else if a.DeliverWest? {
      hide Shape;
      WestShape(w, a);
    } else {
      hide Step, Kinds, Once, Shape;
      LocalShape(w, a);
    }
  }

  lemma EastShape(w: World, a: Action)
    requires Kinds(w) && Once(w) && Enabled(w, a) && a.DeliverEast?
    ensures Shape(w, Step(w, a))
  {
    var v := w.(east := w.east[1..]);
    OnceAsked(w);
    HeadUnclaimed(w);
    HandleEastShape(v, w.east[0], a.sid, a.to, a.ok);
    hide HandleEast, Kinds, Once, NoSocket, Shape;
    assert NoSocketSame(w, v) by { SameSockets(w, v); }
    PoppedShape(w, v, Step(w, a));
  }

  lemma WestShape(w: World, a: Action)
    requires Kinds(w) && Once(w) && Enabled(w, a) && a.DeliverWest?
    ensures Shape(w, Step(w, a))
  {
    var v := w.(west := w.west[1..]);
    PopWest(w);
    HandleWestShape(v, w.west[0], a.now, a.listening);
    hide HandleWest, Kinds, Once, NoSocket, Shape;
    assert NoSocketSame(w, v) by { SameSockets(w, v); }
    PoppedShape(w, v, Step(w, a));
  }

  ghost predicate NoSocketSame(w: World, v: World) {
    forall cid :: NoSocket(v, cid) == NoSocket(w, cid)
  }

  lemma SameSockets(w: World, v: World)
    requires v.sockets == w.sockets
    ensures NoSocketSame(w, v)
  {
  }

  // Taking a message from a channel changes none of this.
  lemma PoppedShape(w: World, v: World, u: World)
    requires Shape(v, u) && NoSocketSame(w, v)
    requires v == w.(east := v.east, west := v.west)
    ensures Shape(w, u)
  {
    hide NoSocket;
    assert forall cid :: NoSocket(v, cid) == NoSocket(w, cid);
  }

  // ---------- Silence ----------

  lemma StaysSilentEast(w: World, u: World, cid: Id)
    requires Shape(w, u) && SilentEast(w, cid) && ClosesEastOk(w) && Claims(u)
    ensures SilentEast(u, cid)
  {
    forall sid | sid in u.madeFor && u.madeFor[sid] == cid
      ensures u.closesEast[sid] == 0
    {
      assert ClosedEast(w, sid);
      assert u.closesEast[sid] <= w.closesEast[sid];
    }
  }

  lemma StaysSilentWest(w: World, u: World, cid: Id)
    requires Shape(w, u) && SilentWest(w, cid)
    ensures SilentWest(u, cid)
  {
    hide NoSocket;
  }

  /** A connection that a CLOSE reaches falls silent. */
  lemma ConnectionFallsSilent(w: World, a: Action)
    requires Once(w) && Enabled(w, a) && a.DeliverWest? && w.west[0].CloseWest? && w.west[0].cid in w.conns
    requires ConnsOk(w)
    ensures SilentEast(Step(w, a), w.west[0].cid)
  {
    var cid := w.west[0].cid;
    ConnectionClosed(w.(west := w.west[1..]), w.west[0], a.now, a.listening);
    assert ConnOk(w.connAddr, w.madeFor, cid, w.conns[cid]);
    hide HandleWest, Steady, Asked, Answered, Claims, ClosesWestOk;
    forall sid | sid in w.madeFor && w.madeFor[sid] == cid
      ensures w.closesEast[sid] == 0
    {
      assert ClosedEast(w, sid);
    }
  }

  /** A socket that a CLOSE reaches falls silent. */
  lemma SocketFallsSilent(w: World, a: Action)
    requires Once(w) && SocketsOk(w) && Enabled(w, a) && a.DeliverEast? && w.east[0].CloseEast?
    requires w.east[0].sid in w.sockets
    ensures SilentWest(Step(w, a), w.sockets[w.east[0].sid].rid)
  {
    var sid := w.east[0].sid;
    var cid := w.sockets[sid].rid;
    SocketClosed(w.(east := w.east[1..]), w.east[0], a.sid, a.to, a.ok);
    hide HandleEast;
    assert Made(w.madeFor, sid, cid);
    assert ClosedWest(w, cid);
    hide Asked, Answered, ClosesEastOk, ClosesWestOk;
    forall s | s in w.sockets && s != sid
      ensures w.sockets[s].rid != cid
    {
      assert Made(w.madeFor, s, w.sockets[s].rid);
    }
  }
}

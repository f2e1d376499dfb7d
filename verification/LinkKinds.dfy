/** Link symmetry: a connection's counterpart is the socket that was made for it, and no
    packet in either direction ever crosses from one link to another. */
module LinkKinds {
  import opened Base
  import opened Link
  import Connection

  predicate Made(madeFor: map<Id, Id>, sid: Id, cid: Id) {
    sid in madeFor && madeFor[sid] == cid
  }

  predicate Extends(m: map<Id, Id>, n: map<Id, Id>) {
    forall k :: k in m ==> k in n && n[k] == m[k]
  }

  /** What a message of the connection side refers to exists and belongs together. */
  predicate EastOk(connAddr: map<Id, Addr>, madeFor: map<Id, Id>, m: East) {
    match m
    case SocketCall(cid) => cid in connAddr
    case ConnectCall(cid, sid, _) => Made(madeFor, sid, cid)
    case DataEast(cid, sid, _, from) =>
      Made(madeFor, sid, cid) && cid in connAddr && (from.Some? ==> from.value == connAddr[cid])
    case CloseEast(cid, sid) => Made(madeFor, sid, cid)
    case AcceptOk(_, cid) => cid in connAddr
    case AcceptBad(_) => true
  }

  predicate WestOk(connAddr: map<Id, Addr>, madeFor: map<Id, Id>, m: West) {
    match m
    case SocketDone(cid, sid) => sid != 0 ==> Made(madeFor, sid, cid)
    case ConnectDone(_, _) => true
    case DataWest(cid, sid, _) => Made(madeFor, sid, cid)
    case CloseWest(cid) => cid in connAddr
    case AcceptCall(_) => true
    case Accepted(cid, sid) => Made(madeFor, sid, cid)
  }

  // Outstanding calls and timers of a connection agree with its counterpart.
  predicate Steady(c: Connection.Conn) {
    && (c.init.SocketPending? ==> c.local && c.rid == 0)
    && (c.init.ConnectPending? ==> c.rid != 0)
    && (c.flushArmed ==> c.rid != 0)
  }

  predicate ConnOk(connAddr: map<Id, Addr>, madeFor: map<Id, Id>, cid: Id, c: Connection.Conn) {
    && c.id == cid && cid in connAddr && connAddr[cid] == c.addr && Steady(c)
    && (c.rid != 0 ==> Made(madeFor, c.rid, cid))
  }

  predicate WrittenOk(connAddr: map<Id, Addr>, madeFor: map<Id, Id>, x: Written) {
    x.sid in madeFor && madeFor[x.sid] in connAddr && connAddr[madeFor[x.sid]] == x.addr
  }

  predicate ConnsOk(w: World) {
    forall cid :: cid in w.conns ==> ConnOk(w.connAddr, w.madeFor, cid, w.conns[cid])
  }

  predicate SocketsOk(w: World) {
    && (forall sid :: sid in w.sockets ==> Made(w.madeFor, sid, w.sockets[sid].rid))
    && (forall sid :: sid in w.madeFor ==> sid != 0 && w.madeFor[sid] in w.connAddr)
    && 0 !in w.connAddr
  }

  predicate AllEast(connAddr: map<Id, Addr>, madeFor: map<Id, Id>, east: seq<East>) {
    forall i :: 0 <= i < |east| ==> EastOk(connAddr, madeFor, east[i])
  }

  predicate AllWest(connAddr: map<Id, Addr>, madeFor: map<Id, Id>, west: seq<West>) {
    forall i :: 0 <= i < |west| ==> WestOk(connAddr, madeFor, west[i])
  }

  predicate LogsOk(w: World) {
    && (forall i :: 0 <= i < |w.written| ==> WrittenOk(w.connAddr, w.madeFor, w.written[i]))
    && (forall i :: 0 <= i < |w.forwarded| ==> Made(w.madeFor, w.forwarded[i].sid, w.forwarded[i].cid))
  }

  predicate Kinds(w: World) {
    && ConnsOk(w) && SocketsOk(w) && LogsOk(w)
    && AllEast(w.connAddr, w.madeFor, w.east) && AllWest(w.connAddr, w.madeFor, w.west)
  }

  lemma KindsParts(w: World)
    requires Kinds(w)
    ensures ConnsOk(w) && SocketsOk(w) && LogsOk(w)
    ensures AllEast(w.connAddr, w.madeFor, w.east) && AllWest(w.connAddr, w.madeFor, w.west)
  {
  }

  // ---------- What a callback of a connection can do ----------

  predicate CallOk(c: Connection.Conn, d: Connection.Conn, call: Connection.Call) {
    match call
    case Data(sid, _, from) => sid == d.rid == c.rid != 0 && (from.Some? ==> from.value == c.addr)
    case Connect(sid, _) => c.rid == 0 && sid == d.rid != 0
    case _ => false
  }

  // A connection gets its counterpart by one of these two, and keeps it.
  predicate Gains(c: Connection.Conn, e: Connection.Event, o: Connection.Outcome) {
    || (e.GotSocket? && c.init.SocketPending? && o.conn.rid == e.created
        && o.calls == [Connection.Connect(o.conn.rid, c.to)])
    || (e.GotAccepted? && !c.local && o.conn.rid == e.rid && o.calls == [])
  }

  lemma ApplyShape(c: Connection.Conn, e: Connection.Event)
    requires Steady(c)
    ensures var o := Connection.Apply(c, e);
            && o.conn.id == c.id && o.conn.addr == c.addr && o.conn.local == c.local && Steady(o.conn)
            && (forall i :: 0 <= i < |o.calls| ==> CallOk(c, o.conn, o.calls[i]))
            && (if o.conn.rid == c.rid then true else c.rid == 0 && Gains(c, e, o))
            && (o.remove ==> o.calls == [])
  {
  }

  lemma DisposeShape(c: Connection.Conn)
    ensures Connection.Dispose(c).calls == if c.rid != 0 then [Connection.Close(c.rid)] else []
  {
  }

  // ---------- Growth ----------

  lemma Grows(connAddr: map<Id, Addr>, madeFor: map<Id, Id>, ca: map<Id, Addr>, mf: map<Id, Id>,
              east: seq<East>, west: seq<West>)
    requires Extends(connAddr, ca) && Extends(madeFor, mf)
    requires AllEast(connAddr, madeFor, east) && AllWest(connAddr, madeFor, west)
    ensures AllEast(ca, mf, east) && AllWest(ca, mf, west)
  {
  }

  lemma EastConcat(connAddr: map<Id, Addr>, madeFor: map<Id, Id>, a: seq<East>, b: seq<East>)
    requires AllEast(connAddr, madeFor, a) && AllEast(connAddr, madeFor, b)
    ensures AllEast(connAddr, madeFor, a + b)
  {
  }

  lemma WestConcat(connAddr: map<Id, Addr>, madeFor: map<Id, Id>, a: seq<West>, b: seq<West>)
    requires AllWest(connAddr, madeFor, a) && AllWest(connAddr, madeFor, b)
    ensures AllWest(connAddr, madeFor, a + b)
  {
  }

  lemma CallsOk(connAddr: map<Id, Addr>, madeFor: map<Id, Id>, cid: Id, c: Connection.Conn, o: Connection.Outcome)
    requires cid in connAddr && connAddr[cid] == c.addr && (o.conn.rid != 0 ==> Made(madeFor, o.conn.rid, cid))
    requires forall i :: 0 <= i < |o.calls| ==> CallOk(c, o.conn, o.calls[i])
    ensures AllEast(connAddr, madeFor, Wire(cid, o.calls))
  {
  }

  // ---------- Callbacks and removal ----------

  lemma DroppedKinds(w: World, cid: Id)
    requires Kinds(w) && cid in w.conns
    ensures Kinds(Dropped(w, cid))
  {
    var c, u := w.conns[cid], Dropped(w, cid);
    assert ConnOk(w.connAddr, w.madeFor, cid, c);
    DisposeShape(c);
    assert AllEast(w.connAddr, w.madeFor, Wire(cid, Connection.Dispose(c).calls));
    EastConcat(w.connAddr, w.madeFor, w.east, Wire(cid, Connection.Dispose(c).calls));
  }

  // The event may happen to connection cid: what it brings was made for cid.
  predicate Fits(w: World, cid: Id, e: Connection.Event) {
    && (e.GotSocket? && e.created > 0 ==> Made(w.madeFor, e.created, cid))
    && (e.GotAccepted? && e.rid != 0 ==> Made(w.madeFor, e.rid, cid))
  }

  lemma EffectsConn(w: World, cid: Id, e: Connection.Event)
    requires ConnsOk(w) && cid in w.conns && Fits(w, cid, e)
    ensures var o := Connection.Apply(w.conns[cid], e);
            && ConnOk(w.connAddr, w.madeFor, cid, o.conn)
            && AllEast(w.connAddr, w.madeFor, Wire(cid, o.calls))
  {
    var c := w.conns[cid];
    assert ConnOk(w.connAddr, w.madeFor, cid, c);
    ApplyShape(c, e);
    var o := Connection.Apply(c, e);
    if o.conn.rid != c.rid && o.conn.rid != 0 {
      assert Gains(c, e, o);
    }
    hide Connection.Apply, CallOk;
    CallsOk(w.connAddr, w.madeFor, cid, c, o);
  }

  lemma HappensKinds(w: World, cid: Id, e: Connection.Event)
    requires Kinds(w) && (cid in w.conns ==> Fits(w, cid, e))
    ensures Kinds(Happens(w, cid, e))
  {
    if cid in w.conns {
      EffectsConn(w, cid, e);
      var o := Connection.Apply(w.conns[cid], e);
      hide Connection.Apply, Made, EastOk, WestOk, Dropped, Wire, Steady;
      var u := w.(conns := w.conns[cid := o.conn], east := w.east + Wire(cid, o.calls),
                  closesEast := w.closesEast + Closes(o.calls));
      EastConcat(w.connAddr, w.madeFor, w.east, Wire(cid, o.calls));
      assert Kinds(u);
      if o.remove {
        DroppedKinds(u, cid);
      }
    }
  }

  lemma SocketGoneKinds(w: World, sid: Id)
    requires Kinds(w) && sid in w.sockets
    ensures Kinds(SocketGone(w, sid))
  {
    var u, rid := SocketGone(w, sid), w.sockets[sid].rid;
    assert Made(w.madeFor, sid, rid);
    assert AllWest(w.connAddr, w.madeFor, if rid != 0 then [CloseWest(rid)] else []);
    WestConcat(w.connAddr, w.madeFor, w.west, if rid != 0 then [CloseWest(rid)] else []);
  }

  lemma GrownConns(w: World, u: World)
    requires ConnsOk(w) && LogsOk(w) && SocketsOk(w) && u.conns == w.conns
    requires Extends(w.connAddr, u.connAddr) && Extends(w.madeFor, u.madeFor)
    requires u.written == w.written && u.forwarded == w.forwarded
    ensures ConnsOk(u) && LogsOk(u)
  {
    hide Steady;
    forall cid | cid in u.conns
      ensures ConnOk(u.connAddr, u.madeFor, cid, u.conns[cid])
    {
      assert ConnOk(w.connAddr, w.madeFor, cid, w.conns[cid]);
    }
    forall i | 0 <= i < |u.written|
      ensures WrittenOk(u.connAddr, u.madeFor, u.written[i])
    {
      assert WrittenOk(w.connAddr, w.madeFor, w.written[i]);
    }
  }

  lemma SocketMadeKinds(w: World, sid: Id, cid: Id, to: Option<Addr>)
    requires Kinds(w) && sid != 0 && sid !in w.madeFor && cid in w.connAddr
    ensures Kinds(SocketMade(w, sid, cid, to)) && Made(SocketMade(w, sid, cid, to).madeFor, sid, cid)
  {
    var u := SocketMade(w, sid, cid, to);
    GrownConns(w, u);
    Grows(w.connAddr, w.madeFor, u.connAddr, u.madeFor, w.east, w.west);
    hide ConnOk, EastOk, WestOk, WrittenOk;
  }

  // Another message is on its way to the connection side.
  lemma SentWest(w: World, u: World, more: seq<West>)
    requires Kinds(w) && AllWest(w.connAddr, w.madeFor, more) && u.west == w.west + more
    requires u.conns == w.conns && u.sockets == w.sockets && u.madeFor == w.madeFor && u.connAddr == w.connAddr
    requires u.east == w.east && u.written == w.written && u.forwarded == w.forwarded
    ensures Kinds(u)
  {
    WestConcat(w.connAddr, w.madeFor, w.west, more);
    hide ConnOk, EastOk, WestOk, WrittenOk;
  }

  lemma AcceptKinds(w: World, t: Ticket, cid: Id, sid: Id, to: Addr, ok: bool)
    requires Kinds(w) && cid in w.connAddr && sid != 0 && sid !in w.madeFor
    ensures Kinds(HandleEast(w, AcceptOk(t, cid), sid, to, ok))
  {
    var u := HandleEast(w, AcceptOk(t, cid), sid, to, ok);
    if t.fwd in w.fwds && t.slot in w.fwds[t.fwd] {
      if ok {
        SocketMadeKinds(w, sid, cid, Some(to));
        var v := SocketMade(w, sid, cid, Some(to));
        hide Kinds;
        SentWest(v, u, [Accepted(cid, sid), AcceptCall(t)]);
      } else {
        hide Kinds;
        SentWest(w, u, [CloseWest(cid), AcceptCall(t)]);
      }
    }
  }

  lemma SocketCallKinds(w: World, cid: Id, sid: Id, to: Addr, ok: bool)
    requires Kinds(w) && cid in w.connAddr && sid != 0 && sid !in w.madeFor
    ensures Kinds(HandleEast(w, SocketCall(cid), sid, to, ok))
  {
    var u := HandleEast(w, SocketCall(cid), sid, to, ok);
    if ok {
      SocketMadeKinds(w, sid, cid, None);
      hide Kinds;
      SentWest(SocketMade(w, sid, cid, None), u, [SocketDone(cid, sid)]);
    } else {
      hide Kinds;
      SentWest(w, u, [SocketDone(cid, 0)]);
    }
  }

  lemma ConnectCallKinds(w: World, m: East, sid: Id, to: Addr, ok: bool)
    requires Kinds(w) && m.ConnectCall?
    ensures Kinds(HandleEast(w, m, sid, to, ok))
  {
    var done := ConnectDone(m.cid, m.sid in w.sockets);
    SentWest(w, w.(west := w.west + [done]), [done]);
    hide ConnOk, EastOk, WestOk, WrittenOk;
  }

  // Handling that adds no message and makes no socket.
  lemma SilentKinds(w: World, m: East, sid: Id, to: Addr, ok: bool)
    requires Kinds(w) && EastOk(w.connAddr, w.madeFor, m) && (m.DataEast? || m.CloseEast? || m.AcceptBad?)
    ensures Kinds(HandleEast(w, m, sid, to, ok))
  {
    hide ConnOk, WestOk, WrittenOk;
    if m.CloseEast? {
      SocketClosed(w, m, sid, to, ok);
      hide HandleEast;
    }
  }

  lemma HandleEastKinds(w: World, m: East, sid: Id, to: Addr, ok: bool)
    requires Kinds(w) && EastOk(w.connAddr, w.madeFor, m) && sid != 0 && sid !in w.madeFor
    ensures Kinds(HandleEast(w, m, sid, to, ok))
  {
    hide Kinds, HandleEast;
    match m
    case SocketCall(cid) => SocketCallKinds(w, cid, sid, to, ok);
    case ConnectCall(_, _, _) => ConnectCallKinds(w, m, sid, to, ok);
    case AcceptOk(t, cid) => AcceptKinds(w, t, cid, sid, to, ok);
    case _ => SilentKinds(w, m, sid, to, ok);
  }

  lemma HandleWestKinds(w: World, m: West, now: int, listening: bool)
    requires Kinds(w) && WestOk(w.connAddr, w.madeFor, m)
    ensures Kinds(HandleWest(w, m, now, listening))
  {
    hide Happens, ClosedConn;
    match m
    case SocketDone(cid, sid) => hide Kinds; HappensKinds(w, cid, Connection.GotSocket(sid));
    case ConnectDone(cid, ok) => hide Kinds; HappensKinds(w, cid, Connection.GotConnected(if ok then 0 else 1, now));
    case DataWest(cid, sid, packet) =>
      if cid in w.conns {
        assert ConnOk(w.connAddr, w.madeFor, cid, w.conns[cid]);
        assert ConnOk(w.connAddr, w.madeFor, cid, Connection.Reply(w.conns[cid], now).conn);
        hide EastOk, WestOk, Connection.Reply;
      }
    case CloseWest(cid) =>
      ConnectionClosed(w, m, now, listening);
      hide HandleWest, ConnOk, EastOk, WestOk, WrittenOk;
    case AcceptCall(t) =>
      hide ConnOk, WestOk, WrittenOk;
      EastConcat(w.connAddr, w.madeFor, w.east, [AcceptBad(t)]);
    case Accepted(cid, sid) => hide Kinds; HappensKinds(w, cid, Connection.GotAccepted(sid));
  }

  lemma OpenedKinds(w: World, cid: Id, c: Connection.Conn, addr: Addr, m: East, waiting: seq<Ticket>)
    requires Kinds(w) && cid != 0 && cid !in w.connAddr
    requires c.id == cid && c.addr == addr && c.rid == 0 && Steady(c)
    requires m == SocketCall(cid) || (m.AcceptOk? && m.cid == cid)
    ensures Kinds(w.(conns := w.conns[cid := c], connAddr := w.connAddr[cid := addr],
                     waiting := waiting, east := w.east + [m]))
  {
    var u := w.(connAddr := w.connAddr[cid := addr]);
    GrownConns(w, u);
    Grows(w.connAddr, w.madeFor, u.connAddr, u.madeFor, w.east, w.west);
    EastConcat(u.connAddr, u.madeFor, w.east, [m]);
    hide EastOk, WestOk, WrittenOk, Steady;
  }

  lemma KindsStep(w: World, a: Action)
    requires Kinds(w)
    ensures Kinds(Step(w, a))
  {
    hide HandleEast, HandleWest, Happens, Dropped, SocketGone;
    if Enabled(w, a) {
      match a
      case OpenLocal(cid, addr, to, timeout, packet, now) =>
        var o := Connection.Start(Connection.New(cid, addr, true, to, timeout, [packet], now));
        assert Wire(cid, o.calls) == [SocketCall(cid)];
        hide Kinds;
        OpenedKinds(w, cid, o.conn, addr, SocketCall(cid), w.waiting);
      case OpenRemote(cid, i, addr, timeout, packets, now) =>
        hide Kinds;
        OpenedKinds(w, cid, Connection.New(cid, addr, false, 0, timeout, packets, now), addr,
                    AcceptOk(w.waiting[i], cid), w.waiting[..i] + w.waiting[i + 1..]);
      case Callback(cid, e) => hide Kinds; HappensKinds(w, cid, e);
      case RemoveConn(cid) => hide Kinds; DroppedKinds(w, cid);
      case Reply(sid, packet) =>
        assert Made(w.madeFor, sid, w.sockets[sid].rid);
        hide Kinds;
        SentWest(w, Step(w, a), [DataWest(w.sockets[sid].rid, sid, packet)]);
      case RemoveSocket(sid) => hide Kinds; SocketGoneKinds(w, sid);
      case OpenForwarder(f) =>
        hide Kinds;
        SentWest(w, Step(w, a), [AcceptCall(Ticket(f, 0)), AcceptCall(Ticket(f, 1))]);
      case DeliverEast(sid, to, ok) =>
        PopEast(w);
        hide Kinds;
        HandleEastKinds(w.(east := w.east[1..]), w.east[0], sid, to, ok);
      case DeliverWest(now, listening) =>
        PopWest(w);
        hide Kinds;
        HandleWestKinds(w.(west := w.west[1..]), w.west[0], now, listening);
      case _ => hide ConnOk, EastOk, WestOk, WrittenOk;
    }
  }

  lemma PopEast(w: World)
    requires Kinds(w) && w.east != []
    ensures Kinds(w.(east := w.east[1..])) && EastOk(w.connAddr, w.madeFor, w.east[0])
  {
    hide ConnOk, EastOk, WestOk, WrittenOk;
  }

  lemma PopWest(w: World)
    requires Kinds(w) && w.west != []
    ensures Kinds(w.(west := w.west[1..])) && WestOk(w.connAddr, w.madeFor, w.west[0])
  {
    hide ConnOk, EastOk, WestOk, WrittenOk;
  }
}

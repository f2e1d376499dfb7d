/** CONNECT precedes DATA: a DATA request that reaches a live socket always finds it
    connected, so none is lost there. */
module LinkOrder {
  import opened Base
  import opened Link
  import opened LinkKinds
  import Connection

  /** The socket is connected already, or gone. */
  predicate Ready(sockets: map<Id, Socket>, sid: Id) {
    sid in sockets ==> sockets[sid].to.Some?
  }

  predicate Connects(m: East, sid: Id) {
    m.ConnectCall? && m.sid == sid
  }

  // Among the first n messages there is a CONNECT for the socket.
  predicate Ahead(east: seq<East>, n: nat, sid: Id) {
    exists j :: 0 <= j < n && j < |east| && Connects(east[j], sid)
  }

  predicate Safe(w: World, n: nat, sid: Id) {
    Ready(w.sockets, sid) || Ahead(w.east, n, sid)
  }

  predicate DataOrder(w: World) {
    forall i :: 0 <= i < |w.east| && w.east[i].DataEast? ==> Safe(w, i, w.east[i].sid)
  }

  predicate ConnOrder(w: World) {
    forall cid :: cid in w.conns && w.conns[cid].rid != 0 ==> Safe(w, |w.east|, w.conns[cid].rid)
  }

  predicate WestOrder(w: World) {
    forall i :: 0 <= i < |w.west| && w.west[i].Accepted? ==> Ready(w.sockets, w.west[i].sid)
  }

  predicate Order(w: World) {
    DataOrder(w) && ConnOrder(w) && WestOrder(w) && w.dropped == 0
  }

  // ---------- The connection side ----------

  lemma AheadGrows(east: seq<East>, more: seq<East>, n: nat, k: nat, sid: Id)
    requires Ahead(east, n, sid) && n <= k
    ensures Ahead(east + more, k, sid)
  {
    var j :| 0 <= j < n && j < |east| && Connects(east[j], sid);
    assert (east + more)[j] == east[j];
  }

  // The messages of a callback that leaves connection cid as d.
  predicate Sends(w: World, d: Connection.Conn, more: seq<East>) {
    && (forall i :: 0 <= i < |more| && more[i].DataEast? ==>
          more[i].sid == d.rid && Safe(w, |w.east|, d.rid))
    && (d.rid != 0 ==> Safe(w, |w.east|, d.rid) || (|more| == 1 && Connects(more[0], d.rid)))
  }

  lemma SentOrder(w: World, u: World, cid: Id, d: Connection.Conn, more: seq<East>)
    requires Order(w) && Sends(w, d, more)
    requires u.east == w.east + more && u.sockets == w.sockets && u.west == w.west && u.dropped == w.dropped
    requires forall c :: c in u.conns ==> if c == cid then u.conns[c].rid == d.rid
                                          else c in w.conns && u.conns[c].rid == w.conns[c].rid
    ensures Order(u)
  {
    forall i | 0 <= i < |u.east| && u.east[i].DataEast?
      ensures Safe(u, i, u.east[i].sid)
    {
      SentData(w, u, d, more, i);
    }
    forall c | c in u.conns && u.conns[c].rid != 0
      ensures Safe(u, |u.east|, u.conns[c].rid)
    {
      var rid := u.conns[c].rid;
      if Safe(w, |w.east|, rid) {
        StaysSafe(w, u, more, |w.east|, |u.east|, rid);
      } else {
        assert u.east[|w.east|] == more[0];
      }
    }
  }

  lemma SentData(w: World, u: World, d: Connection.Conn, more: seq<East>, i: nat)
    requires DataOrder(w) && Sends(w, d, more) && u.east == w.east + more && u.sockets == w.sockets
    requires i < |u.east| && u.east[i].DataEast?
    ensures Safe(u, i, u.east[i].sid)
  {
    if i < |w.east| {
      assert u.east[i] == w.east[i];
      StaysSafe(w, u, more, i, i, u.east[i].sid);
    } else {
      assert u.east[i] == more[i - |w.east|];
      StaysSafe(w, u, more, |w.east|, i, d.rid);
    }
  }

  lemma StaysSafe(w: World, u: World, more: seq<East>, n: nat, k: nat, sid: Id)
    requires Safe(w, n, sid) && u.east == w.east + more && u.sockets == w.sockets && n <= k
    ensures Safe(u, k, sid)
  {
    if !Ready(w.sockets, sid) {
      AheadGrows(w.east, more, n, k, sid);
    }
  }

  lemma DroppedOrder(w: World, cid: Id)
    requires Order(w) && cid in w.conns
    ensures Order(Dropped(w, cid))
  {
    var c := w.conns[cid];
    DisposeShape(c);
    hide Connection.Dispose, Closes, Order;
    SentOrder(w, Dropped(w, cid), cid, c.(rid := 0), Wire(cid, Connection.Dispose(c).calls));
  }

  lemma CallbackSends(w: World, cid: Id, e: Connection.Event)
    requires ConnOrder(w) && ConnsOk(w) && cid in w.conns
    requires e.GotAccepted? && e.rid != 0 ==> Ready(w.sockets, e.rid)
    ensures var o := Connection.Apply(w.conns[cid], e);
            Sends(w, o.conn, Wire(cid, o.calls))
  {
    var c := w.conns[cid];
    assert ConnOk(w.connAddr, w.madeFor, cid, c);
    ApplyShape(c, e);
    var o := Connection.Apply(c, e);
    hide Connection.Apply, Safe, ConnsOk;
    assert c.rid != 0 ==> Safe(w, |w.east|, c.rid);
    forall i | 0 <= i < |o.calls| && Wire(cid, o.calls)[i].DataEast?
      ensures Wire(cid, o.calls)[i].sid == o.conn.rid && Safe(w, |w.east|, o.conn.rid)
    {
      assert CallOk(c, o.conn, o.calls[i]);
    }
    if o.conn.rid != c.rid && o.conn.rid != 0 {
      assert Gains(c, e, o);
      GainSafe(w, e, o.conn.rid);
    }
  }

  lemma GainSafe(w: World, e: Connection.Event, rid: Id)
    requires e.GotAccepted? && e.rid == rid ==> Ready(w.sockets, rid)
    ensures e.GotAccepted? && e.rid == rid ==> Safe(w, |w.east|, rid)
  {
  }

  lemma HappensOrder(w: World, cid: Id, e: Connection.Event)
    requires Order(w) && ConnsOk(w)
    requires e.GotAccepted? && e.rid != 0 ==> Ready(w.sockets, e.rid)
    ensures Order(Happens(w, cid, e))
  {
    if cid in w.conns {
      CallbackSends(w, cid, e);
      var o := Connection.Apply(w.conns[cid], e);
      hide Connection.Apply, Sends, Closes, Wire, Dropped, ConnsOk;
      var u := w.(conns := w.conns[cid := o.conn], east := w.east + Wire(cid, o.calls),
                  closesEast := w.closesEast + Closes(o.calls));
      hide Order;
      SentOrder(w, u, cid, o.conn, Wire(cid, o.calls));
      if o.remove {
        DroppedOrder(u, cid);
      }
    }
  }

  // ---------- The socket side ----------

  // Whatever was ready stays so.
  predicate StaysReady(w: World, u: World) {
    forall s :: s in w.madeFor && Ready(w.sockets, s) ==> Ready(u.sockets, s)
  }

  lemma SafeLater(w: World, u: World, sid: Id)
    requires sid in w.madeFor && StaysReady(w, u) && w.east != [] && u.east == w.east[1..]
    requires w.east[0].ConnectCall? ==> Ready(u.sockets, w.east[0].sid)
    ensures forall n :: 0 < n <= |w.east| && Safe(w, n, sid) ==> Safe(u, n - 1, sid)
  {
    forall n | 0 < n <= |w.east| && Safe(w, n, sid)
      ensures Safe(u, n - 1, sid)
    {
      if !Ready(w.sockets, sid) {
        var j :| 0 <= j < n && j < |w.east| && Connects(w.east[j], sid);
        if j > 0 {
          assert u.east[j - 1] == w.east[j];
        }
      }
    }
  }

  lemma HandledOrder(w: World, u: World, more: seq<West>)
    requires Order(w) && Kinds(w) && StaysReady(w, u) && w.east != [] && u.east == w.east[1..]
    requires w.east[0].ConnectCall? ==> Ready(u.sockets, w.east[0].sid)
    requires u.conns == w.conns && u.dropped == w.dropped && u.west == w.west + more
    requires forall i :: 0 <= i < |more| && more[i].Accepted? ==> Ready(u.sockets, more[i].sid)
    ensures Order(u)
  {
    KindsParts(w);
    hide Kinds, Safe, LogsOk, SocketsOk, StaysReady;
    forall i | 0 <= i < |u.east| && u.east[i].DataEast?
      ensures Safe(u, i, u.east[i].sid)
    {
      assert u.east[i] == w.east[i + 1] && EastOk(w.connAddr, w.madeFor, w.east[i + 1]);
      SafeLater(w, u, u.east[i].sid);
    }
    forall c | c in u.conns && u.conns[c].rid != 0
      ensures Safe(u, |u.east|, u.conns[c].rid)
    {
      assert ConnOk(w.connAddr, w.madeFor, c, w.conns[c]);
      SafeLater(w, u, u.conns[c].rid);
    }
    WestHandled(w, u, more);
  }

  lemma WestHandled(w: World, u: World, more: seq<West>)
    requires WestOrder(w) && StaysReady(w, u) && AllWest(w.connAddr, w.madeFor, w.west) && u.west == w.west + more
    requires forall i :: 0 <= i < |more| && more[i].Accepted? ==> Ready(u.sockets, more[i].sid)
    ensures WestOrder(u)
  {
    forall i | 0 <= i < |u.west| && u.west[i].Accepted?
      ensures Ready(u.sockets, u.west[i].sid)
    {
      if i < |w.west| {
        assert u.west[i] == w.west[i] && WestOk(w.connAddr, w.madeFor, w.west[i]);
      } else {
        assert u.west[i] == more[i - |w.west|];
      }
    }
  }

  // The head of the channel is safe with nothing ahead of it.
  lemma HeadReady(w: World)
    requires DataOrder(w) && w.east != [] && w.east[0].DataEast?
    ensures Ready(w.sockets, w.east[0].sid)
  {
    assert Safe(w, 0, w.east[0].sid);
  }

  // What was added to the channel by handling the head.
  function Response(w: World, m: East, sid: Id, to: Addr, ok: bool): seq<West> {
    match m
    case SocketCall(cid) => [SocketDone(cid, if ok then sid else 0)]
    case ConnectCall(cid, s, _) => [ConnectDone(cid, s in w.sockets)]
    case AcceptOk(t, cid) =>
      if t.fwd !in w.fwds || t.slot !in w.fwds[t.fwd] then []
      else if ok then [Accepted(cid, sid), AcceptCall(t)] else [CloseWest(cid), AcceptCall(t)]
    case _ => []
  }

  // What DeliverEastOrder needs to know about the handling of the head.
  predicate Handled(w: World, u: World, m: East, sid: Id, to: Addr, ok: bool) {
    && StaysReady(w, u) && u.east == w.east && u.conns == w.conns && u.dropped == w.dropped
    && u.west == w.west + Response(w, m, sid, to, ok)
    && (m.ConnectCall? ==> Ready(u.sockets, m.sid))
    && (m.AcceptOk? && Response(w, m, sid, to, ok) != [] && ok ==> Ready(u.sockets, sid))
  }

  lemma SocketHandled(w: World, m: East, sid: Id, to: Addr, ok: bool)
    requires sid !in w.madeFor && (m.SocketCall? || m.ConnectCall? || m.CloseEast? || m.AcceptBad?)
    ensures Handled(w, HandleEast(w, m, sid, to, ok), m, sid, to, ok)
  {
    hide HandleEast, Handled;
    if m.SocketCall? {
      NewSocketHandled(w, m, sid, to, ok);
    } else if m.ConnectCall? {
      ConnectHandled(w, m, sid, to, ok);
    } else if m.CloseEast? {
      ClosedHandled(w, m, sid, to, ok);
    } else {
      BadHandled(w, m, sid, to, ok);
    }
  }

  lemma NewSocketHandled(w: World, m: East, sid: Id, to: Addr, ok: bool)
    requires sid !in w.madeFor && m.SocketCall?
    ensures Handled(w, HandleEast(w, m, sid, to, ok), m, sid, to, ok)
  {
    hide SocketGone;
  }

  lemma ConnectHandled(w: World, m: East, sid: Id, to: Addr, ok: bool)
    requires m.ConnectCall?
    ensures Handled(w, HandleEast(w, m, sid, to, ok), m, sid, to, ok)
  {
    hide SocketGone;
  }

  lemma ClosedHandled(w: World, m: East, sid: Id, to: Addr, ok: bool)
    requires m.CloseEast?
    ensures Handled(w, HandleEast(w, m, sid, to, ok), m, sid, to, ok)
  {
    SocketClosed(w, m, sid, to, ok);
    hide HandleEast;
    assert w.west + [] == w.west;
  }

  lemma BadHandled(w: World, m: East, sid: Id, to: Addr, ok: bool)
    requires m.AcceptBad?
    ensures Handled(w, HandleEast(w, m, sid, to, ok), m, sid, to, ok)
  {
    hide SocketGone;
  }

  lemma AcceptHandled(w: World, m: East, sid: Id, to: Addr, ok: bool)
    requires sid !in w.madeFor && m.AcceptOk?
    ensures Handled(w, HandleEast(w, m, sid, to, ok), m, sid, to, ok)
  {
  }

  lemma DataHandled(w: World, m: East, sid: Id, to: Addr, ok: bool)
    requires m.DataEast? && Ready(w.sockets, m.sid)
    ensures Handled(w, HandleEast(w, m, sid, to, ok), m, sid, to, ok)
  {
  }

  lemma DeliverShape(w: World, sid: Id, to: Addr, ok: bool)
    requires w.east != [] && sid !in w.madeFor
    requires w.east[0].DataEast? ==> Ready(w.sockets, w.east[0].sid)
    ensures var v, m := w.(east := w.east[1..]), w.east[0];
            Handled(v, HandleEast(v, m, sid, to, ok), m, sid, to, ok)
  {
    hide HandleEast, Handled;
    var v, m := w.(east := w.east[1..]), w.east[0];
    if m.AcceptOk? {
      AcceptHandled(v, m, sid, to, ok);
    } else if m.DataEast? {
      DataHandled(v, m, sid, to, ok);
    } else {
      SocketHandled(v, m, sid, to, ok);
    }
  }

  lemma DeliverEastOrder(w: World, sid: Id, to: Addr, ok: bool)
    requires Order(w) && Kinds(w) && w.east != [] && sid !in w.madeFor
    ensures Order(HandleEast(w.(east := w.east[1..]), w.east[0], sid, to, ok))
  {
    if w.east[0].DataEast? {
      HeadReady(w);
    }
    DeliverShape(w, sid, to, ok);
    hide Order, Kinds, StaysReady, HandleEast;
    HandledOrder(w, HandleEast(w.(east := w.east[1..]), w.east[0], sid, to, ok),
                 Response(w, w.east[0], sid, to, ok));
  }

  // Fewer sockets, or other messages on the way to the connection side.
  lemma SameOrder(w: World, u: World, more: seq<West>)
    requires Order(w) && u.east == w.east && u.dropped == w.dropped && u.west == w.west + more
    requires forall i :: 0 <= i < |more| ==> !more[i].Accepted?
    requires forall c :: c in u.conns ==> c in w.conns && u.conns[c].rid == w.conns[c].rid
    requires forall s :: s in u.sockets ==> s in w.sockets && u.sockets[s] == w.sockets[s]
    ensures Order(u)
  {
    assert forall n, s :: Safe(w, n, s) ==> Safe(u, n, s);
    hide Safe;
    forall i | 0 <= i < |u.west| && u.west[i].Accepted?
      ensures Ready(u.sockets, u.west[i].sid)
    {
      assert i < |w.west| && u.west[i] == w.west[i];
    }
  }

  lemma PoppedOrder(w: World)
    requires Order(w) && w.west != []
    ensures Order(w.(west := w.west[1..]))
    ensures w.west[0].Accepted? ==> Ready(w.sockets, w.west[0].sid)
  {
    var u := w.(west := w.west[1..]);
    assert forall n, s :: Safe(w, n, s) ==> Safe(u, n, s);
    hide Safe;
    assert forall i :: 0 <= i < |u.west| ==> u.west[i] == w.west[i + 1];
  }

  lemma RefusalOrder(w: World, u: World, t: Ticket)
    requires Order(w) && u == w.(east := w.east + [AcceptBad(t)])
    ensures Order(u)
  {
    var d := if 0 in w.conns then w.conns[0] else Connection.New(0, 0, false, 0, 0, [], 0);
    assert Sends(w, d, [AcceptBad(t)]);
    hide Order, Sends;
    SentOrder(w, u, 0, d, [AcceptBad(t)]);
  }

  lemma HandleWestOrder(w: World, m: West, now: int, listening: bool)
    requires Order(w) && ConnsOk(w) && (m.Accepted? ==> Ready(w.sockets, m.sid))
    ensures Order(HandleWest(w, m, now, listening))
  {
    hide Order, ConnsOk;
    match m
    case SocketDone(cid, sid) => HappensOrder(w, cid, Connection.GotSocket(sid));
    case ConnectDone(cid, ok) => HappensOrder(w, cid, Connection.GotConnected(if ok then 0 else 1, now));
    case Accepted(cid, sid) => HappensOrder(w, cid, Connection.GotAccepted(sid));
    case AcceptCall(t) =>
      if listening {
        SameOrder(w, HandleWest(w, m, now, listening), []);
      } else {
        RefusalOrder(w, HandleWest(w, m, now, listening), t);
      }
    case CloseWest(_) =>
      ConnectionClosed(w, m, now, listening);
      SameOrder(w, HandleWest(w, m, now, listening), []);
    case DataWest(_, _, _) => SameOrder(w, HandleWest(w, m, now, listening), []);
  }

  lemma OpenedOrder(w: World, u: World, cid: Id, m: East)
    requires Order(w) && !m.DataEast? && u.east == w.east + [m]
    requires u.sockets == w.sockets && u.west == w.west && u.dropped == w.dropped
    requires forall c :: c in u.conns ==> if c == cid then u.conns[c].rid == 0
                                          else c in w.conns && u.conns[c] == w.conns[c]
    ensures Order(u)
  {
    hide Order;
    SentOrder(w, u, cid, Connection.New(cid, 0, false, 0, 0, [], 0), [m]);
  }

  lemma OrderStep(w: World, a: Action)
    requires Order(w) && Kinds(w)
    ensures Order(Step(w, a))
  {
    hide HandleEast, HandleWest, Happens, Dropped;
    if Enabled(w, a) {
      KindsParts(w);
      match a
      case OpenLocal(cid, addr, to, timeout, packet, now) =>
        var o := Connection.Start(Connection.New(cid, addr, true, to, timeout, [packet], now));
        assert Wire(cid, o.calls) == [SocketCall(cid)];
        hide Order, Kinds;
        OpenedOrder(w, Step(w, a), cid, SocketCall(cid));
      case OpenRemote(cid, i, addr, timeout, packets, now) =>
        hide Order, Kinds;
        OpenedOrder(w, Step(w, a), cid, AcceptOk(w.waiting[i], cid));
      case Callback(cid, e) => hide Order, Kinds, ConnsOk; HappensOrder(w, cid, e);
      case RemoveConn(cid) => hide Order, Kinds; DroppedOrder(w, cid);
      case DeliverEast(sid, to, ok) => hide Order, Kinds; DeliverEastOrder(w, sid, to, ok);
      case DeliverWest(now, listening) =>
        PoppedOrder(w);
        hide Order, Kinds, ConnsOk, HandleWest;
        SameConns(w, w.(west := w.west[1..]));
        HandleWestOrder(w.(west := w.west[1..]), w.west[0], now, listening);
      case RemoveSocket(sid) =>
        hide Order, Kinds;
        var rid := w.sockets[sid].rid;
        SameOrder(w, Step(w, a), if rid != 0 then [CloseWest(rid)] else []);
      case Reply(sid, packet) =>
        hide Order, Kinds;
        SameOrder(w, Step(w, a), [DataWest(w.sockets[sid].rid, sid, packet)]);
      case OpenForwarder(f) =>
        hide Order, Kinds;
        SameOrder(w, Step(w, a), [AcceptCall(Ticket(f, 0)), AcceptCall(Ticket(f, 1))]);
      case _ =>
        hide Order, Kinds;
        SameOrder(w, Step(w, a), []);
    }
  }

  lemma SameConns(w: World, u: World)
    requires ConnsOk(w) && u.conns == w.conns && u.connAddr == w.connAddr && u.madeFor == w.madeFor
    ensures ConnsOk(u)
  {
  }
}

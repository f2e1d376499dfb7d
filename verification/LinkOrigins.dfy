/** Where the messages of two peers come from: what a step can put on each channel, and what
    it must. */
module LinkOrigins {
  import opened Base
  import opened Link
  import opened LinkCounts
  import opened LinkKinds
  import opened LinkOrder
  import opened LinkDelivery
  import opened LinkTraces
  import Connection

  /** What can make a step send the message. */
  predicate EastOrigin(w: World, a: Action, m: East) {
    match m
    case SocketCall(cid) => Enabled(w, a) && a.OpenLocal? && a.cid == cid
    case AcceptOk(_, cid) => Enabled(w, a) && a.OpenRemote? && a.cid == cid
    case ConnectCall(cid, _, to) => cid in w.conns && w.conns[cid].local && w.conns[cid].to == to
    case _ => true
  }

  predicate WestOrigin(w: World, a: Action, m: West) {
    match m
    case SocketDone(cid, sid) =>
      Enabled(w, a) && a.DeliverEast? && w.east[0] == SocketCall(cid) && (sid != 0 ==> sid == a.sid && a.ok)
    case Accepted(cid, sid) =>
      Enabled(w, a) && a.DeliverEast? && w.east[0].AcceptOk? && w.east[0].cid == cid && sid == a.sid && a.ok
    case _ => true
  }

  predicate EastFrom(w: World, a: Action, rest: seq<East>, east: seq<East>) {
    forall m :: m in east ==> m in rest || EastOrigin(w, a, m)
  }

  predicate WestFrom(w: World, a: Action, rest: seq<West>, west: seq<West>) {
    forall m :: m in west ==> m in rest || WestOrigin(w, a, m)
  }

  // ---------- Callbacks ----------

  lemma WireElements(cid: Id, calls: seq<Connection.Call>, m: East)
    ensures m in Wire(cid, calls) <==> exists k :: 0 <= k < |calls| && m == Message(cid, calls[k])
  {
    hide Message;
    var wire := Wire(cid, calls);
    if m in wire {
      var k :| 0 <= k < |wire| && wire[k] == m;
      assert wire[k] == Message(cid, calls[k]);
    }
    if k :| 0 <= k < |calls| && m == Message(cid, calls[k]) {
      assert wire[k] == m;
    }
  }

  lemma DroppedEast(w: World, cid: Id, m: East)
    requires cid in w.conns
    ensures m in Dropped(w, cid).east ==> m in w.east || m.CloseEast?
    ensures m in w.east ==> m in Dropped(w, cid).east
  {
    var calls := Connection.Dispose(w.conns[cid]).calls;
    DisposeShape(w.conns[cid]);
    WireElements(cid, calls, m);
    hide Connection.Dispose, Wire, Closes;
  }

  // What a callback of a connection sends, and nothing else but a CLOSE.
  lemma HappensEast(w: World, cid: Id, e: Connection.Event, m: East)
    ensures var u := Happens(w, cid, e);
            && (m in w.east ==> m in u.east)
            && (m in u.east ==> m in w.east || m.CloseEast?
                                || (cid in w.conns && m in Wire(cid, Connection.Apply(w.conns[cid], e).calls)))
            && (cid in w.conns && m in Wire(cid, Connection.Apply(w.conns[cid], e).calls) ==> m in u.east)
  {
    if cid in w.conns {
      var o := Connection.Apply(w.conns[cid], e);
      hide Connection.Apply, Wire, Closes, Dropped;
      if o.remove {
        DroppedEast(w.(conns := w.conns[cid := o.conn], east := w.east + Wire(cid, o.calls),
                       closesEast := w.closesEast + Closes(o.calls)), cid, m);
      }
    }
  }

  // The calls of a callback are DATA, or CONNECT to where the connection has to connect.
  lemma CallbackSends(c: Connection.Conn, e: Connection.Event, cid: Id, m: East)
    requires Steady(c) && m in Wire(cid, Connection.Apply(c, e).calls)
    ensures m.DataEast? || (m.ConnectCall? && m.cid == cid && c.local && m.to == c.to)
  {
    var calls := Connection.Apply(c, e).calls;
    WireElements(cid, calls, m);
    ApplyShape(c, e);
    var k :| 0 <= k < |calls| && m == Message(cid, calls[k]);
    assert CallOk(c, Connection.Apply(c, e).conn, calls[k]);
    if calls[k].Connect? {
      assert e.GotSocket?;
    }
  }

  lemma HappensOrigin(w: World, a: Action, cid: Id, e: Connection.Event, m: East)
    requires Kinds(w) && m in Happens(w, cid, e).east
    ensures m in w.east || EastOrigin(w, a, m)
  {
    HappensEast(w, cid, e, m);
    if cid in w.conns && m in Wire(cid, Connection.Apply(w.conns[cid], e).calls) {
      KindsParts(w);
      assert ConnOk(w.connAddr, w.madeFor, cid, w.conns[cid]);
      hide Kinds, ConnsOk, SocketsOk, LogsOk, AllEast, AllWest;
      CallbackSends(w.conns[cid], e, cid, m);
    }
  }

  // ---------- Steps ----------

  lemma WestOriginEast(w: World, v: World, a: Action, m: West, now: int, listening: bool, x: East)
    requires Kinds(w) && v == w.(west := v.west) && x in HandleWest(v, m, now, listening).east
    ensures x in w.east || EastOrigin(w, a, x)
  {
    hide Happens, ClosedConn, Kinds;
    assert Kinds(v.(west := w.west)) && v.conns == w.conns;
    match m
    case SocketDone(c, s) => SameHappens(w, v, a, c, Connection.GotSocket(s), x);
    case ConnectDone(c, ok) => SameHappens(w, v, a, c, Connection.GotConnected(if ok then 0 else 1, now), x);
    case Accepted(c, s) => SameHappens(w, v, a, c, Connection.GotAccepted(s), x);
    case CloseWest(_) => ConnectionClosed(v, m, now, listening);
    case DataWest(_, _, _) =>
    case AcceptCall(_) =>
  }

  // Messages on the way back make no difference to what a callback sends.
  lemma SameHappens(w: World, v: World, a: Action, cid: Id, e: Connection.Event, x: East)
    requires Kinds(w) && v == w.(west := v.west) && x in Happens(v, cid, e).east
    ensures x in w.east || EastOrigin(w, a, x)
  {
    HappensEast(v, cid, e, x);
    if cid in w.conns && x in Wire(cid, Connection.Apply(w.conns[cid], e).calls) {
      KindsParts(w);
      assert ConnOk(w.connAddr, w.madeFor, cid, w.conns[cid]);
      hide Kinds, ConnsOk, SocketsOk, LogsOk, AllEast, AllWest;
      CallbackSends(w.conns[cid], e, cid, x);
    }
  }

  lemma LocalOrigin(w: World, a: Action, m: East)
    requires Kinds(w) && Enabled(w, a) && !a.DeliverEast? && !a.DeliverWest? && m in Step(w, a).east
    ensures m in w.east || EastOrigin(w, a, m)
  {
    hide Happens, Dropped, Kinds;
    match a
    case OpenLocal(c, addr, to, timeout, packet, now) => assert Step(w, a).east == w.east + [SocketCall(c)];
    case Callback(c, e) => HappensOrigin(w, a, c, e, m);
    case RemoveConn(c) => DroppedEast(w, c, m);
    case _ =>
  }

  /** What a step puts on the channel to the sockets. */
  lemma StepEastOrigin(w: World, a: Action)
    requires Kinds(w)
    ensures EastFrom(w, a, RestEast(w, a), Step(w, a).east)
  {
    forall m | m in Step(w, a).east
      ensures m in RestEast(w, a) || EastOrigin(w, a, m)
    {
      if Enabled(w, a) {
        if a.DeliverEast? {
          EastHandled(w.(east := w.east[1..]), w.east[0], a.sid, a.to, a.ok);
          hide HandleEast, Kinds;
        } else if a.DeliverWest? {
          hide HandleWest, Kinds;
          WestOriginEast(w, w.(west := w.west[1..]), a, w.west[0], a.now, a.listening, m);
        } else {
          hide Step, Kinds;
          LocalOrigin(w, a, m);
        }
      }
    }
  }

  lemma ResponseOrigin(w: World, a: Action, m: West)
    requires Enabled(w, a) && a.DeliverEast? && m in Response(w, w.east[0], a.sid, a.to, a.ok)
    ensures WestOrigin(w, a, m)
  {
  }

  lemma LocalWest(w: World, a: Action, m: West)
    requires Enabled(w, a) && !a.DeliverEast? && !a.DeliverWest? && m in Step(w, a).west
    ensures m in w.west || WestOrigin(w, a, m)
  {
    hide Happens, Dropped, Connection.New, Connection.Start, Wire;
    match a
    case Callback(c, e) => HappensIs(w, c, e);
    case RemoveConn(c) => DroppedIs(w, c);
    case _ =>
  }

  /** The channel to the connections grows by the response of the step, if it delivers. */
  lemma DeliveredWestward(w: World, a: Action)
    requires Order(w) && Enabled(w, a) && a.DeliverEast?
    ensures Step(w, a).west == w.west + Response(w, w.east[0], a.sid, a.to, a.ok)
  {
    var v, m := w.(east := w.east[1..]), w.east[0];
    if m.DataEast? {
      OrderedHead(w);
    }
    DeliverShape(w, a.sid, a.to, a.ok);
    assert Response(v, m, a.sid, a.to, a.ok) == Response(w, m, a.sid, a.to, a.ok);
    hide Order, HandleEast, StaysReady, Response;
  }

  lemma WestHandledWest(w: World, m: West, now: int, listening: bool)
    ensures HandleWest(w, m, now, listening).west == w.west
  {
    hide Happens, ClosedConn, Connection.Reply;
    match m
    case SocketDone(c, s) => HappensIs(w, c, Connection.GotSocket(s));
    case ConnectDone(c, ok) => HappensIs(w, c, Connection.GotConnected(if ok then 0 else 1, now));
    case Accepted(c, s) => HappensIs(w, c, Connection.GotAccepted(s));
    case CloseWest(_) => ConnectionClosed(w, m, now, listening);
    case DataWest(_, _, _) =>
    case AcceptCall(_) =>
  }

  /** What a step puts on the channel to the connections. */
  lemma StepWestOrigin(w: World, a: Action)
    requires Order(w)
    ensures WestFrom(w, a, RestWest(w, a), Step(w, a).west)
  {
    forall m | m in Step(w, a).west
      ensures m in RestWest(w, a) || WestOrigin(w, a, m)
    {
      if Enabled(w, a) {
        if a.DeliverEast? {
          DeliveredWestward(w, a);
          hide Step, Order, Response, Enabled;
          if m !in w.west {
            ResponseOrigin(w, a, m);
          }
        } else if a.DeliverWest? {
          hide HandleWest, Order;
          WestHandledWest(w.(west := w.west[1..]), w.west[0], a.now, a.listening);
        } else {
          hide Step, Order;
          LocalWest(w, a, m);
        }
      }
    }
  }

  /** No message is lost: one that is not delivered by the step is still under way. */
  lemma StillUnderWay(w: World, a: Action)
    ensures forall m :: m in w.east && !(Enabled(w, a) && a.DeliverEast? && m == w.east[0]) ==> m in Step(w, a).east
    ensures forall m :: m in w.west && !(Enabled(w, a) && a.DeliverWest? && m == w.west[0]) ==> m in Step(w, a).west
  {
    StepSends(w, a, 0);
    hide Step, NewEast, NewWest, Counts, Enabled;
    assert Enabled(w, a) && a.DeliverEast? ==> w.east == [w.east[0]] + w.east[1..] by { EnabledHead(w, a); }
    assert Enabled(w, a) && a.DeliverWest? ==> w.west == [w.west[0]] + w.west[1..] by { EnabledHead(w, a); }
  }

  lemma EnabledHead(w: World, a: Action)
    ensures Enabled(w, a) && a.DeliverEast? ==> w.east != []
    ensures Enabled(w, a) && a.DeliverWest? ==> w.west != []
  {
  }
}

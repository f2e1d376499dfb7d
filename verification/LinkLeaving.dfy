/** Whoever leaves a link says so: the lower bound to the CLOSE messages that LinkRuns bounds
    from above. */
module LinkLeaving {
  import opened Base
  import opened Link
  import opened LinkKinds
  import opened LinkOnce
  import opened LinkOrder
  import opened LinkDelivery
  import opened LinkTraces
  import opened LinkTickets
  import opened LinkRuns
  import opened LinkOrigins
  import opened LinkProgress
  import Connection

  // A connection that leaves the table closes its counterpart.
  lemma DroppedCloses(w: World, cid: Id)
    requires cid in w.conns && w.conns[cid].rid != 0
    ensures CloseEast(cid, w.conns[cid].rid) in Dropped(w, cid).east
  {
    var m, calls := CloseEast(cid, w.conns[cid].rid), Connection.Dispose(w.conns[cid]).calls;
    DisposeShape(w.conns[cid]);
    assert calls[0] == Connection.Close(w.conns[cid].rid);
    WireElements(cid, calls, m);
    hide Connection.Dispose, Wire, Closes;
  }

  lemma HappensCloses(w: World, c: Id, e: Connection.Event, cid: Id)
    requires cid in w.conns && w.conns[cid].rid != 0 && cid !in Happens(w, c, e).conns
    ensures CloseEast(cid, w.conns[cid].rid) in Happens(w, c, e).east
  {
    var o := Connection.Apply(w.conns[c], e);
    var u := w.(conns := w.conns[c := o.conn], east := w.east + Wire(c, o.calls), closesEast := w.closesEast + Closes(o.calls));
    LocalStays(w.conns[c], e);
    hide Connection.Apply, Wire, Closes, Dropped;
    if o.remove {
      DroppedGone(u, c);
      DroppedCloses(u, c);
    }
  }

  lemma DeliveryCloses(w: World, m: West, now: int, listening: bool, cid: Id)
    requires cid in w.conns && w.conns[cid].rid != 0 && cid !in HandleWest(w, m, now, listening).conns
    requires m != CloseWest(cid)
    ensures CloseEast(cid, w.conns[cid].rid) in HandleWest(w, m, now, listening).east
  {
    hide Happens, ClosedConn;
    match m
    case SocketDone(c, s) => HappensCloses(w, c, Connection.GotSocket(s), cid);
    case ConnectDone(c, ok) => HappensCloses(w, c, Connection.GotConnected(if ok then 0 else 1, now), cid);
    case Accepted(c, s) => HappensCloses(w, c, Connection.GotAccepted(s), cid);
    case CloseWest(_) => ConnectionClosed(w, m, now, listening);
    case DataWest(_, _, _) =>
    case AcceptCall(_) =>
  }

  lemma ConnectionLeaves(w: World, a: Action, cid: Id)
    requires cid in w.conns && w.conns[cid].rid != 0 && cid !in Step(w, a).conns
    requires !(Enabled(w, a) && a.DeliverWest? && w.west[0] == CloseWest(cid))
    ensures CloseEast(cid, w.conns[cid].rid) in Step(w, a).east
  {
    if Enabled(w, a) {
      if a.DeliverEast? {
        EastHandled(w.(east := w.east[1..]), w.east[0], a.sid, a.to, a.ok);
        hide HandleEast;
      } else if a.DeliverWest? {
        hide HandleWest;
        DeliveryCloses(w.(west := w.west[1..]), w.west[0], a.now, a.listening, cid);
      } else {
        hide Happens, Dropped, Connection.New, Connection.Start, Wire;
        if a.RemoveConn? {
          DroppedGone(w, a.cid);
          DroppedCloses(w, a.cid);
        } else if a.Callback? {
          HappensCloses(w, a.cid, a.e, cid);
        }
      }
    }
  }

  lemma DeliveredLeaves(w: World, m: East, made: Id, to: Addr, ok: bool, sid: Id)
    requires sid in w.sockets && sid !in HandleEast(w, m, made, to, ok).sockets
    ensures m.CloseEast? && m.sid == sid
  {
    if !m.CloseEast? {
      SocketsStay(w, m, made, to, ok);
    } else {
      SocketClosed(w, m, made, to, ok);
    }
    hide HandleEast;
  }

  lemma SocketsStay(w: World, m: East, made: Id, to: Addr, ok: bool)
    requires !m.CloseEast?
    ensures forall sid :: sid in w.sockets ==> sid in HandleEast(w, m, made, to, ok).sockets
  {
  }

  lemma SocketLeaves(w: World, a: Action, sid: Id)
    requires Kinds(w) && sid in w.sockets && sid !in Step(w, a).sockets
    requires !(Enabled(w, a) && a.DeliverEast? && w.east[0].CloseEast? && w.east[0].sid == sid)
    ensures CloseWest(w.sockets[sid].rid) in Step(w, a).west
  {
    SocketKnown(w, sid);
    hide Kinds;
    if Enabled(w, a) {
      if a.DeliverEast? {
        hide HandleEast;
        DeliveredLeaves(w.(east := w.east[1..]), w.east[0], a.sid, a.to, a.ok, sid);
      } else if a.DeliverWest? {
        WestSide(w.(west := w.west[1..]), w.west[0], a.now, a.listening);
        hide HandleWest;
      } else {
        hide Happens, Dropped, Connection.New, Connection.Start, Wire;
        match a
        case Callback(c, e) => HappensIs(w, c, e);
        case RemoveConn(c) => DroppedIs(w, c);
        case RemoveSocket(s) =>
          var m := CloseWest(w.sockets[s].rid);
          assert Step(w, a).west == w.west + [m];
          assert m in Step(w, a).west;
        case _ =>
      }
    }
  }

  lemma SocketKnown(w: World, sid: Id)
    requires Kinds(w) && sid in w.sockets
    ensures w.sockets[sid].rid != 0
  {
    KindsParts(w);
    assert Made(w.madeFor, sid, w.sockets[sid].rid);
  }

  /** Whatever makes an end of a link go, except the CLOSE of the other end, it says so: the
      CLOSE is on the channel after that step. */
  lemma WhoLeavesCloses(actions: seq<Action>, a: Action, id: Id)
    ensures var w := Run(actions);
            var u := Step(w, a);
            && (id in w.conns && w.conns[id].rid != 0 && id !in u.conns
                && !(Enabled(w, a) && a.DeliverWest? && w.west[0] == CloseWest(id)) ==>
                  CloseEast(id, w.conns[id].rid) in u.east)
            && (id in w.sockets && id !in u.sockets
                && !(Enabled(w, a) && a.DeliverEast? && w.east[0].CloseEast? && w.east[0].sid == id) ==>
                  CloseWest(w.sockets[id].rid) in u.west)
  {
    RunsKeep(actions);
    var w := Run(actions);
    hide Run, Step, Kinds, Once, Order, Slots;
    if id in w.conns && w.conns[id].rid != 0 && id !in Step(w, a).conns
       && !(Enabled(w, a) && a.DeliverWest? && w.west[0] == CloseWest(id)) {
      ConnectionLeaves(w, a, id);
    }
    if id in w.sockets && id !in Step(w, a).sockets
       && !(Enabled(w, a) && a.DeliverEast? && w.east[0].CloseEast? && w.east[0].sid == id) {
      SocketLeaves(w, a, id);
    }
  }
}

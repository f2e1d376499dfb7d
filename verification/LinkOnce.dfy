/** What happens at most once to a link: its counterpart is decided once, each side
    closes the other once, and a completed ACCEPT is answered once. */
module LinkOnce {
  import opened Base
  import opened Link
  import opened LinkKinds
  import Connection

  predicate Asks(m: East, cid: Id) {
    (m.SocketCall? || m.AcceptOk?) && m.cid == cid
  }

  /** How many messages on their way ask for a counterpart of connection cid. */
  function Asking(east: seq<East>, cid: Id): nat {
    if east == [] then 0 else Asking(Front(east), cid) + if Asks(Last(east), cid) then 1 else 0
  }

  predicate AskedOnce(w: World, cid: Id) {
    Asking(w.east, cid) <= 1 && (Asking(w.east, cid) == 1 ==> cid in w.connAddr && cid !in w.claimed)
  }

  /** No two sockets are made for the same connection. */
  predicate Claims(w: World) {
    && (forall sid :: sid in w.madeFor ==> w.madeFor[sid] in w.claimed)
    && (forall cid :: cid in w.claimed ==> cid in w.connAddr)
    && (forall s, t :: s in w.madeFor && t in w.madeFor && w.madeFor[s] == w.madeFor[t] ==> s == t)
  }

  predicate ClosedEast(w: World, sid: Id) {
    w.closesEast[sid] <= 1 && (w.closesEast[sid] == 1 ==> sid in w.madeFor && w.madeFor[sid] !in w.conns)
  }

  predicate ClosedWest(w: World, cid: Id) {
    && w.closesWest[cid] <= 1
    && (w.closesWest[cid] == 1 ==> cid in w.claimed && forall s :: s in w.sockets ==> w.sockets[s].rid != cid)
  }

  predicate AnsweredOnce(w: World, cid: Id) {
    && w.accepted[cid] <= w.completed[cid] <= 1
    && (w.completed[cid] == 1 ==> cid in w.claimed)
    && (w.completed[cid] == 1 && w.accepted[cid] == 0 ==> w.closesWest[cid] == 1)
  }

  ghost predicate Asked(w: World) {
    forall cid :: AskedOnce(w, cid)
  }

  ghost predicate ClosesEastOk(w: World) {
    forall sid :: ClosedEast(w, sid)
  }

  ghost predicate ClosesWestOk(w: World) {
    forall cid :: ClosedWest(w, cid)
  }

  ghost predicate Answered(w: World) {
    forall cid :: AnsweredOnce(w, cid)
  }

  ghost predicate Once(w: World) {
    Asked(w) && Claims(w) && ClosesEastOk(w) && ClosesWestOk(w) && Answered(w)
  }

  // ---------- Counting ----------

  lemma {:induction false} AskingConcat(a: seq<East>, b: seq<East>, cid: Id)
    ensures Asking(a + b, cid) == Asking(a, cid) + Asking(b, cid)
  {
    if b == [] {
      assert a + b == a;
    } else {
      AskingConcat(a, Front(b), cid);
      assert Front(a + b) == a + Front(b);
    }
  }

  lemma AskingHead(east: seq<East>, cid: Id)
    requires east != []
    ensures Asking(east, cid) == (if Asks(east[0], cid) then 1 else 0) + Asking(east[1..], cid)
  {
    assert east == [east[0]] + east[1..];
    AskingConcat([east[0]], east[1..], cid);
    AskingOne(east[0], cid);
  }

  lemma AskingOne(m: East, cid: Id)
    ensures Asking([m], cid) == if Asks(m, cid) then 1 else 0
  {
    assert Front([m]) == [];
  }

  lemma {:induction false} NotAsking(east: seq<East>, cid: Id)
    requires forall i :: 0 <= i < |east| ==> !Asks(east[i], cid)
    ensures Asking(east, cid) == 0
  {
    if east != [] {
      NotAsking(Front(east), cid);
    }
  }

  lemma {:induction false} NoCloses(calls: seq<Connection.Call>)
    requires forall i :: 0 <= i < |calls| ==> !calls[i].Close?
    ensures Closes(calls) == multiset{}
  {
    if calls != [] {
      NoCloses(Front(calls));
    }
  }

  lemma OneClose(sid: Id)
    ensures Closes([Connection.Close(sid)]) == multiset{sid}
  {
    assert Front([Connection.Close(sid)]) == [];
  }

  // Messages that ask for nothing do not change what has been asked for.
  lemma SentEast(w: World, u: World, more: seq<East>)
    requires Asked(w) && u.east == w.east + more && u.claimed == w.claimed && u.connAddr == w.connAddr
    requires forall i, cid :: 0 <= i < |more| ==> !Asks(more[i], cid)
    ensures Asked(u)
  {
    hide Asking;
    forall cid
      ensures AskedOnce(u, cid)
    {
      assert AskedOnce(w, cid);
      AskingConcat(w.east, more, cid);
      NotAsking(more, cid);
    }
  }

  // ---------- Callbacks and removal ----------

  lemma DroppedCloses(w: World, cid: Id)
    requires ClosesEastOk(w) && ConnsOk(w) && cid in w.conns
    ensures ClosesEastOk(Dropped(w, cid))
  {
    var c, u := w.conns[cid], Dropped(w, cid);
    DisposeShape(c);
    assert ConnOk(w.connAddr, w.madeFor, cid, c);
    if c.rid != 0 {
      OneClose(c.rid);
      assert ClosedEast(w, c.rid);
    }
    hide Closes, Connection.Dispose, ConnOk;
    forall sid
      ensures ClosedEast(u, sid)
    {
      assert ClosedEast(w, sid);
    }
  }

  lemma DroppedOnce(w: World, cid: Id)
    requires Once(w) && ConnsOk(w) && cid in w.conns
    ensures Once(Dropped(w, cid))
  {
    var c, u := w.conns[cid], Dropped(w, cid);
    DroppedCloses(w, cid);
    DisposeShape(c);
    hide Connection.Dispose, ClosesEastOk, Closes, ConnsOk;
    SentEast(w, u, Wire(cid, Connection.Dispose(c).calls));
    SameWest(w, u);
  }

  // Nothing about the socket side changes.
  lemma SameWest(w: World, u: World)
    requires Claims(w) && ClosesWestOk(w) && Answered(w)
    requires u.madeFor == w.madeFor && u.claimed == w.claimed && u.connAddr == w.connAddr
    requires u.closesWest == w.closesWest && u.sockets == w.sockets
    requires u.completed == w.completed && u.accepted == w.accepted
    ensures Claims(u) && ClosesWestOk(u) && Answered(u)
  {
    forall cid
      ensures ClosedWest(u, cid) && AnsweredOnce(u, cid)
    {
      assert ClosedWest(w, cid) && AnsweredOnce(w, cid);
    }
  }

  lemma SameCloses(w: World, u: World)
    requires ClosesEastOk(w) && u.closesEast == w.closesEast && u.conns.Keys <= w.conns.Keys
    requires Extends(w.madeFor, u.madeFor)
    ensures ClosesEastOk(u)
  {
    forall sid
      ensures ClosedEast(u, sid)
    {
      assert ClosedEast(w, sid);
    }
  }

  lemma HappensOnce(w: World, cid: Id, e: Connection.Event)
    requires Once(w) && Kinds(w) && (cid in w.conns ==> Fits(w, cid, e))
    ensures Once(Happens(w, cid, e))
  {
    if cid in w.conns {
      var c, o := w.conns[cid], Connection.Apply(w.conns[cid], e);
      assert ConnOk(w.connAddr, w.madeFor, cid, c);
      ApplyShape(c, e);
      EffectsConn(w, cid, e);
      NoCloses(o.calls);
      hide Connection.Apply, Closes, Dropped, Asked, ClosesEastOk, ClosesWestOk, Answered, Claims, ConnOk;
      var u := w.(conns := w.conns[cid := o.conn], east := w.east + Wire(cid, o.calls),
                  closesEast := w.closesEast + Closes(o.calls));
      assert u.closesEast == w.closesEast;
      SentEast(w, u, Wire(cid, o.calls));
      SameWest(w, u);
      SameCloses(w, u);
      if o.remove {
        DroppedOnce(u, cid);
      }
    }
  }

  // ---------- The socket side ----------

  lemma SocketGoneOnce(w: World, sid: Id)
    requires Once(w) && SocketsOk(w) && sid in w.sockets
    ensures Once(SocketGone(w, sid))
  {
    var u, rid := SocketGone(w, sid), w.sockets[sid].rid;
    assert Made(w.madeFor, sid, rid);
    assert ClosedWest(w, rid);
    forall cid
      ensures ClosedWest(u, cid) && AnsweredOnce(u, cid) && AskedOnce(u, cid)
    {
      assert ClosedWest(w, cid) && AnsweredOnce(w, cid) && AskedOnce(w, cid);
      assert cid == rid ==> forall s :: s in u.sockets ==> Made(w.madeFor, s, u.sockets[s].rid);
    }
    SameCloses(w, u);
  }

  // A message that asked for a counterpart of cid has just been taken from the channel.
  ghost predicate Taken(w: World, cid: Id) {
    && Claims(w) && ClosesEastOk(w) && ClosesWestOk(w) && Answered(w)
    && Asked(w) && Asking(w.east, cid) == 0 && cid in w.connAddr && cid !in w.claimed
  }

  lemma TakenIntro(w: World)
    requires Once(w) && w.east != []
    ensures Once(w.(east := w.east[1..]))
    ensures forall cid :: Asks(w.east[0], cid) ==> Taken(w.(east := w.east[1..]), cid)
  {
    var u := w.(east := w.east[1..]);
    SameWest(w, u);
    SameCloses(w, u);
    hide Asking;
    forall cid
      ensures AskedOnce(u, cid)
      ensures Asks(w.east[0], cid) ==> Asking(u.east, cid) == 0 && cid in w.connAddr && cid !in w.claimed
    {
      assert AskedOnce(w, cid);
      AskingHead(w.east, cid);
    }
  }

  lemma ClaimedAsked(w: World, u: World, cid: Id)
    requires Taken(w, cid) && u.east == w.east && u.connAddr == w.connAddr && u.claimed == w.claimed + {cid}
    ensures Asked(u)
  {
    hide Asking;
    forall c
      ensures AskedOnce(u, c)
    {
      assert AskedOnce(w, c);
    }
  }

  lemma SocketMadeOnce(w: World, sid: Id, cid: Id, to: Option<Addr>)
    requires Taken(w, cid) && SocketsOk(w) && sid !in w.madeFor
    ensures Once(SocketMade(w, sid, cid, to))
  {
    var u := SocketMade(w, sid, cid, to);
    ClaimedAsked(w, u, cid);
    SameCloses(w, u);
    hide Asking, ClosesEastOk, Asked;
    forall c
      ensures ClosedWest(u, c) && AnsweredOnce(u, c)
    {
      assert ClosedWest(w, c) && AnsweredOnce(w, c);
    }
  }

  // The request has been turned down: cid is claimed, but there is no socket for it.
  lemma RefusedOnce(w: World, u: World, cid: Id)
    requires Taken(w, cid) && SocketsOk(w)
    requires u.claimed == w.claimed + {cid} && u.closesWest == w.closesWest + multiset{cid}
    requires u.madeFor == w.madeFor && u.connAddr == w.connAddr && u.sockets == w.sockets && u.east == w.east
    requires u.conns == w.conns && u.closesEast == w.closesEast
    requires u.completed == w.completed && u.accepted == w.accepted
    ensures Once(u)
  {
    ClaimedAsked(w, u, cid);
    SameCloses(w, u);
    hide Asking, ClosesEastOk, Asked;
    assert ClosedWest(w, cid) && w.closesWest[cid] == 0;
    forall c
      ensures ClosedWest(u, c) && AnsweredOnce(u, c)
    {
      assert ClosedWest(w, c) && AnsweredOnce(w, c);
      assert forall s :: s in w.sockets ==> Made(w.madeFor, s, w.sockets[s].rid);
    }
  }

  lemma TurnedDown(w: World, u: World, cid: Id)
    requires Taken(w, cid)
    requires u.claimed == w.claimed + {cid} && u.closesWest == w.closesWest
    requires u.madeFor == w.madeFor && u.connAddr == w.connAddr && u.sockets == w.sockets && u.east == w.east
    requires u.conns == w.conns && u.closesEast == w.closesEast
    requires u.completed == w.completed && u.accepted == w.accepted
    ensures Once(u)
  {
    ClaimedAsked(w, u, cid);
    SameCloses(w, u);
    hide Asking, ClosesEastOk, Asked;
    forall c
      ensures ClosedWest(u, c) && AnsweredOnce(u, c)
    {
      assert ClosedWest(w, c) && AnsweredOnce(w, c);
    }
  }

  // One more completed ACCEPT, and one more answer to it.
  lemma AnsweredMore(w: World, u: World, cid: Id)
    requires Once(w) && cid in w.claimed && w.completed[cid] == 0
    requires u.completed == w.completed + multiset{cid}
    requires u.accepted == w.accepted + multiset{cid} || (u.accepted == w.accepted && w.closesWest[cid] == 1)
    requires u.claimed == w.claimed && u.madeFor == w.madeFor && u.connAddr == w.connAddr
    requires u.sockets == w.sockets && u.east == w.east && u.conns == w.conns
    requires u.closesEast == w.closesEast && u.closesWest == w.closesWest
    ensures Once(u)
  {
    SameCloses(w, u);
    hide ClosesEastOk, Asking;
    forall c
      ensures ClosedWest(u, c) && AnsweredOnce(u, c) && AskedOnce(u, c)
    {
      assert ClosedWest(w, c) && AnsweredOnce(w, c) && AskedOnce(w, c);
    }
  }

  lemma NotCompleted(w: World, cid: Id)
    requires Taken(w, cid)
    ensures w.completed[cid] == 0
  {
    assert AnsweredOnce(w, cid);
  }

  lemma NotClosed(w: World, cid: Id)
    requires Taken(w, cid)
    ensures w.closesWest[cid] == 0
  {
    assert ClosedWest(w, cid);
  }

  lemma AcceptOnce(w: World, t: Ticket, cid: Id, sid: Id, to: Addr, ok: bool)
    requires Taken(w, cid) && SocketsOk(w) && sid !in w.madeFor && Once(w)
    ensures Once(HandleEast(w, AcceptOk(t, cid), sid, to, ok))
  {
    var u := HandleEast(w, AcceptOk(t, cid), sid, to, ok);
    NotCompleted(w, cid);
    if t.fwd in w.fwds && t.slot in w.fwds[t.fwd] {
      if ok {
        SocketMadeOnce(w, sid, cid, Some(to));
        var v := SocketMade(w, sid, cid, Some(to));
        hide Once, Taken;
        AnsweredMore(v, u, cid);
      } else {
        var v := w.(claimed := w.claimed + {cid}, closesWest := w.closesWest + multiset{cid});
        RefusedOnce(w, v, cid);
        assert w.closesWest[cid] == 0 by { NotClosed(w, cid); }
        hide Once, Taken;
        AnsweredMore(v, u, cid);
      }
    }
  }

  // A step that touches none of what is counted here.
  lemma SameOnce(w: World, u: World)
    requires Once(w)
    requires u.east == w.east && u.claimed == w.claimed && u.madeFor == w.madeFor && u.connAddr == w.connAddr
    requires u.sockets.Keys <= w.sockets.Keys && forall s :: s in u.sockets ==> u.sockets[s].rid == w.sockets[s].rid
    requires u.conns.Keys <= w.conns.Keys
    requires u.closesEast == w.closesEast && u.closesWest == w.closesWest
    requires u.completed == w.completed && u.accepted == w.accepted
    ensures Once(u)
  {
    SameCloses(w, u);
    hide ClosesEastOk, Asking;
    forall c
      ensures ClosedWest(u, c) && AnsweredOnce(u, c) && AskedOnce(u, c)
    {
      assert ClosedWest(w, c) && AnsweredOnce(w, c) && AskedOnce(w, c);
    }
  }

  lemma SocketOnce(w: World, cid: Id, sid: Id, to: Addr, ok: bool)
    requires Taken(w, cid) && SocketsOk(w) && sid !in w.madeFor
    ensures Once(HandleEast(w, SocketCall(cid), sid, to, ok))
  {
    var u := HandleEast(w, SocketCall(cid), sid, to, ok);
    if ok {
      SocketMadeOnce(w, sid, cid, None);
      hide Once, Taken;
      SameOnce(SocketMade(w, sid, cid, None), u);
    } else {
      hide Once, Taken;
      TurnedDown(w, u, cid);
    }
  }

  lemma OtherOnce(w: World, m: East, sid: Id, to: Addr, ok: bool)
    requires Once(w) && !m.SocketCall? && !m.AcceptOk?
    ensures Once(HandleEast(w, m, sid, to, ok))
  {
    hide Once;
    OtherShape(w, m, sid, to, ok);
    hide HandleEast;
    SameOnce(w, HandleEast(w, m, sid, to, ok));
  }

  // What a message that asks for no socket can change.
  predicate Unasked(w: World, u: World) {
    && u == w.(sockets := u.sockets, west := u.west, forwarded := u.forwarded, dropped := u.dropped, fwds := u.fwds)
    && u.sockets.Keys <= w.sockets.Keys
    && forall s :: s in u.sockets ==> u.sockets[s].rid == w.sockets[s].rid
  }

  lemma ConnectShape(w: World, m: East, sid: Id, to: Addr, ok: bool)
    requires m.ConnectCall?
    ensures Unasked(w, HandleEast(w, m, sid, to, ok))
  {
  }

  lemma DataShape(w: World, m: East, sid: Id, to: Addr, ok: bool)
    requires m.DataEast? || m.AcceptBad?
    ensures Unasked(w, HandleEast(w, m, sid, to, ok))
  {
  }

  lemma OtherShape(w: World, m: East, sid: Id, to: Addr, ok: bool)
    requires !m.SocketCall? && !m.AcceptOk?
    ensures Unasked(w, HandleEast(w, m, sid, to, ok))
  {
    hide HandleEast;
    if m.CloseEast? {
      SocketClosed(w, m, sid, to, ok);
    } else if m.ConnectCall? {
      ConnectShape(w, m, sid, to, ok);
    } else {
      DataShape(w, m, sid, to, ok);
    }
  }

  lemma HandleEastOnce(w: World, m: East, sid: Id, to: Addr, ok: bool)
    requires Once(w) && SocketsOk(w) && sid !in w.madeFor
    requires forall cid :: Asks(m, cid) ==> Taken(w, cid)
    ensures Once(HandleEast(w, m, sid, to, ok))
  {
    hide Once, Taken, SocketsOk, HandleEast;
    if m.SocketCall? {
      assert Asks(m, m.cid);
      SocketOnce(w, m.cid, sid, to, ok);
    } else if m.AcceptOk? {
      assert Asks(m, m.cid);
      AcceptOnce(w, m.ticket, m.cid, sid, to, ok);
    } else {
      OtherOnce(w, m, sid, to, ok);
    }
  }

  lemma HandleWestOnce(w: World, m: West, now: int, listening: bool)
    requires Once(w) && Kinds(w) && WestOk(w.connAddr, w.madeFor, m)
    ensures Once(HandleWest(w, m, now, listening))
  {
    match m
    case SocketDone(cid, sid) => hide Once, Kinds; HappensOnce(w, cid, Connection.GotSocket(sid));
    case ConnectDone(cid, ok) =>
      hide Once, Kinds;
      HappensOnce(w, cid, Connection.GotConnected(if ok then 0 else 1, now));
    case Accepted(cid, sid) => hide Once, Kinds; HappensOnce(w, cid, Connection.GotAccepted(sid));
    case AcceptCall(t) =>
      if listening {
        hide Once, Kinds;
        SameOnce(w, HandleWest(w, m, now, listening));
      } else {
        var u := w.(east := w.east + [AcceptBad(t)]);
        SentEast(w, u, [AcceptBad(t)]);
        hide Asked, Kinds;
        SameWest(w, u);
        SameCloses(w, u);
      }
    case CloseWest(_) =>
      ConnectionClosed(w, m, now, listening);
      hide Once, Kinds, HandleWest;
      SameOnce(w, HandleWest(w, m, now, listening));
    case DataWest(_, _, _) =>
      hide Once, Kinds;
      SameOnce(w, HandleWest(w, m, now, listening));
  }

  lemma OpenedOnce(w: World, u: World, cid: Id, addr: Addr, m: East)
    requires Once(w) && Kinds(w) && cid !in w.connAddr && Asks(m, cid)
    requires u.east == w.east + [m] && u.conns.Keys == w.conns.Keys + {cid}
    requires u.connAddr == w.connAddr[cid := addr]
    requires u.claimed == w.claimed && u.madeFor == w.madeFor && u.sockets == w.sockets
    requires u.closesEast == w.closesEast && u.closesWest == w.closesWest
    requires u.completed == w.completed && u.accepted == w.accepted
    ensures Once(u)
  {
    assert SocketsOk(w);
    hide Kinds, Asking;
    forall c
      ensures ClosedWest(u, c) && AnsweredOnce(u, c) && AskedOnce(u, c) && ClosedEast(u, c)
    {
      assert ClosedWest(w, c) && AnsweredOnce(w, c) && AskedOnce(w, c) && ClosedEast(w, c);
      AskingConcat(w.east, [m], c);
      AskingOne(m, c);
    }
  }

  lemma DeliveredOnce(w: World, a: Action)
    requires Once(w) && Kinds(w) && Enabled(w, a) && (a.DeliverEast? || a.DeliverWest?)
    ensures Once(Step(w, a))
  {
    hide HandleEast, HandleWest, Happens, Dropped, SocketGone;
    match a
    case DeliverEast(sid, to, ok) =>
      KindsParts(w);
      TakenIntro(w);
      hide Once, Kinds, Taken;
      HandleEastOnce(w.(east := w.east[1..]), w.east[0], sid, to, ok);
    case DeliverWest(now, listening) =>
      PopWest(w);
      hide Once, Kinds;
      SameOnce(w, w.(west := w.west[1..]));
      HandleWestOnce(w.(west := w.west[1..]), w.west[0], now, listening);
  }

  lemma OpeningOnce(w: World, a: Action)
    requires Once(w) && Kinds(w) && Enabled(w, a) && (a.OpenLocal? || a.OpenRemote?)
    ensures Once(Step(w, a))
  {
    hide Once, Kinds;
    match a
    case OpenLocal(cid, addr, to, timeout, packet, now) =>
      var o := Connection.Start(Connection.New(cid, addr, true, to, timeout, [packet], now));
      assert Wire(cid, o.calls) == [SocketCall(cid)];
      OpenedOnce(w, Step(w, a), cid, addr, SocketCall(cid));
    case OpenRemote(cid, i, addr, timeout, packets, now) =>
      OpenedOnce(w, Step(w, a), cid, addr, AcceptOk(w.waiting[i], cid));
  }

  lemma LocalOnce(w: World, a: Action)
    requires Once(w) && Kinds(w) && Enabled(w, a) && !a.DeliverEast? && !a.DeliverWest?
    requires !a.OpenLocal? && !a.OpenRemote?
    ensures Once(Step(w, a))
  {
    KindsParts(w);
    hide Once, Kinds, Happens, Dropped, SocketGone;
    match a
    case Callback(cid, e) => HappensOnce(w, cid, e);
    case RemoveConn(cid) => DroppedOnce(w, cid);
    case RemoveSocket(sid) => SocketGoneOnce(w, sid);
    case _ => SameOnce(w, Step(w, a));
  }

  lemma OnceStep(w: World, a: Action)
    requires Once(w) && Kinds(w)
    ensures Once(Step(w, a))
  {
    if Enabled(w, a) {
      hide Step, Once, Kinds;
      if a.DeliverEast? || a.DeliverWest? {
        DeliveredOnce(w, a);
      } else if a.OpenLocal? || a.OpenRemote? {
        OpeningOnce(w, a);
      } else {
        LocalOnce(w, a);
      }
    }
  }
}

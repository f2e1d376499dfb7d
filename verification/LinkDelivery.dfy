/** Order from end to end: what a socket has passed on to the network, and what is still
    under way to it, is in order what its connection has sent, and this is what the
    connection was given, in the order of module Connection. */
module LinkDelivery {
  import opened Base
  import opened Link
  import opened LinkCounts
  import opened LinkKinds
  import opened LinkOnce
  import opened LinkOrder
  import opened LinkRuns
  import Connection

  /** The packets that the socket has passed on. */
  function Passed(log: seq<Forwarded>, sid: Id): seq<Packet> {
    if log == [] then []
    else Passed(Front(log), sid) + if Last(log).sid == sid then [Last(log).packet] else []
  }

  /** The packets of the DATA requests for the socket. */
  function Carried(east: seq<East>, sid: Id): seq<Packet> {
    if east == [] then []
    else Carried(Front(east), sid)
         + if Last(east).DataEast? && Last(east).sid == sid then [Last(east).packet] else []
  }

  lemma {:induction false} CarriedConcat(a: seq<East>, b: seq<East>, sid: Id)
    ensures Carried(a + b, sid) == Carried(a, sid) + Carried(b, sid)
  {
    if b == [] {
      assert a + b == a;
    } else {
      CarriedConcat(a, Front(b), sid);
      assert Front(a + b) == a + Front(b) && Last(a + b) == Last(b);
    }
  }

  lemma CarriedHead(east: seq<East>, sid: Id)
    requires east != []
    ensures Carried(east, sid)
            == (if east[0].DataEast? && east[0].sid == sid then [east[0].packet] else []) + Carried(east[1..], sid)
  {
    assert east == [east[0]] + east[1..];
    CarriedConcat([east[0]], east[1..], sid);
    assert Front([east[0]]) == [];
  }

  lemma PassedSnoc(log: seq<Forwarded>, x: Forwarded, sid: Id)
    ensures Passed(log + [x], sid) == Passed(log, sid) + if x.sid == sid then [x.packet] else []
  {
    assert Front(log + [x]) == log;
  }

  // Nothing is carried to, or passed on by, a socket that has not been made.
  lemma {:induction false} NoneCarried(connAddr: map<Id, Addr>, madeFor: map<Id, Id>, east: seq<East>, sid: Id)
    requires AllEast(connAddr, madeFor, east) && sid !in madeFor
    ensures Carried(east, sid) == []
  {
    if east != [] {
      assert EastOk(connAddr, madeFor, east[|east| - 1]);
      hide EastOk;
      NoneCarried(connAddr, madeFor, Front(east), sid);
    }
  }

  lemma {:induction false} NonePassed(madeFor: map<Id, Id>, log: seq<Forwarded>, sid: Id)
    requires forall i :: 0 <= i < |log| ==> Made(madeFor, log[i].sid, log[i].cid)
    requires sid !in madeFor
    ensures Passed(log, sid) == []
  {
    if log != [] {
      assert Made(madeFor, log[|log| - 1].sid, log[|log| - 1].cid);
      NonePassed(madeFor, Front(log), sid);
    }
  }

  // ---------- What a step changes ----------

  lemma DroppedIs(w: World, cid: Id)
    requires cid in w.conns
    ensures var u := Dropped(w, cid); u == w.(conns := u.conns, east := u.east, closesEast := u.closesEast)
  {
    hide Connection.Dispose, Wire, Closes;
  }

  lemma HappensIs(w: World, cid: Id, e: Connection.Event)
    ensures var u := Happens(w, cid, e); u == w.(conns := u.conns, east := u.east, closesEast := u.closesEast)
  {
    if cid in w.conns {
      var o := Connection.Apply(w.conns[cid], e);
      hide Connection.Apply, Wire, Closes, Dropped;
      if o.remove {
        DroppedIs(w.(conns := w.conns[cid := o.conn], east := w.east + Wire(cid, o.calls),
                     closesEast := w.closesEast + Closes(o.calls)), cid);
      }
    }
  }

  // The connection side alone is changed, and messages for the other side are added.
  predicate EastSide(w: World, u: World) {
    && u.connAddr == w.connAddr && u.madeFor == w.madeFor && u.sockets == w.sockets && u.forwarded == w.forwarded
  }

  lemma WestSide(w: World, m: West, now: int, listening: bool)
    ensures EastSide(w, HandleWest(w, m, now, listening))
  {
    hide Happens, ClosedConn, Connection.Reply;
    match m
    case SocketDone(cid, sid) => HappensIs(w, cid, Connection.GotSocket(sid));
    case ConnectDone(cid, ok) => HappensIs(w, cid, Connection.GotConnected(if ok then 0 else 1, now));
    case Accepted(cid, sid) => HappensIs(w, cid, Connection.GotAccepted(sid));
    case CloseWest(_) => ConnectionClosed(w, m, now, listening);
    case DataWest(_, _, _) =>
    case AcceptCall(_) =>
  }

  // What the delivery of a message passes on to the network.
  function PassedOn(w: World, m: East): seq<Forwarded> {
    if m.DataEast? && m.sid in w.sockets && w.sockets[m.sid].to.Some?
    then [Forwarded(m.sid, w.sockets[m.sid].to.value, m.packet, m.cid)] else []
  }

  // A delivery on the socket side: at most one socket is made, with the fresh id.
  predicate SocketSide(w: World, u: World, m: East, sid: Id) {
    && u.conns == w.conns && u.connAddr == w.connAddr && u.east == w.east
    && Extends(w.madeFor, u.madeFor) && u.sockets.Keys <= w.sockets.Keys + {sid}
    && u.forwarded == w.forwarded + PassedOn(w, m)
  }

  lemma AskHandled(w: World, cid: Id, sid: Id, to: Addr, ok: bool)
    requires sid !in w.madeFor
    ensures SocketSide(w, HandleEast(w, SocketCall(cid), sid, to, ok), SocketCall(cid), sid)
  {
    assert w.forwarded + [] == w.forwarded;
    hide SocketGone;
  }

  lemma AnswerHandled(w: World, t: Ticket, cid: Id, sid: Id, to: Addr, ok: bool)
    requires sid !in w.madeFor
    ensures SocketSide(w, HandleEast(w, AcceptOk(t, cid), sid, to, ok), AcceptOk(t, cid), sid)
  {
    var u := HandleEast(w, AcceptOk(t, cid), sid, to, ok);
    assert w.forwarded + [] == w.forwarded;
    assert u == w.(sockets := u.sockets, madeFor := u.madeFor, west := u.west, completed := u.completed,
                   accepted := u.accepted, claimed := u.claimed, closesWest := u.closesWest);
    AnswerMakes(w, t, cid, sid, to, ok);
    hide HandleEast;
  }

  lemma AnswerMakes(w: World, t: Ticket, cid: Id, sid: Id, to: Addr, ok: bool)
    requires sid !in w.madeFor
    ensures var u := HandleEast(w, AcceptOk(t, cid), sid, to, ok);
            Extends(w.madeFor, u.madeFor) && u.sockets.Keys <= w.sockets.Keys + {sid}
  {
  }

  lemma DataPassed(w: World, m: East, sid: Id, to: Addr, ok: bool)
    requires m.DataEast?
    ensures SocketSide(w, HandleEast(w, m, sid, to, ok), m, sid)
  {
    var u := HandleEast(w, m, sid, to, ok);
    assert w.forwarded + [] == w.forwarded;
    assert u == w.(forwarded := u.forwarded, dropped := u.dropped);
    assert u.forwarded == w.forwarded + PassedOn(w, m);
    hide HandleEast, PassedOn;
  }

  lemma FailurePassed(w: World, m: East, sid: Id, to: Addr, ok: bool)
    requires m.AcceptBad?
    ensures SocketSide(w, HandleEast(w, m, sid, to, ok), m, sid)
  {
    var u := HandleEast(w, m, sid, to, ok);
    assert w.forwarded + [] == w.forwarded;
    assert u == w.(fwds := u.fwds);
    hide HandleEast;
  }

  lemma ConnectPassed(w: World, m: East, sid: Id, to: Addr, ok: bool)
    requires m.ConnectCall?
    ensures SocketSide(w, HandleEast(w, m, sid, to, ok), m, sid)
  {
    assert w.forwarded + [] == w.forwarded;
    hide SocketGone;
  }

  lemma EastHandled(w: World, m: East, sid: Id, to: Addr, ok: bool)
    requires sid !in w.madeFor
    ensures SocketSide(w, HandleEast(w, m, sid, to, ok), m, sid)
  {
    hide HandleEast;
    match m
    case SocketCall(cid) => AskHandled(w, cid, sid, to, ok);
    case AcceptOk(t, cid) => AnswerHandled(w, t, cid, sid, to, ok);
    case ConnectCall(_, _, _) => ConnectPassed(w, m, sid, to, ok);
    case CloseEast(_, _) => SocketClosed(w, m, sid, to, ok); assert w.forwarded + [] == w.forwarded;
    case DataEast(_, _, _, _) => DataPassed(w, m, sid, to, ok);
    case AcceptBad(_) => FailurePassed(w, m, sid, to, ok);
  }

  lemma LocalIs(w: World, a: Action)
    requires Enabled(w, a) && !a.DeliverEast? && !a.DeliverWest?
    ensures var u := Step(w, a);
            && u.madeFor == w.madeFor && u.sockets.Keys <= w.sockets.Keys && u.forwarded == w.forwarded
            && Extends(w.connAddr, u.connAddr)
  {
    hide Happens, Dropped, Wire, Closes, Connection.Start;
    match a
    case Callback(cid, e) => HappensIs(w, cid, e);
    case RemoveConn(cid) => DroppedIs(w, cid);
    case _ =>
  }

  /** What a step does to the sockets and to what they have passed on. */
  predicate Moves(w: World, a: Action) {
    var u := Step(w, a);
    && Extends(w.connAddr, u.connAddr) && Extends(w.madeFor, u.madeFor)
    && (forall sid :: sid in u.sockets && sid !in w.sockets ==> sid !in w.madeFor)
    && u.forwarded == w.forwarded + if Enabled(w, a) && a.DeliverEast? then PassedOn(w, w.east[0]) else []
  }

  lemma EastMoves(w: World, a: Action)
    requires Enabled(w, a) && a.DeliverEast?
    ensures Moves(w, a)
  {
    var v := w.(east := w.east[1..]);
    hide HandleEast;
    EastHandled(v, w.east[0], a.sid, a.to, a.ok);
    assert PassedOn(v, w.east[0]) == PassedOn(w, w.east[0]);
    hide PassedOn;
    assert Step(w, a) == HandleEast(v, w.east[0], a.sid, a.to, a.ok);
  }

  lemma WestMoves(w: World, a: Action)
    requires Enabled(w, a) && a.DeliverWest?
    ensures Moves(w, a)
  {
    hide HandleWest;
    WestSide(w.(west := w.west[1..]), w.west[0], a.now, a.listening);
    assert w.forwarded + [] == w.forwarded;
  }

  lemma StepMoves(w: World, a: Action)
    ensures Moves(w, a)
  {
    assert w.forwarded + [] == w.forwarded;
    if Enabled(w, a) {
      if a.DeliverEast? {
        EastMoves(w, a);
      } else if a.DeliverWest? {
        WestMoves(w, a);
      } else {
        LocalIs(w, a);
        hide Step;
      }
    }
  }

  // ---------- Every message of a run ----------

  /** Every message that the connection side has ever sent names what was made for each
      other. */
  lemma {:induction false} LogKinds(actions: seq<Action>)
    ensures var w := Run(actions); AllEast(w.connAddr, w.madeFor, EastLog(actions))
  {
    if actions != [] {
      var w, a, before := Run(Front(actions)), Last(actions), EastLog(Front(actions));
      var u := Step(w, a);
      LogKinds(Front(actions));
      RunsKeep(actions);
      assert Kinds(u);
      KindsParts(u);
      StepMoves(w, a);
      StepSends(w, a, 0);
      hide *;
      MovesKeep(w, a);
      LaterEast(w, u, before);
      TailEast(u.connAddr, u.madeFor, RestEast(w, a), NewEast(w, a));
      EastConcat(u.connAddr, u.madeFor, before, NewEast(w, a));
      LogSnoc(actions);
      RunStep(actions);
    }
  }

  lemma MovesKeep(w: World, a: Action)
    requires Moves(w, a)
    ensures Extends(w.connAddr, Step(w, a).connAddr) && Extends(w.madeFor, Step(w, a).madeFor)
  {
    hide Step;
  }

  lemma LaterEast(w: World, u: World, east: seq<East>)
    requires AllEast(w.connAddr, w.madeFor, east) && Extends(w.connAddr, u.connAddr) && Extends(w.madeFor, u.madeFor)
    ensures AllEast(u.connAddr, u.madeFor, east)
  {
    Grows(w.connAddr, w.madeFor, u.connAddr, u.madeFor, east, []);
  }

  lemma TailEast(connAddr: map<Id, Addr>, madeFor: map<Id, Id>, a: seq<East>, b: seq<East>)
    requires AllEast(connAddr, madeFor, a + b)
    ensures AllEast(connAddr, madeFor, b)
  {
    hide EastOk;
    forall i | 0 <= i < |b|
      ensures EastOk(connAddr, madeFor, b[i])
    {
      assert (a + b)[|a| + i] == b[i];
    }
  }

  lemma LogSnoc(actions: seq<Action>)
    requires actions != []
    ensures EastLog(actions) == EastLog(Front(actions)) + NewEast(Run(Front(actions)), Last(actions))
  {
  }

  lemma RunStep(actions: seq<Action>)
    requires actions != []
    ensures Run(actions) == Step(Run(Front(actions)), Last(actions))
  {
    hide Step;
  }

  // ---------- First in, first out ----------

  predicate InOrder(w: World, log: seq<East>, sid: Id) {
    sid in w.sockets ==> Passed(w.forwarded, sid) + Carried(w.east, sid) == Carried(log, sid)
  }

  // The socket has been there before.
  lemma OldSocket(w: World, a: Action, log: seq<East>, sid: Id)
    requires InOrder(w, log, sid) && Order(w) && Moves(w, a) && sid in w.sockets
    requires Step(w, a).east == RestEast(w, a) + NewEast(w, a)
    ensures var u := Step(w, a);
            Passed(u.forwarded, sid) + Carried(u.east, sid) == Carried(log + NewEast(w, a), sid)
  {
    var u, rest, more := Step(w, a), RestEast(w, a), NewEast(w, a);
    CarriedConcat(rest, more, sid);
    CarriedConcat(log, more, sid);
    hide Step, NewEast, Order, Extends, Carried, Passed;
    if Enabled(w, a) && a.DeliverEast? {
      var m := w.east[0];
      CarriedHead(w.east, sid);
      if m.DataEast? && m.sid in w.sockets {
        assert Ready(w.sockets, m.sid) by { OrderedHead(w); }
        PassedSnoc(w.forwarded, PassedOn(w, m)[0], sid);
        hide Enabled;
        Shift(Passed(w.forwarded, sid), if m.sid == sid then [m.packet] else [], Carried(rest, sid));
      } else {
        assert u.forwarded == w.forwarded;
        hide Enabled;
        Shift(Passed(w.forwarded, sid), [], Carried(rest, sid));
      }
    } else {
      assert u.forwarded == w.forwarded;
    }
    assert Passed(u.forwarded, sid) + Carried(rest, sid) == Carried(log, sid);
    Shift(Passed(u.forwarded, sid), Carried(rest, sid), Carried(more, sid));
  }

  lemma OrderedHead(w: World)
    requires Order(w) && w.east != [] && w.east[0].DataEast?
    ensures Ready(w.sockets, w.east[0].sid)
  {
    HeadReady(w);
  }

  lemma Shift<T>(a: seq<T>, b: seq<T>, c: seq<T>)
    ensures a + (b + c) == a + b + c && a + [] == a && [] + a == a && [] + c == c
  {
  }

  // The socket is made by the step: nothing has been sent to it.
  lemma NewSocket(w: World, a: Action, log: seq<East>, sid: Id)
    requires AllEast(w.connAddr, w.madeFor, log) && Kinds(w) && Moves(w, a) && sid !in w.madeFor
    requires Step(w, a).east == RestEast(w, a) + NewEast(w, a)
    ensures var u := Step(w, a);
            Passed(u.forwarded, sid) + Carried(u.east, sid) == Carried(log + NewEast(w, a), sid)
  {
    var rest, more := RestEast(w, a), NewEast(w, a);
    NothingYet(w, log, sid);
    StillNothing(w, a, sid);
    CarriedConcat(rest, more, sid);
    CarriedConcat(log, more, sid);
    hide *;
    Shift([], [], Carried(more, sid));
  }

  lemma StillNothing(w: World, a: Action, sid: Id)
    requires Moves(w, a) && Carried(w.east, sid) == [] && Passed(w.forwarded, sid) == [] && sid !in w.sockets
    ensures Carried(RestEast(w, a), sid) == [] && Passed(Step(w, a).forwarded, sid) == []
  {
    hide Step, Extends, Carried, Passed;
    if Enabled(w, a) && a.DeliverEast? {
      CarriedHead(w.east, sid);
      hide Enabled;
      if PassedOn(w, w.east[0]) != [] {
        PassedSnoc(w.forwarded, PassedOn(w, w.east[0])[0], sid);
      }
    }
    Shift(w.forwarded, [], []);
  }

  lemma NothingYet(w: World, log: seq<East>, sid: Id)
    requires AllEast(w.connAddr, w.madeFor, log) && Kinds(w) && sid !in w.madeFor
    ensures Carried(log, sid) == [] && Carried(w.east, sid) == [] && Passed(w.forwarded, sid) == []
  {
    KindsParts(w);
    hide Kinds, ConnsOk, SocketsOk, AllEast, AllWest;
    NoneCarried(w.connAddr, w.madeFor, log, sid);
    NoneCarried(w.connAddr, w.madeFor, w.east, sid);
    NonePassed(w.madeFor, w.forwarded, sid);
  }

  lemma CameNew(w: World, a: Action, sid: Id)
    requires Moves(w, a) && sid in Step(w, a).sockets && sid !in w.sockets
    ensures sid !in w.madeFor
  {
    hide Step, Extends;
  }

  /** Over every run: what a live socket has passed on, followed by what is under way to it,
      is all that has been sent to it, in the same order. */
  lemma {:induction false} FirstInFirstOut(actions: seq<Action>, sid: Id)
    ensures var w := Run(actions);
            sid in w.sockets ==>
              Passed(w.forwarded, sid) + Carried(w.east, sid) == Carried(EastLog(actions), sid)
  {
    if actions != [] && sid in Run(actions).sockets {
      var w, a := Run(Front(actions)), Last(actions);
      FirstInFirstOut(Front(actions), sid);
      RunsKeep(Front(actions));
      StepMoves(w, a);
      StepSends(w, a, 0);
      LogKinds(Front(actions));
      LogSnoc(actions);
      RunStep(actions);
      hide Run, Step, NewEast, EastLog, Kinds, Once, Order, Moves, Carried, Passed, AllEast;
      if sid in w.sockets {
        OldSocket(w, a, EastLog(Front(actions)), sid);
      } else {
        CameNew(w, a, sid);
        NewSocket(w, a, EastLog(Front(actions)), sid);
      }
    }
  }
}

/** The connections of a run of two peers as runs of module Connection: each gets certain
    events, in the order of the run, and sends the DATA that they make it send. */
module LinkTraces {
  import opened Base
  import opened Link
  import opened LinkCounts
  import opened LinkKinds
  import opened LinkOnce
  import opened LinkDelivery
  import opened LinkRuns
  import Connection

  /** The DATA calls among the messages of one connection. */
  function DataFor(east: seq<East>, cid: Id): seq<Connection.Call> {
    if east == [] then []
    else DataFor(Front(east), cid) + if IsData(Last(east), cid) then [CallOf(Last(east))] else []
  }

  predicate IsData(m: East, cid: Id) {
    m.DataEast? && m.cid == cid
  }

  function CallOf(m: East): Connection.Call
    requires m.DataEast?
  {
    Connection.Data(m.sid, m.packet, m.from)
  }

  lemma {:induction false} DataForConcat(a: seq<East>, b: seq<East>, cid: Id)
    ensures DataFor(a + b, cid) == DataFor(a, cid) + DataFor(b, cid)
  {
    if b == [] {
      assert a + b == a;
    } else {
      hide IsData, CallOf;
      DataForConcat(a, Front(b), cid);
      assert Front(a + b) == a + Front(b) && Last(a + b) == Last(b);
    }
  }

  lemma {:induction false} DataForWire(c: Id, calls: seq<Connection.Call>, cid: Id)
    ensures DataFor(Wire(c, calls), cid) == if c == cid then Connection.DataOf(calls) else []
  {
    if calls != [] {
      DataForWire(c, Front(calls), cid);
      WireSnoc(c, calls);
      hide Wire;
    }
  }

  lemma WireSnoc(c: Id, calls: seq<Connection.Call>)
    requires calls != []
    ensures Wire(c, calls) != []
    ensures Front(Wire(c, calls)) == Wire(c, Front(calls)) && Last(Wire(c, calls)) == Message(c, Last(calls))
  {
    hide Message;
  }

  lemma DataForOne(m: East, cid: Id)
    ensures DataFor([m], cid) == if IsData(m, cid) then [CallOf(m)] else []
  {
    assert Front([m]) == [];
  }

  // ---------- The events of a connection ----------

  /** The event that a step is for connection cid. */
  function EventOf(w: World, a: Action, cid: Id): Option<Connection.Event> {
    if !Enabled(w, a) || cid !in w.conns then None
    else match a
      case Callback(c, e) => if c == cid then Some(e) else None
      case DeliverWest(now, _) => Delivered(w.west[0], now, cid)
      case _ => None
  }

  function Delivered(m: West, now: int, cid: Id): Option<Connection.Event> {
    match m
    case SocketDone(c, sid) => if c == cid then Some(Connection.GotSocket(sid)) else None
    case ConnectDone(c, ok) => if c == cid then Some(Connection.GotConnected(if ok then 0 else 1, now)) else None
    case DataWest(c, _, _) => if c == cid then Some(Connection.GotReply(now)) else None
    case Accepted(c, sid) => if c == cid then Some(Connection.GotAccepted(sid)) else None
    case _ => None
  }

  function EventsOf(actions: seq<Action>, cid: Id): seq<Connection.Event> {
    if actions == [] then []
    else
      var e := EventOf(Run(Front(actions)), Last(actions), cid);
      EventsOf(Front(actions), cid) + if e.Some? then [e.value] else []
  }

  // What a connection is made with.
  datatype Birth = Birth(local: bool, addr: Addr, to: Addr, timeout: nat, packets: seq<Packet>, now: int)

  function BirthIn(w: World, a: Action, cid: Id): Option<Birth> {
    if !Enabled(w, a) then None
    else match a
      case OpenLocal(c, addr, to, timeout, packet, now) =>
        if c == cid then Some(Birth(true, addr, to, timeout, [packet], now)) else None
      case OpenRemote(c, _, addr, timeout, packets, now) =>
        if c == cid then Some(Birth(false, addr, 0, timeout, packets, now)) else None
      case _ => None
  }

  function BirthOf(actions: seq<Action>, cid: Id): Option<Birth> {
    if actions == [] then None
    else
      var b := BirthIn(Run(Front(actions)), Last(actions), cid);
      if b.Some? then b else BirthOf(Front(actions), cid)
  }

  function Newborn(cid: Id, b: Birth): Connection.Conn {
    Connection.Begin(cid, b.addr, b.local, true, b.to, b.timeout, b.packets, b.now)
  }

  // ---------- One step ----------

  // What the callback of an event makes the connection send.
  function SentOn(w: World, e: Option<Connection.Event>, cid: Id): seq<Connection.Call> {
    if e.Some? && cid in w.conns then Connection.DataOf(Connection.Apply(w.conns[cid], e.value).calls) else []
  }

  /** After the event the connection is as the callback leaves it, or gone if it asked for
      that; without an event it is as it was, or gone. */
  predicate Follows(w: World, u: World, e: Option<Connection.Event>, cid: Id) {
    && (cid in w.conns && e.Some? ==>
          var o := Connection.Apply(w.conns[cid], e.value);
          if o.remove then cid !in u.conns else cid in u.conns && u.conns[cid] == o.conn)
    && (e.None? && cid in u.conns ==> cid in w.conns && u.conns[cid] == w.conns[cid])
  }

  predicate Traced(w: World, u: World, e: Option<Connection.Event>, cid: Id) {
    Follows(w, u, e, cid) && DataFor(u.east, cid) == DataFor(w.east, cid) + SentOn(w, e, cid)
  }

  lemma DroppedTraced(w: World, c: Id, cid: Id)
    requires c in w.conns
    ensures Traced(w, Dropped(w, c), None, cid)
  {
    var calls := Connection.Dispose(w.conns[c]).calls;
    DataForConcat(w.east, Wire(c, calls), cid);
    DataForWire(c, calls, cid);
    DisposeShape(w.conns[c]);
    NoData(w.conns[c]);
    hide Connection.Dispose, Wire, DataFor, Closes, Connection.DataOf;
    assert DataFor(w.east, cid) + [] == DataFor(w.east, cid);
  }

  lemma NoData(c: Connection.Conn)
    ensures Connection.DataOf(Connection.Dispose(c).calls) == []
  {
    var calls := Connection.Dispose(c).calls;
    if calls != [] {
      assert Front(calls) == [];
    }
  }

  lemma CalledSends(w: World, c: Id, o: Connection.Outcome, cid: Id)
    ensures var u := Called(w, c, o);
            && c in u.conns && u.conns == w.conns[c := o.conn]
            && DataFor(u.east, cid) == DataFor(w.east, cid) + if c == cid then Connection.DataOf(o.calls) else []
  {
    DataForConcat(w.east, Wire(c, o.calls), cid);
    DataForWire(c, o.calls, cid);
    hide Wire, DataFor, Closes, Connection.DataOf;
  }

  lemma EffectsTraced(w: World, c: Id, o: Connection.Outcome, cid: Id)
    ensures var u := Effects(w, c, o);
            && u.conns == (if o.remove then w.conns[c := o.conn] - {c} else w.conns[c := o.conn])
            && DataFor(u.east, cid) == DataFor(w.east, cid) + if c == cid then Connection.DataOf(o.calls) else []
  {
    hide *;
    CalledSends(w, c, o, cid);
    EffectsAre(w, c, o);
    if o.remove {
      DroppedSends(Called(w, c, o), c, cid);
    }
  }

  lemma DroppedSends(w: World, c: Id, cid: Id)
    requires c in w.conns
    ensures Dropped(w, c).conns == w.conns - {c} && DataFor(Dropped(w, c).east, cid) == DataFor(w.east, cid)
  {
    DroppedTraced(w, c, cid);
    DroppedGone(w, c);
    hide Dropped, DataFor;
    assert DataFor(w.east, cid) + [] == DataFor(w.east, cid);
  }

  lemma HappensTraced(w: World, c: Id, e: Connection.Event, cid: Id)
    ensures Traced(w, Happens(w, c, e), if c == cid && cid in w.conns then Some(e) else None, cid)
  {
    hide Connection.Apply, DataFor, Connection.DataOf, Effects;
    if c in w.conns {
      EffectsTraced(w, c, Connection.Apply(w.conns[c], e), cid);
    } else {
      assert DataFor(w.east, cid) + [] == DataFor(w.east, cid);
    }
  }

  lemma DroppedGone(u: World, c: Id)
    requires c in u.conns
    ensures Dropped(u, c).conns == u.conns - {c}
  {
    hide Connection.Dispose, Wire, Closes;
  }

  // Nothing happens to the connection, and it sends nothing.
  lemma UntracedStep(w: World, u: World, cid: Id, more: seq<East>)
    requires u.east == w.east + more && DataFor(more, cid) == []
    requires cid in u.conns ==> cid in w.conns && u.conns[cid] == w.conns[cid]
    ensures Traced(w, u, None, cid)
  {
    DataForConcat(w.east, more, cid);
    hide DataFor;
  }

  lemma DeliveredReply(w: World, m: West, now: int, listening: bool, cid: Id)
    requires m.DataWest?
    ensures Traced(w, HandleWest(w, m, now, listening), if cid in w.conns then Delivered(m, now, cid) else None, cid)
  {
    hide Connection.DataOf;
    assert DataFor(w.east, cid) + [] == DataFor(w.east, cid);
    hide DataFor;
    assert cid in w.conns && m.cid == cid ==>
             Connection.DataOf(Connection.Apply(w.conns[cid], Connection.GotReply(now)).calls) == [] by {
      NoCalls();
    }
  }

  lemma NoCalls()
    ensures Connection.DataOf([]) == []
  {
  }

  lemma DeliveredWest(w: World, m: West, now: int, listening: bool, cid: Id)
    ensures Traced(w, HandleWest(w, m, now, listening), if cid in w.conns then Delivered(m, now, cid) else None, cid)
  {
    var u := HandleWest(w, m, now, listening);
    hide Happens, ClosedConn;
    match m
    case SocketDone(c, sid) => hide Traced; HappensTraced(w, c, Connection.GotSocket(sid), cid);
    case ConnectDone(c, ok) =>
      hide Traced;
      HappensTraced(w, c, Connection.GotConnected(if ok then 0 else 1, now), cid);
    case Accepted(c, sid) => hide Traced; HappensTraced(w, c, Connection.GotAccepted(sid), cid);
    case CloseWest(c) =>
      ConnectionClosed(w, m, now, listening);
      assert w.east + [] == w.east;
      hide HandleWest;
      UntracedStep(w, u, cid, []);
    case DataWest(c, sid, packet) =>
      hide Traced, HandleWest;
      DeliveredReply(w, m, now, listening, cid);
    case AcceptCall(t) =>
      assert w.east + [] == w.east;
      DataForOne(AcceptBad(t), cid);
      hide Traced;
      UntracedStep(w, u, cid, if listening then [] else [AcceptBad(t)]);
  }

  lemma DeliveredEast(w: World, m: East, sid: Id, to: Addr, ok: bool, cid: Id)
    requires sid !in w.madeFor
    ensures Traced(w, HandleEast(w, m, sid, to, ok), None, cid)
  {
    EastHandled(w, m, sid, to, ok);
    hide HandleEast, Traced;
    assert w.east + [] == w.east;
    UntracedStep(w, HandleEast(w, m, sid, to, ok), cid, []);
  }

  // A step that does not open a connection of that id.
  lemma LocalTraced(w: World, a: Action, cid: Id)
    requires Enabled(w, a) && !a.DeliverEast? && !a.DeliverWest? && BirthIn(w, a, cid).None?
    ensures Traced(w, Step(w, a), EventOf(w, a, cid), cid)
  {
    var u := Step(w, a);
    assert w.east + [] == w.east;
    hide Happens, Dropped, Traced, Connection.New;
    match a
    case OpenLocal(c, addr, to, timeout, packet, now) =>
      assert u.east == w.east + [SocketCall(c)];
      DataForOne(SocketCall(c), cid);
      UntracedStep(w, u, cid, [SocketCall(c)]);
    case OpenRemote(c, i, addr, timeout, packets, now) =>
      DataForOne(AcceptOk(w.waiting[i], c), cid);
      UntracedStep(w, u, cid, [AcceptOk(w.waiting[i], c)]);
    case Callback(c, e) => HappensTraced(w, c, e, cid);
    case RemoveConn(c) => DroppedTraced(w, c, cid);
    case _ => UntracedStep(w, u, cid, []);
  }

  lemma PoppedTraced(w: World, v: World, u: World, e: Option<Connection.Event>, cid: Id)
    requires Traced(v, u, e, cid) && v.conns == w.conns
    ensures Follows(w, u, e, cid) && DataFor(u.east, cid) == DataFor(v.east, cid) + SentOn(w, e, cid)
  {
    hide DataFor;
  }

  /** Every step: the connection is where its event leads, and its DATA are those of the
      callback. */
  lemma StepTraced(w: World, a: Action, cid: Id)
    requires BirthIn(w, a, cid).None?
    ensures Follows(w, Step(w, a), EventOf(w, a, cid), cid)
    ensures DataFor(Step(w, a).east, cid) == DataFor(RestEast(w, a), cid) + SentOn(w, EventOf(w, a, cid), cid)
  {
    var e := EventOf(w, a, cid);
    hide Traced, DataFor, SentOn, Follows, HandleEast, HandleWest;
    if !Enabled(w, a) {
      hide Enabled;
      assert w.east + [] == w.east;
      assert DataFor([], cid) == [] by { NothingFor(cid); }
      UntracedStep(w, w, cid, []);
      PoppedTraced(w, w, w, None, cid);
    } else if a.DeliverEast? {
      var v := w.(east := w.east[1..]);
      DeliveredEast(v, w.east[0], a.sid, a.to, a.ok, cid);
      PoppedTraced(w, v, Step(w, a), None, cid);
    } else if a.DeliverWest? {
      var v := w.(west := w.west[1..]);
      DeliveredWest(v, w.west[0], a.now, a.listening, cid);
      PoppedTraced(w, v, Step(w, a), e, cid);
    } else {
      hide Step, EventOf;
      LocalTraced(w, a, cid);
      PoppedTraced(w, w, Step(w, a), e, cid);
    }
  }

  lemma NothingFor(cid: Id)
    ensures DataFor([], cid) == []
  {
  }

  /** The DATA among the messages that a step sends. */
  lemma StepData(w: World, a: Action, cid: Id)
    requires BirthIn(w, a, cid).None?
    ensures Follows(w, Step(w, a), EventOf(w, a, cid), cid)
    ensures DataFor(NewEast(w, a), cid) == SentOn(w, EventOf(w, a, cid), cid)
  {
    hide *;
    StepTraced(w, a, cid);
    StepSends(w, a, 0);
    DataForConcat(RestEast(w, a), NewEast(w, a), cid);
    SameTail(DataFor(RestEast(w, a), cid), DataFor(NewEast(w, a), cid), SentOn(w, EventOf(w, a, cid), cid));
  }

  lemma SameTail<T>(a: seq<T>, b: seq<T>, c: seq<T>)
    requires a + b == a + c
    ensures b == c
  {
    assert b == (a + b)[|a|..] && c == (a + c)[|a|..];
  }

  // ---------- Whole runs ----------

  /** What there is of a connection after a run is what its events make of it. */
  ghost predicate Agrees(w: World, log: seq<East>, b: Option<Birth>, events: seq<Connection.Event>, cid: Id) {
    && (cid in w.connAddr <==> b.Some?)
    && (b.None? ==> cid !in w.conns && events == [] && DataFor(log, cid) == [])
    && (b.Some? ==>
          var o := Connection.Run(Newborn(cid, b.value), events);
          && w.connAddr[cid] == b.value.addr
          && DataFor(log, cid) == Connection.DataOf(o.calls)
          && (cid in w.conns ==> w.conns[cid] == o.conn && !o.remove))
  }

  // A step that makes the connection sends one message for it, which is not DATA.
  lemma BornStep(w: World, a: Action, cid: Id)
    requires BirthIn(w, a, cid).Some?
    ensures var u, b := Step(w, a), BirthIn(w, a, cid).value;
            && cid in u.connAddr && u.connAddr[cid] == b.addr
            && cid in u.conns && u.conns[cid] == Newborn(cid, b)
            && |NewEast(w, a)| == 1 && !NewEast(w, a)[0].DataEast?
  {
    var m := if a.OpenLocal? then SocketCall(cid) else AcceptOk(w.waiting[a.i], cid);
    assert Step(w, a).east == w.east + [m];
    assert NewEast(w, a) == [m];
  }

  lemma NotThereYet(w: World, a: Action, cid: Id)
    requires BirthIn(w, a, cid).Some? && cid !in w.conns
    ensures EventOf(w, a, cid) == None
  {
  }

  lemma BornAgrees(w: World, a: Action, log: seq<East>, cid: Id)
    requires Agrees(w, log, None, [], cid) && BirthIn(w, a, cid).Some?
    ensures EventOf(w, a, cid) == None
    ensures Agrees(Step(w, a), log + NewEast(w, a), BirthIn(w, a, cid), [], cid)
  {
    NotThereYet(w, a, cid);
    BornStep(w, a, cid);
    hide Step, NewEast, EventOf, BirthIn, Newborn;
    var m := NewEast(w, a)[0];
    assert NewEast(w, a) == [m];
    DataForOne(m, cid);
    DataForConcat(log, [m], cid);
    hide DataFor;
  }

  // One more event of the connection.
  lemma RunMore(c: Connection.Conn, events: seq<Connection.Event>, e: Connection.Event)
    requires !Connection.Run(c, events).remove
    ensures var o := Connection.Run(c, events);
            var s := Connection.Apply(o.conn, e);
            var n := Connection.Run(c, events + [e]);
            && n.conn == s.conn && n.remove == s.remove
            && Connection.DataOf(n.calls) == Connection.DataOf(o.calls) + Connection.DataOf(s.calls)
  {
    assert Front(events + [e]) == events;
    var o := Connection.Run(c, events);
    Connection.DataOfConcat(o.calls, Connection.Apply(o.conn, e).calls);
    hide Connection.Apply, Connection.DataOf;
  }

  lemma LaterAgrees(w: World, a: Action, log: seq<East>, b: Option<Birth>, events: seq<Connection.Event>, cid: Id)
    requires Agrees(w, log, b, events, cid) && BirthIn(w, a, cid).None?
    requires Extends(w.connAddr, Step(w, a).connAddr)
    requires cid in Step(w, a).connAddr ==> cid in w.connAddr
    ensures var e := EventOf(w, a, cid);
            Agrees(Step(w, a), log + NewEast(w, a), b, events + if e.Some? then [e.value] else [], cid)
  {
    var e := EventOf(w, a, cid);
    StepData(w, a, cid);
    assert e.Some? ==> cid in w.conns;
    DataForConcat(log, NewEast(w, a), cid);
    assert events + [] == events;
    hide Step, NewEast, EventOf, BirthIn, DataFor, Connection.DataOf, Connection.Run, Connection.Apply, Newborn;
    if e.Some? && b.Some? {
      RunMore(Newborn(cid, b.value), events, e.value);
    } else {
      assert DataFor(log, cid) + [] == DataFor(log, cid);
    }
  }

  lemma SameIds(w: World, a: Action, cid: Id)
    requires BirthIn(w, a, cid).None? && cid in Step(w, a).connAddr
    ensures cid in w.connAddr
  {
    if Enabled(w, a) {
      if a.DeliverEast? {
        EastHandled(w.(east := w.east[1..]), w.east[0], a.sid, a.to, a.ok);
        hide HandleEast;
      } else if a.DeliverWest? {
        WestSide(w.(west := w.west[1..]), w.west[0], a.now, a.listening);
        hide HandleWest;
      } else {
        LocalIds(w, a, cid);
      }
    }
  }

  lemma LocalIds(w: World, a: Action, cid: Id)
    requires Enabled(w, a) && !a.DeliverEast? && !a.DeliverWest? && BirthIn(w, a, cid).None?
    ensures cid in Step(w, a).connAddr ==> cid in w.connAddr
  {
    hide Happens, Dropped, Wire, Closes, Connection.Start;
    match a
    case Callback(c, e) => HappensIs(w, c, e);
    case RemoveConn(c) => DroppedIs(w, c);
    case _ =>
  }

  /** Over every run of two peers, each connection is a run of module Connection on the
      events that the run has for it, and its DATA messages are the DATA calls of that. */
  lemma {:induction false} ConnectionsRun(actions: seq<Action>, cid: Id)
    ensures Agrees(Run(actions), EastLog(actions), BirthOf(actions, cid), EventsOf(actions, cid), cid)
  {
    if actions == [] {
      NothingFor(cid);
    } else {
      var w, a, log := Run(Front(actions)), Last(actions), EastLog(Front(actions));
      var events := EventsOf(Front(actions), cid);
      ConnectionsRun(Front(actions), cid);
      StepMoves(w, a);
      LogSnoc(actions);
      RunStep(actions);
      assert events + [] == events;
      if BirthIn(w, a, cid).Some? {
        assert cid !in w.connAddr;
        hide Run, Step, NewEast, EastLog, DataFor, Enabled, BirthIn;
        BornAgrees(w, a, log, cid);
      } else {
        MovesKeep(w, a);
        hide Step, NewEast, EastLog, DataFor, Enabled, Agrees, EventOf, Moves;
        if cid in Step(w, a).connAddr {
          SameIds(w, a, cid);
        }
        LaterAgrees(w, a, log, BirthOf(Front(actions), cid), events, cid);
      }
    }
  }

  // ---------- From end to end ----------

  function PacketsOf(calls: seq<Connection.Call>): seq<Packet> {
    if calls == [] then []
    else PacketsOf(Front(calls)) + if Last(calls).Data? then [Last(calls).packet] else []
  }

  lemma {:induction false} PacketsConcat(a: seq<Connection.Call>, b: seq<Connection.Call>)
    ensures PacketsOf(a + b) == PacketsOf(a) + PacketsOf(b)
  {
    if b == [] {
      assert a + b == a;
    } else {
      PacketsConcat(a, Front(b));
      assert Front(a + b) == a + Front(b);
    }
  }

  // All calls are DATA, with these packets.
  lemma {:induction false} PacketsAre(calls: seq<Connection.Call>, packets: seq<Packet>)
    requires |calls| == |packets|
    requires forall i :: 0 <= i < |calls| ==> calls[i].Data? && calls[i].packet == packets[i]
    ensures PacketsOf(calls) == packets
  {
    if calls != [] {
      PacketsAre(Front(calls), Front(packets));
      assert packets == Front(packets) + [Last(packets)];
    }
  }

  lemma PacketsExpected(l: Connection.Ledger, sid: Id, addr: Addr)
    ensures PacketsOf(Connection.Expected(l, sid, addr))
            == l.mid + if l.phase.Flushed? then l.pre + l.post else []
  {
    var mid, pre, post :=
      Connection.Plain(sid, l.mid), Connection.Announced(sid, l.pre, addr), Connection.Plain(sid, l.post);
    PacketsAre(mid, l.mid);
    PacketsAre(pre, l.pre);
    PacketsAre(post, l.post);
    PacketsConcat(pre, post);
    PacketsConcat(mid, if l.phase.Flushed? then pre + post else []);
  }

  // The messages for a socket are those of the connection it was made for.
  lemma {:induction false} SameMessages(connAddr: map<Id, Addr>, madeFor: map<Id, Id>, log: seq<East>, sid: Id, cid: Id)
    requires AllEast(connAddr, madeFor, log) && Made(madeFor, sid, cid)
    requires forall t :: t in madeFor && madeFor[t] == cid ==> t == sid
    ensures Carried(log, sid) == PacketsOf(DataFor(log, cid))
  {
    if log != [] {
      var m := Last(log);
      assert EastOk(connAddr, madeFor, log[|log| - 1]);
      SameMessages(connAddr, madeFor, Front(log), sid, cid);
      PacketsConcat(DataFor(Front(log), cid), if IsData(m, cid) then [CallOf(m)] else []);
      if IsData(m, cid) {
        PacketsAre([CallOf(m)], [m.packet]);
      }
      hide EastOk;
    }
  }

  lemma OnlySocket(w: World, sid: Id)
    requires Kinds(w) && Once(w) && sid in w.sockets
    ensures var cid := w.sockets[sid].rid;
            && Made(w.madeFor, sid, cid) && cid in w.connAddr
            && forall t :: t in w.madeFor && w.madeFor[t] == cid ==> t == sid
  {
    KindsParts(w);
    hide Kinds, ConnsOk, LogsOk, AllEast, AllWest, Asked, ClosesEastOk, ClosesWestOk, Answered;
    assert Made(w.madeFor, sid, w.sockets[sid].rid);
  }

  /** From end to end, over every run of two peers: what a live socket has passed on to the
      network, followed by what is under way to it, is exactly, and in this order, what its
      connection was given between learning of the socket and the flush; and, once it is
      flushed, what it was given before and then what it was given afterwards. */
  lemma EndToEnd(actions: seq<Action>, sid: Id)
    requires sid in Run(actions).sockets
    ensures BirthOf(actions, Run(actions).sockets[sid].rid).Some?
    ensures var w := Run(actions);
            var cid := w.sockets[sid].rid;
            var b := BirthOf(actions, cid).value;
            var l := Connection.Classify(b.local, true, b.packets, EventsOf(actions, cid));
            Passed(w.forwarded, sid) + Carried(w.east, sid)
            == l.mid + if l.phase.Flushed? then l.pre + l.post else []
  {
    var w := Run(actions);
    var cid, log, events := w.sockets[sid].rid, EastLog(actions), EventsOf(actions, w.sockets[sid].rid);
    hide *;
    RunsKeep(actions);
    FirstInFirstOut(actions, sid);
    OnlySocket(w, sid);
    LogKinds(actions);
    SameMessages(w.connAddr, w.madeFor, log, sid, cid);
    ConnectionsRun(actions, cid);
    AgreesParts(w, log, BirthOf(actions, cid), events, cid);
    var b := BirthOf(actions, cid).value;
    var o := Connection.Run(Newborn(cid, b), events);
    NewbornSends(cid, b, events);
    PacketsExpected(Connection.Classify(b.local, true, b.packets, events), o.conn.rid, b.addr);
  }

  lemma AgreesParts(w: World, log: seq<East>, b: Option<Birth>, events: seq<Connection.Event>, cid: Id)
    requires Agrees(w, log, b, events, cid) && cid in w.connAddr
    ensures b.Some? && DataFor(log, cid) == Connection.DataOf(Connection.Run(Newborn(cid, b.value), events).calls)
  {
    hide DataFor, Connection.DataOf, Connection.Run, Newborn;
  }

  lemma NewbornSends(cid: Id, b: Birth, events: seq<Connection.Event>)
    ensures var o := Connection.Run(Newborn(cid, b), events);
            var l := Connection.Classify(b.local, true, b.packets, events);
            Connection.DataOf(o.calls) == Connection.Expected(l, o.conn.rid, b.addr)
  {
    Connection.SendOrder(cid, b.addr, b.local, true, b.to, b.timeout, b.packets, b.now, events);
    hide Connection.Run, Connection.Classify, Connection.DataOf, Connection.Expected, Connection.Begin;
  }
}

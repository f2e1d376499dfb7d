/** Order of the replies, from end to end: what has been written to a source, and what is
    still under way to its connection, is in order what the socket has received. */
module LinkReplies {
  import opened Base
  import opened Link
  import opened LinkCounts
  import opened LinkKinds
  import opened LinkOnce
  import opened LinkOrder
  import opened LinkTickets
  import opened LinkDelivery
  import opened LinkTraces
  import opened LinkRuns
  import Connection

  /** The packets that have been written to a source as replies from the socket. */
  function WrittenFrom(log: seq<Written>, sid: Id): seq<Packet> {
    if log == [] then []
    else WrittenFrom(Front(log), sid) + if Last(log).sid == sid then [Last(log).packet] else []
  }

  /** The packets of the DATA requests that come from the socket. */
  function Returning(west: seq<West>, sid: Id): seq<Packet> {
    if west == [] then []
    else Returning(Front(west), sid) + if IsReply(Last(west), sid) then [Last(west).packet] else []
  }

  predicate IsReply(m: West, sid: Id) {
    m.DataWest? && m.sid == sid
  }

  // The datagram that the socket receives in a step.
  function ReplyIn(w: World, a: Action, sid: Id): seq<Packet> {
    if a.Reply? && a.sid == sid && Enabled(w, a) then [a.packet] else []
  }

  /** What the socket has received, on the actions alone. */
  function RepliesOf(actions: seq<Action>, sid: Id): seq<Packet> {
    if actions == [] then []
    else RepliesOf(Front(actions), sid) + ReplyIn(Run(Front(actions)), Last(actions), sid)
  }

  lemma {:induction false} ReturningConcat(a: seq<West>, b: seq<West>, sid: Id)
    ensures Returning(a + b, sid) == Returning(a, sid) + Returning(b, sid)
  {
    if b == [] {
      assert a + b == a;
    } else {
      hide IsReply;
      ReturningConcat(a, Front(b), sid);
      assert Front(a + b) == a + Front(b) && Last(a + b) == Last(b);
    }
  }

  lemma ReturningOne(m: West, sid: Id)
    ensures Returning([m], sid) == if IsReply(m, sid) then [m.packet] else []
  {
    assert Front([m]) == [];
  }

  lemma ReturningHead(west: seq<West>, sid: Id)
    requires west != []
    ensures Returning(west, sid) == (if IsReply(west[0], sid) then [west[0].packet] else []) + Returning(west[1..], sid)
  {
    assert west == [west[0]] + west[1..];
    ReturningOne(west[0], sid);
    ReturningConcat([west[0]], west[1..], sid);
  }

  lemma {:induction false} NoneReturning(connAddr: map<Id, Addr>, madeFor: map<Id, Id>, west: seq<West>, sid: Id)
    requires AllWest(connAddr, madeFor, west) && sid !in madeFor
    ensures Returning(west, sid) == []
  {
    if west != [] {
      assert WestOk(connAddr, madeFor, west[|west| - 1]);
      NoneReturning(connAddr, madeFor, Front(west), sid);
    }
  }

  lemma {:induction false} NoneWritten(connAddr: map<Id, Addr>, madeFor: map<Id, Id>, log: seq<Written>, sid: Id)
    requires sid !in madeFor
    requires forall i :: 0 <= i < |log| ==> WrittenOk(connAddr, madeFor, log[i])
    ensures WrittenFrom(log, sid) == []
  {
    if log != [] {
      assert WrittenOk(connAddr, madeFor, log[|log| - 1]);
      NoneWritten(connAddr, madeFor, Front(log), sid);
    }
  }

  lemma WrittenSnoc(log: seq<Written>, x: Written, sid: Id)
    ensures WrittenFrom(log + [x], sid) == WrittenFrom(log, sid) + if x.sid == sid then [x.packet] else []
  {
    assert Front(log + [x]) == log;
  }

  // ---------- One step ----------

  // What the delivery of a message writes to a source.
  function WrittenOn(w: World, m: West): seq<Written> {
    if m.DataWest? && m.cid in w.conns && w.conns[m.cid].io
    then [Written(w.conns[m.cid].addr, m.packet, m.sid)] else []
  }

  function WrittenIn(w: World, a: Action): seq<Written> {
    if Enabled(w, a) && a.DeliverWest? then WrittenOn(w, w.west[0]) else []
  }

  /** What a step does to the channel and to what has been written. */
  predicate Brings(w: World, rest: seq<West>, u: World, written: seq<Written>, replies: seq<Packet>, sid: Id) {
    && u.written == w.written + written
    && Returning(u.west, sid) == Returning(rest, sid) + replies
  }

  lemma BringsMore(w: World, u: World, more: seq<West>, replies: seq<Packet>, sid: Id)
    requires u.written == w.written && u.west == w.west + more && Returning(more, sid) == replies
    ensures Brings(w, w.west, u, [], replies, sid)
  {
    ReturningConcat(w.west, more, sid);
    assert w.written + [] == w.written;
  }

  lemma BringsNothing(w: World, u: World, sid: Id)
    requires u.written == w.written && u.west == w.west
    ensures Brings(w, w.west, u, [], [], sid)
  {
    assert w.west + [] == w.west;
    BringsMore(w, u, [], [], sid);
  }

  lemma EastWrites(w: World, m: East, sid: Id, to: Addr, ok: bool)
    ensures HandleEast(w, m, sid, to, ok).written == w.written
  {
    if m.CloseEast? {
      SocketClosed(w, m, sid, to, ok);
      hide HandleEast;
    }
  }

  lemma ResponseIsNoReply(w: World, m: East, made: Id, to: Addr, ok: bool, sid: Id)
    ensures Returning(Response(w, m, made, to, ok), sid) == []
  {
    var r := Response(w, m, made, to, ok);
    assert |r| <= 2 && forall k :: 0 <= k < |r| ==> !r[k].DataWest?;
    if r != [] {
      ReturningOne(r[0], sid);
      if |r| == 2 {
        ReturningConcat([r[0]], [r[1]], sid);
        ReturningOne(r[1], sid);
        assert r == [r[0]] + [r[1]];
      } else {
        assert r == [r[0]];
      }
    }
  }

  lemma EastBrings(w: World, a: Action, sid: Id)
    requires Order(w) && Enabled(w, a) && a.DeliverEast?
    ensures Brings(w, w.west, Step(w, a), [], [], sid)
  {
    var v, m := w.(east := w.east[1..]), w.east[0];
    if m.DataEast? {
      OrderedHead(w);
    }
    DeliverShape(w, a.sid, a.to, a.ok);
    EastWrites(v, m, a.sid, a.to, a.ok);
    ResponseIsNoReply(v, m, a.sid, a.to, a.ok, sid);
    hide Order, HandleEast, StaysReady, Response, Brings;
    BringsMore(w, Step(w, a), Response(v, m, a.sid, a.to, a.ok), [], sid);
  }

  lemma WestBrings(w: World, m: West, now: int, listening: bool, sid: Id)
    ensures var u := HandleWest(w, m, now, listening);
            u.west == w.west && u.written == w.written + WrittenOn(w, m)
  {
    hide Happens, ClosedConn, Connection.Reply;
    assert w.written + [] == w.written;
    match m
    case SocketDone(c, s) => HappensIs(w, c, Connection.GotSocket(s));
    case ConnectDone(c, ok) => HappensIs(w, c, Connection.GotConnected(if ok then 0 else 1, now));
    case Accepted(c, s) => HappensIs(w, c, Connection.GotAccepted(s));
    case CloseWest(_) => ConnectionClosed(w, m, now, listening);
    case DataWest(_, _, _) =>
    case AcceptCall(_) =>
  }

  lemma NotReplies(more: seq<West>, sid: Id)
    requires |more| <= 2 && forall k :: 0 <= k < |more| ==> !more[k].DataWest?
    ensures Returning(more, sid) == []
  {
    if |more| == 2 {
      ReturningOne(more[0], sid);
      ReturningOne(more[1], sid);
      ReturningConcat([more[0]], [more[1]], sid);
      assert more == [more[0]] + [more[1]];
    } else if |more| == 1 {
      ReturningOne(more[0], sid);
      assert more == [more[0]];
    }
  }

  lemma LocalBrings(w: World, a: Action, sid: Id)
    requires Enabled(w, a) && !a.DeliverEast? && !a.DeliverWest?
    ensures Brings(w, w.west, Step(w, a), [], ReplyIn(w, a, sid), sid)
  {
    var u := Step(w, a);
    hide Happens, Dropped, Brings, Wire, Connection.Start, Connection.New;
    match a
    case Callback(c, e) => HappensIs(w, c, e); BringsNothing(w, u, sid);
    case RemoveConn(c) => DroppedIs(w, c); BringsNothing(w, u, sid);
    case OpenForwarder(f) =>
      var more := [AcceptCall(Ticket(f, 0)), AcceptCall(Ticket(f, 1))];
      NotReplies(more, sid);
      BringsMore(w, u, more, [], sid);
    case RemoveSocket(s) =>
      var more := if w.sockets[s].rid != 0 then [CloseWest(w.sockets[s].rid)] else [];
      NotReplies(more, sid);
      BringsMore(w, u, more, [], sid);
    case Reply(s, packet) =>
      var m := DataWest(w.sockets[s].rid, s, packet);
      ReturningOne(m, sid);
      BringsMore(w, u, [m], ReplyIn(w, a, sid), sid);
    case _ => BringsNothing(w, u, sid);
  }

  lemma StepBrings(w: World, a: Action, sid: Id)
    requires Order(w)
    ensures Brings(w, RestWest(w, a), Step(w, a), WrittenIn(w, a), ReplyIn(w, a, sid), sid)
  {
    if !Enabled(w, a) {
      hide Enabled;
      BringsNothing(w, w, sid);
    } else if a.DeliverEast? {
      hide Order, Step;
      EastBrings(w, a, sid);
    } else if a.DeliverWest? {
      WestBrings(w.(west := w.west[1..]), w.west[0], a.now, a.listening, sid);
      hide Order, HandleWest, Returning;
      assert WrittenOn(w.(west := w.west[1..]), w.west[0]) == WrittenOn(w, w.west[0]);
      assert Returning(w.west[1..], sid) + [] == Returning(w.west[1..], sid);
    } else {
      hide Order, Step;
      LocalBrings(w, a, sid);
    }
  }

  // ---------- Whole runs ----------

  /** A connection that is there still has its socket object to write to. */
  lemma LiveHasIo(actions: seq<Action>, cid: Id)
    requires cid in Run(actions).conns
    ensures Run(actions).conns[cid].io
  {
    var w, b, events := Run(actions), BirthOf(actions, cid), EventsOf(actions, cid);
    ConnectionsRun(actions, cid);
    RunsKeep(actions);
    KindsParts(w);
    assert cid in w.connAddr;
    hide Run, DataFor, EastLog;
    Connection.SendOrder(cid, b.value.addr, b.value.local, true, b.value.to, b.value.timeout, b.value.packets,
                         b.value.now, events);
    hide Connection.Run, Connection.Classify, Connection.Expected, Connection.Submitted;
  }

  // A live connection after a step has been there before, or nothing has been made for it.
  lemma WasThere(w: World, a: Action, sid: Id)
    requires Kinds(w) && Moves(w, a) && sid in w.madeFor
    requires w.madeFor[sid] in Step(w, a).conns
    ensures w.madeFor[sid] in w.conns
  {
    var cid := w.madeFor[sid];
    KindsParts(w);
    assert cid in w.connAddr;
    hide Kinds, ConnsOk, LogsOk, AllEast, AllWest;
    if BirthIn(w, a, cid).None? {
      StepTraced(w, a, cid);
    }
  }

  lemma OldReplies(w: World, a: Action, replies: seq<Packet>, sid: Id)
    requires Kinds(w) && sid in w.madeFor && w.madeFor[sid] in w.conns && w.conns[w.madeFor[sid]].io
    requires WrittenFrom(w.written, sid) + Returning(w.west, sid) == replies
    requires Brings(w, RestWest(w, a), Step(w, a), WrittenIn(w, a), ReplyIn(w, a, sid), sid)
    ensures var u := Step(w, a);
            WrittenFrom(u.written, sid) + Returning(u.west, sid) == replies + ReplyIn(w, a, sid)
  {
    var rest, u := RestWest(w, a), Step(w, a);
    var before, under, more := WrittenFrom(w.written, sid), Returning(rest, sid), ReplyIn(w, a, sid);
    KindsParts(w);
    if Enabled(w, a) && a.DeliverWest? {
      var m := w.west[0];
      assert WestOk(w.connAddr, w.madeFor, w.west[0]);
      ReturningHead(w.west, sid);
      hide Step, Enabled, Kinds, ConnsOk, SocketsOk, LogsOk, AllEast, AllWest, Returning, WrittenFrom;
      if WrittenOn(w, m) != [] {
        WrittenSnoc(w.written, WrittenOn(w, m)[0], sid);
      } else {
        assert w.written + [] == w.written;
      }
      Shift(before, if IsReply(m, sid) then [m.packet] else [], under);
      assert WrittenFrom(u.written, sid) + under == replies;
    } else {
      hide Step, Kinds;
      assert w.written + [] == w.written;
    }
    hide Step, RestWest, ReplyIn, Returning, WrittenFrom, WrittenIn;
    Shift(WrittenFrom(u.written, sid), under, more);
  }

  lemma {:induction false} RepliesFromMade(actions: seq<Action>, sid: Id)
    requires RepliesOf(actions, sid) != []
    ensures sid in Run(actions).madeFor
  {
    var w, a := Run(Front(actions)), Last(actions);
    RunsKeep(Front(actions));
    KindsParts(w);
    StepMoves(w, a);
    hide Step, Run, Kinds, ConnsOk, LogsOk, AllEast, AllWest;
    if RepliesOf(Front(actions), sid) != [] {
      RepliesFromMade(Front(actions), sid);
    } else {
      assert Made(w.madeFor, sid, w.sockets[sid].rid);
    }
    RunStep(actions);
  }

  lemma NothingSaid(w: World, sid: Id)
    requires Kinds(w) && sid !in w.madeFor
    ensures sid !in w.sockets && Returning(w.west, sid) == [] && WrittenFrom(w.written, sid) == []
    ensures w.west != [] ==> !IsReply(w.west[0], sid)
  {
    KindsParts(w);
    assert sid in w.sockets ==> Made(w.madeFor, sid, w.sockets[sid].rid);
    assert w.west != [] ==> WestOk(w.connAddr, w.madeFor, w.west[0]);
    hide Kinds, ConnsOk, SocketsOk, AllEast;
    NoneReturning(w.connAddr, w.madeFor, w.west, sid);
    NoneWritten(w.connAddr, w.madeFor, w.written, sid);
  }

  // A step takes nothing from nothing.
  lemma NothingTaken(w: World, a: Action, sid: Id)
    requires Returning(w.west, sid) == [] && WrittenFrom(w.written, sid) == []
    requires w.west != [] ==> !IsReply(w.west[0], sid)
    ensures Returning(RestWest(w, a), sid) == [] && WrittenFrom(w.written + WrittenIn(w, a), sid) == []
  {
    hide Returning, WrittenFrom;
    assert w.written + [] == w.written;
    if Enabled(w, a) && a.DeliverWest? {
      ReturningHead(w.west, sid);
      hide Enabled;
      if WrittenOn(w, w.west[0]) != [] {
        WrittenSnoc(w.written, WrittenOn(w, w.west[0])[0], sid);
      }
    }
  }

  lemma NewReplies(w: World, a: Action, sid: Id)
    requires Kinds(w) && sid !in w.madeFor
    requires Brings(w, RestWest(w, a), Step(w, a), WrittenIn(w, a), ReplyIn(w, a, sid), sid)
    ensures var u := Step(w, a);
            ReplyIn(w, a, sid) == [] && WrittenFrom(u.written, sid) == [] && Returning(u.west, sid) == []
  {
    NothingSaid(w, sid);
    NothingTaken(w, a, sid);
    hide Step, Kinds, Returning, WrittenFrom, WrittenIn, RestWest, IsReply;
  }

  /** Over every run of two peers: what has been written to a source for the socket of its live
      connection, followed by what is under way to it, is what that socket has received, in
      the same order, and all of it went to the connection's source address. */
  lemma {:induction false} RepliesInOrder(actions: seq<Action>, sid: Id)
    requires sid in Run(actions).madeFor && Run(actions).madeFor[sid] in Run(actions).conns
    ensures var w := Run(actions);
            WrittenFrom(w.written, sid) + Returning(w.west, sid) == RepliesOf(actions, sid)
  {
    if actions != [] {
      var before, a := Front(actions), Last(actions);
      var w := Run(before);
      RunsKeep(before);
      StepMoves(w, a);
      StepBrings(w, a, sid);
      RunStep(actions);
      MovesKeep(w, a);
      hide Run, Step, Kinds, Order, Once, Slots, Moves, Brings, Returning, WrittenFrom, ReplyIn;
      if sid in w.madeFor {
        WasThere(w, a, sid);
        RepliesInOrder(before, sid);
        LiveHasIo(before, w.madeFor[sid]);
        OldReplies(w, a, RepliesOf(before, sid), sid);
      } else {
        NewReplies(w, a, sid);
        if RepliesOf(before, sid) != [] {
          RepliesFromMade(before, sid);
        }
      }
    }
  }

  lemma WrittenHome(actions: seq<Action>, i: nat, sid: Id)
    requires sid in Run(actions).madeFor && Run(actions).madeFor[sid] in Run(actions).conns
    requires i < |Run(actions).written| && Run(actions).written[i].sid == sid
    ensures Run(actions).written[i].addr == Run(actions).conns[Run(actions).madeFor[sid]].addr
  {
    RunsKeep(actions);
    PacketsStayInTheirLink(actions, i);
    var w := Run(actions);
    KindsParts(w);
    hide Run, Kinds, Once, Order, Slots;
    assert ConnOk(w.connAddr, w.madeFor, w.madeFor[sid], w.conns[w.madeFor[sid]]);
  }
}

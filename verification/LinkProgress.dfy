/** Nobody waits for a message that is not under way: when the channels are empty, every live
    link is set up, and everything given to it has arrived. */
module LinkProgress {
  import opened Base
  import opened Link
  import opened LinkCounts
  import opened LinkKinds
  import opened LinkOnce
  import opened LinkOrder
  import opened LinkDelivery
  import opened LinkTraces
  import opened LinkTickets
  import opened LinkRuns
  import opened LinkOrigins
  import opened LinkReplies
  import Connection

  // ---------- What is waited for ----------

  predicate SocketAnswered(west: seq<West>, cid: Id) {
    exists m :: m in west && m.SocketDone? && m.cid == cid
  }

  predicate ConnectAsked(east: seq<East>, cid: Id) {
    exists m :: m in east && m.ConnectCall? && m.cid == cid
  }

  predicate ConnectAnswered(west: seq<West>, cid: Id) {
    exists m :: m in west && m.ConnectDone? && m.cid == cid
  }

  /** A connection that waits for its socket, or for its CONNECT, has a message under way. */
  predicate Awaited(w: World, cid: Id) {
    cid in w.conns ==>
      && (w.conns[cid].init.SocketPending? ==> SocketCall(cid) in w.east || SocketAnswered(w.west, cid))
      && (w.conns[cid].init.ConnectPending? ==> ConnectAsked(w.east, cid) || ConnectAnswered(w.west, cid))
  }

  /** A socket that its connection does not know yet is being announced. */
  predicate Announced(w: World, sid: Id) {
    sid in w.sockets && w.sockets[sid].rid in w.conns && w.conns[w.sockets[sid].rid].rid == 0 ==>
      SocketDone(w.sockets[sid].rid, sid) in w.west || Accepted(w.sockets[sid].rid, sid) in w.west
  }

  predicate EastSides(w: World, m: East) {
    && (m.SocketCall? && m.cid in w.conns ==> w.conns[m.cid].local)
    && (m.AcceptOk? && m.cid in w.conns ==> !w.conns[m.cid].local)
  }

  predicate WestSides(w: World, m: West) {
    && (m.SocketDone? && m.sid != 0 && m.cid in w.conns ==> w.conns[m.cid].local)
    && (m.Accepted? && m.cid in w.conns ==> !w.conns[m.cid].local)
  }

  /** Messages to and from a connection are those of its kind. */
  predicate Sides(w: World) {
    (forall m :: m in w.east ==> EastSides(w, m)) && (forall m :: m in w.west ==> WestSides(w, m))
  }

  ghost predicate Progress(w: World) {
    Sides(w) && (forall cid :: Awaited(w, cid)) && (forall sid :: Announced(w, sid))
  }

  // What the ledger of a connection that is there tells about it.
  predicate Firm(c: Connection.Conn) {
    && (c.local && c.rid == 0 ==> c.init.SocketPending?)
    && (c.rid != 0 && c.q.Some? ==> if c.local then c.init.ConnectPending? else c.flushArmed)
  }

  predicate AllFirm(w: World) {
    forall cid :: cid in w.conns ==> Firm(w.conns[cid])
  }

  // ---------- How a connection changes ----------

  /** From one step to the next, a connection is new, or as its event leaves it, or the same. */
  lemma Becomes(w: World, a: Action, cid: Id)
    requires BirthIn(w, a, cid).None? && cid in Step(w, a).conns
    ensures var e := EventOf(w, a, cid);
            && cid in w.conns
            && Step(w, a).conns[cid] == (if e.Some? then Connection.Apply(w.conns[cid], e.value).conn else w.conns[cid])
  {
    StepTraced(w, a, cid);
    hide Step, Connection.Apply, DataFor, SentOn, EventOf, BirthIn;
  }

  lemma Newborns(w: World, a: Action, cid: Id)
    requires BirthIn(w, a, cid).Some?
    ensures cid !in w.connAddr && cid in Step(w, a).conns
    ensures var c := Step(w, a).conns[cid];
            && c.rid == 0 && c.local == a.OpenLocal? && (c.init.SocketPending? <==> a.OpenLocal?) && !c.init.ConnectPending?
    ensures a.OpenLocal? ==> SocketCall(cid) in Step(w, a).east
    ensures !a.OpenLocal? ==> a.OpenRemote?
  {
    BornStep(w, a, cid);
    if a.OpenLocal? {
      assert Step(w, a).east == w.east + [SocketCall(cid)];
    }
    hide Step;
  }

  lemma LocalStays(c: Connection.Conn, e: Connection.Event)
    ensures var d := Connection.Apply(c, e).conn;
            && d.local == c.local && (c.rid != 0 ==> d.rid == c.rid)
            && (d.init.SocketPending? ==> c.init.SocketPending? && !e.GotSocket?)
            && (d.init.ConnectPending? ==> (c.init.ConnectPending? && !e.GotConnected?) || (e.GotSocket? && c.init.SocketPending?))
            && (e.GotSocket? && c.init.SocketPending? && d.init.ConnectPending? ==>
                  Connection.Apply(c, e).calls == [Connection.Connect(d.rid, c.to)])
            && (e.GotSocket? && e.created > 0 && c.init.SocketPending? && c.rid == 0 ==> d.rid != 0)
            && (e.GotAccepted? && e.rid != 0 && !c.local && c.rid == 0 ==> d.rid != 0)
  {
  }

  // ---------- Sides ----------

  lemma SideStays(w: World, a: Action, cid: Id)
    requires Kinds(w) && cid in w.connAddr && cid in Step(w, a).conns
    ensures BirthIn(w, a, cid).None? && cid in w.conns && Step(w, a).conns[cid].local == w.conns[cid].local
  {
    hide Step, Kinds;
    assert BirthIn(w, a, cid).None? by {
      if BirthIn(w, a, cid).Some? {
        Newborns(w, a, cid);
      }
    }
    Becomes(w, a, cid);
    hide Connection.Apply;
    var e := EventOf(w, a, cid);
    if e.Some? {
      LocalStays(w.conns[cid], e.value);
    }
  }

  lemma OldEastSides(w: World, a: Action, m: East)
    requires Kinds(w) && Sides(w) && m in w.east
    ensures EastSides(Step(w, a), m)
  {
    SidesOf(w, m);
    EastNames(w, m);
    hide Step, Kinds, Sides;
    if (m.SocketCall? || m.AcceptOk?) && m.cid in Step(w, a).conns {
      SideStays(w, a, m.cid);
    }
  }

  lemma EastNames(w: World, m: East)
    requires Kinds(w) && m in w.east
    ensures m.SocketCall? || m.AcceptOk? ==> m.cid in w.connAddr
  {
    var i :| 0 <= i < |w.east| && w.east[i] == m;
    KindsParts(w);
    assert EastOk(w.connAddr, w.madeFor, w.east[i]);
  }

  lemma NewEastSides(w: World, a: Action, m: East)
    requires EastOrigin(w, a, m)
    ensures EastSides(Step(w, a), m)
  {
    hide Step;
    if m.SocketCall? || m.AcceptOk? {
      Newborns(w, a, m.cid);
    }
  }

  lemma EastSidesStep(w: World, a: Action, m: East)
    requires Kinds(w) && Sides(w) && m in Step(w, a).east
    ensures EastSides(Step(w, a), m)
  {
    StepEastOrigin(w, a);
    RestIsPart(w, a);
    hide Step, Kinds, Sides, EastSides, EastOrigin;
    if m in RestEast(w, a) {
      OldEastSides(w, a, m);
    } else {
      NewEastSides(w, a, m);
    }
  }

  lemma SidesOf(w: World, m: East)
    requires Sides(w) && m in w.east
    ensures EastSides(w, m)
  {
  }

  lemma SidesOfWest(w: World, m: West)
    requires Sides(w) && m in w.west
    ensures WestSides(w, m)
  {
  }

  lemma RestIsPart(w: World, a: Action)
    ensures forall m :: m in RestEast(w, a) ==> m in w.east
    ensures forall m :: m in RestWest(w, a) ==> m in w.west
  {
  }

  lemma OldWestSides(w: World, a: Action, m: West)
    requires Kinds(w) && Sides(w) && m in w.west
    ensures WestSides(Step(w, a), m)
  {
    SidesOfWest(w, m);
    WestNames(w, m);
    hide Step, Kinds, Sides;
    if ((m.SocketDone? && m.sid != 0) || m.Accepted?) && m.cid in Step(w, a).conns {
      SideStays(w, a, m.cid);
    }
  }

  lemma WestNames(w: World, m: West)
    requires Kinds(w) && m in w.west
    ensures (m.SocketDone? && m.sid != 0) || m.Accepted? ==> m.cid in w.connAddr
  {
    var i :| 0 <= i < |w.west| && w.west[i] == m;
    KindsParts(w);
    assert WestOk(w.connAddr, w.madeFor, w.west[i]);
  }

  lemma NewWestSides(w: World, a: Action, m: West)
    requires Kinds(w) && Sides(w) && WestOrigin(w, a, m)
    ensures WestSides(Step(w, a), m)
  {
    if m.SocketDone? || m.Accepted? {
      HeadEast(w, a);
      SidesOf(w, w.east[0]);
      EastNames(w, w.east[0]);
      hide Step, Kinds, Sides;
      if m.cid in Step(w, a).conns {
        SideStays(w, a, m.cid);
      }
    }
  }

  lemma WestSidesStep(w: World, a: Action, m: West)
    requires Kinds(w) && Order(w) && Sides(w) && m in Step(w, a).west
    ensures WestSides(Step(w, a), m)
  {
    StepWestOrigin(w, a);
    RestIsPart(w, a);
    hide Step, Kinds, Order, Sides, WestSides, WestOrigin;
    if m in RestWest(w, a) {
      OldWestSides(w, a, m);
    } else {
      NewWestSides(w, a, m);
    }
  }

  lemma HeadEast(w: World, a: Action)
    requires Kinds(w) && Enabled(w, a) && a.DeliverEast?
    ensures w.east != [] && w.east[0] in w.east && EastOk(w.connAddr, w.madeFor, w.east[0])
  {
  }

  // ---------- Nobody waits for nothing ----------

  lemma SocketAwaited(w: World, a: Action, cid: Id)
    requires Kinds(w) && Order(w) && Awaited(w, cid) && BirthIn(w, a, cid).None?
    requires cid in Step(w, a).conns && Step(w, a).conns[cid].init.SocketPending?
    ensures SocketCall(cid) in Step(w, a).east || SocketAnswered(Step(w, a).west, cid)
  {
    var u, e := Step(w, a), EventOf(w, a, cid);
    Becomes(w, a, cid);
    StillUnderWay(w, a);
    hide Step, Kinds, Order, Connection.Apply;
    if e.Some? {
      LocalStays(w.conns[cid], e.value);
    }
    if SocketCall(cid) in w.east {
      if Enabled(w, a) && a.DeliverEast? && w.east[0] == SocketCall(cid) {
        DeliveredWestward(w, a);
        var answer := SocketDone(cid, if a.ok then a.sid else 0);
        assert u.west == w.west + [answer];
        assert answer in u.west;
      }
    } else {
      var m :| m in w.west && m.SocketDone? && m.cid == cid;
      assert m in u.west;
    }
  }

  lemma ConnectAwaited(w: World, a: Action, cid: Id)
    requires Kinds(w) && Order(w) && Awaited(w, cid) && BirthIn(w, a, cid).None?
    requires cid in Step(w, a).conns && Step(w, a).conns[cid].init.ConnectPending?
    ensures ConnectAsked(Step(w, a).east, cid) || ConnectAnswered(Step(w, a).west, cid)
  {
    var u, e := Step(w, a), EventOf(w, a, cid);
    Becomes(w, a, cid);
    StillUnderWay(w, a);
    hide Step, Kinds, Order, Connection.Apply;
    if e.Some? {
      LocalStays(w.conns[cid], e.value);
    }
    if !w.conns[cid].init.ConnectPending? {
      ConnectSent(w, a, cid);
    } else if ConnectAsked(w.east, cid) {
      var m :| m in w.east && m.ConnectCall? && m.cid == cid;
      if Enabled(w, a) && a.DeliverEast? && w.east[0] == m {
        DeliveredWestward(w, a);
        var answer := ConnectDone(cid, m.sid in w.sockets);
        assert u.west == w.west + [answer];
        assert answer in u.west;
      } else {
        assert m in u.east;
      }
    } else {
      var m :| m in w.west && m.ConnectDone? && m.cid == cid;
      assert m in u.west;
    }
  }

  // The callback of a SOCKET response submits a CONNECT.
  lemma ConnectSent(w: World, a: Action, cid: Id)
    requires BirthIn(w, a, cid).None? && cid in w.conns && cid in Step(w, a).conns
    requires !w.conns[cid].init.ConnectPending? && Step(w, a).conns[cid].init.ConnectPending?
    ensures ConnectAsked(Step(w, a).east, cid)
  {
    var u, e, c := Step(w, a), EventOf(w, a, cid), w.conns[cid];
    Becomes(w, a, cid);
    assert e.Some?;
    LocalStays(c, e.value);
    var d := Connection.Apply(c, e.value).conn;
    var m := ConnectCall(cid, d.rid, c.to);
    var calls := Connection.Apply(c, e.value).calls;
    assert calls[0] == Connection.Connect(d.rid, c.to);
    WireElements(cid, calls, m);
    hide Connection.Apply, Happens;
    var v := w.(west := w.west[1..]);
    HappensEast(v, cid, e.value, m);
    assert u == Happens(v, cid, e.value);
    assert m in u.east;
  }

  lemma AwaitedStep(w: World, a: Action, cid: Id)
    requires Kinds(w) && Order(w) && Awaited(w, cid)
    ensures Awaited(Step(w, a), cid)
  {
    hide Step, Kinds, Order, BirthIn;
    if cid in Step(w, a).conns {
      if BirthIn(w, a, cid).Some? {
        Newborns(w, a, cid);
      } else {
        if Step(w, a).conns[cid].init.SocketPending? {
          SocketAwaited(w, a, cid);
        }
        if Step(w, a).conns[cid].init.ConnectPending? {
          ConnectAwaited(w, a, cid);
        }
      }
    }
  }

  // ---------- A socket is announced ----------

  lemma NewAnnounced(w: World, a: Action, sid: Id)
    requires Order(w) && sid in Step(w, a).sockets && sid !in w.sockets
    ensures var u := Step(w, a);
            SocketDone(u.sockets[sid].rid, sid) in u.west || Accepted(u.sockets[sid].rid, sid) in u.west
  {
    var u := Step(w, a);
    hide Order;
    MadeBy(w, a, sid);
    DeliveredWestward(w, a);
    hide Step;
    var m := w.east[0];
    assert m.SocketCall? ==> SocketDone(m.cid, sid) in u.west;
    assert m.AcceptOk? ==> Accepted(m.cid, sid) in u.west;
  }

  // Only the delivery of a request makes a socket.
  lemma MadeBy(w: World, a: Action, sid: Id)
    requires sid in Step(w, a).sockets && sid !in w.sockets
    ensures Enabled(w, a) && a.DeliverEast? && a.sid == sid && a.ok && w.east != []
    ensures var m := w.east[0];
            && (m.SocketCall? || (m.AcceptOk? && m.ticket.fwd in w.fwds && m.ticket.slot in w.fwds[m.ticket.fwd]))
            && Step(w, a).sockets[sid] == Socket(m.cid, if m.SocketCall? then None else Some(a.to))
  {
    if Enabled(w, a) && a.DeliverEast? {
      hide HandleEast;
      MadeByDelivery(w.(east := w.east[1..]), w.east[0], a.sid, a.to, a.ok, sid);
    } else if Enabled(w, a) && a.DeliverWest? {
      WestSide(w.(west := w.west[1..]), w.west[0], a.now, a.listening);
      hide HandleWest;
    } else if Enabled(w, a) {
      LocalIs(w, a);
      hide Step;
    }
  }

  lemma MadeByDelivery(w: World, m: East, made: Id, to: Addr, ok: bool, sid: Id)
    requires sid in HandleEast(w, m, made, to, ok).sockets && sid !in w.sockets
    ensures made == sid && ok
    ensures m.SocketCall? || (m.AcceptOk? && m.ticket.fwd in w.fwds && m.ticket.slot in w.fwds[m.ticket.fwd])
    ensures HandleEast(w, m, made, to, ok).sockets[sid] == Socket(m.cid, if m.SocketCall? then None else Some(to))
  {
    if m.CloseEast? {
      SocketClosed(w, m, made, to, ok);
      hide HandleEast;
    }
  }

  lemma OldAnnounced(w: World, a: Action, sid: Id)
    requires Kinds(w) && Kinds(Step(w, a)) && AllFirm(w) && Sides(w) && Announced(w, sid) && Moves(w, a)
    requires sid in w.sockets && sid in Step(w, a).sockets
    ensures Announced(Step(w, a), sid)
  {
    var u, cid := Step(w, a), w.sockets[sid].rid;
    KindsParts(w);
    KindsParts(u);
    MovesKeep(w, a);
    assert Made(w.madeFor, sid, cid) && Made(u.madeFor, sid, u.sockets[sid].rid);
    hide Step, Kinds, ConnsOk, LogsOk, AllEast, Sides, AllFirm, Moves;
    assert u.sockets[sid].rid == cid && cid in w.connAddr && sid != 0;
    if cid in u.conns && u.conns[cid].rid == 0 {
      SideStays(w, a, cid);
      Becomes(w, a, cid);
      StillUnderWay(w, a);
      var e := EventOf(w, a, cid);
      hide Connection.Apply;
      if e.Some? {
        LocalStays(w.conns[cid], e.value);
      }
      var m := if SocketDone(cid, sid) in w.west then SocketDone(cid, sid) else Accepted(cid, sid);
      if Enabled(w, a) && a.DeliverWest? && w.west[0] == m {
        KnowsNow(w, a, cid, sid);
      }
    }
  }

  // The announcement of a socket tells the connection of it.
  lemma KnowsNow(w: World, a: Action, cid: Id, sid: Id)
    requires AllFirm(w) && Sides(w) && sid != 0 && BirthIn(w, a, cid).None?
    requires Enabled(w, a) && a.DeliverWest? && (w.west[0] == SocketDone(cid, sid) || w.west[0] == Accepted(cid, sid))
    requires cid in w.conns && cid in Step(w, a).conns
    ensures Step(w, a).conns[cid].rid != 0
  {
    var m, e := w.west[0], EventOf(w, a, cid);
    assert m in w.west;
    SidesOfWest(w, m);
    FirmHere(w, cid);
    Becomes(w, a, cid);
    LocalStays(w.conns[cid], e.value);
    hide Step, Connection.Apply, AllFirm, Sides;
  }

  lemma FirmHere(w: World, cid: Id)
    requires AllFirm(w) && cid in w.conns
    ensures Firm(w.conns[cid])
  {
  }

  // ---------- Whole runs ----------

  lemma ProgressStep(w: World, a: Action)
    requires Kinds(w) && Order(w) && Kinds(Step(w, a)) && AllFirm(w) && Progress(w)
    ensures Progress(Step(w, a))
  {
    StepMoves(w, a);
    hide Step, Kinds, Order, AllFirm, Awaited, Announced, EastSides, WestSides, Moves;
    forall m | m in Step(w, a).east
      ensures EastSides(Step(w, a), m)
    {
      EastSidesStep(w, a, m);
    }
    forall m | m in Step(w, a).west
      ensures WestSides(Step(w, a), m)
    {
      WestSidesStep(w, a, m);
    }
    forall cid
      ensures Awaited(Step(w, a), cid)
    {
      AwaitedStep(w, a, cid);
    }
    forall sid
      ensures Announced(Step(w, a), sid)
    {
      if sid in Step(w, a).sockets {
        if sid in w.sockets {
          OldAnnounced(w, a, sid);
        } else {
          NewAnnounced(w, a, sid);
          assert Announced(Step(w, a), sid) by { AnnouncedIntro(Step(w, a), sid); }
        }
      } else {
        assert Announced(Step(w, a), sid) by { AnnouncedIntro(Step(w, a), sid); }
      }
    }
  }

  lemma AnnouncedIntro(u: World, sid: Id)
    requires sid in u.sockets ==> SocketDone(u.sockets[sid].rid, sid) in u.west || Accepted(u.sockets[sid].rid, sid) in u.west
    ensures Announced(u, sid)
  {
  }

  /** The ledger of a connection that is there. */
  lemma LedgerHere(actions: seq<Action>, cid: Id)
    requires cid in Run(actions).conns
    ensures BirthOf(actions, cid).Some?
    ensures var b, c := BirthOf(actions, cid).value, Run(actions).conns[cid];
            var l := Connection.Classify(b.local, true, b.packets, EventsOf(actions, cid));
            l.phase != Connection.Failed && l.phase != Connection.Unstarted && Connection.Agrees(c, l) && c.local == b.local
  {
    var w, b, events := Run(actions), BirthOf(actions, cid), EventsOf(actions, cid);
    ConnectionsRun(actions, cid);
    RunsKeep(actions);
    KindsParts(w);
    assert cid in w.connAddr;
    hide Run, DataFor, EastLog;
    StartedPhase(b.value.local, b.value.packets, events);
    Connection.SendOrder(cid, b.value.addr, b.value.local, true, b.value.to, b.value.timeout, b.value.packets,
                         b.value.now, events);
    hide Connection.Run, Connection.Classify, Connection.Expected, Connection.Submitted, Connection.Agrees;
  }

  lemma {:induction false} StartedPhase(local: bool, packets: seq<Packet>, events: seq<Connection.Event>)
    ensures Connection.Classify(local, true, packets, events).phase != Connection.Unstarted
  {
    if events != [] {
      StartedPhase(local, packets, Front(events));
    }
  }

  lemma AllAreFirm(actions: seq<Action>)
    ensures AllFirm(Run(actions))
  {
    hide Run;
    forall cid | cid in Run(actions).conns
      ensures Firm(Run(actions).conns[cid])
    {
      LedgerHere(actions, cid);
      hide Connection.Classify;
    }
  }

  lemma {:induction false} RunsProgress(actions: seq<Action>)
    ensures Progress(Run(actions))
  {
    if actions != [] {
      RunsProgress(Front(actions));
      RunsKeep(Front(actions));
      RunsKeep(actions);
      AllAreFirm(Front(actions));
      RunStep(actions);
      hide Run, Step, Kinds, Order, Once, Slots, AllFirm, Progress;
      ProgressStep(Run(Front(actions)), Last(actions));
    }
  }

  /** When nothing is under way, every connection that has a socket, or that makes its own, knows
      it; a flush that is not due any more has happened; and everything that the connection was
      ever given has been passed on by its socket, in the order of its ledger, and everything
      that the socket received has been written to the source. */
  lemma NothingIsStuck(actions: seq<Action>, sid: Id)
    requires Run(actions).east == [] && Run(actions).west == [] && sid in Run(actions).sockets
    requires Run(actions).sockets[sid].rid in Run(actions).conns
    requires !Run(actions).conns[Run(actions).sockets[sid].rid].flushArmed
    ensures var w := Run(actions);
            var cid := w.sockets[sid].rid;
            && w.conns[cid].rid == sid && BirthOf(actions, cid).Some?
            && var b := BirthOf(actions, cid).value;
               var l := Connection.Classify(b.local, true, b.packets, EventsOf(actions, cid));
            && l.phase == Connection.Flushed && w.conns[cid].q == None
            && Passed(w.forwarded, sid) == l.mid + l.pre + l.post
            && WrittenFrom(w.written, sid) == RepliesOf(actions, sid)
  {
    var w, cid := Run(actions), Run(actions).sockets[sid].rid;
    hide *;
    RunsProgress(actions);
    RunsKeep(actions);
    OnlySocket(w, sid);
    MadeHere(w, sid, cid);
    LedgerHere(actions, cid);
    var b := BirthOf(actions, cid).value;
    var l := Connection.Classify(b.local, true, b.packets, EventsOf(actions, cid));
    EndToEnd(actions, sid);
    RepliesInOrder(actions, sid);
    QuietIsFlushed(w, sid, l);
    NothingUnderWay(sid);
    LinksAreSymmetric(actions, cid, cid);
    assert Passed(w.forwarded, sid) + [] == Passed(w.forwarded, sid);
    assert WrittenFrom(w.written, sid) + [] == WrittenFrom(w.written, sid);
    assert l.mid + (l.pre + l.post) == l.mid + l.pre + l.post;
  }

  lemma MadeHere(w: World, sid: Id, cid: Id)
    requires Made(w.madeFor, sid, cid)
    ensures sid in w.madeFor && w.madeFor[sid] == cid
  {
  }

  lemma NothingUnderWay(sid: Id)
    ensures Carried([], sid) == [] && Returning([], sid) == []
  {
  }

  lemma QuietIsFlushed(w: World, sid: Id, l: Connection.Ledger)
    requires Progress(w) && w.east == [] && w.west == [] && sid in w.sockets && w.sockets[sid].rid in w.conns
    requires !w.conns[w.sockets[sid].rid].flushArmed
    requires l.phase != Connection.Failed && l.phase != Connection.Unstarted
    requires Connection.Agrees(w.conns[w.sockets[sid].rid], l)
    ensures l.phase == Connection.Flushed && w.conns[w.sockets[sid].rid].q == None && w.conns[w.sockets[sid].rid].rid != 0
  {
    assert Awaited(w, w.sockets[sid].rid) && Announced(w, sid);
    hide Progress;
  }

  /** When nothing is under way, every local connection is linked and flushed. */
  lemma LocalsAreLinked(actions: seq<Action>, cid: Id)
    requires Run(actions).east == [] && Run(actions).west == []
    requires cid in Run(actions).conns && Run(actions).conns[cid].local
    ensures Run(actions).conns[cid].rid != 0 && Run(actions).conns[cid].q == None
  {
    RunsProgress(actions);
    LedgerHere(actions, cid);
    assert Awaited(Run(actions), cid);
    hide Run, Progress, Connection.Classify;
  }
}

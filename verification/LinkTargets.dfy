/** Where the packets go: a socket passes everything on to the one destination it has been
    given, that of its connection or of the forwarder that accepted it. */
module LinkTargets {
  import opened Base
  import opened Link
  import opened LinkCounts
  import opened LinkKinds
  import opened LinkOnce
  import opened LinkOrder
  import opened LinkDelivery
  import opened LinkTraces
  import opened LinkTickets
  import opened LinkRuns
  import opened LinkOrigins
  import opened LinkProgress
  import Connection

  // Where a connection that makes its own counterpart wants it to send.
  function WantedBy(actions: seq<Action>, cid: Id): Option<Addr> {
    var b := BirthOf(actions, cid);
    if b.Some? && b.value.local then Some(b.value.to) else None
  }

  /** Where a socket has to send, on the actions alone: where the connection that asked for it
      wants it to, or where the remote forwarder that accepted the connection forwards to. */
  function Target(actions: seq<Action>, sid: Id): Option<Addr> {
    if actions == [] then None
    else
      var before, a := Front(actions), Last(actions);
      var w := Run(before);
      if Enabled(w, a) && a.DeliverEast? && a.sid == sid then
        match w.east[0]
        case SocketCall(cid) => WantedBy(before, cid)
        case AcceptOk(_, _) => Some(a.to)
        case _ => None
      else Target(before, sid)
  }

  // ---------- Nothing of this changes later ----------

  lemma WantedStays(actions: seq<Action>, cid: Id)
    requires actions != [] && cid in Run(Front(actions)).connAddr
    ensures BirthOf(actions, cid) == BirthOf(Front(actions), cid)
    ensures WantedBy(actions, cid) == WantedBy(Front(actions), cid)
  {
    var w, a := Run(Front(actions)), Last(actions);
    if BirthIn(w, a, cid).Some? {
      Newborns(w, a, cid);
    }
    hide Run, BirthIn;
  }

  lemma TargetStays(actions: seq<Action>, sid: Id)
    requires actions != [] && sid in Run(Front(actions)).madeFor
    ensures Target(actions, sid) == Target(Front(actions), sid)
  {
    hide Run;
  }

  // ---------- What is under way ----------

  predicate EastAims(actions: seq<Action>, m: East) {
    match m
    case SocketCall(cid) => WantedBy(actions, cid).Some?
    case ConnectCall(cid, _, to) => WantedBy(actions, cid) == Some(to)
    case AcceptOk(_, cid) => WantedBy(actions, cid).None?
    case _ => true
  }

  predicate SocketAims(actions: seq<Action>, w: World, sid: Id)
    requires sid in w.sockets
  {
    w.sockets[sid].to.Some? ==> Target(actions, sid) == w.sockets[sid].to
  }

  predicate MadeAims(actions: seq<Action>, w: World, sid: Id)
    requires sid in w.madeFor
  {
    WantedBy(actions, w.madeFor[sid]).Some? ==> Target(actions, sid) == WantedBy(actions, w.madeFor[sid])
  }

  predicate Aimed(actions: seq<Action>) {
    var w := Run(actions);
    && (forall m :: m in w.east ==> EastAims(actions, m))
    && (forall sid :: sid in w.sockets ==> SocketAims(actions, w, sid))
    && (forall sid :: sid in w.madeFor ==> MadeAims(actions, w, sid))
    && (forall x :: x in w.forwarded ==> Target(actions, x.sid) == Some(x.to))
  }

  lemma EastStillAims(actions: seq<Action>, m: East)
    requires actions != [] && EastAims(Front(actions), m)
    requires (m.SocketCall? || m.ConnectCall? || m.AcceptOk?) ==> m.cid in Run(Front(actions)).connAddr
    ensures EastAims(actions, m)
  {
    if m.SocketCall? || m.ConnectCall? || m.AcceptOk? {
      WantedStays(actions, m.cid);
    }
    hide Run, WantedBy;
  }

  // A message of the step itself.
  lemma NewEastAims(actions: seq<Action>, m: East)
    requires actions != [] && Kinds(Run(Front(actions))) && EastOrigin(Run(Front(actions)), Last(actions), m)
    ensures EastAims(actions, m)
  {
    var before, a := Front(actions), Last(actions);
    var w := Run(before);
    hide Kinds;
    match m
    case SocketCall(cid) => assert BirthIn(w, a, cid).Some?; hide Run, EastOrigin;
    case AcceptOk(_, cid) => assert BirthIn(w, a, cid).Some?; hide Run, EastOrigin;
    case ConnectCall(cid, _, to) =>
      ConnectWants(before, cid);
      KnownConn(w, cid);
      WantedStays(actions, cid);
      hide Run, WantedBy, BirthOf;
    case _ =>
  }

  lemma KnownConn(w: World, cid: Id)
    requires Kinds(w) && cid in w.conns
    ensures cid in w.connAddr
  {
    KindsParts(w);
    assert ConnOk(w.connAddr, w.madeFor, cid, w.conns[cid]);
  }

  // A local connection connects to where it wants to.
  lemma ConnectWants(actions: seq<Action>, cid: Id)
    requires cid in Run(actions).conns && Run(actions).conns[cid].local
    ensures WantedBy(actions, cid) == Some(Run(actions).conns[cid].to)
  {
    LedgerHere(actions, cid);
    ConnectionsRun(actions, cid);
    var w, b, events := Run(actions), BirthOf(actions, cid).value, EventsOf(actions, cid);
    hide Run, EastLog, DataFor, BirthOf;
    Connection.SendOrder(cid, b.addr, b.local, true, b.to, b.timeout, b.packets, b.now, events);
    hide Connection.Run, Connection.Classify, Connection.Expected, Connection.Submitted, Connection.Agrees;
  }

  lemma EastAimsStep(actions: seq<Action>, m: East)
    requires actions != [] && Aimed(Front(actions)) && Kinds(Run(Front(actions))) && m in Run(actions).east
    ensures EastAims(actions, m)
  {
    var w, a := Run(Front(actions)), Last(actions);
    RunStep(actions);
    StepEastOrigin(w, a);
    RestIsPart(w, a);
    assert m in RestEast(w, a) || EastOrigin(w, a, m);
    if m in RestEast(w, a) {
      assert m in w.east;
      EastKnown(w, m);
      hide Run, Step, Kinds;
      assert EastAims(Front(actions), m);
      EastStillAims(actions, m);
    } else {
      hide Run, Step, Kinds, EastOrigin, Aimed;
      NewEastAims(actions, m);
    }
  }

  lemma EastKnown(w: World, m: East)
    requires Kinds(w) && m in w.east
    ensures (m.SocketCall? || m.ConnectCall? || m.AcceptOk?) ==> m.cid in w.connAddr
  {
    var i :| 0 <= i < |w.east| && w.east[i] == m;
    KindsParts(w);
    assert EastOk(w.connAddr, w.madeFor, w.east[i]);
  }

  // ---------- Sockets ----------

  /** A socket is made by the delivery of a request, keeps its destination, or is connected. */
  predicate SocketOrigin(w: World, a: Action, sid: Id, x: Socket) {
    || (sid in w.sockets && w.sockets[sid] == x)
    || (Enabled(w, a) && a.DeliverEast? && w.east != []
        && var m := w.east[0];
           || (a.sid == sid && x == Socket(if m.SocketCall? || m.AcceptOk? then m.cid else 0, if m.SocketCall? then None else Some(a.to))
               && (m.SocketCall? || m.AcceptOk?))
           || (m.ConnectCall? && m.sid == sid && x.to == Some(m.to)))
  }

  lemma AcceptedSocket(w: World, m: East, made: Id, to: Addr, ok: bool, sid: Id)
    requires m.AcceptOk? && sid in HandleEast(w, m, made, to, ok).sockets
    ensures var x := HandleEast(w, m, made, to, ok).sockets[sid];
            (sid in w.sockets && w.sockets[sid] == x) || (made == sid && x == Socket(m.cid, Some(to)))
  {
    var u := HandleEast(w, m, made, to, ok);
    assert u.sockets == w.sockets || u.sockets == w.sockets[made := Socket(m.cid, Some(to))];
    hide HandleEast;
  }

  lemma DeliveredSocket(w: World, m: East, made: Id, to: Addr, ok: bool, sid: Id)
    requires sid in HandleEast(w, m, made, to, ok).sockets
    ensures var x := HandleEast(w, m, made, to, ok).sockets[sid];
            || (sid in w.sockets && w.sockets[sid] == x)
            || (made == sid && ((m.SocketCall? && x == Socket(m.cid, None)) || (m.AcceptOk? && x == Socket(m.cid, Some(to)))))
            || (m.ConnectCall? && m.sid == sid && x.to == Some(m.to))
  {
    hide HandleEast;
    if m.CloseEast? {
      SocketClosed(w, m, made, to, ok);
    } else if m.AcceptOk? {
      AcceptedSocket(w, m, made, to, ok, sid);
    } else if m.ConnectCall? {
      ConnectedSocket(w, m, made, to, ok, sid);
    } else {
      AskedSocket(w, m, made, to, ok, sid);
    }
  }

  lemma ConnectedSocket(w: World, m: East, made: Id, to: Addr, ok: bool, sid: Id)
    requires m.ConnectCall? && sid in HandleEast(w, m, made, to, ok).sockets
    ensures var x := HandleEast(w, m, made, to, ok).sockets[sid];
            (sid in w.sockets && w.sockets[sid] == x) || (m.sid == sid && x.to == Some(m.to))
  {
  }

  lemma AskedSocket(w: World, m: East, made: Id, to: Addr, ok: bool, sid: Id)
    requires (m.SocketCall? || m.DataEast? || m.AcceptBad?) && sid in HandleEast(w, m, made, to, ok).sockets
    ensures var x := HandleEast(w, m, made, to, ok).sockets[sid];
            (sid in w.sockets && w.sockets[sid] == x) || (made == sid && m.SocketCall? && x == Socket(m.cid, None))
  {
  }

  lemma LocalSockets(w: World, a: Action, sid: Id)
    requires Enabled(w, a) && !a.DeliverEast? && !a.DeliverWest? && sid in Step(w, a).sockets
    ensures sid in w.sockets && Step(w, a).sockets[sid] == w.sockets[sid]
  {
    hide Happens, Dropped, Wire, Closes, Connection.Start, Connection.New;
    match a
    case Callback(cid, e) => HappensIs(w, cid, e);
    case RemoveConn(cid) => DroppedIs(w, cid);
    case _ =>
  }

  lemma StepSockets(w: World, a: Action, sid: Id)
    requires sid in Step(w, a).sockets
    ensures SocketOrigin(w, a, sid, Step(w, a).sockets[sid])
  {
    if Enabled(w, a) {
      if a.DeliverEast? {
        hide HandleEast;
        DeliveredSocket(w.(east := w.east[1..]), w.east[0], a.sid, a.to, a.ok, sid);
      } else if a.DeliverWest? {
        WestSide(w.(west := w.west[1..]), w.west[0], a.now, a.listening);
        hide HandleWest;
      } else {
        hide Step;
        LocalSockets(w, a, sid);
      }
    }
  }

  // What the delivery of a request makes of the target of its socket.
  lemma TargetMade(actions: seq<Action>, sid: Id)
    requires actions != []
    requires var w, a := Run(Front(actions)), Last(actions); Enabled(w, a) && a.DeliverEast? && a.sid == sid && w.east != []
    ensures var w, a := Run(Front(actions)), Last(actions);
            && (w.east[0].SocketCall? ==> Target(actions, sid) == WantedBy(Front(actions), w.east[0].cid))
            && (w.east[0].AcceptOk? ==> Target(actions, sid) == Some(a.to))
  {
    hide Run, WantedBy;
  }

  lemma SocketAimsStep(actions: seq<Action>, sid: Id)
    requires actions != [] && Aimed(Front(actions)) && Kinds(Run(Front(actions))) && sid in Run(actions).sockets
    ensures SocketAims(actions, Run(actions), sid)
  {
    var w, a := Run(Front(actions)), Last(actions);
    RunStep(actions);
    StepSockets(w, a, sid);
    var x := Run(actions).sockets[sid];
    hide Step;
    if sid in w.sockets && w.sockets[sid] == x {
      SocketMade(w, sid);
      TargetStays(actions, sid);
      hide Run, Target, Kinds;
      assert SocketAims(Front(actions), w, sid);
    } else if a.sid == sid && (w.east[0].SocketCall? || w.east[0].AcceptOk?) {
      TargetMade(actions, sid);
      hide Run, Target, Kinds, Aimed;
    } else {
      var m := w.east[0];
      assert m in w.east;
      ConnectsMade(w, m);
      TargetStays(actions, sid);
      assert EastAims(Front(actions), m) && MadeAims(Front(actions), w, sid);
      hide Run, Target, Kinds, Aimed;
    }
  }

  lemma SocketMade(w: World, sid: Id)
    requires Kinds(w) && sid in w.sockets
    ensures sid in w.madeFor && w.madeFor[sid] == w.sockets[sid].rid
  {
    KindsParts(w);
    assert Made(w.madeFor, sid, w.sockets[sid].rid);
  }

  lemma ConnectsMade(w: World, m: East)
    requires Kinds(w) && m in w.east && m.ConnectCall?
    ensures m.sid in w.madeFor && w.madeFor[m.sid] == m.cid
  {
    var i :| 0 <= i < |w.east| && w.east[i] == m;
    KindsParts(w);
    assert EastOk(w.connAddr, w.madeFor, w.east[i]);
  }

  // ---------- Every socket there has been ----------

  lemma MadeOrigin(w: World, a: Action, sid: Id)
    requires Moves(w, a) && sid in Step(w, a).madeFor && sid !in w.madeFor
    ensures Enabled(w, a) && a.DeliverEast? && a.sid == sid && w.east != []
    ensures (w.east[0].SocketCall? || w.east[0].AcceptOk?) && Step(w, a).madeFor[sid] == w.east[0].cid
  {
    if Enabled(w, a) && a.DeliverEast? {
      DeliveredMade(w.(east := w.east[1..]), w.east[0], a.sid, a.to, a.ok, sid);
      hide HandleEast, Moves;
    } else if Enabled(w, a) && a.DeliverWest? {
      WestSide(w.(west := w.west[1..]), w.west[0], a.now, a.listening);
      hide HandleWest, Moves;
    } else if Enabled(w, a) {
      LocalIs(w, a);
      hide Step, Moves;
    }
  }

  lemma DeliveredMade(w: World, m: East, made: Id, to: Addr, ok: bool, sid: Id)
    requires sid in HandleEast(w, m, made, to, ok).madeFor && sid !in w.madeFor
    ensures made == sid && (m.SocketCall? || m.AcceptOk?) && HandleEast(w, m, made, to, ok).madeFor[sid] == m.cid
  {
    if m.CloseEast? {
      SocketClosed(w, m, made, to, ok);
      hide HandleEast;
    }
  }

  lemma MadeAimsStep(actions: seq<Action>, sid: Id)
    requires actions != [] && Aimed(Front(actions)) && Kinds(Run(Front(actions))) && sid in Run(actions).madeFor
    ensures MadeAims(actions, Run(actions), sid)
  {
    var w, a := Run(Front(actions)), Last(actions);
    RunStep(actions);
    StepMoves(w, a);
    MovesKeep(w, a);
    var cid := Run(actions).madeFor[sid];
    hide Step;
    if sid in w.madeFor {
      MadeKnown(w, sid);
      TargetStays(actions, sid);
      WantedStays(actions, cid);
      assert MadeAims(Front(actions), w, sid);
      hide Run, Target, WantedBy, Kinds, Aimed, Moves;
    } else {
      MadeOrigin(w, a, sid);
      var m := w.east[0];
      assert m in w.east;
      EastKnown(w, m);
      TargetMade(actions, sid);
      WantedStays(actions, cid);
      assert EastAims(Front(actions), m);
      hide Run, Target, WantedBy, Kinds, Aimed, Moves;
    }
  }

  lemma MadeKnown(w: World, sid: Id)
    requires Kinds(w) && sid in w.madeFor
    ensures w.madeFor[sid] in w.connAddr
  {
    KindsParts(w);
  }

  // ---------- What has been passed on ----------

  lemma ForwardedOrigin(w: World, a: Action, x: Forwarded)
    requires Moves(w, a) && x in Step(w, a).forwarded
    ensures x in w.forwarded || (x.sid in w.sockets && w.sockets[x.sid].to == Some(x.to))
  {
    hide Step;
    var log := if Enabled(w, a) && a.DeliverEast? then PassedOn(w, w.east[0]) else [];
    assert Step(w, a).forwarded == w.forwarded + log;
    assert x in w.forwarded || x in log;
  }

  lemma ForwardedAims(actions: seq<Action>, x: Forwarded)
    requires actions != [] && Aimed(Front(actions)) && Kinds(Run(Front(actions))) && x in Run(actions).forwarded
    ensures Target(actions, x.sid) == Some(x.to)
  {
    var w, a := Run(Front(actions)), Last(actions);
    RunStep(actions);
    StepMoves(w, a);
    hide Step, Moves, Run, Kinds, Target, EastAims, MadeAims;
    ForwardedOrigin(w, a, x);
    if x in w.forwarded {
      ForwardedMade(w, x);
      assert Target(Front(actions), x.sid) == Some(x.to);
    } else {
      SocketMade(w, x.sid);
      assert SocketAims(Front(actions), w, x.sid);
    }
    TargetStays(actions, x.sid);
  }

  lemma ForwardedMade(w: World, x: Forwarded)
    requires Kinds(w) && x in w.forwarded
    ensures x.sid in w.madeFor
  {
    KindsParts(w);
    var i :| 0 <= i < |w.forwarded| && w.forwarded[i] == x;
    assert Made(w.madeFor, w.forwarded[i].sid, w.forwarded[i].cid);
  }

  lemma {:induction false} RunsAim(actions: seq<Action>)
    ensures Aimed(actions)
  {
    if actions != [] {
      RunsAim(Front(actions));
      RunsKeep(Front(actions));
      hide Run, Kinds, Once, Order, Slots, EastAims, SocketAims, MadeAims, Target;
      assert Aimed(Front(actions));
      forall m | m in Run(actions).east
        ensures EastAims(actions, m)
      {
        EastAimsStep(actions, m);
      }
      forall sid | sid in Run(actions).sockets
        ensures SocketAims(actions, Run(actions), sid)
      {
        SocketAimsStep(actions, sid);
      }
      forall sid | sid in Run(actions).madeFor
        ensures MadeAims(actions, Run(actions), sid)
      {
        MadeAimsStep(actions, sid);
      }
      forall x | x in Run(actions).forwarded
        ensures Target(actions, x.sid) == Some(x.to)
      {
        ForwardedAims(actions, x);
      }
    }
  }

  /** Over every run: every packet that a socket has passed on went to the one destination
      that the socket was given. */
  lemma PacketsGoToTheirTarget(actions: seq<Action>, i: nat)
    requires i < |Run(actions).forwarded|
    ensures Target(actions, Run(actions).forwarded[i].sid) == Some(Run(actions).forwarded[i].to)
  {
    RunsAim(actions);
    hide Run, Target;
    assert Run(actions).forwarded[i] in Run(actions).forwarded;
  }
}

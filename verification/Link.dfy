/** Two peers joined by two reliable first-in-first-out channels. One side has the
    datagram connections (of a listener or of a local forwarder), the other has their
    counterpart sockets and the remote forwarders that submit ACCEPT calls. */
module Link {
  import opened Base
  import Connection

  // One of the two ACCEPT slots of a remote forwarder.
  datatype Ticket = Ticket(fwd: Id, slot: nat)

  // What the connection side sends: requests, and responses to ACCEPT.
  datatype East =
    | SocketCall(cid: Id)
    | ConnectCall(cid: Id, sid: Id, to: Addr)
    | DataEast(cid: Id, sid: Id, packet: Packet, from: Option<Addr>)
    | CloseEast(cid: Id, sid: Id)
    | AcceptOk(ticket: Ticket, cid: Id)
    | AcceptBad(ticket: Ticket)

  // What the socket side sends.
  datatype West =
    | SocketDone(cid: Id, sid: Id)        // sid is zero on error
    | ConnectDone(cid: Id, ok: bool)
    | DataWest(cid: Id, sid: Id, packet: Packet)
    | CloseWest(cid: Id)
    | AcceptCall(ticket: Ticket)
    | Accepted(cid: Id, sid: Id)

  datatype Socket = Socket(rid: Id, to: Option<Addr>)

  datatype Written = Written(addr: Addr, packet: Packet, sid: Id)

  datatype Forwarded = Forwarded(sid: Id, to: Addr, packet: Packet, cid: Id)

  datatype World = World(
    conns: map<Id, Connection.Conn>,
    waiting: seq<Ticket>,               // ACCEPT requests queued by listeners
    east: seq<East>,
    sockets: map<Id, Socket>,
    fwds: map<Id, set<nat>>,            // outstanding ACCEPT slots of each forwarder
    west: seq<West>,
    // History
    connAddr: map<Id, Addr>,            // every connection there has been
    madeFor: map<Id, Id>,               // every socket there has been, and its rid
    fwdsMade: set<Id>,
    claimed: set<Id>,                   // connections whose counterpart has been decided
    written: seq<Written>,              // replies handed to the shared socket
    forwarded: seq<Forwarded>,          // packets sent to the network by sockets
    dropped: nat,                       // DATA that found its socket without io or to
    closesEast: multiset<Id>,           // CLOSE calls sent, by target
    closesWest: multiset<Id>,
    completed: multiset<Id>,            // successful ACCEPTs seen by a live forwarder
    accepted: multiset<Id>              // ACCEPTED calls sent
  )

  datatype Action =
    | OpenLocal(cid: Id, addr: Addr, to: Addr, timeout: nat, packet: Packet, now: int)
    | OpenRemote(cid: Id, i: nat, addr: Addr, timeout: nat, packets: seq<Packet>, now: int)
    | Callback(cid: Id, e: Connection.Event)
    | RemoveConn(cid: Id)
    | Forget(i: nat)                    // a listener goes, or the request is cancelled
    | OpenForwarder(fwd: Id)
    | RemoveForwarder(fwd: Id)
    | Reply(sid: Id, packet: Packet)    // a datagram arrives at a socket
    | RemoveSocket(sid: Id)
    | DeliverEast(sid: Id, to: Addr, ok: bool)
    | DeliverWest(now: int, listening: bool)

  function Message(cid: Id, call: Connection.Call): East {
    match call
    case Socket(id) => SocketCall(id)
    case Connect(sid, to) => ConnectCall(cid, sid, to)
    case Data(sid, packet, from) => DataEast(cid, sid, packet, from)
    case Close(sid) => CloseEast(cid, sid)
  }

  function Wire(cid: Id, calls: seq<Connection.Call>): seq<East> {
    seq(|calls|, i requires 0 <= i < |calls| => Message(cid, calls[i]))
  }

  function Closes(calls: seq<Connection.Call>): multiset<Id> {
    if calls == [] then multiset{}
    else Closes(Front(calls)) + if Last(calls).Close? then multiset{Last(calls).sid} else multiset{}
  }

  // A connection leaves the table: it is disposed of.
  function Dropped(w: World, cid: Id): World
    requires cid in w.conns
  {
    var d := Connection.Dispose(w.conns[cid]);
    w.(conns := w.conns - {cid}, east := w.east + Wire(cid, d.calls),
       closesEast := w.closesEast + Closes(d.calls))
  }

  /** The effects of a callback of connection cid. */
  function Effects(w: World, cid: Id, o: Connection.Outcome): World {
    var u := w.(conns := w.conns[cid := o.conn], east := w.east + Wire(cid, o.calls),
                closesEast := w.closesEast + Closes(o.calls));
    if o.remove then Dropped(u, cid) else u
  }

  function Happens(w: World, cid: Id, e: Connection.Event): World {
    if cid in w.conns then Effects(w, cid, Connection.Apply(w.conns[cid], e)) else w
  }

  // A socket leaves the table and closes its counterpart, if it has one.
  function SocketGone(w: World, sid: Id): World
    requires sid in w.sockets
  {
    var rid := w.sockets[sid].rid;
    w.(sockets := w.sockets - {sid}, west := w.west + if rid != 0 then [CloseWest(rid)] else [],
       closesWest := w.closesWest + if rid != 0 then multiset{rid} else multiset{})
  }

  // The close callback of a socket: it forgets its counterpart and its destination.
  function Forgotten(w: World, sid: Id): World {
    w.(sockets := w.sockets[sid := Socket(0, None)])
  }

  // A CLOSE reaches a connection: the close callback asks for the removal if there is a
  // counterpart, and then whatever is still in the table is removed.
  function ClosedConn(w: World, cid: Id): World
    requires cid in w.conns
  {
    var u := Effects(w, cid, Connection.ClosedByRemote(w.conns[cid]));
    if cid in u.conns then Dropped(u, cid) else u
  }

  function SocketMade(w: World, sid: Id, rid: Id, to: Option<Addr>): World {
    w.(sockets := w.sockets[sid := Socket(rid, to)], madeFor := w.madeFor[sid := rid],
       claimed := w.claimed + {rid})
  }

  /** A message that the connection side has sent is handled. */
  function HandleEast(w: World, m: East, sid: Id, to: Addr, ok: bool): World {
    match m
    case SocketCall(cid) =>
      var u := if ok then SocketMade(w, sid, cid, None) else w.(claimed := w.claimed + {cid});
      u.(west := w.west + [SocketDone(cid, if ok then sid else 0)])
    case ConnectCall(cid, s, addr) =>
      if s in w.sockets then
        w.(sockets := w.sockets[s := w.sockets[s].(to := Some(addr))], west := w.west + [ConnectDone(cid, true)])
      else w.(west := w.west + [ConnectDone(cid, false)])
    case DataEast(cid, s, packet, _) =>
      if s !in w.sockets then w
      else if w.sockets[s].to.Some? then
        w.(forwarded := w.forwarded + [Forwarded(s, w.sockets[s].to.value, packet, cid)])
      else w.(dropped := w.dropped + 1)
    case CloseEast(_, s) => if s in w.sockets then SocketGone(Forgotten(w, s), s) else w
    case AcceptOk(t, cid) =>
      if t.fwd !in w.fwds || t.slot !in w.fwds[t.fwd] then w
      else
        var u := w.(completed := w.completed + multiset{cid});
        if ok then
          SocketMade(u, sid, cid, Some(to))
            .(west := w.west + [Accepted(cid, sid), AcceptCall(t)], accepted := w.accepted + multiset{cid})
        else
          u.(west := w.west + [CloseWest(cid), AcceptCall(t)], closesWest := w.closesWest + multiset{cid},
             claimed := w.claimed + {cid})
    case AcceptBad(t) => if t.fwd in w.fwds then w.(fwds := w.fwds[t.fwd := w.fwds[t.fwd] - {t.slot}]) else w
  }

  /** A message that the socket side has sent is handled. */
  function HandleWest(w: World, m: West, now: int, listening: bool): World {
    match m
    case SocketDone(cid, sid) => Happens(w, cid, Connection.GotSocket(sid))
    case ConnectDone(cid, ok) => Happens(w, cid, Connection.GotConnected(if ok then 0 else 1, now))
    case DataWest(cid, sid, packet) =>
      if cid in w.conns && w.conns[cid].io then
        w.(conns := w.conns[cid := Connection.Reply(w.conns[cid], now).conn],
           written := w.written + [Written(w.conns[cid].addr, packet, sid)])
      else w
    case CloseWest(cid) => if cid in w.conns then ClosedConn(w, cid) else w
    case AcceptCall(t) =>
      if listening then w.(waiting := w.waiting + [t]) else w.(east := w.east + [AcceptBad(t)])
    case Accepted(cid, sid) => Happens(w, cid, Connection.GotAccepted(sid))
  }

  /** Ids are not used again during a run, and zero is no id. */
  predicate Enabled(w: World, a: Action) {
    match a
    case OpenLocal(cid, _, _, _, _, _) => cid != 0 && cid !in w.connAddr
    case OpenRemote(cid, i, _, _, _, _) => cid != 0 && cid !in w.connAddr && i < |w.waiting|
    case Callback(cid, e) => cid in w.conns && (e.Arrive? || e.GotFlushIdle?)
    case RemoveConn(cid) => cid in w.conns
    case Forget(i) => i < |w.waiting|
    case OpenForwarder(fwd) => fwd !in w.fwdsMade
    case RemoveForwarder(fwd) => fwd in w.fwds
    case Reply(sid, _) => sid in w.sockets
    case RemoveSocket(sid) => sid in w.sockets
    case DeliverEast(sid, _, _) => w.east != [] && sid != 0 && sid !in w.madeFor
    case DeliverWest(_, _) => w.west != []
  }

  function Step(w: World, a: Action): World {
    if !Enabled(w, a) then w
    else match a
      case OpenLocal(cid, addr, to, timeout, packet, now) =>
        var o := Connection.Start(Connection.New(cid, addr, true, to, timeout, [packet], now));
        w.(conns := w.conns[cid := o.conn], connAddr := w.connAddr[cid := addr], east := w.east + Wire(cid, o.calls))
      case OpenRemote(cid, i, addr, timeout, packets, now) =>
        var c := Connection.New(cid, addr, false, 0, timeout, packets, now);
        w.(conns := w.conns[cid := c], connAddr := w.connAddr[cid := addr],
           waiting := w.waiting[..i] + w.waiting[i + 1..], east := w.east + [AcceptOk(w.waiting[i], cid)])
      case Callback(cid, e) => Happens(w, cid, e)
      case RemoveConn(cid) => Dropped(w, cid)
      case Forget(i) => w.(waiting := w.waiting[..i] + w.waiting[i + 1..])
      case OpenForwarder(fwd) =>
        w.(fwds := w.fwds[fwd := {0, 1}], fwdsMade := w.fwdsMade + {fwd},
           west := w.west + [AcceptCall(Ticket(fwd, 0)), AcceptCall(Ticket(fwd, 1))])
      case RemoveForwarder(fwd) => w.(fwds := w.fwds - {fwd})
      case Reply(sid, packet) => w.(west := w.west + [DataWest(w.sockets[sid].rid, sid, packet)])
      case RemoveSocket(sid) => SocketGone(w, sid)
      case DeliverEast(sid, to, ok) => HandleEast(w.(east := w.east[1..]), w.east[0], sid, to, ok)
      case DeliverWest(now, listening) => HandleWest(w.(west := w.west[1..]), w.west[0], now, listening)
  }

  /** The entry that a CLOSE reaches leaves the table and sends nothing, because it has
      forgotten its counterpart before it is disposed of. */
  lemma SocketClosed(w: World, m: East, sid: Id, to: Addr, ok: bool)
    requires m.CloseEast?
    ensures HandleEast(w, m, sid, to, ok) == w.(sockets := w.sockets - {m.sid})
  {
    var s := m.sid;
    if s in w.sockets {
      assert Forgotten(w, s).sockets - {s} == w.sockets - {s};
      assert w.west + [] == w.west && w.closesWest + multiset{} == w.closesWest;
    } else {
      assert w.sockets - {s} == w.sockets;
    }
  }

  // Disposing of a connection without a counterpart closes nothing.
  lemma DroppedQuietly(w: World, cid: Id)
    requires cid in w.conns && w.conns[cid].rid == 0
    ensures Dropped(w, cid) == w.(conns := w.conns - {cid})
  {
    assert Wire(cid, []) == [] && w.east + [] == w.east && w.closesEast + multiset{} == w.closesEast;
  }

  lemma ConnectionClosed(w: World, m: West, now: int, listening: bool)
    requires m.CloseWest?
    ensures HandleWest(w, m, now, listening) == w.(conns := w.conns - {m.cid})
  {
    var cid := m.cid;
    if cid in w.conns {
      var o := Connection.ClosedByRemote(w.conns[cid]);
      var u := w.(conns := w.conns[cid := o.conn]);
      assert Wire(cid, []) == [] && w.east + [] == w.east && w.closesEast + multiset{} == w.closesEast;
      DroppedQuietly(u, cid);
      assert u.conns - {cid} == w.conns - {cid};
    } else {
      assert w.conns - {cid} == w.conns;
    }
  }

  const INITIAL: World := World(map[], [], [], map[], map[], [], map[], map[], {}, {}, [], [], 0,
                                multiset{}, multiset{}, multiset{}, multiset{})

  function Run(actions: seq<Action>): World {
    if actions == [] then INITIAL else Step(Run(Front(actions)), Last(actions))
  }
}

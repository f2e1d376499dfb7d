/** The two entries on the socket side of a link as the objects they are: the datagram
    socket, and the remote forwarder with its two ACCEPT slots. Each method takes the world
    of module Link that the object is part of along, as a ghost, and is proved to do to the
    object, and to submit, what the step of that world does and sends. */
module LinkEntries {
  import opened Base
  import opened Link

  /** What has been put on the channel of the socket side between two worlds. */
  function Sent(w: World, u: World): seq<West> {
    if |w.west| <= |u.west| then u.west[|w.west|..] else []
  }

  // The packets that sockets have passed on to the network between two worlds.
  function Passed(w: World, u: World): seq<(Addr, Packet)> {
    var more := if |w.forwarded| <= |u.forwarded| then u.forwarded[|w.forwarded|..] else [];
    seq(|more|, i requires 0 <= i < |more| => (more[i].to, more[i].packet))
  }

  class DatagramSocket {
    const id: Id
    var rid: Id
    var to: Option<Addr>
    var io: bool
    var calls: seq<West>            // submitted to the RPC layer, in order
    var sent: seq<(Addr, Packet)>   // sent to the network
    var refused: nat                // DATA answered with ENOTCONN

    function View(): Socket
      reads this
    {
      Socket(rid, to)
    }

    /** This object is the socket of that id in the world. */
    predicate Is(w: World)
      reads this
    {
      io && id in w.sockets && w.sockets[id] == View()
    }

    constructor (id: Id, rid: Id, to: Option<Addr>)
      ensures this.id == id && View() == Socket(rid, to) && io
      ensures calls == [] && sent == [] && refused == 0
    {
      this.id, this.rid, this.to, io, calls, sent, refused := id, rid, to, true, [], [], 0;
    }

    method OnConnect(addr: Addr, cid: Id, ghost w: World)
      requires Is(w)
      modifies this`to, this`calls
      ensures var u := HandleEast(w, ConnectCall(cid, id, addr), 0, 0, true);
              Is(u) && u.sockets - {id} == w.sockets - {id} && calls == old(calls) + Sent(w, u)
    {
      to := Some(addr);
      calls := calls + [ConnectDone(cid, true)];
    }

    // A connected socket passes the packet on; any other one answers that it is not.
    method OnData(packet: Packet, cid: Id, from: Option<Addr>, ghost w: World)
      requires Is(w)
      modifies this`sent, this`refused
      ensures var u := HandleEast(w, DataEast(cid, id, packet, from), 0, 0, true);
              && Is(u) && u.sockets == w.sockets && Sent(w, u) == []
              && sent == old(sent) + Passed(w, u) && refused == old(refused) + (u.dropped - w.dropped)
    {
      if io && to.Some? {
        sent := sent + [(to.value, packet)];
      } else {
        refused := refused + 1;
      }
    }

    method OnReceive(packet: Packet, ghost w: World)
      requires Is(w)
      modifies this`calls
      ensures var u := Step(w, Reply(id, packet));
              Is(u) && u.sockets == w.sockets && calls == old(calls) + Sent(w, u)
    {
      calls := calls + [DataWest(rid, id, packet)];
    }

    method DoDispose(ghost w: World)
      requires id in w.sockets && w.sockets[id] == View()
      modifies this`rid, this`io, this`calls
      ensures rid == 0 && !io
      ensures var u := SocketGone(w, id);
              u.sockets == w.sockets - {id} && calls == old(calls) + Sent(w, u)
    {
      if rid != 0 {
        calls := calls + [CloseWest(rid)];
        rid := 0;
      }
      io := false;
    }

    // A CLOSE request: the counterpart is forgotten before the removal disposes of the
    // socket, so nothing is sent back.
    method OnClose(cid: Id, ghost w: World)
      requires Is(w)
      modifies this`rid, this`to, this`io, this`calls
      ensures var u := HandleEast(w, CloseEast(cid, id), 0, 0, true);
              u.sockets == w.sockets - {id} && calls == old(calls) + Sent(w, u) == old(calls)
      ensures rid == 0 && to == None && !io
    {
      SocketClosed(w, CloseEast(cid, id), 0, 0, true);
      rid := 0;
      to := None;
      io := false;
      DoDispose(Forgotten(w, id));
    }
  }

  const SLOTS: nat := 2

  function AcceptCalls(fwd: Id, n: nat): seq<West> {
    seq(n, i requires 0 <= i < n => AcceptCall(Ticket(fwd, i)))
  }

  class DatagramForwardRemote {
    const id: Id
    const to: Addr                  // where its sockets connect
    var rid: Id                     // the listener
    const slots: array<bool>        // call_id != 0
    var calls: seq<West>

    predicate Valid()
      reads this
    {
      slots.Length == SLOTS
    }

    // The slots that have an ACCEPT outstanding.
    function Busy(): set<nat>
      requires Valid()
      reads this, slots
    {
      set i | 0 <= i < SLOTS && slots[i]
    }

    /** This object is the forwarder of that id in the world. */
    predicate Is(w: World)
      reads this, slots
    {
      Valid() && id in w.fwds && w.fwds[id] == Busy()
    }

    constructor (id: Id, to: Addr)
      ensures Valid() && fresh(slots) && this.id == id && this.to == to && rid == 0 && Busy() == {} && calls == []
    {
      this.id, this.to, rid, calls := id, to, 0, [];
      slots := new bool[SLOTS](_ => false);
    }

    // The listener exists: one ACCEPT for each slot. A failure submits none.
    method OnSocket(sid: int, ghost w: World)
      requires Valid() && id !in w.fwdsMade
      modifies this`rid, this`calls, slots
      ensures sid > 0 ==>
                var u := Step(w, OpenForwarder(id));
                Is(u) && u.fwds - {id} == w.fwds - {id} && rid == sid && calls == old(calls) + Sent(w, u)
      ensures sid <= 0 ==> rid == old(rid) && Busy() == old(Busy()) && calls == old(calls)
    {
      if sid > 0 {
        rid := sid;
        var i := 0;
        while i < slots.Length
          invariant 0 <= i <= slots.Length
          invariant rid == sid && forall k :: 0 <= k < i ==> slots[k]
          invariant calls == old(calls) + AcceptCalls(id, i)
        {
          slots[i] := true;
          calls := calls + [AcceptCall(Ticket(id, i))];
          assert AcceptCalls(id, i + 1) == AcceptCalls(id, i) + [AcceptCall(Ticket(id, i))];
          i := i + 1;
        }
        assert Busy() == {0, 1};
        assert AcceptCalls(id, 2) == [AcceptCall(Ticket(id, 0)), AcceptCall(Ticket(id, 1))];
      }
    }

    // An ACCEPT has been completed for connection cid. If the response names a source
    // address and a socket can be made (bound), the new entry is announced, else the
    // connection is closed; either way the slot asks again.
    method OnAccept(slot: nat, cid: Id, source: Option<Addr>, bound: bool, sid: Id, ghost w: World)
      returns (made: DatagramSocket?)
      requires Is(w) && slot in Busy() && cid != 0
      modifies this`calls
      ensures (made != null <==> source.Some? && bound) && (made != null ==> fresh(made) && made.id == sid)
      ensures var u := HandleEast(w, AcceptOk(Ticket(id, slot), cid), sid, to, made != null);
              && Is(u) && calls == old(calls) + Sent(w, u)
              && (if made != null then made.Is(u) else u.sockets == w.sockets)
    {
      made := null;
      if source.Some? && bound {
        made := new DatagramSocket(sid, cid, Some(to));
        calls := calls + [Accepted(cid, sid)];
      } else {
        calls := calls + [CloseWest(cid)];
      }
      calls := calls + [AcceptCall(Ticket(id, slot))];
    }

    // A failed ACCEPT leaves the slot idle.
    method OnAcceptFailed(slot: nat, ghost w: World)
      requires Is(w) && slot in Busy()
      modifies slots
      ensures var u := HandleEast(w, AcceptBad(Ticket(id, slot)), 0, 0, true);
              Is(u) && Sent(w, u) == [] && u.fwds - {id} == w.fwds - {id}
    {
      slots[slot] := false;
    }

    // Nothing is outstanding and there is no listener: the forwarder is not part of the
    // world yet.
    predicate Pending(w: World)
      reads this, slots
    {
      Valid() && id !in w.fwds && Busy() == {} && rid == 0
    }

    // Outstanding ACCEPTs are cancelled, and the listener, if there is one, is closed. The
    // forwarder may go before its listener exists.
    method DoDispose(ghost w: World) returns (cancelled: seq<nat>, closed: Option<Id>)
      requires Is(w) || Pending(w)
      modifies slots
      ensures Valid() && Busy() == {}
      ensures closed == if rid != 0 then Some(rid) else None
      ensures forall k :: k in cancelled <==> id in w.fwds && k in w.fwds[id]
      ensures id !in w.fwds ==> cancelled == [] && closed == None
      ensures forall j, k :: 0 <= j < k < |cancelled| ==> cancelled[j] != cancelled[k]
      ensures var u := Step(w, RemoveForwarder(id)); id !in u.fwds && Sent(w, u) == []
    {
      cancelled := [];
      var i := 0;
      assert forall k :: 0 <= k < SLOTS && slots[k] ==> k in Busy();
      while i < slots.Length
        invariant 0 <= i <= slots.Length
        invariant forall k :: 0 <= k < i ==> !slots[k]
        invariant forall k :: i <= k < slots.Length ==> slots[k] == old(slots[k])
        invariant forall k :: k in cancelled <==> 0 <= k < i && k in old(Busy())
        invariant old(Busy()) == {} ==> cancelled == []
        invariant forall j, k :: 0 <= j < k < |cancelled| ==> cancelled[j] != cancelled[k]
      {
        if slots[i] {
          cancelled := cancelled + [i];
        }
        slots[i] := false;
        i := i + 1;
      }
      closed := if rid != 0 then Some(rid) else None;
    }
  }
}

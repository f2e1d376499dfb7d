/** Each of the two ACCEPT slots of a remote forwarder has at most one ACCEPT request
    that is not answered yet, wherever that request or its answer may be. */
module LinkTickets {
  import opened Base
  import opened Link
  import Connection

  predicate Carries(m: East, t: Ticket) {
    (m.AcceptOk? || m.AcceptBad?) && m.ticket == t
  }

  function InEast(east: seq<East>, t: Ticket): nat {
    if east == [] then 0 else InEast(Front(east), t) + if Carries(Last(east), t) then 1 else 0
  }

  function InWest(west: seq<West>, t: Ticket): nat {
    if west == [] then 0 else InWest(Front(west), t) + if Last(west) == AcceptCall(t) then 1 else 0
  }

  /** Requests and answers of one slot that are on their way or waiting. */
  function Outstanding(w: World, t: Ticket): nat {
    InWest(w.west, t) + multiset(w.waiting)[t] + InEast(w.east, t)
  }

  predicate Busy(w: World, t: Ticket) {
    t.fwd in w.fwdsMade && (t.fwd in w.fwds ==> t.slot in w.fwds[t.fwd])
  }

  predicate SlotOk(w: World, t: Ticket) {
    Outstanding(w, t) <= if Busy(w, t) then 1 else 0
  }

  ghost predicate Slots(w: World) {
    && (forall t :: SlotOk(w, t))
    && (forall f :: f in w.fwds ==> f in w.fwdsMade && w.fwds[f] <= {0, 1})
  }

  lemma {:induction false} InEastConcat(a: seq<East>, b: seq<East>, t: Ticket)
    ensures InEast(a + b, t) == InEast(a, t) + InEast(b, t)
  {
    if b == [] {
      assert a + b == a;
    } else {
      InEastConcat(a, Front(b), t);
      assert Front(a + b) == a + Front(b);
    }
  }

  lemma {:induction false} InWestConcat(a: seq<West>, b: seq<West>, t: Ticket)
    ensures InWest(a + b, t) == InWest(a, t) + InWest(b, t)
  {
    if b == [] {
      assert a + b == a;
    } else {
      InWestConcat(a, Front(b), t);
      assert Front(a + b) == a + Front(b);
    }
  }

  lemma InEastOne(m: East, t: Ticket)
    ensures InEast([m], t) == if Carries(m, t) then 1 else 0
  {
    assert Front([m]) == [];
  }

  lemma InWestOne(m: West, t: Ticket)
    ensures InWest([m], t) == if m == AcceptCall(t) then 1 else 0
  {
    assert Front([m]) == [];
  }

  lemma InWestTwo(m: West, n: West, t: Ticket)
    ensures InWest([m, n], t) == InWest([m], t) + InWest([n], t)
  {
    assert [m, n] == [m] + [n];
    InWestConcat([m], [n], t);
  }

  lemma InEastPop(east: seq<East>, t: Ticket)
    requires east != []
    ensures InEast(east, t) == (if Carries(east[0], t) then 1 else 0) + InEast(east[1..], t)
  {
    assert east == [east[0]] + east[1..];
    InEastConcat([east[0]], east[1..], t);
    InEastOne(east[0], t);
  }

  lemma InWestPop(west: seq<West>, t: Ticket)
    requires west != []
    ensures InWest(west, t) == (if west[0] == AcceptCall(t) then 1 else 0) + InWest(west[1..], t)
  {
    assert west == [west[0]] + west[1..];
    InWestConcat([west[0]], west[1..], t);
    InWestOne(west[0], t);
  }

  lemma {:induction false} NoneInEast(east: seq<East>, t: Ticket)
    requires forall i :: 0 <= i < |east| ==> !Carries(east[i], t)
    ensures InEast(east, t) == 0
  {
    if east != [] {
      NoneInEast(Front(east), t);
    }
  }

  lemma WireCarriesNone(cid: Id, calls: seq<Connection.Call>, t: Ticket)
    ensures InEast(Wire(cid, calls), t) == 0
  {
    NoneInEast(Wire(cid, calls), t);
  }

  lemma TakeOut(waiting: seq<Ticket>, i: nat, t: Ticket)
    requires i < |waiting|
    ensures multiset(waiting)[t] == multiset(waiting[..i] + waiting[i + 1..])[t] + if waiting[i] == t then 1 else 0
  {
    assert waiting == waiting[..i] + ([waiting[i]] + waiting[i + 1..]);
  }

  // ---------- Steps ----------

  // The tables of forwarders are untouched.
  predicate SameForwarders(w: World, u: World) {
    u.fwds == w.fwds && u.fwdsMade == w.fwdsMade
  }

  lemma DroppedSlots(w: World, cid: Id, t: Ticket)
    requires cid in w.conns
    ensures Outstanding(Dropped(w, cid), t) == Outstanding(w, t) && SameForwarders(w, Dropped(w, cid))
  {
    var calls := Connection.Dispose(w.conns[cid]).calls;
    hide Connection.Dispose, Closes, Wire;
    InEastConcat(w.east, Wire(cid, calls), t);
    WireCarriesNone(cid, calls, t);
  }

  lemma HappensSlots(w: World, cid: Id, e: Connection.Event, t: Ticket)
    ensures Outstanding(Happens(w, cid, e), t) == Outstanding(w, t) && SameForwarders(w, Happens(w, cid, e))
  {
    if cid in w.conns {
      var o := Connection.Apply(w.conns[cid], e);
      hide Connection.Apply, Closes, Wire, Dropped;
      InEastConcat(w.east, Wire(cid, o.calls), t);
      WireCarriesNone(cid, o.calls, t);
      if o.remove {
        var u := w.(conns := w.conns[cid := o.conn], east := w.east + Wire(cid, o.calls),
                    closesEast := w.closesEast + Closes(o.calls));
        DroppedSlots(u, cid, t);
      }
    }
  }

  lemma DeliverEastSlots(w: World, sid: Id, to: Addr, ok: bool, t: Ticket)
    requires w.east != [] && SlotOk(w, t) && (forall f :: f in w.fwds ==> f in w.fwdsMade)
    ensures SlotOk(HandleEast(w.(east := w.east[1..]), w.east[0], sid, to, ok), t)
  {
    PoppedEast(w, t);
    var v, m := w.(east := w.east[1..]), w.east[0];
    hide HandleEast, SlotOk, Outstanding, Busy;
    if m.AcceptOk? {
      AcceptSlots(v, m.ticket, m.cid, sid, to, ok, t);
    } else if m.AcceptBad? {
      BadSlots(v, m.ticket, sid, to, ok, t);
    } else {
      OtherSlots(v, m, sid, to, ok, t);
    }
  }

  lemma PoppedEast(w: World, t: Ticket)
    requires w.east != [] && SlotOk(w, t)
    ensures var v := w.(east := w.east[1..]);
            Outstanding(v, t) + (if Carries(w.east[0], t) then 1 else 0) <= if Busy(v, t) then 1 else 0
  {
    InEastPop(w.east, t);
    hide InEast, InWest;
  }

  lemma BadSlots(v: World, k: Ticket, sid: Id, to: Addr, ok: bool, t: Ticket)
    requires Outstanding(v, t) + (if k == t then 1 else 0) <= if Busy(v, t) then 1 else 0
    ensures SlotOk(HandleEast(v, AcceptBad(k), sid, to, ok), t)
  {
    hide InEast, InWest;
  }

  lemma OtherSlots(v: World, m: East, sid: Id, to: Addr, ok: bool, t: Ticket)
    requires SlotOk(v, t) && !m.AcceptOk? && !m.AcceptBad?
    ensures SlotOk(HandleEast(v, m, sid, to, ok), t)
  {
    hide InEast, InWest, SocketGone;
    match m
    case SocketCall(cid) => OneMoreWest(v, SocketDone(cid, if ok then sid else 0), t);
    case ConnectCall(cid, s, _) => OneMoreWest(v, ConnectDone(cid, s in v.sockets), t);
    case DataEast(_, _, _, _) =>
    case CloseEast(_, _) => SocketClosed(v, m, sid, to, ok); hide HandleEast;
  }

  lemma OneMoreWest(v: World, m: West, t: Ticket)
    requires !m.AcceptCall?
    ensures InWest(v.west + [m], t) == InWest(v.west, t)
  {
    InWestConcat(v.west, [m], t);
    InWestOne(m, t);
  }

  lemma AcceptSlots(v: World, k: Ticket, cid: Id, sid: Id, to: Addr, ok: bool, t: Ticket)
    requires Outstanding(v, t) + (if k == t then 1 else 0) <= if Busy(v, t) then 1 else 0
    ensures SlotOk(HandleEast(v, AcceptOk(k, cid), sid, to, ok), t)
  {
    var first := if ok then Accepted(cid, sid) else CloseWest(cid);
    InWestConcat(v.west, [first, AcceptCall(k)], t);
    InWestTwo(first, AcceptCall(k), t);
    InWestOne(first, t);
    InWestOne(AcceptCall(k), t);
    hide InEast, InWest;
  }

  lemma DeliverWestSlots(w: World, now: int, listening: bool, t: Ticket)
    requires w.west != [] && SlotOk(w, t)
    ensures SlotOk(HandleWest(w.(west := w.west[1..]), w.west[0], now, listening), t)
  {
    PoppedWest(w, t);
    var v, m := w.(west := w.west[1..]), w.west[0];
    if m.AcceptCall? {
      hide HandleWest, Outstanding, Busy;
      QueueSlots(v, m.ticket, now, listening, t);
    } else {
      SettledSlots(v, m, now, listening, t);
      hide HandleWest, Outstanding;
    }
  }

  lemma PoppedWest(w: World, t: Ticket)
    requires w.west != [] && SlotOk(w, t)
    ensures var v := w.(west := w.west[1..]);
            Outstanding(v, t) + (if w.west[0] == AcceptCall(t) then 1 else 0) <= if Busy(v, t) then 1 else 0
  {
    InWestPop(w.west, t);
    hide InEast, InWest;
  }

  lemma QueueSlots(v: World, k: Ticket, now: int, listening: bool, t: Ticket)
    requires Outstanding(v, t) + (if k == t then 1 else 0) <= if Busy(v, t) then 1 else 0
    ensures SlotOk(HandleWest(v, AcceptCall(k), now, listening), t)
  {
    InEastConcat(v.east, [AcceptBad(k)], t);
    InEastOne(AcceptBad(k), t);
    hide InEast, InWest;
  }

  lemma SettledSlots(v: World, m: West, now: int, listening: bool, t: Ticket)
    requires !m.AcceptCall?
    ensures Outstanding(HandleWest(v, m, now, listening), t) == Outstanding(v, t)
    ensures SameForwarders(v, HandleWest(v, m, now, listening))
  {
    hide InEast, InWest, Happens;
    match m
    case SocketDone(cid, s) => HappensSlots(v, cid, Connection.GotSocket(s), t);
    case ConnectDone(cid, ok) => HappensSlots(v, cid, Connection.GotConnected(if ok then 0 else 1, now), t);
    case Accepted(cid, s) => HappensSlots(v, cid, Connection.GotAccepted(s), t);
    case DataWest(_, _, _) =>
    case CloseWest(_) => ConnectionClosed(v, m, now, listening); hide HandleWest;
  }

  lemma OpenForwarderSlots(w: World, f: Id, t: Ticket)
    requires SlotOk(w, t) && f !in w.fwdsMade && (forall g :: g in w.fwds ==> g in w.fwdsMade)
    ensures SlotOk(Step(w, OpenForwarder(f)), t)
  {
    InWestConcat(w.west, [AcceptCall(Ticket(f, 0)), AcceptCall(Ticket(f, 1))], t);
    InWestTwo(AcceptCall(Ticket(f, 0)), AcceptCall(Ticket(f, 1)), t);
    InWestOne(AcceptCall(Ticket(f, 0)), t);
    InWestOne(AcceptCall(Ticket(f, 1)), t);
    hide InEast, InWest;
  }

  // Steps that neither submit nor answer an ACCEPT.
  predicate Neutral(w: World, a: Action) {
    a.OpenLocal? || a.Callback? || a.RemoveConn? || a.Reply? || a.RemoveSocket?
  }

  lemma NeutralSlots(w: World, a: Action, t: Ticket)
    requires Enabled(w, a) && Neutral(w, a)
    ensures Outstanding(Step(w, a), t) == Outstanding(w, t) && SameForwarders(w, Step(w, a))
  {
    match a
    case OpenLocal(cid, addr, to, timeout, packet, now) =>
      var o := Connection.Start(Connection.New(cid, addr, true, to, timeout, [packet], now));
      hide Wire, InEast, InWest;
      InEastConcat(w.east, Wire(cid, o.calls), t);
      WireCarriesNone(cid, o.calls, t);
    case Callback(cid, e) => hide Happens, InEast, InWest; HappensSlots(w, cid, e, t);
    case RemoveConn(cid) => hide Dropped, InEast, InWest; DroppedSlots(w, cid, t);
    case Reply(sid, packet) =>
      hide InEast, InWest;
      OneMoreWest(w, DataWest(w.sockets[sid].rid, sid, packet), t);
    case RemoveSocket(sid) =>
      hide InEast, InWest;
      OneMoreWest(w, CloseWest(w.sockets[sid].rid), t);
      assert w.west + [] == w.west;
  }

  lemma AnsweredSlots(w: World, a: Action, t: Ticket)
    requires Enabled(w, a) && a.OpenRemote?
    ensures Outstanding(Step(w, a), t) == Outstanding(w, t) && SameForwarders(w, Step(w, a))
  {
    AnsweredIs(w, a);
    TakeOut(w.waiting, a.i, t);
    InEastConcat(w.east, [AcceptOk(w.waiting[a.i], a.cid)], t);
    InEastOne(AcceptOk(w.waiting[a.i], a.cid), t);
    hide Step, InEast, InWest;
  }

  lemma AnsweredIs(w: World, a: Action)
    requires Enabled(w, a) && a.OpenRemote?
    ensures a.i < |w.waiting|
    ensures var u := Step(w, a);
            && u.waiting == w.waiting[..a.i] + w.waiting[a.i + 1..] && u.east == w.east + [AcceptOk(w.waiting[a.i], a.cid)]
            && u.west == w.west && u.fwds == w.fwds && u.fwdsMade == w.fwdsMade
  {
    hide Connection.New;
  }

  lemma WaitingSlots(w: World, a: Action, t: Ticket)
    requires SlotOk(w, t) && Enabled(w, a) && (a.OpenRemote? || a.Forget? || a.RemoveForwarder?)
    requires forall f :: f in w.fwds ==> f in w.fwdsMade
    ensures SlotOk(Step(w, a), t)
  {
    match a
    case OpenRemote(_, _, _, _, _, _) => AnsweredSlots(w, a, t); hide Step, Outstanding;
    case Forget(i) => TakeOut(w.waiting, i, t); hide InEast, InWest;
    case RemoveForwarder(f) => hide InEast, InWest;
  }

  lemma StepIs(w: World, a: Action)
    ensures !Enabled(w, a) ==> Step(w, a) == w
    ensures Enabled(w, a) && a.DeliverEast? ==>
              w.east != [] && Step(w, a) == HandleEast(w.(east := w.east[1..]), w.east[0], a.sid, a.to, a.ok)
    ensures Enabled(w, a) && a.DeliverWest? ==>
              w.west != [] && Step(w, a) == HandleWest(w.(west := w.west[1..]), w.west[0], a.now, a.listening)
  {
    hide HandleEast, HandleWest;
  }

  lemma SlotStep(w: World, a: Action, t: Ticket)
    requires Slots(w)
    ensures SlotOk(Step(w, a), t)
  {
    assert SlotOk(w, t);
    StepIs(w, a);
    hide Step, HandleEast, HandleWest, Outstanding, Enabled;
    if !Enabled(w, a) {
    } else if Neutral(w, a) {
      NeutralSlots(w, a, t);
    } else if a.DeliverEast? {
      DeliverEastSlots(w, a.sid, a.to, a.ok, t);
    } else if a.DeliverWest? {
      DeliverWestSlots(w, a.now, a.listening, t);
    } else if a.OpenForwarder? {
      OpeningSlots(w, a.fwd, t);
    } else {
      WaitingSlots(w, a, t);
    }
  }

  lemma OpeningSlots(w: World, f: Id, t: Ticket)
    requires Slots(w) && Enabled(w, OpenForwarder(f))
    ensures SlotOk(Step(w, OpenForwarder(f)), t)
  {
    assert SlotOk(w, t);
    hide SlotOk, Step;
    OpenForwarderSlots(w, f, t);
  }

  ghost predicate TwoSlots(w: World) {
    forall f :: f in w.fwds ==> f in w.fwdsMade && w.fwds[f] <= {0, 1}
  }

  lemma HandleForwarders(v: World, m: East, sid: Id, to: Addr, ok: bool)
    requires TwoSlots(v)
    ensures TwoSlots(HandleEast(v, m, sid, to, ok))
  {
    match m
    case AcceptBad(t) =>
    case AcceptOk(t, cid) =>
    case SocketCall(cid) =>
    case ConnectCall(cid, _, _) =>
    case DataEast(_, _, _, _) =>
    case CloseEast(_, _) => SocketClosed(v, m, sid, to, ok); hide HandleEast;
  }

  lemma WestForwarders(v: World, m: West, now: int, listening: bool)
    ensures SameForwarders(v, HandleWest(v, m, now, listening))
  {
    if !m.AcceptCall? {
      hide HandleWest;
      SettledSlots(v, m, now, listening, Ticket(0, 0));
    }
  }

  lemma StepForwarders(w: World, a: Action)
    requires TwoSlots(w)
    ensures TwoSlots(Step(w, a))
  {
    StepIs(w, a);
    if Enabled(w, a) {
      if Neutral(w, a) {
        hide Step, Outstanding;
        NeutralSlots(w, a, Ticket(0, 0));
      } else if a.DeliverEast? {
        hide Step, HandleEast;
        HandleForwarders(w.(east := w.east[1..]), w.east[0], a.sid, a.to, a.ok);
      } else if a.DeliverWest? {
        hide Step, HandleWest;
        WestForwarders(w.(west := w.west[1..]), w.west[0], a.now, a.listening);
      }
    }
  }

  lemma SlotsStep(w: World, a: Action)
    requires Slots(w)
    ensures Slots(Step(w, a))
  {
    StepForwarders(w, a);
    hide Step, SlotOk;
    forall t
      ensures SlotOk(Step(w, a), t)
    {
      SlotStep(w, a, t);
    }
  }
}

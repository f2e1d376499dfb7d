/** The messages of a run: what each step has put on the channels, and that the history
    counters of module Link count exactly these. */
module LinkCounts {
  import opened Base
  import opened Link
  import Connection

  predicate IsClose(m: East, sid: Id) {
    m.CloseEast? && m.sid == sid
  }

  function ClosingEast(east: seq<East>, sid: Id): nat {
    if east == [] then 0 else ClosingEast(Front(east), sid) + if IsClose(Last(east), sid) then 1 else 0
  }

  function ClosingWest(west: seq<West>, cid: Id): nat {
    if west == [] then 0 else ClosingWest(Front(west), cid) + if Last(west) == CloseWest(cid) then 1 else 0
  }

  function Accepting(west: seq<West>, cid: Id): nat {
    if west == [] then 0
    else Accepting(Front(west), cid) + if Last(west).Accepted? && Last(west).cid == cid then 1 else 0
  }

  // What is left of a channel once the step has taken its message.
  function RestEast(w: World, a: Action): seq<East> {
    if Enabled(w, a) && a.DeliverEast? then w.east[1..] else w.east
  }

  function RestWest(w: World, a: Action): seq<West> {
    if Enabled(w, a) && a.DeliverWest? then w.west[1..] else w.west
  }

  /** The channels have grown by these messages and the counters by what they count. */
  predicate Counts(w: World, u: World, east: seq<East>, west: seq<West>, id: Id) {
    && u.closesEast[id] == w.closesEast[id] + ClosingEast(east, id)
    && u.closesWest[id] == w.closesWest[id] + ClosingWest(west, id)
    && u.accepted[id] == w.accepted[id] + Accepting(west, id)
  }

  ghost predicate Grown(w: World, restEast: seq<East>, restWest: seq<West>, u: World, id: Id) {
    exists east, west :: u.east == restEast + east && u.west == restWest + west && Counts(w, u, east, west, id)
  }

  lemma {:induction false} ClosingConcat(a: seq<East>, b: seq<East>, sid: Id)
    ensures ClosingEast(a + b, sid) == ClosingEast(a, sid) + ClosingEast(b, sid)
  {
    if b == [] {
      assert a + b == a;
    } else {
      ClosingConcat(a, Front(b), sid);
      assert Front(a + b) == a + Front(b);
    }
  }

  lemma {:induction false} WireCloses(cid: Id, calls: seq<Connection.Call>, sid: Id)
    ensures ClosingEast(Wire(cid, calls), sid) == Closes(calls)[sid]
  {
    if calls != [] {
      WireCloses(cid, Front(calls), sid);
      assert Front(Wire(cid, calls)) == Wire(cid, Front(calls));
    }
  }

  lemma NothingSent(w: World, u: World, id: Id)
    requires u.closesEast == w.closesEast && u.closesWest == w.closesWest && u.accepted == w.accepted
    ensures Counts(w, u, [], [], id)
  {
  }

  lemma DroppedCounts(w: World, cid: Id, id: Id)
    requires cid in w.conns
    ensures var more := Wire(cid, Connection.Dispose(w.conns[cid]).calls);
            && Dropped(w, cid).east == w.east + more && Dropped(w, cid).west == w.west
            && Counts(w, Dropped(w, cid), more, [], id)
  {
    hide Connection.Dispose, Wire, Closes;
    WireCloses(cid, Connection.Dispose(w.conns[cid]).calls, id);
  }

  // The connection after the callback, before a removal.
  function Called(w: World, cid: Id, o: Connection.Outcome): World {
    w.(conns := w.conns[cid := o.conn], east := w.east + Wire(cid, o.calls),
       closesEast := w.closesEast + Closes(o.calls))
  }

  lemma CalledCounts(w: World, cid: Id, o: Connection.Outcome, id: Id)
    ensures Called(w, cid, o).east == w.east + Wire(cid, o.calls) && Called(w, cid, o).west == w.west
    ensures Counts(w, Called(w, cid, o), Wire(cid, o.calls), [], id)
  {
    hide Wire, Closes;
    WireCloses(cid, o.calls, id);
  }

  lemma EffectsAre(w: World, cid: Id, o: Connection.Outcome)
    ensures var u := Called(w, cid, o);
            cid in u.conns && Effects(w, cid, o) == if o.remove then Dropped(u, cid) else u
  {
    hide Dropped, Wire, Closes;
  }

  lemma CountsAdd(w: World, u: World, v: World, a: seq<East>, b: seq<East>, id: Id)
    requires Counts(w, u, a, [], id) && Counts(u, v, b, [], id)
    ensures Counts(w, v, a + b, [], id)
  {
    ClosingConcat(a, b, id);
    hide ClosingEast;
  }

  lemma EffectsCounts(w: World, cid: Id, o: Connection.Outcome, id: Id)
    ensures Grown(w, w.east, w.west, Effects(w, cid, o), id)
  {
    hide *;
    EffectsAre(w, cid, o);
    CalledCounts(w, cid, o, id);
    var u, more := Called(w, cid, o), Wire(cid, o.calls);
    assert w.west + [] == w.west;
    if o.remove {
      DroppedCounts(u, cid, id);
      var last := Wire(cid, Connection.Dispose(u.conns[cid]).calls);
      CountsAdd(w, u, Dropped(u, cid), more, last, id);
      assert w.east + more + last == w.east + (more + last);
      Witness(w, w.east, w.west, Dropped(u, cid), more + last, [], id);
    } else {
      Witness(w, w.east, w.west, u, more, [], id);
    }
  }

  lemma HappensCounts(w: World, cid: Id, e: Connection.Event, id: Id)
    ensures Grown(w, w.east, w.west, Happens(w, cid, e), id)
  {
    if cid in w.conns {
      hide Connection.Apply, Effects, Grown;
      EffectsCounts(w, cid, Connection.Apply(w.conns[cid], e), id);
    } else {
      NothingSent(w, w, id);
      assert w.east + [] == w.east && w.west + [] == w.west;
      Witness(w, w.east, w.west, w, [], [], id);
    }
  }

  lemma OneWest(m: West, id: Id)
    ensures ClosingWest([m], id) == if m == CloseWest(id) then 1 else 0
    ensures Accepting([m], id) == if m.Accepted? && m.cid == id then 1 else 0
  {
    assert Front([m]) == [];
  }

  lemma TwoWest(m: West, n: West, id: Id)
    ensures ClosingWest([m, n], id) == ClosingWest([m], id) + ClosingWest([n], id)
    ensures Accepting([m, n], id) == Accepting([m], id) + Accepting([n], id)
  {
    assert Front([m, n]) == [m];
    OneWest(n, id);
  }

  lemma OneEast(m: East, id: Id)
    ensures ClosingEast([m], id) == if IsClose(m, id) then 1 else 0
  {
    assert Front([m]) == [];
  }

  lemma Witness(w: World, restEast: seq<East>, restWest: seq<West>, u: World, east: seq<East>, west: seq<West>, id: Id)
    requires u.east == restEast + east && u.west == restWest + west && Counts(w, u, east, west, id)
    ensures Grown(w, restEast, restWest, u, id)
  {
  }

  lemma AnswerCounts(w: World, t: Ticket, cid: Id, sid: Id, to: Addr, ok: bool, id: Id)
    ensures Grown(w, w.east, w.west, HandleEast(w, AcceptOk(t, cid), sid, to, ok), id)
  {
    var u := HandleEast(w, AcceptOk(t, cid), sid, to, ok);
    assert w.east + [] == w.east && w.west + [] == w.west;
    if t.fwd in w.fwds && t.slot in w.fwds[t.fwd] {
      var first := if ok then Accepted(cid, sid) else CloseWest(cid);
      TwoWest(first, AcceptCall(t), id);
      OneWest(first, id);
      OneWest(AcceptCall(t), id);
      hide ClosingWest, Accepting, Grown;
      Witness(w, w.east, w.west, u, [], [first, AcceptCall(t)], id);
    } else {
      Witness(w, w.east, w.west, u, [], [], id);
    }
  }

  // The response to a call that is neither an ACCEPT nor a close.
  lemma ResponseCounts(w: World, m: East, sid: Id, to: Addr, ok: bool, id: Id)
    requires m.SocketCall? || m.ConnectCall?
    ensures Grown(w, w.east, w.west, HandleEast(w, m, sid, to, ok), id)
  {
    var done := if m.SocketCall? then SocketDone(m.cid, if ok then sid else 0)
                else ConnectDone(m.cid, m.sid in w.sockets);
    OneWest(done, id);
    assert w.east + [] == w.east;
    hide Grown, ClosingWest, Accepting;
    Witness(w, w.east, w.west, HandleEast(w, m, sid, to, ok), [], [done], id);
  }

  lemma SilentCounts(w: World, m: East, sid: Id, to: Addr, ok: bool, id: Id)
    requires m.DataEast? || m.CloseEast? || m.AcceptBad?
    ensures Grown(w, w.east, w.west, HandleEast(w, m, sid, to, ok), id)
  {
    if m.CloseEast? {
      SocketClosed(w, m, sid, to, ok);
      hide HandleEast;
    }
    assert w.east + [] == w.east && w.west + [] == w.west;
    hide Grown;
    Witness(w, w.east, w.west, HandleEast(w, m, sid, to, ok), [], [], id);
  }

  lemma EastCounts(w: World, m: East, sid: Id, to: Addr, ok: bool, id: Id)
    ensures Grown(w, w.east, w.west, HandleEast(w, m, sid, to, ok), id)
  {
    hide HandleEast, Grown;
    if m.AcceptOk? {
      AnswerCounts(w, m.ticket, m.cid, sid, to, ok, id);
    } else if m.SocketCall? || m.ConnectCall? {
      ResponseCounts(w, m, sid, to, ok, id);
    } else {
      SilentCounts(w, m, sid, to, ok, id);
    }
  }

  lemma WestCounts(w: World, m: West, now: int, listening: bool, id: Id)
    ensures Grown(w, w.east, w.west, HandleWest(w, m, now, listening), id)
  {
    var u := HandleWest(w, m, now, listening);
    assert w.east + [] == w.east && w.west + [] == w.west;
    hide Happens;
    match m
    case SocketDone(cid, s) => HappensCounts(w, cid, Connection.GotSocket(s), id);
    case ConnectDone(cid, ok) => HappensCounts(w, cid, Connection.GotConnected(if ok then 0 else 1, now), id);
    case Accepted(cid, s) => HappensCounts(w, cid, Connection.GotAccepted(s), id);
    case AcceptCall(t) =>
      OneEast(AcceptBad(t), id);
      Witness(w, w.east, w.west, u, if listening then [] else [AcceptBad(t)], [], id);
    case CloseWest(_) =>
      ConnectionClosed(w, m, now, listening);
      hide HandleWest;
      Witness(w, w.east, w.west, u, [], [], id);
    case DataWest(_, _, _) => Witness(w, w.east, w.west, u, [], [], id);
  }

  // The counters of a world do not depend on its channels.
  lemma SameCounters(v: World, w: World, restEast: seq<East>, restWest: seq<West>, u: World, id: Id)
    requires Grown(v, restEast, restWest, u, id)
    requires v.closesEast == w.closesEast && v.closesWest == w.closesWest && v.accepted == w.accepted
    ensures Grown(w, restEast, restWest, u, id)
  {
    var east, west :| u.east == restEast + east && u.west == restWest + west && Counts(v, u, east, west, id);
    Witness(w, restEast, restWest, u, east, west, id);
  }

  lemma LocalCounts(w: World, a: Action, id: Id)
    requires Enabled(w, a) && !a.DeliverEast? && !a.DeliverWest?
    ensures Grown(w, w.east, w.west, Step(w, a), id)
  {
    var u := Step(w, a);
    assert w.east + [] == w.east && w.west + [] == w.west;
    match a
    case OpenLocal(cid, addr, to, timeout, packet, now) =>
      assert u.east == w.east + [SocketCall(cid)];
      OneEast(SocketCall(cid), id);
      Witness(w, w.east, w.west, u, [SocketCall(cid)], [], id);
    case OpenRemote(cid, i, addr, timeout, packets, now) =>
      OneEast(AcceptOk(w.waiting[i], cid), id);
      Witness(w, w.east, w.west, u, [AcceptOk(w.waiting[i], cid)], [], id);
    case Callback(cid, e) => hide Happens; HappensCounts(w, cid, e, id);
    case RemoveConn(cid) =>
      hide Dropped;
      DroppedCounts(w, cid, id);
      Witness(w, w.east, w.west, u, Wire(cid, Connection.Dispose(w.conns[cid]).calls), [], id);
    case OpenForwarder(f) =>
      TwoWest(AcceptCall(Ticket(f, 0)), AcceptCall(Ticket(f, 1)), id);
      OneWest(AcceptCall(Ticket(f, 0)), id);
      OneWest(AcceptCall(Ticket(f, 1)), id);
      Witness(w, w.east, w.west, u, [], [AcceptCall(Ticket(f, 0)), AcceptCall(Ticket(f, 1))], id);
    case Reply(sid, packet) =>
      OneWest(DataWest(w.sockets[sid].rid, sid, packet), id);
      Witness(w, w.east, w.west, u, [], [DataWest(w.sockets[sid].rid, sid, packet)], id);
    case RemoveSocket(sid) =>
      var rid := w.sockets[sid].rid;
      OneWest(CloseWest(rid), id);
      Witness(w, w.east, w.west, u, [], if rid != 0 then [CloseWest(rid)] else [], id);
    case _ => Witness(w, w.east, w.west, u, [], [], id);
  }

  /** Every step: the channels grow by certain messages, and the counters of CLOSE and
      ACCEPTED calls grow by exactly those among them. */
  lemma StepCounts(w: World, a: Action, id: Id)
    requires Enabled(w, a)
    ensures Grown(w, RestEast(w, a), RestWest(w, a), Step(w, a), id)
  {
    if a.DeliverEast? {
      var v := w.(east := w.east[1..]);
      EastCounts(v, w.east[0], a.sid, a.to, a.ok, id);
      hide HandleEast, Grown;
      SameCounters(v, w, v.east, v.west, Step(w, a), id);
    } else if a.DeliverWest? {
      var v := w.(west := w.west[1..]);
      WestCounts(v, w.west[0], a.now, a.listening, id);
      hide HandleWest, Grown;
      SameCounters(v, w, v.east, v.west, Step(w, a), id);
    } else {
      hide Step, Grown;
      LocalCounts(w, a, id);
    }
  }

  // ---------- The messages of a run ----------

  // What a step puts on the channels.
  function NewEast(w: World, a: Action): seq<East> {
    var east, rest := Step(w, a).east, RestEast(w, a);
    if |rest| <= |east| then east[|rest|..] else []
  }

  function NewWest(w: World, a: Action): seq<West> {
    var west, rest := Step(w, a).west, RestWest(w, a);
    if |rest| <= |west| then west[|rest|..] else []
  }

  /** Everything that has been sent in a run, in order. */
  function EastLog(actions: seq<Action>): seq<East> {
    if actions == [] then [] else EastLog(Front(actions)) + NewEast(Run(Front(actions)), Last(actions))
  }

  function WestLog(actions: seq<Action>): seq<West> {
    if actions == [] then [] else WestLog(Front(actions)) + NewWest(Run(Front(actions)), Last(actions))
  }

  /** The step delivers a successful ACCEPT response for connection cid to a forwarder
      whose slot is waiting for it. */
  predicate Completes(w: World, a: Action, cid: Id) {
    && Enabled(w, a) && a.DeliverEast? && w.east[0].AcceptOk? && w.east[0].cid == cid
    && w.east[0].ticket.fwd in w.fwds && w.east[0].ticket.slot in w.fwds[w.east[0].ticket.fwd]
  }

  function Completions(actions: seq<Action>, cid: Id): nat {
    if actions == [] then 0
    else Completions(Front(actions), cid) + if Completes(Run(Front(actions)), Last(actions), cid) then 1 else 0
  }

  lemma {:induction false} WestConcat(a: seq<West>, b: seq<West>, cid: Id)
    ensures ClosingWest(a + b, cid) == ClosingWest(a, cid) + ClosingWest(b, cid)
    ensures Accepting(a + b, cid) == Accepting(a, cid) + Accepting(b, cid)
  {
    if b == [] {
      assert a + b == a;
    } else {
      WestConcat(a, Front(b), cid);
      assert Front(a + b) == a + Front(b);
    }
  }

  /** The channels grow by what a step sends, and the counters count it. */
  lemma StepSends(w: World, a: Action, id: Id)
    ensures Step(w, a).east == RestEast(w, a) + NewEast(w, a)
    ensures Step(w, a).west == RestWest(w, a) + NewWest(w, a)
    ensures Counts(w, Step(w, a), NewEast(w, a), NewWest(w, a), id)
  {
    var u := Step(w, a);
    if Enabled(w, a) {
      StepCounts(w, a, id);
      hide Step, Enabled, RestEast, RestWest, ClosingEast, ClosingWest, Accepting;
      var east, west :|
        u.east == RestEast(w, a) + east && u.west == RestWest(w, a) + west && Counts(w, u, east, west, id);
      assert NewEast(w, a) == east && NewWest(w, a) == west;
    } else {
      assert NewEast(w, a) == [] && NewWest(w, a) == [];
    }
  }

  lemma HandledCompletion(w: World, m: East, sid: Id, to: Addr, ok: bool, cid: Id)
    ensures HandleEast(w, m, sid, to, ok).completed[cid]
            == w.completed[cid]
               + if m.AcceptOk? && m.cid == cid && m.ticket.fwd in w.fwds && m.ticket.slot in w.fwds[m.ticket.fwd]
                 then 1 else 0
  {
    if m.CloseEast? {
      SocketClosed(w, m, sid, to, ok);
      hide HandleEast;
    } else if m.AcceptOk? {
      hide SocketGone;
    } else {
      hide SocketGone;
    }
  }

  lemma WestCompletion(w: World, m: West, now: int, listening: bool)
    ensures HandleWest(w, m, now, listening).completed == w.completed
  {
    if m.CloseWest? {
      ConnectionClosed(w, m, now, listening);
      hide HandleWest;
    } else {
      hide ClosedConn, Connection.Apply, Wire, Closes;
    }
  }

  /** Completed ACCEPTs are counted where they are delivered. */
  lemma StepCompletes(w: World, a: Action, cid: Id)
    ensures Step(w, a).completed[cid] == w.completed[cid] + if Completes(w, a, cid) then 1 else 0
  {
    if Enabled(w, a) && a.DeliverEast? {
      HandledCompletion(w.(east := w.east[1..]), w.east[0], a.sid, a.to, a.ok, cid);
      hide HandleEast;
    } else if Enabled(w, a) && a.DeliverWest? {
      WestCompletion(w.(west := w.west[1..]), w.west[0], a.now, a.listening);
      hide HandleWest;
    } else {
      hide HandleEast, HandleWest, Connection.Apply, Connection.Dispose, Connection.Start, Wire, Closes;
    }
  }

  /** Over every run the history counters are the counts of the messages sent, and of the
      ACCEPT responses delivered. */
  lemma {:induction false} LogsCount(actions: seq<Action>, id: Id)
    ensures var w := Run(actions);
            && w.closesEast[id] == ClosingEast(EastLog(actions), id)
            && w.closesWest[id] == ClosingWest(WestLog(actions), id)
            && w.accepted[id] == Accepting(WestLog(actions), id)
            && w.completed[id] == Completions(actions, id)
  {
    if actions != [] {
      var w, a := Run(Front(actions)), Last(actions);
      LogsCount(Front(actions), id);
      hide Step, Completes, NewEast, NewWest, ClosingEast, ClosingWest, Accepting;
      StepSends(w, a, id);
      StepCompletes(w, a, id);
      ClosingConcat(EastLog(Front(actions)), NewEast(w, a), id);
      WestConcat(WestLog(Front(actions)), NewWest(w, a), id);
    }
  }

  /** The step sends exactly one of ACCEPTED and CLOSE for the connection, and asks again
      for the same slot. */
  predicate AnswersOnce(w: World, a: Action, cid: Id) {
    && Completes(w, a, cid)
    && Accepting(NewWest(w, a), cid) + ClosingWest(NewWest(w, a), cid) == 1
    && NewWest(w, a) != [] && Last(NewWest(w, a)) == AcceptCall(w.east[0].ticket)
  }

  lemma CompletionAnswered(w: World, a: Action, cid: Id)
    requires Completes(w, a, cid)
    ensures AnswersOnce(w, a, cid)
  {
    var t := w.east[0].ticket;
    var first := if a.ok then Accepted(cid, a.sid) else CloseWest(cid);
    assert Step(w, a).west == w.west + [first, AcceptCall(t)];
    assert NewWest(w, a) == [first, AcceptCall(t)];
    TwoWest(first, AcceptCall(t), cid);
    OneWest(first, cid);
    OneWest(AcceptCall(t), cid);
  }
}

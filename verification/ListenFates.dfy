/** When the connections of a datagram listener go, when senders wait, and when nothing is
    timed: exact conditions over every run, in terms of what the events have been. */
module ListenFates {
  import opened Base
  import opened Pool
  import opened Listen
  import opened ListenPackets
  import opened ListenBacklog
  import opened ListenSteps
  import opened ListenRuns
  import opened Lives
  import opened ListenTraces
  import Connection

  // ---------- When a connection goes ----------

  /** A newcomer leaves the connection of address a its place. */
  ghost predicate Spared(l: Listener, from: Addr, packets: seq<Packet>, id: Id, order: seq<Addr>, now: int, a: Addr) {
    var all := l.conns[from := NewConn(l, from, packets, id, now)];
    Enumerates(order, all) && (|all| <= l.limit || !FirstMinimum(order, all, a))
  }

  ghost predicate Outlives(r: Run, e: Event, x: Life, a: Addr) {
    match e
    case Receive(from, packet, id, order, now, _) =>
      from in r.l.conns || r.l.acceptQ == [] || Spared(r.l, from, [packet], id, order, now, a)
    case Accept(_, id, order, now, _) =>
      r.l.backlogQ == [] || Spared(r.l, r.l.backlogQ[0].addr, r.l.backlogQ[0].packets, id, order, now, a)
    case Gone(b) => b != a
    case Check(_, t2, _) => LastActive(x) + x.timeout >= t2 + MILLISECOND
    case Dispose => false
    case _ => true
  }

  lemma SparedExactly(l: Listener, from: Addr, packets: seq<Packet>, id: Id, order: seq<Addr>, now: int, at: int, a: Addr)
    requires CanConnect(l, from, order) && a in l.conns
    ensures a in Connected(l, from, packets, id, order, now, at).conns <==> Spared(l, from, packets, id, order, now, a)
  {
    var all := l.conns[from := NewConn(l, from, packets, id, now)];
    ConnectedFields(l, from, packets, id, order, now, at);
    hide Connected, NewConn, CanConnect;
    NonEmptyOrder(order, all);
    if FirstMinimum(order, all, a) {
      FirstMinimumIsUnique(order, all, a, Oldest(order, all));
    }
    hide FirstMinimum;
  }

  lemma SameSpared(l: Listener, n: Listener, from: Addr, packets: seq<Packet>, id: Id, order: seq<Addr>, now: int, a: Addr)
    requires n.conns == l.conns && n.limit == l.limit && n.timeout == l.timeout
    ensures Spared(n, from, packets, id, order, now, a) == Spared(l, from, packets, id, order, now, a)
  {
    hide FirstMinimum, Enumerates;
  }

  lemma OutlivesReceive(r: Run, e: Event, x: Life, a: Addr)
    requires Good(r) && BacklogOk(r.l) && Enabled(r, e) && e.Receive? && a in r.l.conns
    ensures a in Next(r, e).l.conns <==> Outlives(r, e, x, a)
  {
    var from, packet, id, order, now, at := e.from, e.packet, e.id, e.order, e.now, e.at;
    var l := r.l;
    var n := Receipt(l, from, packet);
    assert Outlives(r, e, x, a) == (from in l.conns || l.acceptQ == [] || Spared(l, from, [packet], id, order, now, a));
    hide *;
    GoodParts(r);
    NextReceive(r, from, packet, id, order, now, at);
    BranchShapes(l, from, packet, id, order, now, at);
    ReceiptShape(l, from, packet);
    if from in l.conns {
      SendIsArrive(l.conns[from], packet, now, r.clock);
      ReturnsIntro(l, from, Connection.Arrive(packet, now), r.clock, at);
      ReturnsHere(l, from, Connection.Send(l.conns[from], packet, now), r.clock, now, at);
      SettleFields(n, from, Connection.Send(l.conns[from], packet, now), at);
    } else if l.acceptQ != [] {
      var q := n.(acceptQ := n.acceptQ[1..]);
      AnsweredShape(n, from, packet, id, order, now, at);
      ArmKeeps(Connected(q, from, [packet], id, order, now, at).(answers := n.answers + [Answer(n.acceptQ[0], from, id)]), at);
      SparedExactly(q, from, [packet], id, order, now, at, a);
      SameSpared(l, q, from, [packet], id, order, now, a);
    } else {
      BackloggedFields(n, from, packet, now, at);
    }
  }

  lemma OutlivesAccept(r: Run, e: Event, x: Life, a: Addr)
    requires BacklogOk(r.l) && Enabled(r, e) && e.Accept? && a in r.l.conns
    ensures a in Next(r, e).l.conns <==> Outlives(r, e, x, a)
  {
    var l := r.l;
    assert Outlives(r, e, x, a)
        == (l.backlogQ == [] || Spared(l, l.backlogQ[0].addr, l.backlogQ[0].packets, e.id, e.order, e.now, a));
    hide *;
    NextAccept(r, e.req, e.id, e.order, e.now, e.at);
    AcceptingShape(l, e.req, e.id, e.order, e.now, e.at);
    if l.backlogQ != [] {
      var n, pc := l.(backlogQ := l.backlogQ[1..]), l.backlogQ[0];
      SparedExactly(n, pc.addr, pc.packets, e.id, e.order, e.now, e.at, a);
      SameSpared(l, n, pc.addr, pc.packets, e.id, e.order, e.now, a);
    }
  }

  lemma OutlivesOther(r: Run, e: Event, x: Life, a: Addr)
    requires Good(r) && BacklogOk(r.l) && Enabled(r, e) && !e.Receive? && !e.Accept? && a in r.l.conns
    requires r.l.conns[a].expiry == LastActive(x) + x.timeout
    ensures a in Next(r, e).l.conns <==> Outlives(r, e, x, a)
  {
    var l := r.l;
    match e
    case Check(t1, t2, t3) =>
      hide Good, BacklogOk, Checked;
      NextCheck(r, t1, t2, t3);
      CheckKeeps(l, t1, t2, t3);
      hide Next, Enabled, LastActive, PopExpired;
    case Gone(b) => NextGone(r, b); hide Good, BacklogOk, Next, Enabled;
    case Cancel(req) => NextCancel(r, req); CancelShape(l, req); hide Good, BacklogOk, Next, Enabled, Cancelled;
    case Dispose => NextDispose(r); DisposeShape(l); hide Good, BacklogOk, Next, Enabled, Disposed;
    case Callback(b, ce, at) =>
      hide *;
      GoodParts(r);
      NextCallback(r, b, ce, at);
      ReturnsIntro(l, b, ce, r.clock, at);
      ReturnsHere(l, b, Connection.Apply(l.conns[b], ce), r.clock, Connection.Moment(ce, r.clock), at);
      SettleFields(l, b, Connection.Apply(l.conns[b], ce), at);
      CallbackOutlives(r, e, x, a);
  }

  lemma CallbackOutlives(r: Run, e: Event, x: Life, a: Addr)
    requires e.Callback?
    ensures Outlives(r, e, x, a)
  {
  }

  /** A connection goes exactly when a newcomer takes its place, it is removed, or a check
      finds it idle for all but a millisecond of the timeout. */
  lemma GoesExactly(timeout: nat, limit: nat, backlog: nat, start: int, events: seq<Event>, e: Event, a: Addr)
    requires start > 0 && limit > 0 && backlog > 0
    requires a in Runs(timeout, limit, backlog, start, events).l.conns
    requires Enabled(Runs(timeout, limit, backlog, start, events), e)
    ensures LifeOf(timeout, limit, backlog, start, events, a).Some?
    ensures BacklogOk(Runs(timeout, limit, backlog, start, events).l)
    ensures var x, r := LifeOf(timeout, limit, backlog, start, events, a).value, Runs(timeout, limit, backlog, start, events);
            a in Next(r, e).l.conns <==> Outlives(r, e, x, a)
  {
    hide *;
    SendersKeepOrder(timeout, limit, backlog, start, events, a);
    RunTraced(timeout, limit, backlog, start, events, a);
    RunsAreGood(timeout, limit, backlog, start, events);
    var r := Runs(timeout, limit, backlog, start, events);
    AgreeLeads(r.l, r.touched, timeout, HeardFrom(timeout, limit, backlog, start, events, a),
               LifeOf(timeout, limit, backlog, start, events, a), a);
    var x := LifeOf(timeout, limit, backlog, start, events, a).value;
    GoodParts(r);
    if e.Receive? {
      OutlivesReceive(r, e, x, a);
    } else if e.Accept? {
      OutlivesAccept(r, e, x, a);
    } else {
      OutlivesOther(r, e, x, a);
    }
  }

  // ---------- When a sender waits ----------

  /** Whether a sender waits after the event. */
  predicate WaitsAfter(r: Run, e: Event, h: Heard, a: Addr) {
    match e
    case Receive(from, _, _, _, _, _) =>
      if from in r.l.conns || r.l.acceptQ != [] then Waits(r.l, a) else from == a || Keeps(r.l, a)
    case Accept(_, _, _, _, _) => Waits(r.l, a) && r.l.backlogQ[0].addr != a
    case Check(t1, _, _) => Waits(r.l, a) && h.at + r.l.timeout > t1
    case Dispose => false
    case _ => Waits(r.l, a)
  }

  predicate InLine(q: seq<Pending>, a: Addr) {
    exists y :: y in q && y.addr == a
  }

  lemma EnqueuedAddrs(q: seq<Pending>, from: Addr, packet: Packet, expiry: int, a: Addr)
    ensures InLine(Enqueued(q, from, packet, expiry), a) <==> from == a || Find(q, a) < |q|
  {
    var i, r := Find(q, from), Enqueued(q, from, packet, expiry);
    if i < |q| {
      var grown := q[i := Pending(from, expiry, q[i].packets + [packet])];
      SortElements(grown);
      hide Sort;
      assert grown[i] in r;
      if Find(q, a) < |q| {
        assert grown[Find(q, a)] in r;
      }
      if y :| y in r && y.addr == a {
        assert y in grown;
      }
    } else {
      assert r[|q|] in r;
      if Find(q, a) < |q| {
        assert r[Find(q, a)] in r;
      }
    }
  }

  lemma WaitsElement(l: Listener, a: Addr)
    ensures Waits(l, a) == InLine(l.backlogQ, a)
  {
    if y :| y in l.backlogQ && y.addr == a {
      var k :| 0 <= k < |l.backlogQ| && l.backlogQ[k] == y;
    }
    if Waits(l, a) {
      var k :| 0 <= k < |l.backlogQ| && l.backlogQ[k].addr == a;
      assert l.backlogQ[k] in l.backlogQ;
    }
  }

  lemma {:induction false} FilterElements(q: seq<Pending>, now: int, y: Pending)
    ensures y in KeepUnexpired(q, now) <==> y in q && y.expiry > now
  {
    if q != [] {
      FilterElements(q[1..], now, y);
      assert q == [q[0]] + q[1..];
    }
  }

  lemma CheckedWaits(l: Listener, m: Listener, t1: int, timeout: nat, h: Heard, a: Addr)
    requires Sorted(l.backlogQ) && m.backlogQ == PopExpired(l.backlogQ, t1) && Held(l.backlogQ, timeout, h, a)
    ensures Waits(m, a) <==> Waits(l, a) && h.at + timeout > t1
  {
    WaitsElement(l, a);
    WaitsElement(m, a);
    PopIsFilter(l.backlogQ, t1);
    hide Waits, PopExpired, KeepUnexpired;
    forall y | y in l.backlogQ && y.addr == a
      ensures y.expiry == h.at + timeout
    {
    }
    forall y
      ensures y in m.backlogQ <==> y in l.backlogQ && y.expiry > t1
    {
      FilterElements(l.backlogQ, t1, y);
    }
  }

  lemma HeadTaken(l: Listener, m: Listener, a: Addr)
    requires BacklogOk(l) && l.backlogQ != [] && m.backlogQ == l.backlogQ[1..]
    ensures Waits(m, a) <==> Waits(l, a) && l.backlogQ[0].addr != a
  {
    if Waits(m, a) {
      var k :| 0 <= k < |m.backlogQ| && m.backlogQ[k].addr == a;
      assert l.backlogQ[k + 1].addr == a;
    }
    if Waits(l, a) && l.backlogQ[0].addr != a {
      var k :| 0 <= k < |l.backlogQ| && l.backlogQ[k].addr == a;
      assert m.backlogQ[k - 1].addr == a;
    }
  }

  // The backlog after a datagram.
  lemma ReceivedBacklog(r: Run, from: Addr, packet: Packet, id: Id, order: seq<Addr>, now: int, at: int)
    requires Good(r) && BacklogOk(r.l) && Enabled(r, Receive(from, packet, id, order, now, at))
    ensures Next(r, Receive(from, packet, id, order, now, at)).l.backlogQ
            == if from in r.l.conns || r.l.acceptQ != [] then r.l.backlogQ
               else Enqueued(Purged(r.l.backlogQ, r.l.backlog), from, packet, now + r.l.timeout)
  {
    var l, n := r.l, Receipt(r.l, from, packet);
    hide *;
    GoodParts(r);
    NextReceive(r, from, packet, id, order, now, at);
    BranchShapes(l, from, packet, id, order, now, at);
    ReceiptShape(l, from, packet);
    if from in l.conns {
      SendIsArrive(l.conns[from], packet, now, r.clock);
      CalledBacklog(l, r.clock, n, from, Connection.Arrive(packet, now), at);
    } else if l.acceptQ != [] {
      AnsweredBacklog(n, from, packet, id, order, now, at);
    } else {
      BackloggedFields(n, from, packet, now, at);
    }
  }

  lemma ReceiveWaitsAfter(r: Run, e: Event, h: Heard, a: Addr)
    requires e.Receive?
    ensures WaitsAfter(r, e, h, a)
            == if e.from in r.l.conns || r.l.acceptQ != [] then Waits(r.l, a) else e.from == a || Keeps(r.l, a)
  {
    hide Waits, Keeps;
  }

  lemma ReceiveWaits(r: Run, e: Event, h: Heard, a: Addr)
    requires Good(r) && BacklogOk(r.l) && Enabled(r, e) && e.Receive?
    ensures Waits(Next(r, e).l, a) <==> WaitsAfter(r, e, h, a)
  {
    hide *;
    var l := r.l;
    ReceiveWaitsAfter(r, e, h, a);
    ReceivedBacklog(r, e.from, e.packet, e.id, e.order, e.now, e.at);
    WaitsElement(l, a);
    WaitsElement(Next(r, e).l, a);
    if !(e.from in l.conns || l.acceptQ != []) {
      KeepsExactly(l, a);
      EnqueuedAddrs(Purged(l.backlogQ, l.backlog), e.from, e.packet, e.now + l.timeout, a);
    }
  }

  lemma AcceptWaitsOn(r: Run, e: Event, h: Heard, a: Addr)
    requires BacklogOk(r.l) && Enabled(r, e) && e.Accept?
    ensures Waits(Next(r, e).l, a) <==> WaitsAfter(r, e, h, a)
  {
    var l, m := r.l, Next(r, e).l;
    assert WaitsAfter(r, e, h, a) == (Waits(l, a) && l.backlogQ[0].addr != a);
    WaitsElement(l, a);
    WaitsElement(m, a);
    hide *;
    NextAccept(r, e.req, e.id, e.order, e.now, e.at);
    AcceptingShape(l, e.req, e.id, e.order, e.now, e.at);
    if l.backlogQ != [] {
      var n, pc := l.(backlogQ := l.backlogQ[1..]), l.backlogQ[0];
      ConnectedFields(n, pc.addr, pc.packets, e.id, e.order, e.now, e.at);
      PoppedTimeout(n, Connected(n, pc.addr, pc.packets, e.id, e.order, e.now, e.at), 0);
      HeadTaken(l, m, a);
    }
  }

  lemma SameWaits(l: Listener, m: Listener, a: Addr)
    requires m.backlogQ == l.backlogQ
    ensures Waits(m, a) == Waits(l, a)
  {
  }

  lemma OtherWaits(r: Run, e: Event, timeout: nat, h: Heard, a: Addr)
    requires Good(r) && BacklogOk(r.l) && Enabled(r, e) && !e.Receive? && !e.Accept?
    requires Held(r.l.backlogQ, timeout, h, a) && r.l.timeout == timeout
    ensures Waits(Next(r, e).l, a) <==> WaitsAfter(r, e, h, a)
  {
    var l, n := r.l, Next(r, e);
    match e
    case Check(t1, t2, t3) =>
      NextCheck(r, t1, t2, t3);
      CheckKeeps(l, t1, t2, t3);
      BacklogParts(l);
      hide Good, BacklogOk, Next, Checked, Held, Enabled, Waits, Sorted, PopExpired;
      CheckedWaits(l, n.l, t1, timeout, h, a);
    case Gone(b) => NextGone(r, b); hide Good, BacklogOk, Next, Waits; SameWaits(l, n.l, a);
    case Cancel(req) =>
      NextCancel(r, req);
      CancelShape(l, req);
      hide Good, BacklogOk, Next, Waits, Cancelled;
      SameWaits(l, n.l, a);
    case Dispose => NextDispose(r); hide Good, BacklogOk, Next;
    case Callback(b, ce, at) =>
      assert WaitsAfter(r, e, h, a) == Waits(l, a);
      hide *;
      GoodParts(r);
      NextCallback(r, b, ce, at);
      CalledBacklog(l, r.clock, l, b, ce, at);
      SameWaits(l, n.l, a);
  }

  /** A sender starts to wait exactly when it is heard without a connection and without an
      ACCEPT request, and stops exactly when it is at the head and an ACCEPT request comes or
      a full backlog needs its place, or a check comes a timeout after it was last heard. */
  lemma WaitsExactly(timeout: nat, limit: nat, backlog: nat, start: int, events: seq<Event>, e: Event, a: Addr)
    requires start > 0 && limit > 0 && backlog > 0
    requires Enabled(Runs(timeout, limit, backlog, start, events), e)
    ensures BacklogOk(Runs(timeout, limit, backlog, start, events).l)
    ensures var r := Runs(timeout, limit, backlog, start, events);
            Waits(Next(r, e).l, a) <==> WaitsAfter(r, e, HeardFrom(timeout, limit, backlog, start, events, a), a)
  {
    hide *;
    RunTraced(timeout, limit, backlog, start, events, a);
    RunsAreGood(timeout, limit, backlog, start, events);
    var r, h := Runs(timeout, limit, backlog, start, events), HeardFrom(timeout, limit, backlog, start, events, a);
    AgreeParts(r.l, r.touched, timeout, h, LifeOf(timeout, limit, backlog, start, events, a), a);
    GoodParts(r);
    if e.Receive? {
      ReceiveWaits(r, e, h, a);
    } else if e.Accept? {
      AcceptWaitsOn(r, e, h, a);
    } else {
      OtherWaits(r, e, timeout, h, a);
    }
  }

  // ---------- Answers ----------

  /** The step completes no ACCEPT and makes no connection, or it completes one, with the id
      and the sender of the one connection that it makes. */
  ghost predicate NamesNewcomer(l: Listener, m: Listener) {
    || (m.answers == l.answers && m.conns.Keys <= l.conns.Keys)
    || (m.answers != [] && m.answers == l.answers + [Last(m.answers)]
        && var x := Last(m.answers);
           && x.addr !in l.conns && x.addr in m.conns && m.conns[x.addr].id == x.id
           && m.conns.Keys <= l.conns.Keys + {x.addr})
  }

  lemma NamesIntro(l: Listener, q: Listener, m: Listener, from: Addr, packets: seq<Packet>, req: Req, id: Id,
                   order: seq<Addr>, now: int, at: int)
    requires CanConnect(q, from, order) && q.conns == l.conns
    requires m.conns == Connected(q, from, packets, id, order, now, at).conns
    requires m.answers == l.answers + [Answer(req, from, id)]
    ensures NamesNewcomer(l, m)
  {
    ConnectedFields(q, from, packets, id, order, now, at);
    hide Connected, CanConnect, Evicted, Arm;
    assert Last(m.answers) == Answer(req, from, id);
  }

  lemma NamesNobody(l: Listener, m: Listener)
    requires m.answers == l.answers && m.conns.Keys <= l.conns.Keys
    ensures NamesNewcomer(l, m)
  {
  }

  lemma ReceiveNames(r: Run, from: Addr, packet: Packet, id: Id, order: seq<Addr>, now: int, at: int)
    requires Good(r) && BacklogOk(r.l) && Enabled(r, Receive(from, packet, id, order, now, at))
    ensures NamesNewcomer(r.l, Next(r, Receive(from, packet, id, order, now, at)).l)
  {
    var l, m := r.l, Next(r, Receive(from, packet, id, order, now, at)).l;
    var n := Receipt(l, from, packet);
    hide *;
    GoodParts(r);
    NextReceive(r, from, packet, id, order, now, at);
    BranchShapes(l, from, packet, id, order, now, at);
    ReceiptShape(l, from, packet);
    if from in l.conns {
      SendIsArrive(l.conns[from], packet, now, r.clock);
      ReturnsIntro(l, from, Connection.Arrive(packet, now), r.clock, at);
      ReturnsHere(l, from, Connection.Send(l.conns[from], packet, now), r.clock, now, at);
      SettleFields(n, from, Connection.Send(l.conns[from], packet, now), at);
      SameKeys(l.conns, from, Connection.Send(l.conns[from], packet, now).conn);
      NamesNobody(l, m);
    } else if l.acceptQ != [] {
      var t := n.(acceptQ := n.acceptQ[1..]);
      AnsweredShape(n, from, packet, id, order, now, at);
      var k := Connected(t, from, [packet], id, order, now, at);
      ArmKeeps(k.(answers := n.answers + [Answer(n.acceptQ[0], from, id)]), at);
      NamesIntro(l, t, m, from, [packet], n.acceptQ[0], id, order, now, at);
    } else {
      BackloggedFields(n, from, packet, now, at);
      NamesNobody(l, m);
    }
  }

  lemma AcceptNames(r: Run, req: Req, id: Id, order: seq<Addr>, now: int, at: int)
    requires BacklogOk(r.l) && Enabled(r, Accept(req, id, order, now, at))
    ensures NamesNewcomer(r.l, Next(r, Accept(req, id, order, now, at)).l)
  {
    var l, m := r.l, Next(r, Accept(req, id, order, now, at)).l;
    hide *;
    NextAccept(r, req, id, order, now, at);
    AcceptingShape(l, req, id, order, now, at);
    if l.backlogQ == [] {
      NamesNobody(l, m);
    } else {
      var n, pc := l.(backlogQ := l.backlogQ[1..]), l.backlogQ[0];
      NamesIntro(l, n, m, pc.addr, pc.packets, req, id, order, now, at);
    }
  }

  lemma OtherNames(r: Run, e: Event)
    requires Good(r) && BacklogOk(r.l) && Enabled(r, e) && !e.Receive? && !e.Accept?
    ensures NamesNewcomer(r.l, Next(r, e).l)
  {
    var l, m := r.l, Next(r, e).l;
    match e
    case Check(t1, t2, t3) =>
      hide *;
      NextCheck(r, t1, t2, t3);
      CheckKeeps(l, t1, t2, t3);
      CheckShape(l, t1, t2, t3);
      ArmKeeps(Swept(l, t1, t2), t3);
      UnexpiredPart(l.conns, t2);
      NamesNobody(l, m);
    case Gone(b) => hide *; NextGone(r, b); WithoutAnswers(r, b); NamesNobody(l, m);
    case Cancel(req) => hide *; NextCancel(r, req); CancelShape(l, req); NamesNobody(l, m);
    case Dispose => hide *; NextDispose(r); DisposeShape(l); NamesNobody(l, m);
    case Callback(b, ce, at) =>
      hide *;
      GoodParts(r);
      NextCallback(r, b, ce, at);
      ReturnsIntro(l, b, ce, r.clock, at);
      ReturnsHere(l, b, Connection.Apply(l.conns[b], ce), r.clock, Connection.Moment(ce, r.clock), at);
      SettleFields(l, b, Connection.Apply(l.conns[b], ce), at);
      SameKeys(l.conns, b, Connection.Apply(l.conns[b], ce).conn);
      NamesNobody(l, m);
  }

  lemma WithoutAnswers(r: Run, b: Addr)
    requires BacklogOk(r.l) && Enabled(r, Gone(b))
    ensures Next(r, Gone(b)).l.answers == r.l.answers
  {
    hide BacklogOk, Queued, Add;
  }

  /** Every response to an ACCEPT names the connection that is made for it, and no connection
      is made without one. */
  lemma AnswersNameConnections(timeout: nat, limit: nat, backlog: nat, start: int, events: seq<Event>, e: Event)
    requires start > 0 && limit > 0 && backlog > 0
    requires Enabled(Runs(timeout, limit, backlog, start, events), e)
    ensures BacklogOk(Runs(timeout, limit, backlog, start, events).l)
    ensures var r := Runs(timeout, limit, backlog, start, events); NamesNewcomer(r.l, Next(r, e).l)
  {
    hide *;
    RunsAreGood(timeout, limit, backlog, start, events);
    var r := Runs(timeout, limit, backlog, start, events);
    GoodParts(r);
    match e
    case Receive(from, packet, id, order, now, at) => ReceiveNames(r, from, packet, id, order, now, at);
    case Accept(req, id, order, now, at) => AcceptNames(r, req, id, order, now, at);
    case _ => OtherNames(r, e);
  }

  // ---------- Timing ----------

  lemma ArmedExactly(l: Listener, at: int)
    ensures Arm(l, at).timer == None <==> l.timer == None && l.conns == map[]
  {
  }

  /** A connection made for a datagram leaves the timer armed. One made for an ACCEPT request
      leaves it idle if and only if it was idle and the table empty, because it is armed
      before the insertion. */
  lemma NewcomerIsTimed(l: Listener, from: Addr, packet: Packet, req: Req, id: Id, order: seq<Addr>, now: int, at: int)
    ensures l.acceptQ != [] && CanConnect(l, from, order) ==>
              Answered(l, from, packet, id, order, now, at).timer.Some?
    ensures l.backlogQ != [] && CanConnect(l, l.backlogQ[0].addr, order) ==>
              (Accepting(l, req, id, order, now, at).timer == None <==> l.timer == None && l.conns == map[])
  {
    hide *;
    if l.acceptQ != [] && CanConnect(l, from, order) {
      AnsweredShape(l, from, packet, id, order, now, at);
      var n := l.(acceptQ := l.acceptQ[1..]);
      ConnectedFields(n, from, [packet], id, order, now, at);
      var k := Connected(n, from, [packet], id, order, now, at);
      ArmedExactly(k.(answers := l.answers + [Answer(l.acceptQ[0], from, id)]), at);
      assert k.conns != map[] by { assert from in k.conns; }
    }
    if l.backlogQ != [] && CanConnect(l, l.backlogQ[0].addr, order) {
      AcceptingShape(l, req, id, order, now, at);
      var n, pc := l.(backlogQ := l.backlogQ[1..]), l.backlogQ[0];
      ConnectedFields(n, pc.addr, pc.packets, id, order, now, at);
      ArmedExactly(n, at);
    }
  }

  predicate Alone(l: Listener) {
    l.timer == None ==> |l.conns| <= 1
  }

  lemma FewerAlone(l: Listener, m: Listener)
    requires Alone(l) && m.conns.Keys <= l.conns.Keys && (m.timer == None ==> l.timer == None)
    ensures Alone(m)
  {
    SubsetIsSmaller(m.conns.Keys, l.conns.Keys);
  }

  lemma AtMostOne(m: Listener, a: Addr)
    requires m.conns.Keys <= {a}
    ensures Alone(m)
  {
    SubsetIsSmaller(m.conns.Keys, {a});
  }

  lemma SettledAlone(l: Listener, a: Addr, o: Connection.Outcome, at: int)
    requires Alone(l) && a in l.conns && !o.remove
    ensures Alone(Settle(l, a, o, at))
  {
    hide *;
    var m := Settle(l, a, o, at);
    SettleFields(l, a, o, at);
    SameKeys(l.conns, a, o.conn);
    ArmedExactly(l.(conns := l.conns[a := o.conn]), at);
    FewerAlone(l, m);
  }

  lemma ReceivedAlone(r: Run, from: Addr, packet: Packet, id: Id, order: seq<Addr>, now: int, at: int)
    requires Good(r) && BacklogOk(r.l) && Enabled(r, Receive(from, packet, id, order, now, at)) && Alone(r.l)
    ensures Alone(Next(r, Receive(from, packet, id, order, now, at)).l)
  {
    var l, m := r.l, Next(r, Receive(from, packet, id, order, now, at)).l;
    var n := Receipt(l, from, packet);
    hide *;
    GoodParts(r);
    NextReceive(r, from, packet, id, order, now, at);
    BranchShapes(l, from, packet, id, order, now, at);
    ReceiptShape(l, from, packet);
    FewerAlone(l, n);
    if from in l.conns {
      SendIsArrive(l.conns[from], packet, now, r.clock);
      ReturnsIntro(l, from, Connection.Arrive(packet, now), r.clock, at);
      ReturnsHere(l, from, Connection.Send(l.conns[from], packet, now), r.clock, now, at);
      SettledAlone(n, from, Connection.Send(l.conns[from], packet, now), at);
    } else if l.acceptQ != [] {
      NewcomerIsTimed(n, from, packet, 0, id, order, now, at);
      TimedAlone(m);
    } else {
      BackloggedFields(n, from, packet, now, at);
      SearchedFields(n, from, packet, now, at);
      ArmedExactly(Searched(n, from, packet, now), at);
      FewerAlone(n, m);
    }
  }

  lemma TimedAlone(m: Listener)
    requires m.timer.Some? || m.conns == map[]
    ensures Alone(m)
  {
  }

  lemma AcceptAlone(r: Run, req: Req, id: Id, order: seq<Addr>, now: int, at: int)
    requires BacklogOk(r.l) && Enabled(r, Accept(req, id, order, now, at)) && Alone(r.l)
    ensures Alone(Next(r, Accept(req, id, order, now, at)).l)
  {
    var l, m := r.l, Next(r, Accept(req, id, order, now, at)).l;
    hide *;
    NextAccept(r, req, id, order, now, at);
    AcceptingShape(l, req, id, order, now, at);
    if l.backlogQ == [] {
      FewerAlone(l, m);
    } else {
      var n, pc := l.(backlogQ := l.backlogQ[1..]), l.backlogQ[0];
      NewcomerIsTimed(l, 0, 0, req, id, order, now, at);
      ConnectedFields(n, pc.addr, pc.packets, id, order, now, at);
      if m.timer == None {
        AtMostOne(m, pc.addr);
      } else {
        TimedAlone(m);
      }
    }
  }

  lemma CheckAlone(r: Run, t1: int, t2: int, t3: int)
    requires BacklogOk(r.l) && Enabled(r, Check(t1, t2, t3))
    ensures Alone(Next(r, Check(t1, t2, t3)).l)
  {
    hide *;
    NextCheck(r, t1, t2, t3);
    CheckShape(r.l, t1, t2, t3);
    ArmedExactly(Swept(r.l, t1, t2), t3);
    ArmKeeps(Swept(r.l, t1, t2), t3);
    TimedAlone(Next(r, Check(t1, t2, t3)).l);
  }

  lemma StepAlone(r: Run, e: Event)
    requires Good(r) && BacklogOk(r.l) && Alone(r.l) && Enabled(r, e)
    ensures Alone(Next(r, e).l)
  {
    hide *;
    match e
    case Receive(from, packet, id, order, now, at) => ReceivedAlone(r, from, packet, id, order, now, at);
    case Accept(req, id, order, now, at) => AcceptAlone(r, req, id, order, now, at);
    case Check(t1, t2, t3) => CheckAlone(r, t1, t2, t3);
    case Callback(b, ce, at) =>
      GoodParts(r);
      NextCallback(r, b, ce, at);
      ReturnsIntro(r.l, b, ce, r.clock, at);
      ReturnsHere(r.l, b, Connection.Apply(r.l.conns[b], ce), r.clock, Connection.Moment(ce, r.clock), at);
      SettledAlone(r.l, b, Connection.Apply(r.l.conns[b], ce), at);
    case Gone(b) => GoneAlone(r, b);
    case Cancel(req) =>
      NextCancel(r, req);
      CancelShape(r.l, req);
      FewerAlone(r.l, Cancelled(r.l, req));
    case Dispose =>
      NextDispose(r);
      DisposeShape(r.l);
      TimedAlone(Disposed(r.l));
  }

  lemma GoneAlone(r: Run, b: Addr)
    requires BacklogOk(r.l) && Enabled(r, Gone(b)) && Alone(r.l)
    ensures Alone(Next(r, Gone(b)).l)
  {
    NextGone(r, b);
    var m := Next(r, Gone(b)).l;
    assert m.timer == r.l.timer by { hide BacklogOk, Queued, Add; }
    hide *;
    assert m.conns.Keys <= r.l.conns.Keys;
    FewerAlone(r.l, m);
  }

  /** Over every run: without a timer there is at most one connection, and it has not been
      active since it was made. */
  lemma {:induction false} UntimedIsAlone(timeout: nat, limit: nat, backlog: nat, start: int, events: seq<Event>)
    requires start > 0 && limit > 0 && backlog > 0
    ensures var r := Runs(timeout, limit, backlog, start, events);
            Alone(r.l) && (r.l.timer == None ==> r.touched == {})
  {
    RunsAreGood(timeout, limit, backlog, start, events);
    GoodParts(Runs(timeout, limit, backlog, start, events));
    if events != [] {
      var r, e := Runs(timeout, limit, backlog, start, Front(events)), Last(events);
      UntimedIsAlone(timeout, limit, backlog, start, Front(events));
      RunsAreGood(timeout, limit, backlog, start, Front(events));
      GoodParts(r);
      if Enabled(r, e) {
        StepAlone(r, e);
      }
      hide Next, Good, BacklogOk, OwnConns, Timely, Conserved, InOrder, Enabled;
      assert !Enabled(r, e) ==> Next(r, e) == r by { NotEnabled(r, e); }
    }
  }

  lemma NotEnabled(r: Run, e: Event)
    requires BacklogOk(r.l)
    ensures !Enabled(r, e) ==> Next(r, e) == r
  {
    hide Enabled, BacklogOk;
  }

  // ---------- The end ----------

  lemma DeadStays(r: Run, e: Event)
    requires BacklogOk(r.l)
    ensures !r.l.live ==> Next(r, e) == r
    ensures r.l.live && e.Dispose? ==> Next(r, e).l == Disposed(r.l)
  {
    hide BacklogOk, Received, Accepting, Checked, Settle, Disposed, Without, Cancelled;
  }

  lemma DisposedEmpty(l: Listener)
    ensures Emptied(Disposed(l)) && !Disposed(l).live
  {
    hide DropConns, DropPending;
  }

  predicate Ended(events: seq<Event>) {
    events != [] && (Ended(Front(events)) || Last(events).Dispose?)
  }

  predicate Emptied(l: Listener) {
    l.conns == map[] && l.acceptQ == [] && l.backlogQ == [] && l.timer == None
  }

  /** Only disposal ends it, and nothing is left then: no connection, no request, no sender and
      no timer. */
  lemma {:induction false} NothingAfterDisposal(timeout: nat, limit: nat, backlog: nat, start: int, events: seq<Event>)
    requires start > 0 && limit > 0 && backlog > 0
    ensures var l := Runs(timeout, limit, backlog, start, events).l;
            l.live == !Ended(events) && (Ended(events) ==> Emptied(l))
  {
    if events != [] {
      var before, e := Front(events), Last(events);
      var r := Runs(timeout, limit, backlog, start, before);
      NothingAfterDisposal(timeout, limit, backlog, start, before);
      hide Runs, Next, Good, BacklogOk, Disposed, Emptied;
      RunSnoc(timeout, limit, backlog, start, events);
      DeadStays(r, e);
      DisposedEmpty(r.l);
      if r.l.live && !e.Dispose? {
        LiveStays(r, e);
      }
    }
  }

  lemma RunSnoc(timeout: nat, limit: nat, backlog: nat, start: int, events: seq<Event>)
    requires start > 0 && limit > 0 && backlog > 0 && events != []
    ensures var r := Runs(timeout, limit, backlog, start, Front(events));
            BacklogOk(r.l) && Good(r) && Runs(timeout, limit, backlog, start, events) == Next(r, Last(events))
  {
    RunsAreGood(timeout, limit, backlog, start, Front(events));
    GoodParts(Runs(timeout, limit, backlog, start, Front(events)));
    hide Good, Next, BacklogOk;
  }

  lemma LiveStays(r: Run, e: Event)
    requires Good(r) && BacklogOk(r.l) && r.l.live && !e.Dispose?
    ensures Next(r, e).l.live
  {
    hide *;
    if Enabled(r, e) {
      match e
      case Receive(from, packet, id, order, now, at) => ReceiveLive(r, from, packet, id, order, now, at);
      case Accept(req, id, order, now, at) =>
        NextAccept(r, req, id, order, now, at);
        AcceptingShape(r.l, req, id, order, now, at);
        if r.l.backlogQ != [] {
          var n, pc := r.l.(backlogQ := r.l.backlogQ[1..]), r.l.backlogQ[0];
          ConnectedFields(n, pc.addr, pc.packets, id, order, now, at);
          PoppedLive(n, Connected(n, pc.addr, pc.packets, id, order, now, at));
        }
      case Callback(b, ce, at) =>
        GoodParts(r);
        NextCallback(r, b, ce, at);
        ReturnsIntro(r.l, b, ce, r.clock, at);
        ReturnsHere(r.l, b, Connection.Apply(r.l.conns[b], ce), r.clock, Connection.Moment(ce, r.clock), at);
        SettleFields(r.l, b, Connection.Apply(r.l.conns[b], ce), at);
        PoppedLive(r.l, Settle(r.l, b, Connection.Apply(r.l.conns[b], ce), at));
      case _ => OtherLive(r, e);
    } else {
      NotEnabled(r, e);
    }
  }

  lemma PoppedLive(l: Listener, m: Listener)
    requires Popped(l, m, 0)
    ensures m.live == l.live
  {
  }

  lemma ReceiveLive(r: Run, from: Addr, packet: Packet, id: Id, order: seq<Addr>, now: int, at: int)
    requires Good(r) && BacklogOk(r.l) && Enabled(r, Receive(from, packet, id, order, now, at)) && r.l.live
    ensures Next(r, Receive(from, packet, id, order, now, at)).l.live
  {
    var l, n := r.l, Receipt(r.l, from, packet);
    hide *;
    GoodParts(r);
    NextReceive(r, from, packet, id, order, now, at);
    BranchShapes(l, from, packet, id, order, now, at);
    ReceiptShape(l, from, packet);
    if from in l.conns {
      var o := Connection.Send(l.conns[from], packet, now);
      SendIsArrive(l.conns[from], packet, now, r.clock);
      ReturnsIntro(l, from, Connection.Arrive(packet, now), r.clock, at);
      ReturnsHere(l, from, o, r.clock, now, at);
      SettleFields(n, from, o, at);
      PoppedLive(n, Settle(n, from, o, at));
    } else if l.acceptQ != [] {
      var t := n.(acceptQ := n.acceptQ[1..]);
      AnsweredShape(n, from, packet, id, order, now, at);
      var k := Connected(t, from, [packet], id, order, now, at);
      ConnectedFields(t, from, [packet], id, order, now, at);
      PoppedLive(t, k);
      ArmKeeps(k.(answers := n.answers + [Answer(n.acceptQ[0], from, id)]), at);
    } else {
      BackloggedFields(n, from, packet, now, at);
    }
  }

  lemma OtherLive(r: Run, e: Event)
    requires BacklogOk(r.l) && Enabled(r, e) && r.l.live && (e.Check? || e.Gone? || e.Cancel?)
    ensures Next(r, e).l.live
  {
    if e.Check? {
      CheckLive(r, e.t1, e.t2, e.t3);
      hide Next, BacklogOk, Enabled;
    } else {
      hide BacklogOk, Checked, Unqueue, Queued, Add;
    }
  }

  lemma CheckLive(r: Run, t1: int, t2: int, t3: int)
    requires BacklogOk(r.l) && Enabled(r, Check(t1, t2, t3)) && r.l.live
    ensures Next(r, Check(t1, t2, t3)).l.live
  {
    hide *;
    NextCheck(r, t1, t2, t3);
    CheckShape(r.l, t1, t2, t3);
    ArmKeeps(Swept(r.l, t1, t2), t3);
    SweptLive(r.l, t1, t2);
  }

  lemma SweptLive(l: Listener, t1: int, t2: int)
    ensures Swept(l, t1, t2).live == l.live
  {
    hide DropConns, DropPending, PopExpired, Unexpired;
  }
}

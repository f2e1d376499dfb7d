/** The senders of a datagram listener, each from the events of the run: what waits for an
    ACCEPT and since when, what a connection is made with, what it has submitted and still
    holds, when it was active last, and when it goes. */
module ListenTraces {
  import opened Base
  import opened Pool
  import opened Listen
  import opened ListenPackets
  import opened ListenBacklog
  import opened ListenSteps
  import opened ListenRuns
  import opened Lives
  import Connection

  // ---------- On the events ----------

  /** What has been received from a sender since its pending entry was opened, and when the
      last of it came. */
  datatype Heard = Heard(packets: seq<Packet>, at: int)

  predicate Waits(l: Listener, a: Addr) {
    exists k :: 0 <= k < |l.backlogQ| && l.backlogQ[k].addr == a
  }

  // A full backlog loses its head before it is searched.
  predicate Keeps(l: Listener, a: Addr) {
    exists k :: 0 <= k < |l.backlogQ| && l.backlogQ[k].addr == a && (|l.backlogQ| < l.backlog || k > 0)
  }

  ghost function HeardAfter(r: Run, e: Event, h: Heard, a: Addr): Heard {
    if !Enabled(r, e) then h
    else match e
      case Receive(from, packet, _, _, now, _) =>
        if from == a && a !in r.l.conns && r.l.acceptQ == []
        then Heard((if Keeps(r.l, a) then h.packets else []) + [packet], now) else h
      case _ => h
  }

  ghost function HeardFrom(timeout: nat, limit: nat, backlog: nat, start: int, events: seq<Event>, a: Addr): Heard {
    if events == [] then Heard([], 0)
    else HeardAfter(Runs(timeout, limit, backlog, start, Front(events)), Last(events),
                    HeardFrom(timeout, limit, backlog, start, Front(events), a), a)
  }

  function More(x: Option<Life>, e: Connection.Event): Option<Life> {
    if x.Some? then Some(Lives.Grown(x.value, e)) else None
  }

  function Made(id: Id, timeout: nat, packets: seq<Packet>, now: int): Option<Life> {
    Some(Life(id, false, false, 0, timeout, packets, now, []))
  }

  ghost function LifeAfter(timeout: nat, r: Run, e: Event, h: Heard, x: Option<Life>, a: Addr): Option<Life> {
    if !Enabled(r, e) then x
    else match e
      case Receive(from, packet, id, _, now, _) =>
        if from != a then x
        else if a in r.l.conns then More(x, Connection.Arrive(packet, now))
        else if r.l.acceptQ != [] then Made(id, timeout, [packet], now) else x
      case Accept(_, id, _, now, _) =>
        if r.l.backlogQ != [] && r.l.backlogQ[0].addr == a then Made(id, timeout, h.packets, now) else x
      case Callback(b, ce, _) => if b == a then More(x, ce) else x
      case _ => x
  }

  /** The life of the connection that was last made for sender a. */
  ghost function LifeOf(timeout: nat, limit: nat, backlog: nat, start: int, events: seq<Event>, a: Addr): Option<Life> {
    if events == [] then None
    else LifeAfter(timeout, Runs(timeout, limit, backlog, start, Front(events)), Last(events),
                   HeardFrom(timeout, limit, backlog, start, Front(events), a),
                   LifeOf(timeout, limit, backlog, start, Front(events), a), a)
  }

  // ---------- What a run keeps ----------

  predicate Held(q: seq<Pending>, timeout: nat, h: Heard, a: Addr) {
    forall k :: 0 <= k < |q| && q[k].addr == a ==> q[k] == Pending(a, h.at + timeout, h.packets)
  }

  predicate Traced(l: Listener, touched: set<Addr>, timeout: nat, x: Option<Life>, a: Addr) {
    a in l.conns ==>
      && x.Some? && !x.value.local && x.value.timeout == timeout
      && Leads(x.value, a, l.conns[a], CallsOf(l.calls, a))
      && (a in touched <==> WasActive(x.value))
  }

  // ---------- The backlog ----------

  lemma HeldFewer(q: seq<Pending>, r: seq<Pending>, timeout: nat, h: Heard, a: Addr)
    requires Held(q, timeout, h, a) && forall y :: y in r && y.addr == a ==> y in q
    ensures Held(r, timeout, h, a)
  {
    forall k | 0 <= k < |r| && r[k].addr == a
      ensures r[k] == Pending(a, h.at + timeout, h.packets)
    {
      assert r[k] in q;
    }
  }

  lemma HeldOther(l: Listener, from: Addr, packet: Packet, now: int, h: Heard, a: Addr)
    requires BacklogOk(l) && Held(l.backlogQ, l.timeout, h, a) && from != a
    ensures Held(Enqueued(Purged(l.backlogQ, l.backlog), from, packet, now + l.timeout), l.timeout, h, a)
  {
    hide *;
    BacklogParts(l);
    var q, r := Purged(l.backlogQ, l.backlog), Enqueued(Purged(l.backlogQ, l.backlog), from, packet, now + l.timeout);
    PurgedOk(l.backlogQ, l.backlog);
    EnqueuedElements(q, from, packet, now + l.timeout);
    forall y | y in r && y.addr == a
      ensures y in l.backlogQ
    {
      assert y in q;
    }
    HeldFewer(l.backlogQ, r, l.timeout, h, a);
  }

  // The entry of the sender itself, after the search.
  lemma HeldSender(q: seq<Pending>, from: Addr, packet: Packet, expiry: int)
    requires Distinct(q)
    ensures var i, r := Find(q, from), Enqueued(q, from, packet, expiry);
            forall y :: y in r && y.addr == from ==>
              y == Pending(from, expiry, (if i < |q| then q[i].packets else []) + [packet])
  {
    var i := Find(q, from);
    if i < |q| {
      var grown := q[i := Pending(from, expiry, q[i].packets + [packet])];
      SortElements(grown);
      hide Sort;
      assert forall k :: 0 <= k < |q| && k != i ==> q[k].addr != from;
    } else {
      assert [] + [packet] == [packet];
    }
  }

  // It is still there after the purge if and only if the purge did not hit it.
  lemma KeepsExactly(l: Listener, a: Addr)
    requires BacklogOk(l)
    ensures Keeps(l, a) <==> Find(Purged(l.backlogQ, l.backlog), a) < |Purged(l.backlogQ, l.backlog)|
  {
    var q := Purged(l.backlogQ, l.backlog);
    var d := |l.backlogQ| - |q|;
    assert d == if |l.backlogQ| < l.backlog then 0 else 1;
    assert q == l.backlogQ[d..];
    hide BacklogOk, Purged;
    if Keeps(l, a) {
      var k :| 0 <= k < |l.backlogQ| && l.backlogQ[k].addr == a && (|l.backlogQ| < l.backlog || k > 0);
      assert q[k - d].addr == a;
    }
    var i := Find(q, a);
    if i < |q| {
      assert l.backlogQ[i + d].addr == a;
    }
  }

  lemma HeldAgain(l: Listener, packet: Packet, now: int, h: Heard, a: Addr)
    requires BacklogOk(l) && Held(l.backlogQ, l.timeout, h, a)
    ensures Held(Enqueued(Purged(l.backlogQ, l.backlog), a, packet, now + l.timeout), l.timeout,
                 Heard((if Keeps(l, a) then h.packets else []) + [packet], now), a)
  {
    var q := Purged(l.backlogQ, l.backlog);
    var r, i := Enqueued(q, a, packet, now + l.timeout), Find(q, a);
    var z := Pending(a, now + l.timeout, (if Keeps(l, a) then h.packets else []) + [packet]);
    hide *;
    BacklogParts(l);
    PurgedOk(l.backlogQ, l.backlog);
    KeepsExactly(l, a);
    HeldSender(q, a, packet, now + l.timeout);
    if i < |q| {
      assert q[i] in l.backlogQ;
      HeldElement(l.backlogQ, l.timeout, h, a, q[i]);
    }
    HeldAll(r, l.timeout, Heard(z.packets, now), a);
  }

  lemma HeldElement(q: seq<Pending>, timeout: nat, h: Heard, a: Addr, y: Pending)
    requires Held(q, timeout, h, a) && y in q && y.addr == a
    ensures y == Pending(a, h.at + timeout, h.packets)
  {
  }

  lemma HeldAll(q: seq<Pending>, timeout: nat, h: Heard, a: Addr)
    requires forall y :: y in q && y.addr == a ==> y == Pending(a, h.at + timeout, h.packets)
    ensures Held(q, timeout, h, a)
  {
    forall k | 0 <= k < |q| && q[k].addr == a
      ensures q[k] == Pending(a, h.at + timeout, h.packets)
    {
      assert q[k] in q;
    }
  }

  // ---------- Connections ----------

  lemma TracedFewer(l: Listener, touched: set<Addr>, m: Listener, left: set<Addr>, timeout: nat, x: Option<Life>, a: Addr)
    requires Traced(l, touched, timeout, x, a)
    requires a in m.conns ==>
               && a in l.conns && m.conns[a] == l.conns[a] && CallsOf(m.calls, a) == CallsOf(l.calls, a)
               && (a in left <==> a in touched)
    ensures Traced(m, left, timeout, x, a)
  {
    hide Leads, WasActive;
  }

  lemma TracedBorn(l: Listener, m: Listener, touched: set<Addr>, a: Addr, packets: seq<Packet>, id: Id, now: int)
    requires a in m.conns ==> m.conns[a] == NewConn(l, a, packets, id, now) && CallsOf(m.calls, a) == [] && a !in touched
    ensures Traced(m, touched, l.timeout, Made(id, l.timeout, packets, now), a)
  {
    var x := Life(id, false, false, 0, l.timeout, packets, now, []);
    Born(x, a);
    assert !WasActive(x);
    assert Newborn(x, a) == NewConn(l, a, packets, id, now);
    hide Leads, WasActive;
  }

  lemma GrownActive(x: Life, e: Connection.Event)
    ensures LedgerOf(Lives.Grown(x, e)) == Connection.Advance(x.local, LedgerOf(x), e)
    ensures WasActive(Lives.Grown(x, e)) == (Acts(x.local, LedgerOf(x).phase, e) || WasActive(x))
  {
    assert Before(Lives.Grown(x, e)) == x;
  }

  lemma TracedEvent(l: Listener, touched: set<Addr>, m: Listener, timeout: nat, x: Option<Life>, a: Addr,
                    e: Connection.Event)
    requires Traced(l, touched, timeout, x, a) && a in l.conns
    requires var o := Connection.Apply(l.conns[a], e);
             && !o.remove && m.conns == l.conns[a := o.conn]
             && m.calls == l.calls[a := CallsOf(l.calls, a) + o.calls]
    ensures Traced(m, Active(touched, a, Connection.Apply(l.conns[a], e)), timeout, More(x, e), a)
  {
    var c := l.conns[a];
    Lived(x.value, a, c, CallsOf(l.calls, a));
    EventTouches(c, LedgerOf(x.value), e, 0);
    GrownActive(x.value, e);
    hide Connection.Apply, Leads, LedgerOf, Acts, WasActive, LastActive, Connection.Agrees, Connection.Submitted;
    Grows(x.value, a, c, CallsOf(l.calls, a), e);
  }

  // What the operations do to the calls.
  lemma SettleCalls(l: Listener, a: Addr, o: Connection.Outcome, at: int)
    ensures Settle(l, a, o, at).calls == l.calls[a := CallsOf(l.calls, a) + o.calls]
  {
    hide Schedule, Add, Payload, Queued;
  }

  lemma ConnectedCalls(l: Listener, from: Addr, packets: seq<Packet>, id: Id, order: seq<Addr>, now: int, at: int)
    requires CanConnect(l, from, order)
    ensures Connected(l, from, packets, id, order, now, at).calls == l.calls[from := []]
  {
    hide Arm, Evicted, DropConns;
  }

  lemma BackloggedCalls(l: Listener, from: Addr, packet: Packet, now: int, at: int)
    ensures Backlogged(l, from, packet, now, at).calls == l.calls
  {
    TrimmedKeeps(l);
    ArmKeeps(Trimmed(l).(backlogQ := Enqueued(Trimmed(l).backlogQ, from, packet, now + l.timeout)), at);
    hide Arm, Enqueued, Trimmed;
  }

  // ---------- The backlog after a step ----------

  lemma CalledBacklog(l: Listener, clock: int, n: Listener, b: Addr, e: Connection.Event, at: int)
    requires BacklogOk(l) && OwnConns(l) && b in l.conns && clock <= Connection.Moment(e, clock) <= at
    requires n.conns == l.conns && n.backlogQ == l.backlogQ
    ensures Settle(n, b, Connection.Apply(l.conns[b], e), at).backlogQ == l.backlogQ
  {
    var o := Connection.Apply(l.conns[b], e);
    hide *;
    ReturnsIntro(l, b, e, clock, at);
    ReturnsHere(l, b, o, clock, Connection.Moment(e, clock), at);
    SettleFields(n, b, o, at);
    PoppedTimeout(n, Settle(n, b, o, at), 0);
  }

  lemma AnsweredBacklog(n: Listener, from: Addr, packet: Packet, id: Id, order: seq<Addr>, now: int, at: int)
    requires n.acceptQ != [] && CanConnect(n, from, order)
    ensures Answered(n, from, packet, id, order, now, at).backlogQ == n.backlogQ
  {
    hide *;
    var t := n.(acceptQ := n.acceptQ[1..]);
    AnsweredShape(n, from, packet, id, order, now, at);
    var k := Connected(t, from, [packet], id, order, now, at);
    ConnectedFields(t, from, [packet], id, order, now, at);
    PoppedTimeout(t, k, 0);
    ArmKeeps(k.(answers := n.answers + [Answer(n.acceptQ[0], from, id)]), at);
  }

  // ---------- Events ----------

  // A known sender, or a callback: nothing but that connection and its calls changes.
  lemma CalledTraced(l: Listener, clock: int, touched: set<Addr>, n: Listener, b: Addr, e: Connection.Event, at: int,
                     timeout: nat, h: Heard, x: Option<Life>, a: Addr)
    requires BacklogOk(l) && OwnConns(l) && b in l.conns && clock <= Connection.Moment(e, clock) <= at
    requires n.conns == l.conns && n.backlogQ == l.backlogQ && n.calls == l.calls
    requires Held(l.backlogQ, timeout, h, a) && Traced(l, touched, timeout, x, a)
    ensures var o := Connection.Apply(l.conns[b], e);
            var m := Settle(n, b, o, at);
            && m.backlogQ == l.backlogQ && m.conns.Keys == l.conns.Keys
            && Traced(m, Active(touched, b, o), timeout, if b == a then More(x, e) else x, a)
  {
    var o := Connection.Apply(l.conns[b], e);
    var m := Settle(n, b, o, at);
    hide *;
    ReturnsIntro(l, b, e, clock, at);
    ReturnsHere(l, b, o, clock, Connection.Moment(e, clock), at);
    SettleFields(n, b, o, at);
    CalledBacklog(l, clock, n, b, e, at);
    SettleCalls(n, b, o, at);
    SameKeys(l.conns, b, o.conn);
    if b == a {
      TracedEvent(l, touched, m, timeout, x, a, e);
    } else {
      OtherActive(touched, b, o, a);
      CallsOther(l.calls, b, CallsOf(l.calls, b) + o.calls, a);
      TracedFewer(l, touched, m, Active(touched, b, o), timeout, x, a);
    }
  }

  lemma SameKeys(conns: Conns, b: Addr, c: Connection.Conn)
    requires b in conns
    ensures conns[b := c].Keys == conns.Keys
  {
  }

  lemma CallsOther(calls: Calls, b: Addr, more: seq<Connection.Call>, a: Addr)
    requires a != b
    ensures CallsOf(calls[b := more], a) == CallsOf(calls, a)
  {
  }

  lemma OtherActive(touched: set<Addr>, b: Addr, o: Connection.Outcome, a: Addr)
    requires a != b
    ensures a in Active(touched, b, o) <==> a in touched
  {
  }

  lemma JoinedTraced(l: Listener, touched: set<Addr>, m: Listener, left: set<Addr>, from: Addr, packets: seq<Packet>,
                     id: Id, order: seq<Addr>, now: int, at: int, x: Option<Life>, a: Addr)
    requires CanConnect(l, from, order) && Traced(l, touched, l.timeout, x, a)
    requires var k := Connected(l, from, packets, id, order, now, at); m.conns == k.conns && m.calls == k.calls
    requires forall b :: b in m.conns ==> (b in left <==> b in touched && b != from)
    ensures Traced(m, left, l.timeout, if from == a then Made(id, l.timeout, packets, now) else x, a)
  {
    ConnectedFields(l, from, packets, id, order, now, at);
    ConnectedCalls(l, from, packets, id, order, now, at);
    hide Connected, CanConnect, Evicted, Traced, NewConn, Arm;
    if from == a {
      TracedBorn(l, m, left, a, packets, id, now);
    } else {
      TracedFewer(l, touched, m, left, l.timeout, x, a);
    }
  }

  // A new sender while ACCEPT requests wait.
  lemma AnsweredTraced(l: Listener, touched: set<Addr>, n: Listener, left: set<Addr>, from: Addr, packet: Packet, id: Id,
                       order: seq<Addr>, now: int, at: int, x: Option<Life>, a: Addr)
    requires n.conns == l.conns && n.calls == l.calls && n.timeout == l.timeout && Traced(l, touched, l.timeout, x, a)
    requires n.acceptQ != [] && CanConnect(n, from, order)
    requires forall b :: b in Answered(n, from, packet, id, order, now, at).conns ==>
               (b in left <==> b in touched && b != from)
    ensures var m := Answered(n, from, packet, id, order, now, at);
            && m.backlogQ == n.backlogQ
            && Traced(m, left, l.timeout, if from == a then Made(id, l.timeout, [packet], now) else x, a)
  {
    var q, m := n.(acceptQ := n.acceptQ[1..]), Answered(n, from, packet, id, order, now, at);
    TracedFewer(l, touched, q, touched, l.timeout, x, a);
    hide *;
    AnsweredShape(n, from, packet, id, order, now, at);
    AnsweredBacklog(n, from, packet, id, order, now, at);
    var k := Connected(q, from, [packet], id, order, now, at);
    ArmKeeps(k.(answers := n.answers + [Answer(n.acceptQ[0], from, id)]), at);
    JoinedTraced(q, touched, m, left, from, [packet], id, order, now, at, x, a);
  }

  // A sender that has to wait.
  lemma BackloggedTraced(l: Listener, touched: set<Addr>, n: Listener, left: set<Addr>, from: Addr, packet: Packet,
                         now: int, at: int, h: Heard, x: Option<Life>, a: Addr)
    requires n == l.(received := n.received) && Traced(l, touched, l.timeout, x, a)
    requires BacklogOk(l) && Held(l.backlogQ, l.timeout, h, a)
    requires forall b :: b in l.conns ==> (b in left <==> b in touched)
    ensures var m := Backlogged(n, from, packet, now, at);
            && Traced(m, left, l.timeout, x, a)
            && Held(m.backlogQ, l.timeout,
                    if from == a then Heard((if Keeps(l, a) then h.packets else []) + [packet], now) else h, a)
  {
    var m := Backlogged(n, from, packet, now, at);
    hide *;
    BackloggedFields(n, from, packet, now, at);
    BackloggedCalls(n, from, packet, now, at);
    SameTraced(l, touched, m, left, l.timeout, x, a);
    if from == a {
      HeldAgain(l, packet, now, h, a);
    } else {
      HeldOther(l, from, packet, now, h, a);
    }
  }

  lemma SameTraced(l: Listener, touched: set<Addr>, m: Listener, left: set<Addr>, timeout: nat, x: Option<Life>, a: Addr)
    requires Traced(l, touched, timeout, x, a) && m.conns == l.conns && m.calls == l.calls
    requires forall b :: b in l.conns ==> (b in left <==> b in touched)
    ensures Traced(m, left, timeout, x, a)
  {
    hide Traced;
    TracedFewer(l, touched, m, left, timeout, x, a);
  }

  lemma ReceiveHeard(r: Run, from: Addr, packet: Packet, id: Id, order: seq<Addr>, now: int, at: int, h: Heard,
                     timeout: nat, x: Option<Life>, a: Addr)
    requires Enabled(r, Receive(from, packet, id, order, now, at))
    ensures var e := Receive(from, packet, id, order, now, at);
            && (from in r.l.conns ==>
                  && HeardAfter(r, e, h, a) == h
                  && LifeAfter(timeout, r, e, h, x, a) == if from == a then More(x, Connection.Arrive(packet, now)) else x)
            && (from !in r.l.conns && r.l.acceptQ != [] ==>
                  && HeardAfter(r, e, h, a) == h
                  && LifeAfter(timeout, r, e, h, x, a) == if from == a then Made(id, timeout, [packet], now) else x)
            && (from !in r.l.conns && r.l.acceptQ == [] ==>
                  && HeardAfter(r, e, h, a)
                     == (if from == a then Heard((if Keeps(r.l, a) then h.packets else []) + [packet], now) else h)
                  && LifeAfter(timeout, r, e, h, x, a) == x)
  {
    hide Enabled, Keeps;
  }

  ghost predicate Agree(l: Listener, touched: set<Addr>, timeout: nat, h: Heard, x: Option<Life>, a: Addr) {
    l.timeout == timeout && Held(l.backlogQ, timeout, h, a) && Traced(l, touched, timeout, x, a)
  }

  lemma AgreeParts(l: Listener, touched: set<Addr>, timeout: nat, h: Heard, x: Option<Life>, a: Addr)
    requires Agree(l, touched, timeout, h, x, a)
    ensures l.timeout == timeout && Held(l.backlogQ, timeout, h, a) && Traced(l, touched, timeout, x, a)
  {
  }

  lemma AgreeIntro(l: Listener, touched: set<Addr>, timeout: nat, h: Heard, x: Option<Life>, a: Addr)
    requires l.timeout == timeout && Held(l.backlogQ, timeout, h, a) && Traced(l, touched, timeout, x, a)
    ensures Agree(l, touched, timeout, h, x, a)
  {
  }

  lemma TouchedThere(l: Listener, touched: set<Addr>)
    requires TouchedTimed(l, touched)
    ensures touched <= l.conns.Keys
  {
  }

  // What becomes of the set of touched connections when a sender is new.
  lemma LeftTouched(l: Listener, touched: set<Addr>, m: Listener, from: Addr)
    requires touched <= l.conns.Keys && from !in l.conns
    ensures forall b :: b in m.conns ==> (b in (touched - {from}) * m.conns.Keys <==> b in touched && b != from)
    ensures forall b :: b in m.conns ==> (b in touched * (m.conns.Keys * l.conns.Keys) <==> b in touched && b != from)
    ensures m.conns == l.conns ==> forall b :: b in l.conns ==> (b in (touched - {from}) * m.conns.Keys <==> b in touched)
  {
  }

  lemma ReceiveTraced(r: Run, from: Addr, packet: Packet, id: Id, order: seq<Addr>, now: int, at: int,
                      timeout: nat, h: Heard, x: Option<Life>, a: Addr)
    requires Good(r) && BacklogOk(r.l) && Enabled(r, Receive(from, packet, id, order, now, at))
    requires Agree(r.l, r.touched, timeout, h, x, a)
    ensures var e := Receive(from, packet, id, order, now, at);
            var n := Next(r, e);
            Agree(n.l, n.touched, timeout, HeardAfter(r, e, h, a), LifeAfter(timeout, r, e, h, x, a), a)
  {
    var e, l := Receive(from, packet, id, order, now, at), r.l;
    var n, m := Receipt(l, from, packet), Next(r, e).l;
    hide *;
    AgreeParts(l, r.touched, timeout, h, x, a);
    GoodParts(r);
    TouchedThere(l, r.touched);
    NextReceive(r, from, packet, id, order, now, at);
    BranchShapes(l, from, packet, id, order, now, at);
    ReceiptShape(l, from, packet);
    ReceiveHeard(r, from, packet, id, order, now, at, h, timeout, x, a);
    if from in l.conns {
      SendIsArrive(l.conns[from], packet, now, r.clock);
      CalledTraced(l, r.clock, r.touched, n, from, Connection.Arrive(packet, now), at, timeout, h, x, a);
      SettleTimeout(n, from, Connection.Send(l.conns[from], packet, now), at);
    } else if l.acceptQ != [] {
      OneQueue(l);
      LeftTouched(l, r.touched, m, from);
      AnsweredTraced(l, r.touched, n, (r.touched - {from}) * m.conns.Keys, from, packet, id, order, now, at, x, a);
      NothingHeld(m, timeout, h, a);
    } else {
      BackloggedFields(n, from, packet, now, at);
      LeftTouched(l, r.touched, m, from);
      BackloggedTraced(l, r.touched, n, (r.touched - {from}) * m.conns.Keys, from, packet, now, at, h, x, a);
    }
    ReceivedTimeout(l, from, packet, id, order, now, at);
    AgreeIntro(m, Next(r, e).touched, timeout, HeardAfter(r, e, h, a), LifeAfter(timeout, r, e, h, x, a), a);
  }

  lemma SendIsArrive(c: Connection.Conn, packet: Packet, now: int, clock: int)
    ensures Connection.Send(c, packet, now) == Connection.Apply(c, Connection.Arrive(packet, now))
    ensures Connection.Moment(Connection.Arrive(packet, now), clock) == now
  {
  }

  lemma NothingHeld(m: Listener, timeout: nat, h: Heard, a: Addr)
    requires m.backlogQ == []
    ensures Held(m.backlogQ, timeout, h, a)
  {
  }

  lemma SettleTimeout(l: Listener, a: Addr, o: Connection.Outcome, at: int)
    ensures Settle(l, a, o, at).timeout == l.timeout
  {
    hide Schedule, Add, Payload, Queued;
  }

  lemma ReceivedTimeout(l: Listener, from: Addr, packet: Packet, id: Id, order: seq<Addr>, now: int, at: int)
    requires from !in l.conns && l.acceptQ != [] ==> CanConnect(l, from, order)
    ensures Received(l, from, packet, id, order, now, at).timeout == l.timeout
  {
    hide *;
    BranchShapes(l, from, packet, id, order, now, at);
    ReceiptShape(l, from, packet);
    var n := Receipt(l, from, packet);
    if from in l.conns {
      SettleTimeout(n, from, Connection.Send(l.conns[from], packet, now), at);
    } else if l.acceptQ != [] {
      AnsweredShape(n, from, packet, id, order, now, at);
      var q := n.(acceptQ := n.acceptQ[1..]);
      var k := Connected(q, from, [packet], id, order, now, at);
      ConnectedFields(q, from, [packet], id, order, now, at);
      PoppedTimeout(q, k, 0);
      ArmKeeps(k.(answers := n.answers + [Answer(n.acceptQ[0], from, id)]), at);
    } else {
      BackloggedFields(n, from, packet, now, at);
    }
  }

  lemma AcceptHeard(r: Run, req: Req, id: Id, order: seq<Addr>, now: int, at: int, h: Heard, timeout: nat,
                    x: Option<Life>, a: Addr)
    requires Enabled(r, Accept(req, id, order, now, at))
    ensures var e := Accept(req, id, order, now, at);
            && HeardAfter(r, e, h, a) == h
            && LifeAfter(timeout, r, e, h, x, a)
               == if r.l.backlogQ != [] && r.l.backlogQ[0].addr == a then Made(id, timeout, h.packets, now) else x
  {
    hide Enabled;
  }

  lemma HeadHeld(q: seq<Pending>, timeout: nat, h: Heard, a: Addr)
    requires Held(q, timeout, h, a) && q != []
    ensures q[0].addr == a ==> q[0].packets == h.packets
    ensures Held(q[1..], timeout, h, a)
  {
  }

  lemma AcceptTraced(r: Run, req: Req, id: Id, order: seq<Addr>, now: int, at: int, timeout: nat, h: Heard,
                     x: Option<Life>, a: Addr)
    requires Good(r) && BacklogOk(r.l) && Enabled(r, Accept(req, id, order, now, at))
    requires Agree(r.l, r.touched, timeout, h, x, a)
    ensures var e := Accept(req, id, order, now, at);
            var n := Next(r, e);
            Agree(n.l, n.touched, timeout, HeardAfter(r, e, h, a), LifeAfter(timeout, r, e, h, x, a), a)
  {
    var e, l := Accept(req, id, order, now, at), r.l;
    var m, left := Next(r, e).l, Next(r, e).touched;
    hide *;
    AgreeParts(l, r.touched, timeout, h, x, a);
    GoodParts(r);
    TouchedThere(l, r.touched);
    NextAccept(r, req, id, order, now, at);
    AcceptingShape(l, req, id, order, now, at);
    AcceptHeard(r, req, id, order, now, at, h, timeout, x, a);
    if l.backlogQ == [] {
      assert r.touched * (l.conns.Keys * l.conns.Keys) == r.touched;
      TracedFewer(l, r.touched, m, r.touched, timeout, x, a);
    } else {
      var n, pc := l.(backlogQ := l.backlogQ[1..]), l.backlogQ[0];
      HeadHeld(l.backlogQ, timeout, h, a);
      TracedFewer(l, r.touched, n, r.touched, timeout, x, a);
      ConnectedFields(n, pc.addr, pc.packets, id, order, now, at);
      PoppedTimeout(n, Connected(n, pc.addr, pc.packets, id, order, now, at), 0);
      LeftTouched(l, r.touched, m, pc.addr);
      JoinedTraced(n, r.touched, m, left, pc.addr, pc.packets, id, order, now, at, x, a);
    }
    AgreeIntro(m, left, timeout, HeardAfter(r, e, h, a), LifeAfter(timeout, r, e, h, x, a), a);
  }

  lemma CallbackTraced(r: Run, b: Addr, ce: Connection.Event, at: int, timeout: nat, h: Heard, x: Option<Life>, a: Addr)
    requires Good(r) && BacklogOk(r.l) && Enabled(r, Callback(b, ce, at))
    requires Agree(r.l, r.touched, timeout, h, x, a)
    ensures var e, n := Callback(b, ce, at), Next(r, Callback(b, ce, at));
            Agree(n.l, n.touched, timeout, HeardAfter(r, e, h, a), LifeAfter(timeout, r, e, h, x, a), a)
  {
    var e := Callback(b, ce, at);
    assert HeardAfter(r, e, h, a) == h && LifeAfter(timeout, r, e, h, x, a) == if b == a then More(x, ce) else x;
    hide *;
    AgreeParts(r.l, r.touched, timeout, h, x, a);
    GoodParts(r);
    NextCallback(r, b, ce, at);
    CalledTraced(r.l, r.clock, r.touched, r.l, b, ce, at, timeout, h, x, a);
    SettleTimeout(r.l, b, Connection.Apply(r.l.conns[b], ce), at);
    AgreeIntro(Next(r, e).l, Next(r, e).touched, timeout, h, if b == a then More(x, ce) else x, a);
  }

  // Nothing is made and nothing is heard: connections and senders can only go.
  lemma FewerAgree(l: Listener, touched: set<Addr>, m: Listener, left: set<Addr>, timeout: nat, h: Heard,
                   x: Option<Life>, a: Addr)
    requires Agree(l, touched, timeout, h, x, a) && m.timeout == l.timeout && m.calls == l.calls
    requires forall b :: b in m.conns ==> b in l.conns && m.conns[b] == l.conns[b]
    requires |m.backlogQ| <= |l.backlogQ| && m.backlogQ == l.backlogQ[|l.backlogQ| - |m.backlogQ|..]
    requires forall b :: b in m.conns ==> (b in left <==> b in touched)
    ensures Agree(m, left, timeout, h, x, a)
  {
    hide Traced;
    HeldFewer(l.backlogQ, m.backlogQ, timeout, h, a);
    TracedFewer(l, touched, m, left, timeout, x, a);
  }

  lemma CheckKeeps(l: Listener, t1: int, t2: int, t3: int)
    ensures var m := Checked(l, t1, t2, t3);
            && m.timeout == l.timeout && m.calls == l.calls && m.conns == Unexpired(l.conns, t2)
            && m.backlogQ == PopExpired(l.backlogQ, t1)
  {
    CheckShape(l, t1, t2, t3);
    ArmKeeps(Swept(l, t1, t2), t3);
    hide Checked, Arm, DropConns, DropPending, PopExpired, Unexpired;
  }

  lemma NothingNew(r: Run, e: Event, timeout: nat, h: Heard, x: Option<Life>, a: Addr)
    requires !e.Receive? && !e.Accept? && !e.Callback?
    ensures HeardAfter(r, e, h, a) == h && LifeAfter(timeout, r, e, h, x, a) == x
  {
    hide Enabled;
  }

  lemma NextCheck(r: Run, t1: int, t2: int, t3: int)
    requires BacklogOk(r.l) && Enabled(r, Check(t1, t2, t3))
    ensures var m, n := Checked(r.l, t1, t2, t3), Next(r, Check(t1, t2, t3));
            n.l == m && n.touched == r.touched * m.conns.Keys
  {
    hide Checked, BacklogOk;
  }

  lemma NextDispose(r: Run)
    requires BacklogOk(r.l) && Enabled(r, Dispose)
    ensures var n := Next(r, Dispose); n.l == Disposed(r.l) && n.touched == {}
  {
    hide Disposed, BacklogOk;
  }

  lemma NextGone(r: Run, b: Addr)
    requires BacklogOk(r.l) && Enabled(r, Gone(b))
    ensures var n := Next(r, Gone(b));
            && n.l.timeout == r.l.timeout && n.l.calls == r.l.calls && n.l.conns == r.l.conns - {b}
            && n.l.backlogQ == r.l.backlogQ && n.touched == r.touched - {b}
  {
    hide BacklogOk, Queued, Add;
  }

  lemma CheckTraced(r: Run, t1: int, t2: int, t3: int, timeout: nat, h: Heard, x: Option<Life>, a: Addr)
    requires BacklogOk(r.l) && Enabled(r, Check(t1, t2, t3)) && Agree(r.l, r.touched, timeout, h, x, a)
    ensures var n := Next(r, Check(t1, t2, t3)); Agree(n.l, n.touched, timeout, h, x, a)
  {
    hide *;
    var m := Next(r, Check(t1, t2, t3)).l;
    NextCheck(r, t1, t2, t3);
    CheckKeeps(r.l, t1, t2, t3);
    UnexpiredPart(r.l.conns, t2);
    FewerAgree(r.l, r.touched, m, r.touched * m.conns.Keys, timeout, h, x, a);
  }

  lemma GoneTraced(r: Run, b: Addr, timeout: nat, h: Heard, x: Option<Life>, a: Addr)
    requires BacklogOk(r.l) && Enabled(r, Gone(b)) && Agree(r.l, r.touched, timeout, h, x, a)
    ensures var n := Next(r, Gone(b)); Agree(n.l, n.touched, timeout, h, x, a)
  {
    hide *;
    NextGone(r, b);
    assert r.l.backlogQ[0..] == r.l.backlogQ;
    FewerAgree(r.l, r.touched, Next(r, Gone(b)).l, r.touched - {b}, timeout, h, x, a);
  }

  lemma CancelTraced(r: Run, req: Req, timeout: nat, h: Heard, x: Option<Life>, a: Addr)
    requires BacklogOk(r.l) && Enabled(r, Cancel(req)) && Agree(r.l, r.touched, timeout, h, x, a)
    ensures var n := Next(r, Cancel(req)); Agree(n.l, n.touched, timeout, h, x, a)
  {
    hide *;
    NextCancel(r, req);
    CancelShape(r.l, req);
    assert r.l.backlogQ[0..] == r.l.backlogQ;
    FewerAgree(r.l, r.touched, Cancelled(r.l, req), r.touched, timeout, h, x, a);
  }

  lemma DisposeTraced(r: Run, timeout: nat, h: Heard, x: Option<Life>, a: Addr)
    requires BacklogOk(r.l) && Enabled(r, Dispose) && Agree(r.l, r.touched, timeout, h, x, a)
    ensures var n := Next(r, Dispose); Agree(n.l, n.touched, timeout, h, x, a)
  {
    hide *;
    NextDispose(r);
    DisposeShape(r.l);
    FewerAgree(r.l, r.touched, Disposed(r.l), {}, timeout, h, x, a);
  }

  lemma OtherTraced(r: Run, e: Event, timeout: nat, h: Heard, x: Option<Life>, a: Addr)
    requires BacklogOk(r.l) && Enabled(r, e) && !e.Receive? && !e.Accept? && !e.Callback?
    requires Agree(r.l, r.touched, timeout, h, x, a)
    ensures Agree(Next(r, e).l, Next(r, e).touched, timeout, HeardAfter(r, e, h, a), LifeAfter(timeout, r, e, h, x, a), a)
  {
    hide *;
    NothingNew(r, e, timeout, h, x, a);
    match e
    case Check(t1, t2, t3) => CheckTraced(r, t1, t2, t3, timeout, h, x, a);
    case Gone(b) => GoneTraced(r, b, timeout, h, x, a);
    case Cancel(req) => CancelTraced(r, req, timeout, h, x, a);
    case Dispose => DisposeTraced(r, timeout, h, x, a);
  }

  lemma UnexpiredPart(conns: Conns, now: int)
    ensures forall b :: b in Unexpired(conns, now) ==> b in conns && Unexpired(conns, now)[b] == conns[b]
  {
  }

  lemma StepTraced(r: Run, e: Event, timeout: nat, h: Heard, x: Option<Life>, a: Addr)
    requires Good(r) && BacklogOk(r.l) && Agree(r.l, r.touched, timeout, h, x, a)
    ensures Agree(Next(r, e).l, Next(r, e).touched, timeout, HeardAfter(r, e, h, a), LifeAfter(timeout, r, e, h, x, a), a)
  {
    if Enabled(r, e) {
      hide Good, BacklogOk, Agree, Next, HeardAfter, LifeAfter, Enabled;
      match e
      case Receive(from, packet, id, order, now, at) =>
        ReceiveTraced(r, from, packet, id, order, now, at, timeout, h, x, a);
      case Accept(req, id, order, now, at) => AcceptTraced(r, req, id, order, now, at, timeout, h, x, a);
      case Callback(b, ce, at) => CallbackTraced(r, b, ce, at, timeout, h, x, a);
      case _ => OtherTraced(r, e, timeout, h, x, a);
    } else {
      hide Good, BacklogOk, Agree, Enabled;
    }
  }

  lemma {:induction false} RunTraced(timeout: nat, limit: nat, backlog: nat, start: int, events: seq<Event>, a: Addr)
    requires start > 0 && limit > 0 && backlog > 0
    ensures var r := Runs(timeout, limit, backlog, start, events);
            Agree(r.l, r.touched, timeout, HeardFrom(timeout, limit, backlog, start, events, a),
                  LifeOf(timeout, limit, backlog, start, events, a), a)
  {
    if events != [] {
      var r := Runs(timeout, limit, backlog, start, Front(events));
      RunTraced(timeout, limit, backlog, start, Front(events), a);
      RunsAreGood(timeout, limit, backlog, start, Front(events));
      GoodParts(r);
      hide Agree, Next, HeardAfter, LifeAfter, Good, BacklogOk;
      StepTraced(r, Last(events), timeout, HeardFrom(timeout, limit, backlog, start, Front(events), a),
                 LifeOf(timeout, limit, backlog, start, Front(events), a), a);
    }
  }

  // ---------- The results ----------

  /** Over every run: what waits for a sender is what has been received from it since its
      pending entry was opened, in order, and it waits until a timeout after the last of it. */
  lemma SendersWaitInOrder(timeout: nat, limit: nat, backlog: nat, start: int, events: seq<Event>, k: nat)
    requires start > 0 && limit > 0 && backlog > 0
    requires k < |Runs(timeout, limit, backlog, start, events).l.backlogQ|
    ensures var x := Runs(timeout, limit, backlog, start, events).l.backlogQ[k];
            var h := HeardFrom(timeout, limit, backlog, start, events, x.addr);
            x.packets == h.packets && x.expiry == h.at + timeout
  {
    var x := Runs(timeout, limit, backlog, start, events).l.backlogQ[k];
    RunTraced(timeout, limit, backlog, start, events, x.addr);
    hide Runs, HeardFrom, LifeOf, Traced;
  }

  /** Over every run, for every connection: it was made with what had been received from its
      sender since the pending entry was opened, in order of receipt, or with the one datagram
      that found an ACCEPT waiting; it has submitted, in the exact order, DATA for that and
      for what has been received since, and queues the rest; and it expires a timeout after it
      was made or active last. */
  lemma SendersKeepOrder(timeout: nat, limit: nat, backlog: nat, start: int, events: seq<Event>, a: Addr)
    requires start > 0 && limit > 0 && backlog > 0
    requires a in Runs(timeout, limit, backlog, start, events).l.conns
    ensures LifeOf(timeout, limit, backlog, start, events, a).Some?
    ensures var x := LifeOf(timeout, limit, backlog, start, events, a).value;
            var r, l := Runs(timeout, limit, backlog, start, events), LedgerOf(x);
            var c := r.l.conns[a];
            && CallsOf(r.l.calls, a) == Connection.Expected(l, c.rid, a)
            && c.q == (if l.phase == Connection.Flushed then None else Some(l.pre))
            && !c.local && c.id == x.id && c.addr == a
            && c.expiry == LastActive(x) + timeout
            && (a in r.touched <==> WasActive(x))
  {
    var r := Runs(timeout, limit, backlog, start, events);
    hide *;
    RunTraced(timeout, limit, backlog, start, events, a);
    AgreeLeads(r.l, r.touched, timeout, HeardFrom(timeout, limit, backlog, start, events, a),
               LifeOf(timeout, limit, backlog, start, events, a), a);
    var x := LifeOf(timeout, limit, backlog, start, events, a).value;
    Lived(x, a, r.l.conns[a], CallsOf(r.l.calls, a));
    RemoteLife(x, r.l.conns[a]);
  }

  lemma AgreeLeads(l: Listener, touched: set<Addr>, timeout: nat, h: Heard, x: Option<Life>, a: Addr)
    requires Agree(l, touched, timeout, h, x, a) && a in l.conns
    ensures x.Some? && !x.value.local && x.value.timeout == timeout && (a in touched <==> WasActive(x.value))
    ensures Leads(x.value, a, l.conns[a], CallsOf(l.calls, a))
  {
    hide Leads, WasActive, Held;
  }

  lemma RemoteLife(x: Life, c: Connection.Conn)
    requires !x.local && !c.local && LedgerOf(x).phase != Connection.Failed && Connection.Agrees(c, LedgerOf(x))
    ensures var l := LedgerOf(x);
            && Opening(x) + Connection.Submitted(c, l) == Connection.Expected(l, c.rid, c.addr)
            && c.q == (if l.phase == Connection.Flushed then None else Some(l.pre))
  {
    hide LedgerOf, Connection.Expected;
    var all := Connection.Expected(LedgerOf(x), c.rid, c.addr);
    assert [] + ([] + all) == all;
  }
}

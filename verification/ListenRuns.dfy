/** Whole runs of the datagram listener: what holds after any sequence of events, and the
    exact conditions of what does not always hold. */
module ListenRuns {
  import opened Base
  import opened Pool
  import opened Listen
  import opened ListenPackets
  import opened ListenBacklog
  import opened ListenSteps
  import Connection

  function Initial(timeout: nat, limit: nat, backlog: nat): Listener {
    Listener(map[], [], [], None, timeout, limit, backlog, true, [], map[], map[], map[], map[])
  }

  // A run that is not good would stop here; RunsAreGood shows that there is none.
  ghost function Runs(timeout: nat, limit: nat, backlog: nat, start: int, events: seq<Event>): Run {
    if events == [] then Run(Initial(timeout, limit, backlog), start, [], {}, {}, true)
    else
      var r := Runs(timeout, limit, backlog, start, Front(events));
      if Good(r) then Next(r, Last(events)) else r
  }

  lemma {:induction false} RunsAreGood(timeout: nat, limit: nat, backlog: nat, start: int, events: seq<Event>)
    requires start > 0 && limit > 0 && backlog > 0
    ensures Good(Runs(timeout, limit, backlog, start, events))
  {
    if events == [] {
      InitialGood(timeout, limit, backlog, start);
    } else {
      RunsAreGood(timeout, limit, backlog, start, Front(events));
      var r := Runs(timeout, limit, backlog, start, Front(events));
      GoodParts(r);
      hide Good, Next, BacklogOk;
      StepGood(r, Last(events));
    }
  }

  lemma InitialGood(timeout: nat, limit: nat, backlog: nat, start: int)
    requires start > 0 && limit > 0 && backlog > 0
    ensures Good(Run(Initial(timeout, limit, backlog), start, [], {}, {}, true))
  {
    var l := Initial(timeout, limit, backlog);
    NothingLeft(l, start);
    hide BacklogOk, OwnConns, Timely;
    assert Reqs([]) == [];
  }

  // ---------- The results ----------

  /** ACCEPT requests and senders never wait for each other; every waiting sender has
      one entry and no connection; the backlog is sorted and bounded. */
  lemma QueuesKept(timeout: nat, limit: nat, backlog: nat, start: int, events: seq<Event>)
    requires start > 0 && limit > 0 && backlog > 0
    ensures var l := Runs(timeout, limit, backlog, start, events).l;
            && (l.acceptQ == [] || l.backlogQ == [])
            && |l.backlogQ| <= l.backlog
            && (forall j, k :: 0 <= j < k < |l.backlogQ| ==>
                  l.backlogQ[j].expiry <= l.backlogQ[k].expiry && l.backlogQ[j].addr != l.backlogQ[k].addr)
            && (forall k :: 0 <= k < |l.backlogQ| ==> l.backlogQ[k].addr !in l.conns)
            && (forall a :: a in l.conns ==> l.conns[a].addr == a)
  {
    RunsAreGood(timeout, limit, backlog, start, events);
    var r := Runs(timeout, limit, backlog, start, events);
    GoodParts(r);
    hide Good, Timely, Conserved, Runs;
    assert forall a :: a in r.l.conns ==> OwnConn(r.l, a);
  }

  /** Every datagram received is in exactly one place, however often it was received,
      and every connection either queues or forwards. */
  lemma PacketsConserved(timeout: nat, limit: nat, backlog: nat, start: int, events: seq<Event>, a: Addr, p: Packet)
    requires start > 0 && limit > 0 && backlog > 0
    ensures var l := Runs(timeout, limit, backlog, start, events).l;
            && Entry(l.received, a)[p] == Entry(l.issued, a)[p] + Entry(l.discarded, a)[p]
                                          + Queued(l.conns, a)[p] + PendingOf(l.backlogQ, a)[p]
            && (a in l.conns ==> Connection.Live(l.conns[a]))
  {
    RunsAreGood(timeout, limit, backlog, start, events);
    var r := Runs(timeout, limit, backlog, start, events);
    GoodParts(r);
    hide Good, Timely, Conserved, Runs;
    ConservedAt(r.l, a, p);
  }

  /** ACCEPT requests are completed in the order in which they were submitted, save
      for those cancelled while they were waiting. */
  lemma AcceptsInOrder(timeout: nat, limit: nat, backlog: nat, start: int, events: seq<Event>)
    requires start > 0 && limit > 0 && backlog > 0
    ensures var r := Runs(timeout, limit, backlog, start, events);
            && Reqs(r.l.answers) + r.l.acceptQ == Kept(r.submitted, r.cancelled)
            && NoRepeats(Reqs(r.l.answers) + r.l.acceptQ)
  {
    RunsAreGood(timeout, limit, backlog, start, events);
    var r := Runs(timeout, limit, backlog, start, events);
    GoodParts(r);
    hide Good, Runs;
    KeptDistinct(r.submitted, r.cancelled);
  }

  /** A connection that has been touched since it was inserted has the timer armed, and
      the alarm outlasts neither a connection nor a waiting sender. */
  lemma TimerNeverLost(timeout: nat, limit: nat, backlog: nat, start: int, events: seq<Event>, a: Addr)
    requires start > 0 && limit > 0 && backlog > 0
    ensures var r := Runs(timeout, limit, backlog, start, events);
            && (a in r.touched ==> a in r.l.conns && r.l.timer.Some?)
            && (r.l.timer.Some? && a in r.l.conns ==>
                  r.l.timer.value.due <= Max(r.l.timer.value.at, r.l.conns[a].expiry))
            && (r.l.timer.Some? ==> forall k :: 0 <= k < |r.l.backlogQ| ==>
                  r.l.timer.value.due <= Max(r.l.timer.value.at, r.l.backlogQ[k].expiry))
  {
    RunsAreGood(timeout, limit, backlog, start, events);
    var r := Runs(timeout, limit, backlog, start, events);
    GoodParts(r);
    hide Good, Runs;
  }

  /** Under a clock that advances between datagrams and ACCEPT requests, the listener
      never has more connections than its limit. */
  lemma LimitKept(timeout: nat, limit: nat, backlog: nat, start: int, events: seq<Event>)
    requires start > 0 && limit > 0 && backlog > 0
    ensures var r := Runs(timeout, limit, backlog, start, events);
            r.strict ==> |r.l.conns| <= limit
  {
    RunsAreGood(timeout, limit, backlog, start, events);
    var r := Runs(timeout, limit, backlog, start, events);
    GoodParts(r);
    LimitFixed(timeout, limit, backlog, start, events);
    hide Good, Runs;
  }

  lemma {:induction false} LimitFixed(timeout: nat, limit: nat, backlog: nat, start: int, events: seq<Event>)
    ensures Runs(timeout, limit, backlog, start, events).l.limit == limit
  {
    if events != [] {
      LimitFixed(timeout, limit, backlog, start, Front(events));
      var r := Runs(timeout, limit, backlog, start, Front(events));
      if Good(r) {
        GoodParts(r);
        hide Good, BacklogOk;
        LimitUntouched(r, Last(events));
      }
    }
  }

  lemma SettleLimit(l: Listener, a: Addr, o: Connection.Outcome, at: int)
    ensures Settle(l, a, o, at).limit == l.limit
  {
    hide Schedule, Add, Payload, Queued;
  }

  lemma ReceivedLimit(l: Listener, from: Addr, packet: Packet, id: Id, order: seq<Addr>, now: int, at: int)
    requires from !in l.conns && l.acceptQ != [] ==> CanConnect(l, from, order)
    ensures Received(l, from, packet, id, order, now, at).limit == l.limit
  {
    hide *;
    BranchShapes(l, from, packet, id, order, now, at);
    ReceiptShape(l, from, packet);
    var n := Receipt(l, from, packet);
    if from in l.conns {
      SettleLimit(n, from, Connection.Send(l.conns[from], packet, now), at);
    } else if l.acceptQ != [] {
      AnsweredShape(n, from, packet, id, order, now, at);
      var q := n.(acceptQ := n.acceptQ[1..]);
      ConnectedFields(q, from, [packet], id, order, now, at);
      var k := Connected(q, from, [packet], id, order, now, at);
      PoppedTimeout(q, k, 0);
      ArmFields(k.(answers := n.answers + [Answer(n.acceptQ[0], from, id)]), at);
    } else {
      BackloggedFields(n, from, packet, now, at);
    }
  }

  lemma AcceptingLimit(l: Listener, req: Req, id: Id, order: seq<Addr>, now: int, at: int)
    requires l.backlogQ != [] ==> CanConnect(l, l.backlogQ[0].addr, order)
    ensures Accepting(l, req, id, order, now, at).limit == l.limit
  {
    hide *;
    AcceptingShape(l, req, id, order, now, at);
    if l.backlogQ != [] {
      var n, pc := l.(backlogQ := l.backlogQ[1..]), l.backlogQ[0];
      ConnectedFields(n, pc.addr, pc.packets, id, order, now, at);
      PoppedTimeout(n, Connected(n, pc.addr, pc.packets, id, order, now, at), 0);
    }
  }

  lemma LimitUntouched(r: Run, e: Event)
    requires BacklogOk(r.l)
    ensures Next(r, e).l.limit == r.l.limit
  {
    if Enabled(r, e) {
      match e
      case Receive(from, packet, id, order, now, at) =>
        hide *;
        NextReceive(r, from, packet, id, order, now, at);
        ReceivedLimit(r.l, from, packet, id, order, now, at);
      case Accept(req, id, order, now, at) =>
        hide *;
        NextAccept(r, req, id, order, now, at);
        AcceptingLimit(r.l, req, id, order, now, at);
      case Callback(a, ce, at) =>
        hide *;
        NextCallback(r, a, ce, at);
        SettleLimit(r.l, a, Connection.Apply(r.l.conns[a], ce), at);
      case Check(t1, t2, t3) =>
        CheckShape(r.l, t1, t2, t3);
        ArmFields(Swept(r.l, t1, t2), t3);
        hide Checked, Arm;
      case _ =>
    }
  }

  /** In one call: the limit is kept if and only if there was room, or some connection
      comes before the newcomer in expiry or, on a tie, in iteration order. */
  lemma LimitExactly(l: Listener, from: Addr, packets: seq<Packet>, id: Id, order: seq<Addr>, now: int, at: int)
    requires CanConnect(l, from, order) && |l.conns| <= l.limit
    requires Enumerates(order, l.conns[from := NewConn(l, from, packets, id, now)])
    ensures |Connected(l, from, packets, id, order, now, at).conns| <= l.limit
            <==> |l.conns| < l.limit
                 || !FirstMinimum(order, l.conns[from := NewConn(l, from, packets, id, now)], from)
  {
    var all := l.conns[from := NewConn(l, from, packets, id, now)];
    ConnectedFields(l, from, packets, id, order, now, at);
    SizeInsert(l.conns, from, all[from]);
    NonEmptyOrder(order, all);
    hide Connected, NewConn, FirstMinimum;
    SizeRemove(all, Oldest(order, all));
    if FirstMinimum(order, all, from) {
      FirstMinimumIsUnique(order, all, from, Oldest(order, all));
    }
  }

  /** An eviction removes exactly one connection, active no later than any other. */
  lemma EvictsOldest(l: Listener, from: Addr, packets: seq<Packet>, id: Id, order: seq<Addr>, now: int, at: int)
    requires CanConnect(l, from, order) && |l.conns| == l.limit
    requires exists b :: b in l.conns && l.conns[b].expiry < now + l.timeout
    ensures exists victim :: victim in l.conns
              && (forall b :: b in l.conns ==> l.conns[victim].expiry <= l.conns[b].expiry)
              && Connected(l, from, packets, id, order, now, at).conns.Keys == l.conns.Keys - {victim} + {from}
  {
    var c := NewConn(l, from, packets, id, now);
    ConnectedFields(l, from, packets, id, order, now, at);
    hide Connected, NewConn, CanConnect;
    OldestGoes(l.conns, l.limit, from, c, order, now + l.timeout);
  }

  lemma OldestGoes(conns: Conns, limit: nat, from: Addr, c: Connection.Conn, order: seq<Addr>, expiry: int)
    requires from !in conns && |conns| == limit && c.expiry == expiry && Enumerates(order, conns[from := c])
    requires exists b :: b in conns && conns[b].expiry < expiry
    ensures exists victim :: victim in conns
              && (forall b :: b in conns ==> conns[victim].expiry <= conns[b].expiry)
              && Evicted(conns[from := c], limit, from, order).Keys == conns.Keys - {victim} + {from}
  {
    var all := conns[from := c];
    SizeInsert(conns, from, c);
    NonEmptyOrder(order, all);
    var victim := Oldest(order, all);
    OldestIsOther(conns, all, from, victim, expiry);
    EvictedIs(all, limit, from, order);
    hide *;
    VictimKeys(conns, from, c, victim);
  }

  lemma EvictedIs(all: Conns, limit: nat, from: Addr, order: seq<Addr>)
    requires Enumerates(order, all) && |all| > limit && order != [] && Oldest(order, all) != from
    ensures Evicted(all, limit, from, order) == all - {Oldest(order, all)}
  {
    hide Enumerates, Oldest;
  }

  lemma OldestIsOther(conns: Conns, all: Conns, from: Addr, victim: Addr, expiry: int)
    requires from !in conns && from in all && all == conns[from := all[from]] && all[from].expiry == expiry
    requires victim in all
    requires forall b :: b in all ==> all[victim].expiry <= all[b].expiry
    requires exists b :: b in conns && conns[b].expiry < expiry
    ensures victim in conns && forall b :: b in conns ==> conns[victim].expiry <= conns[b].expiry
  {
    var b :| b in conns && conns[b].expiry < expiry;
    assert b in all;
    forall d | d in conns
      ensures all[victim].expiry <= conns[d].expiry
    {
      assert d in all;
    }
  }

  lemma VictimKeys(conns: Conns, from: Addr, c: Connection.Conn, victim: Addr)
    requires from !in conns && victim in conns
    ensures (conns[from := c] - {victim}).Keys == conns.Keys - {victim} + {from}
  {
  }

  lemma OneStep(timeout: nat, limit: nat, backlog: nat, start: int, events: seq<Event>, e: Event)
    requires start > 0 && limit > 0 && backlog > 0
    ensures BacklogOk(Runs(timeout, limit, backlog, start, events).l)
    ensures Runs(timeout, limit, backlog, start, events + [e]) == Next(Runs(timeout, limit, backlog, start, events), e)
  {
    RunsAreGood(timeout, limit, backlog, start, events);
    GoodParts(Runs(timeout, limit, backlog, start, events));
    assert Front(events + [e]) == events;
    hide Good, Next, BacklogOk;
  }

  lemma AcceptWaits(r: Run, req: Req, now: int)
    requires BacklogOk(r.l) && r.l.live && r.l.backlogQ == [] && req !in r.submitted && r.clock <= now
    ensures Next(r, Accept(req, 0, [], now, now))
            == r.(l := r.l.(acceptQ := r.l.acceptQ + [req]), clock := now, strict := r.strict && r.clock < now,
                  submitted := r.submitted + [req], touched := r.touched * r.l.conns.Keys)
  {
    AcceptingShape(r.l, req, 0, [], now, now);
    NextAccept(r, req, 0, [], now, now);
    assert r.l.conns.Keys * r.l.conns.Keys == r.l.conns.Keys;
    hide Accepting, BacklogOk;
  }

  // A new sender while ACCEPT requests wait.
  lemma SenderConnected(r: Run, from: Addr, packet: Packet, id: Id, order: seq<Addr>, now: int)
    requires BacklogOk(r.l) && r.l.live && r.l.acceptQ != [] && r.clock <= now && CanConnect(r.l, from, order)
    ensures var all := r.l.conns[from := NewConn(r.l, from, [packet], id, now)];
            var n := Next(r, Receive(from, packet, id, order, now, now));
            && Enumerates(order, all) && n.l.conns == Evicted(all, r.l.limit, from, order)
            && n.l.acceptQ == r.l.acceptQ[1..] && n.l.backlogQ == r.l.backlogQ && n.l.limit == r.l.limit
            && n.l.timeout == r.l.timeout && n.l.live && n.clock == now
  {
    var l, m := r.l, Receipt(r.l, from, packet);
    var q := m.(acceptQ := m.acceptQ[1..]);
    assert Enabled(r, Receive(from, packet, id, order, now, now));
    NextReceive(r, from, packet, id, order, now, now);
    BranchShapes(l, from, packet, id, order, now, now);
    ReceiptShape(l, from, packet);
    assert NewConn(q, from, [packet], id, now) == NewConn(l, from, [packet], id, now);
    hide *;
    AnsweredShape(m, from, packet, id, order, now, now);
    ConnectedFields(q, from, [packet], id, order, now, now);
    var k := Connected(q, from, [packet], id, order, now, now);
    PoppedTimeout(q, k, 0);
    PoppedLive(q, k);
    ArmFields(k.(answers := m.answers + [Answer(m.acceptQ[0], from, id)]), now);
  }

  lemma PoppedLive(l: Listener, m: Listener)
    requires Popped(l, m, 0)
    ensures m.live == l.live && m.backlogQ == l.backlogQ
  {
  }

  /** A tie on a whole run: two ACCEPT requests wait, and two senders are heard within one
      clock reading. The second newcomer is taken for the oldest; the socket table does
      not know it yet, so nothing is evicted and the limit of one is exceeded. */
  lemma TieExceedsLimit(timeout: nat, start: int, now: int, packet: Packet, other: Packet)
    requires 0 < start <= now
    ensures var r := Runs(timeout, 1, 10, start, TieEvents(start, now, packet, other));
            r.l.limit == 1 && |r.l.conns| == 2
  {
    var e := TieEvents(start, now, packet, other);
    var r0 := Run(Initial(timeout, 1, 10), start, [], {}, {}, true);
    assert Runs(timeout, 1, 10, start, []) == r0;
    assert [] + [e[0]] == e[..1] && e[..1] + [e[1]] == e[..2] && e[..2] + [e[2]] == e[..3] && e[..3] + [e[3]] == e;
    OneStep(timeout, 1, 10, start, [], e[0]);
    OneStep(timeout, 1, 10, start, e[..1], e[1]);
    OneStep(timeout, 1, 10, start, e[..2], e[2]);
    OneStep(timeout, 1, 10, start, e[..3], e[3]);
    hide Next, Runs, BacklogOk, Enumerates, NewConn, Evicted;
    AcceptWaits(r0, 1, start);
    var r1 := Next(r0, e[0]);
    AcceptWaits(r1, 2, start);
    var r2 := Next(r1, e[1]);
    assert r2.l.acceptQ == [1, 2];
    TieFirst(r2, packet, now);
    TieSecond(Next(r2, e[2]), timeout, packet, other, now);
  }

  function TieEvents(start: int, now: int, packet: Packet, other: Packet): seq<Event> {
    [Accept(1, 0, [], start, start), Accept(2, 0, [], start, start),
     Receive(7, packet, 3, [7], now, now), Receive(8, other, 4, [8, 7], now, now)]
  }

  lemma TieFirst(r: Run, packet: Packet, now: int)
    requires BacklogOk(r.l) && r.l.live && |r.l.acceptQ| == 2 && r.clock <= now && r.l.conns == map[] && r.l.limit == 1
    ensures var n := Next(r, Receive(7, packet, 3, [7], now, now));
            && n.l.conns == map[7 := Connection.New(3, 7, false, 0, r.l.timeout, [packet], now)]
            && |n.l.acceptQ| == 1 && n.l.limit == 1 && n.l.timeout == r.l.timeout && n.l.live && n.clock == now
  {
    hide Next, BacklogOk;
    SenderConnected(r, 7, packet, 3, [7], now);
    var all := r.l.conns[7 := NewConn(r.l, 7, [packet], 3, now)];
    assert all == map[7 := NewConn(r.l, 7, [packet], 3, now)];
    assert |all| == 1;
  }

  lemma TieSecond(r: Run, timeout: nat, packet: Packet, other: Packet, now: int)
    requires BacklogOk(r.l) && r.l.live && |r.l.acceptQ| == 1 && r.clock <= now && r.l.limit == 1
    requires r.l.timeout == timeout
    requires r.l.conns == map[7 := Connection.New(3, 7, false, 0, timeout, [packet], now)]
    ensures var n := Next(r, Receive(8, other, 4, [8, 7], now, now)); n.l.limit == 1 && |n.l.conns| == 2
  {
    hide Next, BacklogOk;
    SenderConnected(r, 8, other, 4, [8, 7], now);
    var all := r.l.conns[8 := NewConn(r.l, 8, [other], 4, now)];
    assert MinimumAt([8, 7], all, 0);
    FirstMinimumIsUnique([8, 7], all, 8, Oldest([8, 7], all));
    assert all.Keys == {7, 8};
  }

  /** The check drops all and only the waiting senders whose time is up, and the head of
      the backlog is the least expiry that the timer has to take into account. */
  lemma CheckIsExact(r: Run, t1: int, t2: int, t3: int)
    requires Good(r)
    ensures Checked(r.l, t1, t2, t3).backlogQ == KeepUnexpired(r.l.backlogQ, t1)
    ensures forall k :: 0 <= k < |r.l.backlogQ| ==> HeadExpiry(r.l.backlogQ) <= r.l.backlogQ[k].expiry
  {
    GoodParts(r);
    hide Good, Schedule, DropConns, DropPending, KeepUnexpired;
    PopIsFilter(r.l.backlogQ, t1);
  }

  /** A check at one clock reading that leaves connections arms the timer for a millisecond
      later or more if and only if no sender that still waits expires before that: senders
      are dropped when their time is up, connections already a millisecond before. If one
      does, the next check is due at once. */
  lemma NextCheckExactly(r: Run, t: int)
    requires Good(r) && r.clock <= t && Unexpired(r.l.conns, t) != map[]
    ensures var m := Checked(r.l, t, t, t);
            && m.timer.Some?
            && (m.timer.value.due >= t + MILLISECOND <==>
                  forall k :: 0 <= k < |m.backlogQ| ==> m.backlogQ[k].expiry >= t + MILLISECOND)
            && (m.timer.value.due < t + MILLISECOND ==> m.timer.value.due == t)
  {
    GoodParts(r);
    assert Sorted(r.l.backlogQ) && PendingYoung(r.l.backlogQ, r.clock, r.l.timeout);
    hide *;
    CheckedTimer(r.l, t);
    NextCheckWithHead(r.l.conns, HeadExpiry(PopExpired(r.l.backlogQ, t)), t);
    HeadIsLeast(r.l.backlogQ, r.clock, r.l.timeout, t, t + MILLISECOND);
  }

  // What is left of the backlog is late enough if and only if its head is.
  lemma HeadIsLeast(all: seq<Pending>, clock: int, timeout: nat, now: int, late: int)
    requires Sorted(all) && PendingYoung(all, clock, timeout)
    ensures var q := PopExpired(all, now);
            && (HeadExpiry(q) <= 0 || HeadExpiry(q) >= late <==> forall k :: 0 <= k < |q| ==> q[k].expiry >= late)
  {
    var q := PopExpired(all, now);
    var d := |all| - |q|;
    assert q == all[d..];
    hide PopExpired;
    if q != [] {
      assert q[0] == all[d] && q[0].expiry > 0;
      forall k | 0 <= k < |q|
        ensures q[0].expiry <= q[k].expiry
      {
        assert q[k] == all[d + k];
      }
    }
  }

  lemma CheckedTimer(l: Listener, t: int)
    ensures var q := PopExpired(l.backlogQ, t);
            && Checked(l, t, t, t).backlogQ == q
            && Checked(l, t, t, t).timer == Schedule(None, Unexpired(l.conns, t), HeadExpiry(q), t)
  {
    hide Schedule, DropConns, DropPending, PopExpired, Unexpired;
  }

  /** A waiting sender does not arm the timer by itself: an idle timer stays idle if and
      only if there is no connection or the sender was waiting already. */
  lemma WaitingIsUntimed(l: Listener, from: Addr, packet: Packet, now: int, at: int)
    ensures Backlogged(l, from, packet, now, at).timer == None
            <==> l.timer == None
                 && (l.conns == map[]
                     || exists k :: 0 <= k < |Trimmed(l).backlogQ| && Trimmed(l).backlogQ[k].addr == from)
  {
    var q := Trimmed(l).backlogQ;
    hide Trimmed, Enqueued;
    assert Trimmed(l).timer == l.timer && Trimmed(l).conns == l.conns by { TrimmedFields(l); }
    var i := Find(q, from);
    assert i < |q| <==> exists k :: 0 <= k < |q| && q[k].addr == from;
  }

  lemma TrimmedFields(l: Listener)
    ensures Trimmed(l).timer == l.timer && Trimmed(l).conns == l.conns
  {
  }

  /** A full backlog makes room before it looks for the sender. A waiting sender that is
      heard again keeps what it had waiting if and only if the backlog was not full or it
      was not at its head (or had nothing waiting). */
  lemma PurgeHitsSender(l: Listener, i: nat, packet: Packet, now: int, at: int)
    requires BacklogOk(l) && i < |l.backlogQ|
    ensures var x := l.backlogQ[i];
            Pending(x.addr, now + l.timeout, x.packets + [packet])
            in Backlogged(l, x.addr, packet, now, at).backlogQ
            <==> |l.backlogQ| < l.backlog || i > 0 || x.packets == []
  {
    var x := l.backlogQ[i];
    BackloggedFields(l, x.addr, packet, now, at);
    hide Backlogged;
    if |l.backlogQ| == l.backlog && i == 0 {
      HeadStartsAnew(l, packet, now);
      assert |x.packets + [packet]| == |x.packets| + 1;
      assert x.packets == [] ==> x.packets + [packet] == [packet];
      var z := Pending(x.addr, now + l.timeout, [packet]);
      assert z in l.backlogQ[1..] + [z];
    } else {
      StillThere(l, i, packet, now);
    }
  }

  // The head of a full backlog is dropped, and its sender starts anew at the tail.
  lemma HeadStartsAnew(l: Listener, packet: Packet, now: int)
    requires BacklogOk(l) && |l.backlogQ| == l.backlog
    ensures var from := l.backlogQ[0].addr;
            Enqueued(Purged(l.backlogQ, l.backlog), from, packet, now + l.timeout)
            == l.backlogQ[1..] + [Pending(from, now + l.timeout, [packet])]
    ensures forall y :: y in l.backlogQ[1..] ==> y.addr != l.backlogQ[0].addr
  {
    assert Purged(l.backlogQ, l.backlog) == l.backlogQ[1..];
    assert forall k :: 0 <= k < |l.backlogQ[1..]| ==> l.backlogQ[1..][k].addr != l.backlogQ[0].addr;
  }

  lemma StillThere(l: Listener, i: nat, packet: Packet, now: int)
    requires BacklogOk(l) && i < |l.backlogQ| && (|l.backlogQ| < l.backlog || i > 0)
    ensures var x := l.backlogQ[i];
            Pending(x.addr, now + l.timeout, x.packets + [packet])
            in Enqueued(Purged(l.backlogQ, l.backlog), x.addr, packet, now + l.timeout)
  {
    var x, q := l.backlogQ[i], Purged(l.backlogQ, l.backlog);
    var k := i - (|l.backlogQ| - |q|);
    assert 0 <= k && q[k] == x;
    var f := Find(q, x.addr);
    assert f == k;
    var grown := q[k := Pending(x.addr, now + l.timeout, x.packets + [packet])];
    assert grown[k] in grown;
    SortElements(grown);
  }

  // A datagram of a sender that nobody knows, while nobody has asked for one.
  lemma SenderWaits(r: Run, from: Addr, packet: Packet, now: int)
    requires BacklogOk(r.l) && r.l.live && r.l.acceptQ == [] && r.l.conns == map[] && r.clock <= now
    ensures var n := Next(r, Receive(from, packet, 0, [from], now, now));
            && n.l == Backlogged(Receipt(r.l, from, packet), from, packet, now, now) && n.clock == now
  {
    assert Enabled(r, Receive(from, packet, 0, [from], now, now));
    NextReceive(r, from, packet, 0, [from], now, now);
    BranchShapes(r.l, from, packet, 0, [from], now, now);
    hide BacklogOk, Backlogged, Received, Next;
  }

  // In an empty backlog, or one of size one that holds the same sender, it waits alone.
  lemma WaitsAlone(l: Listener, from: Addr, packet: Packet, now: int)
    requires l.backlog == 1 && l.conns == map[] && l.timer == None
    requires l.backlogQ == [] || (|l.backlogQ| == 1 && l.backlogQ[0].addr == from)
    ensures var n := Backlogged(Receipt(l, from, packet), from, packet, now, now);
            && n.backlogQ == [Pending(from, now + l.timeout, [packet])] && n.timer == None && n.conns == map[]
            && n.acceptQ == l.acceptQ && n.live == l.live && n.backlog == 1 && n.timeout == l.timeout
            && n.discarded == DropPending(l.discarded, l.backlogQ)
  {
    var m := Receipt(l, from, packet);
    assert Purged(l.backlogQ, 1) == [];
    assert l.backlogQ[..|l.backlogQ|] == l.backlogQ;
    hide DropPending, Add;
  }

  /** A run in which both happen: with a backlog of one, a sender heard twice loses its
      first datagram, and nothing times what is left of it. */
  lemma LonelySender(timeout: nat, limit: nat, start: int, first: int, second: int, packet: Packet, other: Packet)
    requires 0 < start <= first <= second && limit > 0
    ensures var e := [Receive(7, packet, 0, [7], first, first), Receive(7, other, 0, [7], second, second)];
            var l := Runs(timeout, limit, 1, start, e).l;
            && l.backlogQ == [Pending(7, second + timeout, [other])] && l.timer == None
            && Entry(l.discarded, 7) == multiset{packet}
  {
    var e := [Receive(7, packet, 0, [7], first, first), Receive(7, other, 0, [7], second, second)];
    var r0 := Run(Initial(timeout, limit, 1), start, [], {}, {}, true);
    assert Runs(timeout, limit, 1, start, []) == r0;
    assert [] + [e[0]] == e[..1] && e[..1] + [e[1]] == e;
    assert Lonely(r0, timeout) && r0.l.backlogQ == [] && r0.l.discarded == map[];
    hide *;
    OneStep(timeout, limit, 1, start, [], e[0]);
    OneStep(timeout, limit, 1, start, e[..1], e[1]);
    StillLonely(r0, timeout, packet, first);
    StillLonely(Next(r0, e[0]), timeout, other, second);
    OneDropped(first + timeout, packet);
  }

  predicate Lonely(r: Run, timeout: nat) {
    && r.l.live && r.l.acceptQ == [] && r.l.conns == map[] && r.l.backlog == 1 && r.l.timer == None
    && r.l.timeout == timeout
  }

  lemma StillLonely(r: Run, timeout: nat, packet: Packet, now: int)
    requires BacklogOk(r.l) && Lonely(r, timeout) && r.clock <= now
    requires r.l.backlogQ == [] || (|r.l.backlogQ| == 1 && r.l.backlogQ[0].addr == 7)
    ensures var n := Next(r, Receive(7, packet, 0, [7], now, now));
            && Lonely(n, timeout) && n.clock == now && n.l.timer == None
            && n.l.backlogQ == [Pending(7, now + timeout, [packet])]
            && n.l.discarded == DropPending(r.l.discarded, r.l.backlogQ)
  {
    hide Next, BacklogOk, Backlogged, Receipt, DropPending;
    SenderWaits(r, 7, packet, now);
    WaitsAlone(r.l, 7, packet, now);
  }

  lemma OneDropped(expiry: int, packet: Packet)
    ensures Entry(DropPending(DropPending(map[], []), [Pending(7, expiry, [packet])]), 7) == multiset{packet}
  {
    assert Front([Pending(7, expiry, [packet])]) == [];
    assert multiset([packet]) == multiset{packet};
  }

  // ---------- What is discarded ----------

  lemma RoomKeepsAll(l: Listener, from: Addr, packets: seq<Packet>, id: Id, order: seq<Addr>, now: int, at: int,
                     a: Addr)
    requires CanConnect(l, from, order) && |l.conns| < l.limit
    ensures Entry(Connected(l, from, packets, id, order, now, at).discarded, a) == Entry(l.discarded, a)
  {
    var c := NewConn(l, from, packets, id, now);
    var all, m := l.conns[from := c], Connected(l, from, packets, id, order, now, at);
    SizeInsert(l.conns, from, c);
    ConnectedFields(l, from, packets, id, order, now, at);
    ConnectedShape(l, from, packets, id, order, now, at);
    hide Connected, NewConn, Enumerates;
    assert all - m.conns.Keys == map[];
    NothingDropped(l.discarded, a);
  }

  lemma NothingDropped(t: Tally, a: Addr)
    ensures Entry(DropConns(t, map[]), a) == Entry(t, a)
  {
  }

  lemma SettleDiscards(l: Listener, a: Addr, o: Connection.Outcome, at: int)
    requires !o.remove
    ensures Settle(l, a, o, at).discarded == l.discarded
  {
    hide Schedule, Add, Payload;
  }

  lemma BacklogRoom(l: Listener, from: Addr, packet: Packet, now: int, at: int)
    requires |l.backlogQ| < l.backlog
    ensures Backlogged(l, from, packet, now, at).discarded == l.discarded
  {
    BackloggedShape(l, from, packet, now, at);
    hide Backlogged;
    assert l.backlogQ[..0] == [];
  }

  /** Nothing is discarded for lack of anything but room: while the listener is below its
      limit and its backlog is not full, no datagram and no ACCEPT request makes it
      discard anything. */
  lemma DiscardsOnlyForRoom(l: Listener, from: Addr, packet: Packet, req: Req, id: Id, order: seq<Addr>,
                            now: int, at: int, a: Addr)
    requires AllSane(l) && |l.conns| < l.limit && |l.backlogQ| < l.backlog
    ensures (from !in l.conns && l.acceptQ != [] ==> CanConnect(l, from, order)) ==>
              Entry(Received(l, from, packet, id, order, now, at).discarded, a) == Entry(l.discarded, a)
    ensures (l.backlogQ != [] ==> CanConnect(l, l.backlogQ[0].addr, order)) ==>
              Entry(Accepting(l, req, id, order, now, at).discarded, a) == Entry(l.discarded, a)
  {
    hide *;
    if from !in l.conns && l.acceptQ != [] ==> CanConnect(l, from, order) {
      ReceiveDiscards(l, from, packet, id, order, now, at, a);
    }
    if l.backlogQ != [] ==> CanConnect(l, l.backlogQ[0].addr, order) {
      AcceptDiscards(l, req, id, order, now, at, a);
    }
  }

  lemma ReceiveDiscards(l: Listener, from: Addr, packet: Packet, id: Id, order: seq<Addr>, now: int, at: int, a: Addr)
    requires AllSane(l) && |l.conns| < l.limit && |l.backlogQ| < l.backlog
    requires from !in l.conns && l.acceptQ != [] ==> CanConnect(l, from, order)
    ensures Entry(Received(l, from, packet, id, order, now, at).discarded, a) == Entry(l.discarded, a)
  {
    BranchShapes(l, from, packet, id, order, now, at);
    ReceiptShape(l, from, packet);
    var n := Receipt(l, from, packet);
    if from in l.conns {
      CallbackConserves(l.conns[from], Connection.Arrive(packet, now), 0);
      assert !Connection.Send(l.conns[from], packet, now).remove;
      hide *;
      SettleDiscards(n, from, Connection.Send(l.conns[from], packet, now), at);
    } else if l.acceptQ != [] {
      hide *;
      AnsweredShape(n, from, packet, id, order, now, at);
      var q := n.(acceptQ := n.acceptQ[1..]);
      RoomKeepsAll(q, from, [packet], id, order, now, at, a);
      var k := Connected(q, from, [packet], id, order, now, at);
      ArmFields(k.(answers := n.answers + [Answer(n.acceptQ[0], from, id)]), at);
    } else {
      hide *;
      BacklogRoom(n, from, packet, now, at);
    }
  }

  lemma AcceptDiscards(l: Listener, req: Req, id: Id, order: seq<Addr>, now: int, at: int, a: Addr)
    requires |l.conns| < l.limit && (l.backlogQ != [] ==> CanConnect(l, l.backlogQ[0].addr, order))
    ensures Entry(Accepting(l, req, id, order, now, at).discarded, a) == Entry(l.discarded, a)
  {
    hide *;
    AcceptingShape(l, req, id, order, now, at);
    if l.backlogQ != [] {
      var n, pc := l.(backlogQ := l.backlogQ[1..]), l.backlogQ[0];
      RoomKeepsAll(n, pc.addr, pc.packets, id, order, now, at, a);
    }
  }
}

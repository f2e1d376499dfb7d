/** Packet conservation: every datagram that the listener has received is waiting in one
    pending entry, queued in one connection, handed to a DATA call, or discarded. */
module ListenPackets {
  import opened Base
  import opened Pool
  import opened Connection
  import opened Listen

  /** In how many of these places packet p of sender a is. */
  function Places(l: Listener, a: Addr, p: Packet): nat {
    Entry(l.issued, a)[p] + Entry(l.discarded, a)[p] + Queued(l.conns, a)[p] + PendingOf(l.backlogQ, a)[p]
  }

  // As many as it has been received, not counting extra of them that are in hand.
  ghost predicate Accounted(l: Listener, a: Addr, p: Packet, extra: nat) {
    Entry(l.received, a)[p] == Places(l, a, p) + extra
  }

  ghost predicate Conserved(l: Listener) {
    forall a, p :: Accounted(l, a, p, 0)
  }

  function At(from: Addr, packets: multiset<Packet>, a: Addr, p: Packet): nat {
    if a == from then packets[p] else 0
  }

  /** A connection made for an ACCEPT request: it either queues or forwards. */
  predicate Sane(c: Conn) {
    !c.local && c.init == NoCall && Live(c) && (c.flushArmed ==> c.rid != 0)
  }

  ghost predicate AllSane(l: Listener) {
    forall a :: a in l.conns ==> Sane(l.conns[a])
  }

  function Arrived(e: Event): multiset<Packet> {
    if e.Arrive? then multiset{e.packet} else multiset{}
  }

  function QueueOf(c: Conn): multiset<Packet> {
    if c.q.Some? then multiset(c.q.value) else multiset{}
  }

  lemma {:induction false} FlushPayload(sid: Id, packets: seq<Packet>, from: Addr)
    ensures Payload(FlushCalls(sid, packets, from)) == multiset(packets)
  {
    if packets != [] {
      FlushPayload(sid, Front(packets), from);
      assert Front(FlushCalls(sid, packets, from)) == FlushCalls(sid, Front(packets), from);
      assert packets == Front(packets) + [Last(packets)];
    }
  }

  lemma NoPayload(calls: seq<Call>)
    requires |calls| <= 1 && forall k :: 0 <= k < |calls| ==> !calls[k].Data?
    ensures Payload(calls) == multiset{}
  {
    if calls != [] {
      assert Front(calls) == [];
    }
  }

  /** No callback of a sane connection loses or duplicates a packet. */
  lemma CallbackConserves(c: Conn, e: Event, p: Packet)
    requires Sane(c)
    ensures var o := Apply(c, e);
            && !o.remove && Sane(o.conn)
            && Payload(o.calls)[p] + QueueOf(o.conn)[p] == QueueOf(c)[p] + Arrived(e)[p]
  {
    if e.GotFlushIdle? && c.flushArmed && c.q.Some? {
      FlushPayload(c.rid, c.q.value, c.addr);
    } else if e.Arrive? && c.rid != 0 {
      hide Arrived, QueueOf;
      assert Front([Data(c.rid, e.packet, None)]) == [];
      assert Payload([Data(c.rid, e.packet, None)]) == multiset{e.packet};
      assert Arrived(e) == multiset{e.packet} by { ArrivedOne(e); }
    } else {
      hide Payload;
      NoPayload([]);
    }
  }

  lemma ArrivedOne(e: Event)
    requires e.Arrive?
    ensures Arrived(e) == multiset{e.packet}
  {
  }

  // ---------- One packet at a time ----------

  lemma AddAt(t: Tally, b: Addr, packets: multiset<Packet>, a: Addr, p: Packet)
    ensures Entry(Add(t, b, packets), a)[p] == Entry(t, a)[p] + At(b, packets, a, p)
  {
  }

  lemma QueuedUpdate(conns: Conns, b: Addr, c: Conn, a: Addr, p: Packet)
    ensures Queued(conns[b := c], a)[p] == if a == b then QueueOf(c)[p] else Queued(conns, a)[p]
    ensures Queued(conns - {b}, a)[p] == if a == b then 0 else Queued(conns, a)[p]
  {
  }

  lemma QueuedHere(conns: Conns, a: Addr)
    requires a in conns
    ensures Queued(conns, a) == QueueOf(conns[a])
  {
  }

  lemma {:induction false} PendingOfConcat(q: seq<Pending>, r: seq<Pending>, a: Addr, p: Packet)
    ensures PendingOf(q + r, a)[p] == PendingOf(q, a)[p] + PendingOf(r, a)[p]
  {
    if r == [] {
      assert q + r == q;
    } else {
      PendingOfConcat(q, Front(r), a, p);
      assert Front(q + r) == q + Front(r);
    }
  }

  lemma PendingOfOne(x: Pending, a: Addr, p: Packet)
    ensures PendingOf([x], a)[p] == At(x.addr, multiset(x.packets), a, p)
  {
    assert Front([x]) == [];
  }

  lemma PendingSplit(q: seq<Pending>, k: nat, a: Addr, p: Packet)
    requires k <= |q|
    ensures PendingOf(q, a)[p] == PendingOf(q[..k], a)[p] + PendingOf(q[k..], a)[p]
  {
    assert q == q[..k] + q[k..];
    PendingOfConcat(q[..k], q[k..], a, p);
  }

  lemma {:induction false} DropPendingAt(t: Tally, q: seq<Pending>, a: Addr, p: Packet)
    ensures Entry(DropPending(t, q), a)[p] == Entry(t, a)[p] + PendingOf(q, a)[p]
  {
    if q != [] {
      DropPendingAt(t, Front(q), a, p);
    }
  }

  lemma DropConnsAt(t: Tally, all: Conns, left: Conns, a: Addr, p: Packet)
    requires forall b :: b in left ==> b in all && left[b] == all[b]
    ensures Entry(DropConns(t, all - left.Keys), a)[p] + Queued(left, a)[p] == Entry(t, a)[p] + Queued(all, a)[p]
  {
  }

  lemma {:induction false} InsertKeepsPackets(q: seq<Pending>, x: Pending, a: Addr, p: Packet)
    requires Sorted(q)
    ensures PendingOf(Insert(q, x), a)[p] == PendingOf(q, a)[p] + PendingOf([x], a)[p]
  {
    if q != [] && Last(q).expiry > x.expiry {
      InsertKeepsPackets(Front(q), x, a, p);
      var r := Insert(Front(q), x);
      assert Front(r + [Last(q)]) == r;
    } else {
      PendingOfConcat(q, [x], a, p);
    }
  }

  lemma {:induction false} SortKeepsPackets(q: seq<Pending>, a: Addr, p: Packet)
    ensures PendingOf(Sort(q), a)[p] == PendingOf(q, a)[p]
  {
    if q != [] {
      SortKeepsPackets(Front(q), a, p);
      InsertKeepsPackets(Sort(Front(q)), Last(q), a, p);
      PendingOfOne(Last(q), a, p);
    }
  }

  function Grown(x: Pending, expiry: int, packet: Packet): Pending {
    Pending(x.addr, expiry, x.packets + [packet])
  }

  lemma GrownAt(x: Pending, expiry: int, packet: Packet, a: Addr, p: Packet)
    ensures PendingOf([Grown(x, expiry, packet)], a)[p]
            == PendingOf([x], a)[p] + At(x.addr, multiset{packet}, a, p)
  {
    PendingOfOne(x, a, p);
    PendingOfOne(Grown(x, expiry, packet), a, p);
  }

  lemma UpdateAddsPacket(q: seq<Pending>, i: nat, expiry: int, packet: Packet, a: Addr, p: Packet)
    requires i < |q|
    ensures PendingOf(q[i := Grown(q[i], expiry, packet)], a)[p]
            == PendingOf(q, a)[p] + At(q[i].addr, multiset{packet}, a, p)
  {
    hide PendingOf, Grown, At;
    var x := Grown(q[i], expiry, packet);
    var before, after := q[..i], q[i + 1..];
    assert q == before + ([q[i]] + after) && q[i := x] == before + ([x] + after);
    PendingOfConcat(before, [q[i]] + after, a, p);
    PendingOfConcat(before, [x] + after, a, p);
    PendingOfConcat([q[i]], after, a, p);
    PendingOfConcat([x], after, a, p);
    GrownAt(q[i], expiry, packet, a, p);
  }

  // ---------- The parts of the operations ----------

  lemma SettleAt(l: Listener, b: Addr, o: Outcome, at: int, a: Addr, p: Packet, arrived: nat)
    requires Accounted(l, a, p, if a == b then arrived else 0) && b in l.conns && !o.remove
    requires Payload(o.calls)[p] + QueueOf(o.conn)[p] == QueueOf(l.conns[b])[p] + arrived
    ensures Accounted(Settle(l, b, o, at), a, p, 0)
  {
    hide Schedule, Payload, PendingOf, Queued, QueueOf, Add, Entry;
    AddAt(l.issued, b, Payload(o.calls), a, p);
    QueuedUpdate(l.conns, b, o.conn, a, p);
    QueuedHere(l.conns, b);
  }

  lemma EnqueuedAt(q: seq<Pending>, from: Addr, packet: Packet, expiry: int, a: Addr, p: Packet)
    ensures PendingOf(Enqueued(q, from, packet, expiry), a)[p]
            == PendingOf(q, a)[p] + At(from, multiset{packet}, a, p)
  {
    hide PendingOf, Sort, At;
    var i := Find(q, from);
    if i < |q| {
      UpdateAddsPacket(q, i, expiry, packet, a, p);
      SortKeepsPackets(q[i := Grown(q[i], expiry, packet)], a, p);
    } else {
      var x := Pending(from, expiry, [packet]);
      PendingOfConcat(q, [x], a, p);
      PendingOfOne(x, a, p);
      assert multiset([packet]) == multiset{packet};
    }
  }

  lemma TrimmedAt(l: Listener, a: Addr, p: Packet)
    ensures Places(Trimmed(l), a, p) == Places(l, a, p)
  {
    var k := |l.backlogQ| - |Trimmed(l).backlogQ|;
    assert Trimmed(l).backlogQ == l.backlogQ[k..];
    hide PendingOf, DropPending, Queued, Entry, Purged;
    DropPendingAt(l.discarded, l.backlogQ[..k], a, p);
    PendingSplit(l.backlogQ, k, a, p);
  }

  lemma BackloggedShape(l: Listener, from: Addr, packet: Packet, now: int, at: int)
    ensures var m := Backlogged(l, from, packet, now, at);
            && m.backlogQ == Enqueued(Trimmed(l).backlogQ, from, packet, now + l.timeout)
            && m.received == l.received && m.issued == l.issued && m.conns == l.conns
            && m.discarded == Trimmed(l).discarded
  {
    TrimmedKeeps(l);
    ArmKeeps(Trimmed(l).(backlogQ := Enqueued(Trimmed(l).backlogQ, from, packet, now + l.timeout)), at);
    hide Arm, Enqueued, Trimmed;
  }

  lemma TrimmedKeeps(l: Listener)
    ensures Trimmed(l) == l.(backlogQ := Trimmed(l).backlogQ, discarded := Trimmed(l).discarded)
  {
    hide DropPending, Purged;
  }

  lemma ArmKeeps(l: Listener, at: int)
    ensures Arm(l, at) == l.(timer := Arm(l, at).timer)
  {
    hide Schedule;
  }

  lemma SamePlaces(l: Listener, m: Listener, a: Addr, p: Packet, more: nat)
    requires m.issued == l.issued && m.discarded == l.discarded && m.conns == l.conns
    requires PendingOf(m.backlogQ, a)[p] == PendingOf(l.backlogQ, a)[p] + more
    ensures Places(m, a, p) == Places(l, a, p) + more
  {
    hide PendingOf, Queued, Entry;
  }

  lemma BackloggedAt(l: Listener, from: Addr, packet: Packet, now: int, at: int, a: Addr, p: Packet)
    requires Accounted(l, a, p, At(from, multiset{packet}, a, p))
    ensures Accounted(Backlogged(l, from, packet, now, at), a, p, 0)
  {
    var m := Backlogged(l, from, packet, now, at);
    BackloggedShape(l, from, packet, now, at);
    TrimmedAt(l, a, p);
    EnqueuedAt(Trimmed(l).backlogQ, from, packet, now + l.timeout, a, p);
    TrimmedShape(l);
    hide Backlogged, Trimmed, Enqueued, PendingOf, Entry, At, Places;
    SamePlaces(Trimmed(l), m, a, p, At(from, multiset{packet}, a, p));
  }

  lemma TrimmedShape(l: Listener)
    ensures Trimmed(l).issued == l.issued && Trimmed(l).conns == l.conns
  {
  }

  lemma ConnectedAt(l: Listener, from: Addr, packets: seq<Packet>, id: Id, order: seq<Addr>,
                    now: int, at: int, a: Addr, p: Packet)
    requires Accounted(l, a, p, At(from, multiset(packets), a, p)) && CanConnect(l, from, order)
    ensures Accounted(Connected(l, from, packets, id, order, now, at), a, p, 0)
  {
    ConnectedShape(l, from, packets, id, order, now, at);
    var c := NewConn(l, from, packets, id, now);
    var all, m := l.conns[from := c], Connected(l, from, packets, id, order, now, at);
    hide *;
    QueuedUpdate(l.conns, from, c, a, p);
    QueuedMissing(l.conns, from);
    DropConnsAt(l.discarded, all, m.conns, a, p);
    JoinAccounts(l, m, all, from, packets, a, p);
  }

  lemma ConnectedShape(l: Listener, from: Addr, packets: seq<Packet>, id: Id, order: seq<Addr>, now: int, at: int)
    requires CanConnect(l, from, order)
    ensures var m, c := Connected(l, from, packets, id, order, now, at), NewConn(l, from, packets, id, now);
            var all := l.conns[from := c];
            && (forall b :: b in m.conns ==> b in all && m.conns[b] == all[b])
            && m.discarded == DropConns(l.discarded, all - m.conns.Keys)
            && m.received == l.received && m.issued == l.issued && m.backlogQ == l.backlogQ
            && from !in l.conns && QueueOf(c) == multiset(packets)
  {
    SameOrder(l, from, packets, id, order, now);
    hide Schedule, DropConns;
  }

  lemma JoinAccounts(l: Listener, m: Listener, all: Conns, from: Addr, packets: seq<Packet>, a: Addr, p: Packet)
    requires Accounted(l, a, p, At(from, multiset(packets), a, p))
    requires m.received == l.received && m.issued == l.issued && m.backlogQ == l.backlogQ
    requires Entry(m.discarded, a)[p] + Queued(m.conns, a)[p] == Entry(l.discarded, a)[p] + Queued(all, a)[p]
    requires Queued(all, a)[p] == if a == from then multiset(packets)[p] else Queued(l.conns, a)[p]
    requires Queued(l.conns, from) == multiset{}
    ensures Accounted(m, a, p, 0)
  {
    hide Entry, Queued, PendingOf;
  }

  lemma QueuedMissing(conns: Conns, a: Addr)
    requires a !in conns
    ensures Queued(conns, a) == multiset{}
  {
  }

  lemma DroppedAt(l: Listener, m: Listener, a: Addr, p: Packet)
    requires Accounted(l, a, p, 0) && Dropped(l, m)
    ensures Accounted(m, a, p, 0)
  {
    hide PendingOf, DropPending, DropConns, Queued, Entry;
    var k := |l.backlogQ| - |m.backlogQ|;
    DropPendingAt(l.discarded, l.backlogQ[..k], a, p);
    PendingSplit(l.backlogQ, k, a, p);
    DropConnsAt(DropPending(l.discarded, l.backlogQ[..k]), l.conns, m.conns, a, p);
  }

  // Some connections and the first pending entries of l are gone.
  ghost predicate Dropped(l: Listener, m: Listener) {
    && m.received == l.received && m.issued == l.issued
    && (forall a :: a in m.conns ==> a in l.conns && m.conns[a] == l.conns[a])
    && |m.backlogQ| <= |l.backlogQ| && m.backlogQ == l.backlogQ[|l.backlogQ| - |m.backlogQ|..]
    && m.discarded == DropConns(DropPending(l.discarded, l.backlogQ[..|l.backlogQ| - |m.backlogQ|]),
                                l.conns - m.conns.Keys)
  }

  // ---------- Operations ----------

  lemma WithoutConserves(l: Listener, b: Addr)
    requires Conserved(l)
    ensures Conserved(Without(l, b))
  {
    hide Conserved;
    forall a, p
      ensures Accounted(Without(l, b), a, p, 0)
    {
      ConservedAt(l, a, p);
      hide PendingOf, Add, Entry, QueueOf;
      AddAt(l.discarded, b, Queued(l.conns, b), a, p);
      QueuedUpdate(l.conns, b, New(0, 0, false, 0, 0, [], 0), a, p);
    }
    ConservedIntro(Without(l, b));
  }

  lemma ConservedAt(l: Listener, a: Addr, p: Packet)
    requires Conserved(l)
    ensures Accounted(l, a, p, 0)
  {
  }

  lemma ConservedIntro(l: Listener)
    requires forall a, p :: Accounted(l, a, p, 0)
    ensures Conserved(l)
  {
  }

  lemma ReceiptAt(l: Listener, from: Addr, packet: Packet, a: Addr, p: Packet)
    requires Accounted(l, a, p, 0)
    ensures Accounted(Receipt(l, from, packet), a, p,
                      At(from, multiset{packet}, a, p))
  {
    hide PendingOf, Queued, Add, Entry, At;
    AddAt(l.received, from, multiset{packet}, a, p);
  }

  lemma ReceivedConserves(l: Listener, from: Addr, packet: Packet, id: Id, order: seq<Addr>, now: int, at: int)
    requires Conserved(l) && AllSane(l)
    requires from !in l.conns && l.acceptQ != [] ==> CanConnect(l, from, order)
    ensures Conserved(Received(l, from, packet, id, order, now, at))
  {
    hide Conserved;
    forall a, p
      ensures Accounted(Received(l, from, packet, id, order, now, at), a, p, 0)
    {
      ConservedAt(l, a, p);
      ReceivedAt(l, from, packet, id, order, now, at, a, p);
    }
    ConservedIntro(Received(l, from, packet, id, order, now, at));
  }

  lemma ReceivedAt(l: Listener, from: Addr, packet: Packet, id: Id, order: seq<Addr>, now: int, at: int,
                   a: Addr, p: Packet)
    requires Accounted(l, a, p, 0) && AllSane(l)
    requires from !in l.conns && l.acceptQ != [] ==> CanConnect(l, from, order)
    ensures Accounted(Received(l, from, packet, id, order, now, at), a, p, 0)
  {
    var m := Receipt(l, from, packet);
    ReceiptAt(l, from, packet, a, p);
    hide Accounted, AllSane, Settle, Send, Answered, Backlogged, Add, At, Enumerates;
    if from in l.conns {
      SentAt(l, m, from, packet, now, at, a, p);
    } else if l.acceptQ != [] {
      AcceptedAt(m, from, packet, id, order, now, at, a, p);
    } else {
      BackloggedAt(m, from, packet, now, at, a, p);
    }
  }

  lemma SentAt(l: Listener, m: Listener, from: Addr, packet: Packet, now: int, at: int, a: Addr, p: Packet)
    requires AllSane(l) && from in l.conns && m.conns == l.conns
    requires Accounted(m, a, p, At(from, multiset{packet}, a, p))
    ensures Accounted(Settle(m, from, Send(l.conns[from], packet, now), at), a, p, 0)
  {
    hide Settle, Accounted, Queued;
    CallbackConserves(l.conns[from], Arrive(packet, now), p);
    assert Send(l.conns[from], packet, now) == Apply(l.conns[from], Arrive(packet, now));
    hide Apply, Send, Payload, QueueOf;
    SettleAt(m, from, Send(l.conns[from], packet, now), at, a, p, multiset{packet}[p]);
  }

  lemma AcceptedAt(m: Listener, from: Addr, packet: Packet, id: Id, order: seq<Addr>, now: int, at: int,
                   a: Addr, p: Packet)
    requires Accounted(m, a, p, At(from, multiset{packet}, a, p)) && m.acceptQ != []
    requires CanConnect(m, from, order)
    ensures Accounted(Answered(m, from, packet, id, order, now, at), a, p, 0)
  {
    var n := m.(acceptQ := m.acceptQ[1..]);
    assert multiset([packet]) == multiset{packet};
    assert CanConnect(n, from, order);
    hide Connected, Schedule, CanConnect, Enumerates, PendingOf, Queued, Entry;
    ConnectedAt(n, from, [packet], id, order, now, at, a, p);
  }

  lemma AcceptingConserves(l: Listener, req: Req, id: Id, order: seq<Addr>, now: int, at: int)
    requires Conserved(l) && (l.backlogQ != [] ==> CanConnect(l, l.backlogQ[0].addr, order))
    ensures Conserved(Accepting(l, req, id, order, now, at))
  {
    hide Conserved;
    forall a, p
      ensures Accounted(Accepting(l, req, id, order, now, at), a, p, 0)
    {
      ConservedAt(l, a, p);
      AcceptingAt(l, req, id, order, now, at, a, p);
    }
    ConservedIntro(Accepting(l, req, id, order, now, at));
  }

  lemma AcceptingAt(l: Listener, req: Req, id: Id, order: seq<Addr>, now: int, at: int, a: Addr, p: Packet)
    requires Accounted(l, a, p, 0) && (l.backlogQ != [] ==> CanConnect(l, l.backlogQ[0].addr, order))
    ensures Accounted(Accepting(l, req, id, order, now, at), a, p, 0)
  {
    hide PendingOf, Connected, Queued, Entry, At;
    if l.backlogQ != [] {
      var pc, m := l.backlogQ[0], l.(backlogQ := l.backlogQ[1..]);
      PendingSplit(l.backlogQ, 1, a, p);
      assert l.backlogQ[..1] == [pc];
      PendingOfOne(pc, a, p);
      assert CanConnect(m, pc.addr, order);
      ConnectedAt(m, pc.addr, pc.packets, id, order, now, at, a, p);
    }
  }

  lemma CallbackKeepsPackets(l: Listener, b: Addr, e: Event, at: int)
    requires Conserved(l) && AllSane(l) && b in l.conns && !e.Arrive?
    ensures Conserved(Settle(l, b, Apply(l.conns[b], e), at))
  {
    var o := Apply(l.conns[b], e);
    hide Conserved, Settle, Apply;
    forall a, p
      ensures Accounted(Settle(l, b, o, at), a, p, 0)
    {
      ConservedAt(l, a, p);
      CallbackConserves(l.conns[b], e, p);
      SettleAt(l, b, o, at, a, p, 0);
    }
    ConservedIntro(Settle(l, b, o, at));
  }

  lemma DroppedConserves(l: Listener, m: Listener)
    requires Conserved(l) && Dropped(l, m)
    ensures Conserved(m)
  {
    hide Conserved, Dropped;
    forall a, p
      ensures Accounted(m, a, p, 0)
    {
      ConservedAt(l, a, p);
      DroppedAt(l, m, a, p);
    }
    ConservedIntro(m);
  }

  lemma CheckedConserves(l: Listener, t1: int, t2: int, t3: int)
    requires Conserved(l)
    ensures Conserved(Checked(l, t1, t2, t3))
  {
    hide Conserved, PopExpired, Schedule, DropConns, DropPending;
    DroppedConserves(l, Checked(l, t1, t2, t3));
  }

  lemma DisposedDrops(l: Listener)
    ensures Dropped(l, Disposed(l))
  {
    hide DropConns, DropPending;
    assert l.backlogQ[..|l.backlogQ|] == l.backlogQ;
    assert l.conns - Disposed(l).conns.Keys == l.conns;
  }

  lemma DisposedConserves(l: Listener)
    requires Conserved(l)
    ensures Conserved(Disposed(l))
  {
    hide *;
    DisposedDrops(l);
    DroppedConserves(l, Disposed(l));
  }
}

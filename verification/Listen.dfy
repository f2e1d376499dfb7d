/** The datagram listener: ACCEPT requests wait for senders, senders wait for ACCEPT
    requests, and one timer watches both the waiting senders and the connections. */
module Listen {
  import opened Base
  import opened Pool
  import opened Connection

  const DEFAULT_BACKLOG: nat := 10

  datatype Pending = Pending(addr: Addr, expiry: int, packets: seq<Packet>)

  datatype Answer = Answer(req: Req, addr: Addr, id: Id)

  /** How many times each datagram of each sender occurs. */
  type Tally = map<Addr, multiset<Packet>>

  function Entry(l: Tally, a: Addr): multiset<Packet> {
    if a in l then l[a] else multiset{}
  }

  function Add(l: Tally, a: Addr, packets: multiset<Packet>): Tally {
    l[a := Entry(l, a) + packets]
  }

  datatype Listener = Listener(
    conns: Conns,
    acceptQ: seq<Req>,
    backlogQ: seq<Pending>,
    timer: Timer,
    timeout: nat,
    limit: nat,
    backlog: nat,
    live: bool,
    answers: seq<Answer>,   // completed ACCEPT requests, in order
    received: Tally,
    issued: Tally,         // handed to DATA calls
    discarded: Tally,
    calls: Calls
  )

  // ---------- Where a datagram can be ----------

  function Queued(conns: Conns, a: Addr): multiset<Packet> {
    if a in conns && conns[a].q.Some? then multiset(conns[a].q.value) else multiset{}
  }

  function PendingOf(q: seq<Pending>, a: Addr): multiset<Packet> {
    if q == [] then multiset{}
    else PendingOf(Front(q), a) + if Last(q).addr == a then multiset(Last(q).packets) else multiset{}
  }

  function Payload(calls: seq<Call>): multiset<Packet> {
    if calls == [] then multiset{}
    else Payload(Front(calls)) + if Last(calls).Data? then multiset{Last(calls).packet} else multiset{}
  }

  function DropPending(l: Tally, q: seq<Pending>): Tally {
    if q == [] then l else Add(DropPending(l, Front(q)), Last(q).addr, multiset(Last(q).packets))
  }

  function DropConns(l: Tally, gone: Conns): Tally {
    map a | a in l.Keys + gone.Keys :: Entry(l, a) + Queued(gone, a)
  }

  // ---------- The backlog ----------

  function HeadExpiry(q: seq<Pending>): int {
    if q == [] then 0 else q[0].expiry
  }

  predicate Sorted(q: seq<Pending>) {
    forall j, k :: 0 <= j < k < |q| ==> q[j].expiry <= q[k].expiry
  }

  /** The stable sort of a queue, oldest expiry first. */
  function Sort(q: seq<Pending>): (r: seq<Pending>)
    ensures Sorted(r) && |r| == |q|
  {
    if q == [] then [] else Insert(Sort(Front(q)), Last(q))
  }

  function Insert(q: seq<Pending>, x: Pending): (r: seq<Pending>)
    requires Sorted(q)
    ensures Sorted(r) && |r| == |q| + 1 && (forall y :: y in r <==> y in q || y == x)
  {
    if q == [] || Last(q).expiry <= x.expiry then
      assert forall k :: 0 <= k < |q| ==> q[k].expiry <= x.expiry;
      q + [x]
    else
      var r := Insert(Front(q), x) + [Last(q)];
      assert q == Front(q) + [Last(q)];
      assert forall k :: 0 <= k < |r| - 1 ==> r[k] in Front(q) || r[k] == x;
      r
  }

  function WithExpiry(q: seq<Pending>, e: int): seq<Pending> {
    if q == [] then [] else WithExpiry(Front(q), e) + if Last(q).expiry == e then [Last(q)] else []
  }

  function Purged(q: seq<Pending>, backlog: nat): seq<Pending> {
    if |q| >= backlog > 0 then q[|q| - (backlog - 1)..] else q
  }

  function Find(q: seq<Pending>, a: Addr): (i: nat)
    ensures i <= |q|
    ensures forall k :: 0 <= k < i ==> q[k].addr != a
    ensures i < |q| ==> q[i].addr == a
  {
    if q == [] then 0
    else if q[0].addr == a then 0
    else 1 + Find(q[1..], a)
  }

  /** What the pop loop leaves behind. */
  function PopExpired(q: seq<Pending>, now: int): (r: seq<Pending>)
    ensures |r| <= |q| && r == q[|q| - |r|..]
  {
    if q != [] && q[0].expiry <= now then PopExpired(q[1..], now) else q
  }

  function KeepUnexpired(q: seq<Pending>, now: int): seq<Pending> {
    if q == [] then []
    else (if q[0].expiry <= now then [] else [q[0]]) + KeepUnexpired(q[1..], now)
  }

  // ---------- Operations ----------

  ghost function Arm(l: Listener, at: int): Listener {
    l.(timer := Schedule(l.timer, l.conns, HeadExpiry(l.backlogQ), at))
  }

  function NewConn(l: Listener, from: Addr, packets: seq<Packet>, id: Id, now: int): Conn {
    New(id, from, false, 0, l.timeout, packets, now)
  }

  /** The new connection is inserted first; the victim is chosen among all, and if it
      is the new one, which the socket table does not know yet, nothing is removed. */
  ghost function Evicted(conns: Conns, limit: nat, from: Addr, order: seq<Addr>): Conns
    requires Enumerates(order, conns)
  {
    NonEmptyOrder(order, conns);
    if |conns| > limit && order != [] && Oldest(order, conns) != from
    then conns - {Oldest(order, conns)} else conns
  }

  ghost predicate CanConnect(l: Listener, from: Addr, order: seq<Addr>) {
    && from !in l.conns     // so that no insert replaces a connection
    && Enumerates(order, l.conns[from := NewConn(l, from, [], 0, 0)])
  }

  lemma SameOrder(l: Listener, from: Addr, packets: seq<Packet>, id: Id, order: seq<Addr>, now: int)
    requires CanConnect(l, from, order)
    ensures Enumerates(order, l.conns[from := NewConn(l, from, packets, id, now)])
  {
  }

  ghost function Connected(l: Listener, from: Addr, packets: seq<Packet>, id: Id, order: seq<Addr>,
                           now: int, at: int): Listener
    requires CanConnect(l, from, order)
  {
    SameOrder(l, from, packets, id, order, now);
    var all := l.conns[from := NewConn(l, from, packets, id, now)];
    var left := Evicted(all, l.limit, from, order);
    Arm(l, at).(conns := left, discarded := DropConns(l.discarded, all - left.Keys), calls := l.calls[from := []])
  }

  ghost function Settle(l: Listener, a: Addr, o: Outcome, at: int): Listener {
    var g := l.(conns := l.conns[a := o.conn], issued := Add(l.issued, a, Payload(o.calls)),
                calls := l.calls[a := CallsOf(l.calls, a) + o.calls]);
    var t := if o.touched then Arm(g, at) else g;
    if o.remove then Without(t, a) else t
  }

  function Without(l: Listener, a: Addr): Listener {
    l.(conns := l.conns - {a}, discarded := Add(l.discarded, a, Queued(l.conns, a)))
  }

  // The backlog after the search: the sender's entry has grown, or there is a new one.
  function Enqueued(q: seq<Pending>, from: Addr, packet: Packet, expiry: int): seq<Pending> {
    var i := Find(q, from);
    if i < |q| then Sort(q[i := Pending(from, expiry, q[i].packets + [packet])])
    else q + [Pending(from, expiry, [packet])]
  }

  function Trimmed(l: Listener): Listener {
    var q := Purged(l.backlogQ, l.backlog);
    l.(backlogQ := q, discarded := DropPending(l.discarded, l.backlogQ[..|l.backlogQ| - |q|]))
  }

  ghost function Backlogged(l: Listener, from: Addr, packet: Packet, now: int, at: int): Listener {
    var m := Trimmed(l);
    var n := m.(backlogQ := Enqueued(m.backlogQ, from, packet, now + l.timeout));
    if Find(m.backlogQ, from) < |m.backlogQ| then n else Arm(n, at)
  }

  // The oldest ACCEPT request gets a new connection.
  ghost function Answered(l: Listener, from: Addr, packet: Packet, id: Id, order: seq<Addr>,
                          now: int, at: int): Listener
    requires l.acceptQ != [] && CanConnect(l, from, order)
  {
    Arm(Connected(l.(acceptQ := l.acceptQ[1..]), from, [packet], id, order, now, at)
          .(answers := l.answers + [Answer(l.acceptQ[0], from, id)]), at)
  }

  function Receipt(l: Listener, from: Addr, packet: Packet): Listener {
    l.(received := Add(l.received, from, multiset{packet}))
  }

  ghost function Received(l: Listener, from: Addr, packet: Packet, id: Id, order: seq<Addr>,
                          now: int, at: int): Listener
    requires from !in l.conns && l.acceptQ != [] ==> CanConnect(l, from, order)
  {
    var m := Receipt(l, from, packet);
    if from in l.conns then Settle(m, from, Send(l.conns[from], packet, now), at)
    else if l.acceptQ != [] then Answered(m, from, packet, id, order, now, at)
    else Backlogged(m, from, packet, now, at)
  }

  ghost function Accepting(l: Listener, req: Req, id: Id, order: seq<Addr>, now: int, at: int): Listener
    requires l.backlogQ != [] ==> CanConnect(l, l.backlogQ[0].addr, order)
  {
    if l.backlogQ == [] then l.(acceptQ := l.acceptQ + [req])
    else
      var pc := l.backlogQ[0];
      Connected(l.(backlogQ := l.backlogQ[1..]), pc.addr, pc.packets, id, order, now, at)
        .(answers := l.answers + [Answer(req, pc.addr, id)])
  }

  function Unqueue(q: seq<Req>, req: Req): seq<Req> {
    if q == [] then [] else if q[0] == req then q[1..] else [q[0]] + Unqueue(q[1..], req)
  }

  function Cancelled(l: Listener, req: Req): Listener {
    l.(acceptQ := Unqueue(l.acceptQ, req))
  }

  ghost function Checked(l: Listener, t1: int, t2: int, t3: int): Listener {
    var q := PopExpired(l.backlogQ, t1);
    var left := Unexpired(l.conns, t2);
    Arm(l.(backlogQ := q, conns := left, timer := None,
           discarded := DropConns(DropPending(l.discarded, l.backlogQ[..|l.backlogQ| - |q|]),
                                  l.conns - left.Keys)), t3)
  }

  function Disposed(l: Listener): Listener {
    l.(timer := None, acceptQ := [], backlogQ := [], conns := map[], live := false,
       discarded := DropConns(DropPending(l.discarded, l.backlogQ), l.conns))
  }
}

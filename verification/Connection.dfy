/** The datagram connection: one per remote address of a datagram listener or of a
    local datagram forwarder. It queues packets until it knows its counterpart
    socket, and turns them into DATA calls afterwards. */
module Connection {
  import opened Base

  // The outstanding RPC call of init_id.
  datatype Init = NoCall | SocketPending | ConnectPending

  datatype Conn = Conn(
    id: Id,
    addr: Addr,
    local: bool,              // made by a local forwarder: creates its own counterpart
    to: Addr,                 // where that counterpart has to connect
    timeout: nat,
    expiry: int,
    rid: Id,
    q: Option<seq<Packet>>,
    flushArmed: bool,         // flush_id != 0
    init: Init,
    io: bool,                 // io != NULL
    attached: bool            // check and parent != NULL
  )

  datatype Call =
    | Socket(id: Id)
    | Connect(sid: Id, to: Addr)
    | Data(sid: Id, packet: Packet, from: Option<Addr>)
    | Close(sid: Id)

  /** What one callback does: the new connection, the calls submitted in order,
      whether the parent was asked to check its timer, and whether the connection
      asked the peer to remove it. */
  datatype Outcome = Outcome(conn: Conn, calls: seq<Call>, touched: bool, remove: bool)

  function New(id: Id, addr: Addr, local: bool, to: Addr, timeout: nat,
               packets: seq<Packet>, now: int): Conn
  {
    Conn(id, addr, local, to, timeout, now + timeout, 0, Some(packets), false, NoCall, true, true)
  }

  function FlushCalls(sid: Id, packets: seq<Packet>, from: Addr): seq<Call> {
    seq(|packets|, i requires 0 <= i < |packets| =>
      Data(sid, packets[i], if i == 0 then Some(from) else None))
  }

  function Quiet(c: Conn): Outcome {
    Outcome(c, [], false, false)
  }

  function Touch(c: Conn, now: int): Conn {
    c.(expiry := now + c.timeout)
  }

  function Flush(c: Conn, now: int): Outcome {
    if c.q.None? then Quiet(c)
    else Outcome(Touch(c.(q := None), now), FlushCalls(c.rid, c.q.value, c.addr), c.attached, false)
  }

  function Start(c: Conn): Outcome {
    Outcome(c.(init := SocketPending), [Socket(c.id)], false, false)
  }

  function SocketCreated(c: Conn, rid: int): Outcome {
    if rid <= 0 then Outcome(c.(init := NoCall), [], false, true)
    else if c.rid != 0 then Outcome(c.(init := NoCall), [Close(rid)], false, false)
    else Outcome(c.(init := ConnectPending, rid := rid), [Connect(rid, c.to)], false, false)
  }

  function SocketConnected(c: Conn, result: int, now: int): Outcome {
    if result != 0 then Outcome(c.(init := NoCall), [], false, true)
    else Flush(c.(init := NoCall), now)
  }

  function Accepted(c: Conn, rid: Id): Conn {
    if rid != 0 && c.rid == 0 then c.(rid := rid, flushArmed := true) else c
  }

  function FlushIdle(c: Conn, now: int): Outcome {
    Flush(c.(flushArmed := false), now)
  }

  function Reply(c: Conn, now: int): Outcome {
    if c.io then Outcome(Touch(c, now), [], c.attached, false) else Quiet(c)
  }

  function Send(c: Conn, packet: Packet, now: int): Outcome {
    if c.rid != 0 then Outcome(Touch(c, now), [Data(c.rid, packet, None)], c.attached, false)
    else if c.q.Some? then Quiet(c.(q := Some(c.q.value + [packet])))
    else Quiet(c)
  }

  function ClosedByRemote(c: Conn): Outcome {
    if c.rid != 0 then Outcome(c.(rid := 0), [], false, true) else Quiet(c)
  }

  function Dispose(c: Conn): Outcome {
    Outcome(c.(io := false, attached := false, flushArmed := false, init := NoCall, rid := 0, q := None),
            if c.rid != 0 then [Close(c.rid)] else [], false, false)
  }

  /** A packet handed to the connection is either queued or forwarded. */
  predicate Live(c: Conn) {
    c.rid != 0 || c.q.Some?
  }

  class DatagramConnection {
    const id: Id
    const addr: Addr
    const local: bool
    const to: Addr
    const timeout: nat
    var expiry: int
    var rid: Id
    var q: Option<seq<Packet>>
    var flushArmed: bool
    var init: Init
    var io: bool
    var attached: bool
    var calls: seq<Call>        // submitted to the RPC layer, in order
    var written: seq<Packet>    // handed to the shared socket, addressed to addr
    var checks: nat             // times the parent was asked to check its timer

    function View(): Conn
      reads this
    {
      Conn(id, addr, local, to, timeout, expiry, rid, q, flushArmed, init, io, attached)
    }

    constructor (id: Id, addr: Addr, local: bool, to: Addr, timeout: nat,
                 packets: seq<Packet>, now: int)
      ensures View() == New(id, addr, local, to, timeout, packets, now)
      ensures calls == [] && written == [] && checks == 1
    {
      this.id, this.addr, this.local, this.to, this.timeout := id, addr, local, to, timeout;
      expiry := now + timeout;
      rid, q, flushArmed, init, io, attached := 0, Some(packets), false, NoCall, true, true;
      calls, written, checks := [], [], 1;
    }

    method DoTouch(now: int)
      modifies this`expiry, this`checks
      ensures View() == Touch(old(View()), now)
      ensures checks == old(checks) + if attached then 1 else 0
    {
      expiry := now + timeout;
      if attached {
        checks := checks + 1;
      }
    }

    method DoFlush(now: int)
      modifies this`expiry, this`checks, this`q, this`calls
      ensures View() == Flush(old(View()), now).conn
      ensures calls == old(calls) + Flush(old(View()), now).calls
      ensures checks == old(checks) + if Flush(old(View()), now).touched then 1 else 0
    {
      if q.Some? {
        var from := Some(addr);
        var packets := q.value;
        q := None;
        ghost var expected := FlushCalls(rid, packets, addr);
        var i := 0;
        while i < |packets|
          invariant 0 <= i <= |packets|
          invariant from == if i == 0 then Some(addr) else None
          invariant calls == old(calls) + expected[..i]
          invariant View() == old(View()).(q := None) && checks == old(checks)
        {
          assert expected[..i + 1] == expected[..i] + [expected[i]];
          calls := calls + [Data(rid, packets[i], from)];
          from := None;
          i := i + 1;
        }
        assert expected[..i] == expected;
        DoTouch(now);
      }
    }

    method DoStart()
      requires init == NoCall && rid == 0
      modifies this`init, this`calls
      ensures View() == Start(old(View())).conn
      ensures calls == old(calls) + Start(old(View())).calls
    {
      init := SocketPending;
      calls := calls + [Socket(id)];
    }

    method OnSocketCreated(sid: int) returns (remove: bool)
      modifies this`init, this`rid, this`calls
      ensures View() == SocketCreated(old(View()), sid).conn
      ensures calls == old(calls) + SocketCreated(old(View()), sid).calls
      ensures remove == SocketCreated(old(View()), sid).remove
    {
      init := NoCall;
      remove := false;
      if sid > 0 {
        if rid != 0 {
          calls := calls + [Close(sid)];
        } else {
          rid := sid;
          calls := calls + [Connect(sid, to)];
          init := ConnectPending;
        }
      } else {
        remove := true;
      }
    }

    method OnSocketConnected(result: int, now: int) returns (remove: bool)
      modifies this`expiry, this`checks, this`q, this`calls, this`init
      ensures View() == SocketConnected(old(View()), result, now).conn
      ensures calls == old(calls) + SocketConnected(old(View()), result, now).calls
      ensures remove == SocketConnected(old(View()), result, now).remove
      ensures checks == old(checks) + if SocketConnected(old(View()), result, now).touched then 1 else 0
    {
      init := NoCall;
      remove := result != 0;
      if !remove {
        DoFlush(now);
      }
    }

    method OnAccepted(sid: Id) returns (ok: bool)
      modifies this`rid, this`flushArmed
      ensures View() == Accepted(old(View()), sid)
      ensures ok <==> sid != 0 && old(rid) == 0
    {
      if sid != 0 && rid == 0 {
        rid := sid;
        flushArmed := true;
        return true;
      }
      return false;
    }

    method OnFlushIdle(now: int)
      modifies this`expiry, this`checks, this`q, this`calls, this`flushArmed
      ensures View() == FlushIdle(old(View()), now).conn
      ensures calls == old(calls) + FlushIdle(old(View()), now).calls
      ensures checks == old(checks) + if FlushIdle(old(View()), now).touched then 1 else 0
    {
      flushArmed := false;
      DoFlush(now);
    }

    method OnReply(packet: Packet, now: int)
      modifies this`expiry, this`checks, this`written
      ensures View() == Reply(old(View()), now).conn
      ensures written == old(written) + if io then [packet] else []
      ensures checks == old(checks) + if Reply(old(View()), now).touched then 1 else 0
    {
      if io {
        DoTouch(now);
        written := written + [packet];
      }
    }

    method DoSend(packet: Packet, now: int)
      modifies this`expiry, this`checks, this`q, this`calls
      ensures View() == Send(old(View()), packet, now).conn
      ensures calls == old(calls) + Send(old(View()), packet, now).calls
      ensures checks == old(checks) + if Send(old(View()), packet, now).touched then 1 else 0
    {
      if rid != 0 {
        DoTouch(now);
        calls := calls + [Data(rid, packet, None)];
      } else if q.Some? {
        q := Some(q.value + [packet]);
      }
    }

    method OnClose() returns (remove: bool)
      modifies this`rid
      ensures View() == ClosedByRemote(old(View())).conn
      ensures remove == ClosedByRemote(old(View())).remove
    {
      remove := rid != 0;
      rid := 0;
    }

    method DoDispose()
      modifies this
      ensures View() == Dispose(old(View())).conn
      ensures calls == old(calls) + Dispose(old(View())).calls
      ensures written == old(written) && checks == old(checks)
    {
      io, attached, flushArmed := false, false, false;
      init := NoCall;
      if rid != 0 {
        calls := calls + [Close(rid)];
        rid := 0;
      }
      q := None;
    }
  }

  // ---------- Whole runs of one connection ----------

  datatype Event =
    | Arrive(packet: Packet, now: int)
    | GotAccepted(rid: Id)
    | GotFlushIdle(now: int)
    | GotSocket(created: int)
    | GotConnected(result: int, now: int)
    | GotReply(now: int)

  /** An event that cannot reach the connection (no such callback, source or
      outstanding call) does nothing. */
  function Apply(c: Conn, e: Event): Outcome {
    match e
    case Arrive(p, now) => Send(c, p, now)
    case GotAccepted(rid) => if c.local then Quiet(c) else Quiet(Accepted(c, rid))
    case GotFlushIdle(now) => if c.flushArmed then FlushIdle(c, now) else Quiet(c)
    case GotSocket(rid) => if c.init.SocketPending? then SocketCreated(c, rid) else Quiet(c)
    case GotConnected(result, now) =>
      if c.init.ConnectPending? then SocketConnected(c, result, now) else Quiet(c)
    case GotReply(now) => Reply(c, now)
  }

  /** The clock reading a callback takes, if it takes one. */
  function Moment(e: Event, clock: int): int {
    match e
    case Arrive(_, now) => now
    case GotFlushIdle(now) => now
    case GotConnected(_, now) => now
    case GotReply(now) => now
    case _ => clock
  }

  /** The connection stops taking part once it has asked to be removed. */
  function Run(c: Conn, events: seq<Event>): Outcome {
    if events == [] then Quiet(c)
    else
      var o := Run(c, Front(events));
      if o.remove then o
      else
        var s := Apply(o.conn, Last(events));
        Outcome(s.conn, o.calls + s.calls, o.touched || s.touched, s.remove)
  }

  // A local connection that has been started has its SOCKET call outstanding.
  function Begin(id: Id, addr: Addr, local: bool, started: bool, to: Addr, timeout: nat,
                 packets: seq<Packet>, now: int): Conn
  {
    var c := New(id, addr, local, to, timeout, packets, now);
    if local && started then Start(c).conn else c
  }

  // Unstarted: a local connection that was inserted while the peer was not STARTED.
  datatype Phase = Unstarted | Waiting | Linked | Flushed | Failed

  /** Who arrived when: before the counterpart was known, between then and the
      flush, and after the flush. Defined on the events alone. */
  datatype Ledger = Ledger(phase: Phase, pre: seq<Packet>, mid: seq<Packet>, post: seq<Packet>)

  function NextPhase(local: bool, phase: Phase, e: Event): Phase {
    match (phase, e)
    case (Waiting, GotAccepted(rid)) => if !local && rid != 0 then Linked else Waiting
    case (Waiting, GotSocket(rid)) =>
      if !local then Waiting else if rid > 0 then Linked else Failed
    case (Linked, GotFlushIdle(_)) => if local then Linked else Flushed
    case (Linked, GotConnected(result, _)) =>
      if !local then Linked else if result == 0 then Flushed else Failed
    case _ => phase
  }

  function Advance(local: bool, l: Ledger, e: Event): Ledger {
    if e.Arrive? then
      match l.phase
      case Unstarted => l.(pre := l.pre + [e.packet])
      case Waiting => l.(pre := l.pre + [e.packet])
      case Linked => l.(mid := l.mid + [e.packet])
      case Flushed => l.(post := l.post + [e.packet])
      case Failed => l
    else l.(phase := NextPhase(local, l.phase, e))
  }

  function Classify(local: bool, started: bool, initial: seq<Packet>, events: seq<Event>): Ledger {
    if events == [] then Ledger(if local && !started then Unstarted else Waiting, initial, [], [])
    else Advance(local, Classify(local, started, initial, Front(events)), Last(events))
  }

  function DataOf(calls: seq<Call>): seq<Call> {
    if calls == [] then []
    else DataOf(Front(calls)) + if Last(calls).Data? then [Last(calls)] else []
  }

  lemma {:induction false} DataOfConcat(a: seq<Call>, b: seq<Call>)
    ensures DataOf(a + b) == DataOf(a) + DataOf(b)
  {
    if b == [] {
      assert a + b == a;
    } else {
      DataOfConcat(a, Front(b));
      assert Front(a + b) == a + Front(b);
    }
  }

  predicate AllData(calls: seq<Call>) {
    forall call :: call in calls ==> call.Data?
  }

  lemma {:induction false} DataOfAllData(calls: seq<Call>)
    requires AllData(calls)
    ensures DataOf(calls) == calls
  {
    if calls != [] {
      var before, call := Front(calls), Last(calls);
      assert call in calls && forall x :: x in before ==> x in calls;
      assert calls == before + [call];
      DataOfAllData(before);
    }
  }

  function Plain(sid: Id, packets: seq<Packet>): seq<Call> {
    seq(|packets|, i requires 0 <= i < |packets| => Data(sid, packets[i], None))
  }

  // The source address goes with the first packet only.
  function Announced(sid: Id, packets: seq<Packet>, addr: Addr): seq<Call> {
    if packets == [] then [] else [Data(sid, packets[0], Some(addr))] + Plain(sid, packets[1..])
  }

  lemma FlushAnnounces(sid: Id, packets: seq<Packet>, addr: Addr)
    ensures FlushCalls(sid, packets, addr) == Announced(sid, packets, addr)
  {
  }

  /** The DATA calls that the ledger promises for counterpart sid. */
  function Expected(l: Ledger, sid: Id, addr: Addr): seq<Call> {
    Plain(sid, l.mid)
    + if l.phase == Flushed then Announced(sid, l.pre, addr) + Plain(sid, l.post) else []
  }

  predicate Agrees(c: Conn, l: Ledger) {
    && c.io && c.attached && (l.phase == Unstarted ==> c.local)
    && (l.phase == Unstarted || l.phase == Waiting ==>
          && c.rid == 0 && l.mid == [] && c.q == Some(l.pre) && !c.flushArmed
          && c.init == if c.local && l.phase == Waiting then SocketPending else NoCall)
    && (l.phase == Linked ==> c.rid != 0 && c.q == Some(l.pre) && c.flushArmed == !c.local
                              && c.init == if c.local then ConnectPending else NoCall)
    && (l.phase == Flushed ==> c.rid != 0 && c.q == None && !c.flushArmed && c.init == NoCall)
    && (l.phase != Flushed ==> l.post == [])
  }

  /** All that a connection that agrees with its ledger has submitted since it was started. */
  function Submitted(c: Conn, l: Ledger): seq<Call> {
    (if c.local && (l.phase == Linked || l.phase == Flushed) then [Connect(c.rid, c.to)] else [])
    + Expected(l, c.rid, c.addr)
  }

  /** What one event has to keep between the connection and its ledger. */
  predicate Follows(c: Conn, l: Ledger, e: Event, l': Ledger) {
    var s := Apply(c, e);
    && (s.remove <==> l'.phase == Failed)
    && (!s.remove ==> Agrees(s.conn, l'))
    && s.conn.local == c.local && s.conn.addr == c.addr
    && s.conn.id == c.id && s.conn.to == c.to && s.conn.timeout == c.timeout
    && Expected(l', s.conn.rid, c.addr) == Expected(l, s.conn.rid, c.addr) + DataOf(s.calls)
    && (!s.remove ==> Submitted(s.conn, l') == Submitted(c, l) + s.calls)
    && (l.phase != Waiting ==> s.conn.rid == c.rid)
  }

  lemma PlainSnoc(sid: Id, packets: seq<Packet>, packet: Packet)
    ensures Plain(sid, packets + [packet]) == Plain(sid, packets) + [Data(sid, packet, None)]
  {
  }

  // A packet that finds the counterpart known is expected last.
  lemma ArriveExpected(local: bool, l: Ledger, e: Event, sid: Id, addr: Addr)
    requires e.Arrive? && (l.phase == Linked || l.phase == Flushed) && (l.phase == Linked ==> l.post == [])
    ensures Expected(Advance(local, l, e), sid, addr) == Expected(l, sid, addr) + [Data(sid, e.packet, None)]
  {
    var mid, pre, post := Plain(sid, l.mid), Announced(sid, l.pre, addr), Plain(sid, l.post);
    var last := [Data(sid, e.packet, None)];
    PlainSnoc(sid, l.mid, e.packet);
    PlainSnoc(sid, l.post, e.packet);
    hide Plain, Announced;
    assert mid + (pre + (post + last)) == mid + (pre + post) + last;
    assert mid + last + [] == mid + [] + last;
  }

  lemma OneDataCall(call: Call)
    requires call.Data?
    ensures DataOf([call]) == [call]
  {
    DataOfAllData([call]);
  }

  lemma QueuedFollows(c: Conn, l: Ledger, e: Event)
    requires (l.phase == Unstarted || l.phase == Waiting) && Agrees(c, l) && e.Arrive?
    ensures Follows(c, l, e, Advance(c.local, l, e))
  {
    var s, l' := Apply(c, e), Advance(c.local, l, e);
    assert s.calls == [] && DataOf(s.calls) == [];
    assert Expected(l', c.rid, c.addr) == Expected(l, c.rid, c.addr);
    hide Expected, DataOf;
    assert Expected(l, c.rid, c.addr) + [] == Expected(l, c.rid, c.addr);
    SubmittedMore(c, l, s.conn, l', s.calls);
  }

  lemma ArriveFollows(c: Conn, l: Ledger, e: Event)
    requires l.phase != Failed && Agrees(c, l) && e.Arrive?
    ensures Follows(c, l, e, Advance(c.local, l, e))
  {
    hide Expected, DataOf, Plain, Announced, Submitted;
    if l.phase == Unstarted || l.phase == Waiting {
      QueuedFollows(c, l, e);
    } else {
      var s := Apply(c, e);
      assert s.calls == [Data(c.rid, e.packet, None)];
      OneDataCall(s.calls[0]);
      ArriveExpected(c.local, l, e, c.rid, c.addr);
      SubmittedMore(c, l, s.conn, Advance(c.local, l, e), s.calls);
    }
  }

  lemma FlushExpected(local: bool, l: Ledger, e: Event, sid: Id, addr: Addr)
    requires l.phase == Linked && l.post == [] && NextPhase(local, l.phase, e) == Flushed
    ensures Expected(Advance(local, l, e), sid, addr) == Expected(l, sid, addr) + Announced(sid, l.pre, addr)
  {
    assert Plain(sid, []) == [];
    hide Plain, Announced;
    var mid, pre := Plain(sid, l.mid), Announced(sid, l.pre, addr);
    assert mid + (pre + []) == mid + [] + pre;
  }

  lemma FlushSubmits(c: Conn, l: Ledger, e: Event)
    requires l.phase == Linked && Agrees(c, l) && NextPhase(c.local, l.phase, e) == Flushed
    ensures var s := Apply(c, e);
            && !s.remove && s.calls == FlushCalls(c.rid, l.pre, c.addr) && Agrees(s.conn, Advance(c.local, l, e))
            && s.conn.rid == c.rid && s.conn.local == c.local && s.conn.addr == c.addr
            && s.conn.id == c.id && s.conn.to == c.to && s.conn.timeout == c.timeout
  {
    hide FlushCalls;
  }

  lemma FlushFollows(c: Conn, l: Ledger, e: Event)
    requires l.phase == Linked && Agrees(c, l) && NextPhase(c.local, l.phase, e) == Flushed
    ensures Follows(c, l, e, Advance(c.local, l, e))
  {
    FlushSubmits(c, l, e);
    var s := Apply(c, e);
    DataOfAllData(s.calls);
    FlushAnnounces(c.rid, l.pre, c.addr);
    FlushExpected(c.local, l, e, c.rid, c.addr);
    hide Apply, FlushCalls, Announced, Expected, DataOf, Submitted, Plain;
    SubmittedMore(c, l, s.conn, Advance(c.local, l, e), s.calls);
  }

  lemma SubmittedMore(c: Conn, l: Ledger, d: Conn, l': Ledger, calls: seq<Call>)
    requires d.local == c.local && d.to == c.to && d.rid == c.rid && d.addr == c.addr
    requires l'.phase == l.phase || (l.phase == Linked && l'.phase == Flushed)
    requires Expected(l', c.rid, c.addr) == Expected(l, c.rid, c.addr) + calls
    ensures Submitted(d, l') == Submitted(c, l) + calls
  {
  }

  lemma OtherFollows(c: Conn, l: Ledger, e: Event)
    requires l.phase != Failed && Agrees(c, l) && !e.Arrive?
    requires NextPhase(c.local, l.phase, e) == Flushed ==> l.phase == Flushed
    ensures Follows(c, l, e, Advance(c.local, l, e))
  {
    var s := Apply(c, e);
    assert |s.calls| <= 1 && (s.calls != [] ==> !s.calls[0].Data?);
    if s.calls != [] {
      assert Front(s.calls) == [];
      assert s.calls == [Connect(s.conn.rid, c.to)];
    }
  }

  lemma EventFollows(c: Conn, l: Ledger, e: Event)
    requires l.phase != Failed && Agrees(c, l)
    ensures var l' := Advance(c.local, l, e);
            && Follows(c, l, e, l') && Expected(l, Apply(c, e).conn.rid, c.addr) == Expected(l, c.rid, c.addr)
            && (Agrees(Apply(c, e).conn, l') && l'.phase != Failed ==> Live(Apply(c, e).conn))
  {
    if e.Arrive? {
      ArriveFollows(c, l, e);
    } else if l.phase == Linked && NextPhase(c.local, l.phase, e) == Flushed {
      FlushFollows(c, l, e);
    } else {
      OtherFollows(c, l, e);
    }
    assert l.phase == Waiting || l.phase == Unstarted ==> l.mid == [];
    hide Apply, NextPhase, DataOf, Submitted;
  }

  /** Exact send order, over every run: the packets that found the counterpart
      known overtake the queue, the queue follows, then everything else; and the
      only call that carries the source address is the first flushed one. */
  lemma {:induction false} SendOrder(id: Id, addr: Addr, local: bool, started: bool, to: Addr, timeout: nat,
                                     packets: seq<Packet>, now: int, events: seq<Event>)
    ensures var o := Run(Begin(id, addr, local, started, to, timeout, packets, now), events);
            var l := Classify(local, started, packets, events);
            && DataOf(o.calls) == Expected(l, o.conn.rid, addr)
            && (o.remove <==> l.phase == Failed)
            && (!o.remove ==> Agrees(o.conn, l) && Live(o.conn) && o.calls == Submitted(o.conn, l))
            && o.conn.local == local && o.conn.addr == addr
            && o.conn.id == id && o.conn.to == to && o.conn.timeout == timeout
  {
    var c := Begin(id, addr, local, started, to, timeout, packets, now);
    if events != [] {
      SendOrder(id, addr, local, started, to, timeout, packets, now, Front(events));
      var o := Run(c, Front(events));
      var l := Classify(local, started, packets, Front(events));
      assert Front(events) + [Last(events)] == events;
      if !o.remove {
        EventFollows(o.conn, l, Last(events));
        DataOfConcat(o.calls, Apply(o.conn, Last(events)).calls);
        hide Run, Apply, NextPhase, Expected, Submitted, DataOf, Begin, Agrees;
      }
    }
  }
}

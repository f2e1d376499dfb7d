/** The datagram listener as an object whose callbacks update its queues, tables and
    timer in place. Each method is tied to the operation of module Listen. */
module ListenEntry {
  import opened Base
  import opened Pool
  import opened Connection
  import opened Listen
  import opened ListenPackets

  // One more pending entry has been dropped from the front of q.
  lemma DropOneMore(t: Tally, q: seq<Pending>, k: nat)
    requires k < |q|
    ensures DropPending(t, q[..k + 1]) == Add(DropPending(t, q[..k]), q[k].addr, multiset(q[k].packets))
  {
    assert Front(q[..k + 1]) == q[..k];
  }

  // The pop loop with k entries popped, and one more.
  lemma PopStep(t: Tally, q: seq<Pending>, rest: seq<Pending>, k: nat)
    requires k < |q| && rest == q[k..]
    ensures rest != [] && rest[1..] == q[k + 1..]
    ensures DropPending(t, q[..k + 1]) == Add(DropPending(t, q[..k]), rest[0].addr, multiset(rest[0].packets))
  {
    DropOneMore(t, q, k);
    hide DropPending, Add;
  }

  lemma NothingDropped(t: Tally)
    ensures DropPending(t, []) == t
  {
  }

  lemma ConnectedIs(l: Listener, from: Addr, packets: seq<Packet>, id: Id, order: seq<Addr>, now: int, at: int)
    requires CanConnect(l, from, order)
    ensures var all := l.conns[from := NewConn(l, from, packets, id, now)];
            && Enumerates(order, all)
            && var left := Evicted(all, l.limit, from, order);
               Connected(l, from, packets, id, order, now, at)
               == Arm(l, at).(conns := left, discarded := DropConns(l.discarded, all - left.Keys),
                              calls := l.calls[from := []])
  {
    SameOrder(l, from, packets, id, order, now);
    hide Arm, DropConns, Evicted;
  }

  lemma CheckedIs(l: Listener, t1: int, t2: int, t3: int)
    ensures var q, left := PopExpired(l.backlogQ, t1), Unexpired(l.conns, t2);
            Checked(l, t1, t2, t3)
            == Arm(l.(backlogQ := q, conns := left, timer := None,
                      discarded := DropConns(DropPending(l.discarded, l.backlogQ[..|l.backlogQ| - |q|]),
                                             l.conns - left.Keys)), t3)
  {
    hide Arm, DropPending, PopExpired, DropConns, Unexpired;
  }

  lemma FewerPositive(conns: Conns, now: int)
    requires Positive(conns)
    ensures Positive(Unexpired(conns, now))
  {
  }

  lemma MorePositive(l: Listener, from: Addr, packets: seq<Packet>, id: Id, now: int)
    requires Positive(l.conns) && now > 0
    ensures Positive(l.conns[from := NewConn(l, from, packets, id, now)])
  {
  }

  lemma EvictedPart(conns: Conns, limit: nat, from: Addr, order: seq<Addr>)
    requires Enumerates(order, conns)
    ensures |conns| <= limit ==> Evicted(conns, limit, from, order) == conns
    ensures Positive(conns) ==> Positive(Evicted(conns, limit, from, order))
  {
  }

  lemma UnqueueNext(q: seq<Req>, i: nat, req: Req)
    requires i < |q|
    ensures q[..i] + Unqueue(q[i..], req)
            == if q[i] == req then q[..i] + q[i + 1..] else q[..i + 1] + Unqueue(q[i + 1..], req)
  {
    assert q[i..][0] == q[i] && q[i..][1..] == q[i + 1..];
    hide Unqueue;
    assert q[..i] + [q[i]] == q[..i + 1];
    assert q[..i] + ([q[i]] + Unqueue(q[i + 1..], req)) == q[..i] + [q[i]] + Unqueue(q[i + 1..], req);
  }

  lemma PopOne(q: seq<Pending>, now: int)
    ensures PopExpired(q, now) == if q != [] && q[0].expiry <= now then PopExpired(q[1..], now) else q
  {
  }

  class DatagramListen {
    const timeout: nat
    const limit: nat
    const backlog: nat
    var conns: Conns
    var acceptQ: seq<Req>
    var backlogQ: seq<Pending>
    var timer: Timer
    var live: bool
    var answers: seq<Answer>
    var issued: Tally
    var calls: Calls
    ghost var received: Tally
    ghost var discarded: Tally

    ghost function View(): Listener
      reads this
    {
      Listener(conns, acceptQ, backlogQ, timer, timeout, limit, backlog, live, answers,
               received, issued, discarded, calls)
    }

    constructor (backlog: nat, timeout: nat, limit: nat)
      ensures View() == Listener(map[], [], [], None, if timeout == 0 then DEFAULT_TIMEOUT else timeout,
                                 if limit == 0 then DEFAULT_LIMIT else limit,
                                 if backlog == 0 then DEFAULT_BACKLOG else backlog,
                                 true, [], map[], map[], map[], map[])
    {
      this.timeout := if timeout == 0 then DEFAULT_TIMEOUT else timeout;
      this.limit := if limit == 0 then DEFAULT_LIMIT else limit;
      this.backlog := if backlog == 0 then DEFAULT_BACKLOG else backlog;
      conns, acceptQ, backlogQ, timer, live := map[], [], [], None, true;
      answers, received, issued, discarded, calls := [], map[], map[], map[], map[];
    }

    method ScheduleCheck(at: int)
      requires Positive(conns)
      modifies this`timer
      ensures View() == Arm(old(View()), at)
    {
      if timer.None? {
        var pend := if backlogQ == [] then 0 else backlogQ[0].expiry;
        var order := Iterate(conns);
        var ms := ComputeTimeoutMs(order, conns, pend, at);
        if ms >= 0 {
          timer := Some(Alarm(at, at + ms * MILLISECOND));
        }
      }
    }

    method ConnectionNew(from: Addr, packets: seq<Packet>, id: Id, order: seq<Addr>, now: int, at: int)
      requires Positive(conns) && now > 0 && limit > 0 && CanConnect(View(), from, order)
      modifies this`conns, this`timer, this`discarded, this`calls
      ensures View() == Connected(old(View()), from, packets, id, order, now, at)
      ensures Positive(conns)
    {
      hide Schedule, TimeoutMs, DropConns, Queued, Add, Arm, Connected;
      ghost var l := View();
      SameOrder(l, from, packets, id, order, now);
      var c := New(id, from, false, 0, timeout, packets, now);
      ScheduleCheck(at);
      ArmKeeps(l, at);
      ConnectedIs(l, from, packets, id, order, now, at);
      assert conns == l.conns && timer == Arm(l, at).timer;
      conns := conns[from := c];
      calls := calls[from := []];
      ghost var all := conns;
      hide NewConn, Evicted;
      MorePositive(l, from, packets, id, now);
      if |conns| > limit {
        DropOldest(from, order);
      }
      EvictedPart(all, limit, from, order);
      discarded := DropConns(discarded, all - conns.Keys);
    }

    method DropOldest(from: Addr, order: seq<Addr>)
      requires |conns| > limit && Enumerates(order, conns)
      modifies this`conns
      ensures conns == Evicted(old(conns), limit, from, order)
    {
      var oldest := FindOldest(order, conns);
      // Removing an entry that the socket table does not know does nothing.
      if oldest != from {
        conns := conns - {oldest};
      }
    }

    method Purge()
      requires backlog > 0
      modifies this`backlogQ, this`discarded
      ensures backlogQ == Purged(old(backlogQ), backlog)
      ensures discarded == DropPending(old(discarded), old(backlogQ)[..|old(backlogQ)| - |backlogQ|])
    {
      hide DropPending, Add;
      ghost var q, d := backlogQ, discarded;
      NothingDropped(d);
      while |backlogQ| >= backlog
        invariant |backlogQ| <= |q| && backlogQ == q[|q| - |backlogQ|..]
        invariant |q| >= backlog ==> |backlogQ| >= backlog - 1
        invariant |q| < backlog ==> backlogQ == q
        invariant discarded == DropPending(d, q[..|q| - |backlogQ|])
        decreases |backlogQ|
      {
        DropOneMore(d, q, |q| - |backlogQ|);
        PopHead();
      }
    }

    method PopHead()
      requires backlogQ != []
      modifies this`backlogQ, this`discarded
      ensures backlogQ == old(backlogQ)[1..]
      ensures discarded == Add(old(discarded), old(backlogQ)[0].addr, multiset(old(backlogQ)[0].packets))
    {
      discarded := Add(discarded, backlogQ[0].addr, multiset(backlogQ[0].packets));
      backlogQ := backlogQ[1..];
    }

    method Enqueue(from: Addr, packet: Packet, now: int, at: int)
      requires Positive(conns) && backlog > 0
      modifies this`backlogQ, this`discarded, this`timer
      ensures View() == Backlogged(old(View()), from, packet, now, at)
    {
      hide Schedule, TimeoutMs, DropPending, Sort, Purged;
      var expiry := now + timeout;
      Purge();
      var i := 0;
      while i < |backlogQ| && backlogQ[i].addr != from
        invariant 0 <= i <= |backlogQ|
        invariant forall k :: 0 <= k < i ==> backlogQ[k].addr != from
      {
        i := i + 1;
      }
      assert i == Find(backlogQ, from);
      if i < |backlogQ| {
        backlogQ := Sort(backlogQ[i := Pending(from, expiry, backlogQ[i].packets + [packet])]);
      } else {
        backlogQ := backlogQ + [Pending(from, expiry, [packet])];
        ScheduleCheck(at);
      }
    }

    // The result of a callback of the connection with address a.
    method Absorb(a: Addr, o: Outcome, at: int)
      requires Positive(conns) && o.conn.expiry > 0
      modifies this`conns, this`timer, this`issued, this`discarded, this`calls
      ensures View() == Settle(old(View()), a, o, at)
    {
      conns := conns[a := o.conn];
      issued := Add(issued, a, Payload(o.calls));
      calls := calls[a := CallsOf(calls, a) + o.calls];
      if o.touched {
        ScheduleCheck(at);
      }
      if o.remove {
        RemoveEntry(a);
      }
    }

    method RemoveEntry(a: Addr)
      modifies this`conns, this`discarded
      ensures View() == Without(old(View()), a)
    {
      discarded := Add(discarded, a, Queued(conns, a));
      conns := conns - {a};
    }

    // The oldest ACCEPT request gets a new connection.
    method AnswerOldest(from: Addr, packet: Packet, id: Id, order: seq<Addr>, now: int, at: int)
      requires Positive(conns) && now > 0 && limit > 0
      requires acceptQ != [] && CanConnect(View(), from, order)
      modifies this`acceptQ, this`answers, this`conns, this`timer, this`discarded, this`calls
      ensures View() == Answered(old(View()), from, packet, id, order, now, at)
    {
      hide Schedule, Connected, Enumerates;
      var req := acceptQ[0];
      acceptQ := acceptQ[1..];
      ConnectionNew(from, [packet], id, order, now, at);
      answers := answers + [Answer(req, from, id)];
      ScheduleCheck(at);
    }

    method IoReceive(from: Addr, packet: Packet, id: Id, order: seq<Addr>, now: int, at: int)
      requires Positive(conns) && now > 0 && limit > 0 && backlog > 0
      requires from !in conns && acceptQ != [] ==> CanConnect(View(), from, order)
      modifies this
      ensures View() == Received(old(View()), from, packet, id, order, now, at)
    {
      assert from in conns ==> Send(conns[from], packet, now).conn.expiry > 0;
      hide Arm, Add, Enumerates, Answered, Settle, Backlogged, Send;
      received := Add(received, from, multiset{packet});
      if from in conns {
        Absorb(from, Send(conns[from], packet, now), at);
      } else if acceptQ != [] {
        AnswerOldest(from, packet, id, order, now, at);
      } else {
        Enqueue(from, packet, now, at);
      }
    }

    method OnAccept(req: Req, id: Id, order: seq<Addr>, now: int, at: int)
      requires Positive(conns) && now > 0 && limit > 0
      requires backlogQ != [] ==> CanConnect(View(), backlogQ[0].addr, order)
      modifies this
      ensures View() == Accepting(old(View()), req, id, order, now, at)
    {
      if backlogQ != [] {
        var pc := backlogQ[0];
        backlogQ := backlogQ[1..];
        ConnectionNew(pc.addr, pc.packets, id, order, now, at);
        answers := answers + [Answer(req, pc.addr, id)];
      } else {
        acceptQ := acceptQ + [req];
      }
    }

    method OnCancelled(req: Req)
      modifies this`acceptQ
      ensures View() == Cancelled(old(View()), req)
    {
      ghost var q := acceptQ;
      var i := 0;
      while i < |acceptQ|
        invariant 0 <= i <= |acceptQ| && acceptQ == q
        invariant Unqueue(q, req) == q[..i] + Unqueue(q[i..], req)
      {
        hide Unqueue;
        UnqueueNext(q, i, req);
        if acceptQ[i] == req {
          acceptQ := acceptQ[..i] + acceptQ[i + 1..];
          return;
        }
        i := i + 1;
      }
      assert q[i..] == [] && q[..i] == q;
    }

    method InactivityCheck(t1: int, t2: int, t3: int)
      requires Positive(conns)
      modifies this
      ensures View() == Checked(old(View()), t1, t2, t3)
    {
      CheckedIs(View(), t1, t2, t3);
      hide Arm, Checked, DropPending, PopExpired, DropConns, Unexpired;
      timer := None;
      DropExpiredPending(t1);
      FewerPositive(conns, t2);
      DropExpiredConns(t2);
      ScheduleCheck(t3);
    }

    method DropExpiredConns(now: int)
      modifies this`conns, this`discarded
      ensures conns == Unexpired(old(conns), now)
      ensures discarded == DropConns(old(discarded), old(conns) - conns.Keys)
    {
      ghost var all := conns;
      var order := Iterate(conns);
      var expired := CollectExpired(order, conns, now);
      var i := 0;
      while i < |expired|
        invariant 0 <= i <= |expired|
        invariant conns.Keys == all.Keys - (set a | a in expired[..i])
        invariant forall a :: a in conns ==> conns[a] == all[a]
        invariant discarded == old(discarded)
      {
        conns := conns - {expired[i]};
        i := i + 1;
      }
      assert expired[..i] == expired;
      discarded := DropConns(discarded, all - conns.Keys);
    }

    method DropExpiredPending(now: int)
      modifies this`backlogQ, this`discarded
      ensures backlogQ == PopExpired(old(backlogQ), now)
      ensures discarded == DropPending(old(discarded), old(backlogQ)[..|old(backlogQ)| - |backlogQ|])
    {
      hide PopExpired, DropPending, Add;
      ghost var q, d, k := backlogQ, discarded, 0;
      NothingDropped(d);
      assert q[..0] == [];
      while backlogQ != [] && backlogQ[0].expiry <= now
        invariant 0 <= k <= |q| && backlogQ == q[k..] && discarded == DropPending(d, q[..k])
        invariant PopExpired(q, now) == PopExpired(backlogQ, now)
        decreases |backlogQ|
      {
        PopStep(d, q, backlogQ, k);
        PopOne(backlogQ, now);
        PopHead();
        k := k + 1;
      }
      PopOne(backlogQ, now);
    }

    method DoDispose()
      modifies this
      ensures View() == Disposed(old(View()))
    {
      timer := None;
      acceptQ := [];
      discarded := DropPending(discarded, backlogQ);
      backlogQ := [];
      discarded := DropConns(discarded, conns);
      conns := map[];
      live := false;
    }
  }
}

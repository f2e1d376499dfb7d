/** The connections of a local forwarder, each from the events of the run: what it was made
    with, what it has submitted and still holds, when it was active last, and when it goes. */
module LocalTraces {
  import opened Base
  import opened Pool
  import opened Lives
  import opened ForwardLocal
  import Connection

  // ---------- Lives ----------

  function More(x: Option<Life>, e: Connection.Event): Option<Life> {
    if x.Some? then Some(Grown(x.value, e)) else None
  }

  /** What an event is for the connection of address a; x: its life so far. */
  ghost function LifeAfter(to: Addr, timeout: nat, r: Run, e: Event, x: Option<Life>, a: Addr): Option<Life> {
    if !Enabled(r, e) then x
    else match e
      case Receive(from, packet, id, started, _, now, _) =>
        if from != a then x
        else if a in r.f.conns then More(x, Connection.Arrive(packet, now))
        else Some(Life(id, true, started, to, timeout, [packet], now, []))
      case Callback(b, ce, _) => if b == a then More(x, ce) else x
      case _ => x
  }

  /** The life of the connection that was last made for address a. */
  ghost function LifeOf(to: Addr, timeout: nat, limit: nat, start: int, events: seq<Event>, a: Addr): Option<Life> {
    if events == [] then None
    else
      LifeAfter(to, timeout, Runs(to, timeout, limit, start, Front(events)), Last(events),
                LifeOf(to, timeout, limit, start, Front(events), a), a)
  }

  predicate ActsOn(x: Option<Life>, e: Connection.Event) {
    x.Some? && Acts(true, LedgerOf(x.value).phase, e)
  }

  ghost function IdleAfter(r: Run, e: Event, x: Option<Life>, n: nat, a: Addr): nat {
    if !Enabled(r, e) then n
    else match e
      case Receive(from, packet, _, _, _, now, _) =>
        if from == a && (a !in r.f.conns || ActsOn(x, Connection.Arrive(packet, now))) then 0 else n
      case Callback(b, ce, _) => if b == a && ActsOn(x, ce) then 0 else n
      case Fire(_, _) => n + 1
      case _ => n
  }

  /** The checks since the connection of address a was made or active last. */
  ghost function IdleChecks(to: Addr, timeout: nat, limit: nat, start: int, events: seq<Event>, a: Addr): nat {
    if events == [] then 0
    else
      IdleAfter(Runs(to, timeout, limit, start, Front(events)), Last(events),
                LifeOf(to, timeout, limit, start, Front(events), a),
                IdleChecks(to, timeout, limit, start, Front(events), a), a)
  }

  // ---------- One step ----------

  ghost predicate Traced(to: Addr, timeout: nat, r: Run, x: Option<Life>, n: nat, a: Addr) {
    a in r.f.conns ==>
      && x.Some? && x.value.local && x.value.to == to && x.value.timeout == timeout
      && Leads(x.value, a, r.f.conns[a], CallsOf(r.f.calls, a))
      && a in r.past && r.past[a] == Past(WasActive(x.value), n)
  }

  lemma GrownActive(x: Life, e: Connection.Event)
    ensures LedgerOf(Grown(x, e)) == Connection.Advance(x.local, LedgerOf(x), e)
    ensures WasActive(Grown(x, e)) == (Acts(x.local, LedgerOf(x).phase, e) || WasActive(x))
    ensures LastActive(Grown(x, e)) == if Acts(x.local, LedgerOf(x).phase, e) then Connection.Moment(e, x.born) else LastActive(x)
  {
    assert Before(Grown(x, e)) == x;
  }

  // A callback of the connection of address a.
  lemma EventTraced(to: Addr, timeout: nat, r: Run, x: Option<Life>, n: nat, a: Addr, e: Connection.Event, at: int)
    requires Traced(to, timeout, r, x, n, a) && a in r.f.conns
    ensures Traced(to, timeout, Called(r, a, Connection.Apply(r.f.conns[a], e), at), More(x, e),
                   if ActsOn(x, e) then 0 else n, a)
  {
    var c, o := r.f.conns[a], Connection.Apply(r.f.conns[a], e);
    Lived(x.value, a, c, CallsOf(r.f.calls, a));
    EventTouches(c, LedgerOf(x.value), e, 0);
    GrownActive(x.value, e);
    hide Connection.Apply, Leads, LedgerOf, Acts, LastActive, WasActive, Connection.Agrees, Connection.Submitted, Schedule;
    if !o.remove {
      Grows(x.value, a, c, CallsOf(r.f.calls, a), e);
    }
  }

  // A callback of another connection.
  lemma OtherTraced(to: Addr, timeout: nat, r: Run, x: Option<Life>, n: nat, a: Addr, b: Addr,
                    o: Connection.Outcome, at: int)
    requires Traced(to, timeout, r, x, n, a) && b != a
    ensures Traced(to, timeout, Called(r, b, o, at), x, n, a)
  {
    hide Leads, WasActive, Schedule;
  }

  lemma InsertTraced(to: Addr, timeout: nat, r: Run, x: Option<Life>, n: nat, a: Addr, id: Id, from: Addr,
                     packet: Packet, started: bool, order: seq<Addr>, now: int, at: int)
    requires Traced(to, timeout, r, x, n, a) && Enumerates(order, r.f.conns) && from !in r.f.conns
    requires r.f.to == to && r.f.timeout == timeout
    ensures var y := Life(id, true, started, to, timeout, [packet], now, []);
            Traced(to, timeout, Joined(r, Inserted(r.f, id, from, packet, started, order, now, at), from, at),
                   if from == a then Some(y) else x, if from == a then 0 else n, a)
  {
    var y := Life(id, true, started, to, timeout, [packet], now, []);
    RoomIsPart(r.f, order);
    Born(y, a);
    hide Leads, Room, Schedule;
    if from == a {
      assert !WasActive(y);
      assert Newborn(y, a) == Newcomer(r.f, id, from, packet, started, now);
      assert Opening(y) == Joining(r.f, id, from, packet, started, now).calls;
    }
  }

  lemma RoomIsPart(f: Forwarder, order: seq<Addr>)
    requires Enumerates(order, f.conns)
    ensures forall b :: b in Room(f, order) ==> b in f.conns && Room(f, order)[b] == f.conns[b]
  {
  }

  lemma StepTraced(to: Addr, timeout: nat, r: Run, e: Event, x: Option<Life>, n: nat, a: Addr)
    requires Traced(to, timeout, r, x, n, a) && r.f.to == to && r.f.timeout == timeout
    ensures Traced(to, timeout, Next(r, e), LifeAfter(to, timeout, r, e, x, a), IdleAfter(r, e, x, n, a), a)
  {
    if Enabled(r, e) {
      match e
      case Receive(from, packet, id, started, order, now, at) =>
        if from in r.f.conns {
          assert Connection.Send(r.f.conns[from], packet, now)
              == Connection.Apply(r.f.conns[from], Connection.Arrive(packet, now));
          hide Connection.Apply, Connection.Send, Traced, Settle;
          if from == a {
            EventTraced(to, timeout, r, x, n, a, Connection.Arrive(packet, now), at);
          } else {
            OtherTraced(to, timeout, r, x, n, a, from, Connection.Send(r.f.conns[from], packet, now), at);
          }
        } else {
          InsertTraced(to, timeout, r, x, n, a, id, from, packet, started, order, now, at);
          hide Inserted, Traced;
        }
      case Callback(b, ce, at) =>
        hide Connection.Apply, Traced, Settle;
        if b == a {
          EventTraced(to, timeout, r, x, n, a, ce, at);
        } else {
          OtherTraced(to, timeout, r, x, n, a, b, Connection.Apply(r.f.conns[b], ce), at);
        }
      case _ => hide Leads, WasActive, Schedule;
    }
  }

  lemma {:induction false} RunTraced(to: Addr, timeout: nat, limit: nat, start: int, events: seq<Event>, a: Addr)
    ensures Traced(to, timeout, Runs(to, timeout, limit, start, events), LifeOf(to, timeout, limit, start, events, a),
                   IdleChecks(to, timeout, limit, start, events, a), a)
  {
    if events != [] {
      RunTraced(to, timeout, limit, start, Front(events), a);
      RunsKeepParameters(to, timeout, limit, start, Front(events));
      hide Traced, Next, LifeAfter, IdleAfter;
      StepTraced(to, timeout, Runs(to, timeout, limit, start, Front(events)), Last(events),
                 LifeOf(to, timeout, limit, start, Front(events), a),
                 IdleChecks(to, timeout, limit, start, Front(events), a), a);
    }
  }

  // ---------- The results ----------

  /** Over every run, for every connection: it is for the forwarder's destination; it has
      submitted its SOCKET call if and only if the peer was STARTED when it was made, its
      CONNECT once it knew its counterpart, and, in the exact order, DATA for the datagrams
      received from its address since it was made, the first one included; it queues the
      others; and it expires a timeout after it was made or active last. */
  lemma SendersKeepOrder(to: Addr, timeout: nat, limit: nat, start: int, events: seq<Event>, a: Addr)
    requires a in Runs(to, timeout, limit, start, events).f.conns
    ensures LifeOf(to, timeout, limit, start, events, a).Some?
    ensures var x := LifeOf(to, timeout, limit, start, events, a).value;
            var r, l := Runs(to, timeout, limit, start, events), LedgerOf(x);
            var c := r.f.conns[a];
            && CallsOf(r.f.calls, a)
               == (if x.started then [Connection.Socket(x.id)] else [])
                  + (if l.phase == Connection.Linked || l.phase == Connection.Flushed
                     then [Connection.Connect(c.rid, to)] else [])
                  + Connection.Expected(l, c.rid, a)
            && c.q == (if l.phase == Connection.Flushed then None else Some(l.pre))
            && c.local && c.id == x.id && c.addr == a && c.to == to
            && c.expiry == LastActive(x) + timeout
            && a in r.past && r.past[a] == Past(WasActive(x), IdleChecks(to, timeout, limit, start, events, a))
  {
    var r := Runs(to, timeout, limit, start, events);
    RunTraced(to, timeout, limit, start, events, a);
    var x := LifeOf(to, timeout, limit, start, events, a).value;
    Lived(x, a, r.f.conns[a], CallsOf(r.f.calls, a));
    SubmittedIs(x, r.f.conns[a]);
    hide Runs, LifeOf, IdleChecks, LedgerOf, LastActive, WasActive, Leads, Connection.Expected, Connection.Submitted;
  }

  lemma SubmittedIs(x: Life, c: Connection.Conn)
    requires x.local && c.local
    ensures var l := LedgerOf(x);
            Opening(x) + Connection.Submitted(c, l)
            == (if x.started then [Connection.Socket(x.id)] else [])
               + (if l.phase == Connection.Linked || l.phase == Connection.Flushed
                  then [Connection.Connect(c.rid, c.to)] else [])
               + Connection.Expected(l, c.rid, c.addr)
  {
    hide LedgerOf, Connection.Expected;
  }

  /** Whether the connection of address a, with this life, outlives the event. */
  ghost predicate Outlives(r: Run, e: Event, x: Life, a: Addr)
    requires Enabled(r, e)
  {
    match e
    case Receive(from, _, _, _, order, _, _) =>
      from in r.f.conns || |r.f.conns| < r.f.limit || !FirstMinimum(order, r.f.conns, a)
    case Callback(b, ce, _) => b == a ==> LedgerOf(Grown(x, ce)).phase != Connection.Failed
    case Gone(b) => b != a
    case Fire(now, _) => LastActive(x) + x.timeout >= now + MILLISECOND
    case Dispose => false
  }

  /** A connection goes exactly when a newcomer needs its place, its counterpart cannot be
      had, it is removed, or a check finds it idle for all but a millisecond of the timeout. */
  lemma GoesExactly(to: Addr, timeout: nat, limit: nat, start: int, events: seq<Event>, e: Event, a: Addr)
    requires a in Runs(to, timeout, limit, start, events).f.conns
    requires Enabled(Runs(to, timeout, limit, start, events), e)
    ensures LifeOf(to, timeout, limit, start, events, a).Some?
    ensures a in Next(Runs(to, timeout, limit, start, events), e).f.conns
            <==> Outlives(Runs(to, timeout, limit, start, events), e, LifeOf(to, timeout, limit, start, events, a).value, a)
  {
    var r := Runs(to, timeout, limit, start, events);
    RunTraced(to, timeout, limit, start, events, a);
    var x := LifeOf(to, timeout, limit, start, events, a).value;
    hide *;
    TracedParts(to, timeout, r, Some(x), IdleChecks(to, timeout, limit, start, events, a), a);
    StepOutlives(r, e, x, a);
  }

  lemma TracedParts(to: Addr, timeout: nat, r: Run, x: Option<Life>, n: nat, a: Addr)
    requires Traced(to, timeout, r, x, n, a) && a in r.f.conns
    ensures x.Some? && Leads(x.value, a, r.f.conns[a], CallsOf(r.f.calls, a))
  {
    hide Leads;
  }

  lemma StepOutlives(r: Run, e: Event, x: Life, a: Addr)
    requires a in r.f.conns && Enabled(r, e) && Leads(x, a, r.f.conns[a], CallsOf(r.f.calls, a))
    ensures a in Next(r, e).f.conns <==> Outlives(r, e, x, a)
  {
    hide *;
    match e
    case Receive(from, packet, id, started, order, now, at) =>
      if from !in r.f.conns {
        NextInserts(r, from, packet, id, started, order, now, at);
        VictimGoes(r.f, id, from, packet, started, order, now, at, a);
        OutlivesNewcomer(r, e, x, a);
      } else {
        KnownOutlives(r, e, x, a);
      }
    case Callback(_, _, _) => CallbackOutlives(r, e, x, a);
    case _ =>
      Lived(x, a, r.f.conns[a], CallsOf(r.f.calls, a));
      OtherOutlives(r, e, x, a);
  }

  lemma KnownOutlives(r: Run, e: Event, x: Life, a: Addr)
    requires a in r.f.conns && Enabled(r, e) && e.Receive? && e.from in r.f.conns
    ensures a in Next(r, e).f.conns && Outlives(r, e, x, a)
  {
    assert !Connection.Send(r.f.conns[e.from], e.packet, e.now).remove;
    hide Connection.Send, LedgerOf, Schedule;
  }

  lemma CallbackOutlives(r: Run, e: Event, x: Life, a: Addr)
    requires a in r.f.conns && Enabled(r, e) && e.Callback? && Leads(x, a, r.f.conns[a], CallsOf(r.f.calls, a))
    ensures a in Next(r, e).f.conns <==> Outlives(r, e, x, a)
  {
    assert a in Next(r, e).f.conns <==> !(e.a == a && Connection.Apply(r.f.conns[a], e.e).remove) by {
      hide Connection.Apply, Schedule;
    }
    if e.a == a {
      RemovedAsFailed(x, a, r.f.conns[a], CallsOf(r.f.calls, a), e.e);
    }
    hide Next, Connection.Apply, LedgerOf, Leads, Enabled;
  }

  lemma RemovedAsFailed(x: Life, a: Addr, c: Connection.Conn, calls: seq<Connection.Call>, e: Connection.Event)
    requires Leads(x, a, c, calls)
    ensures Connection.Apply(c, e).remove <==> LedgerOf(Grown(x, e)).phase == Connection.Failed
  {
    Ordered(Grown(x, e), a);
    assert Front(x.events + [e]) == x.events;
    hide Connection.Apply, Connection.Agrees, Connection.Submitted, LedgerOf;
  }

  lemma OtherOutlives(r: Run, e: Event, x: Life, a: Addr)
    requires a in r.f.conns && Enabled(r, e) && (e.Gone? || e.Fire? || e.Dispose?)
    requires r.f.conns[a].expiry == LastActive(x) + x.timeout
    ensures a in Next(r, e).f.conns <==> Outlives(r, e, x, a)
  {
    hide LedgerOf, LastActive, Schedule;
  }

  lemma OutlivesNewcomer(r: Run, e: Event, x: Life, a: Addr)
    requires e.Receive? && e.from !in r.f.conns && Enabled(r, e)
    ensures Enumerates(e.order, r.f.conns)
    ensures Outlives(r, e, x, a) <==> |r.f.conns| < r.f.limit || !FirstMinimum(e.order, r.f.conns, a)
  {
  }

  lemma VictimGoes(f: Forwarder, id: Id, from: Addr, packet: Packet, started: bool, order: seq<Addr>, now: int, at: int,
                   a: Addr)
    requires Enumerates(order, f.conns) && a in f.conns && from !in f.conns
    ensures a in Inserted(f, id, from, packet, started, order, now, at).conns
            <==> |f.conns| < f.limit || !FirstMinimum(order, f.conns, a)
  {
    NonEmptyOrder(order, f.conns);
    if FirstMinimum(order, f.conns, a) {
      FirstMinimumIsUnique(order, f.conns, a, Oldest(order, f.conns));
    }
    hide FirstMinimum, Schedule, Joining;
  }

  lemma NextInserts(r: Run, from: Addr, packet: Packet, id: Id, started: bool, order: seq<Addr>, now: int, at: int)
    requires Enabled(r, Receive(from, packet, id, started, order, now, at)) && from !in r.f.conns
    ensures Enumerates(order, r.f.conns)
    ensures Next(r, Receive(from, packet, id, started, order, now, at)).f
            == Inserted(r.f, id, from, packet, started, order, now, at)
  {
    hide Inserted;
  }

  predicate Ended(events: seq<Event>) {
    events != [] && (Ended(Front(events)) || Last(events).Dispose?)
  }

  /** Only disposal ends it, and nothing is left then: neither a connection nor a timer. */
  lemma {:induction false} NothingAfterDisposal(to: Addr, timeout: nat, limit: nat, start: int, events: seq<Event>)
    ensures var f := Runs(to, timeout, limit, start, events).f;
            f.live == !Ended(events) && (Ended(events) ==> f.conns == map[] && f.timer == None)
  {
    if events != [] {
      NothingAfterDisposal(to, timeout, limit, start, Front(events));
      RunIs(to, timeout, limit, start, events);
      LiveStays(Runs(to, timeout, limit, start, Front(events)), Last(events));
      hide Runs, Next;
    }
  }

  lemma RunIs(to: Addr, timeout: nat, limit: nat, start: int, events: seq<Event>)
    requires events != []
    ensures Runs(to, timeout, limit, start, events) == Next(Runs(to, timeout, limit, start, Front(events)), Last(events))
  {
    hide Next;
  }

  lemma LiveStays(r: Run, e: Event)
    ensures !r.f.live ==> Next(r, e) == r
    ensures Next(r, e).f.live == (r.f.live && !e.Dispose?)
    ensures r.f.live && e.Dispose? ==> Next(r, e).f.conns == map[] && Next(r, e).f.timer == None
  {
    hide Schedule, Room, Joining, Unexpired, Connection.Apply, Connection.Send;
  }
}

/** The local datagram forwarder: one connection per sender, at most limit of them, and
    one inactivity timer. That a removed entry leaves exactly the two maps it is in is
    proved in module Peer; here the address map stands for both. */
module ForwardLocal {
  import opened Base
  import opened Pool
  import Connection

  datatype Forwarder = Forwarder(conns: Conns, timer: Timer, to: Addr, timeout: nat, limit: nat, live: bool,
                                 calls: Calls)

  datatype Event =
    | Receive(from: Addr, packet: Packet, id: Id, started: bool, order: seq<Addr>, now: int, at: int)
    | Callback(a: Addr, e: Connection.Event, at: int)
    | Gone(a: Addr)
    | Fire(now: int, at: int)
    | Dispose

  function Fresh(f: Forwarder, id: Id, from: Addr, packet: Packet, now: int): Connection.Conn {
    Connection.New(id, from, true, f.to, f.timeout, [packet], now)
  }

  // Inserting the connection starts it while the peer is STARTED.
  function Joining(f: Forwarder, id: Id, from: Addr, packet: Packet, started: bool, now: int): Connection.Outcome {
    var c := Fresh(f, id, from, packet, now);
    if started then Connection.Start(c) else Connection.Quiet(c)
  }

  function Newcomer(f: Forwarder, id: Id, from: Addr, packet: Packet, started: bool, now: int): Connection.Conn {
    Joining(f, id, from, packet, started, now).conn
  }

  // The constructor touches the connection before it is inserted.
  ghost function Constructed(f: Forwarder, at: int): Forwarder {
    f.(timer := Schedule(f.timer, f.conns, 0, at))
  }

  ghost function Room(f: Forwarder, order: seq<Addr>): Conns
    requires Enumerates(order, f.conns)
  {
    NonEmptyOrder(order, f.conns);
    if |f.conns| >= f.limit && order != [] then f.conns - {Oldest(order, f.conns)} else f.conns
  }

  ghost function Inserted(f: Forwarder, id: Id, from: Addr, packet: Packet, started: bool, order: seq<Addr>,
                          now: int, at: int): Forwarder
    requires Enumerates(order, f.conns)
  {
    var o := Joining(f, id, from, packet, started, now);
    Constructed(f, at).(conns := Room(f, order)[from := o.conn], calls := f.calls[from := o.calls])
  }

  ghost function Settle(f: Forwarder, a: Addr, o: Connection.Outcome, at: int): Forwarder {
    var g := f.(conns := f.conns[a := o.conn], calls := f.calls[a := CallsOf(f.calls, a) + o.calls]);
    var t := if o.touched then g.(timer := Schedule(f.timer, g.conns, 0, at)) else g;
    if o.remove then t.(conns := t.conns - {a}) else t
  }

  ghost function Fired(f: Forwarder, now: int, at: int): Forwarder {
    var left := Unexpired(f.conns, now);
    f.(conns := left, timer := Schedule(None, left, 0, at))
  }

  ghost function Disposed(f: Forwarder): Forwarder {
    f.(conns := map[], timer := None, live := false)
  }

  class DatagramForwardLocal {
    const to: Addr
    const timeout: nat
    const limit: nat
    var conns: Conns
    var timer: Timer
    var live: bool
    var calls: Calls

    ghost function View(): Forwarder
      reads this
    {
      Forwarder(conns, timer, to, timeout, limit, live, calls)
    }

    constructor (to: Addr, timeoutMs: nat, limit: nat)
      ensures View() == Forwarder(map[], None, to, if timeoutMs == 0 then DEFAULT_TIMEOUT else timeoutMs * MILLISECOND,
                                  if limit == 0 then DEFAULT_LIMIT else limit, true, map[])
    {
      this.to := to;
      timeout := if timeoutMs == 0 then DEFAULT_TIMEOUT else timeoutMs * MILLISECOND;
      this.limit := if limit == 0 then DEFAULT_LIMIT else limit;
      conns, timer, live, calls := map[], None, true, map[];
    }

    method ScheduleCheck(at: int)
      requires Positive(conns)
      modifies this`timer
      ensures timer == Schedule(old(timer), conns, 0, at)
    {
      if timer.None? {
        var order := Iterate(conns);
        var ms := ComputeTimeoutMs(order, conns, 0, at);
        if ms >= 0 {
          timer := Some(Alarm(at, at + ms * MILLISECOND));
        }
      }
    }

    // The result of a callback of the connection with address a.
    method Absorb(a: Addr, o: Connection.Outcome, at: int)
      requires Positive(conns) && o.conn.expiry > 0
      modifies this`conns, this`timer, this`calls
      ensures View() == Settle(old(View()), a, o, at)
    {
      conns := conns[a := o.conn];
      calls := calls[a := CallsOf(calls, a) + o.calls];
      if o.touched {
        ScheduleCheck(at);
      }
      if o.remove {
        conns := conns - {a};
      }
    }

    method IoReceive(from: Addr, packet: Packet, id: Id, started: bool, order: seq<Addr>, now: int, at: int)
      requires Positive(conns) && Enumerates(order, conns) && now > 0 && limit > 0
      modifies this`conns, this`timer, this`calls
      ensures from in old(conns) ==>
                View() == Settle(old(View()), from, Connection.Send(old(conns)[from], packet, now), at)
      ensures from !in old(conns) ==>
                View() == Inserted(old(View()), id, from, packet, started, order, now, at)
    {
      if from in conns {
        Absorb(from, Connection.Send(conns[from], packet, now), at);
      } else {
        var c := Connection.New(id, from, true, to, timeout, [packet], now);
        ScheduleCheck(at);
        NonEmptyOrder(order, conns);
        if |conns| >= limit {
          var oldest := FindOldest(order, conns);
          conns := conns - {oldest};
        }
        // Inserting the connection starts it.
        var o := if started then Connection.Start(c) else Connection.Quiet(c);
        conns := conns[from := o.conn];
        calls := calls[from := o.calls];
      }
    }

    method InactivityCheck(now: int, at: int)
      requires Positive(conns)
      modifies this`conns, this`timer
      ensures View() == Fired(old(View()), now, at)
    {
      timer := None;
      var order := Iterate(conns);
      var expired := CollectExpired(order, conns, now);
      var i := 0;
      while i < |expired|
        invariant 0 <= i <= |expired|
        invariant conns.Keys == old(conns).Keys - (set a | a in expired[..i])
        invariant forall a :: a in conns ==> conns[a] == old(conns)[a]
        invariant timer == None
      {
        conns := conns - {expired[i]};
        i := i + 1;
      }
      assert expired[..i] == expired;
      assert conns == Unexpired(old(conns), now);
      ScheduleCheck(at);
    }

    method DoDispose()
      modifies this`conns, this`timer, this`live
      ensures View() == Disposed(old(View()))
    {
      timer := None;
      conns := map[];
      live := false;
    }
  }

  // ---------- Whole runs ----------

  /** What a connection has been through since it was inserted: whether it has been
      touched, and how many checks it has survived since its last activity. */
  datatype Past = Past(touched: bool, checks: nat)

  /** single: so far every check has used one clock reading. */
  datatype Run = Run(f: Forwarder, clock: int, past: map<Addr, Past>, single: bool)

  /** The clock never runs backwards, the timer never goes off early, and there is
      nothing after disposal. */
  ghost predicate Enabled(r: Run, e: Event) {
    r.f.live && match e
    case Receive(_, _, _, _, order, now, at) => Enumerates(order, r.f.conns) && r.clock <= now <= at
    case Callback(a, ce, at) => a in r.f.conns && !ce.Arrive? && r.clock <= Connection.Moment(ce, r.clock) <= at
    case Gone(a) => true
    case Fire(now, at) => r.f.timer.Some? && r.f.timer.value.due <= now && r.clock <= now <= at
    case Dispose => true
  }

  function Active(past: map<Addr, Past>, a: Addr, o: Connection.Outcome): map<Addr, Past> {
    var p := if o.touched then past[a := Past(true, 0)] else past;
    if o.remove then p - {a} else p
  }

  ghost function Next(r: Run, e: Event): Run {
    if !Enabled(r, e) then r
    else match e
      case Receive(from, packet, id, started, order, now, at) =>
        if from in r.f.conns then
          var o := Connection.Send(r.f.conns[from], packet, now);
          Run(Settle(r.f, from, o, at), at, Active(r.past, from, o), r.single)
        else
          var g := Inserted(r.f, id, from, packet, started, order, now, at);
          Run(g, at, (map a | a in r.past && a in g.conns :: r.past[a])[from := Past(false, 0)], r.single)
      case Callback(a, ce, at) =>
        var o := Connection.Apply(r.f.conns[a], ce);
        Run(Settle(r.f, a, o, at), at, Active(r.past, a, o), r.single)
      case Gone(a) => r.(f := r.f.(conns := r.f.conns - {a}), past := r.past - {a})
      case Fire(now, at) =>
        var g := Fired(r.f, now, at);
        Run(g, at, map a | a in r.past && a in g.conns :: r.past[a].(checks := r.past[a].checks + 1),
            r.single && now == at)
      case Dispose => r.(f := Disposed(r.f), past := map[])
  }

  ghost predicate Uniform(f: Forwarder) {
    forall a :: a in f.conns ==> f.conns[a].timeout == f.timeout && f.conns[a].attached && f.conns[a].addr == a
  }

  ghost predicate TimerKept(r: Run) {
    && r.past.Keys == r.f.conns.Keys
    && (forall a :: a in r.past ==> r.past[a].touched ==> r.f.timer.Some?)
  }

  // The alarm moves a millisecond further with every check an idle connection survives.
  ghost predicate Progress(r: Run) {
    r.past.Keys == r.f.conns.Keys &&
    (r.single ==> forall a :: a in r.past ==>
      && r.past[a].checks * MILLISECOND <= r.f.timeout
      && (r.past[a].checks > 0 ==>
            && r.f.timer.Some?
            && r.f.timer.value.due >= r.f.conns[a].expiry - r.f.timeout + r.past[a].checks * MILLISECOND))
  }

  ghost predicate Timed(r: Run) {
    && r.clock > 0
    && Young(r.f.conns, r.clock, r.f.timeout) && Covers(r.f.timer, r.f.conns, r.clock, r.f.timeout)
  }

  ghost predicate WithinLimit(f: Forwarder) {
    f.limit > 0 && |f.conns| <= f.limit
  }

  ghost predicate Good(r: Run) {
    WithinLimit(r.f) && Uniform(r.f) && Timed(r) && TimerKept(r) && Progress(r)
  }

  // A callback of the connection with address a, whose result is o.
  ghost predicate Callbacks(r: Run, a: Addr, o: Connection.Outcome, now: int, at: int) {
    && a in r.f.conns && r.clock <= now <= at
    && o.conn.timeout == r.f.timeout && o.conn.attached && o.conn.addr == a
    && o.conn.expiry == if o.touched then now + r.f.timeout else r.f.conns[a].expiry
  }

  ghost function Called(r: Run, a: Addr, o: Connection.Outcome, at: int): Run {
    Run(Settle(r.f, a, o, at), at, Active(r.past, a, o), r.single)
  }

  lemma CallbackLimit(f: Forwarder, a: Addr, o: Connection.Outcome, at: int)
    requires WithinLimit(f) && a in f.conns
    ensures WithinLimit(Settle(f, a, o, at))
  {
    SizeInsert(f.conns, a, o.conn);
    SizeRemove(f.conns[a := o.conn], a);
  }

  lemma CallbackTimed(r: Run, a: Addr, o: Connection.Outcome, now: int, at: int)
    requires Timed(r) && Callbacks(r, a, o, now, at)
    ensures Timed(Called(r, a, o, at))
  {
    var f, m := r.f, r.f.conns[a := o.conn];
    RefreshCovers(f.timer, f.conns, a, o.conn, r.clock, at, f.timeout);
    var g := Settle(f, a, o, at);
    hide Young, Covers;
    if o.touched {
      ScheduleCovers(f.timer, m, 0, at, f.timeout);
    }
    FewerCovered(g.timer, m, g.conns, at, at, f.timeout);
  }

  lemma CallbackKept(r: Run, a: Addr, o: Connection.Outcome, now: int, at: int)
    requires Timed(r) && TimerKept(r) && Progress(r) && Callbacks(r, a, o, now, at)
    ensures TimerKept(Called(r, a, o, at)) && Progress(Called(r, a, o, at))
  {
    var m := r.f.conns[a := o.conn];
    if o.touched {
      RefreshCovers(r.f.timer, r.f.conns, a, o.conn, r.clock, at, r.f.timeout);
      ScheduleCovers(r.f.timer, m, 0, at, r.f.timeout);
    }
  }

  lemma CallbackGood(r: Run, a: Addr, o: Connection.Outcome, now: int, at: int)
    requires Good(r) && Callbacks(r, a, o, now, at)
    ensures Good(Called(r, a, o, at))
  {
    hide WithinLimit, Timed, TimerKept, Progress, Young, Covers, Schedule;
    CallbackLimit(r.f, a, o, at);
    CallbackTimed(r, a, o, now, at);
    CallbackKept(r, a, o, now, at);
  }

  // ---------- A new connection ----------

  ghost function Joined(r: Run, g: Forwarder, from: Addr, at: int): Run {
    Run(g, at, (map a | a in r.past && a in g.conns :: r.past[a])[from := Past(false, 0)], r.single)
  }

  lemma RoomMade(f: Forwarder, order: seq<Addr>)
    requires WithinLimit(f) && Enumerates(order, f.conns)
    ensures |Room(f, order)| < f.limit && |Room(f, order)| >= |f.conns| - 1
    ensures forall a :: a in Room(f, order) ==> a in f.conns && Room(f, order)[a] == f.conns[a]
  {
    NonEmptyOrder(order, f.conns);
    if order != [] {
      SizeRemove(f.conns, Oldest(order, f.conns));
    }
  }

  lemma InsertLimit(f: Forwarder, id: Id, from: Addr, packet: Packet, started: bool, order: seq<Addr>, now: int, at: int)
    requires WithinLimit(f) && Enumerates(order, f.conns)
    ensures WithinLimit(Inserted(f, id, from, packet, started, order, now, at))
  {
    RoomMade(f, order);
    SizeInsert(Room(f, order), from, Newcomer(f, id, from, packet, started, now));
  }

  lemma InsertTimed(r: Run, id: Id, from: Addr, packet: Packet, started: bool, order: seq<Addr>, now: int, at: int)
    requires Timed(r) && WithinLimit(r.f) && Enumerates(order, r.f.conns) && r.clock <= now <= at
    ensures Timed(Joined(r, Inserted(r.f, id, from, packet, started, order, now, at), from, at))
  {
    var f := r.f;
    var c := Newcomer(f, id, from, packet, started, now);
    RoomMade(f, order);
    FewerCovered(f.timer, f.conns, f.conns, r.clock, at, f.timeout);
    ScheduleCovers(f.timer, f.conns, 0, at, f.timeout);
    var t := Constructed(f, at).timer;
    hide Room, Schedule;
    FewerCovered(t, f.conns, Room(f, order), at, at, f.timeout);
    NewCovered(f.timer, t, f.conns, 0, Room(f, order), from, c, r.clock, now, at, f.timeout);
  }

  lemma InsertKept(r: Run, id: Id, from: Addr, packet: Packet, started: bool, order: seq<Addr>, now: int, at: int)
    requires WithinLimit(r.f) && TimerKept(r) && Progress(r) && Enumerates(order, r.f.conns)
    ensures var t := Joined(r, Inserted(r.f, id, from, packet, started, order, now, at), from, at);
            TimerKept(t) && Progress(t)
  {
    RoomMade(r.f, order);
  }

  lemma InsertUniform(f: Forwarder, id: Id, from: Addr, packet: Packet, started: bool, order: seq<Addr>, now: int, at: int)
    requires WithinLimit(f) && Uniform(f) && Enumerates(order, f.conns)
    ensures Uniform(Inserted(f, id, from, packet, started, order, now, at))
  {
    RoomMade(f, order);
  }

  lemma InsertGood(r: Run, id: Id, from: Addr, packet: Packet, started: bool, order: seq<Addr>, now: int, at: int)
    requires Good(r) && Enumerates(order, r.f.conns) && r.clock <= now <= at
    ensures Good(Joined(r, Inserted(r.f, id, from, packet, started, order, now, at), from, at))
  {
    hide WithinLimit, Uniform, Timed, TimerKept, Progress, Inserted;
    InsertLimit(r.f, id, from, packet, started, order, now, at);
    InsertUniform(r.f, id, from, packet, started, order, now, at);
    InsertTimed(r, id, from, packet, started, order, now, at);
    InsertKept(r, id, from, packet, started, order, now, at);
  }

  // ---------- The inactivity check ----------

  ghost function Checked(r: Run, now: int, at: int): Run {
    var g := Fired(r.f, now, at);
    Run(g, at, map a | a in r.past && a in g.conns :: r.past[a].(checks := r.past[a].checks + 1),
        r.single && now == at)
  }

  lemma FireTimed(r: Run, now: int, at: int)
    requires Timed(r) && r.clock <= now <= at
    ensures Timed(Checked(r, now, at))
  {
    var left := Unexpired(r.f.conns, now);
    FewerCovered(None, r.f.conns, left, r.clock, at, r.f.timeout);
    ScheduleCovers(None, left, 0, at, r.f.timeout);
  }

  lemma FireKept(r: Run, now: int, at: int)
    requires Timed(r) && TimerKept(r) && Progress(r) && r.clock <= now <= at
    requires r.f.timer.Some? && r.f.timer.value.due <= now
    ensures TimerKept(Checked(r, now, at)) && Progress(Checked(r, now, at))
  {
    var left := Unexpired(r.f.conns, now);
    if left != map[] {
      ArmedInTime(left, 0, at);
      if now == at {
        NextCheckIsLater(r.f.conns, now);
      }
    }
    assert forall a :: a in left ==> left != map[] && left[a].expiry >= now + MILLISECOND;
  }

  lemma FireGood(r: Run, now: int, at: int)
    requires Good(r) && r.clock <= now <= at && r.f.timer.Some? && r.f.timer.value.due <= now
    ensures Good(Checked(r, now, at))
  {
    hide Timed, TimerKept, Progress, Young, Covers, Schedule;
    SizeUnexpired(r.f.conns, now);
    FireTimed(r, now, at);
    FireKept(r, now, at);
  }

  // ---------- The rest ----------

  lemma GoneGood(r: Run, a: Addr)
    requires Good(r)
    ensures Good(r.(f := r.f.(conns := r.f.conns - {a}), past := r.past - {a}))
  {
    SizeRemove(r.f.conns, a);
  }

  lemma ReceiveGood(r: Run, from: Addr, packet: Packet, id: Id, started: bool, order: seq<Addr>, now: int, at: int)
    requires Good(r) && Enabled(r, Receive(from, packet, id, started, order, now, at))
    ensures Good(Next(r, Receive(from, packet, id, started, order, now, at)))
  {
    if from in r.f.conns {
      var c := r.f.conns[from];
      OutcomeShape(c, Connection.Send(c, packet, now), Connection.Arrive(packet, now), r.clock);
      hide WithinLimit, Timed, TimerKept, Progress, Schedule, Settle, Connection.Send, Inserted;
      CallbackGood(r, from, Connection.Send(c, packet, now), now, at);
    } else {
      hide WithinLimit, Timed, TimerKept, Progress, Schedule, Inserted, Settle;
      InsertGood(r, id, from, packet, started, order, now, at);
    }
  }

  lemma CalledGood(r: Run, a: Addr, ce: Connection.Event, at: int)
    requires Good(r) && Enabled(r, Callback(a, ce, at))
    ensures Good(Next(r, Callback(a, ce, at)))
  {
    var c := r.f.conns[a];
    OutcomeShape(c, Connection.Apply(c, ce), ce, r.clock);
    hide WithinLimit, Timed, TimerKept, Progress, Schedule, Settle, Connection.Apply;
    CallbackGood(r, a, Connection.Apply(c, ce), Connection.Moment(ce, r.clock), at);
  }

  lemma DisposeGood(r: Run)
    requires Good(r)
    ensures Good(r.(f := Disposed(r.f), past := map[]))
  {
  }

  lemma StepGood(r: Run, e: Event)
    requires Good(r)
    ensures Good(Next(r, e))
  {
    hide Good, Settle, Inserted, Fired, Disposed, Connection.Apply, Connection.Send;
    if Enabled(r, e) {
      match e
      case Receive(from, packet, id, started, order, now, at) => ReceiveGood(r, from, packet, id, started, order, now, at);
      case Callback(a, ce, at) => CalledGood(r, a, ce, at);
      case Gone(a) => GoneGood(r, a);
      case Fire(now, at) => FireGood(r, now, at);
      case Dispose => DisposeGood(r);
    }
  }

  ghost function Runs(to: Addr, timeout: nat, limit: nat, start: int, events: seq<Event>): Run {
    if events == [] then Run(Forwarder(map[], None, to, timeout, limit, true, map[]), start, map[], true)
    else Next(Runs(to, timeout, limit, start, Front(events)), Last(events))
  }

  lemma {:induction false} RunsAreGood(to: Addr, timeout: nat, limit: nat, start: int, events: seq<Event>)
    requires start > 0 && limit > 0
    ensures Good(Runs(to, timeout, limit, start, events))
  {
    if events != [] {
      RunsAreGood(to, timeout, limit, start, Front(events));
      StepGood(Runs(to, timeout, limit, start, Front(events)), Last(events));
    }
  }

  /** Over every run: the table never exceeds the limit; a connection that has been
      touched since it was inserted has the timer armed, and the alarm does not outlast
      any connection; and with one clock reading per check, an idle connection is gone
      after at most timeout / 1 ms checks. */
  lemma LocalForwarderKeeps(to: Addr, timeout: nat, limit: nat, start: int, events: seq<Event>, a: Addr)
    requires start > 0 && limit > 0
    ensures var r := Runs(to, timeout, limit, start, events);
            && |r.f.conns| <= limit
            && r.past.Keys == r.f.conns.Keys
            && (a in r.past && r.past[a].touched ==> r.f.timer.Some?)
            && (a in r.f.conns && r.f.timer.Some? ==>
                  r.f.timer.value.due <= Max(r.f.timer.value.at, r.f.conns[a].expiry))
            && (a in r.past && r.single ==> r.past[a].checks * MILLISECOND <= timeout)
  {
    RunsAreGood(to, timeout, limit, start, events);
    RunsKeepParameters(to, timeout, limit, start, events);
  }

  lemma {:induction false} RunsKeepParameters(to: Addr, timeout: nat, limit: nat, start: int, events: seq<Event>)
    ensures var f := Runs(to, timeout, limit, start, events).f;
            f.to == to && f.timeout == timeout && f.limit == limit
  {
    if events != [] {
      RunsKeepParameters(to, timeout, limit, start, Front(events));
      var r, e := Runs(to, timeout, limit, start, Front(events)), Last(events);
      assert Next(r, e).f.to == r.f.to && Next(r, e).f.timeout == r.f.timeout && Next(r, e).f.limit == r.f.limit;
    }
  }

  /** A full table loses exactly one connection to a newcomer, one that was active no
      later than any other, and has the newcomer in its place. */
  lemma EvictsOldest(f: Forwarder, id: Id, from: Addr, packet: Packet, started: bool, order: seq<Addr>, now: int, at: int)
    requires WithinLimit(f) && Enumerates(order, f.conns) && |f.conns| == f.limit && from !in f.conns
    ensures exists victim :: victim in f.conns
              && (forall b :: b in f.conns ==> f.conns[victim].expiry <= f.conns[b].expiry)
              && Inserted(f, id, from, packet, started, order, now, at).conns.Keys == f.conns.Keys - {victim} + {from}
              && (forall b :: b in f.conns && b != victim ==>
                    Inserted(f, id, from, packet, started, order, now, at).conns[b] == f.conns[b])
  {
    NonEmptyOrder(order, f.conns);
    var victim := Oldest(order, f.conns);
    assert Inserted(f, id, from, packet, started, order, now, at).conns.Keys == f.conns.Keys - {victim} + {from};
  }

  /** The constructor's touch comes before the insertion: a new connection leaves the
      timer idle if and only if it was idle and the table was empty. */
  lemma FirstConnectionIsUntimed(f: Forwarder, id: Id, from: Addr, packet: Packet, started: bool, order: seq<Addr>, now: int, at: int)
    requires Enumerates(order, f.conns)
    ensures Inserted(f, id, from, packet, started, order, now, at).timer == None <==> f.timer == None && f.conns == map[]
  {
    hide Room;
  }

  predicate Alone(f: Forwarder) {
    f.timer == None ==> |f.conns| <= 1
  }

  lemma InsertAlone(f: Forwarder, id: Id, from: Addr, packet: Packet, started: bool, order: seq<Addr>, now: int, at: int)
    requires WithinLimit(f) && Enumerates(order, f.conns)
    ensures Alone(Inserted(f, id, from, packet, started, order, now, at))
  {
    FirstConnectionIsUntimed(f, id, from, packet, started, order, now, at);
    RoomMade(f, order);
    SizeInsert(Room(f, order), from, Newcomer(f, id, from, packet, started, now));
    hide Room, Schedule;
    if f.conns == map[] {
      assert Room(f, order) == map[];
    }
  }

  lemma SettleAlone(f: Forwarder, a: Addr, o: Connection.Outcome, at: int)
    requires Alone(f) && a in f.conns
    ensures Alone(Settle(f, a, o, at))
  {
    SizeInsert(f.conns, a, o.conn);
    SizeRemove(f.conns[a := o.conn], a);
  }

  lemma StepAlone(r: Run, e: Event)
    requires Good(r) && Alone(r.f)
    ensures Alone(Next(r, e).f)
  {
    if Enabled(r, e) {
      hide Alone, Settle, Inserted, Fired, Timed, TimerKept, Progress, Connection.Apply, Connection.Send;
      match e
      case Receive(from, packet, id, started, order, now, at) =>
        if from in r.f.conns {
          SettleAlone(r.f, from, Connection.Send(r.f.conns[from], packet, now), at);
        } else {
          InsertAlone(r.f, id, from, packet, started, order, now, at);
        }
      case Callback(a, ce, at) => SettleAlone(r.f, a, Connection.Apply(r.f.conns[a], ce), at);
      case Gone(a) => GoneAlone(r.f, a);
      case Fire(now, at) => FiredAlone(r.f, now, at);
      case Dispose => DisposedAlone(r.f);
    }
  }

  lemma GoneAlone(f: Forwarder, a: Addr)
    requires Alone(f)
    ensures Alone(f.(conns := f.conns - {a}))
  {
    SizeRemove(f.conns, a);
  }

  lemma FiredAlone(f: Forwarder, now: int, at: int)
    ensures Alone(Fired(f, now, at))
  {
  }

  lemma DisposedAlone(f: Forwarder)
    ensures Alone(Disposed(f))
  {
  }

  /** Over every run: without a timer there is at most one connection, and it has not been
      touched since it was inserted. */
  lemma {:induction false} UntimedIsAlone(to: Addr, timeout: nat, limit: nat, start: int, events: seq<Event>)
    requires start > 0 && limit > 0
    ensures var r := Runs(to, timeout, limit, start, events);
            r.f.timer == None ==> |r.f.conns| <= 1 && forall a :: a in r.f.conns ==> a in r.past && !r.past[a].touched
  {
    RunsAreGood(to, timeout, limit, start, events);
    if events != [] {
      var r := Runs(to, timeout, limit, start, Front(events));
      UntimedIsAlone(to, timeout, limit, start, Front(events));
      RunsAreGood(to, timeout, limit, start, Front(events));
      StepAlone(r, Last(events));
      hide Next, WithinLimit, Uniform, Timed, Progress;
    }
  }
}

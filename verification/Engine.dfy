/** The listeners and local forwarders of one peer at work on its shared tables. The
    modules Listen and ForwardLocal treat each of them on its own, with a map of its
    connections; here they all run together on the socket table and the two maps of each,
    and what each sees in the shared tables is proved to be what its own run says, over
    every run and every interleaving. */
module Engine {
  import opened Base
  import opened Pool
  import opened Table
  import opened TableSettled
  import opened TableSweep
  import opened TableView
  import Connection
  import ForwardLocal
  import Listen
  import ListenBacklog
  import ListenRuns
  import ListenSteps
  import TableRuns

  /** What a forwarder and a listener were made with, and the events each has had. */
  datatype LocalLog = LocalLog(to: Addr, timeout: nat, limit: nat, start: int, events: seq<ForwardLocal.Event>)

  datatype ListenLog = ListenLog(timeout: nat, limit: nat, backlog: nat, start: int, events: seq<ListenSteps.Event>)

  /** The operations on the shared tables so far, and the parents that are there. */
  datatype Joint = Joint(ops: seq<TableRuns.Op>, locals: map<Ref, LocalLog>, listens: map<Ref, ListenLog>)

  function Tables(j: Joint): State {
    TableRuns.Run(j.ops).state
  }

  ghost function LocalRun(x: LocalLog): ForwardLocal.Run {
    ForwardLocal.Runs(x.to, x.timeout, x.limit, x.start, x.events)
  }

  ghost function ListenRun(x: ListenLog): ListenSteps.Run {
    ListenRuns.Runs(x.timeout, x.limit, x.backlog, x.start, x.events)
  }

  /** r: memory for a new connection; rs: the expired connections, in the order in which
      they are removed. */
  datatype Event =
    | NewLocal(h: Ref, id: Id, to: Addr, timeout: nat, limit: nat, start: int)
    | NewListen(h: Ref, id: Id, rid: Id, timeout: nat, limit: nat, backlog: nat, start: int)
    | NewOther(id: Id, closable: bool)
    | AtLocal(h: Ref, r: Ref, rs: seq<Ref>, local: ForwardLocal.Event)
    | AtListen(h: Ref, r: Ref, rs: seq<Ref>, listen: ListenSteps.Event)
    | EntryRemoved(id: Id)
    | CloseArrived(id: Id)

  // ---------- What an event does to the tables ----------

  predicate NewConn(s: State, r: Ref, id: Id) {
    r !in s.conns && id !in s.sockets
  }

  ghost predicate ExpiredOnes(s: State, h: Ref, rs: seq<Ref>, now: int) {
    Sweepable(s, rs)
    && forall r :: r in rs <==> r in s.conns && s.conns[r].parent == h && Expired(s.conns[r].conn, now)
  }

  /** The forwarder can have the event, and the tables have room for it. */
  ghost predicate LocalEnabled(s: State, h: Ref, r: Ref, rs: seq<Ref>, run: ForwardLocal.Run, e: ForwardLocal.Event) {
    && ForwardLocal.Enabled(run, e) && !e.Gone? && !e.Dispose?
    && (e.Receive? && e.from !in run.f.conns ==> NewConn(s, r, e.id))
    && (e.Fire? ==> ExpiredOnes(s, h, rs, e.now))
  }

  // The sender whose connection the event makes, if it makes one.
  function Newcomer(l: Listen.Listener, e: ListenSteps.Event): Option<Addr> {
    if e.Receive? && e.from !in l.conns && l.acceptQ != [] then Some(e.from)
    else if e.Accept? && l.backlogQ != [] then Some(l.backlogQ[0].addr)
    else None
  }

  ghost predicate ListenEnabled(s: State, h: Ref, r: Ref, rs: seq<Ref>, run: ListenSteps.Run, e: ListenSteps.Event) {
    && ListenSteps.Enabled(run, e) && !e.Gone? && !e.Dispose?
    && (Newcomer(run.l, e).Some? ==> NewConn(s, r, e.id))
    && (e.Check? ==> ExpiredOnes(s, h, rs, e.t2))
  }

  // A callback has left the connection with address a as o says.
  function Changed(s: State, h: Ref, a: Addr, o: Connection.Outcome): seq<TableRuns.Op>
    requires h in s.parents && a in s.parents[h].addrMap
  {
    [TableRuns.Update(s.parents[h].addrMap[a], o.conn)] + if o.remove then [TableRuns.Remove(o.conn.id)] else []
  }

  // h sees in the tables the connections that its run has.
  ghost predicate Sees(s: State, h: Ref, conns: Conns) {
    Settled(s) && h in s.parents && Seen(s, h) == conns
  }

  ghost function LocalOps(s: State, h: Ref, r: Ref, rs: seq<Ref>, run: ForwardLocal.Run, e: ForwardLocal.Event)
      : seq<TableRuns.Op>
    requires Sees(s, h, run.f.conns) && run.f.limit > 0 && LocalEnabled(s, h, r, rs, run, e)
  {
    match e
    case Receive(from, packet, id, started, order, now, at) =>
      if from in run.f.conns then Changed(s, h, from, Connection.Send(run.f.conns[from], packet, now))
      else
        [TableRuns.AddConn(h, r, ForwardLocal.Newcomer(run.f, id, from, packet, started, now),
                           LocalVictim(s, h, run.f.limit, order))]
    case Callback(a, ce, at) => Changed(s, h, a, Connection.Apply(run.f.conns[a], ce))
    case Fire(now, at) => [TableRuns.RemoveAll(IdsOf(s, rs))]
    case _ => []
  }

  // The listener makes a connection, in the tables as in its run.
  ghost function Insertion(h: Ref, r: Ref, l: Listen.Listener, from: Addr, packets: seq<Packet>, id: Id,
                           order: seq<Addr>, now: int): seq<TableRuns.Op>
    requires Listen.CanConnect(l, from, order)
  {
    var c := Listen.NewConn(l, from, packets, id, now);
    Listen.SameOrder(l, from, packets, id, order, now);
    [TableRuns.AddConn(h, r, c, ListenVictim(l.conns[from := c], l.limit, from, order))]
  }

  ghost function ListenOps(s: State, h: Ref, r: Ref, rs: seq<Ref>, run: ListenSteps.Run, e: ListenSteps.Event)
      : seq<TableRuns.Op>
    requires Sees(s, h, run.l.conns) && ListenSteps.Good(run) && ListenEnabled(s, h, r, rs, run, e)
  {
    match e
    case Receive(from, packet, id, order, now, at) =>
      if from in run.l.conns then Changed(s, h, from, Connection.Send(run.l.conns[from], packet, now))
      else if run.l.acceptQ != [] then Insertion(h, r, run.l, from, [packet], id, order, now)
      else []
    case Accept(req, id, order, now, at) =>
      if run.l.backlogQ != [] then
        Insertion(h, r, run.l, run.l.backlogQ[0].addr, run.l.backlogQ[0].packets, id, order, now)
      else []
    case Callback(a, ce, at) => Changed(s, h, a, Connection.Apply(run.l.conns[a], ce))
    case Check(t1, t2, t3) => [TableRuns.RemoveAll(IdsOf(s, rs))]
    case _ => []
  }

  // ---------- Applying operations ----------

  function Applied(s: State, ops: seq<TableRuns.Op>): (t: State)
    requires Settled(s)
    ensures Settled(t)
    decreases |ops|
  {
    if ops == [] then s
    else
      var t := Applied(s, Front(ops));
      TableRuns.SettledStep(t, Last(ops));
      TableRuns.Step(t, Last(ops))
  }

  lemma RunSnoc(ops: seq<TableRuns.Op>, op: TableRuns.Op)
    ensures Settled(TableRuns.Run(ops).state)
    ensures TableRuns.Run(ops + [op]).state == TableRuns.Step(TableRuns.Run(ops).state, op)
  {
    TableRuns.RunsStaySettled(ops);
    assert Front(ops + [op]) == ops;
    hide Settled, TableRuns.Step, TableRuns.Born;
  }

  lemma AppliedSnoc(s: State, ops: seq<TableRuns.Op>, op: TableRuns.Op)
    requires Settled(s)
    ensures Applied(s, ops + [op]) == TableRuns.Step(Applied(s, ops), op)
  {
    assert Front(ops + [op]) == ops;
    hide Settled, TableRuns.Step;
  }

  lemma {:induction false} RunApplied(a: seq<TableRuns.Op>, b: seq<TableRuns.Op>)
    ensures Settled(TableRuns.Run(a).state)
    ensures TableRuns.Run(a + b).state == Applied(TableRuns.Run(a).state, b)
    decreases |b|
  {
    hide *;
    TableRuns.RunsStaySettled(a);
    if b == [] {
      assert a + b == a;
      AppliedNone(TableRuns.Run(a).state);
    } else {
      var before, op := b[..|b| - 1], b[|b| - 1];
      RunApplied(a, before);
      RunSnoc(a + before, op);
      AppliedSnoc(TableRuns.Run(a).state, before, op);
      assert a + before + [op] == a + b && before + [op] == b;
    }
  }

  lemma AppliedNone(s: State)
    requires Settled(s)
    ensures Applied(s, []) == s
  {
    hide Settled;
  }

  lemma AppliedOne(s: State, op: TableRuns.Op)
    requires Settled(s)
    ensures Applied(s, [op]) == TableRuns.Step(s, op)
  {
    hide *;
    AppliedNone(s);
    AppliedSnoc(s, [], op);
    assert [] + [op] == [op];
  }

  lemma AppliedTwo(s: State, first: TableRuns.Op, second: TableRuns.Op)
    requires Settled(s)
    ensures Settled(TableRuns.Step(s, first))
    ensures Applied(s, [first, second]) == TableRuns.Step(TableRuns.Step(s, first), second)
  {
    hide *;
    TableRuns.SettledStep(s, first);
    AppliedOne(s, first);
    AppliedSnoc(s, [first], second);
    assert [first] + [second] == [first, second];
  }

  lemma UpdateStep(s: State, r: Ref, c: Connection.Conn)
    requires Settled(s) && r in s.conns && c.id == s.conns[r].conn.id && c.addr == s.conns[r].conn.addr
    ensures TableRuns.Step(s, TableRuns.Update(r, c)) == SetConn(s, r, c)
  {
    hide Settled, SetConn;
  }

  lemma RemoveStep(s: State, id: Id)
    requires Settled(s)
    ensures AllTabled(s) && Counted(s) && TableRuns.Step(s, TableRuns.Remove(id)) == Removed(s, id)
  {
    TableRuns.SettledParts(s);
    TableRuns.InvParts(s);
    hide Settled, Inv, AllTabled, Counted, Removed;
  }

  lemma RemoveAllStep(s: State, ids: seq<Id>)
    requires Settled(s)
    ensures TableRuns.Step(s, TableRuns.RemoveAll(ids)) == TableRuns.RemovedAll(s, ids)
  {
    hide Settled, TableRuns.RemovedAll;
  }

  // ---------- A callback of a connection ----------

  lemma SeesAt(s: State, h: Ref, conns: Conns, a: Addr)
    requires Sees(s, h, conns) && a in conns
    ensures a in s.parents[h].addrMap && s.parents[h].addrMap[a] in s.conns
    ensures var r := s.parents[h].addrMap[a];
            && s.conns[r].conn == conns[a] && conns[a].addr == a && s.conns[r].parent == h
            && conns[a].id in s.sockets && s.sockets[conns[a].id] == ConnE(r)
  {
    SeenAt(s, h, a);
    TableRuns.SettledParts(s);
    assert InSockets(s, s.parents[h].addrMap[a]);
  }

  lemma UpdateSees(s: State, h: Ref, conns: Conns, a: Addr, c: Connection.Conn)
    requires Sees(s, h, conns) && a in conns && c.id == conns[a].id && c.addr == conns[a].addr
    ensures a in s.parents[h].addrMap
    ensures var t := TableRuns.Step(s, TableRuns.Update(s.parents[h].addrMap[a], c));
            NowSees(s, t, h, conns[a := c]) && Settled(t)
  {
    hide *;
    SeesIs(s, h, conns);
    SeesAt(s, h, conns, a);
    var r := s.parents[h].addrMap[a];
    UpdatedSeen(s, r, c);
    UpdateStep(s, r, c);
    TableRuns.SettledStep(s, TableRuns.Update(r, c));
  }

  lemma RemoveSees(s: State, h: Ref, conns: Conns, a: Addr)
    requires Sees(s, h, conns) && a in conns
    ensures var t := TableRuns.Step(s, TableRuns.Remove(conns[a].id));
            NowSees(s, t, h, conns - {a}) && Settled(t)
  {
    hide *;
    SeesIs(s, h, conns);
    SeesAt(s, h, conns, a);
    RemoveStep(s, conns[a].id);
    RemovedSeen(s, s.parents[h].addrMap[a]);
    TableRuns.SettledStep(s, TableRuns.Remove(conns[a].id));
  }

  lemma SeesIs(s: State, h: Ref, conns: Conns)
    requires Sees(s, h, conns)
    ensures Settled(s) && h in s.parents && Seen(s, h) == conns
  {
  }

  lemma SeesNow(s: State, t: State, h: Ref, conns: Conns)
    requires NowSees(s, t, h, conns) && Settled(t)
    ensures Sees(t, h, conns)
  {
    hide Settled, Seen;
  }

  function After(conns: Conns, a: Addr, o: Connection.Outcome): Conns {
    if o.remove then conns[a := o.conn] - {a} else conns[a := o.conn]
  }

  lemma ChangedSees(s: State, h: Ref, conns: Conns, a: Addr, o: Connection.Outcome)
    requires Sees(s, h, conns) && a in conns && o.conn.id == conns[a].id && o.conn.addr == conns[a].addr
    ensures a in s.parents[h].addrMap
    ensures NowSees(s, Applied(s, Changed(s, h, a, o)), h, After(conns, a, o))
  {
    hide *;
    SeesIs(s, h, conns);
    SeesAt(s, h, conns, a);
    UpdateSees(s, h, conns, a, o.conn);
    var first := TableRuns.Update(s.parents[h].addrMap[a], o.conn);
    var t := TableRuns.Step(s, first);
    ChangedIs(s, h, a, o);
    if o.remove {
      SeesNow(s, t, h, conns[a := o.conn]);
      RemoveSees(t, h, conns[a := o.conn], a);
      AppliedTwo(s, first, TableRuns.Remove(o.conn.id));
      SeesTrans(s, t, Applied(s, Changed(s, h, a, o)), h, conns[a := o.conn], conns[a := o.conn] - {a});
    } else {
      AppliedOne(s, first);
    }
    AfterIs(conns, a, o);
  }

  lemma ChangedIs(s: State, h: Ref, a: Addr, o: Connection.Outcome)
    requires h in s.parents && a in s.parents[h].addrMap
    ensures var first := TableRuns.Update(s.parents[h].addrMap[a], o.conn);
            Changed(s, h, a, o) == if o.remove then [first, TableRuns.Remove(o.conn.id)] else [first]
  {
  }

  lemma AfterIs(conns: Conns, a: Addr, o: Connection.Outcome)
    ensures After(conns, a, o) == if o.remove then conns[a := o.conn] - {a} else conns[a := o.conn]
  {
  }

  lemma SameConn(c: Connection.Conn, e: Connection.Event)
    ensures Connection.Apply(c, e).conn.id == c.id && Connection.Apply(c, e).conn.addr == c.addr
  {
  }

  // ---------- The events of a local forwarder ----------

  lemma LocalInserts(s: State, h: Ref, r: Ref, f: ForwardLocal.Forwarder, id: Id, from: Addr, packet: Packet, started: bool,
                     order: seq<Addr>, now: int)
    requires Sees(s, h, f.conns) && f.limit > 0 && Enumerates(order, f.conns) && from !in f.conns && NewConn(s, r, id)
    ensures var c := ForwardLocal.Newcomer(f, id, from, packet, started, now);
            NowSees(s, Applied(s, [TableRuns.AddConn(h, r, c, LocalVictim(s, h, f.limit, order))]), h,
                    ForwardLocal.Room(f, order)[from := c])
  {
    var c := ForwardLocal.Newcomer(f, id, from, packet, started, now);
    assert c.id == id && c.addr == from;
    NewIsFresh(s, h, r, f.conns, c);
    hide Settled, NowSees, Seen, ForwardLocal.Room, Enumerates, ForwardLocal.Newcomer;
    LocalInsertion(s, h, r, c, f, order);
    AppliedOne(s, TableRuns.AddConn(h, r, c, LocalVictim(s, h, f.limit, order)));
  }

  lemma NewIsFresh(s: State, h: Ref, r: Ref, conns: Conns, c: Connection.Conn)
    requires Sees(s, h, conns) && NewConn(s, r, c.id) && c.addr !in conns
    ensures Fresh(s, h, r, c)
  {
    AllPresent(s, h);
  }

  lemma ExpiredSees(s: State, h: Ref, rs: seq<Ref>, conns: Conns, now: int)
    requires Sees(s, h, conns) && ExpiredOnes(s, h, rs, now)
    ensures Sweepable(s, rs)
    ensures NowSees(s, Applied(s, [TableRuns.RemoveAll(IdsOf(s, rs))]), h, Unexpired(conns, now))
  {
    OnesExpired(s, h, rs, now);
    hide *;
    SeesIs(s, h, conns);
    ExpiredSeen(s, h, rs, now);
    AppliedOne(s, TableRuns.RemoveAll(IdsOf(s, rs)));
    RemoveAllStep(s, IdsOf(s, rs));
  }

  lemma OnesExpired(s: State, h: Ref, rs: seq<Ref>, now: int)
    requires ExpiredOnes(s, h, rs, now)
    ensures Sweepable(s, rs) && forall k :: 0 <= k < |rs| ==> rs[k] in s.conns
    ensures forall r :: r in rs <==> r in s.conns && s.conns[r].parent == h && Expired(s.conns[r].conn, now)
  {
    hide Settled;
  }

  // What each event of a forwarder is, in the tables and in its run.
  // What the events of a known connection do to the run of its forwarder.
  lemma LocalSent(run: ForwardLocal.Run, e: ForwardLocal.Event)
    requires ForwardLocal.Enabled(run, e) && e.Receive? && e.from in run.f.conns
    ensures var n := ForwardLocal.Next(run, e).f;
            n.live && n.conns == After(run.f.conns, e.from, Connection.Send(run.f.conns[e.from], e.packet, e.now))
  {
    hide Schedule, ForwardLocal.Active, Connection.Send, ForwardLocal.Inserted, Enumerates;
  }

  lemma LocalCalled(run: ForwardLocal.Run, e: ForwardLocal.Event)
    requires ForwardLocal.Enabled(run, e) && e.Callback?
    ensures e.a in run.f.conns
    ensures var n := ForwardLocal.Next(run, e).f;
            n.live && n.conns == After(run.f.conns, e.a, Connection.Apply(run.f.conns[e.a], e.e))
  {
    hide Schedule, ForwardLocal.Active, Connection.Apply;
  }

  lemma LocalCan(s: State, h: Ref, r: Ref, rs: seq<Ref>, run: ForwardLocal.Run, e: ForwardLocal.Event)
    requires LocalEnabled(s, h, r, rs, run, e)
    ensures ForwardLocal.Enabled(run, e)
  {
    hide ForwardLocal.Enabled, NewConn, ExpiredOnes;
  }

  lemma LocalSendIs(s: State, h: Ref, r: Ref, rs: seq<Ref>, run: ForwardLocal.Run, e: ForwardLocal.Event)
    requires Sees(s, h, run.f.conns) && run.f.limit > 0 && LocalEnabled(s, h, r, rs, run, e) && e.Receive?
    requires e.from in run.f.conns
    ensures ForwardLocal.Next(run, e).f.live
    ensures var o := Connection.Send(run.f.conns[e.from], e.packet, e.now);
            && e.from in s.parents[h].addrMap && LocalOps(s, h, r, rs, run, e) == Changed(s, h, e.from, o)
            && ForwardLocal.Next(run, e).f.conns == After(run.f.conns, e.from, o)
  {
    LocalCan(s, h, r, rs, run, e);
    LocalSent(run, e);
    SeesIs(s, h, run.f.conns);
    SeesAt(s, h, run.f.conns, e.from);
    hide ForwardLocal.Next, ForwardLocal.Enabled, LocalEnabled, Sees, Seen, Settled, Connection.Send, Changed, After,
         ForwardLocal.Newcomer, LocalVictim;
  }

  lemma LocalNewIs(s: State, h: Ref, r: Ref, rs: seq<Ref>, run: ForwardLocal.Run, e: ForwardLocal.Event)
    requires Sees(s, h, run.f.conns) && run.f.limit > 0 && LocalEnabled(s, h, r, rs, run, e) && e.Receive?
    requires e.from !in run.f.conns
    ensures Enumerates(e.order, run.f.conns) && ForwardLocal.Next(run, e).f.live && NewConn(s, r, e.id)
    ensures h in s.parents && Enumerates(e.order, Seen(s, h))
    ensures var c := ForwardLocal.Newcomer(run.f, e.id, e.from, e.packet, e.started, e.now);
            && LocalOps(s, h, r, rs, run, e) == [TableRuns.AddConn(h, r, c, LocalVictim(s, h, run.f.limit, e.order))]
            && ForwardLocal.Next(run, e).f.conns == ForwardLocal.Room(run.f, e.order)[e.from := c]
  {
    SeesIs(s, h, run.f.conns);
    hide Sees, Seen, Settled, NewConn, ExpiredOnes, Schedule, ForwardLocal.Settle,
         ForwardLocal.Room, Enumerates, ForwardLocal.Newcomer, LocalVictim;
  }

  lemma LocalCallbackIs(s: State, h: Ref, r: Ref, rs: seq<Ref>, run: ForwardLocal.Run, e: ForwardLocal.Event)
    requires Sees(s, h, run.f.conns) && run.f.limit > 0 && LocalEnabled(s, h, r, rs, run, e) && e.Callback?
    ensures e.a in run.f.conns && ForwardLocal.Next(run, e).f.live
    ensures var o := Connection.Apply(run.f.conns[e.a], e.e);
            && e.a in s.parents[h].addrMap && LocalOps(s, h, r, rs, run, e) == Changed(s, h, e.a, o)
            && ForwardLocal.Next(run, e).f.conns == After(run.f.conns, e.a, o)
  {
    LocalCan(s, h, r, rs, run, e);
    LocalCalled(run, e);
    SeesIs(s, h, run.f.conns);
    SeesAt(s, h, run.f.conns, e.a);
    hide ForwardLocal.Next, ForwardLocal.Enabled, LocalEnabled, Sees, Seen, Settled, Connection.Apply, Changed, After;
  }

  lemma LocalFireIs(s: State, h: Ref, r: Ref, rs: seq<Ref>, run: ForwardLocal.Run, e: ForwardLocal.Event)
    requires Sees(s, h, run.f.conns) && run.f.limit > 0 && LocalEnabled(s, h, r, rs, run, e) && e.Fire?
    ensures ExpiredOnes(s, h, rs, e.now) && Sweepable(s, rs) && ForwardLocal.Next(run, e).f.live
    ensures LocalOps(s, h, r, rs, run, e) == [TableRuns.RemoveAll(IdsOf(s, rs))]
    ensures ForwardLocal.Next(run, e).f.conns == Unexpired(run.f.conns, e.now)
  {
    OnesExpired(s, h, rs, e.now);
    hide Sees, Seen, Settled, NewConn, ExpiredOnes, Schedule, Unexpired, Sweepable;
  }

  /** A forwarder's event does to its view in the tables what it does in its run, and
      nothing to what any other parent sees. */
  lemma LocalSees(s: State, h: Ref, r: Ref, rs: seq<Ref>, run: ForwardLocal.Run, e: ForwardLocal.Event)
    requires Sees(s, h, run.f.conns) && run.f.limit > 0 && LocalEnabled(s, h, r, rs, run, e)
    ensures Settled(s) && NowSees(s, Applied(s, LocalOps(s, h, r, rs, run, e)), h, ForwardLocal.Next(run, e).f.conns)
    ensures ForwardLocal.Next(run, e).f.live
  {
    LocalKinds(s, h, r, rs, run, e);
    hide *;
    SeesIs(s, h, run.f.conns);
    match e
    case Receive(from, packet, id, started, order, now, at) =>
      if from in run.f.conns {
        LocalSendIs(s, h, r, rs, run, e);
        SendSame(run.f.conns[from], packet, now);
        ChangedSees(s, h, run.f.conns, from, Connection.Send(run.f.conns[from], packet, now));
      } else {
        LocalNewIs(s, h, r, rs, run, e);
        LocalInserts(s, h, r, run.f, id, from, packet, started, order, now);
      }
    case Callback(a, ce, at) =>
      LocalCallbackIs(s, h, r, rs, run, e);
      SameConn(run.f.conns[a], ce);
      ChangedSees(s, h, run.f.conns, a, Connection.Apply(run.f.conns[a], ce));
    case Fire(now, at) =>
      LocalFireIs(s, h, r, rs, run, e);
      ExpiredSees(s, h, rs, run.f.conns, now);
  }

  lemma LocalKinds(s: State, h: Ref, r: Ref, rs: seq<Ref>, run: ForwardLocal.Run, e: ForwardLocal.Event)
    requires LocalEnabled(s, h, r, rs, run, e)
    ensures e.Receive? || e.Callback? || e.Fire?
  {
    hide ForwardLocal.Enabled, NewConn, ExpiredOnes;
  }

  lemma SendSame(c: Connection.Conn, packet: Packet, now: int)
    ensures Connection.Send(c, packet, now).conn.id == c.id && Connection.Send(c, packet, now).conn.addr == c.addr
  {
  }

  // ---------- The events of a listener ----------

  lemma ListenInserts(s: State, h: Ref, r: Ref, l: Listen.Listener, from: Addr, packets: seq<Packet>, id: Id,
                      order: seq<Addr>, now: int)
    requires Sees(s, h, l.conns) && Listen.CanConnect(l, from, order) && NewConn(s, r, id)
    ensures var c := Listen.NewConn(l, from, packets, id, now);
            && Enumerates(order, l.conns[from := c])
            && NowSees(s, Applied(s, Insertion(h, r, l, from, packets, id, order, now)), h,
                       Listen.Evicted(l.conns[from := c], l.limit, from, order))
  {
    var c := Listen.NewConn(l, from, packets, id, now);
    assert c.id == id && c.addr == from;
    assert from !in l.conns;
    Listen.SameOrder(l, from, packets, id, order, now);
    NewIsFresh(s, h, r, l.conns, c);
    SeesIs(s, h, l.conns);
    hide *;
    ListenInsertion(s, h, r, c, l.conns[from := c], l.limit, order);
    AppliedOne(s, TableRuns.AddConn(h, r, c, ListenVictim(l.conns[from := c], l.limit, from, order)));
    InsertionIs(h, r, l, from, packets, id, order, now);
  }

  lemma InsertionIs(h: Ref, r: Ref, l: Listen.Listener, from: Addr, packets: seq<Packet>, id: Id,
                    order: seq<Addr>, now: int)
    requires Listen.CanConnect(l, from, order)
    ensures var c := Listen.NewConn(l, from, packets, id, now);
            && Enumerates(order, l.conns[from := c])
            && Insertion(h, r, l, from, packets, id, order, now)
               == [TableRuns.AddConn(h, r, c, ListenVictim(l.conns[from := c], l.limit, from, order))]
  {
    Listen.SameOrder(l, from, packets, id, order, now);
    hide Enumerates, ListenVictim, Listen.NewConn;
  }

  // What the connections of a listener are after an event.
  lemma ListenConnected(l: Listen.Listener, from: Addr, packets: seq<Packet>, id: Id, order: seq<Addr>, now: int, at: int)
    requires Listen.CanConnect(l, from, order)
    ensures var m, c := Listen.Connected(l, from, packets, id, order, now, at), Listen.NewConn(l, from, packets, id, now);
            && Enumerates(order, l.conns[from := c])
            && m.conns == Listen.Evicted(l.conns[from := c], l.limit, from, order) && m.live == l.live
  {
    ListenSteps.ConnectedFields(l, from, packets, id, order, now, at);
    ListenRuns.PoppedLive(l, Listen.Connected(l, from, packets, id, order, now, at));
    hide Listen.Connected, Listen.NewConn, Enumerates, Listen.Evicted;
  }

  lemma ReceivedIs(run: ListenSteps.Run, e: ListenSteps.Event)
    requires ListenSteps.Good(run) && ListenSteps.Enabled(run, e) && e.Receive?
    ensures ListenBacklog.BacklogOk(run.l) && ListenSteps.Next(run, e).l.live
    ensures var l, n := run.l, ListenSteps.Next(run, e).l;
            && (e.from in l.conns ==> n.conns == After(l.conns, e.from, Connection.Send(l.conns[e.from], e.packet, e.now)))
            && (e.from !in l.conns && l.acceptQ == [] ==> n.conns == l.conns)
            && (e.from !in l.conns && l.acceptQ != [] ==>
                  var c := Listen.NewConn(l, e.from, [e.packet], e.id, e.now);
                  && Listen.CanConnect(l, e.from, e.order) && Enumerates(e.order, l.conns[e.from := c])
                  && n.conns == Listen.Evicted(l.conns[e.from := c], l.limit, e.from, e.order))
  {
    ListenSteps.GoodParts(run);
    assert run.l.live;
    var l, m := run.l, Listen.Receipt(run.l, e.from, e.packet);
    hide *;
    ListenSteps.NextReceive(run, e.from, e.packet, e.id, e.order, e.now, e.at);
    ListenSteps.BranchShapes(l, e.from, e.packet, e.id, e.order, e.now, e.at);
    ListenSteps.ReceiptShape(l, e.from, e.packet);
    if e.from in l.conns {
      SettleConns(m, e.from, Connection.Send(l.conns[e.from], e.packet, e.now), e.at);
    } else if l.acceptQ != [] {
      ListenSteps.AnsweredShape(m, e.from, e.packet, e.id, e.order, e.now, e.at);
      var q := m.(acceptQ := m.acceptQ[1..]);
      ListenConnected(q, e.from, [e.packet], e.id, e.order, e.now, e.at);
      SameNew(q, l, e.from, [e.packet], e.id, e.now);
      var k := Listen.Connected(q, e.from, [e.packet], e.id, e.order, e.now, e.at);
      ListenSteps.ArmFields(k.(answers := m.answers + [Listen.Answer(m.acceptQ[0], e.from, e.id)]), e.at);
    } else {
      ListenBacklog.BackloggedFields(m, e.from, e.packet, e.now, e.at);
    }
  }

  lemma SameNew(l: Listen.Listener, m: Listen.Listener, from: Addr, packets: seq<Packet>, id: Id, now: int)
    requires l.timeout == m.timeout
    ensures Listen.NewConn(l, from, packets, id, now) == Listen.NewConn(m, from, packets, id, now)
  {
  }

  lemma SettleConns(l: Listen.Listener, a: Addr, o: Connection.Outcome, at: int)
    ensures Listen.Settle(l, a, o, at).conns == After(l.conns, a, o) && Listen.Settle(l, a, o, at).live == l.live
  {
    hide Schedule, Listen.Add, Listen.Payload, Listen.Queued;
  }

  lemma AcceptedIs(run: ListenSteps.Run, e: ListenSteps.Event)
    requires ListenSteps.Good(run) && ListenSteps.Enabled(run, e) && e.Accept?
    ensures ListenBacklog.BacklogOk(run.l) && ListenSteps.Next(run, e).l.live
    ensures var l, n := run.l, ListenSteps.Next(run, e).l;
            && (l.backlogQ == [] ==> n.conns == l.conns)
            && (l.backlogQ != [] ==>
                  var pc := l.backlogQ[0];
                  var c := Listen.NewConn(l, pc.addr, pc.packets, e.id, e.now);
                  && Listen.CanConnect(l, pc.addr, e.order) && Enumerates(e.order, l.conns[pc.addr := c])
                  && n.conns == Listen.Evicted(l.conns[pc.addr := c], l.limit, pc.addr, e.order))
  {
    ListenSteps.GoodParts(run);
    assert run.l.live;
    var l := run.l;
    hide *;
    ListenSteps.NextAccept(run, e.req, e.id, e.order, e.now, e.at);
    ListenSteps.AcceptingShape(l, e.req, e.id, e.order, e.now, e.at);
    if l.backlogQ != [] {
      var n, pc := l.(backlogQ := l.backlogQ[1..]), l.backlogQ[0];
      ListenConnected(n, pc.addr, pc.packets, e.id, e.order, e.now, e.at);
      SameNew(n, l, pc.addr, pc.packets, e.id, e.now);
    }
  }

  lemma OthersAre(run: ListenSteps.Run, e: ListenSteps.Event)
    requires ListenSteps.Good(run) && ListenSteps.Enabled(run, e) && (e.Cancel? || e.Callback? || e.Gone? || e.Check?)
    ensures ListenBacklog.BacklogOk(run.l) && ListenSteps.Next(run, e).l.live
    ensures var l, n := run.l, ListenSteps.Next(run, e).l;
            && (e.Cancel? ==> n.conns == l.conns)
            && (e.Callback? ==> e.a in l.conns && n.conns == After(l.conns, e.a, Connection.Apply(l.conns[e.a], e.e)))
            && (e.Gone? ==> n.conns == l.conns - {e.a})
            && (e.Check? ==> n.conns == Unexpired(l.conns, e.t2))
  {
    ListenSteps.GoodParts(run);
    assert run.l.live;
    match e
    case Cancel(req) =>
      hide *;
      ListenSteps.NextCancel(run, req);
      ListenSteps.CancelShape(run.l, req);
    case Callback(a, ce, at) =>
      hide *;
      ListenSteps.NextCallback(run, a, ce, at);
      SettleConns(run.l, a, Connection.Apply(run.l.conns[a], ce), at);
    case Gone(a) =>
      hide *;
      GoneIs(run, a);
    case Check(t1, t2, t3) =>
      hide *;
      CheckIs(run, t1, t2, t3);
  }

  lemma GoneIs(run: ListenSteps.Run, a: Addr)
    requires ListenBacklog.BacklogOk(run.l) && ListenSteps.Enabled(run, ListenSteps.Gone(a))
    ensures var n := ListenSteps.Next(run, ListenSteps.Gone(a)).l; n.conns == run.l.conns - {a} && n.live == run.l.live
  {
    hide ListenBacklog.BacklogOk, Listen.Queued, Listen.Add;
  }

  lemma CheckIs(run: ListenSteps.Run, t1: int, t2: int, t3: int)
    requires ListenBacklog.BacklogOk(run.l) && ListenSteps.Enabled(run, ListenSteps.Check(t1, t2, t3))
    ensures var n := ListenSteps.Next(run, ListenSteps.Check(t1, t2, t3)).l;
            n.conns == Unexpired(run.l.conns, t2) && n.live == run.l.live
  {
    hide ListenBacklog.BacklogOk, Listen.DropConns, Listen.DropPending, Listen.PopExpired, Schedule, Unexpired;
  }

  // What each event of a listener is in the tables.
  lemma ListenOpsAre(s: State, h: Ref, r: Ref, rs: seq<Ref>, run: ListenSteps.Run, e: ListenSteps.Event)
    requires Sees(s, h, run.l.conns) && ListenSteps.Good(run) && ListenEnabled(s, h, r, rs, run, e)
    ensures ListenSteps.Enabled(run, e) && !e.Gone? && !e.Dispose? && h in s.parents
    ensures Newcomer(run.l, e).Some? ==> NewConn(s, r, e.id)
    ensures e.Check? ==> ExpiredOnes(s, h, rs, e.t2) && Sweepable(s, rs)
    ensures var l, ops := run.l, ListenOps(s, h, r, rs, run, e);
            && (e.Receive? ==>
                  && (e.from in l.conns ==>
                        e.from in s.parents[h].addrMap
                        && ops == Changed(s, h, e.from, Connection.Send(l.conns[e.from], e.packet, e.now)))
                  && (e.from !in l.conns && l.acceptQ != [] ==>
                        Listen.CanConnect(l, e.from, e.order)
                        && ops == Insertion(h, r, l, e.from, [e.packet], e.id, e.order, e.now))
                  && (e.from !in l.conns && l.acceptQ == [] ==> ops == []))
            && (e.Accept? ==>
                  && (l.backlogQ == [] ==> ops == [])
                  && (l.backlogQ != [] ==>
                        var pc := l.backlogQ[0];
                        Listen.CanConnect(l, pc.addr, e.order)
                        && ops == Insertion(h, r, l, pc.addr, pc.packets, e.id, e.order, e.now)))
            && (e.Cancel? ==> ops == [])
            && (e.Callback? ==>
                  && e.a in l.conns && e.a in s.parents[h].addrMap
                  && ops == Changed(s, h, e.a, Connection.Apply(l.conns[e.a], e.e)))
            && (e.Check? ==> ops == [TableRuns.RemoveAll(IdsOf(s, rs))])
  {
    SeesIs(s, h, run.l.conns);
    forall a | a in run.l.conns
      ensures a in s.parents[h].addrMap
    {
      SeesAt(s, h, run.l.conns, a);
    }
    ListenSteps.GoodParts(run);
    if e.Receive? {
      ReceivedIs(run, e);
    } else if e.Accept? {
      AcceptedIs(run, e);
    } else if e.Check? {
      OnesExpired(s, h, rs, e.t2);
    }
    hide Sees, Seen, Settled, NewConn, ExpiredOnes, Connection.Send, Connection.Apply, Changed, Insertion,
         ListenSteps.Good, Listen.CanConnect, Sweepable;
  }

  /** A listener's event does to its view in the tables what it does in its run, and
      nothing to what any other parent sees. */
  lemma ListenSees(s: State, h: Ref, r: Ref, rs: seq<Ref>, run: ListenSteps.Run, e: ListenSteps.Event)
    requires Sees(s, h, run.l.conns) && ListenSteps.Good(run) && ListenEnabled(s, h, r, rs, run, e)
    ensures Settled(s) && ListenBacklog.BacklogOk(run.l) && ListenSteps.Next(run, e).l.live
    ensures NowSees(s, Applied(s, ListenOps(s, h, r, rs, run, e)), h, ListenSteps.Next(run, e).l.conns)
  {
    hide *;
    SeesIs(s, h, run.l.conns);
    ListenOpsAre(s, h, r, rs, run, e);
    var l := run.l;
    if e.Receive? {
      ReceivedIs(run, e);
      if e.from in l.conns {
        SendSame(l.conns[e.from], e.packet, e.now);
        ChangedSees(s, h, l.conns, e.from, Connection.Send(l.conns[e.from], e.packet, e.now));
      } else if l.acceptQ != [] {
        NewcomerIs(l, e);
        ListenInserts(s, h, r, l, e.from, [e.packet], e.id, e.order, e.now);
      } else {
        NothingSeen(s, h);
      }
    } else if e.Accept? {
      AcceptedIs(run, e);
      if l.backlogQ != [] {
        NewcomerIs(l, e);
        ListenInserts(s, h, r, l, l.backlogQ[0].addr, l.backlogQ[0].packets, e.id, e.order, e.now);
      } else {
        NothingSeen(s, h);
      }
    } else {
      OthersAre(run, e);
      if e.Cancel? {
        NothingSeen(s, h);
      } else if e.Callback? {
        SameConn(l.conns[e.a], e.e);
        ChangedSees(s, h, l.conns, e.a, Connection.Apply(l.conns[e.a], e.e));
      } else {
        ExpiredSees(s, h, rs, l.conns, e.t2);
      }
    }
  }

  lemma NewcomerIs(l: Listen.Listener, e: ListenSteps.Event)
    ensures e.Receive? && e.from !in l.conns && l.acceptQ != [] ==> Newcomer(l, e).Some?
    ensures e.Accept? && l.backlogQ != [] ==> Newcomer(l, e).Some?
  {
  }

  lemma NothingSeen(s: State, h: Ref)
    requires Settled(s) && h in s.parents
    ensures NowSees(s, Applied(s, []), h, Seen(s, h))
  {
    hide *;
    AppliedNone(s);
    SeesSame(s, h);
  }
}

/** The events of a datagram listener, in any interleaving: datagrams, ACCEPT requests,
    cancellations, callbacks of its connections, removals and checks; and what each of
    them keeps. */
module ListenSteps {
  import opened Base
  import opened Pool
  import opened Listen
  import opened ListenPackets
  import opened ListenBacklog
  import Connection

  datatype Event =
    | Receive(from: Addr, packet: Packet, id: Id, order: seq<Addr>, now: int, at: int)
    | Accept(req: Req, id: Id, order: seq<Addr>, now: int, at: int)
    | Cancel(req: Req)
    | Callback(a: Addr, e: Connection.Event, at: int)
    | Gone(a: Addr)
    | Check(t1: int, t2: int, t3: int)
    | Dispose

  /** touched: connections touched since they were inserted. strict: the clock has
      advanced before every datagram and ACCEPT request so far. */
  datatype Run = Run(l: Listener, clock: int, submitted: seq<Req>, cancelled: set<Req>,
                     touched: set<Addr>, strict: bool)

  ghost predicate Visits(l: Listener, from: Addr, order: seq<Addr>) {
    Enumerates(order, l.conns[from := NewConn(l, from, [], 0, 0)])
  }

  /** The clock never runs backwards, the timer never goes off early, every ACCEPT
      request is a new one, and nothing happens after disposal. */
  ghost predicate Enabled(r: Run, e: Event) {
    r.l.live && match e
    case Receive(from, _, _, order, now, at) => Visits(r.l, from, order) && r.clock <= now <= at
    case Accept(req, _, order, now, at) =>
      && req !in r.submitted && r.clock <= now <= at
      && (r.l.backlogQ != [] ==> Visits(r.l, r.l.backlogQ[0].addr, order))
    case Callback(a, ce, at) => a in r.l.conns && !ce.Arrive? && r.clock <= Connection.Moment(ce, r.clock) <= at
    case Check(t1, t2, t3) => r.l.timer.Some? && r.l.timer.value.due <= t1 && r.clock <= t1 <= t2 <= t3
    case _ => true
  }

  function Active(touched: set<Addr>, a: Addr, o: Connection.Outcome): set<Addr> {
    (if o.touched then touched + {a} else touched) - if o.remove then {a} else {}
  }

  ghost function Next(r: Run, e: Event): Run
    requires BacklogOk(r.l)
  {
    if !Enabled(r, e) then r
    else match e
      case Receive(from, packet, id, order, now, at) =>
        var m := Received(r.l, from, packet, id, order, now, at);
        r.(l := m, clock := at, strict := r.strict && r.clock < now,
           touched := if from in r.l.conns then Active(r.touched, from, Connection.Send(r.l.conns[from], packet, now))
                      else (r.touched - {from}) * m.conns.Keys)
      case Accept(req, id, order, now, at) =>
        var m := Accepting(r.l, req, id, order, now, at);
        r.(l := m, clock := at, strict := r.strict && r.clock < now, submitted := r.submitted + [req],
           touched := r.touched * (m.conns.Keys * r.l.conns.Keys))
      case Cancel(req) =>
        r.(l := Cancelled(r.l, req), cancelled := if req in r.l.acceptQ then r.cancelled + {req} else r.cancelled)
      case Callback(a, ce, at) =>
        var o := Connection.Apply(r.l.conns[a], ce);
        r.(l := Settle(r.l, a, o, at), clock := at, touched := Active(r.touched, a, o))
      case Gone(a) => r.(l := Without(r.l, a), touched := r.touched - {a})
      case Check(t1, t2, t3) =>
        var m := Checked(r.l, t1, t2, t3);
        r.(l := m, clock := t3, touched := r.touched * m.conns.Keys)
      case Dispose =>
        r.(l := Disposed(r.l), cancelled := r.cancelled + (set q | q in r.l.acceptQ), touched := {})
  }

  // ---------- What every run keeps ----------

  predicate Exclusive(l: Listener) {
    l.acceptQ == [] || l.backlogQ == []
  }

  ghost predicate OwnConn(l: Listener, a: Addr)
    requires a in l.conns
  {
    var c := l.conns[a];
    c.addr == a && c.timeout == l.timeout && c.attached && Sane(c)
  }

  ghost predicate OwnConns(l: Listener) {
    forall a :: a in l.conns ==> OwnConn(l, a)
  }

  predicate PendingCovered(timer: Timer, q: seq<Pending>) {
    timer.Some? ==> forall i :: 0 <= i < |q| ==> timer.value.due <= Max(timer.value.at, q[i].expiry)
  }

  ghost predicate Timely(l: Listener, clock: int) {
    && clock > 0 && Young(l.conns, clock, l.timeout) && Covers(l.timer, l.conns, clock, l.timeout)
    && PendingYoung(l.backlogQ, clock, l.timeout) && PendingCovered(l.timer, l.backlogQ)
  }

  predicate TouchedTimed(l: Listener, touched: set<Addr>) {
    touched <= l.conns.Keys && (touched != {} ==> l.timer.Some?)
  }

  predicate Capped(l: Listener, strict: bool) {
    l.limit > 0 && (strict ==> |l.conns| <= l.limit)
  }

  predicate InOrder(l: Listener, submitted: seq<Req>, cancelled: set<Req>) {
    && NoRepeats(submitted) && (forall q :: q in cancelled ==> q in submitted)
    && Reqs(l.answers) + l.acceptQ == Kept(submitted, cancelled)
  }

  ghost predicate Good(r: Run) {
    && BacklogOk(r.l) && Exclusive(r.l) && OwnConns(r.l) && Timely(r.l, r.clock) && Conserved(r.l)
    && TouchedTimed(r.l, r.touched) && Capped(r.l, r.strict) && InOrder(r.l, r.submitted, r.cancelled)
  }

  lemma GoodParts(r: Run)
    requires Good(r)
    ensures BacklogOk(r.l) && Exclusive(r.l) && OwnConns(r.l) && Timely(r.l, r.clock) && Conserved(r.l)
    ensures TouchedTimed(r.l, r.touched) && Capped(r.l, r.strict) && InOrder(r.l, r.submitted, r.cancelled)
    ensures AllSane(r.l)
  {
  }

  lemma GoodIntro(r: Run)
    requires BacklogOk(r.l) && Exclusive(r.l) && OwnConns(r.l) && Timely(r.l, r.clock) && Conserved(r.l)
    requires TouchedTimed(r.l, r.touched) && Capped(r.l, r.strict) && InOrder(r.l, r.submitted, r.cancelled)
    ensures Good(r)
  {
  }

  // ---------- Frames ----------

  // Apart from connections, timer and logs, m is l with the first k pending entries gone.
  ghost predicate Popped(l: Listener, m: Listener, k: nat) {
    && k <= |l.backlogQ| && m.backlogQ == l.backlogQ[k..] && m.acceptQ == l.acceptQ
    && m.timeout == l.timeout && m.limit == l.limit && m.backlog == l.backlog && m.live == l.live
  }

  lemma PoppedBacklog(l: Listener, m: Listener, k: nat, from: set<Addr>)
    requires BacklogOk(l) && Popped(l, m, k)
    requires m.conns.Keys <= l.conns.Keys + from
    requires forall i :: 0 <= i < |m.backlogQ| ==> m.backlogQ[i].addr !in from
    ensures BacklogOk(m) && (Exclusive(l) ==> Exclusive(m))
  {
  }

  lemma SubConns(l: Listener, m: Listener)
    requires OwnConns(l) && m.timeout == l.timeout
    requires forall a :: a in m.conns ==> a in l.conns && m.conns[a] == l.conns[a]
    ensures OwnConns(m)
  {
    forall a | a in m.conns
      ensures OwnConn(m, a)
    {
      assert OwnConn(l, a);
    }
  }

  // ---------- Arming the timer ----------

  lemma ArmFields(l: Listener, at: int)
    ensures Arm(l, at) == l.(timer := Arm(l, at).timer)
  {
    hide Schedule;
  }

  lemma ArmTimely(l: Listener, at: int)
    requires Timely(l, at) && Sorted(l.backlogQ)
    ensures Timely(Arm(l, at), at)
    ensures l.conns != map[] ==> Arm(l, at).timer.Some?
    ensures l.timer.Some? ==> Arm(l, at).timer == l.timer
  {
    ScheduleCovers(l.timer, l.conns, HeadExpiry(l.backlogQ), at, l.timeout);
    if l.timer.None? && l.conns == map[] {
      assert Arm(l, at).timer == None;
    }
  }

  lemma Later(l: Listener, clock: int, at: int)
    requires Timely(l, clock) && clock <= at
    ensures Timely(l, at)
  {
  }

  // ---------- A new connection ----------

  lemma ConnectedFields(l: Listener, from: Addr, packets: seq<Packet>, id: Id, order: seq<Addr>, now: int, at: int)
    requires CanConnect(l, from, order)
    ensures var m, c := Connected(l, from, packets, id, order, now, at), NewConn(l, from, packets, id, now);
            && Popped(l, m, 0) && m.answers == l.answers && m.timer == Arm(l, at).timer
            && (forall a :: a in m.conns ==> if a == from then m.conns[a] == c
                                             else a in l.conns && m.conns[a] == l.conns[a])
            && Enumerates(order, l.conns[from := c])
            && m.conns == Evicted(l.conns[from := c], l.limit, from, order)
            && from in m.conns && from !in l.conns && c.expiry == now + l.timeout
  {
    SameOrder(l, from, packets, id, order, now);
    hide Schedule, DropConns;
  }

  lemma ConnectedOwn(l: Listener, m: Listener, from: Addr, packets: seq<Packet>, id: Id, now: int)
    requires OwnConns(l) && m.timeout == l.timeout
    requires forall a :: a in m.conns ==>
               if a == from then m.conns[a] == NewConn(l, from, packets, id, now)
               else a in l.conns && m.conns[a] == l.conns[a]
    ensures OwnConns(m)
  {
    forall a | a in m.conns
      ensures OwnConn(m, a)
    {
      assert a != from ==> OwnConn(l, a);
    }
  }

  lemma ConnectedTimely(l: Listener, clock: int, m: Listener, from: Addr, c: Connection.Conn, now: int, at: int)
    requires Timely(l, clock) && clock <= now <= at && Sorted(l.backlogQ) && Popped(l, m, 0)
    requires m.timer == Arm(l, at).timer && c.expiry == now + l.timeout
    requires forall a :: a in m.conns ==> if a == from then m.conns[a] == c
                                          else a in l.conns && m.conns[a] == l.conns[a]
    ensures Timely(m, at)
  {
    Later(l, clock, at);
    ArmTimely(l, at);
    ArmFields(l, at);
    NewCovered(l.timer, m.timer, l.conns, HeadExpiry(l.backlogQ), l.conns, from, c, clock, now, at, l.timeout);
    hide Arm;
    FewerCovered(m.timer, l.conns[from := c], m.conns, at, at, l.timeout);
  }

  /** Under a clock that advances, the newcomer is never the oldest. */
  lemma ConnectedCapped(l: Listener, m: Listener, strict: bool, clock: int, from: Addr, c: Connection.Conn,
                        order: seq<Addr>, now: int)
    requires Capped(l, strict) && Young(l.conns, clock, l.timeout) && from !in l.conns
    requires c.expiry == now + l.timeout && m.limit == l.limit
    requires Enumerates(order, l.conns[from := c]) && m.conns == Evicted(l.conns[from := c], l.limit, from, order)
    ensures Capped(m, strict && clock < now)
  {
    var all := l.conns[from := c];
    SizeInsert(l.conns, from, c);
    NonEmptyOrder(order, all);
    if strict && clock < now && |all| > l.limit {
      NotTheOnlyOne(l.conns);
      var b :| b in l.conns;
      assert all[b].expiry < c.expiry;
      SizeRemove(all, Oldest(order, all));
    }
  }

  lemma NotTheOnlyOne(conns: Conns)
    requires |conns| > 0
    ensures exists b :: b in conns
  {
    assert conns != map[];
  }

  // What every operation that makes a connection keeps.
  ghost predicate Sound(l: Listener, clock: int, strict: bool) {
    BacklogOk(l) && OwnConns(l) && Timely(l, clock) && Capped(l, strict)
  }

  lemma SoundParts(l: Listener, clock: int, strict: bool)
    requires Sound(l, clock, strict)
    ensures BacklogOk(l) && OwnConns(l) && Timely(l, clock) && Capped(l, strict)
    ensures Sorted(l.backlogQ) && Young(l.conns, clock, l.timeout) && Apart(l)
  {
  }

  lemma SoundIntro(l: Listener, clock: int, strict: bool)
    requires BacklogOk(l) && OwnConns(l) && Timely(l, clock) && Capped(l, strict)
    ensures Sound(l, clock, strict)
  {
  }

  lemma ConnectedSound(l: Listener, clock: int, strict: bool, from: Addr, packets: seq<Packet>, id: Id,
                       order: seq<Addr>, now: int, at: int)
    requires Sound(l, clock, strict) && CanConnect(l, from, order) && clock <= now <= at
    requires forall i :: 0 <= i < |l.backlogQ| ==> l.backlogQ[i].addr != from
    ensures Sound(Connected(l, from, packets, id, order, now, at), at, strict && clock < now)
  {
    hide *;
    var m, c := Connected(l, from, packets, id, order, now, at), NewConn(l, from, packets, id, now);
    ConnectedFields(l, from, packets, id, order, now, at);
    ConnectedKeys(l, m, from);
    SoundParts(l, clock, strict);
    PoppedTimeout(l, m, 0);
    PoppedBacklog(l, m, 0, {from});
    ConnectedOwn(l, m, from, packets, id, now);
    ConnectedTimely(l, clock, m, from, c, now, at);
    ConnectedCapped(l, m, strict, clock, from, c, order, now);
    SoundIntro(m, at, strict && clock < now);
  }

  lemma ConnectedKeys(l: Listener, m: Listener, from: Addr)
    requires forall a :: a in m.conns ==> a == from || a in l.conns
    ensures m.conns.Keys <= l.conns.Keys + {from}
  {
  }

  lemma PoppedTimeout(l: Listener, m: Listener, k: nat)
    requires Popped(l, m, k)
    ensures m.timeout == l.timeout && m.limit == l.limit && m.acceptQ == l.acceptQ && k <= |l.backlogQ|
    ensures m.backlogQ == l.backlogQ[k..]
  {
  }

  // ---------- A callback of a connection ----------

  lemma SettleFields(l: Listener, a: Addr, o: Connection.Outcome, at: int)
    requires a in l.conns && !o.remove
    ensures var m := Settle(l, a, o, at);
            && Popped(l, m, 0) && m.answers == l.answers && m.conns == l.conns[a := o.conn]
            && m.timer == if o.touched then Arm(l.(conns := l.conns[a := o.conn]), at).timer else l.timer
  {
    hide Schedule, Add, Payload;
  }

  // What a callback that ends at the given reading gives back.
  ghost predicate Returns(l: Listener, a: Addr, o: Connection.Outcome, clock: int, now: int, at: int) {
    && a in l.conns && clock <= now <= at && !o.remove
    && o.conn.addr == a && o.conn.timeout == l.timeout && o.conn.attached && Sane(o.conn)
    && o.conn.expiry == if o.touched then now + l.timeout else l.conns[a].expiry
  }

  lemma ReturnsIntro(l: Listener, a: Addr, e: Connection.Event, clock: int, at: int)
    requires OwnConns(l) && a in l.conns && clock <= Connection.Moment(e, clock) <= at
    ensures Returns(l, a, Connection.Apply(l.conns[a], e), clock, Connection.Moment(e, clock), at)
  {
    var c := l.conns[a];
    assert OwnConn(l, a);
    OutcomeShape(c, Connection.Apply(c, e), e, clock);
    CallbackConserves(c, e, 0);
  }

  lemma SettleOwn(l: Listener, m: Listener, a: Addr, o: Connection.Outcome, clock: int, now: int, at: int)
    requires OwnConns(l) && Returns(l, a, o, clock, now, at) && m.timeout == l.timeout
    requires m.conns == l.conns[a := o.conn]
    ensures OwnConns(m)
  {
    forall b | b in m.conns
      ensures OwnConn(m, b)
    {
      assert b != a ==> OwnConn(l, b);
    }
  }

  lemma SettleTimely(l: Listener, m: Listener, a: Addr, o: Connection.Outcome, clock: int, now: int, at: int)
    requires Timely(l, clock) && Sorted(l.backlogQ) && Returns(l, a, o, clock, now, at) && Popped(l, m, 0)
    requires m.conns == l.conns[a := o.conn]
    requires m.timer == if o.touched then Arm(l.(conns := l.conns[a := o.conn]), at).timer else l.timer
    ensures Timely(m, at)
    ensures (l.timer.Some? || o.touched) ==> m.timer.Some?
  {
    var n := l.(conns := l.conns[a := o.conn]);
    assert a in n.conns && n.conns != map[];
    RefreshCovers(l.timer, l.conns, a, o.conn, clock, at, l.timeout);
    ArmTimely(n, at);
    ArmFields(n, at);
    hide Arm, Young, Covers;
  }

  lemma SettleCapped(l: Listener, m: Listener, a: Addr, c: Connection.Conn, strict: bool)
    requires Capped(l, strict) && a in l.conns && m.conns == l.conns[a := c] && m.limit == l.limit
    ensures Capped(m, strict)
  {
    SizeInsert(l.conns, a, c);
  }

  lemma SettleTouched(l: Listener, m: Listener, touched: set<Addr>, a: Addr, o: Connection.Outcome)
    requires TouchedTimed(l, touched) && a in l.conns && m.conns == l.conns[a := o.conn] && !o.remove
    requires (l.timer.Some? || o.touched) ==> m.timer.Some?
    ensures TouchedTimed(m, Active(touched, a, o))
  {
  }

  lemma KeysSame(l: Listener, m: Listener, a: Addr, c: Connection.Conn)
    requires a in l.conns && m.conns == l.conns[a := c]
    ensures m.conns.Keys <= l.conns.Keys + {}
  {
  }

  lemma SettleSound(l: Listener, touched: set<Addr>, a: Addr, o: Connection.Outcome, clock: int, now: int, at: int,
                    strict: bool)
    requires Sound(l, clock, strict) && TouchedTimed(l, touched) && Returns(l, a, o, clock, now, at)
    ensures Sound(Settle(l, a, o, at), at, strict)
    ensures TouchedTimed(Settle(l, a, o, at), Active(touched, a, o))
  {
    hide *;
    ReturnsHere(l, a, o, clock, now, at);
    SoundParts(l, clock, strict);
    var m := Settle(l, a, o, at);
    SettleFields(l, a, o, at);
    PoppedTimeout(l, m, 0);
    KeysSame(l, m, a, o.conn);
    PoppedBacklog(l, m, 0, {});
    SettleOwn(l, m, a, o, clock, now, at);
    SettleTimely(l, m, a, o, clock, now, at);
    SettleCapped(l, m, a, o.conn, strict);
    SettleTouched(l, m, touched, a, o);
    SoundIntro(m, at, strict);
  }

  lemma ReturnsHere(l: Listener, a: Addr, o: Connection.Outcome, clock: int, now: int, at: int)
    requires Returns(l, a, o, clock, now, at)
    ensures a in l.conns && !o.remove && clock <= now <= at
  {
  }

  // ---------- Fewer connections, fewer waiting senders ----------

  ghost predicate Fewer(l: Listener, m: Listener) {
    && (forall a :: a in m.conns ==> a in l.conns && m.conns[a] == l.conns[a])
    && |m.backlogQ| <= |l.backlogQ| && Popped(l, m, |l.backlogQ| - |m.backlogQ|)
  }

  lemma FewerTimely(l: Listener, m: Listener, clock: int, at: int)
    requires Timely(l, clock) && Fewer(l, m) && clock <= at && (m.timer == l.timer || m.timer.None?)
    ensures Timely(m, at)
  {
    FewerCovered(l.timer, l.conns, m.conns, clock, at, l.timeout);
    hide Young;
  }

  lemma FewerCapped(l: Listener, m: Listener, strict: bool)
    requires Capped(l, strict) && Fewer(l, m)
    ensures Capped(m, strict)
  {
    SubsetIsSmaller(m.conns.Keys, l.conns.Keys);
  }

  lemma FewerShape(l: Listener, m: Listener)
    requires Fewer(l, m)
    ensures m.timeout == l.timeout && forall a :: a in m.conns ==> a in l.conns && m.conns[a] == l.conns[a]
    ensures m.conns.Keys <= l.conns.Keys + {}
    ensures |m.backlogQ| <= |l.backlogQ| && Popped(l, m, |l.backlogQ| - |m.backlogQ|)
  {
  }

  lemma FewerSound(l: Listener, m: Listener, clock: int, at: int, strict: bool)
    requires Sound(l, clock, strict) && Fewer(l, m) && clock <= at && (m.timer == l.timer || m.timer.None?)
    ensures Sound(m, at, strict) && (Exclusive(l) ==> Exclusive(m))
  {
    hide *;
    SoundParts(l, clock, strict);
    FewerShape(l, m);
    PoppedBacklog(l, m, |l.backlogQ| - |m.backlogQ|, {});
    SubConns(l, m);
    FewerTimely(l, m, clock, at);
    FewerCapped(l, m, strict);
    SoundIntro(m, at, strict);
  }

  lemma ArmSound(l: Listener, clock: int, strict: bool)
    requires Sound(l, clock, strict)
    ensures Sound(Arm(l, clock), clock, strict)
    ensures l.conns != map[] ==> Arm(l, clock).timer.Some?
  {
    hide Timely, BacklogOk, OwnConns, Arm, OwnConn, Sorted;
    SoundParts(l, clock, strict);
    ArmTimely(l, clock);
    ArmFields(l, clock);
    SameBacklog(l, Arm(l, clock));
    SubConns(l, Arm(l, clock));
  }

  lemma SameBacklog(l: Listener, m: Listener)
    requires BacklogOk(l) && m.backlogQ == l.backlogQ && m.backlog == l.backlog && m.conns == l.conns
    ensures BacklogOk(m)
  {
  }

  // ---------- The ACCEPT queue ----------

  lemma ReqsSnoc(answers: seq<Answer>, answer: Answer)
    ensures Reqs(answers + [answer]) == Reqs(answers) + [answer.req]
  {
  }

  lemma SameOrderKept(l: Listener, m: Listener, submitted: seq<Req>, cancelled: set<Req>)
    requires InOrder(l, submitted, cancelled) && m.answers == l.answers && m.acceptQ == l.acceptQ
    ensures InOrder(m, submitted, cancelled)
  {
  }

  lemma AnsweredInOrder(l: Listener, m: Listener, submitted: seq<Req>, cancelled: set<Req>, from: Addr, id: Id)
    requires InOrder(l, submitted, cancelled) && l.acceptQ != []
    requires m.answers == l.answers + [Answer(l.acceptQ[0], from, id)] && m.acceptQ == l.acceptQ[1..]
    ensures InOrder(m, submitted, cancelled)
  {
    ReqsSnoc(l.answers, Answer(l.acceptQ[0], from, id));
    assert l.acceptQ == [l.acceptQ[0]] + l.acceptQ[1..];
  }

  lemma SubmittedInOrder(l: Listener, m: Listener, submitted: seq<Req>, cancelled: set<Req>, req: Req)
    requires InOrder(l, submitted, cancelled) && req !in submitted
    requires Reqs(m.answers) + m.acceptQ == Reqs(l.answers) + l.acceptQ + [req]
    ensures InOrder(m, submitted + [req], cancelled)
  {
    assert Front(submitted + [req]) == submitted;
  }

  lemma CancelledInOrder(l: Listener, submitted: seq<Req>, cancelled: set<Req>, req: Req)
    requires InOrder(l, submitted, cancelled)
    ensures InOrder(Cancelled(l, req), submitted, if req in l.acceptQ then cancelled + {req} else cancelled)
  {
    KeptDistinct(submitted, cancelled);
    AnsweredApart(Reqs(l.answers), l.acceptQ);
    UnqueueIsKept(l.acceptQ, req);
    hide Kept, Unqueue;
    if req in l.acceptQ {
      CancelKeepsOrder(Reqs(l.answers), l.acceptQ, submitted, cancelled, {req});
      assert req in Kept(submitted, cancelled);
    } else {
      KeptAll(l.acceptQ, {req});
    }
  }

  lemma DisposedInOrder(l: Listener, submitted: seq<Req>, cancelled: set<Req>)
    requires InOrder(l, submitted, cancelled)
    ensures InOrder(Disposed(l), submitted, cancelled + set q | q in l.acceptQ)
  {
    var x := set q | q in l.acceptQ;
    KeptDistinct(submitted, cancelled);
    KeptNone(l.acceptQ, x);
    hide Kept;
    CancelKeepsOrder(Reqs(l.answers), l.acceptQ, submitted, cancelled, x);
    forall q | q in x
      ensures q in submitted
    {
      assert q in Kept(submitted, cancelled);
    }
  }

  // ---------- A datagram for the backlog ----------

  lemma EnqueuedCovered(timer: Timer, q: seq<Pending>, r: seq<Pending>, from: Addr, now: int, timeout: nat)
    requires timer.Some? ==> timer.value.at <= now && timer.value.due <= timer.value.at + timeout
    requires PendingCovered(timer, q)
    requires forall y :: y in r ==> y in q || (y.addr == from && y.expiry == now + timeout)
    ensures PendingCovered(timer, r)
  {
    forall i | timer.Some? && 0 <= i < |r|
      ensures timer.value.due <= Max(timer.value.at, r[i].expiry)
    {
      assert r[i] in r;
    }
  }

  lemma PurgedCovered(timer: Timer, q: seq<Pending>, backlog: nat)
    requires PendingCovered(timer, q)
    ensures PendingCovered(timer, Purged(q, backlog))
  {
  }

  // The listener between the search and the arming of the timer.
  function Searched(l: Listener, from: Addr, packet: Packet, now: int): Listener {
    Trimmed(l).(backlogQ := Enqueued(Trimmed(l).backlogQ, from, packet, now + l.timeout))
  }

  lemma SearchedFields(l: Listener, from: Addr, packet: Packet, now: int, at: int)
    ensures var n, m := Searched(l, from, packet, now), Backlogged(l, from, packet, now, at);
            && (m == n || m == Arm(n, at))
            && n.backlogQ == Enqueued(Purged(l.backlogQ, l.backlog), from, packet, now + l.timeout)
            && n.timer == l.timer && n.timeout == l.timeout && n.limit == l.limit && n.conns == l.conns
            && n.acceptQ == l.acceptQ && n.answers == l.answers && n.backlog == l.backlog
            && m.backlogQ == n.backlogQ && m.conns == l.conns && m.backlog == l.backlog
  {
    ArmFields(Searched(l, from, packet, now), at);
    hide Arm, Enqueued, Purged, DropPending;
  }

  lemma TimelyWithQueue(l: Listener, n: Listener, clock: int, at: int)
    requires Timely(l, clock) && clock <= at
    requires n.timer == l.timer && n.conns == l.conns && n.timeout == l.timeout
    requires PendingYoung(n.backlogQ, at, l.timeout) && PendingCovered(l.timer, n.backlogQ)
    ensures Timely(n, at)
  {
  }

  lemma TimelyParts(l: Listener, clock: int)
    requires Timely(l, clock)
    ensures clock > 0 && PendingYoung(l.backlogQ, clock, l.timeout) && PendingCovered(l.timer, l.backlogQ)
    ensures l.timer.Some? ==> l.timer.value.at <= clock && l.timer.value.due <= l.timer.value.at + l.timeout
  {
  }

  lemma SearchedTimely(l: Listener, clock: int, from: Addr, packet: Packet, now: int, at: int)
    requires Timely(l, clock) && clock <= now <= at && BacklogOk(l) && from !in l.conns
    ensures BacklogOk(Searched(l, from, packet, now)) && Timely(Searched(l, from, packet, now), at)
  {
    hide *;
    TimelyParts(l, clock);
    var n, q := Searched(l, from, packet, now), Purged(l.backlogQ, l.backlog);
    SearchedFields(l, from, packet, now, at);
    BackloggedOk(l, from, packet, now, at, clock);
    SameBacklog(Backlogged(l, from, packet, now, at), n);
    PurgedCovered(l.timer, l.backlogQ, l.backlog);
    EnqueuedElements(q, from, packet, now + l.timeout);
    EnqueuedCovered(l.timer, q, n.backlogQ, from, now, l.timeout);
    TimelyWithQueue(l, n, clock, at);
  }

  lemma BackloggedSound(l: Listener, touched: set<Addr>, clock: int, strict: bool, from: Addr, packet: Packet,
                        now: int, at: int)
    requires Sound(l, clock, strict) && clock <= now <= at && from !in l.conns
    requires TouchedTimed(l, touched)
    ensures Sound(Backlogged(l, from, packet, now, at), at, strict)
    ensures TouchedTimed(Backlogged(l, from, packet, now, at), touched)
  {
    hide *;
    SoundParts(l, clock, strict);
    var n, m := Searched(l, from, packet, now), Backlogged(l, from, packet, now, at);
    SearchedTimely(l, clock, from, packet, now, at);
    SearchedFields(l, from, packet, now, at);
    SubConns(l, n);
    SameCap(l, n, strict);
    SoundIntro(n, at, strict);
    ArmSound(n, at, strict);
    SameTouched(l, n, touched);
    ArmTouched(n, at, touched);
  }

  lemma SameCap(l: Listener, n: Listener, strict: bool)
    requires Capped(l, strict) && n.limit == l.limit && n.conns == l.conns
    ensures Capped(n, strict)
  {
  }

  lemma SameTouched(l: Listener, n: Listener, touched: set<Addr>)
    requires TouchedTimed(l, touched) && n.timer == l.timer && n.conns == l.conns
    ensures TouchedTimed(n, touched)
  {
  }

  lemma ArmTouched(l: Listener, at: int, touched: set<Addr>)
    requires TouchedTimed(l, touched)
    ensures TouchedTimed(Arm(l, at), touched)
  {
    hide TimeoutMs;
  }

  // ---------- Events ----------

  lemma SameQueues(l: Listener, m: Listener)
    requires Exclusive(l) && m.acceptQ == l.acceptQ && m.backlogQ == l.backlogQ
    ensures Exclusive(m)
  {
  }

  // A listener that differs from a sound one in its logs and its ACCEPT queue only.
  lemma SameSound(l: Listener, m: Listener, touched: set<Addr>, clock: int, strict: bool)
    requires Sound(l, clock, strict) && TouchedTimed(l, touched)
    requires m.conns == l.conns && m.backlogQ == l.backlogQ && m.timer == l.timer && m.timeout == l.timeout
    requires m.limit == l.limit && m.backlog == l.backlog
    ensures Sound(m, clock, strict) && TouchedTimed(m, touched)
  {
    hide BacklogOk, OwnConns, Timely, OwnConn, Sorted, Distinct, Young;
    SoundParts(l, clock, strict);
    SameBacklog(l, m);
    SubConns(l, m);
    SameTimely(l, m, clock);
  }

  lemma SameTimely(l: Listener, m: Listener, clock: int)
    requires Timely(l, clock)
    requires m.conns == l.conns && m.backlogQ == l.backlogQ && m.timer == l.timer && m.timeout == l.timeout
    ensures Timely(m, clock)
  {
  }

  lemma SendSound(l: Listener, touched: set<Addr>, clock: int, strict: bool, from: Addr, packet: Packet,
                  now: int, at: int)
    requires Sound(l, clock, strict) && TouchedTimed(l, touched) && from in l.conns && clock <= now <= at
    requires Exclusive(l)
    ensures var o := Connection.Send(l.conns[from], packet, now);
            var m := Settle(Receipt(l, from, packet), from, o, at);
            && Sound(m, at, strict) && TouchedTimed(m, Active(touched, from, o))
            && m.acceptQ == l.acceptQ && m.backlogQ == l.backlogQ && m.answers == l.answers
  {
    var c, e, n := l.conns[from], Connection.Arrive(packet, now), Receipt(l, from, packet);
    assert Connection.Send(c, packet, now) == Connection.Apply(c, e) && Connection.Moment(e, clock) == now;
    ReceiptShape(l, from, packet);
    hide *;
    SoundParts(l, clock, strict);
    SameSound(l, n, touched, clock, strict);
    SoundParts(n, clock, strict);
    ReturnsIntro(n, from, e, clock, at);
    SettleSound(n, touched, from, Connection.Apply(c, e), clock, now, at, strict);
    ReturnsHere(n, from, Connection.Apply(c, e), clock, now, at);
    SettleFields(n, from, Connection.Apply(c, e), at);
    PoppedTimeout(n, Settle(n, from, Connection.Apply(c, e), at), 0);
  }

  lemma ReceiptShape(l: Listener, from: Addr, packet: Packet)
    ensures Receipt(l, from, packet) == l.(received := Receipt(l, from, packet).received)
  {
  }

  lemma AnsweredShape(l: Listener, from: Addr, packet: Packet, id: Id, order: seq<Addr>, now: int, at: int)
    requires l.acceptQ != [] && CanConnect(l, from, order)
    ensures var n := l.(acceptQ := l.acceptQ[1..]);
            && CanConnect(n, from, order)
            && var k := Connected(n, from, [packet], id, order, now, at);
               var m := k.(answers := l.answers + [Answer(l.acceptQ[0], from, id)]);
            Answered(l, from, packet, id, order, now, at) == Arm(m, at)
  {
    hide Connected, Arm;
  }

  lemma AnsweredSound(l: Listener, touched: set<Addr>, clock: int, strict: bool, from: Addr, packet: Packet,
                      id: Id, order: seq<Addr>, now: int, at: int)
    requires Sound(l, clock, strict) && TouchedTimed(l, touched) && clock <= now <= at
    requires l.acceptQ != [] && CanConnect(l, from, order) && l.backlogQ == []
    ensures var m := Answered(l, from, packet, id, order, now, at);
            && Sound(m, at, strict && clock < now) && TouchedTimed(m, (touched - {from}) * m.conns.Keys)
            && m.backlogQ == [] && m.acceptQ == l.acceptQ[1..]
            && m.answers == l.answers + [Answer(l.acceptQ[0], from, id)]
  {
    hide *;
    var n := l.(acceptQ := l.acceptQ[1..]);
    AnsweredShape(l, from, packet, id, order, now, at);
    SameSound(l, n, touched, clock, strict);
    ConnectedSound(n, clock, strict, from, [packet], id, order, now, at);
    var k := Connected(n, from, [packet], id, order, now, at);
    ConnectedFields(n, from, [packet], id, order, now, at);
    PoppedTimeout(n, k, 0);
    var m := k.(answers := l.answers + [Answer(l.acceptQ[0], from, id)]);
    var left := (touched - {from}) * k.conns.Keys;
    ArmTouched(n, at, touched);
    ArmFields(n, at);
    TouchedTimer(Arm(n, at), touched);
    NowTimed(Arm(n, at), k, touched, left);
    SameSound(k, m, left, at, strict && clock < now);
    ArmSound(m, at, strict && clock < now);
    ArmFields(m, at);
    ArmTouched(m, at, left);
  }

  lemma TouchedTimer(l: Listener, touched: set<Addr>)
    requires TouchedTimed(l, touched)
    ensures touched != {} ==> l.timer.Some?
  {
  }

  lemma NowTimed(l: Listener, k: Listener, touched: set<Addr>, left: set<Addr>)
    requires TouchedTimed(l, touched) && k.timer == l.timer && left <= touched && left <= k.conns.Keys
    ensures TouchedTimed(k, left)
  {
  }

  lemma BranchShapes(l: Listener, from: Addr, packet: Packet, id: Id, order: seq<Addr>, now: int, at: int)
    requires from !in l.conns && l.acceptQ != [] ==> CanConnect(l, from, order)
    ensures var n, m := Receipt(l, from, packet), Received(l, from, packet, id, order, now, at);
            && (from in l.conns ==> m == Settle(n, from, Connection.Send(l.conns[from], packet, now), at))
            && (from !in l.conns && l.acceptQ != [] ==>
                  CanConnect(n, from, order) && m == Answered(n, from, packet, id, order, now, at))
            && (from !in l.conns && l.acceptQ == [] ==> m == Backlogged(n, from, packet, now, at))
  {
    hide Settle, Answered, Backlogged, Add, Connection.Send, Enumerates;
  }

  lemma NextReceive(r: Run, from: Addr, packet: Packet, id: Id, order: seq<Addr>, now: int, at: int)
    requires BacklogOk(r.l) && Enabled(r, Receive(from, packet, id, order, now, at))
    ensures r.clock <= now <= at
    ensures from !in r.l.conns && r.l.acceptQ != [] ==> CanConnect(r.l, from, order)
    ensures var m := Received(r.l, from, packet, id, order, now, at);
            Next(r, Receive(from, packet, id, order, now, at)) ==
            r.(l := m, clock := at, strict := r.strict && r.clock < now,
               touched := if from in r.l.conns
                          then Active(r.touched, from, Connection.Send(r.l.conns[from], packet, now))
                          else (r.touched - {from}) * m.conns.Keys)
  {
    hide BacklogOk, Received, Active, Connection.Send, Enumerates;
  }

  lemma NoLonger(l: Listener, clock: int, strict: bool, less: bool)
    requires Sound(l, clock, strict) && (less ==> strict)
    ensures Sound(l, clock, less)
  {
  }

  lemma FewerTouched(l: Listener, touched: set<Addr>, left: set<Addr>)
    requires TouchedTimed(l, touched) && left <= touched
    ensures TouchedTimed(l, left)
  {
  }

  lemma ReceiveGood(r: Run, from: Addr, packet: Packet, id: Id, order: seq<Addr>, now: int, at: int)
    requires Good(r) && BacklogOk(r.l) && Enabled(r, Receive(from, packet, id, order, now, at))
    ensures Good(Next(r, Receive(from, packet, id, order, now, at)))
  {
    hide *;
    GoodParts(r);
    NextReceive(r, from, packet, id, order, now, at);
    var l, n := r.l, Receipt(r.l, from, packet);
    var m, strict := Received(l, from, packet, id, order, now, at), r.strict && r.clock < now;
    SoundIntro(l, r.clock, r.strict);
    ReceivedConserves(l, from, packet, id, order, now, at);
    BranchShapes(l, from, packet, id, order, now, at);
    ReceiptShape(l, from, packet);
    SameSound(l, n, r.touched, r.clock, r.strict);
    if from in l.conns {
      SendSound(l, r.touched, r.clock, r.strict, from, packet, now, at);
      SameOrderKept(l, m, r.submitted, r.cancelled);
      SameQueues(l, m);
      NoLonger(m, at, r.strict, strict);
    } else if l.acceptQ != [] {
      OneQueue(l);
      AnsweredSound(n, r.touched, r.clock, r.strict, from, packet, id, order, now, at);
      AnsweredInOrder(l, m, r.submitted, r.cancelled, from, id);
      OneQueueIntro(m);
    } else {
      BackloggedSound(n, r.touched, r.clock, r.strict, from, packet, now, at);
      BackloggedFields(n, from, packet, now, at);
      SameOrderKept(l, m, r.submitted, r.cancelled);
      OneQueueIntro(m);
      NoLonger(m, at, r.strict, strict);
      FewerTouched(m, r.touched, (r.touched - {from}) * m.conns.Keys);
    }
    SoundParts(m, at, strict);
    GoodIntro(Next(r, Receive(from, packet, id, order, now, at)));
  }

  lemma OneQueue(l: Listener)
    requires Exclusive(l) && l.acceptQ != []
    ensures l.backlogQ == []
  {
  }

  lemma OneQueueIntro(l: Listener)
    requires l.acceptQ == [] || l.backlogQ == []
    ensures Exclusive(l)
  {
  }

  lemma NextAccept(r: Run, req: Req, id: Id, order: seq<Addr>, now: int, at: int)
    requires BacklogOk(r.l) && Enabled(r, Accept(req, id, order, now, at))
    ensures r.clock <= now <= at && req !in r.submitted
    ensures r.l.backlogQ != [] ==> CanConnect(r.l, r.l.backlogQ[0].addr, order)
    ensures var m := Accepting(r.l, req, id, order, now, at);
            Next(r, Accept(req, id, order, now, at)) ==
            r.(l := m, clock := at, strict := r.strict && r.clock < now, submitted := r.submitted + [req],
               touched := r.touched * (m.conns.Keys * r.l.conns.Keys))
  {
    hide Accepting, Enumerates, Sorted, Distinct;
  }

  lemma AcceptingShape(l: Listener, req: Req, id: Id, order: seq<Addr>, now: int, at: int)
    requires l.backlogQ != [] ==> CanConnect(l, l.backlogQ[0].addr, order)
    ensures var m := Accepting(l, req, id, order, now, at);
            && (l.backlogQ == [] ==> m == l.(acceptQ := l.acceptQ + [req]))
            && (l.backlogQ != [] ==>
                  var n := l.(backlogQ := l.backlogQ[1..]);
                  && CanConnect(n, l.backlogQ[0].addr, order)
                  && m == Connected(n, l.backlogQ[0].addr, l.backlogQ[0].packets, id, order, now, at)
                            .(answers := l.answers + [Answer(req, l.backlogQ[0].addr, id)]))
  {
    hide Connected, Enumerates;
  }

  lemma PopFewer(l: Listener)
    requires l.backlogQ != []
    ensures Fewer(l, l.(backlogQ := l.backlogQ[1..]))
    ensures forall i {:trigger l.backlogQ[i]} :: 0 < i < |l.backlogQ| ==> l.backlogQ[i] == l.backlogQ[1..][i - 1]
  {
  }

  lemma HeadApart(l: Listener)
    requires BacklogOk(l) && l.backlogQ != []
    ensures forall i :: 0 <= i < |l.backlogQ[1..]| ==> l.backlogQ[1..][i].addr != l.backlogQ[0].addr
  {
  }

  lemma TakenSound(l: Listener, touched: set<Addr>, clock: int, strict: bool, req: Req, id: Id, order: seq<Addr>,
                   now: int, at: int)
    requires Sound(l, clock, strict) && TouchedTimed(l, touched) && clock <= now <= at && Exclusive(l)
    requires l.backlogQ != [] && CanConnect(l, l.backlogQ[0].addr, order)
    ensures var m := Accepting(l, req, id, order, now, at);
            && Sound(m, at, strict && clock < now)
            && TouchedTimed(m, touched * (m.conns.Keys * l.conns.Keys))
            && m.acceptQ == l.acceptQ && m.answers == l.answers + [Answer(req, l.backlogQ[0].addr, id)]
  {
    hide *;
    SoundParts(l, clock, strict);
    AcceptingShape(l, req, id, order, now, at);
    var n, pc := l.(backlogQ := l.backlogQ[1..]), l.backlogQ[0];
    PopFewer(l);
    HeadApart(l);
    FewerSound(l, n, clock, clock, strict);
    ConnectedSound(n, clock, strict, pc.addr, pc.packets, id, order, now, at);
    var k := Connected(n, pc.addr, pc.packets, id, order, now, at);
    ConnectedFields(n, pc.addr, pc.packets, id, order, now, at);
    PoppedTimeout(n, k, 0);
    SameTouched(l, n, touched);
    ArmTouched(n, at, touched);
    TakenTouched(l, Arm(n, at), k, touched);
    SameSound(k, Accepting(l, req, id, order, now, at), touched * (k.conns.Keys * l.conns.Keys), at,
              strict && clock < now);
  }

  lemma TakenTouched(l: Listener, armed: Listener, k: Listener, touched: set<Addr>)
    requires TouchedTimed(armed, touched) && k.timer == armed.timer
    ensures TouchedTimed(k, touched * (k.conns.Keys * l.conns.Keys))
  {
  }

  lemma AllTouched(l: Listener, touched: set<Addr>)
    requires TouchedTimed(l, touched)
    ensures touched * (l.conns.Keys * l.conns.Keys) == touched
  {
  }

  lemma AcceptGood(r: Run, req: Req, id: Id, order: seq<Addr>, now: int, at: int)
    requires Good(r) && BacklogOk(r.l) && Enabled(r, Accept(req, id, order, now, at))
    ensures Good(Next(r, Accept(req, id, order, now, at)))
  {
    hide *;
    GoodParts(r);
    NextAccept(r, req, id, order, now, at);
    var l, m := r.l, Accepting(r.l, req, id, order, now, at);
    var strict := r.strict && r.clock < now;
    SoundIntro(l, r.clock, r.strict);
    AcceptingConserves(l, req, id, order, now, at);
    if l.backlogQ == [] {
      AcceptingShape(l, req, id, order, now, at);
      SameSound(l, m, r.touched, r.clock, r.strict);
      AllTouched(l, r.touched);
      NoLonger(m, r.clock, r.strict, strict);
      LaterSound(m, r.clock, at, strict);
      assert Reqs(m.answers) + m.acceptQ == Reqs(l.answers) + l.acceptQ + [req];
      OneQueueIntro(m);
    } else {
      TakenSound(l, r.touched, r.clock, r.strict, req, id, order, now, at);
      NoAccepts(l);
      ReqsSnoc(l.answers, Answer(req, l.backlogQ[0].addr, id));
      assert Reqs(m.answers) + m.acceptQ == Reqs(l.answers) + l.acceptQ + [req];
      OneQueueIntro(m);
    }
    SubmittedInOrder(l, m, r.submitted, r.cancelled, req);
    SoundParts(m, at, strict);
    GoodIntro(Next(r, Accept(req, id, order, now, at)));
  }

  lemma NoAccepts(l: Listener)
    requires Exclusive(l) && l.backlogQ != []
    ensures l.acceptQ == []
  {
  }

  lemma LaterSound(l: Listener, clock: int, at: int, strict: bool)
    requires Sound(l, clock, strict) && clock <= at
    ensures Sound(l, at, strict)
  {
    hide BacklogOk, OwnConns, Capped, Timely;
    Later(l, clock, at);
  }

  lemma CancelGood(r: Run, req: Req)
    requires Good(r) && BacklogOk(r.l)
    ensures Good(Next(r, Cancel(req)))
  {
    GoodParts(r);
    NextCancel(r, req);
    hide *;
    if Enabled(r, Cancel(req)) {
      var l, m := r.l, Cancelled(r.l, req);
      SoundIntro(l, r.clock, r.strict);
      CancelShape(l, req);
      SameSound(l, m, r.touched, r.clock, r.strict);
      CancelledInOrder(l, r.submitted, r.cancelled, req);
      SameConserved(l, m);
      SoundParts(m, r.clock, r.strict);
      GoodIntro(Next(r, Cancel(req)));
    }
  }

  lemma NextCancel(r: Run, req: Req)
    requires BacklogOk(r.l)
    ensures Enabled(r, Cancel(req)) ==>
              Next(r, Cancel(req)) == r.(l := Cancelled(r.l, req),
                                         cancelled := if req in r.l.acceptQ then r.cancelled + {req} else r.cancelled)
    ensures !Enabled(r, Cancel(req)) ==> Next(r, Cancel(req)) == r
  {
    hide Cancelled;
  }

  lemma CancelShape(l: Listener, req: Req)
    ensures Cancelled(l, req) == l.(acceptQ := Unqueue(l.acceptQ, req))
    ensures Exclusive(l) ==> Exclusive(Cancelled(l, req))
  {
  }

  lemma SameConserved(l: Listener, m: Listener)
    requires Conserved(l)
    requires m.conns == l.conns && m.backlogQ == l.backlogQ
    requires m.received == l.received && m.issued == l.issued && m.discarded == l.discarded
    ensures Conserved(m)
  {
    hide Conserved;
    forall a, p
      ensures Accounted(m, a, p, 0)
    {
      ConservedAt(l, a, p);
    }
    ConservedIntro(m);
  }

  lemma CallbackGood(r: Run, a: Addr, ce: Connection.Event, at: int)
    requires Good(r) && BacklogOk(r.l) && Enabled(r, Callback(a, ce, at))
    ensures Good(Next(r, Callback(a, ce, at)))
  {
    GoodParts(r);
    var o := Connection.Apply(r.l.conns[a], ce);
    var l, m := r.l, Settle(r.l, a, o, at);
    NextCallback(r, a, ce, at);
    hide *;
    SoundIntro(l, r.clock, r.strict);
    ReturnsIntro(l, a, ce, r.clock, at);
    ReturnsHere(l, a, o, r.clock, Connection.Moment(ce, r.clock), at);
    SettleSound(l, r.touched, a, o, r.clock, Connection.Moment(ce, r.clock), at, r.strict);
    CallbackKeepsPackets(l, a, ce, at);
    SettleFields(l, a, o, at);
    PoppedTimeout(l, m, 0);
    SameOrderKept(l, m, r.submitted, r.cancelled);
    SameQueues(l, m);
    SoundParts(m, at, r.strict);
    GoodIntro(Next(r, Callback(a, ce, at)));
  }

  lemma NextCallback(r: Run, a: Addr, ce: Connection.Event, at: int)
    requires BacklogOk(r.l) && Enabled(r, Callback(a, ce, at))
    ensures a in r.l.conns && !ce.Arrive? && r.clock <= Connection.Moment(ce, r.clock) <= at
    ensures var o := Connection.Apply(r.l.conns[a], ce);
            Next(r, Callback(a, ce, at)) ==
            r.(l := Settle(r.l, a, o, at), clock := at, touched := Active(r.touched, a, o))
  {
    hide Settle, Connection.Apply, Active;
  }

  lemma WithoutShape(l: Listener, a: Addr)
    ensures Fewer(l, Without(l, a))
    ensures Without(l, a).timer == l.timer && Without(l, a).answers == l.answers
    ensures Without(l, a).conns == l.conns - {a} && Without(l, a).backlogQ == l.backlogQ
  {
    hide Queued, Add;
  }

  lemma GoneGood(r: Run, a: Addr)
    requires Good(r)
    ensures Good(r.(l := Without(r.l, a), touched := r.touched - {a}))
  {
    hide *;
    GoodParts(r);
    var l, m := r.l, Without(r.l, a);
    SoundIntro(l, r.clock, r.strict);
    WithoutShape(l, a);
    FewerSound(l, m, r.clock, r.clock, r.strict);
    WithoutConserves(l, a);
    FewerQueue(l, m);
    SameOrderKept(l, m, r.submitted, r.cancelled);
    GoneTouched(l, m, a, r.touched);
    SoundParts(m, r.clock, r.strict);
    GoodIntro(r.(l := m, touched := r.touched - {a}));
  }

  lemma GoneTouched(l: Listener, m: Listener, a: Addr, touched: set<Addr>)
    requires TouchedTimed(l, touched) && m.conns == l.conns - {a} && m.timer == l.timer
    ensures TouchedTimed(m, touched - {a})
  {
  }

  lemma FewerQueue(l: Listener, m: Listener)
    requires Fewer(l, m)
    ensures m.acceptQ == l.acceptQ
  {
  }

  // The listener between dropping what has expired and arming the timer again.
  function Swept(l: Listener, t1: int, t2: int): Listener {
    var q := PopExpired(l.backlogQ, t1);
    var left := Unexpired(l.conns, t2);
    l.(backlogQ := q, conns := left, timer := None,
       discarded := DropConns(DropPending(l.discarded, l.backlogQ[..|l.backlogQ| - |q|]), l.conns - left.Keys))
  }

  lemma CheckShape(l: Listener, t1: int, t2: int, t3: int)
    ensures Checked(l, t1, t2, t3) == Arm(Swept(l, t1, t2), t3)
    ensures Fewer(l, Swept(l, t1, t2)) && Swept(l, t1, t2).timer == None
    ensures Swept(l, t1, t2).answers == l.answers
  {
    hide Arm, DropConns, DropPending;
  }

  lemma CheckedSound(l: Listener, clock: int, strict: bool, t1: int, t2: int, t3: int)
    requires Sound(l, clock, strict) && clock <= t1 <= t2 <= t3 && Exclusive(l)
    ensures var m := Checked(l, t1, t2, t3);
            && Sound(m, t3, strict) && Exclusive(m)
            && (m.conns != map[] ==> m.timer.Some?)
            && m.answers == l.answers && m.acceptQ == l.acceptQ
  {
    hide *;
    var k := Swept(l, t1, t2);
    CheckShape(l, t1, t2, t3);
    FewerSound(l, k, clock, t3, strict);
    FewerQueue(l, k);
    ArmSound(k, t3, strict);
    ArmFields(k, t3);
    SameQueues(k, Arm(k, t3));
  }

  lemma CheckedTouched(l: Listener, m: Listener, touched: set<Addr>)
    requires TouchedTimed(l, touched) && (m.conns != map[] ==> m.timer.Some?)
    ensures TouchedTimed(m, touched * m.conns.Keys)
  {
    if touched * m.conns.Keys != {} {
      var a :| a in touched * m.conns.Keys;
      assert m.conns != map[] by { assert a in m.conns; }
    }
  }

  lemma CheckGood(r: Run, t1: int, t2: int, t3: int)
    requires Good(r) && r.clock <= t1 <= t2 <= t3
    ensures var m := Checked(r.l, t1, t2, t3);
            Good(r.(l := m, clock := t3, touched := r.touched * m.conns.Keys))
  {
    hide *;
    GoodParts(r);
    var l, m := r.l, Checked(r.l, t1, t2, t3);
    SoundIntro(l, r.clock, r.strict);
    CheckedSound(l, r.clock, r.strict, t1, t2, t3);
    CheckedConserves(l, t1, t2, t3);
    CheckedTouched(l, m, r.touched);
    SameOrderKept(l, m, r.submitted, r.cancelled);
    SoundParts(m, t3, r.strict);
    GoodIntro(r.(l := m, clock := t3, touched := r.touched * m.conns.Keys));
  }

  lemma DisposeShape(l: Listener)
    ensures var m := Disposed(l);
            && m == l.(timer := None, acceptQ := [], backlogQ := [], conns := map[], live := false,
                       discarded := m.discarded)
  {
  }

  lemma DisposeGood(r: Run)
    requires Good(r)
    ensures Good(r.(l := Disposed(r.l), cancelled := r.cancelled + (set q | q in r.l.acceptQ), touched := {}))
  {
    var l, m := r.l, Disposed(r.l);
    assert l.backlog > 0 && l.limit > 0 && r.clock > 0;
    GoodParts(r);
    hide Good, Conserved, InOrder, Timely, BacklogOk, OwnConns, OwnConn, Disposed;
    DisposeShape(l);
    DisposedConserves(l);
    DisposedInOrder(l, r.submitted, r.cancelled);
    NothingLeft(m, r.clock);
    GoodIntro(r.(l := m, cancelled := r.cancelled + (set q | q in l.acceptQ), touched := {}));
  }

  lemma NothingLeft(m: Listener, clock: int)
    requires m.conns == map[] && m.backlogQ == [] && m.timer == None && m.backlog > 0 && clock > 0
    ensures BacklogOk(m) && OwnConns(m) && Timely(m, clock)
  {
  }

  lemma StepGood(r: Run, e: Event)
    requires Good(r) && BacklogOk(r.l)
    ensures Good(Next(r, e))
  {
    hide Good, BacklogOk, Received, Accepting, Cancelled, Settle, Without, Checked, Disposed, Connection.Apply, Active;
    if Enabled(r, e) {
      match e
      case Receive(from, packet, id, order, now, at) => ReceiveGood(r, from, packet, id, order, now, at);
      case Accept(req, id, order, now, at) => AcceptGood(r, req, id, order, now, at);
      case Cancel(req) => CancelGood(r, req);
      case Callback(a, ce, at) => CallbackGood(r, a, ce, at);
      case Gone(a) => GoneGood(r, a);
      case Check(t1, t2, t3) => CheckGood(r, t1, t2, t3);
      case Dispose => DisposeGood(r);
    }
  }
}

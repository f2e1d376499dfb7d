/** What a datagram connection has been through, on the events alone: what it was made with,
    what has reached it since, and when it was active last. */
module Lives {
  import opened Base
  import opened Connection

  /** started: it was inserted while the peer was STARTED. born: when it was made. */
  datatype Life = Life(id: Id, local: bool, started: bool, to: Addr, timeout: nat, packets: seq<Packet>,
                       born: int, events: seq<Event>)

  function Newborn(x: Life, addr: Addr): Conn {
    Begin(x.id, addr, x.local, x.started, x.to, x.timeout, x.packets, x.born)
  }

  // Only a local connection has a start callback.
  function Opening(x: Life): seq<Call> {
    if x.local && x.started then [Socket(x.id)] else []
  }

  function Grown(x: Life, e: Event): Life {
    x.(events := x.events + [e])
  }

  function Before(x: Life): Life
    requires x.events != []
  {
    x.(events := Front(x.events))
  }

  function LedgerOf(x: Life): Ledger {
    Classify(x.local, x.started, x.packets, x.events)
  }

  /** The life leads to this connection, and to these calls. */
  predicate Leads(x: Life, addr: Addr, c: Conn, calls: seq<Call>) {
    var o := Run(Newborn(x, addr), x.events);
    !o.remove && c == o.conn && calls == Opening(x) + o.calls
  }

  // ---------- Activity ----------

  /** An event that counts as activity: a datagram that finds the counterpart known, the
      flush of the queue, and a reply. */
  predicate Acts(local: bool, phase: Phase, e: Event) {
    match e
    case Arrive(_, _) => phase == Linked || phase == Flushed
    case GotReply(_) => true
    case _ => phase == Linked && NextPhase(local, phase, e) == Flushed
  }

  function WasActive(x: Life): bool
    decreases |x.events|
  {
    x.events != [] && (Acts(x.local, LedgerOf(Before(x)).phase, Last(x.events)) || WasActive(Before(x)))
  }

  /** When the connection was active last; being made counts as well. */
  function LastActive(x: Life): int
    decreases |x.events|
  {
    if x.events == [] then x.born
    else if Acts(x.local, LedgerOf(Before(x)).phase, Last(x.events)) then Moment(Last(x.events), x.born)
    else LastActive(Before(x))
  }

  lemma EventTouches(c: Conn, l: Ledger, e: Event, clock: int)
    requires Agrees(c, l) && l.phase != Failed
    ensures var o := Apply(c, e);
            && o.touched == Acts(c.local, l.phase, e)
            && o.conn.expiry == if o.touched then Moment(e, clock) + c.timeout else c.expiry
  {
  }

  // ---------- One more event ----------

  lemma Born(x: Life, addr: Addr)
    requires x.events == []
    ensures Leads(x, addr, Newborn(x, addr), Opening(x))
  {
  }

  lemma Grows(x: Life, addr: Addr, c: Conn, calls: seq<Call>, e: Event)
    requires Leads(x, addr, c, calls) && !Apply(c, e).remove
    ensures Leads(Grown(x, e), addr, Apply(c, e).conn, calls + Apply(c, e).calls)
  {
    assert Front(x.events + [e]) == x.events;
    var o := Run(Newborn(x, addr), x.events);
    assert Opening(x) + (o.calls + Apply(c, e).calls) == Opening(x) + o.calls + Apply(c, e).calls;
    hide Apply, Newborn;
  }

  // ---------- What a life leads to ----------

  lemma Ordered(x: Life, addr: Addr)
    ensures var o := Run(Newborn(x, addr), x.events);
            var l := LedgerOf(x);
            && (o.remove <==> l.phase == Failed)
            && (!o.remove ==> Agrees(o.conn, l) && o.calls == Submitted(o.conn, l))
            && o.conn.local == x.local && o.conn.addr == addr
            && o.conn.id == x.id && o.conn.to == x.to && o.conn.timeout == x.timeout
  {
    SendOrder(x.id, addr, x.local, x.started, x.to, x.timeout, x.packets, x.born, x.events);
    hide Run, Classify, Submitted, DataOf, Expected, Begin, Agrees;
  }

  /** Over every life: the expiry is the last activity and the timeout. */
  lemma {:induction false} ExpiryIsActivity(x: Life, addr: Addr)
    requires !Run(Newborn(x, addr), x.events).remove
    ensures Run(Newborn(x, addr), x.events).conn.expiry == LastActive(x) + x.timeout
    decreases |x.events|
  {
    if x.events != [] {
      var y := Before(x);
      ExpiryIsActivity(y, addr);
      Ordered(y, addr);
      hide Agrees, Submitted, Apply, Acts, Classify;
      EventTouches(Run(Newborn(y, addr), y.events).conn, LedgerOf(y), Last(x.events), x.born);
    }
  }

  /** All that is known of a connection from its life: who it is, what it has submitted, in
      order, what it still holds, and when it expires. */
  lemma Lived(x: Life, addr: Addr, c: Conn, calls: seq<Call>)
    requires Leads(x, addr, c, calls)
    ensures var l := LedgerOf(x);
            && l.phase != Failed && Agrees(c, l) && calls == Opening(x) + Submitted(c, l)
            && c.expiry == LastActive(x) + x.timeout
            && c.id == x.id && c.addr == addr && c.local == x.local && c.to == x.to && c.timeout == x.timeout
  {
    Ordered(x, addr);
    ExpiryIsActivity(x, addr);
    hide Run, Newborn, LedgerOf, LastActive, Submitted, Agrees;
  }
}

/** What the datagram listener and the local forwarder do with the expiries of their
    connections: collecting the expired ones, choosing a victim, and computing when
    the inactivity timer is due. */
module Pool {
  import opened Base
  import opened Connection

  // What a zero limit and a zero timeout stand for, in both kinds of parents.
  const DEFAULT_LIMIT: nat := 128
  const DEFAULT_TIMEOUT: nat := 60_000_000

  type Conns = map<Addr, Conn>

  // What the connection of an address has submitted since it was made, in order.
  type Calls = map<Addr, seq<Call>>

  function CallsOf(calls: Calls, a: Addr): seq<Call> {
    if a in calls then calls[a] else []
  }

  /** Armed at one clock reading, due at another. */
  datatype Alarm = Alarm(at: int, due: int)

  type Timer = Option<Alarm>

  /** The order in which an iterator visits a hash table. */
  ghost predicate Enumerates(order: seq<Addr>, conns: Conns) {
    && (forall j, k :: 0 <= j < k < |order| ==> order[j] != order[k])
    && (forall a :: a in order <==> a in conns)
  }

  predicate Positive(conns: Conns) {
    forall a :: a in conns ==> conns[a].expiry > 0
  }

  // Visits the table in some order.
  method Iterate(conns: Conns) returns (order: seq<Addr>)
    ensures Enumerates(order, conns)
  {
    order := [];
    var rest := conns.Keys;
    while rest != {}
      invariant rest <= conns.Keys
      invariant Visited(order, conns.Keys - rest)
      decreases rest
    {
      var a :| a in rest;
      VisitOne(order, conns.Keys - rest, a);
      assert conns.Keys - (rest - {a}) == (conns.Keys - rest) + {a};
      rest := rest - {a};
      order := order + [a];
    }
    assert conns.Keys - rest == conns.Keys;
  }

  ghost predicate Visited(order: seq<Addr>, seen: set<Addr>) {
    && (forall j, k :: 0 <= j < k < |order| ==> order[j] != order[k])
    && (forall a :: a in order <==> a in seen)
  }

  lemma VisitOne(order: seq<Addr>, seen: set<Addr>, a: Addr)
    requires Visited(order, seen) && a !in seen
    ensures Visited(order + [a], seen + {a})
  {
  }

  // ---------- Victim ----------

  /** The first connection in iteration order that no other one precedes in expiry. */
  ghost predicate FirstMinimum(order: seq<Addr>, conns: Conns, a: Addr)
    requires Enumerates(order, conns)
  {
    exists i :: 0 <= i < |order| && order[i] == a && MinimumAt(order, conns, i)
  }

  ghost predicate MinimumAt(order: seq<Addr>, conns: Conns, i: nat)
    requires i < |order| && Enumerates(order, conns)
  {
    && (forall k :: 0 <= k < i ==> conns[order[i]].expiry < conns[order[k]].expiry)
    && (forall k :: i < k < |order| ==> conns[order[i]].expiry <= conns[order[k]].expiry)
  }

  function OldestUpTo(order: seq<Addr>, conns: Conns, n: nat): (i: nat)
    requires 0 < n <= |order| && Enumerates(order, conns)
    ensures i < n
    ensures forall k :: 0 <= k < i ==> conns[order[i]].expiry < conns[order[k]].expiry
    ensures forall k :: i < k < n ==> conns[order[i]].expiry <= conns[order[k]].expiry
  {
    if n == 1 then 0
    else
      var i := OldestUpTo(order, conns, n - 1);
      if conns[order[n - 1]].expiry < conns[order[i]].expiry then n - 1 else i
  }

  function Oldest(order: seq<Addr>, conns: Conns): (a: Addr)
    requires Enumerates(order, conns) && order != []
    ensures FirstMinimum(order, conns, a)
    ensures a in conns && forall b :: b in conns ==> conns[a].expiry <= conns[b].expiry
  {
    var i := OldestUpTo(order, conns, |order|);
    assert MinimumAt(order, conns, i);
    assert forall b :: b in conns ==> b in order;
    order[i]
  }

  lemma FirstMinimumIsUnique(order: seq<Addr>, conns: Conns, a: Addr, b: Addr)
    requires Enumerates(order, conns) && FirstMinimum(order, conns, a) && FirstMinimum(order, conns, b)
    ensures a == b
  {
    var i :| 0 <= i < |order| && order[i] == a && MinimumAt(order, conns, i);
    var j :| 0 <= j < |order| && order[j] == b && MinimumAt(order, conns, j);
  }

  lemma NonEmptyOrder(order: seq<Addr>, conns: Conns)
    requires Enumerates(order, conns)
    ensures order == [] <==> conns == map[]
  {
    if order == [] {
      assert forall a :: a !in conns;
    } else {
      assert order[0] in conns;
    }
  }

  lemma OldestStep(order: seq<Addr>, conns: Conns, n: nat)
    requires n < |order| && Enumerates(order, conns)
    ensures order[n] in conns
    ensures n == 0 ==> OldestUpTo(order, conns, 1) == 0
    ensures n > 0 ==>
              var i := OldestUpTo(order, conns, n);
              && i < n && order[i] in conns
              && OldestUpTo(order, conns, n + 1)
                 == if conns[order[n]].expiry < conns[order[i]].expiry then n else i
  {
  }

  method FindOldest(order: seq<Addr>, conns: Conns) returns (oldest: Addr)
    requires Enumerates(order, conns) && conns != map[]
    ensures order != [] && oldest == Oldest(order, conns)
  {
    NonEmptyOrder(order, conns);
    hide Enumerates, OldestUpTo;
    var found, i := false, 0;
    oldest := 0;
    while i < |order|
      invariant 0 <= i <= |order|
      invariant found == (i > 0)
      invariant i > 0 ==> oldest == order[OldestUpTo(order, conns, i)]
    {
      OldestStep(order, conns, i);
      if !found || conns[order[i]].expiry < conns[oldest].expiry {
        found, oldest := true, order[i];
      }
      i := i + 1;
    }
  }

  // ---------- Expiry ----------

  predicate Expired(c: Conn, now: int) {
    c.expiry < now + MILLISECOND
  }

  function Unexpired(conns: Conns, now: int): Conns {
    map a | a in conns && !Expired(conns[a], now) :: conns[a]
  }

  method CollectExpired(order: seq<Addr>, conns: Conns, now: int) returns (expired: seq<Addr>)
    requires Enumerates(order, conns)
    ensures forall j, k :: 0 <= j < k < |expired| ==> expired[j] != expired[k]
    ensures forall a :: a in expired <==> a in conns && Expired(conns[a], now)
  {
    expired := [];
    var deadline, i := now + MILLISECOND, 0;
    while i < |order|
      invariant 0 <= i <= |order|
      invariant forall j, k :: 0 <= j < k < |expired| ==> expired[j] != expired[k]
      invariant forall a :: a in expired <==> a in order[..i] && Expired(conns[a], now)
    {
      assert order[i] in conns;
      if conns[order[i]].expiry < deadline {
        assert order[i] !in order[..i];
        expired := expired + [order[i]];
      }
      i := i + 1;
    }
    assert order[..i] == order;
  }

  // ---------- Timer ----------

  /** The least of all expiries, and of the expiry of the pending head if there is one
      (pend > 0). */
  ghost function Earliest(conns: Conns, pend: int): (e: int)
    requires conns != map[]
    ensures (pend > 0 && e == pend) || (exists a :: a in conns && e == conns[a].expiry)
    ensures pend > 0 ==> e <= pend
    ensures forall a :: a in conns ==> e <= conns[a].expiry
    decreases |conns|
  {
    var a :| a in conns;
    var rest := conns - {a};
    assert forall b :: b in conns && b != a ==> b in rest && rest[b] == conns[b];
    var e := if rest == map[] then (if pend > 0 then pend else conns[a].expiry) else Earliest(rest, pend);
    if conns[a].expiry < e then conns[a].expiry else e
  }

  lemma EarliestIsUnique(conns: Conns, pend: int, e: int)
    requires conns != map[]
    requires (pend > 0 && e == pend) || (exists a :: a in conns && e == conns[a].expiry)
    requires pend > 0 ==> e <= pend
    requires forall a :: a in conns ==> e <= conns[a].expiry
    ensures e == Earliest(conns, pend)
  {
  }

  /** No timeout for an empty table, whatever is pending. */
  ghost function TimeoutMs(conns: Conns, pend: int, now: int): int {
    if conns == map[] then -1
    else
      var e := Earliest(conns, pend);
      if e > now then (e - now) / MILLISECOND else 0
  }

  method ComputeTimeoutMs(order: seq<Addr>, conns: Conns, pend: int, now: int) returns (ms: int)
    requires Enumerates(order, conns) && Positive(conns)
    ensures ms == TimeoutMs(conns, pend, now)
  {
    NonEmptyOrder(order, conns);
    ms := -1;
    if |order| > 0 {
      var expiry, i := pend, 0;
      while i < |order|
        invariant 0 <= i <= |order|
        invariant expiry <= 0 ==> i == 0
        invariant i == 0 ==> expiry == pend
        invariant i > 0 ==> (pend > 0 && expiry == pend)
                            || exists k :: 0 <= k < i && order[k] in conns && expiry == conns[order[k]].expiry
        invariant pend > 0 ==> 0 < expiry <= pend
        invariant forall k :: 0 <= k < i ==> order[k] in conns && expiry <= conns[order[k]].expiry
      {
        assert order[i] in conns;
        if conns[order[i]].expiry < expiry || expiry <= 0 {
          expiry := conns[order[i]].expiry;
        }
        i := i + 1;
      }
      EarliestIsUnique(conns, pend, expiry);
      ms := if expiry > now then (expiry - now) / MILLISECOND else 0;
    }
  }

  /** Arms the timer unless it is armed already. */
  ghost function Schedule(timer: Timer, conns: Conns, pend: int, now: int): Timer {
    if timer.Some? then timer
    else
      var ms := TimeoutMs(conns, pend, now);
      if ms >= 0 then Some(Alarm(now, now + ms * MILLISECOND)) else None
  }

  function Max(a: int, b: int): int {
    if a < b then b else a
  }

  /** A timer that has just been armed is due no later than the larger of its arming
      time and the earliest expiry, and less than a millisecond before that. */
  lemma ArmedInTime(conns: Conns, pend: int, now: int)
    requires conns != map[]
    ensures var t := Schedule(None, conns, pend, now);
            && t.Some? && t.value.at == now <= t.value.due <= Max(now, Earliest(conns, pend))
            && t.value.due > Earliest(conns, pend) - MILLISECOND
  {
    var e := Earliest(conns, pend);
    if e > now {
      assert (e - now) / MILLISECOND * MILLISECOND <= e - now < (e - now) / MILLISECOND * MILLISECOND + MILLISECOND;
    }
  }

  /** When the alarm goes off, the connection it was armed for is dropped, unless it
      has been touched or is gone; and nothing is dropped a millisecond early. */
  lemma FiringDropsItsTarget(before: Conns, pend: int, at: int, conns: Conns, now: int)
    requires before != map[] && now >= Schedule(None, before, pend, at).value.due
    ensures forall a :: a in before && a in conns && conns[a].expiry == before[a].expiry == Earliest(before, pend)
                        ==> a !in Unexpired(conns, now)
    ensures forall a :: a in conns && a !in Unexpired(conns, now) ==> conns[a].expiry - MILLISECOND < now
  {
    ArmedInTime(before, pend, at);
  }

  /** With one clock reading, the next check is at least a millisecond away. */
  lemma NextCheckIsLater(conns: Conns, now: int)
    requires Unexpired(conns, now) != map[]
    ensures Schedule(None, Unexpired(conns, now), 0, now).Some?
    ensures Schedule(None, Unexpired(conns, now), 0, now).value.due >= now + MILLISECOND
  {
    var left := Unexpired(conns, now);
    var e := Earliest(left, 0);
    assert e >= now + MILLISECOND;
    assert (e - now) / MILLISECOND >= 1;
  }

  /** With a pending head, that is so if and only if the head does not expire within the
      millisecond; if it does, the next check is due at once. */
  lemma NextCheckWithHead(conns: Conns, pend: int, now: int)
    requires Unexpired(conns, now) != map[]
    ensures var t := Schedule(None, Unexpired(conns, now), pend, now);
            && t.Some? && t.value.at == now
            && t.value.due >= now + (if pend <= 0 || pend >= now + MILLISECOND then MILLISECOND else 0)
            && (0 < pend < now + MILLISECOND ==> t.value.due == now)
  {
    var left := Unexpired(conns, now);
    var e := Earliest(left, pend);
    if pend <= 0 || pend >= now + MILLISECOND {
      assert e >= now + MILLISECOND;
      assert (e - now) / MILLISECOND >= 1;
    } else if e > now {
      assert e - now < MILLISECOND;
      assert (e - now) / MILLISECOND == 0;
    }
  }

  // ---------- What every step keeps ----------

  predicate Young(conns: Conns, clock: int, timeout: nat) {
    forall a :: a in conns ==> 0 < conns[a].expiry <= clock + timeout
  }

  /** The alarm is never later than the expiry of any connection, save for the time
      that had passed already when it was armed. */
  predicate Covers(timer: Timer, conns: Conns, clock: int, timeout: nat) {
    timer.Some? ==>
      && timer.value.at <= clock && timer.value.at <= timer.value.due <= timer.value.at + timeout
      && forall a :: a in conns ==> timer.value.due <= Max(timer.value.at, conns[a].expiry)
  }

  lemma ScheduleCovers(timer: Timer, conns: Conns, pend: int, now: int, timeout: nat)
    requires Young(conns, now, timeout) && Covers(timer, conns, now, timeout)
    ensures Covers(Schedule(timer, conns, pend, now), conns, now, timeout)
    ensures conns != map[] ==> Schedule(timer, conns, pend, now).Some?
    ensures timer.None? && conns != map[] && pend > 0 ==>
              Schedule(timer, conns, pend, now).value.due <= Max(now, pend)
  {
    if timer.None? && conns != map[] {
      ArmedInTime(conns, pend, now);
      var a :| a in conns;
    }
  }

  /** Inserting or touching a connection puts its expiry beyond the alarm. */
  lemma RefreshCovers(timer: Timer, conns: Conns, a: Addr, c: Conn, clock: int, now: int, timeout: nat)
    requires Young(conns, clock, timeout) && Covers(timer, conns, clock, timeout)
    requires clock <= now && 0 < c.expiry
    requires clock + timeout <= c.expiry <= now + timeout || (a in conns && c.expiry == conns[a].expiry)
    ensures Young(conns[a := c], now, timeout) && Covers(timer, conns[a := c], now, timeout)
  {
  }

  lemma FewerCovered(timer: Timer, conns: Conns, left: Conns, clock: int, now: int, timeout: nat)
    requires Young(conns, clock, timeout) && Covers(timer, conns, clock, timeout) && clock <= now
    requires forall a :: a in left ==> a in conns && left[a].expiry == conns[a].expiry
    ensures Young(left, now, timeout) && Covers(timer, left, now, timeout)
  {
  }

  // Whether the timer was armed before or has been armed now, it is due in time for
  // the new connection.
  lemma NewCovered(before: Timer, timer: Timer, conns: Conns, pend: int, room: Conns, from: Addr, c: Conn,
                   clock: int, now: int, at: int, timeout: nat)
    requires Young(conns, clock, timeout) && Covers(before, conns, clock, timeout)
    requires timer == Schedule(before, conns, pend, at)
    requires clock > 0 && clock <= now <= at && c.expiry == now + timeout
    requires Young(room, at, timeout) && Covers(timer, room, at, timeout)
    ensures Young(room[from := c], at, timeout) && Covers(timer, room[from := c], at, timeout)
  {
    if before.None? && conns != map[] {
      ArmedInTime(conns, pend, at);
      assert Earliest(conns, pend) <= clock + timeout;
    }
  }

  // What a callback does to the connection itself.
  lemma OutcomeShape(c: Conn, o: Outcome, e: Event, clock: int)
    requires o == Apply(c, e) && c.attached
    ensures o.conn.timeout == c.timeout && o.conn.attached && o.conn.addr == c.addr
    ensures o.touched ==> o.conn.expiry == Moment(e, clock) + c.timeout
    ensures !o.touched ==> o.conn.expiry == c.expiry
  {
  }

  // ---------- Sizes ----------

  lemma SizeInsert(m: Conns, a: Addr, c: Conn)
    ensures |m[a := c]| == |m| + if a in m then 0 else 1
  {
    assert m[a := c].Keys == m.Keys + {a};
  }

  lemma SizeRemove(m: Conns, a: Addr)
    ensures |m - {a}| == |m| - if a in m then 1 else 0
  {
    assert (m - {a}).Keys == m.Keys - {a};
  }

  lemma SizeUnexpired(m: Conns, now: int)
    ensures |Unexpired(m, now)| <= |m|
  {
    SubsetIsSmaller(Unexpired(m, now).Keys, m.Keys);
  }
}

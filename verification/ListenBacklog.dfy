/** The two queues of the datagram listener: the backlog stays sorted by expiry with one
    entry per sender, and the ACCEPT queue is served in order. */
module ListenBacklog {
  import opened Base
  import opened Listen

  predicate Distinct(q: seq<Pending>) {
    forall j, k :: 0 <= j < k < |q| ==> q[j].addr != q[k].addr
  }

  // ---------- The sort ----------

  lemma {:induction false} SortElements(q: seq<Pending>)
    ensures forall y :: y in Sort(q) <==> y in q
  {
    if q != [] {
      SortElements(Front(q));
      assert q == Front(q) + [Last(q)];
    }
  }

  lemma {:induction false} InsertDistinct(q: seq<Pending>, x: Pending)
    requires Sorted(q) && Distinct(q) && forall y :: y in q ==> y.addr != x.addr
    ensures Distinct(Insert(q, x))
  {
    if q != [] && Last(q).expiry > x.expiry {
      InsertDistinct(Front(q), x);
      var r := Insert(Front(q), x);
      forall k | 0 <= k < |r|
        ensures r[k].addr != Last(q).addr
      {
        assert r[k] in r;
      }
    }
  }

  lemma {:induction false} SortDistinct(q: seq<Pending>)
    requires Distinct(q)
    ensures Distinct(Sort(q))
  {
    if q != [] {
      SortDistinct(Front(q));
      SortElements(Front(q));
      InsertDistinct(Sort(Front(q)), Last(q));
    }
  }

  lemma WithExpirySnoc(q: seq<Pending>, x: Pending, e: int)
    ensures WithExpiry(q + [x], e) == WithExpiry(q, e) + if x.expiry == e then [x] else []
  {
    assert Front(q + [x]) == q;
  }

  lemma {:induction false} InsertWithExpiry(q: seq<Pending>, x: Pending, e: int)
    requires Sorted(q)
    ensures WithExpiry(Insert(q, x), e) == WithExpiry(q, e) + if x.expiry == e then [x] else []
  {
    if q != [] && Last(q).expiry > x.expiry {
      InsertWithExpiry(Front(q), x, e);
      WithExpirySnoc(Insert(Front(q), x), Last(q), e);
      hide Sorted;
    } else {
      WithExpirySnoc(q, x, e);
    }
  }

  /** Entries with the same expiry keep their order. */
  lemma {:induction false} SortIsStable(q: seq<Pending>, e: int)
    ensures WithExpiry(Sort(q), e) == WithExpiry(q, e)
  {
    if q != [] {
      SortIsStable(Front(q), e);
      InsertWithExpiry(Sort(Front(q)), Last(q), e);
    }
  }

  // ---------- The backlog as a whole ----------

  predicate Apart(l: Listener) {
    forall i :: 0 <= i < |l.backlogQ| ==> l.backlogQ[i].addr !in l.conns
  }

  predicate BacklogOk(l: Listener) {
    l.backlog > 0 && |l.backlogQ| <= l.backlog && Sorted(l.backlogQ) && Distinct(l.backlogQ) && Apart(l)
  }

  // Every waiting sender has been heard within the timeout.
  predicate PendingYoung(q: seq<Pending>, clock: int, timeout: nat) {
    forall i :: 0 <= i < |q| ==> 0 < q[i].expiry <= clock + timeout
  }

  lemma EnqueuedElements(q: seq<Pending>, from: Addr, packet: Packet, expiry: int)
    ensures forall y :: y in Enqueued(q, from, packet, expiry) ==> y in q || (y.addr == from && y.expiry == expiry)
  {
    var i := Find(q, from);
    if i < |q| {
      SortElements(q[i := Pending(from, expiry, q[i].packets + [packet])]);
    }
  }

  lemma EnqueuedOk(q: seq<Pending>, from: Addr, packet: Packet, expiry: int)
    requires Sorted(q) && Distinct(q) && forall k :: 0 <= k < |q| ==> q[k].expiry <= expiry
    ensures var r := Enqueued(q, from, packet, expiry);
            Sorted(r) && Distinct(r) && |r| <= |q| + 1
  {
    var i := Find(q, from);
    if i < |q| {
      SortDistinct(q[i := Pending(from, expiry, q[i].packets + [packet])]);
    }
  }

  lemma PurgedOk(q: seq<Pending>, backlog: nat)
    requires backlog > 0 && Sorted(q) && Distinct(q)
    ensures var r := Purged(q, backlog);
            && Sorted(r) && Distinct(r) && |r| < backlog
            && (forall k :: 0 <= k < |r| ==> r[k] in q)
  {
  }

  // The same, entry by entry.
  ghost predicate Waiting(q: seq<Pending>, taken: set<Addr>, latest: int) {
    forall y :: y in q ==> y.addr !in taken && 0 < y.expiry <= latest
  }

  lemma EnqueuedWaiting(q: seq<Pending>, from: Addr, packet: Packet, expiry: int, taken: set<Addr>, latest: int)
    requires Waiting(q, taken, expiry) && from !in taken && 0 < expiry <= latest
    ensures Waiting(Enqueued(q, from, packet, expiry), taken, latest)
  {
    EnqueuedElements(q, from, packet, expiry);
    hide Enqueued;
  }

  lemma PurgedWaiting(l: Listener, clock: int, latest: int)
    requires l.backlog > 0 && Apart(l) && PendingYoung(l.backlogQ, clock, l.timeout)
    requires clock + l.timeout <= latest
    ensures Waiting(Purged(l.backlogQ, l.backlog), l.conns.Keys, latest)
  {
  }

  lemma WaitingOk(m: Listener, latest: int)
    requires Waiting(m.backlogQ, m.conns.Keys, latest)
    ensures Apart(m) && forall i :: 0 <= i < |m.backlogQ| ==> 0 < m.backlogQ[i].expiry <= latest
  {
  }

  lemma BackloggedOk(l: Listener, from: Addr, packet: Packet, now: int, at: int, clock: int)
    requires BacklogOk(l) && from !in l.conns && PendingYoung(l.backlogQ, clock, l.timeout)
    requires 0 < clock <= now <= at
    ensures BacklogOk(Backlogged(l, from, packet, now, at))
    ensures PendingYoung(Backlogged(l, from, packet, now, at).backlogQ, at, l.timeout)
  {
    hide *;
    BacklogParts(l);
    var q, m := Purged(l.backlogQ, l.backlog), Backlogged(l, from, packet, now, at);
    PurgedOk(l.backlogQ, l.backlog);
    PurgedWaiting(l, clock, now + l.timeout);
    QueuedOnce(q, from, packet, now + l.timeout, l.conns.Keys);
    BackloggedFields(l, from, packet, now, at);
    EnqueuedWaiting(q, from, packet, now + l.timeout, l.conns.Keys, at + l.timeout);
    WaitingOk(m, at + l.timeout);
    BacklogIntro(m, at);
  }

  lemma BacklogParts(l: Listener)
    requires BacklogOk(l)
    ensures l.backlog > 0 && Sorted(l.backlogQ) && Distinct(l.backlogQ) && Apart(l)
  {
  }

  lemma BacklogIntro(l: Listener, clock: int)
    requires l.backlog > 0 && |l.backlogQ| <= l.backlog && Sorted(l.backlogQ) && Distinct(l.backlogQ) && Apart(l)
    requires forall i :: 0 <= i < |l.backlogQ| ==> 0 < l.backlogQ[i].expiry <= clock + l.timeout
    ensures BacklogOk(l) && PendingYoung(l.backlogQ, clock, l.timeout)
  {
  }

  lemma QueuedOnce(q: seq<Pending>, from: Addr, packet: Packet, expiry: int, taken: set<Addr>)
    requires Sorted(q) && Distinct(q) && Waiting(q, taken, expiry)
    ensures var r := Enqueued(q, from, packet, expiry);
            Sorted(r) && Distinct(r) && |r| <= |q| + 1
  {
    hide Sorted, Distinct;
    assert forall k :: 0 <= k < |q| ==> q[k] in q;
    EnqueuedOk(q, from, packet, expiry);
  }

  lemma BackloggedFields(l: Listener, from: Addr, packet: Packet, now: int, at: int)
    ensures var m := Backlogged(l, from, packet, now, at);
            && m.backlogQ == Enqueued(Purged(l.backlogQ, l.backlog), from, packet, now + l.timeout)
            && m.conns == l.conns && m.backlog == l.backlog && m.timeout == l.timeout && m.limit == l.limit
            && m.acceptQ == l.acceptQ && m.answers == l.answers && m.live == l.live
  {
    hide Enqueued, Purged, DropPending;
  }

  /** Because the backlog is sorted, popping expired heads is the same as filtering. */
  lemma {:induction false} PopIsFilter(q: seq<Pending>, now: int)
    requires Sorted(q)
    ensures PopExpired(q, now) == KeepUnexpired(q, now)
  {
    if q != [] {
      if q[0].expiry <= now {
        PopIsFilter(q[1..], now);
      } else {
        NothingExpired(q, now);
      }
    }
  }

  lemma {:induction false} NothingExpired(q: seq<Pending>, now: int)
    requires forall k :: 0 <= k < |q| ==> q[k].expiry > now
    ensures KeepUnexpired(q, now) == q
  {
    if q != [] {
      NothingExpired(q[1..], now);
    }
  }

  // ---------- The ACCEPT queue ----------

  /** The elements of s that are not in x, in order. */
  function Kept(s: seq<Req>, x: set<Req>): seq<Req> {
    if s == [] then [] else Kept(Front(s), x) + if Last(s) in x then [] else [Last(s)]
  }

  function Reqs(answers: seq<Answer>): seq<Req> {
    seq(|answers|, i requires 0 <= i < |answers| => answers[i].req)
  }

  predicate NoRepeats(s: seq<Req>) {
    forall j, k :: 0 <= j < k < |s| ==> s[j] != s[k]
  }

  lemma {:induction false} KeptConcat(s: seq<Req>, t: seq<Req>, x: set<Req>)
    ensures Kept(s + t, x) == Kept(s, x) + Kept(t, x)
  {
    if t == [] {
      assert s + t == s;
    } else {
      KeptConcat(s, Front(t), x);
      assert Front(s + t) == s + Front(t);
    }
  }

  lemma {:induction false} KeptTwice(s: seq<Req>, x: set<Req>, y: set<Req>)
    ensures Kept(Kept(s, x), y) == Kept(s, x + y)
  {
    if s != [] {
      KeptTwice(Front(s), x, y);
      KeptConcat(Kept(Front(s), x), if Last(s) in x then [] else [Last(s)], y);
      assert Front([Last(s)]) == [];
    }
  }

  lemma {:induction false} KeptAll(s: seq<Req>, x: set<Req>)
    requires forall r :: r in s ==> r !in x
    ensures Kept(s, x) == s
  {
    if s != [] {
      assert s == Front(s) + [Last(s)];
      KeptAll(Front(s), x);
    }
  }

  lemma {:induction false} KeptNone(s: seq<Req>, x: set<Req>)
    requires forall r :: r in s ==> r in x
    ensures Kept(s, x) == []
  {
    if s != [] {
      assert s == Front(s) + [Last(s)];
      KeptNone(Front(s), x);
    }
  }

  lemma {:induction false} KeptDistinct(s: seq<Req>, x: set<Req>)
    requires NoRepeats(s)
    ensures NoRepeats(Kept(s, x)) && forall r :: r in Kept(s, x) ==> r in s && r !in x
  {
    if s != [] {
      KeptDistinct(Front(s), x);
      assert s == Front(s) + [Last(s)];
    }
  }

  lemma KeptHead(q: seq<Req>, x: set<Req>)
    requires q != []
    ensures Kept(q, x) == (if q[0] in x then [] else [q[0]]) + Kept(q[1..], x)
  {
    assert q == [q[0]] + q[1..];
    KeptConcat([q[0]], q[1..], x);
    assert Front([q[0]]) == [];
  }

  lemma {:induction false} UnqueueIsKept(q: seq<Req>, req: Req)
    requires NoRepeats(q)
    ensures Unqueue(q, req) == Kept(q, {req})
  {
    hide Kept;
    if q == [] {
      KeptNone(q, {req});
    } else {
      KeptHead(q, {req});
      if q[0] == req {
        KeptAll(q[1..], {req});
      } else {
        UnqueueIsKept(q[1..], req);
      }
    }
  }

  /** Cancelling some of the waiting requests takes them out of the line and leaves the
      order of the others, and the answers already given, alone. */
  lemma CancelKeepsOrder(answered: seq<Req>, waiting: seq<Req>, submitted: seq<Req>,
                         cancelled: set<Req>, x: set<Req>)
    requires NoRepeats(submitted) && answered + waiting == Kept(submitted, cancelled)
    requires forall r :: r in x ==> r in waiting
    ensures answered + Kept(waiting, x) == Kept(submitted, cancelled + x)
  {
    KeptTwice(submitted, cancelled, x);
    KeptDistinct(submitted, cancelled);
    KeptConcat(answered, waiting, x);
    AnsweredApart(answered, waiting);
    KeptAll(answered, x);
  }

  lemma AnsweredApart(answered: seq<Req>, waiting: seq<Req>)
    requires NoRepeats(answered + waiting)
    ensures forall r :: r in answered ==> r !in waiting
    ensures NoRepeats(waiting)
  {
    var all := answered + waiting;
    forall j, k | 0 <= j < |answered| && 0 <= k < |waiting|
      ensures answered[j] != waiting[k]
    {
      assert all[j] != all[|answered| + k];
    }
    forall j, k | 0 <= j < k < |waiting|
      ensures waiting[j] != waiting[k]
    {
      assert all[|answered| + j] != all[|answered| + k];
    }
  }
}

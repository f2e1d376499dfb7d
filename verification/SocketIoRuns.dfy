/** What the write queue keeps over every run: the bytes on the wire, the reports, and
    that every submitted item is destroyed exactly once. */
module SocketIoRuns {
  import opened Base
  import opened SocketIo

  function ReportIds(reports: seq<Report>): seq<nat> {
    seq(|reports|, i requires 0 <= i < |reports| => reports[i].id)
  }

  /** Only the head of the queue can have been sent in part. */
  predicate Partial(io: Io) {
    && (forall k :: 0 <= k < |io.left| ==> io.left[k].sent <= |io.left[k].data|)
    && (forall k :: 0 < k < |io.writeq| ==> io.writeq[k].sent == 0)
    && (io.writeq != [] ==> io.writeq[0].sent <= |io.writeq[0].data|)
  }

  predicate Truthful(io: Io, r: Report) {
    exists k :: 0 <= k < |io.left| && Tells(io.left[k], r)
  }

  predicate Tells(x: Item, r: Report) {
    x.id == r.id && x.sent == r.bytes && (r.ok ==> x.sent == |x.data|)
  }

  predicate AllTruthful(io: Io) {
    forall i :: 0 <= i < |io.reports| ==> Truthful(io, io.reports[i])
  }

  // open: out of the queue, not reported yet; limbo: out of the queue, not destroyed yet.
  predicate Counted(io: Io, open: multiset<nat>, limbo: multiset<nat>) {
    && multiset(io.destroyed) + limbo == multiset(Ids(io.left))
    && multiset(ReportIds(io.reports)) + open <= multiset(Ids(io.left))
  }

  predicate Faithful(io: Io) {
    io.wire == Bytes(io.left + io.writeq) && Ids(io.left + io.writeq) == io.submitted
  }

  predicate OneError(io: Io) {
    io.errors + (if io.errorSource then 1 else 0) <= 1
  }

  predicate Quiet(io: Io) {
    !io.owned ==> io.writeq == [] && !io.errorSource && !io.readSource && !io.writeSource
  }

  predicate Inv(io: Io, open: multiset<nat>, limbo: multiset<nat>) {
    Partial(io) && AllTruthful(io) && Counted(io, open, limbo) && Faithful(io) && OneError(io) && Quiet(io)
  }

  lemma InvParts(io: Io, open: multiset<nat>, limbo: multiset<nat>)
    requires Inv(io, open, limbo)
    ensures Partial(io) && AllTruthful(io) && Counted(io, open, limbo) && Faithful(io) && OneError(io) && Quiet(io)
  {
  }

  lemma InvIntro(io: Io, open: multiset<nat>, limbo: multiset<nat>)
    requires Partial(io) && AllTruthful(io) && Counted(io, open, limbo) && Faithful(io) && OneError(io) && Quiet(io)
    ensures Inv(io, open, limbo)
  {
  }

  // ---------- Sequences ----------

  lemma IdsConcat(a: seq<Item>, b: seq<Item>)
    ensures Ids(a + b) == Ids(a) + Ids(b)
  {
  }

  lemma {:induction false} BytesConcat(a: seq<Item>, b: seq<Item>)
    ensures Bytes(a + b) == Bytes(a) + Bytes(b)
  {
    if b == [] {
      assert a + b == a;
    } else {
      BytesConcat(a, Front(b));
      assert Front(a + b) == a + Front(b);
    }
  }

  lemma BytesOne(x: Item)
    requires x.sent <= |x.data|
    ensures Bytes([x]) == x.data[..x.sent]
  {
    assert Front([x]) == [];
  }

  lemma {:induction false} NothingSent(items: seq<Item>)
    requires forall k :: 0 <= k < |items| ==> items[k].sent == 0
    ensures Bytes(items) == []
  {
    if items != [] {
      NothingSent(Front(items));
    }
  }

  lemma MoreTruth(io: Io, u: Io)
    requires AllTruthful(io) && u.reports == io.reports && |io.left| <= |u.left| && u.left[..|io.left|] == io.left
    ensures AllTruthful(u)
  {
    forall i | 0 <= i < |u.reports|
      ensures Truthful(u, u.reports[i])
    {
      assert Truthful(io, io.reports[i]);
      var k :| 0 <= k < |io.left| && Tells(io.left[k], io.reports[i]);
      assert u.left[k] == io.left[k];
    }
  }

  // ---------- Parts ----------

  lemma DrainedInv(io: Io, open: multiset<nat>, limbo: multiset<nat>)
    requires Inv(io, open, limbo)
    ensures Inv(Drained(io), open, limbo)
  {
    var u := Drained(io);
    InvParts(io, open, limbo);
    MoreTruth(io, u);
    IdsConcat(io.left, io.writeq);
    hide Inv, Bytes, Truthful, Ids, ReportIds;
    assert u.left + [] == u.left;
    InvIntro(u, open, limbo);
  }

  // Sources come and go, references too; the queue stays.
  lemma SourcesInv(io: Io, u: Io, open: multiset<nat>, limbo: multiset<nat>)
    requires Inv(io, open, limbo)
    requires u == io.(refs := u.refs, owned := u.owned, errorSource := u.errorSource, readSource := u.readSource,
                      writeSource := u.writeSource, released := u.released, errors := u.errors)
    requires OneError(u) && Quiet(u)
    ensures Inv(u, open, limbo)
  {
    InvParts(io, open, limbo);
    hide Bytes, Ids, ReportIds;
    MoreTruth(io, u);
    InvIntro(u, open, limbo);
  }

  lemma DisposedInv(io: Io, open: multiset<nat>, limbo: multiset<nat>)
    requires Inv(io, open, limbo)
    ensures Inv(Disposed(io), open, limbo)
  {
    DrainedInv(io, open, limbo);
    InvParts(io, open, limbo);
    hide Inv, Ids;
    SourcesInv(Drained(io), Disposed(io), open, limbo);
  }

  lemma UnrefInv(io: Io, open: multiset<nat>, limbo: multiset<nat>)
    requires Inv(io, open, limbo) && io.refs > 0
    ensures Inv(Unref(io), open, limbo)
  {
    InvParts(io, open, limbo);
    hide Inv, Ids, Disposed;
    if io.refs == 1 {
      SourcesInv(io, io.(refs := 0), open, limbo);
      DisposedInv(io.(refs := 0), open, limbo);
      InvParts(Disposed(io.(refs := 0)), open, limbo);
      SourcesInv(Disposed(io.(refs := 0)), Unref(io), open, limbo);
    } else {
      SourcesInv(io, Unref(io), open, limbo);
    }
  }

  lemma FreedInv(io: Io, open: multiset<nat>, limbo: multiset<nat>)
    requires Inv(io, open, limbo) && (io.owned ==> io.refs > 0)
    ensures Inv(Freed(io), open, limbo)
  {
    if io.owned {
      DisposedInv(io, open, limbo);
      InvParts(io, open, limbo);
      hide Inv, Ids;
      SourcesInv(Disposed(io), Disposed(io.(owned := false)), open, limbo);
      UnrefInv(Disposed(io.(owned := false)), open, limbo);
    }
  }

  // One more item at the end, of which nothing has been sent.
  lemma AppendedFaithful(io: Io, u: Io, x: Item)
    requires Faithful(io) && x.sent == 0 && u.left == io.left && u.writeq == io.writeq + [x]
    requires u.wire == io.wire && u.submitted == io.submitted + [x.id]
    ensures Faithful(u)
  {
    var all := io.left + io.writeq;
    assert u.left + u.writeq == all + [x];
    IdsConcat(all, [x]);
    assert Ids([x]) == [x.id];
    BytesConcat(all, [x]);
    BytesOne(x);
    hide Bytes, Ids;
    assert Bytes(all) + [] == Bytes(all);
  }

  lemma QueuedParts(io: Io, item: Item, open: multiset<nat>, limbo: multiset<nat>)
    requires Partial(io) && Counted(io, open, limbo) && OneError(io) && Quiet(io)
    ensures var u := Queued(io, item); Partial(u) && Counted(u, open, limbo) && OneError(u) && Quiet(u)
  {
    hide Ids, ReportIds;
  }

  lemma QueuedInv(io: Io, item: Item, open: multiset<nat>, limbo: multiset<nat>)
    requires Inv(io, open, limbo)
    ensures Inv(Queued(io, item), open, limbo)
  {
    if io.owned {
      var u := Queued(io, item);
      InvParts(io, open, limbo);
      QueuedParts(io, item, open, limbo);
      hide Inv, Partial, Counted, Faithful, Truthful;
      MoreTruth(io, u);
      AppendedFaithful(io, u, item.(sent := 0));
      InvIntro(u, open, limbo);
    }
  }

  lemma {:induction false} QueuedAllInv(io: Io, items: seq<Item>, open: multiset<nat>, limbo: multiset<nat>)
    requires Inv(io, open, limbo)
    ensures Inv(QueuedAll(io, items), open, limbo)
  {
    hide Inv;
    if items != [] {
      QueuedAllInv(io, Front(items), open, limbo);
      QueuedInv(QueuedAll(io, Front(items)), Last(items), open, limbo);
    }
  }

  /** Whatever the owner does in a callback, the queue stays sound. */
  lemma ReactInv(io: Io, r: Reaction, open: multiset<nat>, limbo: multiset<nat>)
    requires Inv(io, open, limbo) && (io.owned ==> io.refs > 0)
    ensures Inv(React(io, r), open, limbo)
  {
    hide Inv;
    match r
    case Ignore =>
    case Free => FreedInv(io, open, limbo);
    case Submit(items) => QueuedAllInv(io, items, open, limbo);
  }

  lemma SentInv(io: Io, n: nat)
    requires Inv(io, multiset{}, multiset{}) && io.writeq != []
    requires io.writeq[0].sent + n <= |io.writeq[0].data|
    ensures Inv(Sent(io, n), multiset{}, multiset{})
  {
    var u := Sent(io, n);
    SentFaithful(io, n);
    InvParts(io, multiset{}, multiset{});
    hide Inv, Bytes, ReportIds, Ids, Truthful;
    MoreTruth(io, u);
    hide Faithful, AllTruthful;
    InvIntro(u, multiset{}, multiset{});
  }

  lemma SentFaithful(io: Io, n: nat)
    requires Partial(io) && Faithful(io) && io.writeq != [] && io.writeq[0].sent + n <= |io.writeq[0].data|
    ensures Faithful(Sent(io, n))
  {
    var u, d, rest := Sent(io, n), io.writeq[0], io.writeq[1..];
    var e := d.(sent := d.sent + n);
    assert io.writeq == [d] + rest && u.writeq == [e] + rest;
    SentIds(io.left, io.writeq, e);
    HeadBytes(io.left, d, rest);
    HeadBytes(io.left, e, rest);
    hide Bytes, Ids, Partial;
    SentBytes(Bytes(io.left), d, n);
  }

  lemma SentIds(left: seq<Item>, writeq: seq<Item>, e: Item)
    requires writeq != [] && e.id == writeq[0].id
    ensures Ids(left + writeq[0 := e]) == Ids(left + writeq)
  {
  }

  lemma SentBytes(before: seq<Byte>, d: Item, n: nat)
    requires d.sent + n <= |d.data|
    ensures before + d.data[..d.sent] + d.data[d.sent..d.sent + n] == before + d.data[..d.sent + n]
  {
  }

  lemma HeadBytes(left: seq<Item>, d: Item, rest: seq<Item>)
    requires d.sent <= |d.data| && forall k :: 0 <= k < |rest| ==> rest[k].sent == 0
    ensures Bytes(left + ([d] + rest)) == Bytes(left) + d.data[..d.sent]
  {
    BytesConcat(left, [d] + rest);
    BytesConcat([d], rest);
    BytesOne(d);
    NothingSent(rest);
  }

  lemma PoppedInv(io: Io)
    requires Inv(io, multiset{}, multiset{}) && io.writeq != []
    ensures Inv(Popped(io, io.writeq[0]), multiset{io.writeq[0].id}, multiset{io.writeq[0].id})
  {
    var d := io.writeq[0];
    var u := Popped(io, d);
    InvParts(io, multiset{}, multiset{});
    MoreTruth(io, u);
    assert u.left + u.writeq == io.left + io.writeq;
    IdsConcat(io.left, [d]);
    assert Ids([d]) == [d.id];
    hide Inv, Bytes, Truthful, ReportIds, Ids;
    InvIntro(u, multiset{d.id}, multiset{d.id});
  }

  lemma ReportedInv(io: Io, d: Item, ok: bool)
    requires Inv(io, multiset{d.id}, multiset{d.id}) && io.left != [] && Last(io.left) == d
    requires ok ==> d.sent == |d.data|
    ensures Inv(io.(reports := io.reports + [Report(d.id, d.sent, ok)]), multiset{}, multiset{d.id})
  {
    var r := Report(d.id, d.sent, ok);
    var u := io.(reports := io.reports + [r]);
    InvParts(io, multiset{d.id}, multiset{d.id});
    assert ReportIds(u.reports) == ReportIds(io.reports) + [d.id];
    hide Inv, Bytes, ReportIds, Ids;
    forall i | 0 <= i < |u.reports|
      ensures Truthful(u, u.reports[i])
    {
      if i < |io.reports| {
        assert Truthful(io, io.reports[i]);
      } else {
        assert Tells(u.left[|u.left| - 1], r);
      }
    }
    InvIntro(u, multiset{}, multiset{d.id});
  }

  lemma NoReport(io: Io, x: multiset<nat>, limbo: multiset<nat>)
    requires Inv(io, x, limbo)
    ensures Inv(io, multiset{}, limbo)
  {
    hide Bytes, ReportIds, Ids, Truthful;
  }

  lemma CompletedInv(io: Io, d: Item, ok: bool, r: Reaction)
    requires Inv(io, multiset{d.id}, multiset{d.id}) && io.left != [] && Last(io.left) == d
    requires (ok ==> d.sent == |d.data|) && (io.owned ==> io.refs > 0)
    ensures Inv(Completed(io, d, ok, r), multiset{}, multiset{d.id})
  {
    hide Inv;
    if d.watched {
      ReportedInv(io, d, ok);
      ReactInv(io.(reports := io.reports + [Report(d.id, d.sent, ok)]), r, multiset{}, multiset{d.id});
    } else {
      NoReport(io, multiset{d.id}, multiset{d.id});
    }
  }

  lemma ComplainedInv(io: Io, r: Reaction, limbo: multiset<nat>)
    requires Inv(io, multiset{}, limbo) && (io.owned ==> io.refs > 0)
    ensures Inv(Complained(io, r), multiset{}, limbo)
  {
    hide *;
    ComplainedShape(io, r);
    if io.errorSource {
      var u := io.(errorSource := false, errors := io.errors + 1);
      InvParts(io, multiset{}, limbo);
      OneErrorMore(io);
      SourcesInv(io, u, multiset{}, limbo);
      ReactInv(u, r, multiset{}, limbo);
    }
  }

  lemma ComplainedShape(io: Io, r: Reaction)
    requires io.owned ==> io.refs > 0
    ensures Complained(io, r)
            == if io.errorSource then React(io.(errorSource := false, errors := io.errors + 1), r) else io
  {
  }

  lemma OneErrorMore(io: Io)
    requires OneError(io) && Quiet(io) && io.errorSource
    ensures var u := io.(errorSource := false, errors := io.errors + 1); OneError(u) && Quiet(u)
  {
  }

  lemma DestroyedInv(io: Io, id: nat)
    requires Inv(io, multiset{}, multiset{id})
    ensures Inv(io.(destroyed := io.destroyed + [id]), multiset{}, multiset{})
  {
    var u := io.(destroyed := io.destroyed + [id]);
    InvParts(io, multiset{}, multiset{id});
    MoreTruth(io, u);
    hide Inv, Bytes, ReportIds, Ids, Truthful;
    assert multiset(u.destroyed) == multiset(io.destroyed) + multiset{id};
    InvIntro(u, multiset{}, multiset{});
  }

  lemma UnarmedInv(io: Io, on: bool)
    requires Inv(io, multiset{}, multiset{}) && (on ==> io.writeSource)
    ensures Inv(io.(writeSource := on), multiset{}, multiset{})
  {
    InvParts(io, multiset{}, multiset{});
    hide Inv;
    SourcesInv(io, io.(writeSource := on), multiset{}, multiset{});
  }

  // ---------- Events ----------

  lemma WroteInv(io: Io, n: nat, rc: Reaction)
    requires Inv(io, multiset{}, multiset{}) && io.refs >= 2 && io.writeq != []
    requires io.writeq[0].sent + n <= |io.writeq[0].data|
    ensures Inv(Wrote(io, n, rc), multiset{}, multiset{})
  {
    hide Inv, Completed;
    SentInv(io, n);
    var u := Sent(io, n);
    var d := u.writeq[0];
    if d.sent == |d.data| {
      PoppedInv(u);
      CompletedInv(Popped(u, d), d, true, rc);
      var v := Completed(Popped(u, d), d, true, rc);
      DestroyedInv(v, d.id);
      UnarmedInv(v.(destroyed := v.destroyed + [d.id]), v.writeSource && v.writeq != []);
    }
  }

  lemma WriteFailedInv(io: Io, rc: Reaction, re: Reaction)
    requires Inv(io, multiset{}, multiset{}) && io.refs >= 2 && io.writeq != []
    ensures Inv(WriteFailed(io, rc, re), multiset{}, multiset{})
  {
    hide Inv, Completed, Complained;
    var d := io.writeq[0];
    PoppedInv(io);
    CompletedRefs(Popped(io, d), d, false, rc);
    CompletedInv(Popped(io, d), d, false, rc);
    ComplainedInv(Completed(Popped(io, d), d, false, rc), re, multiset{d.id});
    var v := Complained(Completed(Popped(io, d), d, false, rc), re);
    DestroyedInv(v, d.id);
    UnarmedInv(v.(destroyed := v.destroyed + [d.id]), false);
  }

  lemma WriteInv(io: Io, ready: bool, result: int, rc: Reaction, re: Reaction)
    requires Inv(io, multiset{}, multiset{}) && io.refs >= 2 && Accepts(io, result)
    ensures Inv(HandleWrite(io, ready, result, rc, re), multiset{}, multiset{})
  {
    hide Inv, Wrote, WriteFailed;
    if !ready || io.writeq == [] {
      UnarmedInv(io, false);
    } else if result >= 0 {
      WroteInv(io, result, rc);
    } else {
      WriteFailedInv(io, rc, re);
    }
  }

  lemma ReadInv(io: Io, ready: bool, received: int, rr: Reaction, re: Reaction)
    requires Inv(io, multiset{}, multiset{}) && io.refs >= 2
    ensures Inv(HandleRead(io, ready, received, rr, re), multiset{}, multiset{})
  {
    InvParts(io, multiset{}, multiset{});
    hide Inv, React, Complained;
    if !ready {
      SourcesInv(io, io.(readSource := false), multiset{}, multiset{});
    } else if received > 0 {
      ReactInv(io, rr, multiset{}, multiset{});
    } else {
      ComplainedInv(io, re, multiset{});
      var v := Complained(io, re);
      InvParts(v, multiset{}, multiset{});
      SourcesInv(v, v.(readSource := false), multiset{}, multiset{});
    }
  }

  /** Between events there is one reference, the owner's, or none at all. */
  predicate Settled(io: Io) {
    Inv(io, multiset{}, multiset{}) && (if io.owned then io.refs == 1 else io.refs == 0) && (io.released <==> !io.owned)
  }

  lemma HeldInv(io: Io)
    requires Inv(io, multiset{}, multiset{})
    ensures Inv(Held(io), multiset{}, multiset{})
  {
    InvParts(io, multiset{}, multiset{});
    hide Inv;
    SourcesInv(io, Held(io), multiset{}, multiset{});
  }

  lemma ReactReleased(io: Io, r: Reaction)
    requires io.owned ==> io.refs >= 2
    requires io.refs >= 1
    ensures React(io, r).released == io.released
  {
    if r.Submit? {
      QueuedAllReleased(io, r.items);
    }
  }

  lemma {:induction false} QueuedAllReleased(io: Io, items: seq<Item>)
    ensures QueuedAll(io, items).released == io.released
  {
    if items != [] {
      QueuedAllReleased(io, Front(items));
    }
  }

  lemma ComplainedReleased(io: Io, r: Reaction)
    requires io.refs >= 1 && (io.owned ==> io.refs >= 2)
    ensures Complained(io, r).released == io.released
  {
    if io.errorSource {
      ReactReleased(io.(errorSource := false, errors := io.errors + 1), r);
    }
  }

  lemma CompletedReleased(io: Io, d: Item, ok: bool, r: Reaction)
    requires io.refs >= 2
    ensures Completed(io, d, ok, r).released == io.released
  {
    if d.watched {
      ReactReleased(io.(reports := io.reports + [Report(d.id, d.sent, ok)]), r);
    }
  }

  lemma WriteReleased(io: Io, ready: bool, result: int, rc: Reaction, re: Reaction)
    requires io.refs == 2 && io.owned && Accepts(io, result)
    ensures HandleWrite(io, ready, result, rc, re).released == io.released
  {
    hide Wrote, WriteFailed;
    if ready && io.writeq != [] {
      if result >= 0 {
        WroteReleased(io, result, rc);
      } else {
        FailedReleased(io, rc, re);
      }
    }
  }

  lemma WroteReleased(io: Io, n: nat, rc: Reaction)
    requires io.refs >= 2 && io.writeq != [] && io.writeq[0].sent + n <= |io.writeq[0].data|
    ensures Wrote(io, n, rc).released == io.released
  {
    var u := Sent(io, n);
    hide Completed;
    CompletedReleased(Popped(u, u.writeq[0]), u.writeq[0], true, rc);
  }

  lemma FailedReleased(io: Io, rc: Reaction, re: Reaction)
    requires io.refs >= 2 && io.writeq != []
    ensures WriteFailed(io, rc, re).released == io.released
  {
    var d := io.writeq[0];
    hide Completed, Complained;
    CompletedRefs(Popped(io, d), d, false, rc);
    CompletedReleased(Popped(io, d), d, false, rc);
    ComplainedReleased(Completed(Popped(io, d), d, false, rc), re);
  }

  lemma ReadReleased(io: Io, ready: bool, received: int, rr: Reaction, re: Reaction)
    requires io.refs == 2 && io.owned
    ensures HandleRead(io, ready, received, rr, re).released == io.released
  {
    ReactReleased(io, rr);
    ComplainedReleased(io, re);
  }

  lemma UnrefShape(io: Io)
    requires io.refs == (if io.owned then 2 else 1) && !io.released
    ensures Unref(io).owned == io.owned && Unref(io).refs == io.refs - 1 && (Unref(io).released <==> !io.owned)
  {
  }

  lemma StepSettled(io: Io, e: Event)
    requires Settled(io) && io.owned && io.refs == 1 && Enabled(io, e)
    ensures Settled(Step(io, e))
  {
    hide Inv, HandleWrite, HandleRead, Complained, Unref;
    HeldInv(io);
    match e
    case Write(ready, result, rc, re) =>
      WriteInv(Held(io), ready, result, rc, re);
      WriteRefs(Held(io), ready, result, rc, re);
      WriteReleased(Held(io), ready, result, rc, re);
      UnrefInv(HandleWrite(Held(io), ready, result, rc, re), multiset{}, multiset{});
      UnrefShape(HandleWrite(Held(io), ready, result, rc, re));
    case Read(ready, received, rr, re) =>
      ReadInv(Held(io), ready, received, rr, re);
      ReadRefs(Held(io), ready, received, rr, re);
      ReadReleased(Held(io), ready, received, rr, re);
      UnrefInv(HandleRead(Held(io), ready, received, rr, re), multiset{}, multiset{});
      UnrefShape(HandleRead(Held(io), ready, received, rr, re));
    case Broken(re) =>
      ComplainedInv(Held(io), re, multiset{});
      ComplainedRefs(Held(io), re);
      ComplainedReleased(Held(io), re);
      UnrefInv(Complained(Held(io), re), multiset{}, multiset{});
      UnrefShape(Complained(Held(io), re));
    case StartReceive => SourceSettled(io, true);
    case StopReceive => SourceSettled(io, false);
    case Send(item) => QueuedInv(io, item, multiset{}, multiset{});
    case Release =>
      FreedInv(io, multiset{}, multiset{});
      FreedShape(io);
  }

  lemma SourceSettled(io: Io, on: bool)
    requires Settled(io) && io.owned
    ensures Settled(io.(readSource := on))
  {
    InvParts(io, multiset{}, multiset{});
    hide Inv;
    SourcesInv(io, io.(readSource := on), multiset{}, multiset{});
  }

  lemma FreedShape(io: Io)
    requires io.owned && io.refs == 1
    ensures !Freed(io).owned && Freed(io).refs == 0 && Freed(io).released
  {
  }

  function Run(events: seq<Event>): Io {
    if events == [] then CREATED
    else
      var io := Run(Front(events));
      if io.owned && io.refs == 1 && Enabled(io, Last(events)) then Step(io, Last(events)) else io
  }

  lemma {:induction false} RunsSettle(events: seq<Event>)
    ensures Settled(Run(events))
  {
    if events == [] {
      assert Ids([]) == [] && ReportIds([]) == [];
    } else {
      RunsSettle(Front(events));
      hide Settled, Step, Enabled;
      var io := Run(Front(events));
      if io.owned && io.refs == 1 && Enabled(io, Last(events)) {
        StepSettled(io, Last(events));
      }
    }
  }

  /** Over every run, with callbacks that dispose of the object or submit more: the wire
      carries, in the order of submission, what was sent of every item that has left
      the queue, and then the sent part of the head. */
  lemma WireIsInOrder(events: seq<Event>)
    ensures var io := Run(events);
            && Ids(io.left + io.writeq) == io.submitted
            && io.wire == Bytes(io.left) + if io.writeq == [] then []
                                          else if io.writeq[0].sent <= |io.writeq[0].data|
                                          then io.writeq[0].data[..io.writeq[0].sent] else []
  {
    RunsSettle(events);
    var io := Run(events);
    InvParts(io, multiset{}, multiset{});
    hide *;
    WireOf(io);
  }

  lemma WireOf(io: Io)
    requires Partial(io) && Faithful(io)
    ensures Ids(io.left + io.writeq) == io.submitted
    ensures io.wire == Bytes(io.left) + if io.writeq == [] then []
                                        else if io.writeq[0].sent <= |io.writeq[0].data|
                                        then io.writeq[0].data[..io.writeq[0].sent] else []
  {
    hide Bytes, Ids;
    if io.writeq == [] {
      assert io.left + io.writeq == io.left;
    } else {
      assert io.writeq == [io.writeq[0]] + io.writeq[1..];
      HeadBytes(io.left, io.writeq[0], io.writeq[1..]);
    }
  }

  /** Every item that has left the queue is destroyed exactly once and reported at most
      once; a success is reported only for an item that was sent in full; the error
      handler runs at most once; and a released object owes nothing. */
  lemma ItemsEndOnce(events: seq<Event>)
    ensures var io := Run(events);
            && multiset(io.destroyed) == multiset(Ids(io.left))
            && multiset(ReportIds(io.reports)) <= multiset(Ids(io.left))
            && (forall i :: 0 <= i < |io.reports| ==> Truthful(io, io.reports[i]))
            && io.errors <= 1
            && (io.released <==> io.refs == 0)
            && (io.released ==> multiset(io.destroyed) == multiset(io.submitted))
  {
    RunsSettle(events);
    var io := Run(events);
    InvParts(io, multiset{}, multiset{});
    hide Inv, Run;
    if io.released {
      assert io.left + io.writeq == io.left;
    }
  }

  /** Nothing stays in the queue without a write source to empty it. */
  predicate Flowing(io: Io) {
    io.writeq != [] ==> io.writeSource
  }

  lemma {:induction false} QueuedAllFlows(io: Io, items: seq<Item>)
    requires Flowing(io) || items != []
    ensures Flowing(QueuedAll(io, items)) || !io.owned
    ensures io.owned && items != [] ==> QueuedAll(io, items).writeSource
    ensures items == [] ==> QueuedAll(io, items) == io
  {
    if items != [] {
      QueuedRefs(io, Front(items));
      if Front(items) != [] {
        QueuedAllFlows(io, Front(items));
      }
    }
  }

  lemma {:induction false} QueuedAllGrows(io: Io, items: seq<Item>)
    requires io.owned
    ensures |QueuedAll(io, items).writeq| == |io.writeq| + |items| && QueuedAll(io, items).errorSource == io.errorSource
  {
    if items != [] {
      QueuedAllGrows(io, Front(items));
      QueuedRefs(io, Front(items));
    }
  }

  // The callback runs, and the owner disposes of the object, or submits something, in it.
  predicate Frees(runs: bool, r: Reaction) {
    runs && r.Free?
  }

  predicate Adds(runs: bool, r: Reaction) {
    runs && r.Submit? && r.items != []
  }

  lemma CalledBack(io: Io, r: Reaction)
    requires io.owned && io.refs >= 2
    ensures var u := React(io, r);
            && (r.Free? ==> u.writeq == [] && !u.errorSource && !u.owned)
            && (!r.Free? ==> u.owned && u.refs >= 2 && u.errorSource == io.errorSource
                             && (u.writeq != [] <==> io.writeq != [] || Adds(true, r)))
  {
    if r.Submit? {
      QueuedAllGrows(io, r.items);
      QueuedRefs(io, r.items);
    }
  }

  /** What a failed write leaves in the queue. */
  lemma FailureLeaves(io: Io, rc: Reaction, re: Reaction)
    requires io.owned && io.refs >= 2 && io.writeq != []
    ensures var watched := io.writeq[0].watched;
            WriteFailed(io, rc, re).writeq != [] <==>
              && !Frees(watched, rc) && !Frees(io.errorSource, re)
              && (|io.writeq| > 1 || Adds(watched, rc) || Adds(io.errorSource, re))
  {
    var d := io.writeq[0];
    var u := Popped(io, d);
    CompletedRefs(u, d, false, rc);
    var v := Completed(u, d, false, rc);
    CompletionLeaves(u, d, rc);
    assert WriteFailed(io, rc, re).writeq == Complained(v, re).writeq by { hide Completed, Complained; }
    hide *;
    ComplaintLeaves(v, re);
    NeitherRuns(d.watched, rc);
    NeitherRuns(io.errorSource, re);
    PoppedParts(io, d);
  }

  lemma PoppedParts(io: Io, d: Item)
    requires io.writeq != []
    ensures var u := Popped(io, d); u.errorSource == io.errorSource && (u.writeq != [] <==> |io.writeq| > 1)
  {
  }

  lemma NeitherRuns(runs: bool, r: Reaction)
    ensures Adds(runs, r) || Frees(runs, r) ==> runs
    ensures !(Adds(runs, r) && Frees(runs, r))
  {
  }

  lemma CompletionLeaves(u: Io, d: Item, rc: Reaction)
    requires u.owned && u.refs >= 2
    ensures var v := Completed(u, d, false, rc);
            && (Frees(d.watched, rc) ==> v.writeq == [] && !v.errorSource && !v.owned && v.refs >= 1)
            && (!Frees(d.watched, rc) ==>
                  && v.owned && v.refs >= 2 && v.errorSource == u.errorSource
                  && (v.writeq != [] <==> u.writeq != [] || Adds(d.watched, rc)))
  {
    CompletedRefs(u, d, false, rc);
    if d.watched {
      CalledBack(u.(reports := u.reports + [Report(d.id, d.sent, false)]), rc);
    }
    hide React;
  }

  lemma ComplaintLeaves(v: Io, re: Reaction)
    requires if v.owned then v.refs >= 2 else v.refs >= 1 && v.writeq == [] && !v.errorSource
    ensures Complained(v, re).writeq != [] <==>
              !Frees(v.errorSource, re) && (v.writeq != [] || Adds(v.errorSource, re))
  {
    if v.errorSource {
      CalledBack(v.(errorSource := false, errors := v.errors + 1), re);
    }
    hide React;
  }

  /** A write success keeps the queue flowing. */
  lemma SuccessFlows(io: Io, n: nat, rc: Reaction)
    requires io.writeSource && io.refs >= 2 && io.owned && io.writeq != []
    requires io.writeq[0].sent + n <= |io.writeq[0].data|
    ensures Flowing(Wrote(io, n, rc))
  {
    var u := Sent(io, n);
    var d := u.writeq[0];
    if d.sent == |d.data| && d.watched && rc.Submit? {
      QueuedAllFlows(Popped(u, d).(reports := u.reports + [Report(d.id, d.sent, true)]), rc.items);
    }
  }

  /** A write leaves items behind that nothing will send, until something else is
      submitted, if and only if there are items and the socket was hung up; or the write
      failed, neither callback that runs then disposes of the object, and the failed item
      was not the only one or such a callback has submitted another. */
  lemma WriteStallsExactly(io: Io, ready: bool, result: int, rc: Reaction, re: Reaction)
    requires io.writeSource && io.refs == 2 && io.owned && Accepts(io, result)
    ensures !Flowing(HandleWrite(io, ready, result, rc, re)) <==>
              && io.writeq != []
              && (!ready || (var watched := io.writeq[0].watched;
                             && result < 0 && !Frees(watched, rc) && !Frees(io.errorSource, re)
                             && (|io.writeq| > 1 || Adds(watched, rc) || Adds(io.errorSource, re))))
  {
    if ready && io.writeq != [] {
      hide Wrote, WriteFailed;
      if result >= 0 {
        SuccessFlows(io, result, rc);
      } else {
        FailureLeaves(io, rc, re);
        assert !WriteFailed(io, rc, re).writeSource by { FailedUnarmed(io, rc, re); }
      }
    }
  }

  lemma FailedUnarmed(io: Io, rc: Reaction, re: Reaction)
    requires io.refs >= 2 && io.writeq != []
    ensures !WriteFailed(io, rc, re).writeSource
  {
  }
}

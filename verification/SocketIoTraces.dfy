/** What a socket has been asked to send, what it has reported and what it has complained of,
    on the events: which callbacks an event runs, and what these do. */
module SocketIoTraces {
  import opened Base
  import opened SocketIo
  import opened SocketIoRuns

  // ---------- What an event does ----------

  // The head of the queue has been sent in full by a write.
  predicate Completes(io: Io, e: Event) {
    e.Write? && e.ready && io.writeq != [] && e.result >= 0 && io.writeq[0].sent + e.result == |io.writeq[0].data|
  }

  predicate Fails(io: Io, e: Event) {
    e.Write? && e.ready && io.writeq != [] && e.result < 0
  }

  predicate Reports(io: Io, e: Event) {
    (Completes(io, e) || Fails(io, e)) && io.writeq[0].watched
  }

  predicate Delivers(e: Event) {
    e.Read? && e.ready && e.received > 0
  }

  /** The error handler runs: on the first failure or end of file, unless the completion
      callback that precedes it has disposed of the object. */
  predicate Complains(io: Io, e: Event) {
    && io.errorSource
    && (e.Broken? || (e.Read? && e.ready && e.received <= 0) || (Fails(io, e) && !(io.writeq[0].watched && e.rc.Free?)))
  }

  /** The reactions of the owner to the callbacks that the event runs, in order. */
  function Reactions(io: Io, e: Event): seq<Reaction> {
    (if Reports(io, e) then [e.rc] else [])
    + (if Complains(io, e) then [e.re] else [])
    + (if Delivers(e) then [e.rr] else [])
  }

  function Fresh(items: seq<Item>): seq<Item> {
    seq(|items|, i requires 0 <= i < |items| => items[i].(sent := 0))
  }

  function Given(r: Reaction): seq<Item> {
    if r.Submit? then Fresh(r.items) else []
  }

  function AllGiven(rs: seq<Reaction>): seq<Item> {
    if rs == [] then [] else AllGiven(Front(rs)) + Given(Last(rs))
  }

  function SubmittedIn(io: Io, e: Event): seq<Item> {
    if e.Send? then [e.item.(sent := 0)] else AllGiven(Reactions(io, e))
  }

  function ReportIn(io: Io, e: Event): seq<Report> {
    if Reports(io, e) then
      [Report(io.writeq[0].id, io.writeq[0].sent + if Completes(io, e) then e.result else 0, Completes(io, e))]
    else []
  }

  function TakenIn(io: Io, e: Event): nat {
    if e.Write? && e.ready && io.writeq != [] && e.result >= 0 then e.result else 0
  }

  function ErrorIn(io: Io, e: Event): nat {
    if Complains(io, e) then 1 else 0
  }

  predicate FreedIn(io: Io, e: Event) {
    e.Release? || Free in Reactions(io, e)
  }

  predicate ReadsOn(io: Io, e: Event) {
    && !FreedIn(io, e)
    && match e
       case StartReceive => true
       case StopReceive => false
       case Read(_, _, _, _) => Delivers(e)
       case _ => io.readSource
  }

  /** So much for one event; more: what is submitted, as it was when it was submitted. */
  predicate Effect(io: Io, u: Io, more: seq<Item>, reports: seq<Report>, taken: nat, errors: nat, freed: bool) {
    && Fresh(u.left + u.writeq) == Fresh(io.left + io.writeq) + more
    && u.reports == io.reports + reports && |u.wire| == |io.wire| + taken && u.errors == io.errors + errors
    && u.owned == (io.owned && !freed)
  }

  lemma FreshConcat(a: seq<Item>, b: seq<Item>)
    ensures Fresh(a + b) == Fresh(a) + Fresh(b)
  {
  }

  lemma NoEffect(io: Io, u: Io)
    requires u.left + u.writeq == io.left + io.writeq
    requires u.reports == io.reports && u.wire == io.wire && u.errors == io.errors && u.owned == io.owned
    ensures Effect(io, u, [], [], 0, 0, false)
  {
    assert Fresh(io.left + io.writeq) + [] == Fresh(io.left + io.writeq) && io.reports + [] == io.reports;
  }

  // Two effects, one after the other.
  lemma Both(io: Io, u: Io, v: Io, m1: seq<Item>, m2: seq<Item>, r1: seq<Report>, r2: seq<Report>,
             t1: nat, t2: nat, e1: nat, e2: nat, f1: bool, f2: bool)
    requires Effect(io, u, m1, r1, t1, e1, f1) && Effect(u, v, m2, r2, t2, e2, f2)
    ensures Effect(io, v, m1 + m2, r1 + r2, t1 + t2, e1 + e2, f1 || f2)
  {
    hide Fresh;
    assert Fresh(io.left + io.writeq) + m1 + m2 == Fresh(io.left + io.writeq) + (m1 + m2);
  }

  // ---------- The parts ----------

  lemma DisposedEffect(io: Io)
    ensures Effect(io, Disposed(io), [], [], 0, 0, false)
  {
    hide Ids;
    assert io.left + io.writeq + [] == io.left + io.writeq;
    NoEffect(io, Disposed(io));
  }

  lemma UnrefEffect(io: Io)
    requires io.refs > 0
    ensures Effect(io, Unref(io), [], [], 0, 0, false)
  {
    if io.refs == 1 {
      DisposedEffect(io.(refs := 0));
    } else {
      NoEffect(io, Unref(io));
    }
    hide Disposed;
  }

  lemma FreedEffect(io: Io)
    requires io.owned && io.refs > 0
    ensures Effect(io, Freed(io), [], [], 0, 0, true)
  {
    var a := io.(owned := false);
    DisposedEffect(a);
    assert Disposed(a).refs == io.refs;
    UnrefEffect(Disposed(a));
    hide Disposed, Unref, Fresh;
    Both(a, Disposed(a), Freed(io), [], [], [], [], 0, 0, 0, 0, false, false);
    var items: seq<Item>, reports: seq<Report> := [], [];
    assert items + items == items && reports + reports == reports;
  }

  lemma QueuedEffect(io: Io, item: Item)
    requires io.owned
    ensures Effect(io, Queued(io, item), [item.(sent := 0)], [], 0, 0, false)
  {
    var x := item.(sent := 0);
    assert io.left + (io.writeq + [x]) == io.left + io.writeq + [x];
    FreshConcat(io.left + io.writeq, [x]);
    assert Fresh([x]) == [x] && io.reports + [] == io.reports;
  }

  lemma {:induction false} QueuedAllEffect(io: Io, items: seq<Item>)
    requires io.owned
    ensures QueuedAll(io, items).owned && Effect(io, QueuedAll(io, items), Fresh(items), [], 0, 0, false)
  {
    if items == [] {
      NoEffect(io, io);
      assert Fresh(items) == [];
    } else {
      var before, item := Front(items), Last(items);
      QueuedAllEffect(io, before);
      QueuedEffect(QueuedAll(io, before), item);
      assert items == before + [item];
      FreshConcat(before, [item]);
      assert Fresh([item]) == [item.(sent := 0)];
      hide Fresh, Queued;
      Both(io, QueuedAll(io, before), QueuedAll(io, items), Fresh(before), [item.(sent := 0)], [], [], 0, 0, 0, 0, false, false);
    }
  }

  lemma ReactEffect(io: Io, r: Reaction)
    requires io.owned && io.refs > 0
    ensures Effect(io, React(io, r), Given(r), [], 0, 0, r.Free?)
  {
    match r
    case Ignore => NoEffect(io, io);
    case Free => FreedEffect(io);
    case Submit(items) => QueuedAllEffect(io, items);
  }

  lemma CompletedEffect(io: Io, d: Item, ok: bool, r: Reaction)
    requires io.owned && io.refs > 0
    ensures Effect(io, Completed(io, d, ok, r), if d.watched then Given(r) else [],
                   if d.watched then [Report(d.id, d.sent, ok)] else [], 0, 0, d.watched && r.Free?)
  {
    if d.watched {
      ReactEffect(io.(reports := io.reports + [Report(d.id, d.sent, ok)]), r);
      assert io.reports + [Report(d.id, d.sent, ok)] + [] == io.reports + [Report(d.id, d.sent, ok)];
    } else {
      NoEffect(io, io);
    }
    hide React, Given, Fresh;
  }

  lemma ComplainedEffect(io: Io, r: Reaction)
    requires io.errorSource ==> io.owned && io.refs > 0
    requires io.owned ==> io.refs > 0
    ensures Effect(io, Complained(io, r), if io.errorSource then Given(r) else [], [], 0,
                   if io.errorSource then 1 else 0, io.errorSource && r.Free?)
  {
    if io.errorSource {
      ReactEffect(io.(errorSource := false, errors := io.errors + 1), r);
    } else {
      NoEffect(io, io);
    }
    hide React, Given, Fresh;
  }

  lemma PoppedEffect(io: Io)
    requires io.writeq != []
    ensures Effect(io, Popped(io, io.writeq[0]), [], [], 0, 0, false)
  {
    assert io.writeq == [io.writeq[0]] + io.writeq[1..];
    assert io.left + [io.writeq[0]] + io.writeq[1..] == io.left + ([io.writeq[0]] + io.writeq[1..]);
    NoEffect(io, Popped(io, io.writeq[0]));
  }

  lemma SentEffect(io: Io, n: nat)
    requires io.writeq != [] && io.writeq[0].sent + n <= |io.writeq[0].data|
    ensures Effect(io, Sent(io, n), [], [], n, 0, false)
  {
    var u := Sent(io, n);
    assert Fresh(u.left + u.writeq) == Fresh(io.left + io.writeq);
    assert Fresh(io.left + io.writeq) + [] == Fresh(io.left + io.writeq) && io.reports + [] == io.reports;
  }

  lemma WroteEffect(io: Io, e: Event)
    requires io.refs == 2 && io.owned && e.Write? && e.ready && io.writeq != [] && e.result >= 0
    requires io.writeq[0].sent + e.result <= |io.writeq[0].data|
    ensures Effect(io, Wrote(io, e.result, e.rc), if Reports(io, e) then Given(e.rc) else [], ReportIn(io, e), e.result, 0,
                   Reports(io, e) && e.rc.Free?)
  {
    var u := Sent(io, e.result);
    var d := u.writeq[0];
    SentEffect(io, e.result);
    if d.sent == |d.data| {
      var p := Popped(u, d);
      PoppedEffect(u);
      CompletedEffect(p, d, true, e.rc);
      var given, reports := if d.watched then Given(e.rc) else [], if d.watched then [Report(d.id, d.sent, true)] else [];
      hide Completed, Fresh, Given;
      Both(io, u, p, [], [], [], [], e.result, 0, 0, 0, false, false);
      Both(io, p, Completed(p, d, true, e.rc), [] + [], given, [] + [], reports, e.result, 0, 0, 0, false, d.watched && e.rc.Free?);
      assert [] + [] + given == given && [] + [] + reports == reports;
    }
  }

  lemma FailedEffect(io: Io, e: Event)
    requires io.refs == 2 && io.owned && Fails(io, e)
    ensures Effect(io, WriteFailed(io, e.rc, e.re), AllGiven(Reactions(io, e)), ReportIn(io, e), 0,
                   ErrorIn(io, e), Free in Reactions(io, e))
  {
    var d := io.writeq[0];
    var p := Popped(io, d);
    var c := Completed(p, d, false, e.rc);
    var freed := d.watched && e.rc.Free?;
    PoppedEffect(io);
    CompletedEffect(p, d, false, e.rc);
    CompletedRefs(p, d, false, e.rc);
    CompletedSource(p, d, false, e.rc);
    ComplainedEffect(c, e.re);
    FailureGives(io, e);
    var g1, g2 := if d.watched then Given(e.rc) else [], if c.errorSource then Given(e.re) else [];
    var r1 := if d.watched then [Report(d.id, d.sent, false)] else [];
    hide Completed, Complained, Fresh, Given, AllGiven, Reactions;
    Both(io, p, c, [], g1, [], r1, 0, 0, 0, 0, false, freed);
    Both(io, c, Complained(c, e.re), [] + g1, g2, [] + r1, [], 0, 0, 0, if c.errorSource then 1 else 0, freed,
         c.errorSource && e.re.Free?);
    assert [] + g1 + g2 == g1 + g2 && [] + r1 + [] == r1;
  }

  // The error source outlives the completion callback unless that disposes of the object.
  lemma CompletedSource(io: Io, d: Item, ok: bool, r: Reaction)
    requires io.owned && io.refs >= 2
    ensures Completed(io, d, ok, r).errorSource == (io.errorSource && !(d.watched && r.Free?))
    ensures Completed(io, d, ok, r).owned == !(d.watched && r.Free?)
  {
    if d.watched && r.Submit? {
      QueuedSources(io.(reports := io.reports + [Report(d.id, d.sent, ok)]), r.items);
    }
  }

  lemma {:induction false} QueuedSources(io: Io, items: seq<Item>)
    ensures QueuedAll(io, items).errorSource == io.errorSource && QueuedAll(io, items).owned == io.owned
    ensures QueuedAll(io, items).readSource == io.readSource
  {
    if items != [] {
      QueuedSources(io, Front(items));
    }
  }

  lemma FailureGives(io: Io, e: Event)
    requires Fails(io, e)
    ensures var rs := Reactions(io, e);
            && AllGiven(rs) == (if Reports(io, e) then Given(e.rc) else []) + (if Complains(io, e) then Given(e.re) else [])
            && (Free in rs <==> (Reports(io, e) && e.rc.Free?) || (Complains(io, e) && e.re.Free?))
  {
    var a, b := if Reports(io, e) then [e.rc] else [], if Complains(io, e) then [e.re] else [];
    assert Reactions(io, e) == a + b;
    hide Reactions, Given, AllGiven, Reports, Complains;
    GivenTwo(a, b);
    FreeTwo(a, b);
  }

  lemma FreeTwo(a: seq<Reaction>, b: seq<Reaction>)
    requires |a| <= 1 && |b| <= 1
    ensures Free in a + b <==> (a != [] && a[0].Free?) || (b != [] && b[0].Free?)
  {
    assert a != [] && a[0].Free? ==> (a + b)[0] == Free;
    assert b != [] && b[0].Free? ==> (a + b)[|a|] == Free;
  }

  lemma GivenTwo(a: seq<Reaction>, b: seq<Reaction>)
    requires |a| <= 1 && |b| <= 1
    ensures AllGiven(a + b) == (if a == [] then [] else Given(a[0])) + (if b == [] then [] else Given(b[0]))
  {
    hide Given;
    GivenOne(a);
    if b == [] {
      assert a + b == a;
      hide AllGiven;
    } else {
      assert Front(a + b) == a && Last(a + b) == b[0];
    }
  }

  lemma GivenOne(a: seq<Reaction>)
    requires |a| <= 1
    ensures AllGiven(a) == if a == [] then [] else Given(a[0])
  {
    if a != [] {
      assert Front(a) == [];
    }
  }

  // ---------- Events ----------

  lemma IdleEffect(io: Io, e: Event)
    requires e.Write? && (!e.ready || io.writeq == [])
    ensures Effect(io, io.(writeSource := false), SubmittedIn(io, e), ReportIn(io, e), TakenIn(io, e), ErrorIn(io, e),
                   FreedIn(io, e))
  {
    NoEffect(io, io.(writeSource := false));
    assert Reactions(io, e) == [];
    hide Effect;
  }

  lemma TakenEffect(io: Io, e: Event)
    requires io.refs == 2 && io.owned && e.Write? && e.ready && io.writeq != [] && e.result >= 0
    requires io.writeq[0].sent + e.result <= |io.writeq[0].data|
    ensures Effect(io, Wrote(io, e.result, e.rc), SubmittedIn(io, e), ReportIn(io, e), TakenIn(io, e), ErrorIn(io, e),
                   FreedIn(io, e))
  {
    WroteEffect(io, e);
    var rs := if Reports(io, e) then [e.rc] else [];
    assert Reactions(io, e) == rs;
    GivenOne(rs);
    assert Free in rs <==> Reports(io, e) && e.rc.Free?;
    hide Wrote, Given, AllGiven, Effect, Reports, ReportIn;
  }

  lemma WriteEffect(io: Io, e: Event)
    requires io.refs == 2 && io.owned && e.Write? && Accepts(io, e.result)
    ensures Effect(io, HandleWrite(io, e.ready, e.result, e.rc, e.re), SubmittedIn(io, e), ReportIn(io, e), TakenIn(io, e),
                   ErrorIn(io, e), FreedIn(io, e))
  {
    if !e.ready || io.writeq == [] {
      IdleEffect(io, e);
      hide Effect, SubmittedIn, ReportIn, TakenIn, ErrorIn, FreedIn;
    } else if e.result >= 0 {
      TakenEffect(io, e);
      hide Effect, Wrote, SubmittedIn, ReportIn, TakenIn, ErrorIn, FreedIn;
    } else {
      FailedEffect(io, e);
      hide Effect, WriteFailed, Given, AllGiven, Reactions, ReportIn;
    }
  }

  lemma ReadEffect(io: Io, e: Event)
    requires io.refs == 2 && io.owned && e.Read?
    ensures Effect(io, HandleRead(io, e.ready, e.received, e.rr, e.re), SubmittedIn(io, e), ReportIn(io, e), TakenIn(io, e),
                   ErrorIn(io, e), FreedIn(io, e))
  {
    if !e.ready {
      NoEffect(io, io.(readSource := false));
      assert Reactions(io, e) == [];
      hide Effect;
    } else {
      var rs := if e.received > 0 then [e.rr] else if io.errorSource then [e.re] else [];
      assert Reactions(io, e) == rs;
      GivenOne(rs);
      if e.received > 0 {
        ReactEffect(io, e.rr);
        assert Free in rs <==> e.rr.Free?;
        hide React, Given, AllGiven, Effect, Reactions;
      } else {
        ComplainedEffect(io, e.re);
        SameEffect(io, Complained(io, e.re), Complained(io, e.re).(readSource := false),
                   if io.errorSource then Given(e.re) else [], if io.errorSource then 1 else 0, io.errorSource && e.re.Free?);
        assert Free in rs <==> io.errorSource && e.re.Free?;
        hide Complained, Given, AllGiven, Effect, Reactions;
      }
    }
  }

  // The read source is no part of the effect.
  lemma SameEffect(io: Io, u: Io, v: Io, more: seq<Item>, errors: nat, freed: bool)
    requires Effect(io, u, more, [], 0, errors, freed) && v == u.(readSource := v.readSource)
    ensures Effect(io, v, more, [], 0, errors, freed)
  {
    hide Fresh;
  }

  lemma BrokenEffect(io: Io, e: Event)
    requires io.refs == 2 && io.owned && e.Broken? && io.errorSource
    ensures Effect(io, Complained(io, e.re), SubmittedIn(io, e), ReportIn(io, e), TakenIn(io, e),
                   ErrorIn(io, e), FreedIn(io, e))
  {
    ComplainedEffect(io, e.re);
    assert Reactions(io, e) == [e.re];
    GivenOne([e.re]);
    hide Complained, Given, AllGiven, Fresh;
  }

  // The reference that the source callback holds makes no difference.
  lemma UnderReference(io: Io, v: Io, e: Event)
    requires io.refs == 1 && v.refs > 0
    requires Effect(Held(io), v, SubmittedIn(Held(io), e), ReportIn(Held(io), e), TakenIn(Held(io), e),
                    ErrorIn(Held(io), e), FreedIn(Held(io), e))
    ensures Effect(io, Unref(v), SubmittedIn(io, e), ReportIn(io, e), TakenIn(io, e),
                   ErrorIn(io, e), FreedIn(io, e))
  {
    SameUnderReference(io, e);
    UnrefEffect(v);
    hide *;
    AndNothing(io, v, Unref(v), SubmittedIn(io, e), ReportIn(io, e), TakenIn(io, e), ErrorIn(io, e), FreedIn(io, e));
  }

  lemma AndNothing(io: Io, v: Io, u: Io, more: seq<Item>, reports: seq<Report>, taken: nat, errors: nat, freed: bool)
    requires Effect(Held(io), v, more, reports, taken, errors, freed) && Effect(v, u, [], [], 0, 0, false)
    ensures Effect(io, u, more, reports, taken, errors, freed)
  {
    hide Fresh;
    assert Fresh(v.left + v.writeq) + [] == Fresh(v.left + v.writeq) && v.reports + [] == v.reports;
  }

  lemma SameUnderReference(io: Io, e: Event)
    ensures var h := Held(io);
            && SubmittedIn(h, e) == SubmittedIn(io, e) && ReportIn(h, e) == ReportIn(io, e)
            && TakenIn(h, e) == TakenIn(io, e) && ErrorIn(h, e) == ErrorIn(io, e) && FreedIn(h, e) == FreedIn(io, e)
  {
    SameReactions(io, e);
    hide Reactions;
  }

  lemma StepEffect(io: Io, e: Event)
    requires io.owned && io.refs == 1 && Enabled(io, e)
    ensures Effect(io, Step(io, e), SubmittedIn(io, e), ReportIn(io, e), TakenIn(io, e),
                   ErrorIn(io, e), FreedIn(io, e))
  {
    var h := Held(io);
    match e
    case Write(ready, result, rc, re) =>
      WriteRefs(h, ready, result, rc, re);
      WriteEffect(h, e);
      hide HandleWrite, Unref, SubmittedIn, ReportIn, TakenIn, FreedIn, ErrorIn, Effect;
      UnderReference(io, HandleWrite(h, ready, result, rc, re), e);
    case Read(ready, received, rr, re) =>
      ReadRefs(h, ready, received, rr, re);
      ReadEffect(h, e);
      hide HandleRead, Unref, SubmittedIn, ReportIn, TakenIn, FreedIn, ErrorIn, Effect;
      UnderReference(io, HandleRead(h, ready, received, rr, re), e);
    case Broken(re) =>
      ComplainedRefs(h, re);
      BrokenEffect(h, e);
      hide Complained, Unref, SubmittedIn, ReportIn, TakenIn, FreedIn, ErrorIn, Effect;
      UnderReference(io, Complained(h, re), e);
    case Send(item) =>
      assert Reactions(io, e) == [];
      QueuedEffect(io, item);
      hide Queued, Effect;
    case Release =>
      assert Reactions(io, e) == [];
      FreedEffect(io);
      hide Freed, Effect;
    case _ =>
      assert Reactions(io, e) == [];
      NoEffect(io, Step(io, e));
  }

  // ---------- Reading ----------

  lemma ReactReads(io: Io, r: Reaction)
    requires io.owned && io.refs > 0
    ensures React(io, r).readSource == (io.readSource && !r.Free?)
  {
    if r.Submit? {
      QueuedSources(io, r.items);
    }
  }

  lemma CompletedReads(io: Io, d: Item, ok: bool, r: Reaction)
    requires io.owned && io.refs >= 2
    ensures Completed(io, d, ok, r).readSource == (io.readSource && !(d.watched && r.Free?))
  {
    if d.watched {
      ReactReads(io.(reports := io.reports + [Report(d.id, d.sent, ok)]), r);
    }
    hide React;
  }

  lemma ComplainedReads(io: Io, r: Reaction)
    requires io.errorSource ==> io.owned && io.refs > 0
    requires io.owned ==> io.refs > 0
    ensures Complained(io, r).readSource == (io.readSource && !(io.errorSource && r.Free?))
  {
    if io.errorSource {
      ReactReads(io.(errorSource := false, errors := io.errors + 1), r);
    }
    hide React;
  }

  lemma WriteReads(io: Io, e: Event)
    requires io.refs == 2 && io.owned && e.Write? && Accepts(io, e.result)
    ensures HandleWrite(io, e.ready, e.result, e.rc, e.re).readSource == (io.readSource && !FreedIn(io, e))
  {
    if e.ready && io.writeq != [] {
      if e.result >= 0 {
        var u := Sent(io, e.result);
        CompletedReads(Popped(u, u.writeq[0]), u.writeq[0], true, e.rc);
        assert Reactions(io, e) == if Reports(io, e) then [e.rc] else [];
        hide Completed;
      } else {
        var d := io.writeq[0];
        var p := Popped(io, d);
        CompletedReads(p, d, false, e.rc);
        CompletedRefs(p, d, false, e.rc);
        CompletedSource(p, d, false, e.rc);
        ComplainedReads(Completed(p, d, false, e.rc), e.re);
        FailureGives(io, e);
        hide Completed, Complained, AllGiven, Given, Reactions;
      }
    }
  }

  lemma UnrefReads(io: Io)
    requires io.refs > 0 && (io.refs == 1 ==> !io.readSource)
    ensures Unref(io).readSource == io.readSource
  {
  }

  lemma StepReads(io: Io, e: Event)
    requires io.owned && io.refs == 1 && Enabled(io, e)
    ensures Step(io, e).readSource == ReadsOn(io, e)
  {
    var h := Held(io);
    assert FreedIn(h, e) == FreedIn(io, e) by { SameReactions(io, e); }
    match e
    case Write(ready, result, rc, re) =>
      WriteRefs(h, ready, result, rc, re);
      WriteReads(h, e);
      WriteEffect(h, e);
      hide HandleWrite, FreedIn, SubmittedIn, ReportIn, TakenIn, ErrorIn, Fresh;
      UnrefReads(HandleWrite(h, ready, result, rc, re));
      hide Unref;
    case Read(ready, received, rr, re) =>
      ReadRefs(h, ready, received, rr, re);
      ReadReads(h, e);
      ReadEffect(h, e);
      hide HandleRead, FreedIn, SubmittedIn, ReportIn, TakenIn, ErrorIn, Fresh;
      UnrefReads(HandleRead(h, ready, received, rr, re));
      hide Unref;
    case Broken(re) =>
      ComplainedRefs(h, re);
      ComplainedReads(h, re);
      assert Reactions(io, e) == [re];
      BrokenEffect(h, e);
      hide Complained, SubmittedIn, ReportIn, TakenIn, ErrorIn, Fresh, Reactions;
      UnrefReads(Complained(h, re));
      hide Unref;
    case _ => assert Reactions(io, e) == [];
  }

  lemma SameReactions(io: Io, e: Event)
    ensures Reactions(Held(io), e) == Reactions(io, e) && FreedIn(Held(io), e) == FreedIn(io, e)
  {
    var h := Held(io);
    assert Reports(h, e) == Reports(io, e) && Complains(h, e) == Complains(io, e);
  }

  lemma ReadReads(io: Io, e: Event)
    requires io.refs == 2 && io.owned && e.Read? && io.readSource
    ensures HandleRead(io, e.ready, e.received, e.rr, e.re).readSource == (Delivers(e) && !FreedIn(io, e))
  {
    if e.ready && e.received > 0 {
      ReactReads(io, e.rr);
      assert Reactions(io, e) == [e.rr];
    }
    hide React, Complained;
  }

  // ---------- Whole runs ----------

  predicate Happens(io: Io, e: Event) {
    io.owned && io.refs == 1 && Enabled(io, e)
  }

  /** All that has been submitted, by the owner and by its callbacks, in order. */
  function Submissions(events: seq<Event>): seq<Item> {
    if events == [] then []
    else
      var io := Run(Front(events));
      Submissions(Front(events)) + if Happens(io, Last(events)) then SubmittedIn(io, Last(events)) else []
  }

  function ReportsOf(events: seq<Event>): seq<Report> {
    if events == [] then []
    else
      var io := Run(Front(events));
      ReportsOf(Front(events)) + if Happens(io, Last(events)) then ReportIn(io, Last(events)) else []
  }

  function Taken(events: seq<Event>): nat {
    if events == [] then 0
    else
      var io := Run(Front(events));
      Taken(Front(events)) + if Happens(io, Last(events)) then TakenIn(io, Last(events)) else 0
  }

  function Errors(events: seq<Event>): nat {
    if events == [] then 0
    else
      var io := Run(Front(events));
      Errors(Front(events)) + if Happens(io, Last(events)) then ErrorIn(io, Last(events)) else 0
  }

  predicate GivenUp(events: seq<Event>) {
    events != [] &&
    var io := Run(Front(events));
    GivenUp(Front(events)) || (Happens(io, Last(events)) && FreedIn(io, Last(events)))
  }

  lemma RunIs(events: seq<Event>)
    requires events != []
    ensures var io := Run(Front(events));
            Run(events) == if Happens(io, Last(events)) then Step(io, Last(events)) else io
  {
    hide Step, Enabled;
  }

  /** Over every run: the items that have left the queue and those still in it are exactly
      those submitted, in order and with their data; the socket has taken exactly as many
      bytes as its writes say; a report has been made exactly when a write completed or failed
      an item with a callback, in order; and the error handler has run exactly for the first
      failure. */
  lemma {:induction false} AsAsked(events: seq<Event>)
    ensures var io := Run(events);
            && Fresh(io.left + io.writeq) == Submissions(events)
            && |io.wire| == Taken(events) && io.reports == ReportsOf(events) && io.errors == Errors(events)
            && io.owned == !GivenUp(events)
  {
    if events == [] {
      assert Fresh([] + []) == [];
    } else {
      var io, e := Run(Front(events)), Last(events);
      AsAsked(Front(events));
      RunIs(events);
      if Happens(io, e) {
        StepEffect(io, e);
      }
      hide Run, Step, Enabled, SubmittedIn, ReportIn, TakenIn, ErrorIn, FreedIn, Fresh;
      assert Submissions(Front(events)) + [] == Submissions(Front(events));
      assert ReportsOf(Front(events)) + [] == ReportsOf(Front(events));
    }
  }

  /** The socket is read from exactly from the start of receiving until an end, an error, a
      stop or the disposal of the object. */
  lemma ReadingExactly(events: seq<Event>, e: Event)
    requires Happens(Run(events), e)
    ensures Run(events + [e]).readSource == ReadsOn(Run(events), e)
  {
    assert Front(events + [e]) == events;
    RunIs(events + [e]);
    StepReads(Run(events), e);
    hide Run, Step, ReadsOn;
  }
}

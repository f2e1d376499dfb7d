/** Runs of the whole engine: parents come and go, and listeners, local forwarders and the
    peer act on the shared tables in any interleaving. */
module EngineRuns {
  import opened Base
  import opened Pool
  import opened Table
  import opened TableView
  import opened Engine
  import opened EngineParents
  import ForwardLocal
  import ListenBacklog
  import ListenRuns
  import ListenSteps
  import TableRuns

  // ---------- Agreement ----------

  ghost predicate LocalAgrees(s: State, h: Ref, x: LocalLog) {
    && x.limit > 0 && x.start > 0 && LocalRun(x).f.live && LocalRun(x).f.limit > 0
    && Sees(s, h, LocalRun(x).f.conns)
  }

  ghost predicate ListenAgrees(s: State, h: Ref, x: ListenLog) {
    && x.limit > 0 && x.start > 0 && x.backlog > 0 && ListenRun(x).l.live && ListenSteps.Good(ListenRun(x))
    && Sees(s, h, ListenRun(x).l.conns)
  }

  /** Every parent of the tables sees there the connections that its own run has. */
  ghost predicate Agree(j: Joint) {
    var s := Tables(j);
    && Settled(s) && s.parents.Keys == j.locals.Keys + j.listens.Keys && j.locals.Keys !! j.listens.Keys
    && (forall h :: h in j.locals ==> LocalAgrees(s, h, j.locals[h]))
    && (forall h :: h in j.listens ==> ListenAgrees(s, h, j.listens[h]))
  }

  // ---------- Events ----------

  // Parent h hears that its connection with address a has gone.
  function Lost(j: Joint, h: Ref, a: Addr): Joint {
    if h in j.locals then j.(locals := j.locals[h := LocalMore(j.locals[h], ForwardLocal.Gone(a))])
    else if h in j.listens then j.(listens := j.listens[h := ListenMore(j.listens[h], ListenSteps.Gone(a))])
    else j
  }

  function LocalMore(x: LocalLog, e: ForwardLocal.Event): LocalLog {
    x.(events := x.events + [e])
  }

  function ListenMore(x: ListenLog, e: ListenSteps.Event): ListenLog {
    x.(events := x.events + [e])
  }

  // The entry of that id leaves the table: its parent hears of it, or the parent is gone.
  function Left(j: Joint, s: State, id: Id): Joint {
    if id !in s.sockets then j
    else match s.sockets[id]
      case ConnE(r) => if r in s.conns then Lost(j, s.conns[r].parent, s.conns[r].conn.addr) else j
      case ParentE(h) => j.(locals := j.locals - {h}, listens := j.listens - {h})
      case OtherE(_) => j
  }

  lemma LocalHere(j: Joint, h: Ref)
    requires Agree(j) && h in j.locals
    ensures LocalAgrees(Tables(j), h, j.locals[h])
    ensures Sees(Tables(j), h, LocalRun(j.locals[h]).f.conns) && LocalRun(j.locals[h]).f.limit > 0
    ensures h in Tables(j).parents && h !in j.listens
  {
    hide Tables, Settled, LocalRun, ListenAgrees, Seen;
  }

  lemma ListenHere(j: Joint, h: Ref)
    requires Agree(j) && h in j.listens
    ensures ListenAgrees(Tables(j), h, j.listens[h])
    ensures Sees(Tables(j), h, ListenRun(j.listens[h]).l.conns) && ListenSteps.Good(ListenRun(j.listens[h]))
    ensures h in Tables(j).parents && h !in j.locals
  {
    hide Tables, Settled, ListenRun, LocalAgrees, Seen, ListenSteps.Good;
  }

  ghost function LocalNext(j: Joint, h: Ref, r: Ref, rs: seq<Ref>, e: ForwardLocal.Event): Joint
    requires Agree(j) && h in j.locals && LocalEnabled(Tables(j), h, r, rs, LocalRun(j.locals[h]), e)
  {
    LocalHere(j, h);
    Joint(j.ops + LocalOps(Tables(j), h, r, rs, LocalRun(j.locals[h]), e),
          j.locals[h := LocalMore(j.locals[h], e)], j.listens)
  }

  ghost function ListenNext(j: Joint, h: Ref, r: Ref, rs: seq<Ref>, e: ListenSteps.Event): Joint
    requires Agree(j) && h in j.listens && ListenEnabled(Tables(j), h, r, rs, ListenRun(j.listens[h]), e)
  {
    ListenHere(j, h);
    Joint(j.ops + ListenOps(Tables(j), h, r, rs, ListenRun(j.listens[h]), e),
          j.locals, j.listens[h := ListenMore(j.listens[h], e)])
  }

  ghost function Next(j: Joint, e: Event): Joint
    requires Agree(j)
  {
    var s := Tables(j);
    match e
    case NewLocal(h, id, to, timeout, limit, start) =>
      if h !in s.parents && id !in s.sockets && limit > 0 && start > 0 then
        Joint(j.ops + [TableRuns.AddParent(h, Local, id, 0)],
              j.locals[h := LocalLog(to, timeout, limit, start, [])], j.listens)
      else j
    case NewListen(h, id, rid, timeout, limit, backlog, start) =>
      if h !in s.parents && id !in s.sockets && limit > 0 && backlog > 0 && start > 0 then
        Joint(j.ops + [TableRuns.AddParent(h, Listen, id, rid)],
              j.locals, j.listens[h := ListenLog(timeout, limit, backlog, start, [])])
      else j
    case NewOther(id, closable) => j.(ops := j.ops + [TableRuns.AddOther(id, closable)])
    case AtLocal(h, r, rs, le) =>
      if h in j.locals && LocalEnabled(s, h, r, rs, LocalRun(j.locals[h]), le) then
        LocalNext(j, h, r, rs, le)
      else j
    case AtListen(h, r, rs, le) =>
      if h in j.listens && ListenEnabled(s, h, r, rs, ListenRun(j.listens[h]), le) then
        ListenNext(j, h, r, rs, le)
      else j
    case EntryRemoved(id) => Left(j, s, id).(ops := j.ops + [TableRuns.Remove(id)])
    case CloseArrived(id) =>
      (if Unclosable(s, id) then j else Left(j, s, id)).(ops := j.ops + [TableRuns.CloseMsg(id)])
  }

  // ---------- What every event keeps ----------

  lemma AgreeParts(j: Joint)
    requires Agree(j)
    ensures var s := Tables(j);
            && Settled(s) && s.parents.Keys == j.locals.Keys + j.listens.Keys && j.locals.Keys !! j.listens.Keys
            && (forall h :: h in j.locals ==> LocalAgrees(s, h, j.locals[h]))
            && (forall h :: h in j.listens ==> ListenAgrees(s, h, j.listens[h]))
  {
    hide Tables, Settled, LocalAgrees, ListenAgrees;
  }

  lemma AgreeIntro(j: Joint)
    requires var s := Tables(j);
             && Settled(s) && s.parents.Keys == j.locals.Keys + j.listens.Keys && j.locals.Keys !! j.listens.Keys
             && (forall h :: h in j.locals ==> LocalAgrees(s, h, j.locals[h]))
             && (forall h :: h in j.listens ==> ListenAgrees(s, h, j.listens[h]))
    ensures Agree(j)
  {
    hide Tables, Settled, LocalAgrees, ListenAgrees;
  }

  lemma StillLocal(s: State, t: State, h: Ref, x: LocalLog)
    requires LocalAgrees(s, h, x) && Settled(t) && h in t.parents && Seen(t, h) == Seen(s, h)
    ensures LocalAgrees(t, h, x)
  {
    hide Settled, Seen, LocalRun;
  }

  lemma StillListen(s: State, t: State, h: Ref, x: ListenLog)
    requires ListenAgrees(s, h, x) && Settled(t) && h in t.parents && Seen(t, h) == Seen(s, h)
    ensures ListenAgrees(t, h, x)
  {
    hide Settled, Seen, ListenRun, ListenSteps.Good;
  }

  // Parents have gone, perhaps none; the others see what they saw.
  lemma FewerAgree(j: Joint, u: Joint, gone: set<Ref>)
    requires Agree(j) && Settled(Tables(u)) && u.locals == j.locals - gone && u.listens == j.listens - gone
    requires Tables(u).parents.Keys == Tables(j).parents.Keys - gone && OthersSee(Tables(j), Tables(u))
    ensures Agree(u)
  {
    var s, t := Tables(j), Tables(u);
    hide *;
    AgreeParts(j);
    forall h | h in u.locals
      ensures LocalAgrees(t, h, u.locals[h])
    {
      LocalHere(j, h);
      assert h in t.parents.Keys;
      SeesOthers(s, t, h);
      StillLocal(s, t, h, u.locals[h]);
    }
    forall h | h in u.listens
      ensures ListenAgrees(t, h, u.listens[h])
    {
      ListenHere(j, h);
      assert h in t.parents.Keys;
      SeesOthers(s, t, h);
      StillListen(s, t, h, u.listens[h]);
    }
    KeysLess(s.parents.Keys, j.locals, j.listens, gone);
    AgreeIntro(u);
  }

  lemma KeysLess(all: set<Ref>, locals: map<Ref, LocalLog>, listens: map<Ref, ListenLog>, gone: set<Ref>)
    requires all == locals.Keys + listens.Keys && locals.Keys !! listens.Keys
    ensures all - gone == (locals - gone).Keys + (listens - gone).Keys && (locals - gone).Keys !! (listens - gone).Keys
  {
  }

  // Forwarder h has had an event.
  lemma LocalMoved(j: Joint, u: Joint, h: Ref, x: LocalLog, conns: Conns)
    requires Agree(j) && Settled(Tables(u)) && h in j.locals
    requires u.locals == j.locals[h := x] && u.listens == j.listens
    requires NowSees(Tables(j), Tables(u), h, conns)
    requires x.limit > 0 && x.start > 0 && LocalRun(x).f.live && LocalRun(x).f.limit > 0 && LocalRun(x).f.conns == conns
    ensures Agree(u)
  {
    var s, t := Tables(j), Tables(u);
    hide *;
    AgreeParts(j);
    LocalHere(j, h);
    SeesBeside(s, t, h, conns, h);
    forall g | g in u.locals
      ensures LocalAgrees(t, g, u.locals[g])
    {
      if g == h {
        LocalIntro(t, h, x);
      } else {
        LocalHere(j, g);
        SeesBeside(s, t, h, conns, g);
        StillLocal(s, t, g, u.locals[g]);
      }
    }
    forall g | g in u.listens
      ensures ListenAgrees(t, g, u.listens[g])
    {
      ListenHere(j, g);
      SeesBeside(s, t, h, conns, g);
      StillListen(s, t, g, u.listens[g]);
    }
    assert u.locals.Keys == j.locals.Keys;
    AgreeIntro(u);
  }

  lemma LocalIntro(t: State, h: Ref, x: LocalLog)
    requires Settled(t) && h in t.parents && Seen(t, h) == LocalRun(x).f.conns
    requires x.limit > 0 && x.start > 0 && LocalRun(x).f.live && LocalRun(x).f.limit > 0
    ensures LocalAgrees(t, h, x)
  {
    hide Settled, Seen, LocalRun;
  }

  lemma ListenIntro(t: State, h: Ref, x: ListenLog)
    requires Settled(t) && h in t.parents && Seen(t, h) == ListenRun(x).l.conns
    requires x.limit > 0 && x.start > 0 && x.backlog > 0 && ListenRun(x).l.live && ListenSteps.Good(ListenRun(x))
    ensures ListenAgrees(t, h, x)
  {
    hide Settled, Seen, ListenRun, ListenSteps.Good;
  }

  lemma ListenMoved(j: Joint, u: Joint, h: Ref, x: ListenLog, conns: Conns)
    requires Agree(j) && Settled(Tables(u)) && h in j.listens
    requires u.listens == j.listens[h := x] && u.locals == j.locals
    requires NowSees(Tables(j), Tables(u), h, conns)
    requires x.limit > 0 && x.start > 0 && x.backlog > 0 && ListenRun(x).l.live && ListenSteps.Good(ListenRun(x))
    requires ListenRun(x).l.conns == conns
    ensures Agree(u)
  {
    var s, t := Tables(j), Tables(u);
    hide *;
    AgreeParts(j);
    ListenHere(j, h);
    SeesBeside(s, t, h, conns, h);
    forall g | g in u.listens
      ensures ListenAgrees(t, g, u.listens[g])
    {
      if g == h {
        ListenIntro(t, h, x);
      } else {
        ListenHere(j, g);
        SeesBeside(s, t, h, conns, g);
        StillListen(s, t, g, u.listens[g]);
      }
    }
    forall g | g in u.locals
      ensures LocalAgrees(t, g, u.locals[g])
    {
      LocalHere(j, g);
      SeesBeside(s, t, h, conns, g);
      StillLocal(s, t, g, u.locals[g]);
    }
    assert u.listens.Keys == j.listens.Keys;
    AgreeIntro(u);
  }

  // ---------- The runs of the parents ----------

  lemma LocalStep(x: LocalLog, e: ForwardLocal.Event)
    requires x.limit > 0 && x.start > 0
    ensures LocalRun(LocalMore(x, e)) == ForwardLocal.Next(LocalRun(x), e)
    ensures LocalRun(LocalMore(x, e)).f.limit > 0
  {
    assert Front(x.events + [e]) == x.events;
    ForwardLocal.RunsAreGood(x.to, x.timeout, x.limit, x.start, x.events + [e]);
    hide ForwardLocal.Next, ForwardLocal.Uniform, ForwardLocal.Timed, ForwardLocal.TimerKept, ForwardLocal.Progress;
  }

  lemma ListenStep(x: ListenLog, e: ListenSteps.Event)
    requires x.limit > 0 && x.start > 0 && x.backlog > 0
    ensures ListenBacklog.BacklogOk(ListenRun(x).l)
    ensures ListenRun(ListenMore(x, e)) == ListenSteps.Next(ListenRun(x), e)
    ensures ListenSteps.Good(ListenRun(ListenMore(x, e)))
  {
    ListenRuns.OneStep(x.timeout, x.limit, x.backlog, x.start, x.events, e);
    ListenRuns.RunsAreGood(x.timeout, x.limit, x.backlog, x.start, x.events + [e]);
    hide ListenSteps.Next, ListenSteps.Good, ListenBacklog.BacklogOk, ListenRuns.Runs;
  }

  lemma LocalGone(run: ForwardLocal.Run, a: Addr)
    requires run.f.live
    ensures var n := ForwardLocal.Next(run, ForwardLocal.Gone(a)).f; n.live && n.conns == run.f.conns - {a}
  {
  }

  lemma ListenGone(run: ListenSteps.Run, a: Addr)
    requires run.l.live && ListenSteps.Good(run) && ListenBacklog.BacklogOk(run.l)
    ensures var n := ListenSteps.Next(run, ListenSteps.Gone(a)).l; n.live && n.conns == run.l.conns - {a}
  {
    assert ListenSteps.Enabled(run, ListenSteps.Gone(a));
    hide ListenSteps.Good;
    OthersAre(run, ListenSteps.Gone(a));
  }

  lemma LocalParts(s: State, h: Ref, x: LocalLog)
    requires LocalAgrees(s, h, x)
    ensures x.limit > 0 && x.start > 0 && LocalRun(x).f.live && LocalRun(x).f.limit > 0
    ensures Sees(s, h, LocalRun(x).f.conns) && Settled(s) && h in s.parents && Seen(s, h) == LocalRun(x).f.conns
  {
    hide Settled, Seen, LocalRun;
  }

  lemma ListenParts(s: State, h: Ref, x: ListenLog)
    requires ListenAgrees(s, h, x)
    ensures x.limit > 0 && x.start > 0 && x.backlog > 0 && ListenRun(x).l.live && ListenSteps.Good(ListenRun(x))
    ensures Sees(s, h, ListenRun(x).l.conns) && Settled(s) && h in s.parents && Seen(s, h) == ListenRun(x).l.conns
  {
    hide Settled, Seen, ListenRun, ListenSteps.Good;
  }

  lemma TablesMore(j: Joint, u: Joint, ops: seq<TableRuns.Op>)
    requires u.ops == j.ops + ops
    ensures Settled(Tables(j)) && Tables(u) == Applied(Tables(j), ops)
  {
    RunApplied(j.ops, ops);
    hide Settled, Applied, TableRuns.Run;
  }

  // ---------- The events ----------

  lemma LocalNextAgrees(j: Joint, h: Ref, r: Ref, rs: seq<Ref>, e: ForwardLocal.Event)
    requires Agree(j) && h in j.locals && LocalEnabled(Tables(j), h, r, rs, LocalRun(j.locals[h]), e)
    ensures Agree(LocalNext(j, h, r, rs, e))
  {
    var s, u, x := Tables(j), LocalNext(j, h, r, rs, e), j.locals[h];
    hide *;
    AgreeParts(j);
    LocalHere(j, h);
    LocalParts(s, h, x);
    LocalNextIs(j, h, r, rs, e);
    TablesMore(j, u, LocalOps(s, h, r, rs, LocalRun(x), e));
    LocalStep(x, e);
    MoreKeeps(x, e);
    LocalSees(s, h, r, rs, LocalRun(x), e);
    LocalMoved(j, u, h, LocalMore(x, e), ForwardLocal.Next(LocalRun(x), e).f.conns);
  }

  lemma MoreKeeps(x: LocalLog, e: ForwardLocal.Event)
    ensures LocalMore(x, e).limit == x.limit && LocalMore(x, e).start == x.start
  {
  }

  lemma ListenMoreKeeps(x: ListenLog, e: ListenSteps.Event)
    ensures ListenMore(x, e).limit == x.limit && ListenMore(x, e).start == x.start
    ensures ListenMore(x, e).backlog == x.backlog
  {
  }

  lemma LocalNextIs(j: Joint, h: Ref, r: Ref, rs: seq<Ref>, e: ForwardLocal.Event)
    requires Agree(j) && h in j.locals && LocalEnabled(Tables(j), h, r, rs, LocalRun(j.locals[h]), e)
    requires Sees(Tables(j), h, LocalRun(j.locals[h]).f.conns) && LocalRun(j.locals[h]).f.limit > 0
    ensures LocalNext(j, h, r, rs, e)
            == Joint(j.ops + LocalOps(Tables(j), h, r, rs, LocalRun(j.locals[h]), e),
                     j.locals[h := LocalMore(j.locals[h], e)], j.listens)
  {
    hide Agree, Tables, Settled, LocalEnabled, LocalOps, LocalRun, LocalMore, Sees;
  }

  lemma ListenNextIs(j: Joint, h: Ref, r: Ref, rs: seq<Ref>, e: ListenSteps.Event)
    requires Agree(j) && h in j.listens && ListenEnabled(Tables(j), h, r, rs, ListenRun(j.listens[h]), e)
    requires Sees(Tables(j), h, ListenRun(j.listens[h]).l.conns) && ListenSteps.Good(ListenRun(j.listens[h]))
    ensures ListenNext(j, h, r, rs, e)
            == Joint(j.ops + ListenOps(Tables(j), h, r, rs, ListenRun(j.listens[h]), e),
                     j.locals, j.listens[h := ListenMore(j.listens[h], e)])
  {
    hide Agree, Tables, Settled, ListenEnabled, ListenOps, ListenRun, ListenMore, Sees, ListenSteps.Good;
  }

  lemma ListenNextAgrees(j: Joint, h: Ref, r: Ref, rs: seq<Ref>, e: ListenSteps.Event)
    requires Agree(j) && h in j.listens && ListenEnabled(Tables(j), h, r, rs, ListenRun(j.listens[h]), e)
    ensures Agree(ListenNext(j, h, r, rs, e))
  {
    var s, u, x := Tables(j), ListenNext(j, h, r, rs, e), j.listens[h];
    hide *;
    AgreeParts(j);
    ListenHere(j, h);
    ListenParts(s, h, x);
    ListenNextIs(j, h, r, rs, e);
    TablesMore(j, u, ListenOps(s, h, r, rs, ListenRun(x), e));
    ListenStep(x, e);
    ListenMoreKeeps(x, e);
    ListenSees(s, h, r, rs, ListenRun(x), e);
    ListenMoved(j, u, h, ListenMore(x, e), ListenSteps.Next(ListenRun(x), e).l.conns);
  }

  // A connection of parent h has gone, and h has heard of it.
  lemma LostAgrees(j: Joint, u: Joint, h: Ref, a: Addr, ops: seq<TableRuns.Op>)
    requires Agree(j) && u == Lost(j, h, a).(ops := j.ops + ops) && Settled(Tables(j)) && h in Tables(j).parents
    requires NowSees(Tables(j), Applied(Tables(j), ops), h, Seen(Tables(j), h) - {a})
    ensures Agree(u)
  {
    LostIs(j, h, a);
    hide *;
    AgreeParts(j);
    TablesMore(j, u, ops);
    assert h in j.locals.Keys + j.listens.Keys;
    if h in j.locals {
      var x, e := j.locals[h], ForwardLocal.Gone(a);
      LocalHere(j, h);
      LocalParts(Tables(j), h, x);
      LocalStep(x, e);
      MoreKeeps(x, e);
      LocalGone(LocalRun(x), a);
      LocalMoved(j, u, h, LocalMore(x, e), Seen(Tables(j), h) - {a});
    } else {
      var x, e := j.listens[h], ListenSteps.Gone(a);
      ListenHere(j, h);
      ListenParts(Tables(j), h, x);
      ListenStep(x, e);
      ListenMoreKeeps(x, e);
      ListenGone(ListenRun(x), a);
      ListenMoved(j, u, h, ListenMore(x, e), Seen(Tables(j), h) - {a});
    }
  }

  lemma LostIs(j: Joint, h: Ref, a: Addr)
    ensures h in j.locals ==>
              Lost(j, h, a) == j.(locals := j.locals[h := LocalMore(j.locals[h], ForwardLocal.Gone(a))])
    ensures h !in j.locals && h in j.listens ==>
              Lost(j, h, a) == j.(listens := j.listens[h := ListenMore(j.listens[h], ListenSteps.Gone(a))])
  {
  }

  // ---------- Every event ----------

  lemma OneMore(j: Joint, u: Joint, op: TableRuns.Op)
    requires u.ops == j.ops + [op]
    ensures Settled(Tables(j)) && Settled(Tables(u)) && Tables(u) == TableRuns.Step(Tables(j), op)
    ensures Applied(Tables(j), [op]) == Tables(u)
  {
    hide *;
    TablesMore(j, u, [op]);
    AppliedOne(Tables(j), op);
  }

  lemma LeftIs(j: Joint, s: State, id: Id)
    ensures id !in s.sockets ==> Left(j, s, id) == j
    ensures id in s.sockets && s.sockets[id].OtherE? ==> Left(j, s, id) == j
    ensures id in s.sockets && s.sockets[id].ConnE? && s.sockets[id].conn in s.conns ==>
              var r := s.sockets[id].conn;
              Left(j, s, id) == Lost(j, s.conns[r].parent, s.conns[r].conn.addr)
    ensures id in s.sockets && s.sockets[id].ParentE? ==>
              var h := s.sockets[id].parent;
              Left(j, s, id) == j.(locals := j.locals - {h}, listens := j.listens - {h})
  {
    hide Lost;
  }

  lemma NobodyLeft(j: Joint)
    ensures j.locals - {} == j.locals && j.listens - {} == j.listens
    ensures Tables(j).parents.Keys - {} == Tables(j).parents.Keys
  {
  }

  lemma EntryRemovedAgrees(j: Joint, id: Id)
    requires Agree(j)
    ensures Agree(Left(j, Tables(j), id).(ops := j.ops + [TableRuns.Remove(id)]))
  {
    var s, u := Tables(j), Left(j, Tables(j), id).(ops := j.ops + [TableRuns.Remove(id)]);
    hide *;
    OneMore(j, u, TableRuns.Remove(id));
    LeftIs(j, s, id);
    if id in s.sockets && s.sockets[id].ConnE? {
      var r := s.sockets[id].conn;
      RemovedConnSees(s, id);
      LostAgrees(j, u, s.conns[r].parent, s.conns[r].conn.addr, [TableRuns.Remove(id)]);
    } else if id in s.sockets && s.sockets[id].ParentE? {
      RemovedParentSees(s, id);
      FewerAgree(j, u, {s.sockets[id].parent});
    } else {
      OtherSees(s, id);
      SameParentsIs(s, Tables(u));
      NobodyLeft(j);
      FewerAgree(j, u, {});
    }
  }

  lemma CloseArrivedAgrees(j: Joint, id: Id)
    requires Agree(j)
    ensures Agree((if Unclosable(Tables(j), id) then j else Left(j, Tables(j), id)).(ops := j.ops + [TableRuns.CloseMsg(id)]))
  {
    var s := Tables(j);
    var u := (if Unclosable(s, id) then j else Left(j, s, id)).(ops := j.ops + [TableRuns.CloseMsg(id)]);
    hide *;
    OneMore(j, u, TableRuns.CloseMsg(id));
    LeftIs(j, s, id);
    NobodyLeft(j);
    ClosableIs(s, id);
    if id in s.sockets && s.sockets[id].ConnE? {
      var r := s.sockets[id].conn;
      ClosedConnSees(s, id);
      LostAgrees(j, u, s.conns[r].parent, s.conns[r].conn.addr, [TableRuns.CloseMsg(id)]);
    } else if id in s.sockets && s.sockets[id].ParentE? {
      ClosedParentSees(s, id);
      FewerAgree(j, u, if Unclosable(s, id) then {} else {s.sockets[id].parent});
    } else {
      OtherSees(s, id);
      SameParentsIs(s, Tables(u));
      FewerAgree(j, u, {});
    }
  }

  lemma ClosableIs(s: State, id: Id)
    ensures Unclosable(s, id) ==> id in s.sockets && s.sockets[id].ParentE?
  {
  }

  // A parent has come; the others see what they saw.
  lemma OthersStay(j: Joint, t: State, h: Ref, g: Ref)
    requires Agree(j) && Settled(t) && t.parents.Keys == Tables(j).parents.Keys + {h} && OthersSee(Tables(j), t)
    ensures g in j.locals ==> LocalAgrees(t, g, j.locals[g])
    ensures g in j.listens ==> ListenAgrees(t, g, j.listens[g])
  {
    hide *;
    if g in j.locals {
      LocalHere(j, g);
      assert g in t.parents.Keys;
      SeesOthers(Tables(j), t, g);
      StillLocal(Tables(j), t, g, j.locals[g]);
    }
    if g in j.listens {
      ListenHere(j, g);
      assert g in t.parents.Keys;
      SeesOthers(Tables(j), t, g);
      StillListen(Tables(j), t, g, j.listens[g]);
    }
  }

  lemma KeysMore(all: set<Ref>, locals: map<Ref, LocalLog>, listens: map<Ref, ListenLog>, h: Ref, x: LocalLog, y: ListenLog)
    requires all == locals.Keys + listens.Keys && locals.Keys !! listens.Keys && h !in all
    ensures all + {h} == locals[h := x].Keys + listens.Keys && locals[h := x].Keys !! listens.Keys
    ensures all + {h} == locals.Keys + listens[h := y].Keys && locals.Keys !! listens[h := y].Keys
  {
  }

  lemma NewLocalAgrees(j: Joint, h: Ref, id: Id, x: LocalLog)
    requires Agree(j) && h !in Tables(j).parents && id !in Tables(j).sockets
    requires x.limit > 0 && x.start > 0 && x.events == []
    ensures Agree(Joint(j.ops + [TableRuns.AddParent(h, Local, id, 0)], j.locals[h := x], j.listens))
  {
    var u := Joint(j.ops + [TableRuns.AddParent(h, Local, id, 0)], j.locals[h := x], j.listens);
    LocalStarts(x);
    hide *;
    OneMore(j, u, TableRuns.AddParent(h, Local, id, 0));
    AddedParentSees(Tables(j), h, Local, id, 0);
    GrownLocal(j, u, h, x);
  }

  lemma GrownLocal(j: Joint, u: Joint, h: Ref, x: LocalLog)
    requires Agree(j) && h !in Tables(j).parents && u.locals == j.locals[h := x] && u.listens == j.listens
    requires var s, t := Tables(j), Tables(u);
             Settled(t) && t.parents.Keys == s.parents.Keys + {h} && Seen(t, h) == map[] && OthersSee(s, t)
    requires x.limit > 0 && x.start > 0 && LocalRun(x).f.live && LocalRun(x).f.limit > 0
    requires LocalRun(x).f.conns == map[]
    ensures Agree(u)
  {
    var t := Tables(u);
    hide *;
    AgreeParts(j);
    assert h in t.parents.Keys;
    LocalIntro(t, h, x);
    forall g | g in u.locals
      ensures LocalAgrees(t, g, u.locals[g])
    {
      if g != h {
        OthersStay(j, t, h, g);
      }
    }
    forall g | g in u.listens
      ensures ListenAgrees(t, g, u.listens[g])
    {
      OthersStay(j, t, h, g);
    }
    KeysMore(Tables(j).parents.Keys, j.locals, j.listens, h, x, ListenLog(0, 0, 0, 0, []));
    AgreeIntro(u);
  }

  lemma LocalStarts(x: LocalLog)
    requires x.limit > 0 && x.events == []
    ensures LocalRun(x).f.conns == map[] && LocalRun(x).f.live && LocalRun(x).f.limit > 0
  {
  }

  lemma ListenStarts(x: ListenLog)
    requires x.limit > 0 && x.start > 0 && x.backlog > 0 && x.events == []
    ensures ListenRun(x).l.conns == map[] && ListenRun(x).l.live && ListenSteps.Good(ListenRun(x))
  {
    ListenRuns.InitialGood(x.timeout, x.limit, x.backlog, x.start);
    hide ListenSteps.Good;
  }

  lemma NewListenAgrees(j: Joint, h: Ref, id: Id, rid: Id, x: ListenLog)
    requires Agree(j) && h !in Tables(j).parents && id !in Tables(j).sockets
    requires x.limit > 0 && x.start > 0 && x.backlog > 0 && x.events == []
    ensures Agree(Joint(j.ops + [TableRuns.AddParent(h, Listen, id, rid)], j.locals, j.listens[h := x]))
  {
    var u := Joint(j.ops + [TableRuns.AddParent(h, Listen, id, rid)], j.locals, j.listens[h := x]);
    ListenStarts(x);
    hide *;
    OneMore(j, u, TableRuns.AddParent(h, Listen, id, rid));
    AddedParentSees(Tables(j), h, Listen, id, rid);
    GrownListen(j, u, h, x);
  }

  // The new parent h agrees, and the others see what they saw.
  lemma GrownListen(j: Joint, u: Joint, h: Ref, x: ListenLog)
    requires Agree(j) && h !in Tables(j).parents && u.locals == j.locals && u.listens == j.listens[h := x]
    requires var s, t := Tables(j), Tables(u);
             Settled(t) && t.parents.Keys == s.parents.Keys + {h} && Seen(t, h) == map[] && OthersSee(s, t)
    requires x.limit > 0 && x.start > 0 && x.backlog > 0 && ListenRun(x).l.live && ListenSteps.Good(ListenRun(x))
    requires ListenRun(x).l.conns == map[]
    ensures Agree(u)
  {
    var t := Tables(u);
    hide *;
    AgreeParts(j);
    assert h in t.parents.Keys;
    ListenIntro(t, h, x);
    forall g | g in u.listens
      ensures ListenAgrees(t, g, u.listens[g])
    {
      if g != h {
        OthersStay(j, t, h, g);
      }
    }
    forall g | g in u.locals
      ensures LocalAgrees(t, g, u.locals[g])
    {
      OthersStay(j, t, h, g);
    }
    KeysMore(Tables(j).parents.Keys, j.locals, j.listens, h, LocalLog(0, 0, 0, 0, []), x);
    AgreeIntro(u);
  }

  lemma NewOtherAgrees(j: Joint, id: Id, closable: bool)
    requires Agree(j)
    ensures Agree(j.(ops := j.ops + [TableRuns.AddOther(id, closable)]))
  {
    var s, u := Tables(j), j.(ops := j.ops + [TableRuns.AddOther(id, closable)]);
    hide *;
    OneMore(j, u, TableRuns.AddOther(id, closable));
    AddedOtherSees(s, id, closable);
    SameParentsIs(s, Tables(u));
    NobodyLeft(j);
    FewerAgree(j, u, {});
  }

  /** Every event of the engine keeps the agreement. */
  lemma NextAgrees(j: Joint, e: Event)
    requires Agree(j)
    ensures Agree(Next(j, e))
  {
    hide Agree, Tables, LocalRun, ListenRun, LocalNext, ListenNext, LocalEnabled, ListenEnabled, Left, Unclosable;
    match e
    case NewLocal(h, id, to, timeout, limit, start) =>
      if h !in Tables(j).parents && id !in Tables(j).sockets && limit > 0 && start > 0 {
        NewLocalAgrees(j, h, id, LocalLog(to, timeout, limit, start, []));
      }
    case NewListen(h, id, rid, timeout, limit, backlog, start) =>
      if h !in Tables(j).parents && id !in Tables(j).sockets && limit > 0 && backlog > 0 && start > 0 {
        NewListenAgrees(j, h, id, rid, ListenLog(timeout, limit, backlog, start, []));
      }
    case NewOther(id, closable) => NewOtherAgrees(j, id, closable);
    case AtLocal(h, r, rs, le) =>
      if h in j.locals && LocalEnabled(Tables(j), h, r, rs, LocalRun(j.locals[h]), le) {
        LocalNextAgrees(j, h, r, rs, le);
      }
    case AtListen(h, r, rs, le) =>
      if h in j.listens && ListenEnabled(Tables(j), h, r, rs, ListenRun(j.listens[h]), le) {
        ListenNextAgrees(j, h, r, rs, le);
      }
    case EntryRemoved(id) => EntryRemovedAgrees(j, id);
    case CloseArrived(id) => CloseArrivedAgrees(j, id);
  }

  // ---------- Whole runs ----------

  // A run that does not agree would stop here; RunsAgree shows that there is none.
  ghost function Run(events: seq<Event>): Joint {
    if events == [] then Joint([], map[], map[])
    else
      var j := Run(Front(events));
      if Agree(j) then Next(j, Last(events)) else j
  }

  lemma {:induction false} RunsAgree(events: seq<Event>)
    ensures Agree(Run(events))
  {
    if events == [] {
      TableRuns.RunsStaySettled([]);
      hide Settled;
    } else {
      RunsAgree(Front(events));
      hide Agree, Next;
      NextAgrees(Run(Front(events)), Last(events));
    }
  }

  /** Over every run of the engine the shared tables are those of a run of TableRuns, and
      each parent in them is a local forwarder or a listener that sees there exactly the
      connections of its own run, which is a run of ForwardLocal or of Listen. */
  lemma EveryParentSeesItsRun(events: seq<Event>, h: Ref)
    ensures var j := Run(events);
            var s := Tables(j);
            && Settled(s) && s == TableRuns.Run(j.ops).state
            && (h in s.parents <==> h in j.locals || h in j.listens) && (h !in j.locals || h !in j.listens)
            && (h in j.locals ==>
                  var x := j.locals[h];
                  Seen(s, h) == ForwardLocal.Runs(x.to, x.timeout, x.limit, x.start, x.events).f.conns)
            && (h in j.listens ==>
                  var x := j.listens[h];
                  Seen(s, h) == ListenRuns.Runs(x.timeout, x.limit, x.backlog, x.start, x.events).l.conns)
  {
    RunsAgree(events);
    var j := Run(events);
    hide Run, Settled, Seen, ForwardLocal.Runs, ListenRuns.Runs, ListenSteps.Good;
    AgreeParts(j);
    if h in j.locals {
      LocalHere(j, h);
    }
    if h in j.listens {
      ListenHere(j, h);
    }
  }

  /** So what is proved of one listener or forwarder holds of the shared tables: a local
      forwarder never has more than limit addresses in its map, and no sender in a
      listener's backlog has an address that is in the listener's map. */
  lemma SharedTablesObey(events: seq<Event>, h: Ref)
    ensures var j := Run(events);
            var s := Tables(j);
            && (h in j.locals ==> h in s.parents && |s.parents[h].addrMap| <= j.locals[h].limit)
            && (h in j.listens ==>
                  var x := j.listens[h];
                  var l := ListenRuns.Runs(x.timeout, x.limit, x.backlog, x.start, x.events).l;
                  && h in s.parents && (l.acceptQ == [] || l.backlogQ == [])
                  && forall k :: 0 <= k < |l.backlogQ| ==> l.backlogQ[k].addr !in s.parents[h].addrMap)
  {
    EveryParentSeesItsRun(events, h);
    RunsAgree(events);
    var j := Run(events);
    hide *;
    AgreeParts(j);
    if h in j.locals {
      var x := j.locals[h];
      LocalHere(j, h);
      LocalParts(Tables(j), h, x);
      SeenKeys(Tables(j), h);
      ForwardLocal.LocalForwarderKeeps(x.to, x.timeout, x.limit, x.start, x.events, 0);
      SameSize(Tables(j).parents[h].addrMap, Seen(Tables(j), h));
    }
    if h in j.listens {
      var x := j.listens[h];
      ListenHere(j, h);
      ListenParts(Tables(j), h, x);
      SeenKeys(Tables(j), h);
      ListenRuns.QueuesKept(x.timeout, x.limit, x.backlog, x.start, x.events);
    }
  }

  lemma SeenKeys(s: State, h: Ref)
    requires Settled(s) && h in s.parents
    ensures forall a :: a in s.parents[h].addrMap <==> a in Seen(s, h)
  {
    AllPresent(s, h);
    hide Settled;
  }

  lemma SameSize(m: map<Addr, Ref>, n: Conns)
    requires forall a :: a in m <==> a in n
    ensures |m| == |n|
  {
    assert m.Keys == n.Keys;
    assert |m| == |m.Keys| && |n| == |n.Keys|;
  }
}

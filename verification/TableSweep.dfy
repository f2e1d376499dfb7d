/** The inactivity check takes a temporary reference to every expired connection before
    it removes the first one, and drops the references at the end. */
module TableSweep {
  import opened Base
  import opened Table
  import opened TableSteps
  import opened TableSettled
  import opened TableRuns
  import Connection

  /** Settled tables with a temporary reference on the connections in live, and on
      those in gone, which have left both tables already. */
  function Sweeping(t: State, live: set<Ref>, gone: map<Ref, Slot>): State {
    t.(conns := WithTemps(t.conns, live, gone), held := multiset(live) + multiset(gone.Keys))
  }

  function Grab(s: State, r: Ref): State
    requires r in s.conns
  {
    s.(conns := s.conns[r := s.conns[r].(refs := s.conns[r].refs + 1)], held := s.held + multiset{r})
  }

  lemma GrabShares(s: State, r: Ref)
    requires Counted(s) && r in s.conns
    ensures Counted(Grab(s, r))
  {
    assert RefsExact(s, r);
    FrameCounted(s, Grab(s, r), {r});
  }

  lemma GrabInv(s: State, r: Ref)
    requires Inv(s) && r in s.conns
    ensures Inv(Grab(s, r))
  {
    GrabShares(s, r);
    FrameTabled(s, Grab(s, r));
    FrameAllMirror(s, Grab(s, r));
    FrameIds(s, Grab(s, r));
  }

  lemma NotSweeping(t: State)
    requires t.held == multiset{}
    ensures Sweeping(t, {}, map[]) == t
  {
    assert Sweeping(t, {}, map[]).conns == t.conns;
  }

  lemma OneMoreGrab(t: State, live: set<Ref>, r: Ref)
    requires r in t.conns && r !in live
    ensures var s := Sweeping(t, live, map[]);
            r in s.conns && Grab(s, r) == Sweeping(t, live + {r}, map[])
  {
    OneMoreTemp(t.conns, live, r);
    OneMoreHeld(live, r);
    hide WithTemps;
  }

  lemma OneMoreTemp(conns: map<Ref, Slot>, live: set<Ref>, r: Ref)
    requires r in conns && r !in live
    ensures var temps := WithTemps(conns, live, map[]);
            && r in temps
            && temps[r := temps[r].(refs := temps[r].refs + 1)] == WithTemps(conns, live + {r}, map[])
  {
  }

  lemma OneMoreHeld(live: set<Ref>, r: Ref)
    requires r !in live
    ensures var none: map<Ref, Slot> := map[];
            multiset(live) + multiset(none.Keys) + multiset{r} == multiset(live + {r}) + multiset(none.Keys)
  {
    assert live + {r} - {r} == live;
  }

  // What a removed connection looks like while the temporary reference lasts.
  function Leftover(t: State, r: Ref): Slot
    requires r in t.conns
  {
    Slot(Connection.Dispose(t.conns[r].conn).conn, t.conns[r].parent, 1)
  }

  lemma SweptIsKnown(t: State, live: set<Ref>, gone: map<Ref, Slot>, r: Ref)
    requires r in t.conns && r in live && gone.Keys !! t.conns.Keys && Known(t, r) && t.conns[r].refs == 2
    requires InSockets(t, r)
    ensures var s := Sweeping(t, live, gone);
            && r in s.conns && s.conns[r].refs == 3 && s.conns[r].conn == t.conns[r].conn
            && s.conns[r].parent == t.conns[r].parent
            && InSockets(s, r) && Known(s, r) && s.held[r] == 1 && RefsExact(s, r)
            && Unlink(s, r) == Unlink(t, r)
  {
  }

  /** Removing a connection with a temporary reference is removing it, except that its
      memory stays. */
  lemma SweepOne(t: State, live: set<Ref>, gone: map<Ref, Slot>, r: Ref)
    requires r in t.conns && r in live && gone.Keys !! t.conns.Keys && Known(t, r) && t.conns[r].refs == 2
    requires InSockets(t, r) && RefsExact(t, r) && t.held == multiset{}
    ensures var id, s := t.conns[r].conn.id, Sweeping(t, live, gone);
            && Tabled(t, id) && Tabled(s, id) && r in s.conns && RefsExact(s, r)
            && ConnRemoved(s, id) == Sweeping(ConnRemoved(t, id), live - {r}, gone[r := Leftover(t, r)])
  {
    hide Connection.Dispose, Unlink;
    SweptIsKnown(t, live, gone, r);
    HeldMoves(live, gone, r, Leftover(t, r));
    SweptConns(t, live, gone, r, Leftover(t, r));
  }

  function WithTemps(conns: map<Ref, Slot>, live: set<Ref>, gone: map<Ref, Slot>): map<Ref, Slot> {
    (map r | r in conns :: if r in live then conns[r].(refs := conns[r].refs + 1) else conns[r]) + gone
  }

  lemma SweptConns(t: State, live: set<Ref>, gone: map<Ref, Slot>, r: Ref, left: Slot)
    requires r in t.conns && r in live && r !in gone
    ensures WithTemps(t.conns, live, gone)[r := left] == WithTemps(t.conns - {r}, live - {r}, gone[r := left])
  {
  }

  lemma HeldMoves(live: set<Ref>, gone: map<Ref, Slot>, r: Ref, left: Slot)
    requires r in live && r !in gone
    ensures multiset(live) + multiset(gone.Keys)
            == multiset(live - {r}) + multiset(gone[r := left].Keys)
  {
    assert live == live - {r} + {r};
    assert gone[r := left].Keys == gone.Keys + {r};
  }

  lemma DropOne(t: State, gone: map<Ref, Slot>, r: Ref)
    requires r in gone && gone[r].refs == 1 && gone.Keys !! t.conns.Keys
    ensures var s := Sweeping(t, {}, gone);
            && r in s.conns && r in s.held && s.conns[r].refs == 1
            && Unref(s, r) == Sweeping(t, {}, gone - {r})
  {
    DroppedConns(t.conns, gone, r);
    DroppedHeld(gone, r);
  }

  lemma DroppedConns(conns: map<Ref, Slot>, gone: map<Ref, Slot>, r: Ref)
    requires r in gone && gone.Keys !! conns.Keys
    ensures WithTemps(conns, {}, gone) - {r} == WithTemps(conns, {}, gone - {r})
  {
  }

  lemma DroppedHeld(gone: map<Ref, Slot>, r: Ref)
    requires r in gone
    ensures multiset(gone.Keys) - multiset{r} == multiset((gone - {r}).Keys)
  {
    assert gone.Keys == (gone - {r}).Keys + {r};
  }

  // ---------- The state after the first n removals ----------

  function IdsOf(s: State, rs: seq<Ref>): seq<Id>
    requires forall k :: 0 <= k < |rs| ==> rs[k] in s.conns
  {
    seq(|rs|, k requires 0 <= k < |rs| => s.conns[rs[k]].conn.id)
  }

  function SetOf(rs: seq<Ref>): set<Ref> {
    set r | r in rs
  }

  predicate Distinct(rs: seq<Ref>) {
    forall j, k :: 0 <= j < k < |rs| ==> rs[j] != rs[k]
  }

  lemma SetOfSnoc(rs: seq<Ref>)
    requires rs != []
    ensures SetOf(rs) == SetOf(Front(rs)) + {Last(rs)}
  {
    assert rs == Front(rs) + [Last(rs)];
  }

  lemma {:induction false} RemovedSoFar(s: State, rs: seq<Ref>)
    requires Settled(s) && Distinct(rs) && forall k :: 0 <= k < |rs| ==> rs[k] in s.conns
    ensures RemovedAll(s, IdsOf(s, rs)).conns == s.conns - SetOf(rs)
    decreases |rs|
  {
    hide Settled;
    if rs != [] {
      var r, before := Last(rs), Front(rs);
      RemovedSoFar(s, before);
      assert IdsOf(s, before) == Front(IdsOf(s, rs));
      var t := RemovedAll(s, IdsOf(s, before));
      assert r in t.conns && t.conns[r] == s.conns[r];
      RemovedNext(t, r);
      SetOfSnoc(rs);
    }
  }

  lemma RemovedNext(t: State, r: Ref)
    requires Settled(t) && r in t.conns
    ensures InSockets(t, r) && Known(t, r) && t.conns[r].refs == 2 && RefsExact(t, r)
    ensures Removed(t, t.conns[r].conn.id) == ConnRemoved(t, t.conns[r].conn.id)
    ensures Removed(t, t.conns[r].conn.id).conns == t.conns - {r}
  {
    SettledIsKnown(t, r);
    SettledConnRemoved(t, t.conns[r].conn.id);
  }

  function Leftovers(s: State, rs: seq<Ref>): map<Ref, Slot>
    requires forall k :: 0 <= k < |rs| ==> rs[k] in s.conns
  {
    map r | r in rs && r in s.conns :: Leftover(s, r)
  }

  predicate Sweepable(s: State, rs: seq<Ref>) {
    Settled(s) && Distinct(rs) && forall k :: 0 <= k < |rs| ==> rs[k] in s.conns
  }

  // While the references are taken.
  function Grabbed(s: State, rs: seq<Ref>, i: nat): State
    requires Sweepable(s, rs) && i <= |rs|
  {
    Sweeping(s, SetOf(rs[..i]), map[])
  }

  // After i removals.
  function Swept(s: State, rs: seq<Ref>, i: nat): State
    requires Sweepable(s, rs) && i <= |rs|
  {
    Sweeping(RemovedAll(s, IdsOf(s, rs[..i])), SetOf(rs[i..]), Leftovers(s, rs[..i]))
  }

  // After all removals, while the references are dropped.
  function Dropped(s: State, rs: seq<Ref>, i: nat): State
    requires Sweepable(s, rs) && i <= |rs|
  {
    Sweeping(RemovedAll(s, IdsOf(s, rs)), {}, Leftovers(s, rs[i..]))
  }

  lemma GrabStep(s: State, rs: seq<Ref>, i: nat)
    requires Sweepable(s, rs) && i < |rs|
    ensures var g := Grabbed(s, rs, i);
            rs[i] in g.conns && Grab(g, rs[i]) == Grabbed(s, rs, i + 1)
  {
    assert Front(rs[..i + 1]) == rs[..i] && Last(rs[..i + 1]) == rs[i];
    SetOfSnoc(rs[..i + 1]);
    assert rs[i] !in SetOf(rs[..i]);
    OneMoreGrab(s, SetOf(rs[..i]), rs[i]);
  }

  lemma NotSweepingSettled(s: State)
    requires Settled(s)
    ensures Sweeping(s, {}, map[]) == s
  {
    NotSweeping(s);
  }

  lemma GrabEnds(s: State, rs: seq<Ref>)
    requires Sweepable(s, rs)
    ensures Grabbed(s, rs, 0) == s && Grabbed(s, rs, |rs|) == Swept(s, rs, 0)
  {
    hide Settled;
    NotSweepingSettled(s);
    assert rs[..|rs|] == rs == rs[0..];
    assert SetOf(rs[..0]) == {};
    assert Leftovers(s, rs[..0]) == map[];
  }

  lemma SweepSets(rs: seq<Ref>, i: nat)
    requires i < |rs| && Distinct(rs)
    ensures SetOf(rs[i + 1..]) == SetOf(rs[i..]) - {rs[i]} && rs[i] in SetOf(rs[i..])
    ensures rs[i] !in SetOf(rs[..i])
  {
    hide SetOf;
    DistinctAt(rs, i);
    assert rs[i..] == [rs[i]] + rs[i + 1..];
    OneLess(rs[i + 1..], rs[i]);
    NotInBefore(rs[..i], rs[i]);
  }

  lemma SweepMaps(s: State, rs: seq<Ref>, i: nat)
    requires i < |rs| && forall k :: 0 <= k < |rs| ==> rs[k] in s.conns
    ensures Leftovers(s, rs[..i + 1]) == Leftovers(s, rs[..i])[rs[i] := Leftover(s, rs[i])]
    ensures IdsOf(s, rs[..i + 1]) == IdsOf(s, rs[..i]) + [s.conns[rs[i]].conn.id]
  {
    hide Leftover, Leftovers, IdsOf;
    assert rs[..i + 1] == rs[..i] + [rs[i]];
    OneMore(s, rs[..i], rs[i]);
  }

  lemma DistinctAt(rs: seq<Ref>, i: nat)
    requires i < |rs| && Distinct(rs)
    ensures rs[i] !in rs[..i] && rs[i] !in rs[i + 1..]
  {
  }

  lemma NotInBefore(before: seq<Ref>, r: Ref)
    requires r !in before
    ensures r !in SetOf(before)
  {
  }

  lemma OneLess(after: seq<Ref>, r: Ref)
    requires r !in after
    ensures SetOf(after) == SetOf([r] + after) - {r} && r in SetOf([r] + after)
  {
  }

  lemma OneMore(s: State, before: seq<Ref>, r: Ref)
    requires r in s.conns && forall k :: 0 <= k < |before| ==> before[k] in s.conns
    ensures Leftovers(s, before + [r]) == Leftovers(s, before)[r := Leftover(s, r)]
    ensures IdsOf(s, before + [r]) == IdsOf(s, before) + [s.conns[r].conn.id]
  {
    hide Leftover;
  }

  lemma LeftoverKeys(s: State, rs: seq<Ref>)
    requires forall k :: 0 <= k < |rs| ==> rs[k] in s.conns
    ensures Leftovers(s, rs).Keys == SetOf(rs)
  {
  }

  lemma SweepStep(s: State, rs: seq<Ref>, i: nat)
    requires Sweepable(s, rs) && i < |rs|
    ensures var w, r := Swept(s, rs, i), rs[i];
            && r in w.conns && w.conns[r].conn == s.conns[r].conn
            && var id := s.conns[r].conn.id;
            && id in w.sockets && w.sockets[id] == ConnE(r) && Tabled(w, id) && RefsExact(w, r)
            && ConnRemoved(w, id) == Swept(s, rs, i + 1)
  {
    hide Settled, RemovedAll, Leftover, SetOf, RefsExact, Known;
    var r := rs[i];
    SweepSets(rs, i);
    SweepMaps(s, rs, i);
    RemovedSoFar(s, rs[..i]);
    var t := RemovedAll(s, IdsOf(s, rs[..i]));
    assert r in t.conns && t.conns[r] == s.conns[r];
    assert Leftovers(s, rs[..i]).Keys <= SetOf(rs[..i]) by { LeftoverKeys(s, rs[..i]); }
    SweepAt(s, t, SetOf(rs[i..]), Leftovers(s, rs[..i]), r, SetOf(rs[..i]));
    RemovedAllSnoc(s, IdsOf(s, rs[..i]), s.conns[r].conn.id);
  }

  lemma RemovedAllSnoc(s: State, ids: seq<Id>, id: Id)
    requires Settled(s)
    ensures RemovedAll(s, ids + [id]) == Removed(RemovedAll(s, ids), id)
  {
    assert Front(ids + [id]) == ids;
  }

  lemma SweepAt(s: State, t: State, live: set<Ref>, gone: map<Ref, Slot>, r: Ref, done: set<Ref>)
    requires Settled(t) && r in t.conns && r in s.conns && t.conns[r] == s.conns[r] && r in live
    requires gone.Keys <= done && t.conns == s.conns - done
    ensures var id, w := t.conns[r].conn.id, Sweeping(t, live, gone);
            && r in w.conns && w.conns[r].conn == t.conns[r].conn
            && id in w.sockets && w.sockets[id] == ConnE(r) && Tabled(w, id) && RefsExact(w, r)
            && ConnRemoved(w, id) == Sweeping(Removed(t, id), live - {r}, gone[r := Leftover(s, r)])
  {
    RemovedNext(t, r);
    SettledParts(t);
    hide Inv, Settled;
    SweptIsKnown(t, live, gone, r);
    SweepOne(t, live, gone, r);
  }

  lemma DropStep(s: State, rs: seq<Ref>, i: nat)
    requires Sweepable(s, rs) && i < |rs|
    ensures var d, r := Dropped(s, rs, i), rs[i];
            && r in d.conns && r in d.held && d.conns[r].refs > 0
            && Unref(d, r) == Dropped(s, rs, i + 1)
  {
    hide Settled, RemovedAll, Unref, Leftovers, Leftover, SetOf, Sweeping;
    RemovedSoFar(s, rs);
    DistinctAt(rs, i);
    assert rs[i..] == [rs[i]] + rs[i + 1..];
    LeftoversAfter(s, rs[i], rs[i + 1..]);
    SetOfParts(rs, i);
    LeftoverKeys(s, rs[i..]);
    DropOne(RemovedAll(s, IdsOf(s, rs)), Leftovers(s, rs[i..]), rs[i]);
  }

  lemma SetOfParts(rs: seq<Ref>, i: nat)
    requires i < |rs|
    ensures SetOf(rs[i..]) <= SetOf(rs) && rs[i] in SetOf(rs[i..])
  {
  }

  lemma LeftoversAfter(s: State, r: Ref, after: seq<Ref>)
    requires r in s.conns && r !in after && forall k :: 0 <= k < |after| ==> after[k] in s.conns
    ensures forall k :: 0 <= k < |[r] + after| ==> ([r] + after)[k] in s.conns
    ensures Leftovers(s, [r] + after) - {r} == Leftovers(s, after)
    ensures r in Leftovers(s, [r] + after) && Leftovers(s, [r] + after)[r].refs == 1
  {
  }

  lemma DropEnds(s: State, rs: seq<Ref>)
    requires Sweepable(s, rs)
    ensures Swept(s, rs, |rs|) == Dropped(s, rs, 0)
    ensures Dropped(s, rs, |rs|) == RemovedAll(s, IdsOf(s, rs)) && Settled(RemovedAll(s, IdsOf(s, rs)))
  {
    hide Settled;
    assert rs[..|rs|] == rs == rs[0..] && rs[|rs|..] == [];
    assert SetOf([]) == {} && Leftovers(s, []) == map[];
    NotSweepingSettled(RemovedAll(s, IdsOf(s, rs)));
  }
}

/** The operations of an entry: RPC calls that the entry cancels when it is disposed of,
    unless they are not cancellable, and that take themselves off its list when they
    end. An operation is held by the list and by the outstanding call. */
module Ops {
  import opened Base

  type Ref = nat

  // attached: it has a pointer to its entry; callId: it can cancel its call;
  // pending: the RPC layer still has the call.
  datatype Op = Op(refs: nat, attached: bool, callId: bool, pending: bool)

  datatype State = State(
    alive: bool,              // the entry has not been disposed of
    ops: seq<Ref>,            // its list
    live: map<Ref, Op>,
    freed: seq<Ref>,
    made: seq<Ref>,
    removals: nat             // times that a failed call has removed the entry
  )

  const CREATED: State := State(true, [], map[], [], [], 0)

  function SetOp(s: State, o: Ref, op: Op): State {
    s.(live := s.live[o := op])
  }

  function Unref(s: State, o: Ref): State
    requires o in s.live && s.live[o].refs > 0
  {
    var op := s.live[o];
    if op.refs == 1 then s.(live := s.live - {o}, freed := s.freed + [o])
    else SetOp(s, o, op.(refs := op.refs - 1))
  }

  function Without(q: seq<Ref>, o: Ref): seq<Ref> {
    if q == [] then [] else if q[0] == o then q[1..] else [q[0]] + Without(q[1..], o)
  }

  /** The call, if it can be cancelled, and then the list let go of an operation that is
      off the list already. */
  function Disposed(s: State, o: Ref): State
    requires o in s.live && s.live[o].refs >= if s.live[o].callId then 2 else 1
  {
    var op := s.live[o];
    if op.callId then
      Unref(SetOp(s, o, Op(op.refs - 1, false, false, false)), o)
    else
      Unref(SetOp(s, o, op.(attached := false)), o)
  }

  predicate Listed(s: State, o: Ref) {
    o in s.ops
  }

  // hand: the reference of the list is in hand.
  predicate OpOk(s: State, o: Ref, hand: bool)
    requires o in s.live
  {
    var op := s.live[o];
    && op.refs == (if Listed(s, o) || hand then 1 else 0) + (if op.pending then 1 else 0)
    && op.refs > 0 && (op.callId ==> op.pending && op.attached) && (op.attached <==> Listed(s, o) || hand)
  }

  predicate NoRepeats(q: seq<Ref>) {
    forall j, k :: 0 <= j < k < |q| ==> q[j] != q[k]
  }

  /** Every operation there has been is either live or has been freed once; a live one
      is on the list or has its call outstanding. hand: the rest of the list that is
      being disposed of. */
  predicate Inv(s: State, hand: seq<Ref>) {
    && NoRepeats(s.ops + hand)
    && (forall o :: o in s.ops ==> o in s.live) && (forall o :: o in hand ==> o in s.live)
    && (forall o :: o in s.live ==> OpOk(s, o, o in hand))
    && multiset(s.freed) + multiset(s.live.Keys) == multiset(s.made)
    && (!s.alive ==> s.ops == []) && s.removals <= if s.alive then 0 else 1
  }

  function DisposedAll(s: State, list: seq<Ref>): (t: State)
    requires Inv(s, list) && s.ops == []
    ensures Inv(t, []) && t.ops == [] && t.alive == s.alive && t.made == s.made && t.removals == s.removals
    ensures t.live.Keys <= s.live.Keys
    ensures forall o :: o in s.live && s.live[o].pending && !s.live[o].callId ==> o in t.live && t.live[o].pending
    decreases |list|
  {
    if list == [] then s
    else
      HeadOk(s, list);
      DisposedAll(Disposed(s, list[0]), list[1..])
  }

  lemma SplitKeys(keys: set<Ref>, o: Ref)
    requires o in keys
    ensures multiset(keys) == multiset(keys - {o}) + multiset{o}
  {
    assert keys == keys - {o} + {o};
  }

  lemma HeadOk(s: State, list: seq<Ref>)
    requires Inv(s, list) && list != [] && s.ops == []
    ensures list[0] in s.live && s.live[list[0]].refs >= if s.live[list[0]].callId then 2 else 1
    ensures var t := Disposed(s, list[0]);
            && Inv(t, list[1..]) && t.ops == [] && t.alive == s.alive && t.made == s.made && t.removals == s.removals
            && t.live.Keys <= s.live.Keys
            && forall o :: o in s.live && s.live[o].pending && !s.live[o].callId ==>
                 o in t.live && t.live[o].pending && !t.live[o].callId
  {
    var o := list[0];
    assert o in list && OpOk(s, o, true);
    var t := Disposed(s, o);
    HeadLive(s, t, list, o);
    HeadKeys(s, t, o, s.live[o].pending && !s.live[o].callId);
    HeadList(s, t, list);
    hide OpOk;
  }

  lemma HeadKeys(s: State, t: State, o: Ref, stays: bool)
    requires o in s.live && multiset(s.freed) + multiset(s.live.Keys) == multiset(s.made) && t.made == s.made
    requires t.live.Keys == if stays then s.live.Keys else s.live.Keys - {o}
    requires t.freed == if stays then s.freed else s.freed + [o]
    ensures multiset(t.freed) + multiset(t.live.Keys) == multiset(t.made)
  {
    SplitKeys(s.live.Keys, o);
  }

  lemma HeadList(s: State, t: State, list: seq<Ref>)
    requires NoRepeats(s.ops + list) && list != [] && s.ops == [] && t.ops == []
    requires (forall o :: o in list ==> o in s.live) && t.live.Keys >= s.live.Keys - {list[0]}
    ensures NoRepeats(t.ops + list[1..]) && forall o :: o in list[1..] ==> o in t.live
  {
    assert s.ops + list == list && t.ops + list[1..] == list[1..];
    assert forall o :: o in list[1..] ==> o in list && o != list[0];
  }

  lemma HeadLive(s: State, t: State, list: seq<Ref>, o: Ref)
    requires Inv(s, list) && list != [] && s.ops == [] && o == list[0] && o in s.live && OpOk(s, o, true)
    requires t == Disposed(s, o)
    ensures forall q :: q in t.live ==> OpOk(t, q, q in list[1..])
    ensures forall q :: q in s.live && q != o ==> q in t.live && t.live[q] == s.live[q]
    ensures s.live[o].pending && !s.live[o].callId ==> t.live[o].pending && !t.live[o].callId
    ensures t == s.(live := t.live, freed := t.freed)
    ensures t.live.Keys == if s.live[o].pending && !s.live[o].callId then s.live.Keys else s.live.Keys - {o}
    ensures t.freed == if s.live[o].pending && !s.live[o].callId then s.freed else s.freed + [o]
  {
    assert s.ops + list == list;
    assert o !in list[1..];
    forall q | q in t.live
      ensures OpOk(t, q, q in list[1..])
    {
      assert q != o ==> OpOk(s, q, q in list) && (q in list <==> q in list[1..]);
    }
  }

  // ---------- The end of a call ----------

  lemma {:induction false} WithoutIs(q: seq<Ref>, o: Ref)
    requires NoRepeats(q)
    ensures NoRepeats(Without(q, o)) && forall x :: x in Without(q, o) <==> x in q && x != o
  {
    if q != [] {
      var r := Without(q[1..], o);
      assert q == [q[0]] + q[1..];
      WithoutIs(q[1..], o);
      assert Without(q, o) == if q[0] == o then q[1..] else [q[0]] + r;
      hide Without;
      assert q[0] !in q[1..];
      if q[0] != o {
        assert q[0] !in r;
        NoRepeatsCons(q[0], r);
      }
    }
  }

  lemma NoRepeatsCons(x: Ref, r: seq<Ref>)
    requires NoRepeats(r) && x !in r
    ensures NoRepeats([x] + r)
  {
  }

  /** The RPC layer lets go of a call that has ended: the operation leaves the list, if it
      is still there, and the reference of the call is dropped. */
  function Finished(s: State, o: Ref): State
    requires o in s.live && s.live[o].refs == (if Listed(s, o) then 2 else 1)
  {
    s.(ops := Without(s.ops, o), live := s.live - {o}, freed := s.freed + [o])
  }

  lemma FinishedInv(s: State, o: Ref)
    requires Inv(s, []) && o in s.live && s.live[o].pending
    ensures s.live[o].refs == (if Listed(s, o) then 2 else 1) && Inv(Finished(s, o), [])
  {
    assert s.ops + [] == s.ops;
    WithoutIs(s.ops, o);
    assert OpOk(s, o, false);
    var t := Finished(s, o);
    SplitKeys(s.live.Keys, o);
    forall q | q in t.live
      ensures OpOk(t, q, q in [])
    {
      assert OpOk(s, q, false);
    }
    assert t.ops + [] == t.ops;
  }

  // ---------- Events ----------

  datatype Event = Start(o: Ref, cancellable: bool) | Complete(o: Ref, failed: bool) | DisposeEntry

  lemma InHand(s: State)
    requires Inv(s, [])
    ensures Inv(s.(alive := false, ops := []), s.ops)
  {
    var t := s.(alive := false, ops := []);
    assert s.ops + [] == s.ops && t.ops + s.ops == s.ops;
    forall o | o in t.live
      ensures OpOk(t, o, o in s.ops)
    {
      assert OpOk(s, o, false);
    }
  }

  function EntryGone(s: State): State
    requires Inv(s, [])
  {
    if s.alive then
      InHand(s);
      DisposedAll(s.(alive := false, ops := []), s.ops)
    else s
  }

  // The response of a call: a failure removes the entry, if it is still there.
  function Answered(s: State, o: Ref, failed: bool): State
    requires Inv(s, []) && o in s.live
  {
    Uncancellable(s, o);
    var t := SetOp(s, o, s.live[o].(callId := false));
    if failed && t.live[o].attached then EntryGone(t).(removals := t.removals + 1) else t
  }

  lemma Uncancellable(s: State, o: Ref)
    requires Inv(s, []) && o in s.live
    ensures Inv(SetOp(s, o, s.live[o].(callId := false)), [])
  {
    var t := SetOp(s, o, s.live[o].(callId := false));
    assert t.live.Keys == s.live.Keys;
    forall q | q in t.live
      ensures OpOk(t, q, q in [])
    {
      assert OpOk(s, q, false);
    }
  }

  lemma StillPending(s: State, o: Ref, failed: bool)
    requires Inv(s, []) && o in s.live && s.live[o].pending
    ensures var t := Answered(s, o, failed);
            Inv(t, []) && o in t.live && t.live[o].pending
  {
    hide *;
    Uncancellable(s, o);
    AnsweredIs(s, o, failed);
    var t := SetOp(s, o, s.live[o].(callId := false));
    SetOpIs(s, o, s.live[o].(callId := false));
    if failed && t.live[o].attached {
      EntryGoneOnce(t, o);
      CountRemoval(EntryGone(t));
    }
  }

  lemma SetOpIs(s: State, o: Ref, op: Op)
    ensures SetOp(s, o, op) == s.(live := s.live[o := op])
  {
  }

  lemma AnsweredIs(s: State, o: Ref, failed: bool)
    requires Inv(s, []) && o in s.live
    ensures var t := SetOp(s, o, s.live[o].(callId := false));
            && Inv(t, []) && o in t.live
            && Answered(s, o, failed)
               == (if failed && t.live[o].attached then EntryGone(t).(removals := t.removals + 1) else t)
            && t.removals == s.removals <= (if t.alive then 0 else 1)
  {
    Uncancellable(s, o);
    hide EntryGone;
  }

  lemma EntryGoneOnce(t: State, o: Ref)
    requires Inv(t, []) && o in t.live && t.live[o].attached && t.live[o].pending && !t.live[o].callId
    ensures var u := EntryGone(t);
            Inv(u, []) && !u.alive && u.removals == t.removals == 0 && o in u.live && u.live[o].pending
  {
    assert OpOk(t, o, false);
    InHand(t);
    hide OpOk, NoRepeats;
  }

  lemma CountRemoval(s: State)
    requires Inv(s, []) && !s.alive && s.removals == 0
    ensures Inv(s.(removals := 1), [])
  {
    forall o | o in s.live
      ensures OpOk(s.(removals := 1), o, o in [])
    {
      assert OpOk(s, o, false);
    }
  }

  predicate Enabled(s: State, e: Event) {
    match e
    case Start(o, _) => s.alive && o !in s.made
    case Complete(o, _) => o in s.live && s.live[o].pending
    case DisposeEntry => true
  }

  function Started(s: State, o: Ref, cancellable: bool): State {
    s.(ops := s.ops + [o], live := s.live[o := Op(2, true, cancellable, true)], made := s.made + [o])
  }

  function Step(s: State, e: Event): State
    requires Inv(s, [])
  {
    if !Enabled(s, e) then s
    else match e
      case Start(o, cancellable) => Started(s, o, cancellable)
      case Complete(o, failed) =>
        StillPending(s, o, failed);
        FinishedInv(Answered(s, o, failed), o);
        Finished(Answered(s, o, failed), o)
      case DisposeEntry => EntryGone(s)
  }

  lemma StartInv(s: State, o: Ref, cancellable: bool)
    requires Inv(s, []) && s.alive && o !in s.made
    ensures Inv(Started(s, o, cancellable), [])
  {
    var t := Started(s, o, cancellable);
    assert s.ops + [] == s.ops && t.ops + [] == t.ops;
    assert multiset(s.live.Keys)[o] <= multiset(s.made)[o] == 0;
    assert t.live.Keys == s.live.Keys + {o};
    forall q | q in t.live
      ensures OpOk(t, q, q in [])
    {
      assert q != o ==> OpOk(s, q, false);
    }
  }

  lemma StepInv(s: State, e: Event)
    requires Inv(s, [])
    ensures Inv(Step(s, e), [])
  {
    if Enabled(s, e) {
      match e
      case Start(o, cancellable) => StartInv(s, o, cancellable);
      case Complete(o, failed) =>
        StillPending(s, o, failed);
        FinishedInv(Answered(s, o, failed), o);
      case DisposeEntry =>
        if s.alive {
          InHand(s);
        }
    }
  }

  function Run(events: seq<Event>): State {
    if events == [] then CREATED
    else if Inv(Run(Front(events)), []) then Step(Run(Front(events)), Last(events))
    else Run(Front(events))
  }

  lemma {:induction false} RunInv(events: seq<Event>)
    ensures Inv(Run(events), [])
  {
    if events == [] {
      assert CREATED.ops + [] == [];
    } else {
      RunInv(Front(events));
      hide Inv, Step;
      StepInv(Run(Front(events)), Last(events));
    }
  }

  /** Over every run: each operation that was started is either live or has been freed,
      once; a live one still has its call outstanding or is on the list; and once the
      entry is gone, a live one is held by its call alone, and no failure removes the entry
      a second time. Which ones are live is exactly stated in module OpsRuns. */
  lemma FreedExactlyOnce(events: seq<Event>)
    ensures var s := Run(events);
            && multiset(s.freed) + multiset(s.live.Keys) == multiset(s.made)
            && (forall o :: o in s.live ==> s.live[o].pending || o in s.ops)
            && (!s.alive ==> s.ops == [] && forall o :: o in s.live ==> s.live[o] == Op(1, false, false, true))
            && s.removals <= 1
  {
    RunInv(events);
    var s := Run(events);
    hide Run;
    assert forall o :: o in s.live ==> OpOk(s, o, false);
  }
}

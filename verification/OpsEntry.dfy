/** The list of operations as the entry keeps it, edited in place by callbacks that call
    each other: cancelling a call ends it, and the end of a call disposes of it. */
module OpsEntry {
  import opened Ops

  lemma {:induction false} WithoutAt(q: seq<Ref>, i: nat, o: Ref)
    requires i < |q| && q[i] == o && o !in q[..i]
    ensures Without(q, o) == q[..i] + q[i + 1..]
  {
    if i > 0 {
      assert q[0] in q[..i];
      assert q[1..][..i - 1] == q[..i][1..];
      WithoutAt(q[1..], i - 1, o);
    }
  }

  lemma {:induction false} WithoutMissing(q: seq<Ref>, o: Ref)
    requires o !in q
    ensures Without(q, o) == q
  {
    if q != [] {
      WithoutMissing(q[1..], o);
    }
  }

  class EntryOps {
    var alive: bool
    var ops: seq<Ref>
    var live: map<Ref, Op>
    var freed: seq<Ref>
    ghost var made: seq<Ref>
    var removals: nat

    ghost function View(): State
      reads this
    {
      State(alive, ops, live, freed, made, removals)
    }

    constructor ()
      ensures View() == CREATED
    {
      alive, ops, live, freed, made, removals := true, [], map[], [], [], 0;
    }

    method OpUnref(o: Ref)
      requires o in live && live[o].refs > 0
      modifies this`live, this`freed
      ensures View() == Unref(old(View()), o)
    {
      var op := live[o];
      if op.refs == 1 {
        live := live - {o};
        freed := freed + [o];
      } else {
        live := live[o := op.(refs := op.refs - 1)];
      }
    }

    // The type's dispose callback and then the reference of the list.
    method OpDisposed(o: Ref)
      requires o in live && o !in ops && (live[o].callId ==> live[o].pending)
      requires live[o].refs >= (if live[o].callId then 2 else 1)
      modifies this`live, this`freed, this`ops
      ensures View() == Disposed(old(View()), o)
      decreases |ops|, 3
    {
      ghost var op := live[o];
      if live[o].callId {
        DestroyNotify(o);
        assert live == old(live)[o := op.(pending := false, refs := op.refs - 1)];
        live := live[o := live[o].(callId := false)];
      }
      live := live[o := live[o].(attached := false)];
      assert live == old(live)[o := if op.callId then Op(op.refs - 1, false, false, false) else op.(attached := false)];
      OpUnref(o);
    }

    // fwd_op_dispose: take the operation off the list of its entry, if it is on it.
    method OpDispose(o: Ref)
      requires o in live && live[o].refs >= 1 && (o in ops ==> live[o].attached && !live[o].callId)
      requires NoRepeats(ops)
      modifies this`live, this`freed, this`ops
      ensures o !in old(ops) ==> View() == old(View())
      ensures o in old(ops) ==>
                View() == Disposed(old(View()).(ops := Without(old(ops), o)), o)
      decreases |ops|, 1
    {
      if live[o].attached {
        var i := 0;
        while i < |ops|
          invariant 0 <= i <= |ops| && o !in ops[..i]
          invariant View() == old(View())
        {
          if ops[i] == o {
            WithoutAt(ops, i, o);
            WithoutIs(ops, o);
            ops := ops[..i] + ops[i + 1..];
            OpDisposed(o);
            return;
          }
          i := i + 1;
        }
        assert ops[..i] == ops;
      }
    }

    // The RPC layer has let go of the call.
    method DestroyNotify(o: Ref)
      requires o in live && live[o].pending && (o in ops ==> NoRepeats(ops))
      requires o in ops ==> live[o].attached && !live[o].callId && live[o].refs == 2
      requires o !in ops ==> live[o].refs >= 1
      modifies this`live, this`freed, this`ops
      ensures o !in old(ops) ==> View() == Unref(SetOp(old(View()), o, old(live[o]).(pending := false)), o)
      ensures o in old(ops) ==> View() == Finished(old(View()), o)
      decreases |ops|, 2
    {
      live := live[o := live[o].(pending := false)];
      if o in ops {
        OpDispose(o);
      }
      OpUnref(o);
    }

    method OpStart(o: Ref, cancellable: bool)
      modifies this`live, this`ops, this`made
      ensures View() == Started(old(View()), o, cancellable)
    {
      ops := ops + [o];
      made := made + [o];
      live := live[o := Op(2, true, cancellable, true)];
    }

    method BaseDispose()
      requires Inv(View(), []) && alive
      modifies this
      ensures View() == EntryGone(old(View()))
    {
      ghost var s := View();
      InHand(s);
      alive := false;
      var list := ops;
      ops := [];
      hide Inv, Disposed;
      ghost var t := View();
      var i := 0;
      while i < |list|
        invariant 0 <= i <= |list| && ops == []
        invariant Inv(View(), list[i..])
        invariant DisposedAll(View(), list[i..]) == DisposedAll(t, list)
      {
        HeadFacts(View(), list[i..]);
        assert list[i..][1..] == list[i + 1..];
        OpDisposed(list[i]);
        i := i + 1;
      }
      assert list[i..] == [];
    }

    // The completion callback of the call: a failure removes the entry.
    method OnAnswer(o: Ref, failed: bool)
      requires Inv(View(), []) && o in live
      modifies this
      ensures View() == Answered(old(View()), o, failed)
    {
      Uncancellable(View(), o);
      live := live[o := live[o].(callId := false)];
      if failed && live[o].attached {
        AttachedAlive(View(), o);
        hide Inv, EntryGone;
        BaseDispose();
        removals := removals + 1;
      }
    }

    // The response of the call, and its end.
    method OnResponse(o: Ref, failed: bool)
      requires Inv(View(), []) && o in live && live[o].pending
      modifies this
      ensures View() == Step(old(View()), Complete(o, failed))
    {
      CompleteFacts(View(), o, failed);
      hide Inv, Answered, Finished, Step;
      OnAnswer(o, failed);
      DestroyNotify(o);
    }
  }

  lemma CompleteFacts(s: State, o: Ref, failed: bool)
    requires Inv(s, []) && o in s.live && s.live[o].pending
    ensures var t := Answered(s, o, failed);
            && o in t.live && t.live[o].pending && !t.live[o].callId && NoRepeats(t.ops)
            && (o in t.ops ==> t.live[o].attached && t.live[o].refs == 2)
            && t.live[o].refs == (if Listed(t, o) then 2 else 1)
            && (o !in t.ops ==> Unref(SetOp(t, o, t.live[o].(pending := false)), o) == Finished(t, o))
            && Step(s, Complete(o, failed)) == Finished(t, o)
  {
    StillPending(s, o, failed);
    FinishedInv(Answered(s, o, failed), o);
    ResponseFacts(Answered(s, o, failed), o);
    NotCancellable(s, o, failed);
    hide Inv, Answered, Finished;
  }

  lemma NotCancellable(s: State, o: Ref, failed: bool)
    requires Inv(s, []) && o in s.live && s.live[o].pending
    ensures o in Answered(s, o, failed).live && !Answered(s, o, failed).live[o].callId
  {
    StillPending(s, o, failed);
    Uncancellable(s, o);
    var t := SetOp(s, o, s.live[o].(callId := false));
    if failed && t.live[o].attached {
      AttachedAlive(t, o);
      EntryGoneOnce(t, o);
      var u := EntryGone(t);
      assert OpOk(u, o, false);
      hide Inv, EntryGone;
      assert u.ops == [] by { GoneEmpty(t); }
    }
  }

  lemma GoneEmpty(s: State)
    requires Inv(s, []) && s.alive
    ensures EntryGone(s).ops == []
  {
    InHand(s);
  }

  lemma HeadFacts(s: State, list: seq<Ref>)
    requires Inv(s, list) && list != [] && s.ops == []
    ensures var o := list[0];
            && o in s.live && (s.live[o].callId ==> s.live[o].pending)
            && s.live[o].refs >= (if s.live[o].callId then 2 else 1)
            && Inv(Disposed(s, o), list[1..]) && Disposed(s, o).ops == []
            && DisposedAll(s, list) == DisposedAll(Disposed(s, o), list[1..])
  {
    HeadOk(s, list);
    assert list[0] in list && OpOk(s, list[0], true);
    hide OpOk, Disposed;
  }

  lemma AttachedAlive(s: State, o: Ref)
    requires Inv(s, []) && o in s.live && s.live[o].attached
    ensures s.alive
  {
    assert OpOk(s, o, false);
  }

  lemma ResponseFacts(s: State, o: Ref)
    requires Inv(s, []) && o in s.live && s.live[o].pending
    ensures NoRepeats(s.ops) && (o in s.ops ==> s.live[o].attached && s.live[o].refs == 2)
    ensures o !in s.ops ==> s.live[o].refs == 1 && Unref(SetOp(s, o, s.live[o].(pending := false)), o) == Finished(s, o)
  {
    assert OpOk(s, o, false);
    assert s.ops + [] == s.ops;
    if o !in s.ops {
      WithoutMissing(s.ops, o);
    }
  }
}

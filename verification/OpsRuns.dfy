/** Which operations of an entry are live, and which have been freed, on the events alone: how
    an operation was started, whether its call has ended, and whether the entry is there. */
module OpsRuns {
  import opened Base
  import opened Ops

  /** Whether the call of the operation can be cancelled, if the operation was ever started. */
  function StartedAs(events: seq<Event>, o: Ref): Option<bool>
    decreases |events|, 1
  {
    if events == [] then None
    else
      var before := Front(events);
      match Last(events)
      case Start(p, cancellable) =>
        if p == o && EntryAlive(before) && StartedAs(before, o).None? then Some(cancellable)
        else StartedAs(before, o)
      case _ => StartedAs(before, o)
  }

  /** The entry has not been disposed of, and none of its calls has failed. */
  predicate EntryAlive(events: seq<Event>)
    decreases |events|, 0
  {
    events == [] ||
    var before := Front(events);
    && EntryAlive(before)
    && match Last(events)
       case DisposeEntry => false
       case Complete(o, failed) => !(failed && Outstanding(before, o))
       case _ => true
  }

  predicate Completed(events: seq<Event>, o: Ref)
    decreases |events|, 0
  {
    events != [] &&
    var before := Front(events);
    Completed(before, o) || (Last(events).Complete? && Last(events).o == o && Outstanding(before, o))
  }

  /** Its call has neither ended nor been cancelled together with the entry. */
  predicate Outstanding(events: seq<Event>, o: Ref)
    decreases |events|, 2
  {
    var c := StartedAs(events, o);
    c.Some? && !Completed(events, o) && (c.value ==> EntryAlive(events))
  }

  predicate FailureRemoved(events: seq<Event>) {
    events != [] &&
    var before, e := Front(events), Last(events);
    FailureRemoved(before) || (EntryAlive(before) && e.Complete? && e.failed && Outstanding(before, e.o))
  }

  // ---------- The end of the entry ----------

  lemma {:induction false} CancellableGo(s: State, list: seq<Ref>, o: Ref)
    requires Inv(s, list) && s.ops == [] && o in s.live && s.live[o].callId
    ensures o !in DisposedAll(s, list).live
    decreases |list|
  {
    assert OpOk(s, o, o in list);
    if list != [] {
      HeadOk(s, list);
      assert OpOk(s, list[0], true);
      HeadLive(s, Disposed(s, list[0]), list, list[0]);
      hide Inv, OpOk, Disposed;
      if o != list[0] {
        CancellableGo(Disposed(s, list[0]), list[1..], o);
      }
    }
  }

  // What is left of an operation of an entry that is gone.
  lemma OnlyPending(s: State, o: Ref)
    requires Inv(s, []) && s.ops == [] && o in s.live
    ensures s.live[o] == Op(1, false, false, true)
  {
    assert OpOk(s, o, false);
  }

  lemma EntryGoneLeaves(s: State, o: Ref)
    requires Inv(s, []) && s.alive
    ensures var t := EntryGone(s);
            && Inv(t, []) && !t.alive && t.made == s.made && t.removals == s.removals
            && (o in t.live ==> o in s.live && !s.live[o].callId && t.live[o] == Op(1, false, false, true))
            && (o in s.live && s.live[o].pending && !s.live[o].callId ==> o in t.live)
  {
    InHand(s);
    var u := s.(alive := false, ops := []);
    if o in s.live && s.live[o].callId {
      CancellableGo(u, s.ops, o);
    }
    var t := EntryGone(s);
    hide Inv;
    if o in t.live {
      OnlyPending(t, o);
    }
  }

  // ---------- One event ----------

  /** How the state stands to the events so far, for one operation. */
  predicate Matches(s: State, events: seq<Event>, o: Ref) {
    && s.alive == EntryAlive(events)
    && s.removals == (if FailureRemoved(events) then 1 else 0)
    && (o in s.made <==> StartedAs(events, o).Some?)
    && (o in s.live <==> Outstanding(events, o))
    && (o in s.live ==>
          s.live[o] == if s.alive then Op(2, true, StartedAs(events, o).value, true) else Op(1, false, false, true))
  }

  // One more event, in terms of the events before it.
  lemma Snoc(events: seq<Event>, e: Event, o: Ref)
    ensures var all := events + [e];
            && StartedAs(all, o)
               == (if e.Start? && e.o == o && EntryAlive(events) && StartedAs(events, o).None? then Some(e.cancellable)
                   else StartedAs(events, o))
            && EntryAlive(all) == (EntryAlive(events) && !e.DisposeEntry?
                                   && !(e.Complete? && e.failed && Outstanding(events, e.o)))
            && Completed(all, o) == (Completed(events, o) || (e.Complete? && e.o == o && Outstanding(events, o)))
            && FailureRemoved(all) == (FailureRemoved(events)
                                       || (EntryAlive(events) && e.Complete? && e.failed && Outstanding(events, e.o)))
  {
    var all := events + [e];
    assert Front(all) == events && Last(all) == e;
    hide Outstanding;
    assert EntryAlive(all) == (EntryAlive(events) && !e.DisposeEntry?
                               && !(e.Complete? && e.failed && Outstanding(events, e.o)));
  }

  lemma StartMatches(s: State, events: seq<Event>, p: Ref, cancellable: bool, o: Ref)
    requires Inv(s, []) && Matches(s, events, o) && Matches(s, events, p)
    ensures Matches(Step(s, Start(p, cancellable)), events + [Start(p, cancellable)], o)
  {
    var e := Start(p, cancellable);
    Snoc(events, e, o);
    hide Inv, StartedAs, EntryAlive, Completed, FailureRemoved;
    NotCompleted(events, o);
  }

  lemma DisposeMatches(s: State, events: seq<Event>, o: Ref)
    requires Inv(s, []) && Matches(s, events, o)
    ensures Matches(Step(s, DisposeEntry), events + [DisposeEntry], o)
  {
    Snoc(events, DisposeEntry, o);
    if s.alive {
      EntryGoneLeaves(s, o);
    }
    hide Inv, EntryGone, StartedAs, EntryAlive, Completed, FailureRemoved;
  }

  lemma {:induction false} NotCompleted(events: seq<Event>, o: Ref)
    ensures Completed(events, o) ==> StartedAs(events, o).Some?
  {
    if events != [] {
      NotCompleted(Front(events), o);
      assert Front(events) + [Last(events)] == events;
      Snoc(Front(events), Last(events), o);
      hide Completed, StartedAs;
    }
  }

  // The state when the response of a call has been handled and the call has ended.
  lemma CompleteIs(s: State, p: Ref, failed: bool, o: Ref)
    requires Inv(s, []) && p in s.live && s.live[p].pending && (s.live[p].attached ==> s.alive)
    ensures var t := Step(s, Complete(p, failed));
            var gone := failed && s.live[p].attached;
            && t.alive == (s.alive && !gone) && t.removals == s.removals + (if gone then 1 else 0) && t.made == s.made
            && (o in t.live ==> o != p && o in s.live)
            && (o in t.live && gone ==> !s.live[o].callId && t.live[o] == Op(1, false, false, true))
            && (o in s.live && o != p && gone && s.live[o].pending && !s.live[o].callId ==> o in t.live)
            && (o in s.live && o != p && !gone ==> o in t.live && t.live[o] == s.live[o])
  {
    var q := SetOp(s, p, s.live[p].(callId := false));
    Uncancellable(s, p);
    StillPending(s, p, failed);
    AnsweredIs(s, p, failed);
    FinishedInv(Answered(s, p, failed), p);
    if failed && q.live[p].attached {
      EntryGoneLeaves(q, o);
    }
    hide Inv, EntryGone, Answered, Without;
  }

  lemma CompleteMatches(s: State, events: seq<Event>, p: Ref, failed: bool, o: Ref)
    requires Inv(s, []) && Matches(s, events, o) && Matches(s, events, p)
    ensures Matches(Step(s, Complete(p, failed)), events + [Complete(p, failed)], o)
  {
    var e := Complete(p, failed);
    Snoc(events, e, o);
    if p in s.live {
      CompleteIs(s, p, failed, o);
    } else {
      NotThere(s, p, failed);
    }
    hide Inv, Step, StartedAs, EntryAlive, Completed, FailureRemoved;
  }

  lemma NotThere(s: State, p: Ref, failed: bool)
    requires Inv(s, []) && p !in s.live
    ensures Step(s, Complete(p, failed)) == s
  {
  }

  lemma {:induction false} RunMatches(events: seq<Event>, o: Ref)
    ensures Matches(Run(events), events, o)
  {
    if events != [] {
      var s, e := Run(Front(events)), Last(events);
      RunInv(Front(events));
      RunMatches(Front(events), o);
      assert Front(events) + [e] == events;
      hide Inv, Step, Matches;
      match e
      case Start(p, cancellable) => RunMatches(Front(events), p); StartMatches(s, Front(events), p, cancellable, o);
      case Complete(p, failed) => RunMatches(Front(events), p); CompleteMatches(s, Front(events), p, failed, o);
      case DisposeEntry => DisposeMatches(s, Front(events), o);
    }
  }

  /** Over every run: an operation is live if and only if its call is outstanding, and it has
      been freed, once, if and only if it was started and its call is not; a failed call
      removes the entry if it is still there, once. */
  lemma LiveExactly(events: seq<Event>, o: Ref)
    ensures var s := Run(events);
            && s.alive == EntryAlive(events)
            && (o in s.live <==> Outstanding(events, o))
            && multiset(s.freed)[o] == (if StartedAs(events, o).Some? && !Outstanding(events, o) then 1 else 0)
            && s.removals == (if FailureRemoved(events) then 1 else 0)
  {
    RunMatches(events, o);
    RunInv(events);
    MadeOnce(events, o);
    var s := Run(events);
    hide Run;
    assert multiset(s.made)[o] == multiset(s.freed)[o] + multiset(s.live.Keys)[o];
  }

  lemma MadeFacts(events: seq<Event>, o: Ref)
    ensures var s := Run(events);
            && Inv(s, []) && s.alive == EntryAlive(events) && (o in s.made <==> StartedAs(events, o).Some?)
            && (o in s.live ==> s.live[o].pending && (s.live[o].attached ==> s.alive))
  {
    RunMatches(events, o);
    RunInv(events);
    hide Run, Inv, EntryAlive, StartedAs, Outstanding, FailureRemoved;
  }

  lemma {:induction false} MadeOnce(events: seq<Event>, o: Ref)
    ensures multiset(Run(events).made)[o] == if StartedAs(events, o).Some? then 1 else 0
  {
    if events != [] {
      var s, e := Run(Front(events)), Last(events);
      MadeOnce(Front(events), o);
      forall p
        ensures p in s.live ==> s.live[p].pending && (s.live[p].attached ==> s.alive)
      {
        MadeFacts(Front(events), p);
      }
      MadeFacts(Front(events), o);
      StepMakes(s, e);
      assert Front(events) + [e] == events;
      Snoc(Front(events), e, o);
      hide Inv, Step, StartedAs, EntryAlive;
    }
  }

  lemma StepMakes(s: State, e: Event)
    requires Inv(s, []) && forall o :: o in s.live ==> s.live[o].pending && (s.live[o].attached ==> s.alive)
    ensures Step(s, e).made == if e.Start? && s.alive && e.o !in s.made then s.made + [e.o] else s.made
  {
    match e
    case Start(_, _) => hide Inv;
    case Complete(p, failed) =>
      if p in s.live {
        CompleteIs(s, p, failed, p);
      }
    case DisposeEntry =>
      if s.alive {
        EntryGoneLeaves(s, 0);
      }
  }

  /** Once the entry is gone, an operation that was started as cancellable is not live, and
      has been freed once; one that was not is live until its call ends. */
  lemma CancelledWithEntry(events: seq<Event>, o: Ref)
    requires !EntryAlive(events) && StartedAs(events, o).Some?
    ensures var s := Run(events);
            && (StartedAs(events, o).value ==> o !in s.live && multiset(s.freed)[o] == 1)
            && (!StartedAs(events, o).value && !Completed(events, o) ==>
                  o in s.live && s.live[o].pending && multiset(s.freed)[o] == 0)
  {
    LiveExactly(events, o);
    RunMatches(events, o);
  }
}

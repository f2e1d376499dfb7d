/** Which ACCEPT slots of a remote forwarder are idle: those for which a failure has arrived. */
module LinkSlots {
  import opened Base
  import opened Link
  import opened LinkTickets
  import opened LinkRuns
  import Connection

  predicate RefusedIn(w: World, a: Action, t: Ticket) {
    Enabled(w, a) && a.DeliverEast? && w.east[0] == AcceptBad(t)
  }

  /** A failed response has been delivered for the slot, on the actions alone. */
  predicate Refused(actions: seq<Action>, t: Ticket) {
    actions != [] && (Refused(Front(actions), t) || RefusedIn(Run(Front(actions)), Last(actions), t))
  }

  lemma DeliveredSlots(w: World, m: East, sid: Id, to: Addr, ok: bool, t: Ticket)
    ensures var u := HandleEast(w, m, sid, to, ok);
            && u.fwdsMade == w.fwdsMade && (t.fwd in u.fwds <==> t.fwd in w.fwds)
            && (t.fwd in w.fwds ==> (t.slot in u.fwds[t.fwd] <==> t.slot in w.fwds[t.fwd] && m != AcceptBad(t)))
  {
    if m.CloseEast? {
      SocketClosed(w, m, sid, to, ok);
      hide HandleEast;
    } else if !m.AcceptBad? {
      OthersSame(w, m, sid, to, ok);
      hide HandleEast;
    }
  }

  lemma OthersSame(w: World, m: East, sid: Id, to: Addr, ok: bool)
    requires !m.CloseEast? && !m.AcceptBad?
    ensures SameForwarders(w, HandleEast(w, m, sid, to, ok))
  {
    if m.AcceptOk? {
      AnswerSame(w, m, sid, to, ok);
      hide HandleEast;
    }
  }

  lemma AnswerSame(w: World, m: East, sid: Id, to: Addr, ok: bool)
    requires m.AcceptOk?
    ensures SameForwarders(w, HandleEast(w, m, sid, to, ok))
  {
  }

  lemma SlotsAfter(w: World, a: Action, t: Ticket)
    ensures var u := Step(w, a);
            && w.fwdsMade <= u.fwdsMade
            && (t.fwd in u.fwds ==>
                  if Enabled(w, a) && a == OpenForwarder(t.fwd) then u.fwds[t.fwd] == {0, 1} && t.fwd !in w.fwdsMade
                  else t.fwd in w.fwds && (t.slot in u.fwds[t.fwd] <==> t.slot in w.fwds[t.fwd] && !RefusedIn(w, a, t)))
            && (t.fwd in u.fwdsMade ==> t.fwd in w.fwdsMade || (Enabled(w, a) && a == OpenForwarder(t.fwd)))
  {
    StepIs(w, a);
    if Enabled(w, a) {
      if Neutral(w, a) {
        NeutralSlots(w, a, t);
        hide Step, Outstanding, Enabled;
      } else if a.DeliverEast? {
        DeliveredSlots(w.(east := w.east[1..]), w.east[0], a.sid, a.to, a.ok, t);
        hide Step, HandleEast;
      } else if a.DeliverWest? {
        WestForwarders(w.(west := w.west[1..]), w.west[0], a.now, a.listening);
        hide Step, HandleWest;
      } else {
        hide Connection.New;
      }
    }
  }

  // Nothing is refused to a forwarder that does not exist yet.
  lemma UnknownUnrefused(w: World, a: Action, t: Ticket)
    requires Slots(w) && t.fwd !in w.fwdsMade
    ensures !RefusedIn(w, a, t)
  {
    if RefusedIn(w, a, t) {
      assert SlotOk(w, t) && !Busy(w, t);
      assert w.east == [w.east[0]] + w.east[1..];
      InEastConcat([w.east[0]], w.east[1..], t);
      InEastOne(w.east[0], t);
      hide InEast, InWest;
    }
  }

  predicate Exactly(w: World, refused: bool, t: Ticket) {
    && (t.fwd !in w.fwdsMade ==> !refused)
    && (t.fwd in w.fwds ==> (t.slot in w.fwds[t.fwd] <==> t.slot < 2 && !refused))
  }

  /** Over every run: a slot of a forwarder has its ACCEPT outstanding if and only if no failure
      has been delivered for it. */
  lemma {:induction false} SlotsExactly(actions: seq<Action>, t: Ticket)
    ensures Exactly(Run(actions), Refused(actions, t), t)
  {
    if actions != [] {
      var w, a := Run(Front(actions)), Last(actions);
      SlotsExactly(Front(actions), t);
      RunsKeep(Front(actions));
      SlotsAfter(w, a, t);
      assert Slots(w);
      hide Step, Slots, RefusedIn, Enabled;
      if t.fwd !in w.fwdsMade {
        UnknownUnrefused(w, a, t);
      }
    }
  }
}

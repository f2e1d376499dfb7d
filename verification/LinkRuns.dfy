/** Whole runs of two peers: every interleaving of local events and of message
    deliveries on both channels. */
module LinkRuns {
  import opened Base
  import opened Link
  import opened LinkCounts
  import opened LinkKinds
  import opened LinkOnce
  import opened LinkOrder
  import opened LinkSilence
  import opened LinkTickets

  lemma {:induction false} RunsKeep(actions: seq<Action>)
    ensures var w := Run(actions); Kinds(w) && Once(w) && Order(w) && Slots(w)
  {
    if actions != [] {
      var w, a := Run(Front(actions)), Last(actions);
      RunsKeep(Front(actions));
      hide Kinds, Once, Order, Slots, Step;
      KindsStep(w, a);
      OnceStep(w, a);
      OrderStep(w, a);
      SlotsStep(w, a);
    }
  }

  /** The counterpart of a connection is the socket made for it, so no two connections
      share a socket; and every packet that a connection sends, and every packet that is
      sent to it, is addressed within its own link. */
  lemma LinksAreSymmetric(actions: seq<Action>, c: Id, d: Id)
    requires c in Run(actions).conns && Run(actions).conns[c].rid != 0
    ensures var w := Run(actions);
            && w.conns[c].rid in w.madeFor && w.madeFor[w.conns[c].rid] == c
            && (w.conns[c].rid in w.sockets ==> w.sockets[w.conns[c].rid].rid == c)
            && (d in w.conns && w.conns[d].rid == w.conns[c].rid ==> d == c)
  {
    RunsKeep(actions);
    var w := Run(actions);
    hide Once, Order, Slots, Run;
    KindsParts(w);
    assert ConnOk(w.connAddr, w.madeFor, c, w.conns[c]);
    assert d in w.conns ==> ConnOk(w.connAddr, w.madeFor, d, w.conns[d]);
    var s := w.conns[c].rid;
    assert s in w.sockets ==> Made(w.madeFor, s, w.sockets[s].rid);
  }

  /** A reply received by a socket is only ever written to the source address of the
      connection that the socket was made for, and a socket forwards only the packets of
      that connection. */
  lemma PacketsStayInTheirLink(actions: seq<Action>, i: nat)
    ensures var w := Run(actions);
            && (i < |w.written| ==>
                  && w.written[i].sid in w.madeFor && w.madeFor[w.written[i].sid] in w.connAddr
                  && w.written[i].addr == w.connAddr[w.madeFor[w.written[i].sid]])
            && (i < |w.forwarded| ==>
                  w.forwarded[i].sid in w.madeFor && w.madeFor[w.forwarded[i].sid] == w.forwarded[i].cid)
  {
    RunsKeep(actions);
    var w := Run(actions);
    hide Once, Order, Slots, Run;
    KindsParts(w);
    assert i < |w.written| ==> WrittenOk(w.connAddr, w.madeFor, w.written[i]);
    assert i < |w.forwarded| ==> Made(w.madeFor, w.forwarded[i].sid, w.forwarded[i].cid);
  }

  /** Every DATA request that reaches a live socket finds it connected. */
  lemma DataFindsItsSocketConnected(actions: seq<Action>)
    ensures var w := Run(actions);
            && w.dropped == 0
            && (w.east != [] && w.east[0].DataEast? && w.east[0].sid in w.sockets ==>
                  w.sockets[w.east[0].sid].to.Some?)
  {
    RunsKeep(actions);
    var w := Run(actions);
    hide Once, Kinds, Slots, Run;
    if w.east != [] && w.east[0].DataEast? {
      HeadReady(w);
    }
  }

  /** Of all the messages of a run, each side sends at most one CLOSE for its end of a
      link, so a pair exchanges at most two, and none while that end is alive; and a
      connection has at most one socket made for it. */
  lemma ClosedAtMostOnce(actions: seq<Action>, sid: Id, other: Id)
    requires sid in Run(actions).madeFor
    ensures var w, cid := Run(actions), Run(actions).madeFor[sid];
            && ClosingEast(EastLog(actions), sid) <= 1 && ClosingWest(WestLog(actions), cid) <= 1
            && (ClosingEast(EastLog(actions), sid) == 1 ==> cid !in w.conns)
            && (ClosingWest(WestLog(actions), cid) == 1 ==> sid !in w.sockets)
            && (other in w.madeFor && w.madeFor[other] == cid ==> other == sid)
  {
    RunsKeep(actions);
    var w := Run(actions);
    KindsParts(w);
    LogsCount(actions, sid);
    LogsCount(actions, w.madeFor[sid]);
    hide Order, Slots, Run, EastLog, WestLog, ClosingEast, ClosingWest;
    assert ClosedEast(w, sid) && ClosedWest(w, w.madeFor[sid]);
    assert sid in w.sockets ==> Made(w.madeFor, sid, w.sockets[sid].rid);
  }

  // ---------- A CLOSE does not echo ----------

  lemma {:induction false} SilentEastOn(actions: seq<Action>, k: nat, cid: Id)
    requires k <= |actions| && SilentEast(Run(actions[..k]), cid)
    ensures SilentEast(Run(actions), cid)
  {
    hide SilentEast, Kinds, Once, Order, Slots, Step;
    if k == |actions| {
      assert actions[..k] == actions;
    } else {
      var before := Front(actions);
      assert before[..k] == actions[..k];
      SilentEastOn(before, k, cid);
      RunsKeep(before);
      RunsKeep(actions);
      StepShape(Run(before), Last(actions));
      OnceParts(Run(before));
      OnceParts(Run(actions));
      StaysSilentEast(Run(before), Run(actions), cid);
    }
  }

  lemma {:induction false} SilentWestOn(actions: seq<Action>, k: nat, cid: Id)
    requires k <= |actions| && SilentWest(Run(actions[..k]), cid)
    ensures SilentWest(Run(actions), cid)
  {
    hide SilentWest, Kinds, Once, Order, Slots, Step;
    if k == |actions| {
      assert actions[..k] == actions;
    } else {
      var before := Front(actions);
      assert before[..k] == actions[..k];
      SilentWestOn(before, k, cid);
      RunsKeep(before);
      StepShape(Run(before), Last(actions));
      StaysSilentWest(Run(before), Run(actions), cid);
    }
  }

  lemma OnceParts(w: World)
    requires Once(w)
    ensures Claims(w) && ClosesEastOk(w)
  {
  }

  lemma RunSnoc(actions: seq<Action>, k: nat)
    requires k < |actions|
    ensures Run(actions[..k + 1]) == Step(Run(actions[..k]), actions[k])
  {
    assert Front(actions[..k + 1]) == actions[..k];
    hide Step;
  }

  /** If the k-th step of a run delivers a CLOSE to an entry that is there, that entry
      sends no CLOSE of its own, neither then nor at any other time of the run. */
  lemma CloseDoesNotEcho(actions: seq<Action>, k: nat, sid: Id)
    requires k < |actions| && Enabled(Run(actions[..k]), actions[k])
    ensures var w, a := Run(actions[..k]), actions[k];
            && (a.DeliverWest? && w.west[0].CloseWest? && w.west[0].cid in w.conns
                && sid in Run(actions).madeFor && Run(actions).madeFor[sid] == w.west[0].cid ==>
                  ClosingEast(EastLog(actions), sid) == 0)
            && (a.DeliverEast? && w.east[0].CloseEast? && w.east[0].sid in w.sockets ==>
                  ClosingWest(WestLog(actions), w.sockets[w.east[0].sid].rid) == 0)
  {
    var w, a := Run(actions[..k]), actions[k];
    RunsKeep(actions[..k]);
    RunSnoc(actions, k);
    KindsParts(w);
    hide Kinds, Once, Order, Slots, Step, Run, EastLog, WestLog, ClosingEast, ClosingWest, ConnsOk, SocketsOk;
    if a.DeliverWest? && w.west[0].CloseWest? && w.west[0].cid in w.conns {
      ConnectionFallsSilent(w, a);
      SilentEastOn(actions, k + 1, w.west[0].cid);
      LogsCount(actions, sid);
    }
    if a.DeliverEast? && w.east[0].CloseEast? && w.east[0].sid in w.sockets {
      var cid := w.sockets[w.east[0].sid].rid;
      SocketFallsSilent(w, a);
      SilentWestOn(actions, k + 1, cid);
      LogsCount(actions, cid);
    }
  }

  lemma AnsweredParts(w: World, cid: Id)
    requires Once(w)
    ensures w.accepted[cid] <= w.completed[cid] <= 1
    ensures w.completed[cid] == 1 && w.accepted[cid] == 0 ==> w.closesWest[cid] == 1
  {
    assert AnsweredOnce(w, cid);
    hide Asked, Claims, ClosesEastOk, ClosesWestOk;
  }

  /** An ACCEPT is completed for a connection at most once, by a successful response that
      reaches a live forwarder; the step that does so sends exactly one of ACCEPTED and
      CLOSE, and asks again. No ACCEPTED is ever sent otherwise, and if none has been, then
      exactly one CLOSE has. */
  lemma AcceptsAreAnsweredOnce(actions: seq<Action>, k: nat, cid: Id)
    requires k < |actions|
    ensures var n, log := Completions(actions, cid), WestLog(actions);
            && Accepting(log, cid) <= n <= 1
            && (n == 1 && Accepting(log, cid) == 0 ==> ClosingWest(log, cid) == 1)
    ensures Completes(Run(actions[..k]), actions[k], cid) ==> AnswersOnce(Run(actions[..k]), actions[k], cid)
  {
    hide *;
    RunsKeep(actions);
    LogsCount(actions, cid);
    AnsweredParts(Run(actions), cid);
    if Completes(Run(actions[..k]), actions[k], cid) {
      CompletionAnswered(Run(actions[..k]), actions[k], cid);
    }
  }

  /** A forwarder has at most two slots, and for each at most one ACCEPT that has not
      been completed. */
  lemma OneAcceptPerSlot(actions: seq<Action>, t: Ticket)
    ensures var w := Run(actions);
            && Outstanding(w, t) <= 1
            && (t.fwd in w.fwds ==>
                  w.fwds[t.fwd] <= {0, 1} && Outstanding(w, t) <= if t.slot in w.fwds[t.fwd] then 1 else 0)
  {
    RunsKeep(actions);
    hide Kinds, Order, Once, Run, Outstanding;
    assert SlotOk(Run(actions), t);
  }
}

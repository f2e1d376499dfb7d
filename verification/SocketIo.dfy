/** Asynchronous output of a socket: a write queue with partial sends, an error handler
    that runs once, and callbacks that may dispose of the whole object while it is in
    the middle of handling an event. */
module SocketIo {
  import opened Base

  type Byte = nat

  // An element of the write queue; watched: it has a completion callback.
  datatype Item = Item(id: nat, data: seq<Byte>, watched: bool, sent: nat)

  // A call of a completion callback.
  datatype Report = Report(id: nat, bytes: nat, ok: bool)

  /** What a callback of the owner does to the object before it returns. */
  datatype Reaction = Ignore | Free | Submit(items: seq<Item>)

  datatype Io = Io(
    refs: nat,
    owned: bool,               // the owner's reference is among refs
    errorSource: bool,
    readSource: bool,
    writeSource: bool,
    writeq: seq<Item>,
    released: bool,
    // History
    wire: seq<Byte>,
    left: seq<Item>,           // items that have left the queue, in order
    reports: seq<Report>,
    destroyed: seq<nat>,
    errors: nat,               // calls of the error handler
    submitted: seq<nat>
  )

  function Ids(items: seq<Item>): seq<nat> {
    seq(|items|, i requires 0 <= i < |items| => items[i].id)
  }

  function Bytes(items: seq<Item>): seq<Byte> {
    if items == [] then []
    else
      var x := Last(items);
      Bytes(Front(items)) + if x.sent <= |x.data| then x.data[..x.sent] else []
  }

  const CREATED: Io := Io(1, true, true, false, false, [], false, [], [], [], [], 0, [])

  function Drained(io: Io): Io {
    io.(writeq := [], left := io.left + io.writeq, destroyed := io.destroyed + Ids(io.writeq))
  }

  function Disposed(io: Io): Io {
    Drained(io.(errorSource := false, readSource := false, writeSource := false))
  }

  function Unref(io: Io): Io
    requires io.refs > 0
  {
    if io.refs == 1 then Disposed(io.(refs := 0)).(released := true) else io.(refs := io.refs - 1)
  }

  function Freed(io: Io): Io
    requires io.owned ==> io.refs > 0
  {
    if io.owned then Unref(Disposed(io.(owned := false))) else io
  }

  function Queued(io: Io, item: Item): Io {
    if io.owned then
      io.(writeq := io.writeq + [item.(sent := 0)], writeSource := true, submitted := io.submitted + [item.id])
    else io
  }

  function QueuedAll(io: Io, items: seq<Item>): Io {
    if items == [] then io else Queued(QueuedAll(io, Front(items)), Last(items))
  }

  function React(io: Io, r: Reaction): Io
    requires io.owned ==> io.refs > 0
  {
    match r
    case Ignore => io
    case Free => Freed(io)
    case Submit(items) => QueuedAll(io, items)
  }

  // The completion callback of an item that is out of the queue already.
  function Completed(io: Io, d: Item, ok: bool, r: Reaction): Io
    requires io.owned ==> io.refs > 0
  {
    if d.watched then React(io.(reports := io.reports + [Report(d.id, d.sent, ok)]), r) else io
  }

  // The error handler runs if it has not run yet.
  function Complained(io: Io, r: Reaction): Io
    requires io.owned ==> io.refs > 0
  {
    if io.errorSource then React(io.(errorSource := false, errors := io.errors + 1), r) else io
  }

  function Popped(io: Io, d: Item): Io
    requires io.writeq != []
  {
    io.(writeq := io.writeq[1..], left := io.left + [d])
  }

  function Sent(io: Io, n: nat): Io
    requires io.writeq != [] && io.writeq[0].sent + n <= |io.writeq[0].data|
  {
    var d := io.writeq[0];
    io.(wire := io.wire + d.data[d.sent..d.sent + n], writeq := io.writeq[0 := d.(sent := d.sent + n)])
  }

  // The socket accepts so many bytes of the head of the queue, or fails.
  predicate Accepts(io: Io, result: int) {
    io.writeq != [] && result >= 0 ==> io.writeq[0].sent + result <= |io.writeq[0].data|
  }

  lemma CompletedRefs(io: Io, d: Item, ok: bool, r: Reaction)
    requires io.refs >= 2
    ensures var u := Completed(io, d, ok, r);
            u.refs >= 1 && (u.owned ==> u.refs >= 2)
  {
    if d.watched && r.Submit? {
      QueuedRefs(io.(reports := io.reports + [Report(d.id, d.sent, ok)]), r.items);
    }
  }

  lemma {:induction false} QueuedRefs(io: Io, items: seq<Item>)
    ensures QueuedAll(io, items).refs == io.refs && QueuedAll(io, items).owned == io.owned
  {
    if items != [] {
      QueuedRefs(io, Front(items));
    }
  }

  function Wrote(io: Io, n: nat, rc: Reaction): Io
    requires io.refs >= 2 && io.writeq != [] && io.writeq[0].sent + n <= |io.writeq[0].data|
  {
    var u := Sent(io, n);
    var d := u.writeq[0];
    if d.sent < |d.data| then u
    else
      var v := Completed(Popped(u, d), d, true, rc);
      v.(destroyed := v.destroyed + [d.id], writeSource := v.writeSource && v.writeq != [])
  }

  function WriteFailed(io: Io, rc: Reaction, re: Reaction): Io
    requires io.refs >= 2 && io.writeq != []
  {
    var d := io.writeq[0];
    CompletedRefs(Popped(io, d), d, false, rc);
    var v := Complained(Completed(Popped(io, d), d, false, rc), re);
    v.(destroyed := v.destroyed + [d.id], writeSource := false)
  }

  // ready: the socket can be written to, and has not merely been hung up.
  function HandleWrite(io: Io, ready: bool, result: int, rc: Reaction, re: Reaction): Io
    requires io.refs >= 2 && Accepts(io, result)
  {
    if !ready || io.writeq == [] then io.(writeSource := false)
    else if result >= 0 then Wrote(io, result, rc)
    else WriteFailed(io, rc, re)
  }

  function HandleRead(io: Io, ready: bool, received: int, rr: Reaction, re: Reaction): Io
    requires io.refs >= 2
  {
    if !ready then io.(readSource := false)
    else if received > 0 then React(io, rr)
    else Complained(io, re).(readSource := false)
  }

  // ---------- Whole runs ----------

  datatype Event =
    | Write(ready: bool, result: int, rc: Reaction, re: Reaction)
    | Read(ready: bool, received: int, rr: Reaction, re: Reaction)
    | Broken(re: Reaction)
    | StartReceive
    | StopReceive
    | Send(item: Item)
    | Release

  predicate Enabled(io: Io, e: Event) {
    match e
    case Write(_, result, _, _) => io.writeSource && Accepts(io, result)
    case Read(_, _, _, _) => io.readSource
    case Broken(_) => io.errorSource
    case _ => io.owned
  }

  function Held(io: Io): Io {
    io.(refs := io.refs + 1)
  }

  function Step(io: Io, e: Event): Io
    requires Enabled(io, e) && io.owned && io.refs == 1
  {
    match e
    case Write(ready, result, rc, re) =>
      WriteRefs(Held(io), ready, result, rc, re);
      Unref(HandleWrite(Held(io), ready, result, rc, re))
    case Read(ready, received, rr, re) =>
      ReadRefs(Held(io), ready, received, rr, re);
      Unref(HandleRead(Held(io), ready, received, rr, re))
    case Broken(re) =>
      ComplainedRefs(Held(io), re);
      Unref(Complained(Held(io), re))
    case StartReceive => io.(readSource := true)
    case StopReceive => io.(readSource := false)
    case Send(item) => Queued(io, item)
    case Release => Freed(io)
  }

  lemma ReactRefs(io: Io, r: Reaction)
    requires io.owned ==> io.refs >= 2
    requires io.refs >= 1
    ensures React(io, r).refs >= 1 && (React(io, r).owned ==> React(io, r).refs >= 2)
    ensures React(io, r).refs == io.refs - if r.Free? && io.owned then 1 else 0
    ensures React(io, r).owned == (io.owned && !r.Free?)
  {
    if r.Submit? {
      QueuedRefs(io, r.items);
    }
  }

  lemma ComplainedRefs(io: Io, r: Reaction)
    requires io.refs >= 1 && (io.owned ==> io.refs >= 2)
    ensures Complained(io, r).refs >= 1 && (Complained(io, r).owned ==> Complained(io, r).refs >= 2)
    ensures Complained(io, r).refs - io.refs
            == (if Complained(io, r).owned then 1 else 0) - (if io.owned then 1 else 0)
  {
    if io.errorSource {
      ReactRefs(io.(errorSource := false, errors := io.errors + 1), r);
    }
  }

  lemma WroteRefs(io: Io, n: nat, rc: Reaction)
    requires io.refs == 2 && io.owned && io.writeq != [] && io.writeq[0].sent + n <= |io.writeq[0].data|
    ensures Wrote(io, n, rc).refs == if Wrote(io, n, rc).owned then 2 else 1
  {
    var u := Sent(io, n);
    var d := u.writeq[0];
    if d.watched {
      ReactRefs(Popped(u, d).(reports := u.reports + [Report(d.id, d.sent, true)]), rc);
    }
    hide React;
  }

  lemma WriteFailedRefs(io: Io, rc: Reaction, re: Reaction)
    requires io.refs == 2 && io.owned && io.writeq != []
    ensures WriteFailed(io, rc, re).refs == if WriteFailed(io, rc, re).owned then 2 else 1
  {
    var d := io.writeq[0];
    var u := Popped(io, d);
    CompletedRefs(u, d, false, rc);
    if d.watched {
      ReactRefs(u.(reports := u.reports + [Report(d.id, d.sent, false)]), rc);
    }
    hide React, Complained;
    ComplainedRefs(Completed(u, d, false, rc), re);
  }

  lemma WriteRefs(io: Io, ready: bool, result: int, rc: Reaction, re: Reaction)
    requires io.refs == 2 && io.owned && Accepts(io, result)
    ensures var u := HandleWrite(io, ready, result, rc, re);
            u.refs == if u.owned then 2 else 1
  {
    hide Wrote, WriteFailed;
    if ready && io.writeq != [] {
      if result >= 0 {
        WroteRefs(io, result, rc);
      } else {
        WriteFailedRefs(io, rc, re);
      }
    }
  }

  lemma ReadRefs(io: Io, ready: bool, received: int, rr: Reaction, re: Reaction)
    requires io.refs == 2 && io.owned
    ensures var u := HandleRead(io, ready, received, rr, re);
            u.refs == if u.owned then 2 else 1
  {
    ReactRefs(io, rr);
    ComplainedRefs(io, re);
  }
}

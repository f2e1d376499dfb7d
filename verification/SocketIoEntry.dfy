/** The socket object itself, updated in place by its source callbacks. Each method is
    tied to the function of module SocketIo that says what it does. */
module SocketIoEntry {
  import opened Base
  import opened SocketIo

  class FwdSocketIo {
    var refs: nat
    var owned: bool
    var errorSource: bool
    var readSource: bool
    var writeSource: bool
    var writeq: seq<Item>
    var released: bool
    var wire: seq<Byte>
    var left: seq<Item>
    var reports: seq<Report>
    var destroyed: seq<nat>
    var errors: nat
    var submitted: seq<nat>

    function View(): Io
      reads this
    {
      Io(refs, owned, errorSource, readSource, writeSource, writeq, released,
         wire, left, reports, destroyed, errors, submitted)
    }

    constructor ()
      ensures View() == CREATED
    {
      refs, owned, errorSource, readSource, writeSource, writeq, released := 1, true, true, false, false, [], false;
      wire, left, reports, destroyed, errors, submitted := [], [], [], [], 0, [];
    }

    method Drain()
      modifies this`writeq, this`left, this`destroyed
      ensures View() == Drained(old(View()))
    {
      ghost var q, gone, dead := writeq, left, destroyed;
      var i := 0;
      while writeq != []
        invariant 0 <= i <= |q| && writeq == q[i..]
        invariant left == gone + q[..i]
        invariant destroyed == dead + Ids(q)[..i]
        decreases |writeq|
      {
        var x := writeq[0];
        writeq := writeq[1..];
        left := left + [x];
        destroyed := destroyed + [x.id];
        i := i + 1;
      }
      assert q[..i] == q && Ids(q)[..i] == Ids(q);
    }

    method DoDispose()
      modifies this
      ensures View() == Disposed(old(View()))
    {
      errorSource, readSource, writeSource := false, false, false;
      Drain();
    }

    method DoUnref()
      requires refs > 0
      modifies this
      ensures View() == Unref(old(View()))
    {
      refs := refs - 1;
      if refs == 0 {
        DoDispose();
        released := true;
      }
    }

    method DoFree()
      requires owned ==> refs > 0
      modifies this
      ensures View() == Freed(old(View()))
    {
      if owned {
        owned := false;
        DoDispose();
        DoUnref();
      }
    }

    method DoSend(item: Item)
      modifies this`writeq, this`writeSource, this`submitted
      ensures View() == Queued(old(View()), item)
    {
      if owned {
        writeq := writeq + [item.(sent := 0)];
        submitted := submitted + [item.id];
        if !writeSource {
          writeSource := true;
        }
      }
    }

    // What the owner does in a callback.
    method Call(r: Reaction)
      requires owned ==> refs > 0
      modifies this
      ensures View() == React(old(View()), r)
    {
      match r {
        case Ignore =>
        case Free => DoFree();
        case Submit(items) =>
          ghost var io := View();
          var i := 0;
          while i < |items|
            invariant 0 <= i <= |items|
            invariant View() == QueuedAll(io, items[..i])
          {
            assert Front(items[..i + 1]) == items[..i];
            DoSend(items[i]);
            i := i + 1;
          }
          assert items[..i] == items;
      }
    }

    method Complete(d: Item, ok: bool, r: Reaction)
      requires owned ==> refs > 0
      modifies this
      ensures View() == Completed(old(View()), d, ok, r)
    {
      if d.watched {
        reports := reports + [Report(d.id, d.sent, ok)];
        Call(r);
      }
    }

    method Complain(r: Reaction)
      requires owned ==> refs > 0
      modifies this
      ensures View() == Complained(old(View()), r)
    {
      if errorSource {
        errorSource := false;
        errors := errors + 1;
        Call(r);
      }
    }

    method Transmit(n: nat)
      requires writeq != [] && writeq[0].sent + n <= |writeq[0].data|
      modifies this`wire, this`writeq
      ensures View() == Sent(old(View()), n)
    {
      var d := writeq[0];
      wire := wire + d.data[d.sent..d.sent + n];
      writeq := writeq[0 := d.(sent := d.sent + n)];
    }

    method PopHead()
      requires writeq != []
      modifies this`writeq, this`left
      ensures View() == Popped(old(View()), old(writeq)[0])
    {
      left := left + [writeq[0]];
      writeq := writeq[1..];
    }

    // The socket has taken n bytes of the head.
    method Advance(n: nat, rc: Reaction)
      requires refs >= 2 && writeq != [] && writeq[0].sent + n <= |writeq[0].data|
      modifies this
      ensures View() == Wrote(old(View()), n, rc)
    {
      hide Completed, Popped;
      Transmit(n);
      var d := writeq[0];
      if d.sent == |d.data| {
        PopHead();
        Complete(d, true, rc);
        destroyed := destroyed + [d.id];
        if writeq == [] {
          writeSource := false;
        }
      }
    }

    method FailHead(rc: Reaction, re: Reaction)
      requires refs >= 2 && writeq != []
      modifies this
      ensures View() == WriteFailed(old(View()), rc, re)
    {
      hide Completed, Complained;
      var d := writeq[0];
      writeq := writeq[1..];
      left := left + [d];
      CompletedRefs(View(), d, false, rc);
      Complete(d, false, rc);
      Complain(re);
      destroyed := destroyed + [d.id];
      writeSource := false;
    }

    method OnWritable(ready: bool, result: int, rc: Reaction, re: Reaction)
      requires refs >= 2 && Accepts(View(), result)
      modifies this
      ensures View() == HandleWrite(old(View()), ready, result, rc, re)
    {
      hide Wrote, WriteFailed;
      if ready && writeq != [] {
        if result >= 0 {
          Advance(result, rc);
        } else {
          FailHead(rc, re);
        }
      } else {
        writeSource := false;
      }
    }

    method OnReadable(ready: bool, received: int, rr: Reaction, re: Reaction)
      requires refs >= 2
      modifies this
      ensures View() == HandleRead(old(View()), ready, received, rr, re)
    {
      if ready {
        if received > 0 {
          Call(rr);
          return;
        }
        Complain(re);
      }
      readSource := false;
    }

    // A source callback holds a reference of its own.
    method WriteSourceCallback(ready: bool, result: int, rc: Reaction, re: Reaction)
      requires owned && refs == 1 && writeSource && Accepts(View(), result)
      modifies this
      ensures View() == Step(old(View()), Write(ready, result, rc, re))
    {
      ghost var io := View();
      WriteRefs(Held(io), ready, result, rc, re);
      hide HandleWrite, Unref;
      refs := refs + 1;
      OnWritable(ready, result, rc, re);
      DoUnref();
    }

    method ReadSourceCallback(ready: bool, received: int, rr: Reaction, re: Reaction)
      requires owned && refs == 1 && readSource
      modifies this
      ensures View() == Step(old(View()), Read(ready, received, rr, re))
    {
      ghost var io := View();
      ReadRefs(Held(io), ready, received, rr, re);
      hide HandleRead, Unref;
      refs := refs + 1;
      OnReadable(ready, received, rr, re);
      DoUnref();
    }

    method ErrorSourceCallback(re: Reaction)
      requires owned && refs == 1 && errorSource
      modifies this
      ensures View() == Step(old(View()), Broken(re))
    {
      ghost var io := View();
      ComplainedRefs(Held(io), re);
      hide Complained, Unref;
      refs := refs + 1;
      Complain(re);
      DoUnref();
    }
  }
}

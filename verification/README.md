# Verified model of the libfwd datagram engine

libfwd forwards sockets between two peers over an RPC connection. This project models the
parts of it whose correctness is hard to see from any one function, and proves what they
keep over whole runs:

* the peer's socket table and the two maps of every datagram listener and local forwarder,
  with removal as it really runs: destroy callbacks and "removed" signals re-enter the same
  tables (`Table*.dfy`, `Peer.dfy`), down to the disposal of the peer (`TableDisposal.dfy`);
* the datagram connection, its queue and its exact send order (`Connection.dfy`), and what it
  has been through on the events alone, its last activity included (`Lives.dfy`);
* expiries, the choice of a victim and the inactivity timer (`Pool.dfy`), and the local
  forwarder that uses them (`ForwardLocal.dfy`, `LocalTraces.dfy`);
* the datagram listener with its ACCEPT queue and its backlog (`Listen*.dfy`);
* the ACCEPT / ACCEPTED / SOCKET / CONNECT / DATA / CLOSE protocol between two peers, the order
  of packets from end to end in both directions, where they go, and progress (`Link*.dfy`);
* the asynchronous write queue of a socket (`SocketIo*.dfy`), the operation lists of entries
  (`Ops*.dfy`), the peer state, its signals and the start of entries (`PeerState.dfy`,
  `PeerSignals.dfy`, `PeerStarts.dfy`), and the allocation of socket ids (`SocketIds.dfy`);
* the messages (`Tlv.dfy`, `Messages.dfy`, `SocketMessages.dfy`).

Objects that the program updates in place are classes here, with loops where the program has
loops. Each method is proved equal to a function on plain values, or, in `LinkEntries.dfy`, to
the part of a step of the two peers that concerns the object; and what the program promises is
proved about those functions and steps, over every run of events. `TableView.dfy` and
`Engine*.dfy` put the engine together: listeners and forwarders run side by side on the shared
tables, and over every run each sees there exactly the connections that its own run has.

Runs are also tied to their events alone. `LocalTraces`, `ListenTraces`, `ListenFates`,
`LinkTraces`, `LinkReplies`, `LinkTargets`, `LinkSlots`, `SocketIoTraces`, `OpsRuns` and
`PeerSignals` each define from the events what should have happened (what a connection was
given, when it was active last, where a packet has to go, which reports are due), and prove
that the state is exactly that.

`dafny verify dfyconfig.toml` checks everything.

## What turned out to be different from what one would expect

* **The listener's cap and ties.** The listener inserts a new connection before it evicts, and
  the socket table does not know the new one yet. If all expiries are equal the new one can be
  chosen, its removal finds nothing, and the cap is exceeded. `ListenRuns.LimitExactly` gives
  the exact condition, `ListenRuns.TieExceedsLimit` an instance, and `ListenRuns.LimitKept`
  shows that an advancing clock excludes it. The local forwarder evicts first and never exceeds
  its cap.
* **Waiting senders are not timed on their own.** Without a connection the timer is not armed,
  so pending datagrams are not dropped until some connection is made
  (`ListenRuns.WaitingIsUntimed`; `ListenRuns.LonelySender` is a run). A new connection of a
  local forwarder leaves the timer idle if and only if it is the first
  (`ForwardLocal.FirstConnectionIsUntimed`), and so does one that a listener makes for a sender
  that has waited (`ListenFates.NewcomerIsTimed`). Over a run, without a timer there is at most
  one connection, and it has not been touched yet (`ForwardLocal.UntimedIsAlone`,
  `ListenFates.UntimedIsAlone`).
* **A full backlog makes room before it looks for the sender.** A waiting sender that is heard
  again keeps what it had waiting if and only if the backlog was not full or it was not at its
  head (`ListenRuns.PurgeHitsSender`; in the run `ListenRuns.LonelySender` it loses its datagram).
* **The listener's checks can follow one another without a pause.** A check drops connections
  up to a millisecond before their time, but waiting senders only when their time is up. If a
  sender that stays expires within the millisecond, and connections stay too, the next check is
  due at once (`ListenRuns.NextCheckExactly`).
* **Sends overtake the queue** between the moment the counterpart is known and the flush
  (`Connection.SendOrder` states the exact order).
* **A start callback that removes or replaces another entry does not keep it from being
  started.**
  `PeerStarts.StartedAfterRemoval` says, for every table and all callbacks, when an entry is
  started although it has left the table.
* **A start callback that stops the peer hides STARTED.** The handlers of the state signal then
  see STOPPED twice and STARTED never (`PeerSignals.SignalsExactly`; `PeerSignals.StoppedTwice`
  is a run).
* **After a send error the rest of the write queue waits** until something else is submitted,
  unless a callback disposes of the object (`SocketIoRuns.WriteStallsExactly` gives the exact
  condition on the queue, the outcome of the write and the callbacks).
* **The error code of a DATA response never reaches the sender**
  (`SocketMessages.DataErrorIsLost`).
* **A SOCKET request without an address family** takes it from the address, where PROTOCOL
  calls for AF_INET; `Messages.FamilyFromAddress` says for which requests this makes a
  difference. **Zero backlog, timeout and connection limit** are taken as if they were missing,
  although PROTOCOL calls for non-zero values (`Messages.ZeroCountsAsAbsent`, with the exact
  condition). The model follows the code.

## Assumptions

* Removing a key from a GLib hash table unlinks it and then runs its destroy callback; removing
  all keys empties the table first. The order in which an iterator visits a table is arbitrary:
  it is a parameter.
* Clock readings are parameters. They never decrease, and a timer never goes off early.
  Theorems that need more (an advancing clock, one reading per check) say so.
* RPC requests, responses and cancellations of one connection arrive in the order in which they
  were sent, and submitting a CONNECT does not fail (if it did, the connection would never be
  flushed and its later packets would reach a socket that is not connected). Ids are not used
  again during a run of `Link`; `SocketIds.NoReuseWithinSpan` shows
  that the allocator needs 2^28 steps for that.
* A timeout in microseconds fits 32 bits, and a timer value fits an int.
* Cancelling an RPC call runs its destroy callback before the cancellation returns.
* The number and record decoders of libgutil are not part of the repository; they are modelled
  from section 1 of PROTOCOL. The value of a missing record counts as empty, and records with a
  repeated known tag are not considered. The host is little-endian.

## Model

| member | source | states |
|---|---|---|
| TableRuns.RunsStaySettled | src/fwd_peer.c:499-662 | Over every run of insertions, removals, CLOSE requests, expiries and updates: both maps of every parent are exact mirrors of each other and of its part of the socket table, every reference count is exact, and inserted entries = present entries + "removed" signals, as multisets |
| TableRuns.SettledStep | src/fwd_peer.c:627-662 | One top-level event, with everything it re-enters, leads from settled tables to settled tables |
| TableRuns.StepBalance | src/fwd_peer.c:627-662 | An event adds to "present + signalled" exactly the ids it inserts |
| TableRuns.CloseDoesNotEcho | src/fwd_entry_datagram_connection.c:307-347 | The entry named by an incoming CLOSE sends no CLOSE for its own link, be it a connection or a listener |
| TableDisposal.PeerDisposed | src/fwd_peer.c:530-537 | The peer is disposed of from settled tables, the destroy callbacks running in any order: none meets a connection or parent already freed; in the end all are freed and no reference or signal handler is left; no "removed" signal is emitted; every connection and listener with a counterpart has closed it once |
| TableDisposal.NeverBack | src/fwd_peer.c:530-537 | A destroy callback brings back nothing that has been freed, so that each connection and parent is freed once |
| TableDisposal.LetGoIsDetached | src/fwd_entry_datagram_listen.c:336-346 | Once the socket table is empty, the destroy callback of an address map only stops its connection and drops a reference |
| TableSettled.SignalledOnce | src/fwd_peer.c:652-662 | A removal takes out the entry and, for a listener or forwarder, all its connections, and emits exactly one signal for each entry that left |
| TableSettled.SettledConnRemoved | src/fwd_entry_datagram_listen.c:336-365 | Removing one connection of a settled table frees it and leaves the tables settled |
| TableSettled.SettledParentRemoved | src/fwd_entry_datagram_listen.c:556-576 | Removing a listener or local forwarder frees it and all its connections and leaves the tables settled |
| TableSettled.NoKeyReplaced | src/fwd_entry_datagram_listen.c:378-386 | A fresh id and a new address are in no map of any parent, so inserting replaces nothing |
| TableSettled.SettledAdded | src/fwd_entry_datagram_listen.c:367-391 | Inserting a connection into both maps and the socket table keeps the tables settled |
| TableSettled.EvictWhileShared | src/fwd_entry_datagram_listen.c:378-386 | Evicting a connection while the newcomer is in the maps but not in the socket table does the same as evicting it first |
| TableSettled.RemovedInv | src/fwd_peer.c:652-662 | Removal keeps mirrors, reference counts and uniqueness at every callback boundary, also with references in hand |
| TableSweep.SweepOne | src/fwd_entry_datagram_connection.c:513-537 | Removing a connection on which a temporary reference is held is removing it, except that its memory stays |
| TableSweep.SweepStep | src/fwd_entry_datagram_connection.c:527-532 | The i-th removal of the inactivity check leads from the i-th to the next intermediate state |
| TableSweep.DropEnds | src/fwd_entry_datagram_connection.c:534-536 | After the last temporary reference is dropped the tables are those from which the expired connections were removed one by one |
| TableView.RemovedSeen | src/fwd_entry_datagram_forward_local.c:126-141 | Removing a connection takes exactly its address out of its parent's view and changes no other view |
| TableView.LocalInsertion | src/fwd_entry_datagram_forward_local.c:226-245 | Evicting and inserting in the shared tables is, as the forwarder sees it, what module ForwardLocal takes it to be, and no other parent sees a change |
| TableView.ListenInsertion | src/fwd_entry_datagram_listen.c:367-391 | Inserting and then evicting in the shared tables is, as the listener sees it, what module Listen takes it to be, the newcomer as victim included, and no other parent sees a change |
| TableView.ExpiredSeen | src/fwd_entry_datagram_connection.c:490-539 | Removing exactly the expired connections of a parent from the shared tables leaves it with exactly the unexpired ones, and no other parent sees a change |
| TableView.UpdatedSeen | src/fwd_entry_datagram_connection.c:113-122 | A callback that changes a connection changes it under its own address, in its parent's view alone |
| EngineRuns.EveryParentSeesItsRun | src/fwd_entry_datagram_listen.c:336-391 | Over every run of any number of listeners, local forwarders, removals and CLOSE requests on shared tables: the tables are those of a run of TableRuns, and each parent sees in them exactly the connections of its own run of Listen or ForwardLocal |
| EngineRuns.SharedTablesObey | src/fwd_entry_datagram_forward_local.c:210-246 | So over every such run the address map of a local forwarder in the shared tables never exceeds its limit, and no sender in a listener's backlog is in the listener's address map |
| EngineRuns.NextAgrees | src/fwd_peer.c:499-662 | Every event at a listener, a forwarder or the peer keeps that agreement for all parents |
| Engine.LocalSees | src/fwd_entry_datagram_forward_local.c:152-246 | A forwarder's event does to its view in the shared tables what it does in its run, and nothing to what any other parent sees |
| Engine.ListenSees | src/fwd_entry_datagram_listen.c:280-539 | A listener's event does to its view in the shared tables what it does in its run, and nothing to what any other parent sees |
| EngineParents.ParentRemovedSees | src/fwd_entry_datagram_listen.c:556-576 | The removal of a listener or forwarder changes nothing that another parent sees |
| EngineParents.ClosedConnSees | src/fwd_peer.c:499-523 | A CLOSE for a connection takes exactly its address out of its parent's view, and changes no other view |
| Peer.FwdPeer.EntryRemove | src/fwd_peer.c:652-662 | Removal by mutually recursive callbacks terminates and ends in the closed form of removal, keeping the invariant |
| Peer.FwdPeer.DisposeConnCb | src/fwd_entry.c:82-90 | The destroy callback of the socket table disposes of the connection, sends its CLOSE if it has a counterpart, and drops one reference |
| Peer.FwdPeer.UnrefConn | src/fwd_entry.c:56-66 | Dropping a reference frees the connection exactly when it was the last one |
| Peer.FwdPeer.EmitRemoved | src/fwd_peer.c:659-661 | Running the handlers of all connected parents has the effect of the one parent that knows the id |
| Peer.FwdPeer.HandlerRemoved | src/fwd_entry_datagram_listen.c:348-365 | A handler forgets the connection in both maps if it knows its id, and does nothing otherwise |
| Peer.FwdPeer.ForgetConn | src/fwd_entry_datagram_listen.c:358-361 | The connection leaves id_map and addr_map together, and addr_map's reference is in hand |
| Peer.FwdPeer.ConnectionRemove | src/fwd_entry_datagram_listen.c:336-346 | The destroy callback of addr_map stops the connection, removes it from the socket table if it is still there, and drops the reference |
| Peer.FwdPeer.ParentDispose | src/fwd_entry_datagram_listen.c:556-576 | Disposing of a parent removes all its connections and both its maps |
| Peer.FwdPeer.ParentFree | src/fwd_entry_datagram_listen.c:569-575 | A listener closes its counterpart last, a forwarder has none; the parent stops listening to signals |
| Peer.FwdPeer.MapsRemoveAll | src/fwd_entry_datagram_listen.c:566-567 | Both maps are emptied before the first destroy callback runs, and every child is then removed and freed |
| Peer.FwdPeer.DropKids | src/fwd_entry_datagram_forward_local.c:270-274 | Any order of destroy callbacks over the children has the same effect |
| Peer.FwdPeer.ListenConnectionNew | src/fwd_entry_datagram_listen.c:367-391 | Insert, evict, hand over: the result is an eviction followed by an insertion, or only an insertion if the victim is the newcomer |
| Peer.FwdPeer.LocalConnectionNew | src/fwd_entry_datagram_forward_local.c:226-245 | Evict, insert, hand over: the tables stay settled |
| Peer.FwdPeer.HandleClose | src/fwd_peer.c:499-523 | The close callback and the removal by id together remove the entry once |
| Peer.FwdPeer.CloseCallback | src/fwd_entry_datagram_connection.c:307-320 | An entry with a counterpart forgets it and removes itself; a local forwarder cannot be closed |
| Peer.FwdPeer.Expire | src/fwd_entry_datagram_connection.c:512-537 | Taking temporary references, removing all and dropping the references equals removing the connections one after the other |
| Connection.SendOrder | src/fwd_entry_datagram_connection.c:124-219 | Over every run, the DATA calls are exactly: what arrived between link and flush, then the queue in order, then the rest; only the first flushed one carries the source; a connection that is still there has submitted nothing else but, if it makes its own counterpart, one CONNECT to its destination; it queues what it has not sent |
| Lives.ExpiryIsActivity | src/fwd_entry_datagram_connection.c:113-122 | Over every run of events: the expiry is the timeout after the last activity, and activity is being made, a datagram that finds the counterpart known, the flush of the queue, and a reply |
| Lives.EventTouches | src/fwd_entry_datagram_connection.c:113-122 | An event asks the parent to check its timer if and only if it counts as activity |
| Connection.DatagramConnection.constructor | src/fwd_entry_datagram_connection.c:372-403 | A new connection has its packets queued, its expiry set and no counterpart |
| Connection.DatagramConnection.DoTouch | src/fwd_entry_datagram_connection.c:113-122 | The expiry moves, and the parent is asked to check its timer if there is one |
| Connection.DatagramConnection.DoFlush | src/fwd_entry_datagram_connection.c:124-150 | The queue becomes DATA calls in order, the source address going with the first, once |
| Connection.DatagramConnection.DoStart | src/fwd_entry_datagram_connection.c:230-254 | Starting submits one SOCKET call for the connection's own id |
| Connection.DatagramConnection.OnSocketCreated | src/fwd_entry_datagram_connection.c:187-224 | The counterpart is kept and connected, closed if there is one already, and an error asks for removal |
| Connection.DatagramConnection.OnSocketConnected | src/fwd_entry_datagram_connection.c:164-185 | Success flushes the queue and asks the parent to check its timer, failure asks for removal |
| Connection.DatagramConnection.OnAccepted | src/fwd_entry_datagram_connection.c:256-274 | The first non-zero counterpart id is taken and the flush armed; anything else is refused |
| Connection.DatagramConnection.OnFlushIdle | src/fwd_entry_datagram_connection.c:152-162 | The idle source is gone, the queue flushed, and the parent asked to check its timer if there was a queue |
| Connection.DatagramConnection.OnReply | src/fwd_entry_datagram_connection.c:276-305 | A reply touches the connection, with the check of the timer, and goes to the shared socket while there is one |
| Connection.DatagramConnection.DoSend | src/fwd_entry_datagram_connection.c:461-481 | A packet is sent at once if the counterpart is known, touching the connection, else queued while there is a queue |
| Connection.DatagramConnection.OnClose | src/fwd_entry_datagram_connection.c:307-320 | The counterpart is forgotten, and removal follows if there was one |
| Connection.DatagramConnection.DoDispose | src/fwd_entry_datagram_connection.c:322-347 | Everything is let go of, and a known counterpart is closed, once |
| Pool.FindOldest | src/fwd_entry_datagram_connection.c:541-561 | The loop finds the first connection in iteration order that no other precedes in expiry |
| Pool.FirstMinimumIsUnique | src/fwd_entry_datagram_connection.c:555-559 | There is exactly one such connection, so ties are decided by iteration order alone |
| Pool.CollectExpired | src/fwd_entry_datagram_connection.c:505-527 | The loop collects, once each, exactly the connections that expire within a millisecond |
| Pool.ComputeTimeoutMs | src/fwd_entry_datagram_connection.c:575-598 | The result is -1 for an empty table, else the whole milliseconds to the least of all expiries and the pending head, never negative |
| Pool.ArmedInTime | src/fwd_entry_datagram_connection.c:581-597 | A timer just armed is due no later than the larger of now and the earliest expiry, and less than a millisecond before that |
| Pool.FiringDropsItsTarget | src/fwd_entry_datagram_connection.c:500-539 | When it goes off, the connection it was armed for is dropped unless touched or gone, and nothing is dropped a millisecond early |
| Pool.NextCheckIsLater | src/fwd_entry_datagram_connection.c:500-598 | With one clock reading the next check is at least a millisecond away |
| Pool.NextCheckWithHead | src/fwd_entry_datagram_connection.c:575-598 | With one clock reading and connections left, the next check is a millisecond away unless the head of the backlog expires before that; then it is due at once |
| ForwardLocal.RunsAreGood | src/fwd_entry_datagram_forward_local.c:152-277 | Every run of a local forwarder keeps its cap, its timer and the progress of its checks |
| ForwardLocal.LocalForwarderKeeps | src/fwd_entry_datagram_forward_local.c:152-246 | Over every run: at most limit connections; a touched connection has the timer armed; the alarm outlasts no connection; with one reading per check an idle connection is gone after at most timeout / 1 ms checks |
| ForwardLocal.EvictsOldest | src/fwd_entry_datagram_forward_local.c:234-242 | A full table loses exactly one connection, active no later than any other, and gains the newcomer |
| ForwardLocal.FirstConnectionIsUntimed | src/fwd_entry_datagram_connection.c:401-402 | A new connection leaves the timer idle if and only if it was idle and the table empty, because the constructor touches before the insertion |
| ForwardLocal.UntimedIsAlone | src/fwd_entry_datagram_forward_local.c:152-246 | Over every run: without a timer there is at most one connection, and it has not been touched since it was inserted |
| LocalTraces.SendersKeepOrder | src/fwd_entry_datagram_forward_local.c:210-246 | Over every run, for every connection, from the events: it is for the forwarder's destination; it has submitted SOCKET if and only if the peer was STARTED when it was made, CONNECT once it knew its counterpart, and, in the exact send order, DATA for the datagrams received from its address since it was made, the first one included; it queues the others; it expires a timeout after its last activity; and it counts as touched, and as checked so many times since, exactly when it was |
| LocalTraces.GoesExactly | src/fwd_entry_datagram_forward_local.c:152-246 | Over every run: an event makes a connection go if and only if the table is full and it is first in expiry and iteration order when a sender is new, its counterpart cannot be had, it is removed, or a check comes later than a millisecond before a timeout after its last activity |
| LocalTraces.NothingAfterDisposal | src/fwd_entry_datagram_forward_local.c:263-277 | Only disposal ends a forwarder, and then neither a connection nor a timer is left |
| ForwardLocal.DatagramForwardLocal.constructor | src/fwd_entry_datagram_forward_local.c:334-337 | Zero timeout and zero limit stand for the defaults, 60 s and 128 |
| ForwardLocal.DatagramForwardLocal.ScheduleCheck | src/fwd_entry_datagram_forward_local.c:170-190 | An armed timer is left alone; otherwise it is armed if the table is not empty |
| ForwardLocal.DatagramForwardLocal.IoReceive | src/fwd_entry_datagram_forward_local.c:210-246 | A known sender's packet goes to its connection; a new sender gets a connection after an eviction if the table is full, started if the peer is STARTED |
| ForwardLocal.DatagramForwardLocal.InactivityCheck | src/fwd_entry_datagram_forward_local.c:152-168 | Exactly the expired connections go, and the timer is armed again for the rest |
| ForwardLocal.DatagramForwardLocal.DoDispose | src/fwd_entry_datagram_forward_local.c:263-277 | The timer is cleared and the tables emptied |
| ListenRuns.RunsAreGood | src/fwd_entry_datagram_listen.c:280-576 | Every run of a listener, over every interleaving of datagrams, ACCEPTs, cancellations, callbacks, removals and checks, keeps all the invariants below |
| ListenRuns.QueuesKept | src/fwd_entry_datagram_listen.c:423-539 | Over every interleaving: never both an ACCEPT and a sender waiting; one pending entry per sender, none with a connection; backlog sorted and within its bound |
| ListenRuns.PacketsConserved | src/fwd_entry_datagram_listen.c:423-539 | Over every run, each datagram is as often in a DATA call, a connection queue, a pending entry or discarded, taken together, as it was received |
| ListenRuns.DiscardsOnlyForRoom | src/fwd_entry_datagram_listen.c:423-539 | Below the limit and with room in the backlog, neither a datagram nor an ACCEPT makes the listener discard anything |
| ListenRuns.AcceptsInOrder | src/fwd_entry_datagram_listen.c:130-183 | Completed followed by waiting ACCEPTs = submitted ones without those cancelled while waiting, in submission order |
| ListenRuns.TimerNeverLost | src/fwd_entry_datagram_listen.c:280-330 | A connection touched since insertion has the timer armed, and the alarm outlasts neither a connection nor a waiting sender |
| ListenRuns.LimitKept | src/fwd_entry_datagram_listen.c:378-386 | Under a clock that advances between datagrams and ACCEPTs the listener never exceeds its limit |
| ListenRuns.LimitExactly | src/fwd_entry_datagram_listen.c:378-386 | One insertion keeps the limit if and only if there was room or the newcomer is not first in expiry and iteration order |
| ListenRuns.EvictsOldest | src/fwd_entry_datagram_listen.c:384-386 | If some connection expires before the newcomer, exactly one goes, active no later than any other |
| ListenRuns.TieExceedsLimit | src/fwd_entry_datagram_listen.c:378-386 | A whole run with a limit of one, two waiting ACCEPTs and two senders heard within one clock reading ends with two connections |
| ListenRuns.CheckIsExact | src/fwd_entry_datagram_listen.c:289-319 | The pop loop drops all and only the senders whose time is up, and the head is the least expiry the timer has to regard |
| ListenRuns.NextCheckExactly | src/fwd_entry_datagram_listen.c:280-330 | After a check at one clock reading that leaves connections, the next is due a millisecond later or more if and only if no sender that still waits expires before that; otherwise it is due at once |
| ListenRuns.WaitingIsUntimed | src/fwd_entry_datagram_listen.c:485-494 | Queuing a datagram leaves an idle timer idle if and only if there is no connection or the sender was waiting already |
| ListenRuns.PurgeHitsSender | src/fwd_entry_datagram_listen.c:457-494 | A waiting sender that is heard again keeps what it had waiting if and only if the backlog was not full or it was not at its head (or had nothing waiting) |
| ListenRuns.LonelySender | src/fwd_entry_datagram_listen.c:457-494 | A whole run with a backlog of one in which both happen: a sender heard twice loses its first datagram, and no timer is armed for the second |
| ListenTraces.SendersWaitInOrder | src/fwd_entry_datagram_listen.c:451-494 | Over every run: what waits for a sender is, in order, what has been received from it since its pending entry was opened, and it waits until a timeout after the last of it |
| ListenTraces.SendersKeepOrder | src/fwd_entry_datagram_listen.c:423-539 | Over every run, for every connection, from the events: it was made with what had been received from its sender since the pending entry was opened, in order of receipt, or with the datagram that found an ACCEPT waiting; it has submitted exactly DATA, in the exact send order, for that and for what has been received since, and queues the rest; it expires a timeout after its last activity |
| ListenFates.GoesExactly | src/fwd_entry_datagram_listen.c:280-391 | Over every run: an event makes a connection go if and only if a newcomer exceeds the limit and it is first in expiry and iteration order, it is removed, or a check comes later than a millisecond before a timeout after its last activity |
| ListenFates.WaitsExactly | src/fwd_entry_datagram_listen.c:289-296 | Over every run: a sender starts to wait if and only if it is heard without a connection and without a waiting ACCEPT, and stops if and only if it is at the head and an ACCEPT comes or a full backlog needs room for another sender, or a check comes a timeout after it was last heard |
| ListenFates.AnswersNameConnections | src/fwd_entry_datagram_listen.c:441-449 | Every response to an ACCEPT names id and sender of the one connection made in that step, and no connection is made without one |
| ListenFates.NewcomerIsTimed | src/fwd_entry_datagram_listen.c:441-449 | A connection made for a datagram leaves the timer armed; one made for an ACCEPT leaves it idle if and only if it was idle and the table empty |
| ListenFates.UntimedIsAlone | src/fwd_entry_datagram_listen.c:309-330 | Over every run: without a timer there is at most one connection, and it has not been active since it was made |
| ListenFates.NothingAfterDisposal | src/fwd_entry_datagram_listen.c:556-576 | Only disposal ends a listener, and then no connection, no request, no sender and no timer is left |
| ListenBacklog.SortIsStable | src/fwd_entry_datagram_listen.c:256-269 | Sorting the backlog keeps the order of entries with equal expiries |
| ListenBacklog.PopIsFilter | src/fwd_entry_datagram_listen.c:289-296 | On a sorted backlog popping expired heads equals filtering |
| ListenBacklog.CancelKeepsOrder | src/fwd_entry_datagram_listen.c:130-156 | Cancelling waiting ACCEPTs takes them out of the line and changes nothing for the others |
| ListenPackets.CallbackConserves | src/fwd_entry_datagram_connection.c:124-150 | No callback of a connection loses or duplicates a packet |
| ListenEntry.DatagramListen.constructor | src/fwd_entry_datagram_listen.c:634-637 | Zero backlog, timeout and limit stand for the defaults, 10, 60 s and 128 |
| ListenEntry.DatagramListen.ScheduleCheck | src/fwd_entry_datagram_listen.c:309-330 | An idle timer is armed for the least of the connections' expiries and the pending head |
| ListenEntry.DatagramListen.ConnectionNew | src/fwd_entry_datagram_listen.c:367-391 | The newcomer is in the maps when the victim is chosen; removing an entry the socket table does not know does nothing |
| ListenEntry.DatagramListen.DropOldest | src/fwd_entry_datagram_connection.c:541-572 | The first connection in expiry and iteration order goes, unless it is the newcomer, which the socket table does not know |
| ListenEntry.DatagramListen.Purge | src/fwd_entry_datagram_listen.c:457-464 | Heads are popped until there is room for one more |
| ListenEntry.DatagramListen.PopHead | src/fwd_entry_datagram_listen.c:246-254 | The oldest waiting sender goes, with all its datagrams |
| ListenEntry.DatagramListen.Enqueue | src/fwd_entry_datagram_listen.c:450-495 | After the purge, a sender already waiting gets one more packet and a later expiry and the queue is sorted; a new one goes to the tail |
| ListenEntry.DatagramListen.AnswerOldest | src/fwd_entry_datagram_listen.c:441-449 | The oldest ACCEPT is completed with a new connection for the sender |
| ListenEntry.DatagramListen.IoReceive | src/fwd_entry_datagram_listen.c:423-498 | A datagram goes to the sender's connection, to the oldest ACCEPT, or to the backlog |
| ListenEntry.DatagramListen.OnAccept | src/fwd_entry_datagram_listen.c:515-539 | An ACCEPT takes the head of the backlog, with all its packets, or waits |
| ListenEntry.DatagramListen.OnCancelled | src/fwd_entry_datagram_listen.c:130-156 | Exactly the cancelled ACCEPT leaves the queue |
| ListenEntry.DatagramListen.InactivityCheck | src/fwd_entry_datagram_listen.c:280-307 | Expired senders and connections go, and the timer is armed for the rest |
| ListenEntry.DatagramListen.DropExpiredConns | src/fwd_entry_datagram_listen.c:298-299 | Exactly the expired connections go |
| ListenEntry.DatagramListen.DropExpiredPending | src/fwd_entry_datagram_listen.c:289-296 | The pop loop over waiting senders |
| ListenEntry.DatagramListen.DoDispose | src/fwd_entry_datagram_listen.c:556-576 | Both queues and both maps are emptied and the timer cleared |
| LinkRuns.RunsKeep | src/fwd_entry_datagram_connection.c:187-274 | Every run of two peers, over every interleaving of local events and deliveries, keeps all four link invariants below |
| LinkRuns.LinksAreSymmetric | src/fwd_entry_datagram_connection.c:187-274 | Over every run of two peers, a connection's counterpart is the socket made for it, so no two connections share one |
| LinkRuns.PacketsStayInTheirLink | src/fwd_entry_datagram_socket.c:124-140 | A reply received by the socket made for a source is only ever written to that source's address, and a socket forwards only its own connection's packets |
| LinkRuns.DataFindsItsSocketConnected | src/fwd_entry_datagram_socket.c:179-207 | CONNECT precedes DATA: the assertions of the data handler never fail |
| LinkRuns.ClosedAtMostOnce | src/fwd_entry_datagram_connection.c:337-341 | Of all messages of a run, each side sends at most one CLOSE for a link, two in all, and none while its own end is alive |
| LinkRuns.CloseDoesNotEcho | src/fwd_entry_datagram_socket.c:209-244 | If a step of a run delivers a CLOSE to a connection or a socket that is there, that entry sends no CLOSE at any time of the whole run |
| LinkRuns.AcceptsAreAnsweredOnce | src/fwd_entry_datagram_forward_remote.c:151-205 | Over every run, a successful ACCEPT response for a connection reaches a live forwarder at most once; the step that delivers it sends exactly one of ACCEPTED and CLOSE and asks again; no ACCEPTED is sent otherwise, and if none was, exactly one CLOSE was |
| LinkDelivery.FirstInFirstOut | src/fwd_entry_datagram_socket.c:179-207 | Over every run: the packets a live socket has passed on, followed by those under way to it, are all those ever sent to it, in the same order |
| LinkTraces.ConnectionsRun | src/fwd_entry_datagram_connection.c:124-219 | Over every run of two peers: each connection is a run of module Connection on the events the run has for it, and its DATA messages are, in order, the DATA calls of that run |
| LinkTraces.EndToEnd | src/fwd_entry_datagram_connection.c:124-219 | Over every run: what a live socket has passed on, followed by what is under way to it, is what its connection was given between learning of the socket and the flush and, once flushed, what it was given before and then what it was given afterwards |
| LinkReplies.RepliesInOrder | src/fwd_entry_datagram_socket.c:124-140 | Over every run, from the arrivals at the socket: what has been written to the source for a socket whose connection is alive, followed by what is under way to that, is what the socket has received, in order |
| LinkReplies.WrittenHome | src/fwd_entry_datagram_connection.c:281-304 | And all of it was written to the connection's source address |
| LinkTargets.PacketsGoToTheirTarget | src/fwd_entry_datagram_socket.c:157-207 | Over every run: every packet that a socket has passed on went to the one destination it was given, which is that of the connection that asked for the socket, or of the remote forwarder that accepted the connection |
| LinkProgress.NothingIsStuck | src/fwd_entry_datagram_connection.c:124-274 | When nothing is under way, a live connection without a flush due that has a socket knows it and is flushed; the socket has passed on everything the connection was ever given, in order; and everything the socket received has been written to the source |
| LinkProgress.LocalsAreLinked | src/fwd_entry_datagram_connection.c:148-219 | When nothing is under way, every live connection that makes its own counterpart has it and is flushed |
| LinkProgress.ProgressStep | src/fwd_entry_datagram_connection.c:148-219 | Every step keeps it so that a connection that waits for its socket or its CONNECT has a message under way, and a socket that its connection does not know yet is being announced |
| LinkLeaving.WhoLeavesCloses | src/fwd_entry_datagram_connection.c:325-347 | Over every run: whatever makes one end of a link go, except the CLOSE of the other end, puts a CLOSE for the other end on the channel |
| LinkSlots.SlotsExactly | src/fwd_entry_datagram_forward_remote.c:193-205 | Over every run: a slot of a remote forwarder has its ACCEPT outstanding if and only if no failure has been delivered for it |
| LinkDelivery.StepMoves | src/fwd_entry_datagram_socket.c:179-207 | A step passes on the packet of the DATA it delivers and nothing else, makes new sockets under new ids only, and what an id was made for never changes |
| LinkCounts.LogsCount | src/fwd_entry_datagram_forward_remote.c:151-205 | Over every run the history counters are the numbers of CLOSE and ACCEPTED messages sent and of ACCEPT responses delivered to a waiting slot |
| LinkCounts.StepSends | src/fwd_entry_datagram_forward_remote.c:151-205 | Every step takes at most one message off a channel and puts certain messages on, and the counters grow by exactly these |
| LinkSilence.StepShape | src/fwd_entry_datagram_connection.c:307-347 | A step sends a CLOSE only for a connection that is there, to the socket made for it, or for a socket that is there or an ACCEPT not decided on; ids are not reused |
| LinkSilence.ConnectionFallsSilent | src/fwd_entry_datagram_connection.c:307-347 | The connection that a CLOSE reaches, with its close callback, its removal and its disposal, has gone without closing any socket made for it |
| LinkSilence.SocketFallsSilent | src/fwd_entry_datagram_socket.c:209-244 | The socket that a CLOSE reaches has gone without closing its connection, and no other socket will be made for that |
| LinkRuns.OneAcceptPerSlot | src/fwd_entry_datagram_forward_remote.c:193-238 | Each of the two slots has at most one ACCEPT under way or waiting, and none when idle |
| LinkKinds.ApplyShape | src/fwd_entry_datagram_connection.c:187-274 | A callback gives a connection its counterpart at most once, and sends DATA and CONNECT only to it |
| LinkKinds.KindsStep | src/fwd_entry_datagram_forward_remote.c:151-205 | Every message under way names ids that were made for each other, and every step keeps that |
| LinkOnce.OnceStep | src/fwd_entry_datagram_forward_remote.c:151-205 | The counterpart of a connection is decided once, and every step keeps that |
| LinkOrder.OrderStep | src/fwd_entry_datagram_connection.c:189-224 | Ahead of every DATA under way there is a CONNECT unless the socket is connected, and every step keeps that |
| LinkEntries.DatagramSocket.constructor | src/fwd_entry_datagram_socket.c:264-302 | A socket made for an ACCEPT is connected from the start |
| LinkEntries.DatagramSocket.OnConnect | src/fwd_entry_datagram_socket.c:157-177 | The object stays the socket of the two-peer world after the CONNECT has been handled there, no other socket changes, and it submits what that step sends |
| LinkEntries.DatagramSocket.OnData | src/fwd_entry_datagram_socket.c:179-207 | The object passes on, or refuses, exactly the packets that handling the DATA passes on or drops in the two-peer world |
| LinkEntries.DatagramSocket.OnReceive | src/fwd_entry_datagram_socket.c:124-140 | The object submits what the step of the two-peer world sends, and no socket changes |
| LinkEntries.DatagramSocket.OnClose | src/fwd_entry_datagram_socket.c:209-227 | Close callback and disposal together leave the two-peer world as the handling of the CLOSE does, with the socket gone and nothing sent |
| LinkEntries.DatagramSocket.DoDispose | src/fwd_entry_datagram_socket.c:229-244 | The socket is gone from the two-peer world, and a known counterpart is closed, once |
| LinkEntries.DatagramForwardRemote.constructor | src/fwd_entry_datagram_forward_remote.c:305-353 | Both slots start idle |
| LinkEntries.DatagramForwardRemote.OnSocket | src/fwd_entry_datagram_forward_remote.c:207-238 | Both slots submit an ACCEPT once the listener exists, as the opening of a forwarder does in the two-peer world |
| LinkEntries.DatagramForwardRemote.OnAccept | src/fwd_entry_datagram_forward_remote.c:151-199 | A completed ACCEPT makes a socket if the source and the bind allow it; the new object is the one of the two-peer world after the response has been handled there, and what is submitted is what that step sends |
| LinkEntries.DatagramForwardRemote.OnAcceptFailed | src/fwd_entry_datagram_forward_remote.c:200-204 | A failed ACCEPT leaves the slot idle and sends nothing, as in the two-peer world |
| LinkEntries.DatagramForwardRemote.DoDispose | src/fwd_entry_datagram_forward_remote.c:266-285 | Exactly the outstanding ACCEPTs are cancelled, each once, and the listener is closed if there is one; the forwarder is gone from the two-peer world |
| SocketIoRuns.WireIsInOrder | src/fwd_socket_io.c:212-257 | Over every run, with callbacks that free the object or submit more, the wire carries in submission order what was sent of each item that left the queue and of the head |
| SocketIoRuns.ItemsEndOnce | src/fwd_socket_io.c:92-132 | Every item is destroyed exactly once and reported at most once, success only if sent in full; the error handler runs at most once; a released object owes nothing |
| SocketIoTraces.AsAsked | src/fwd_socket_io.c:212-257 | Over every run, from the events: the items that have left the queue and those in it are exactly those submitted, by the owner and from its callbacks, in order and with their data; the wire has as many bytes as the writes took; a report is made exactly when a write completes or fails an item with a callback, in order; the error handler runs exactly for the first failure; and the owner has the object until it gives it up |
| SocketIoTraces.ReadingExactly | src/fwd_socket_io.c:259-302 | The socket is read from exactly from the start of receiving until an end, an error, a stop or disposal |
| SocketIoRuns.WriteStallsExactly | src/fwd_socket_io.c:212-257 | A write leaves items that nothing will send if and only if there were items and the socket was hung up, or the write failed, no callback that runs disposes of the object, and the failed item was not the only one or such a callback submitted another |
| SocketIoRuns.ReactInv | src/fwd_socket_io.c:232-251 | Whatever the owner does in a callback, the queue stays sound |
| SocketIoRuns.StepSettled | src/fwd_socket_io.c:259-302 | Between events there is one reference, the owner's, or the object has been released |
| SocketIoEntry.FwdSocketIo.constructor | src/fwd_socket_io.c:322-341 | The error source is there from the start |
| SocketIoEntry.FwdSocketIo.Drain | src/fwd_socket_io.c:128-131 | The queue is emptied, every item destroyed in order |
| SocketIoEntry.FwdSocketIo.DoDispose | src/fwd_socket_io.c:120-132 | All sources are cleared and the queue drained |
| SocketIoEntry.FwdSocketIo.DoUnref | src/fwd_socket_io.c:154-164 | The last reference finalizes the object |
| SocketIoEntry.FwdSocketIo.DoFree | src/fwd_socket_io.c:343-351 | The owner disposes of the object and drops its reference |
| SocketIoEntry.FwdSocketIo.DoSend | src/fwd_socket_io.c:386-401 | An item goes to the tail, unsent, and there is a write source |
| SocketIoEntry.FwdSocketIo.Complete | src/fwd_socket_io.c:232-248 | A watched item is reported, and the owner may react |
| SocketIoEntry.FwdSocketIo.Complain | src/fwd_socket_io.c:197-199 | The error handler runs only while the error source is there, and clears it first |
| SocketIoEntry.FwdSocketIo.Advance | src/fwd_socket_io.c:227-240 | The head advances by what was sent, and leaves the queue, reported and destroyed, once it is complete |
| SocketIoEntry.FwdSocketIo.FailHead | src/fwd_socket_io.c:241-252 | A failed head leaves the queue with the bytes it had sent, and the error is reported |
| SocketIoEntry.FwdSocketIo.OnWritable | src/fwd_socket_io.c:212-257 | The write source callback as a whole |
| SocketIoEntry.FwdSocketIo.OnReadable | src/fwd_socket_io.c:166-210 | Received data goes to the owner; an end or an error ends reading |
| SocketIoEntry.FwdSocketIo.WriteSourceCallback | src/fwd_socket_io.c:273-285 | The callback holds a reference of its own |
| SocketIoEntry.FwdSocketIo.ReadSourceCallback | src/fwd_socket_io.c:259-271 | The callback holds a reference of its own |
| SocketIoEntry.FwdSocketIo.ErrorSourceCallback | src/fwd_socket_io.c:287-302 | The error handler runs once, under a reference |
| Ops.FreedExactlyOnce | src/fwd_op.c:42-126 | Over every run, each operation is live or freed once; a live one is listed or has its call outstanding; after disposal a live one is held by its call alone; a failure removes the entry at most once |
| OpsRuns.LiveExactly | src/fwd_op_call.c:44-101 | Over every run, from the events: an operation is live if and only if it was started, its call has not ended, and, if the call can be cancelled, the entry is there; otherwise it has been freed once if it was ever started; a failed call removes the entry if and only if it is the first to do so |
| OpsRuns.CancelledWithEntry | src/fwd_op_call.c:44-56 | Once the entry is gone, an operation started as cancellable is not live and has been freed once, and one that was not is live until its call ends |
| Ops.StepInv | src/fwd_op_call.c:44-101 | Reference counts are exact after every event |
| OpsEntry.EntryOps.OpUnref | src/fwd_op.c:65-73 | The last reference frees the operation |
| OpsEntry.EntryOps.OpDisposed | src/fwd_op.c:42-51 | The call is cancelled if it can be, which ends it, and the list's reference is dropped |
| OpsEntry.EntryOps.OpDispose | src/fwd_op.c:87-109 | The search takes exactly this operation off the list, if it is on it |
| OpsEntry.EntryOps.DestroyNotify | src/fwd_op.c:118-126 | The end of a call takes the operation off the list and drops the call's reference |
| OpsEntry.EntryOps.OpStart | src/fwd_op_call.c:73-101 | A started operation is held by the list and by the call |
| OpsEntry.EntryOps.BaseDispose | src/fwd_entry.c:106-117 | The whole list is disposed of, with calls that end meanwhile |
| OpsEntry.EntryOps.OnAnswer | src/fwd_entry_stream_socket.c:75-99 | A failure removes the entry if the operation still has one |
| OpsEntry.EntryOps.OnResponse | src/fwd_entry_datagram_socket.c:88-104 | The answer and the end of the call together |
| PeerStarts.StartedExactlyOnce | src/fwd_peer.c:219-265 | Over every run in which no entry is inserted twice: an entry's start callback has run exactly once if it has one and the entry was in the table at the transition to STARTED or was inserted while STARTED, by other start callbacks too, and has not run otherwise |
| PeerState.StartedAsDue | src/fwd_peer.c:219-265 | Over every run, as multisets: start callbacks run = entries listed at the transition + startable entries inserted while STARTED |
| PeerState.StateOnlyAdvances | src/fwd_peer.c:219-316 | The state never goes back, and the handlers of its signal see it in order |
| PeerSignals.SignalsExactly | src/fwd_peer.c:219-265 | Over every run: the state signal is emitted exactly once for each transition, the last time in the present state; a peer that a start callback stops at the transition is seen as STOPPED twice |
| PeerSignals.StoppedTwice | src/fwd_peer.c:219-265 | A run in which that happens |
| PeerState.StartableIsExact | src/fwd_peer.c:242-251 | The list made at the transition holds every entry with a start callback once |
| PeerStarts.StartedAfterRemoval | src/fwd_peer.c:253-258 | For every table, order and callbacks: each listed entry is started when its turn comes, and that entry has left the table by then if and only if the last thing done to its id by the callbacks run before was to remove what was there or to put another entry in its place |
| PeerState.FwdPeerState.DoSetState | src/fwd_peer.c:219-265 | The transition starts the listed entries in order |
| PeerState.FwdPeerState.ListStartable | src/fwd_peer.c:239-251 | The loop lists exactly the entries with a start callback |
| PeerState.FwdPeerState.DoInsert | src/fwd_peer.c:627-650 | An entry inserted while STARTED is started at once |
| SocketIds.IdAllocator.Next | src/fwd_peer.c:612-625 | With fewer than 2^28 - 1 ids in use the loop ends within ids in use + 2 tries, across the wrap of the counter, with the first free id in range |
| SocketIds.TakenRunIsShort | src/fwd_peer.c:612-625 | A run of taken candidates is at most one longer than the table |
| SocketIds.NoReuseWithinSpan | src/fwd_peer.c:612-625 | Allocations less than 2^28 steps apart never give the same id |
| Tlv.NumberRoundTrip | src/fwd_util.c:63-84 | Decoding a number undoes encoding it and leaves the rest of the input |
| Tlv.RecordsRoundTrip | src/fwd_util.c:86-138 | Decoding records undoes encoding them |
| Tlv.OrderDoesNotMatter | src/fwd_control_service.c:129-137 | What is found under a tag depends neither on record order nor on unknown tags |
| Tlv.ByteArray.Append | src/fwd_util.c:86-98 | One record is added at the end |
| Tlv.ByteArray.AppendNumber | src/fwd_util.c:100-113 | One numeric record is added at the end |
| Messages.SocketRoundTrip | src/fwd_control_client.c:269-330 | A SOCKET request comes back as it was if and only if it is well formed, in any record order and among unknown tags, and is refused otherwise |
| Messages.FamilyFromAddress | src/fwd_control_service.c:184-198 | A request without tag 2 is accepted if and only if the rest is acceptable and its address, if any, is an internet address; it is treated as one with AF_INET in it if and only if it is refused, has no address, or has one of that family |
| Messages.ZeroCountsAsAbsent | src/fwd_control_service.c:211-232 | A zero timeout or limit is treated as a missing one; a zero backlog is if and only if the Listen flag is set or the request is refused anyway |
| Messages.HandleSocket | src/fwd_control_service.c:122-266 | The chain of checks over local variables computes the parse |
| Messages.AcceptsExactly | src/fwd_control_service.c:122-266 | A request, printed by whomever, is accepted if and only if its id is in range, every numeric record holds a number, type, family and address are known and agree, and there is no backlog without the Listen flag; and its fields are taken from their records |
| Messages.CallSocket | src/fwd_control_client.c:269-330 | The successive appends build the encoding of the printed request |
| Messages.IdRoundTrip | src/fwd_util.c:140-153 | A socket id decodes to itself if it is in range and to zero otherwise |
| Messages.UintRoundTrip | src/fwd_util.c:155-170 | A number decodes to itself if and only if it fits 32 bits |
| SocketMessages.AcceptRoundTrip | src/fwd_socket_service.c:416-443 | An ACCEPT response keeps id and addresses if and only if the id is in range |
| SocketMessages.AcceptErrorRoundTrip | src/fwd_socket_client.c:174-198 | An ACCEPT error code gets through if and only if it is positive and less than INT_MAX |
| SocketMessages.DataRoundTrip | src/fwd_socket_service.c:260-309 | DATA delivers any payload, target and source unchanged if and only if the target id is in range |
| SocketMessages.DataOkRoundTrip | src/fwd_socket_client.c:226-264 | The number of bytes sent gets through if and only if it fits 32 bits |
| SocketMessages.DataErrorIsLost | src/fwd_socket_client.c:247-263 | No code of a DATA error response gets through |
| SocketMessages.SocketResponseRoundTrip | src/fwd_control_client.c:172-241 | A SOCKET response keeps id and address if and only if both are valid |
| SocketMessages.SocketErrorRoundTrip | src/fwd_control_client.c:228-235 | A SOCKET error code gets through if and only if it is positive and less than INT_MAX |
| SocketMessages.ConnectRoundTrip | src/fwd_socket_service.c:202-245 | A CONNECT request keeps target and address if and only if both are valid |
| SocketMessages.AcceptedRoundTrip | src/fwd_socket_service.c:156-187 | An ACCEPTED request keeps both ids if and only if both are in range |
| SocketMessages.InfoRoundTrip | src/fwd_control_client.c:105-157 | An INFO response keeps versions and byte order if and only if the range starts at 1, is not empty, and the byte order has four bytes |

## Left out

- Real sockets, bind, the GLib main loop, GObject and signal plumbing: replaced by steps and callbacks; the RPC transport is two channels.
- Stream listeners, stream forwarders and local and remote connect operations: their timing depends on GIO.
- Operation lists of datagram connections and of the start of a remote forwarder: those entries do not call the common disposal, or allocate twice.
- The listener and the forwarder classes hold their connections as values; aliasing between the two maps and the socket table is modelled in `Table` and `Peer`, and `EngineRuns` shows over every run that both say the same.
- ListenRuns.QueuesKept: the address map stands for both maps here, which `TableRuns.RunsStaySettled` shows to be mirrors.
- The listener takes part in `Link` only as the queue of waiting ACCEPTs; what it does with them is in `Listen`.
- `Link` has the connections of one peer and the sockets of the other. A peer plays both roles at once; the two directions share only the order of the channels, in which each is again first-in-first-out.
- LinkRuns.ClosedAtMostOnce: the CLOSE that a remote forwarder sends to its listener is not part of a link and is not counted.
- Messages.SocketRoundTrip: an address is the kernel's blob; that converting it to an address object and back keeps it is taken from GIO.
- Tlv.RecordsRoundTrip: records with a repeated tag and numbers with leading zero digits are not considered.
- TableDisposal.PeerDisposed: the destroy callbacks are modelled on values here, not on the class of `Peer`; what the callbacks of remote forwarders and of other kinds of entries do is not part of the tables.
- LinkTargets.PacketsGoToTheirTarget: that a remote forwarder gives all its sockets the same destination is a constant of its class; in `Link` it is a parameter of the delivery.
- Orphan sockets: an ACCEPTED under way while its listener goes is ignored, so the code does not promise that none remains.
- Address formatting, mapping of error codes, the address hash, logging, version macros, the command line tool, tests and packaging.

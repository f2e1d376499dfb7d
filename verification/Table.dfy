/** The peer's socket table and the two maps of every datagram listener and local
    forwarder, with the reference counts of the connections they share.

    Removing an entry unlinks it, runs its destroy callback and then the "removed"
    signal, and both re-enter the same tables. References that have left a table but
    are not dropped yet are counted by the ghost field held, which makes the
    ownership invariant hold at every callback boundary. */
module Table {
  import opened Base
  import Connection

  // The address of a connection or of its parent in memory.
  type Ref = nat

  datatype Slot = Slot(conn: Connection.Conn, parent: Ref, refs: nat)

  datatype Kind = Listen | Local

  datatype Parent = Parent(kind: Kind, id: Id, rid: Id, addrMap: map<Addr, Ref>, idMap: map<Id, Ref>)

  // A remote forwarder is an entry of another kind that has no close callback.
  datatype Entry = ConnE(conn: Ref) | ParentE(parent: Ref) | OtherE(closable: bool)

  datatype State = State(
    sockets: map<Id, Entry>,
    conns: map<Ref, Slot>,
    parents: map<Ref, Parent>,
    handlers: seq<Ref>,             // parents connected to the "removed" signal
    held: multiset<Ref>,
    signals: multiset<Id>,          // "removed" signals emitted so far
    closes: multiset<(Ref, Id)>,    // CLOSE calls of connections: who sent it, to which socket
    parentCloses: multiset<(Ref, Id)>
  )

  predicate InSockets(s: State, r: Ref)
    requires r in s.conns
  {
    var id := s.conns[r].conn.id;
    id in s.sockets && s.sockets[id] == ConnE(r)
  }

  predicate Linked(s: State, r: Ref)
    requires r in s.conns
  {
    var h, a := s.conns[r].parent, s.conns[r].conn.addr;
    h in s.parents && a in s.parents[h].addrMap && s.parents[h].addrMap[a] == r
  }

  function Refs(s: State, r: Ref): nat
    requires r in s.conns
  {
    (if InSockets(s, r) then 1 else 0) + (if Linked(s, r) then 1 else 0) + s.held[r]
  }

  /** What addr_map holds under a, id_map holds under its id, and it has address a. */
  predicate AddrEntry(s: State, h: Ref, a: Addr)
    requires h in s.parents && a in s.parents[h].addrMap
  {
    var r := s.parents[h].addrMap[a];
    && r in s.conns && s.conns[r].conn.addr == a && s.conns[r].parent == h
    && s.conns[r].conn.id in s.parents[h].idMap && s.parents[h].idMap[s.conns[r].conn.id] == r
  }

  /** What id_map holds under i, addr_map holds under its address, and it has id i. */
  predicate IdEntry(s: State, h: Ref, i: Id)
    requires h in s.parents && i in s.parents[h].idMap
  {
    var r := s.parents[h].idMap[i];
    && r in s.conns && s.conns[r].conn.id == i && s.conns[r].parent == h
    && s.conns[r].conn.addr in s.parents[h].addrMap && s.parents[h].addrMap[s.conns[r].conn.addr] == r
  }

  /** The two maps of a parent are exact mirrors of each other. */
  predicate Mirror(s: State, h: Ref)
    requires h in s.parents
  {
    && (forall a :: a in s.parents[h].addrMap ==> AddrEntry(s, h, a))
    && (forall i :: i in s.parents[h].idMap ==> IdEntry(s, h, i))
  }

  predicate Tabled(s: State, i: Id)
    requires i in s.sockets
  {
    match s.sockets[i]
    case ConnE(r) => r in s.conns && s.conns[r].conn.id == i
    case ParentE(h) => h in s.parents && s.parents[h].id == i
    case OtherE(_) => true
  }

  predicate AllTabled(s: State) {
    forall i :: i in s.sockets ==> Tabled(s, i)
  }

  predicate AllMirror(s: State) {
    forall h :: h in s.parents ==> Mirror(s, h)
  }

  predicate RefsExact(s: State, r: Ref)
    requires r in s.conns
  {
    s.conns[r].refs == Refs(s, r) > 0
  }

  predicate Counted(s: State) {
    forall r :: r in s.conns ==> RefsExact(s, r)
  }

  predicate IdsUnique(s: State) {
    && (forall r :: r in s.conns ==> s.conns[r].conn.id in s.sockets ==> InSockets(s, r))
    && (forall r1, r2 :: r1 in s.conns && r2 in s.conns && s.conns[r1].conn.id == s.conns[r2].conn.id
                         ==> r1 == r2)
  }

  predicate NoneDangling(s: State) {
    && (forall r :: r in s.held ==> r in s.conns)
    && (forall h :: h in s.handlers ==> h in s.parents)
  }

  /** Holds whenever a callback may run. */
  predicate Inv(s: State) {
    AllTabled(s) && AllMirror(s) && Counted(s) && IdsUnique(s) && NoneDangling(s)
  }

  predicate InBothTables(s: State) {
    forall r :: r in s.conns ==> InSockets(s, r) && Linked(s, r)
  }

  predicate ParentsTabled(s: State) {
    forall h :: h in s.parents ==>
      s.parents[h].id in s.sockets && s.sockets[s.parents[h].id] == ParentE(h) && h in s.handlers
  }

  /** Holds between top-level events: every connection is in both tables of its
      parent and in the socket table, and no reference is outstanding. */
  predicate Settled(s: State) {
    Inv(s) && s.held == multiset{} && InBothTables(s) && ParentsTabled(s)
  }

  // ---------- What removal amounts to ----------

  /** Gives back n references to connection r; the last one frees it. */
  function Release(conns: map<Ref, Slot>, r: Ref, c: Connection.Conn, n: nat): map<Ref, Slot>
    requires r in conns && n <= conns[r].refs
  {
    if conns[r].refs == n then conns - {r}
    else conns[r := Slot(c, conns[r].parent, conns[r].refs - n)]
  }

  function CloseOf(r: Ref, rid: Id): multiset<(Ref, Id)> {
    if rid != 0 then multiset{(r, rid)} else multiset{}
  }

  function Unlink(s: State, r: Ref): map<Ref, Parent>
    requires r in s.conns && s.conns[r].parent in s.parents
  {
    var h := s.conns[r].parent;
    var p := s.parents[h];
    s.parents[h := p.(addrMap := p.addrMap - {s.conns[r].conn.addr},
                      idMap := p.idMap - {s.conns[r].conn.id})]
  }

  // The parent of the connection will hear the signal and knows the connection.
  predicate Known(s: State, r: Ref)
    requires r in s.conns
  {
    Linked(s, r) && s.conns[r].parent in s.handlers
  }

  /** The connection leaves the socket table; if its parent still listens to the
      signal and knows it, it leaves both maps of the parent too. */
  function ConnRemoved(s: State, id: Id): State
    requires id in s.sockets && s.sockets[id].ConnE? && Tabled(s, id) && RefsExact(s, s.sockets[id].conn)
  {
    var r := s.sockets[id].conn;
    var c := s.conns[r].conn;
    s.(sockets := s.sockets - {id},
       conns := Release(s.conns, r, Connection.Dispose(c).conn, if Known(s, r) then 2 else 1),
       parents := if Known(s, r) then Unlink(s, r) else s.parents,
       signals := s.signals + multiset{id},
       closes := s.closes + CloseOf(r, c.rid))
  }

  function Children(s: State, h: Ref): set<Ref>
    requires h in s.parents
  {
    s.parents[h].addrMap.Values
  }

  function Drop(q: seq<Ref>, x: Ref): seq<Ref> {
    if q == [] then [] else (if q[0] == x then [] else [q[0]]) + Drop(q[1..], x)
  }

  predicate IsKid(e: Entry, kids: set<Ref>) {
    e.ConnE? && e.conn in kids
  }

  /** The connections in kids leave the socket table and are freed. */
  function KidsGone(s: State, kids: set<Ref>): State {
    s.(sockets := map i | i in s.sockets && !IsKid(s.sockets[i], kids) :: s.sockets[i],
       conns := s.conns - kids,
       held := s.held - multiset(kids),
       signals := s.signals + multiset(set i | i in s.sockets && IsKid(s.sockets[i], kids)),
       closes := s.closes + multiset(set r | r in kids && r in s.conns && InSockets(s, r)
                                             && s.conns[r].conn.rid != 0 :: (r, s.conns[r].conn.rid)))
  }

  // The entry is unlinked from the socket table; the reference to a connection is in hand.
  function Out(s: State, id: Id): State
    requires id in s.sockets
  {
    s.(sockets := s.sockets - {id},
       held := if s.sockets[id].ConnE? then s.held + multiset{s.sockets[id].conn} else s.held)
  }

  // Both maps of a parent are emptied at once.
  function Emptied(s: State, h: Ref): State
    requires h in s.parents
  {
    s.(parents := s.parents[h := s.parents[h].(addrMap := map[], idMap := map[])],
       held := s.held + multiset(Children(s, h)))
  }

  function FreeParent(s: State, h: Ref): State {
    s.(parents := s.parents - {h}, handlers := Drop(s.handlers, h))
  }

  // A listener closes its remote counterpart; a local forwarder has none.
  function ParentClose(p: Parent, h: Ref): multiset<(Ref, Id)> {
    if p.kind == Listen then CloseOf(h, p.rid) else multiset{}
  }

  function ParentGone(s: State, h: Ref): State
    requires h in s.parents
  {
    FreeParent(KidsGone(Emptied(s, h), Children(s, h)), h)
      .(parentCloses := s.parentCloses + ParentClose(s.parents[h], h))
  }

  function Signalled(s: State, id: Id): State {
    s.(signals := s.signals + multiset{id})
  }

  /** The parent, its two maps and all its connections go. */
  function ParentRemoved(s: State, id: Id): State
    requires id in s.sockets && s.sockets[id].ParentE? && s.sockets[id].parent in s.parents
  {
    Signalled(ParentGone(Out(s, id), s.sockets[id].parent), id)
  }

  function Removed(s: State, id: Id): State
    requires AllTabled(s) && Counted(s)
  {
    if id !in s.sockets then s
    else
      assert Tabled(s, id);
      match s.sockets[id]
      case ConnE(r) => assert RefsExact(s, r); ConnRemoved(s, id)
      case ParentE(_) => ParentRemoved(s, id)
      case OtherE(_) => Signalled(Out(s, id), id)
  }

  // ---------- The steps a removal is made of ----------

  function SetConn(s: State, r: Ref, c: Connection.Conn): State
    requires r in s.conns
  {
    s.(conns := s.conns[r := s.conns[r].(conn := c)])
  }

  function Unref(s: State, r: Ref): State
    requires r in s.conns && s.conns[r].refs > 0
  {
    s.(conns := Release(s.conns, r, s.conns[r].conn, 1), held := s.held - multiset{r})
  }

  // Both maps of its parent let go of the connection; addr_map's reference is in hand.
  function UnlinkHeld(s: State, r: Ref): State
    requires r in s.conns && s.conns[r].parent in s.parents
  {
    s.(parents := Unlink(s, r), held := s.held + multiset{r})
  }

  lemma DropKeeps(q: seq<Ref>, x: Ref)
    ensures forall y :: y in Drop(q, x) <==> y in q && y != x
  {
  }
}

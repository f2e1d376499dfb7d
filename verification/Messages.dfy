/** The requests and responses that carry data: how they are printed into records and
    parsed back. A socket address is the blob that the kernel uses for it. */
module Messages {
  import opened Base
  import opened Tlv

  const UINT_LIMIT: nat := 0x1_0000_0000
  const INT_MAX: nat := 0x7fff_ffff
  const AF_INET: nat := 2
  const AF_INET6: nat := 10
  const AF_MAX: nat := 46
  const STREAM: nat := 1
  const DATAGRAM: nat := 2

  // ---------- Values ----------

  function Number(tag: nat, v: nat): Rec {
    Rec(tag, EncodeNumber(v))
  }

  // Zero if the value is not a socket id.
  function DecodeId(s: Bytes): nat {
    var v := Whole(s);
    if v.Some? && 0 < v.value <= ID_MAX then v.value else 0
  }

  function DecodeUint(s: Bytes): Option<nat> {
    var v := Whole(s);
    if v.Some? && v.value < UINT_LIMIT then v else None
  }

  function Family(sa: Bytes): nat
    requires |sa| >= 2
  {
    var low: nat, high: nat := sa[0], sa[1];
    low + 256 * high
  }

  /** The blob is an internet address, of either version. */
  predicate Inet(sa: Bytes) {
    |sa| > 2 && ((Family(sa) == AF_INET && |sa| >= 16) || (Family(sa) == AF_INET6 && |sa| >= 28))
  }

  lemma IdRoundTrip(v: nat)
    requires v < UINT_LIMIT
    ensures DecodeId(EncodeNumber(v)) == if 0 < v <= ID_MAX then v else 0
  {
    WholeRoundTrip(v);
  }

  lemma UintRoundTrip(v: nat)
    ensures DecodeUint(EncodeNumber(v)) == if v < UINT_LIMIT then Some(v) else None
  {
    WholeRoundTrip(v);
  }

  // ---------- SOCKET request ----------

  datatype SocketArgs = SocketArgs(id: nat, family: nat, kind: nat, addr: Option<Bytes>, flags: nat,
                                   backlog: nat, timeout: nat, maxConn: nat)

  datatype Address = Given(sa: Bytes) | AnyOf(family: nat)

  datatype SocketRequest = SocketRequest(id: nat, kind: nat, address: Address, flags: nat,
                                         backlog: nat, timeout: nat, maxConn: nat)

  predicate Listening(flags: nat) {
    flags / 2 % 2 == 1
  }

  function Optional(tag: nat, v: nat): seq<Rec> {
    if v != 0 then [Number(tag, v)] else []
  }

  function PrintSocket(a: SocketArgs): seq<Rec> {
    [Number(1, a.id), Number(2, a.family), Number(3, a.kind)]
    + (if a.addr.Some? then [Rec(4, a.addr.value)] else [])
    + Optional(5, a.flags) + Optional(6, a.backlog) + Optional(7, a.timeout) + Optional(8, a.maxConn)
  }

  // The address family of a request: tag 2, else that of the address, else the default.
  function ParseFamily(family: Option<Bytes>): Option<nat> {
    if family.None? then Some(AF_INET)
    else
      var v := DecodeUint(family.value);
      if v.Some? && v.value <= AF_MAX then v else None
  }

  function ParseKind(kind: Option<Bytes>): Option<nat> {
    if kind.None? then Some(STREAM)
    else
      var v := DecodeUint(kind.value);
      if v.Some? && (v.value == STREAM || v.value == DATAGRAM) then v else None
  }

  function ParseAddress(addr: Option<Bytes>, family: Option<Bytes>, af: nat): Option<Address> {
    if addr.None? then Some(AnyOf(af))
    else if |addr.value| <= 2 then None
    else if family.Some? then (if Family(addr.value) == af then Some(Given(addr.value)) else None)
    else if Family(addr.value) <= AF_MAX then Some(Given(addr.value))
    else None
  }

  // A missing number counts as zero.
  function ParseOptional(value: Option<Bytes>): Option<nat> {
    if value.None? then Some(0) else DecodeUint(value.value)
  }

  function ParseFlags(value: Option<Bytes>): Option<nat> {
    if value.None? then Some(0) else Whole(value.value)
  }

  predicate Bindable(address: Address) {
    match address
    case Given(sa) => Inet(sa)
    case AnyOf(af) => af == AF_INET || af == AF_INET6
  }

  /** None stands for the EINVAL response. */
  function ParseSocket(recs: seq<Rec>): Option<SocketRequest> {
    if Get(recs, 1).None? || DecodeId(Get(recs, 1).value) == 0 then None
    else
      var af, kind, flags := ParseFamily(Get(recs, 2)), ParseKind(Get(recs, 3)), ParseFlags(Get(recs, 5));
      if af.None? || kind.None? || flags.None? then None
      else
        var address := ParseAddress(Get(recs, 4), Get(recs, 2), af.value);
        var backlog, timeout, maxConn :=
          ParseOptional(Get(recs, 6)), ParseOptional(Get(recs, 7)), ParseOptional(Get(recs, 8));
        if address.None? || backlog.None? || timeout.None? || maxConn.None? then None
        else if Get(recs, 6).Some? && !Listening(flags.value) then None
        else if !Bindable(address.value) then None
        else Some(SocketRequest(DecodeId(Get(recs, 1).value), kind.value, address.value, flags.value,
                                backlog.value, timeout.value, maxConn.value))
  }

  /** The handler of the SOCKET request: a chain of checks over local variables. */
  method HandleSocket(recs: seq<Rec>) returns (r: Option<SocketRequest>)
    ensures r == ParseSocket(recs)
  {
    hide Get, DecodeId, DecodeUint, Whole, Family, Bindable;
    if Get(recs, 1).None? {
      return None;
    }
    var id := DecodeId(Get(recs, 1).value);
    if id == 0 {
      return None;
    }
    var ok, af, kind, flags := true, AF_INET, STREAM, 0;
    var address := AnyOf(AF_INET);
    var backlog, timeout, maxConn := 0, 0, 0;
    if Get(recs, 2).Some? {
      var v := DecodeUint(Get(recs, 2).value);
      if v.None? || v.value > AF_MAX {
        ok := false;
      } else {
        af := v.value;
      }
    }
    if ok && Get(recs, 3).Some? {
      ok := false;
      var v := DecodeUint(Get(recs, 3).value);
      if v.Some? && (v.value == STREAM || v.value == DATAGRAM) {
        kind, ok := v.value, true;
      }
    }
    if ok && Get(recs, 5).Some? {
      var v := Whole(Get(recs, 5).value);
      if v.None? {
        ok := false;
      } else {
        flags := v.value;
      }
    }
    if ok {
      if Get(recs, 4).Some? {
        var sa := Get(recs, 4).value;
        if |sa| > 2 {
          address := Given(sa);
          if Get(recs, 2).Some? {
            if Family(sa) != af {
              ok := false;
            }
          } else if Family(sa) <= AF_MAX {
            af := Family(sa);
          } else {
            ok := false;
          }
        } else {
          ok := false;
        }
      } else {
        address := AnyOf(af);
      }
    }
    if ok && Get(recs, 6).Some? {
      var v := DecodeUint(Get(recs, 6).value);
      if !Listening(flags) || v.None? {
        ok := false;
      } else {
        backlog := v.value;
      }
    }
    if ok && Get(recs, 7).Some? {
      var v := DecodeUint(Get(recs, 7).value);
      ok := v.Some?;
      timeout := if ok then v.value else 0;
    }
    if ok && Get(recs, 8).Some? {
      var v := DecodeUint(Get(recs, 8).value);
      ok := v.Some?;
      maxConn := if ok then v.value else 0;
    }
    if ok && Bindable(address) {
      return Some(SocketRequest(id, kind, address, flags, backlog, timeout, maxConn));
    }
    return None;
  }

  method AppendOne(buf: ByteArray, tag: nat, value: Bytes, ghost done: seq<Rec>) returns (ghost more: seq<Rec>)
    requires buf.data == EncodeAll(done)
    modifies buf
    ensures more == done + [Rec(tag, value)] && buf.data == EncodeAll(more)
  {
    buf.Append(tag, value);
    EncodeSnoc(done, Rec(tag, value));
    more := done + [Rec(tag, value)];
  }

  method AppendOptional(buf: ByteArray, tag: nat, v: nat, ghost done: seq<Rec>) returns (ghost more: seq<Rec>)
    requires buf.data == EncodeAll(done)
    modifies buf
    ensures more == done + Optional(tag, v) && buf.data == EncodeAll(more)
  {
    more := done;
    if v != 0 {
      more := AppendOne(buf, tag, EncodeNumber(v), done);
    } else {
      assert done + [] == done;
    }
  }

  method CallSocket(a: SocketArgs) returns (buf: ByteArray)
    ensures fresh(buf) && buf.data == EncodeAll(PrintSocket(a))
  {
    hide EncodeNumber, EncodeAll;
    buf := new ByteArray();
    ghost var done: seq<Rec> := [];
    assert EncodeAll(done) == [] by { NothingEncoded(); }
    done := AppendOne(buf, 1, EncodeNumber(a.id), done);
    done := AppendOne(buf, 2, EncodeNumber(a.family), done);
    done := AppendOne(buf, 3, EncodeNumber(a.kind), done);
    ghost var head := [Number(1, a.id), Number(2, a.family), Number(3, a.kind)];
    assert done == head;
    ghost var addr := if a.addr.Some? then [Rec(4, a.addr.value)] else [];
    if a.addr.Some? {
      done := AppendOne(buf, 4, a.addr.value, done);
    }
    assert done == head + addr;
    hide Optional;
    done := AppendOptional(buf, 5, a.flags, done);
    done := AppendOptional(buf, 6, a.backlog, done);
    done := AppendOptional(buf, 7, a.timeout, done);
    done := AppendOptional(buf, 8, a.maxConn, done);
    assert done == head + addr + Optional(5, a.flags) + Optional(6, a.backlog) + Optional(7, a.timeout)
                   + Optional(8, a.maxConn);
  }

  lemma NothingEncoded()
    ensures EncodeAll([]) == []
  {
  }

  predicate Narrow(a: SocketArgs) {
    && a.id < UINT_LIMIT && a.family < UINT_LIMIT && a.kind < UINT_LIMIT && a.flags < UINT_LIMIT
    && a.backlog < UINT_LIMIT && a.timeout < UINT_LIMIT && a.maxConn < UINT_LIMIT
  }

  /** What the service accepts. */
  predicate WellFormed(a: SocketArgs) {
    && 0 < a.id <= ID_MAX && (a.kind == STREAM || a.kind == DATAGRAM)
    && (a.family == AF_INET || a.family == AF_INET6)
    && (a.addr.Some? ==> Inet(a.addr.value) && Family(a.addr.value) == a.family)
    && (a.backlog != 0 ==> Listening(a.flags))
  }

  function Meaning(a: SocketArgs): SocketRequest {
    SocketRequest(a.id, a.kind, if a.addr.Some? then Given(a.addr.value) else AnyOf(a.family),
                  a.flags, a.backlog, a.timeout, a.maxConn)
  }

  // ---------- Printed records ----------

  lemma {:induction false} GetConcat(a: seq<Rec>, b: seq<Rec>, tag: nat)
    ensures Get(a + b, tag) == if Get(b, tag).Some? then Get(b, tag) else Get(a, tag)
  {
    if b == [] {
      assert a + b == a;
    } else {
      GetConcat(a, Front(b), tag);
      assert Front(a + b) == a + Front(b);
    }
  }

  lemma GetOne(r: Rec, tag: nat)
    ensures Get([r], tag) == if r.tag == tag then Some(r.value) else None
  {
    assert Front([r]) == [];
  }

  function IfNonZero(v: nat): Option<Bytes> {
    if v != 0 then Some(EncodeNumber(v)) else None
  }

  lemma GetOptional(tag: nat, v: nat, t: nat)
    ensures Get(Optional(tag, v), t) == if t == tag then IfNonZero(v) else None
  {
    GetOne(Number(tag, v), t);
  }

  /** What a printed SOCKET request has under each tag. */
  function Field(a: SocketArgs, tag: nat): Option<Bytes> {
    match tag
    case 1 => Some(EncodeNumber(a.id))
    case 2 => Some(EncodeNumber(a.family))
    case 3 => Some(EncodeNumber(a.kind))
    case 4 => a.addr
    case 5 => IfNonZero(a.flags)
    case 6 => IfNonZero(a.backlog)
    case 7 => IfNonZero(a.timeout)
    case 8 => IfNonZero(a.maxConn)
    case _ => None
  }

  lemma GetHead(a: SocketArgs, tag: nat)
    ensures Get([Number(1, a.id), Number(2, a.family), Number(3, a.kind)], tag)
            == if 1 <= tag <= 3 then Field(a, tag) else None
  {
    hide Get, EncodeNumber;
    var n1, n2, n3 := Number(1, a.id), Number(2, a.family), Number(3, a.kind);
    assert [n1, n2, n3] == [n1] + [n2] + [n3];
    GetConcat([n1] + [n2], [n3], tag);
    GetConcat([n1], [n2], tag);
    GetOne(n1, tag);
    GetOne(n2, tag);
    GetOne(n3, tag);
  }

  lemma GetAddress(addr: Option<Bytes>, tag: nat)
    ensures Get(if addr.Some? then [Rec(4, addr.value)] else [], tag) == if tag == 4 then addr else None
  {
    if addr.Some? {
      GetOne(Rec(4, addr.value), tag);
    }
  }

  lemma PrintedField(a: SocketArgs, tag: nat)
    ensures Get(PrintSocket(a), tag) == Field(a, tag)
  {
    var p1 := [Number(1, a.id), Number(2, a.family), Number(3, a.kind)];
    var p2 := if a.addr.Some? then [Rec(4, a.addr.value)] else [];
    var p3, p4, p5, p6 := Optional(5, a.flags), Optional(6, a.backlog), Optional(7, a.timeout), Optional(8, a.maxConn);
    assert PrintSocket(a) == p1 + p2 + p3 + p4 + p5 + p6;
    GetHead(a, tag);
    GetAddress(a.addr, tag);
    GetOptional(5, a.flags, tag);
    GetOptional(6, a.backlog, tag);
    GetOptional(7, a.timeout, tag);
    GetOptional(8, a.maxConn, tag);
    hide Get, Optional, Number, IfNonZero, EncodeNumber, PrintSocket;
    GetConcat(p1, p2, tag);
    GetConcat(p1 + p2, p3, tag);
    GetConcat(p1 + p2 + p3, p4, tag);
    GetConcat(p1 + p2 + p3 + p4, p5, tag);
    GetConcat(p1 + p2 + p3 + p4 + p5, p6, tag);
  }

  // Parsing looks at tags 1 to 8 only.
  lemma ParseByFields(recs: seq<Rec>, printed: seq<Rec>)
    requires forall tag :: 1 <= tag <= 8 ==> Get(recs, tag) == Get(printed, tag)
    ensures ParseSocket(recs) == ParseSocket(printed)
  {
    hide Get, DecodeId, ParseFamily, ParseKind, ParseFlags, ParseAddress, ParseOptional;
    assert Get(recs, 1) == Get(printed, 1) && Get(recs, 2) == Get(printed, 2) && Get(recs, 3) == Get(printed, 3);
    assert Get(recs, 4) == Get(printed, 4) && Get(recs, 5) == Get(printed, 5) && Get(recs, 6) == Get(printed, 6);
    assert Get(recs, 7) == Get(printed, 7) && Get(recs, 8) == Get(printed, 8);
  }

  lemma OptionalNumber(v: nat)
    requires v < UINT_LIMIT
    ensures ParseOptional(IfNonZero(v)) == Some(v) && ParseFlags(IfNonZero(v)) == Some(v)
  {
    WholeRoundTrip(v);
  }

  lemma FamilyAndKind(a: SocketArgs)
    requires Narrow(a)
    ensures ParseFamily(Some(EncodeNumber(a.family))) == if a.family <= AF_MAX then Some(a.family) else None
    ensures ParseKind(Some(EncodeNumber(a.kind)))
            == if a.kind == STREAM || a.kind == DATAGRAM then Some(a.kind) else None
  {
    UintRoundTrip(a.family);
    UintRoundTrip(a.kind);
  }

  // What parsing finds under each tag of a printed request.
  lemma PrintedValues(a: SocketArgs)
    requires Narrow(a)
    ensures var p := PrintSocket(a);
            && Get(p, 1) == Some(EncodeNumber(a.id)) && DecodeId(Get(p, 1).value) == (if 0 < a.id <= ID_MAX then a.id else 0)
            && Get(p, 2).Some? && ParseFamily(Get(p, 2)) == (if a.family <= AF_MAX then Some(a.family) else None)
            && ParseKind(Get(p, 3)) == (if a.kind == STREAM || a.kind == DATAGRAM then Some(a.kind) else None)
            && Get(p, 4) == a.addr && ParseFlags(Get(p, 5)) == Some(a.flags)
            && (Get(p, 6).Some? <==> a.backlog != 0) && ParseOptional(Get(p, 6)) == Some(a.backlog)
            && ParseOptional(Get(p, 7)) == Some(a.timeout) && ParseOptional(Get(p, 8)) == Some(a.maxConn)
  {
    hide Get, PrintSocket, EncodeNumber, DecodeId, ParseFamily, ParseKind, ParseFlags, ParseOptional;
    PrintedField(a, 1);
    PrintedField(a, 2);
    PrintedField(a, 3);
    PrintedField(a, 4);
    PrintedField(a, 5);
    PrintedField(a, 6);
    PrintedField(a, 7);
    PrintedField(a, 8);
    IdRoundTrip(a.id);
    FamilyAndKind(a);
    OptionalNumber(a.flags);
    OptionalNumber(a.backlog);
    OptionalNumber(a.timeout);
    OptionalNumber(a.maxConn);
  }

  lemma PrintedParses(a: SocketArgs)
    requires Narrow(a)
    ensures ParseSocket(PrintSocket(a)) == if WellFormed(a) then Some(Meaning(a)) else None
  {
    hide Get, PrintSocket, EncodeNumber, DecodeId, ParseFamily, ParseKind, ParseFlags, ParseOptional, Family, Narrow;
    PrintedValues(a);
  }

  /** A SOCKET request that is printed and parsed comes back as it was if and only if it
      is well formed, and is refused otherwise; neither the order of the records nor
      records with other tags in between make a difference. */
  lemma SocketRoundTrip(a: SocketArgs, recs: seq<Rec>)
    requires Narrow(a) && AllFit(recs) && Single(recs, 8)
    requires multiset(Known(recs, 8)) == multiset(PrintSocket(a))
    ensures DecodeAll(EncodeAll(recs)).Some?
    ensures ParseSocket(DecodeAll(EncodeAll(recs)).value) == if WellFormed(a) then Some(Meaning(a)) else None
  {
    RecordsRoundTrip(recs);
    var p := PrintSocket(a);
    PrintedTags(a);
    KnownAll(p, 8);
    hide PrintSocket, ParseSocket, Known, Get, DecodeAll, EncodeAll, WellFormed, Meaning, Narrow;
    forall tag | 1 <= tag <= 8
      ensures Get(recs, tag) == Get(p, tag)
    {
      OrderDoesNotMatter(recs, p, 8, tag);
    }
    ParseByFields(recs, p);
    PrintedParses(a);
  }

  lemma PrintedTags(a: SocketArgs)
    ensures Single(PrintSocket(a), 8) && forall r :: r in PrintSocket(a) ==> r.tag <= 8
  {
    hide EncodeNumber;
  }

  lemma {:induction false} KnownAll(recs: seq<Rec>, top: nat)
    requires forall r :: r in recs ==> r.tag <= top
    ensures Known(recs, top) == recs
  {
    if recs != [] {
      var before, r := Front(recs), Last(recs);
      assert recs == before + [r] && r in recs;
      assert forall x :: x in before ==> x in recs;
      KnownAll(before, top);
      assert Known(recs, top) == Known(before, top) + [r];
    }
  }

  // ---------- What is refused ----------

  // A record that has to hold a 32-bit number does, if it is there.
  predicate Numeric(value: Option<Bytes>) {
    value.Some? ==> DecodeUint(value.value).Some?
  }

  function ValueOf(value: Option<Bytes>, default: nat): nat {
    if value.Some? && DecodeUint(value.value).Some? then DecodeUint(value.value).value else default
  }

  /** What a request, printed by whomever, has to fulfil: an id in range; numbers where numbers
      belong; a known socket type; an internet address of the stated family, or at least such
      a family; and no backlog without the Listen flag. */
  predicate Acceptable(recs: seq<Rec>) {
    && Get(recs, 1).Some? && DecodeId(Get(recs, 1).value) != 0
    && Numeric(Get(recs, 2)) && Numeric(Get(recs, 3)) && Numeric(Get(recs, 6)) && Numeric(Get(recs, 7)) && Numeric(Get(recs, 8))
    && (Get(recs, 5).Some? ==> Whole(Get(recs, 5).value).Some?)
    && (ValueOf(Get(recs, 3), STREAM) == STREAM || ValueOf(Get(recs, 3), STREAM) == DATAGRAM)
    && (Get(recs, 4).Some? ==>
          && Inet(Get(recs, 4).value)
          && (Get(recs, 2).Some? ==> Family(Get(recs, 4).value) == ValueOf(Get(recs, 2), AF_INET)))
    && (Get(recs, 4).None? ==>
          ValueOf(Get(recs, 2), AF_INET) == AF_INET || ValueOf(Get(recs, 2), AF_INET) == AF_INET6)
    && (Get(recs, 6).Some? ==> Get(recs, 5).Some? && Listening(Whole(Get(recs, 5).value).value))
  }

  /** The service accepts a request if and only if it is acceptable, and takes its fields from
      their records, with zero, a stream socket and AF_INET for the missing ones. */
  lemma AcceptsExactly(recs: seq<Rec>)
    ensures ParseSocket(recs).Some? <==> Acceptable(recs)
    ensures ParseSocket(recs).Some? ==>
              ParseSocket(recs).value
              == SocketRequest(DecodeId(Get(recs, 1).value), ValueOf(Get(recs, 3), STREAM),
                               if Get(recs, 4).Some? then Given(Get(recs, 4).value) else AnyOf(ValueOf(Get(recs, 2), AF_INET)),
                               if Get(recs, 5).Some? then Whole(Get(recs, 5).value).value else 0,
                               ValueOf(Get(recs, 6), 0), ValueOf(Get(recs, 7), 0), ValueOf(Get(recs, 8), 0))
  {
    hide Get, DecodeId, DecodeUint, Whole, Family;
  }

  // ---------- Where the service and the protocol differ ----------

  // Everything but address family and address is acceptable.
  predicate OthersFine(recs: seq<Rec>) {
    && Get(recs, 1).Some? && DecodeId(Get(recs, 1).value) != 0
    && ParseKind(Get(recs, 3)).Some? && ParseFlags(Get(recs, 5)).Some?
    && ParseOptional(Get(recs, 6)).Some? && ParseOptional(Get(recs, 7)).Some? && ParseOptional(Get(recs, 8)).Some?
    && (Get(recs, 6).Some? ==> Listening(ParseFlags(Get(recs, 5)).value))
  }

  lemma GetAdded(recs: seq<Rec>, r: Rec, tag: nat)
    ensures Get(recs + [r], tag) == if r.tag == tag then Some(r.value) else Get(recs, tag)
  {
    GetConcat(recs, [r], tag);
    GetOne(r, tag);
  }

  // Parsing takes the family from tag 2, or else from the address.
  lemma ParsedWithoutFamily(recs: seq<Rec>)
    requires Get(recs, 2).None?
    ensures Get(recs, 4).None? ==> (ParseSocket(recs).Some? <==> OthersFine(recs))
    ensures Get(recs, 4).Some? ==> (ParseSocket(recs).Some? <==> OthersFine(recs) && Inet(Get(recs, 4).value))
    ensures ParseSocket(recs).Some? ==>
              ParseSocket(recs).value.address
              == if Get(recs, 4).Some? then Given(Get(recs, 4).value) else AnyOf(AF_INET)
  {
    hide Get, DecodeId, ParseKind, ParseFlags, ParseOptional, Family;
  }

  lemma ParsedWithInet(recs: seq<Rec>)
    requires Get(recs, 2) == Some(EncodeNumber(AF_INET))
    ensures Get(recs, 4).Some? ==>
              (ParseSocket(recs).Some? <==>
               OthersFine(recs) && Inet(Get(recs, 4).value) && Family(Get(recs, 4).value) == AF_INET)
    ensures Get(recs, 4).None? ==> (ParseSocket(recs).Some? <==> OthersFine(recs))
    ensures ParseSocket(recs).Some? ==>
              ParseSocket(recs).value.address
              == if Get(recs, 4).Some? then Given(Get(recs, 4).value) else AnyOf(AF_INET)
  {
    UintRoundTrip(AF_INET);
    assert ParseFamily(Get(recs, 2)) == Some(AF_INET);
    hide Get, DecodeId, ParseFamily, ParseKind, ParseFlags, ParseOptional, Family, EncodeNumber;
  }

  // Parsing depends on the address through tags 2 and 4 only.
  lemma SameApartFromAddress(a: seq<Rec>, b: seq<Rec>)
    requires forall tag :: 1 <= tag <= 8 && tag != 2 ==> Get(a, tag) == Get(b, tag)
    ensures OthersFine(a) <==> OthersFine(b)
    ensures ParseSocket(a).Some? && ParseSocket(b).Some? && ParseSocket(a).value.address == ParseSocket(b).value.address ==>
              ParseSocket(a) == ParseSocket(b)
  {
    assert Get(a, 1) == Get(b, 1) && Get(a, 3) == Get(b, 3) && Get(a, 4) == Get(b, 4) && Get(a, 5) == Get(b, 5);
    assert Get(a, 6) == Get(b, 6) && Get(a, 7) == Get(b, 7) && Get(a, 8) == Get(b, 8);
    hide Get, DecodeId, ParseKind, ParseFlags, ParseOptional, Family, ParseFamily, ParseAddress, Bindable;
  }

  /** The protocol says that a missing address family stands for AF_INET, and that the
      address must then be of that family. The service takes any internet address: a
      request without tag 2 is treated as one with AF_INET in it if and only if it is
      refused anyway, has no address, or has an address of that family. */
  lemma FamilyFromAddress(recs: seq<Rec>)
    requires Get(recs, 2).None?
    ensures ParseSocket(recs).Some? <==> OthersFine(recs) && (Get(recs, 4).Some? ==> Inet(Get(recs, 4).value))
    ensures ParseSocket(recs) == ParseSocket(recs + [Number(2, AF_INET)]) <==>
              ParseSocket(recs).None? || Get(recs, 4).None? || Family(Get(recs, 4).value) == AF_INET
  {
    var more := recs + [Number(2, AF_INET)];
    forall tag | 1 <= tag <= 8
      ensures Get(more, tag) == if tag == 2 then Some(EncodeNumber(AF_INET)) else Get(recs, tag)
    {
      GetAdded(recs, Number(2, AF_INET), tag);
    }
    ParsedWithoutFamily(recs);
    ParsedWithInet(more);
    hide ParseSocket, Get, OthersFine, EncodeNumber, Family;
    SameApartFromAddress(recs, more);
  }

  /** The protocol calls for a non-zero backlog, timeout and connection limit. The service
      takes a zero as if the record were not there: always for the timeout and the limit,
      and for the backlog if and only if the Listen flag is set or the request is refused
      anyway. */
  lemma ZeroCountsAsAbsent(recs: seq<Rec>, tag: nat)
    requires 6 <= tag <= 8 && Get(recs, tag).None?
    ensures ParseSocket(recs + [Number(tag, 0)]) == ParseSocket(recs) <==>
              tag != 6 || ParseSocket(recs).None? || Listening(ParseSocket(recs).value.flags)
  {
    var more := recs + [Number(tag, 0)];
    forall t | 1 <= t <= 8
      ensures Get(more, t) == if t == tag then Some(EncodeNumber(0)) else Get(recs, t)
    {
      GetAdded(recs, Number(tag, 0), t);
    }
    UintRoundTrip(0);
    hide Get, DecodeId, ParseFamily, ParseKind, ParseFlags, ParseAddress, EncodeNumber, DecodeUint, Family;
    assert Get(more, 1) == Get(recs, 1) && Get(more, 2) == Get(recs, 2) && Get(more, 3) == Get(recs, 3);
    assert Get(more, 4) == Get(recs, 4) && Get(more, 5) == Get(recs, 5);
    assert forall t :: 6 <= t <= 8 ==> ParseOptional(Get(more, t)) == ParseOptional(Get(recs, t));
    assert ParseOptional(Get(more, 6)) == ParseOptional(Get(recs, 6));
    assert ParseOptional(Get(more, 7)) == ParseOptional(Get(recs, 7));
    assert ParseOptional(Get(more, 8)) == ParseOptional(Get(recs, 8));
    assert tag == 6 || Get(more, 6) == Get(recs, 6);
    hide ParseOptional, Bindable;
  }
}

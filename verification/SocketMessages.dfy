/** The messages of the socket interface, and the responses of the control interface:
    what the sender printed against what the receiver makes of it. */
module SocketMessages {
  import opened Base
  import opened Tlv
  import opened Messages

  // The records of a message p, in any order, among records with other tags.
  predicate Carries(recs: seq<Rec>, p: seq<Rec>, top: nat) {
    AllFit(recs) && Single(recs, top) && Single(p, top) && multiset(Known(recs, top)) == multiset(Known(p, top))
  }

  lemma SameFields(recs: seq<Rec>, p: seq<Rec>, top: nat)
    requires Carries(recs, p, top)
    ensures DecodeAll(EncodeAll(recs)) == Some(recs)
    ensures forall tag: nat :: tag <= top ==> Get(recs, tag) == Get(p, tag)
  {
    RecordsRoundTrip(recs);
    forall tag: nat | tag <= top
      ensures Get(recs, tag) == Get(p, tag)
    {
      OrderDoesNotMatter(recs, p, top, tag);
    }
  }

  lemma GetTwo(a: Rec, b: Rec, tag: nat)
    requires a.tag != b.tag
    ensures Get([a, b], tag) == if tag == a.tag then Some(a.value) else if tag == b.tag then Some(b.value) else None
  {
    assert [a, b] == [a] + [b];
    GetConcat([a], [b], tag);
    GetOne(a, tag);
    GetOne(b, tag);
  }

  // A record that may be missing.
  function Maybe(tag: nat, value: Option<Bytes>): seq<Rec> {
    if value.Some? then [Rec(tag, value.value)] else []
  }

  lemma GetMaybe(tag: nat, value: Option<Bytes>, t: nat)
    ensures Get(Maybe(tag, value), t) == if t == tag then value else None
  {
    if value.Some? {
      GetOne(Rec(tag, value.value), t);
    }
  }

  // ---------- ACCEPT ----------

  datatype AcceptResult =
    | AcceptOk(cid: nat, src: Bytes, dest: Option<Bytes>)
    | AcceptError(code: nat)
    | AcceptFailed

  function PrintAcceptOk(cid: nat, src: Bytes, dest: Option<Bytes>): seq<Rec> {
    [Number(1, 0), Number(2, cid)] + ([Rec(3, src)] + Maybe(4, dest))
  }

  // The status that a response starts with; None if there is none that can be used.
  function Status(recs: seq<Rec>): Option<nat> {
    if Get(recs, 1).None? then None
    else
      var v := DecodeUint(Get(recs, 1).value);
      if v.Some? && v.value < INT_MAX then v else None
  }

  function ParseAccept(recs: seq<Rec>): AcceptResult {
    var status := Status(recs);
    if status.None? then AcceptFailed
    else if status.value != 0 then AcceptError(status.value)
    else
      var cid := if Get(recs, 2).Some? then DecodeId(Get(recs, 2).value) else 0;
      if cid != 0 && Get(recs, 3).Some? then AcceptOk(cid, Get(recs, 3).value, Get(recs, 4)) else AcceptFailed
  }

  lemma StatusIs(recs: seq<Rec>, v: nat)
    requires v < UINT_LIMIT && Get(recs, 1) == Some(EncodeNumber(v))
    ensures Status(recs) == if v < INT_MAX then Some(v) else None
  {
    UintRoundTrip(v);
  }

  lemma AcceptFields(cid: nat, src: Bytes, dest: Option<Bytes>, tag: nat)
    ensures Get(PrintAcceptOk(cid, src, dest), tag)
            == match tag
               case 1 => Some(EncodeNumber(0))
               case 2 => Some(EncodeNumber(cid))
               case 3 => Some(src)
               case 4 => dest
               case _ => None
  {
    GetTwo(Number(1, 0), Number(2, cid), tag);
    GetOne(Rec(3, src), tag);
    GetMaybe(4, dest, tag);
    hide Get, EncodeNumber;
    GetConcat([Rec(3, src)], Maybe(4, dest), tag);
    GetConcat([Number(1, 0), Number(2, cid)], [Rec(3, src)] + Maybe(4, dest), tag);
  }

  /** A completed ACCEPT comes back with the same id and addresses if and only if the id
      is in range. */
  lemma AcceptRoundTrip(cid: nat, src: Bytes, dest: Option<Bytes>, recs: seq<Rec>)
    requires cid < UINT_LIMIT && Carries(recs, PrintAcceptOk(cid, src, dest), 4)
    ensures DecodeAll(EncodeAll(recs)).Some?
    ensures ParseAccept(DecodeAll(EncodeAll(recs)).value)
            == if 0 < cid <= ID_MAX then AcceptOk(cid, src, dest) else AcceptFailed
  {
    var p := PrintAcceptOk(cid, src, dest);
    SameFields(recs, p, 4);
    hide Get, PrintAcceptOk, Carries, EncodeNumber, DecodeAll, EncodeAll;
    AcceptFields(cid, src, dest, 1);
    AcceptFields(cid, src, dest, 2);
    AcceptFields(cid, src, dest, 3);
    AcceptFields(cid, src, dest, 4);
    StatusIs(recs, 0);
    IdRoundTrip(cid);
    hide Status, DecodeId;
  }

  /** The error code of a failed ACCEPT gets through if and only if it is positive and
      less than the largest int. */
  lemma AcceptErrorRoundTrip(code: nat, recs: seq<Rec>)
    requires code < UINT_LIMIT && Carries(recs, [Number(1, code)], 4)
    ensures DecodeAll(EncodeAll(recs)).Some?
    ensures ParseAccept(DecodeAll(EncodeAll(recs)).value)
            == if 0 < code < INT_MAX then AcceptError(code) else AcceptFailed
  {
    SameFields(recs, [Number(1, code)], 4);
    GetOne(Number(1, code), 1);
    GetOne(Number(1, code), 2);
    hide Get, Carries, EncodeNumber, DecodeAll, EncodeAll;
    StatusIs(recs, code);
    hide Status;
  }

  // ---------- DATA ----------

  datatype DataRequest = DataRequest(id: nat, payload: Bytes, from: Option<Bytes>)

  function PrintData(id: nat, payload: Bytes, from: Option<Bytes>): seq<Rec> {
    [Number(1, id)] + (Maybe(3, from) + [Rec(2, payload)])
  }

  /** An address that is no internet address counts as none. */
  function ParseData(recs: seq<Rec>): Option<DataRequest> {
    if Get(recs, 1).None? || Get(recs, 2).None? || DecodeId(Get(recs, 1).value) == 0 then None
    else
      var from := Get(recs, 3);
      Some(DataRequest(DecodeId(Get(recs, 1).value), Get(recs, 2).value,
                       if from.Some? && Inet(from.value) then from else None))
  }

  lemma DataFields(id: nat, payload: Bytes, from: Option<Bytes>, tag: nat)
    ensures Get(PrintData(id, payload, from), tag)
            == match tag
               case 1 => Some(EncodeNumber(id))
               case 2 => Some(payload)
               case 3 => from
               case _ => None
  {
    GetOne(Number(1, id), tag);
    GetMaybe(3, from, tag);
    GetOne(Rec(2, payload), tag);
    hide Get, EncodeNumber;
    GetConcat(Maybe(3, from), [Rec(2, payload)], tag);
    GetConcat([Number(1, id)], Maybe(3, from) + [Rec(2, payload)], tag);
  }

  /** DATA delivers any payload unchanged, to the same socket, with the same source. */
  lemma DataRoundTrip(id: nat, payload: Bytes, from: Option<Bytes>, recs: seq<Rec>)
    requires id < UINT_LIMIT && Carries(recs, PrintData(id, payload, from), 3)
    requires from.Some? ==> Inet(from.value)
    ensures DecodeAll(EncodeAll(recs)).Some?
    ensures ParseData(DecodeAll(EncodeAll(recs)).value)
            == if 0 < id <= ID_MAX then Some(DataRequest(id, payload, from)) else None
  {
    SameFields(recs, PrintData(id, payload, from), 3);
    hide Get, PrintData, Carries, EncodeNumber, DecodeAll, EncodeAll, Inet;
    DataFields(id, payload, from, 1);
    DataFields(id, payload, from, 2);
    DataFields(id, payload, from, 3);
    IdRoundTrip(id);
    hide DecodeId;
  }

  datatype DataResult = DataSent(bytes: nat) | DataFailed

  function PrintDataOk(bytes: nat): seq<Rec> {
    [Number(1, 0), Number(2, bytes)]
  }

  function ParseDataResponse(recs: seq<Rec>): DataResult {
    if Status(recs) == Some(0) && Get(recs, 2).Some? && DecodeUint(Get(recs, 2).value).Some?
    then DataSent(DecodeUint(Get(recs, 2).value).value)
    else DataFailed
  }

  /** The sender learns how many bytes were sent if and only if their number fits 32 bits. */
  lemma DataOkRoundTrip(bytes: nat, recs: seq<Rec>)
    requires bytes < UINT64_LIMIT && Carries(recs, PrintDataOk(bytes), 2)
    ensures DecodeAll(EncodeAll(recs)).Some?
    ensures ParseDataResponse(DecodeAll(EncodeAll(recs)).value)
            == if bytes < UINT_LIMIT then DataSent(bytes) else DataFailed
  {
    SameFields(recs, PrintDataOk(bytes), 2);
    GetTwo(Number(1, 0), Number(2, bytes), 1);
    GetTwo(Number(1, 0), Number(2, bytes), 2);
    hide Get, Carries, EncodeNumber, DecodeAll, EncodeAll;
    StatusIs(recs, 0);
    UintRoundTrip(bytes);
    hide Status, DecodeUint;
  }

  /** The code in an error response to DATA never reaches the sender: every code, even
      zero, reads as a failure without one. */
  lemma DataErrorIsLost(code: nat, recs: seq<Rec>)
    requires code < UINT_LIMIT && Carries(recs, [Number(1, code)], 2)
    ensures DecodeAll(EncodeAll(recs)).Some?
    ensures ParseDataResponse(DecodeAll(EncodeAll(recs)).value) == DataFailed
  {
    SameFields(recs, [Number(1, code)], 2);
    GetOne(Number(1, code), 2);
  }

  // ---------- SOCKET response ----------

  datatype SocketResult = SocketOk(id: nat, sa: Bytes) | SocketError(code: nat) | SocketFailed

  function PrintSocketOk(id: nat, sa: Bytes): seq<Rec> {
    [Number(2, id), Rec(3, sa)]
  }

  /** Either an id and an address, or an error code; nothing in between. The caller gets an
      error code negated, so that a code of zero reads as a failure of the call. */
  function ParseSocketResponse(recs: seq<Rec>): SocketResult {
    var error, id, sa := Get(recs, 1), Get(recs, 2), Get(recs, 3);
    if error.None? && id.Some? && sa.Some? then
      if DecodeId(id.value) != 0 && Inet(sa.value) then SocketOk(DecodeId(id.value), sa.value) else SocketFailed
    else if error.Some? && id.None? && sa.None? then
      var v := DecodeUint(error.value);
      if v.Some? && 0 < v.value < INT_MAX then SocketError(v.value) else SocketFailed
    else SocketFailed
  }

  lemma SocketResponseRoundTrip(id: nat, sa: Bytes, recs: seq<Rec>)
    requires id < UINT_LIMIT && Carries(recs, PrintSocketOk(id, sa), 3)
    ensures DecodeAll(EncodeAll(recs)).Some?
    ensures ParseSocketResponse(DecodeAll(EncodeAll(recs)).value)
            == if 0 < id <= ID_MAX && Inet(sa) then SocketOk(id, sa) else SocketFailed
  {
    SameFields(recs, PrintSocketOk(id, sa), 3);
    GetTwo(Number(2, id), Rec(3, sa), 1);
    GetTwo(Number(2, id), Rec(3, sa), 2);
    GetTwo(Number(2, id), Rec(3, sa), 3);
    hide Get, Carries, EncodeNumber, DecodeAll, EncodeAll, Inet;
    IdRoundTrip(id);
    hide DecodeId;
  }

  /** The error code of a failed SOCKET gets through if and only if it is positive and less
      than the largest int. */
  lemma SocketErrorRoundTrip(code: nat, recs: seq<Rec>)
    requires code < UINT_LIMIT && Carries(recs, [Number(1, code)], 3)
    ensures DecodeAll(EncodeAll(recs)).Some?
    ensures ParseSocketResponse(DecodeAll(EncodeAll(recs)).value)
            == if 0 < code < INT_MAX then SocketError(code) else SocketFailed
  {
    SameFields(recs, [Number(1, code)], 3);
    GetOne(Number(1, code), 1);
    GetOne(Number(1, code), 2);
    GetOne(Number(1, code), 3);
    hide Get, Carries, EncodeNumber, DecodeAll, EncodeAll;
    UintRoundTrip(code);
    hide DecodeUint;
  }

  // ---------- CONNECT and ACCEPTED ----------

  function PrintConnect(id: nat, sa: Bytes): seq<Rec> {
    [Number(1, id), Rec(2, sa)]
  }

  function ParseConnect(recs: seq<Rec>): Option<(nat, Bytes)> {
    if Get(recs, 1).Some? && Get(recs, 2).Some? && DecodeId(Get(recs, 1).value) != 0 && Inet(Get(recs, 2).value)
    then Some((DecodeId(Get(recs, 1).value), Get(recs, 2).value)) else None
  }

  lemma ConnectRoundTrip(id: nat, sa: Bytes, recs: seq<Rec>)
    requires id < UINT_LIMIT && Carries(recs, PrintConnect(id, sa), 2)
    ensures DecodeAll(EncodeAll(recs)).Some?
    ensures ParseConnect(DecodeAll(EncodeAll(recs)).value)
            == if 0 < id <= ID_MAX && Inet(sa) then Some((id, sa)) else None
  {
    SameFields(recs, PrintConnect(id, sa), 2);
    GetTwo(Number(1, id), Rec(2, sa), 1);
    GetTwo(Number(1, id), Rec(2, sa), 2);
    hide Get, Carries, EncodeNumber, DecodeAll, EncodeAll, Inet;
    IdRoundTrip(id);
    hide DecodeId;
  }

  function PrintAccepted(id: nat, cid: nat): seq<Rec> {
    [Number(1, id), Number(2, cid)]
  }

  function ParseAccepted(recs: seq<Rec>): Option<(nat, nat)> {
    if Get(recs, 1).Some? && Get(recs, 2).Some?
       && DecodeId(Get(recs, 1).value) != 0 && DecodeId(Get(recs, 2).value) != 0
    then Some((DecodeId(Get(recs, 1).value), DecodeId(Get(recs, 2).value))) else None
  }

  lemma AcceptedRoundTrip(id: nat, cid: nat, recs: seq<Rec>)
    requires id < UINT_LIMIT && cid < UINT_LIMIT && Carries(recs, PrintAccepted(id, cid), 2)
    ensures DecodeAll(EncodeAll(recs)).Some?
    ensures ParseAccepted(DecodeAll(EncodeAll(recs)).value)
            == if 0 < id <= ID_MAX && 0 < cid <= ID_MAX then Some((id, cid)) else None
  {
    SameFields(recs, PrintAccepted(id, cid), 2);
    GetTwo(Number(1, id), Number(2, cid), 1);
    GetTwo(Number(1, id), Number(2, cid), 2);
    hide Get, Carries, EncodeNumber, DecodeAll, EncodeAll;
    IdRoundTrip(id);
    IdRoundTrip(cid);
    hide DecodeId;
  }

  // ---------- INFO ----------

  datatype Info = Info(v1: nat, v2: nat, byteOrder: Bytes)

  function PrintInfo(v1: nat, v2: nat, byteOrder: Bytes): seq<Rec> {
    [Rec(1, EncodeNumber(v1) + EncodeNumber(v2)), Rec(2, byteOrder)]
  }

  // Two numbers and nothing else.
  function ParseVersions(s: Bytes): Option<(nat, nat)> {
    var first := DecodeNumber(s);
    if first.None? then None
    else
      var second := DecodeNumber(first.value.1);
      if second.None? || second.value.1 != [] then None else Some((first.value.0, second.value.0))
  }

  function Truncated(v: nat): nat {
    v % UINT_LIMIT
  }

  /** The versions are 64-bit numbers cut down to 32 bits once they have been compared. */
  function ParseInfo(recs: seq<Rec>): Option<Info> {
    if Get(recs, 1).None? || Get(recs, 2).None? then None
    else
      var v := ParseVersions(Get(recs, 1).value);
      if v.Some? && 0 < v.value.0 <= v.value.1 && v.value.0 <= 1 && |Get(recs, 2).value| == 4
      then Some(Info(Truncated(v.value.0), Truncated(v.value.1), Get(recs, 2).value)) else None
  }

  lemma VersionsRoundTrip(v1: nat, v2: nat)
    requires v1 < UINT64_LIMIT && v2 < UINT64_LIMIT
    ensures ParseVersions(EncodeNumber(v1) + EncodeNumber(v2)) == Some((v1, v2))
  {
    hide EncodeNumber, DecodeNumber;
    NumberRoundTrip(v1, EncodeNumber(v2));
    assert EncodeNumber(v2) + [] == EncodeNumber(v2);
    NumberRoundTrip(v2, []);
  }

  lemma FitsUint(v: nat)
    requires v < UINT_LIMIT
    ensures Truncated(v) == v
  {
  }

  lemma InfoRoundTrip(v1: nat, v2: nat, byteOrder: Bytes, recs: seq<Rec>)
    requires v1 < UINT_LIMIT && v2 < UINT_LIMIT && Carries(recs, PrintInfo(v1, v2, byteOrder), 2)
    ensures DecodeAll(EncodeAll(recs)).Some?
    ensures ParseInfo(DecodeAll(EncodeAll(recs)).value)
            == if v1 == 1 <= v2 && |byteOrder| == 4 then Some(Info(v1, v2, byteOrder)) else None
  {
    SameFields(recs, PrintInfo(v1, v2, byteOrder), 2);
    var a, b := Rec(1, EncodeNumber(v1) + EncodeNumber(v2)), Rec(2, byteOrder);
    GetTwo(a, b, 1);
    GetTwo(a, b, 2);
    VersionsRoundTrip(v1, v2);
    FitsUint(v1);
    FitsUint(v2);
    hide Get, Carries, EncodeNumber, DecodeAll, EncodeAll, ParseVersions, Truncated;
  }
}

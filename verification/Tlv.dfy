/** Multi-byte numbers and tag-length-value records, as in section 1 of the protocol:
    a number is written in base 128, most significant digit first, with the top bit
    set in every byte but the last. */
module Tlv {
  import opened Base

  type Byte = b: nat | b < 256

  type Bytes = seq<Byte>

  const UINT64_LIMIT: nat := 0x1_0000_0000_0000_0000

  datatype Rec = Rec(tag: nat, value: Bytes)

  // ---------- Numbers ----------

  function Digits(v: nat): Bytes {
    if v == 0 then [] else Digits(v / 128) + [128 + v % 128]
  }

  function EncodeNumber(v: nat): (r: Bytes)
    ensures r != []
  {
    Digits(v / 128) + [v % 128]
  }

  /** The number at the start of the input, after the digits that make up acc, and what
      follows it. Numbers have at most 64 bits. */
  function DecodeFrom(s: Bytes, acc: nat): (r: Option<(nat, Bytes)>)
    ensures r.Some? ==> r.value.0 < UINT64_LIMIT && |r.value.1| < |s|
  {
    if s == [] then None
    else
      var v := acc * 128 + s[0] % 128;
      if v >= UINT64_LIMIT then None
      else if s[0] < 128 then Some((v, s[1..]))
      else DecodeFrom(s[1..], v)
  }

  function DecodeNumber(s: Bytes): (r: Option<(nat, Bytes)>)
    ensures r.Some? ==> |r.value.1| < |s|
  {
    DecodeFrom(s, 0)
  }

  lemma TopBit(d: nat)
    requires d < 128
    ensures (128 + d) % 128 == d
  {
  }

  // One more digit that is not the last one.
  lemma DecodeStep(q: nat, d: nat, rest: Bytes)
    requires d < 128 && q * 128 + d < UINT64_LIMIT
    ensures DecodeFrom([128 + d] + rest, q) == DecodeFrom(rest, q * 128 + d)
  {
    var s: Bytes := [128 + d] + rest;
    TopBit(d);
    assert s[0] == 128 + d && s[1..] == rest;
    assert q * 128 + s[0] % 128 == q * 128 + d;
  }

  lemma {:induction false} DecodeDigits(v: nat, rest: Bytes)
    requires v < UINT64_LIMIT
    ensures DecodeFrom(Digits(v) + rest, 0) == DecodeFrom(rest, v)
  {
    if v == 0 {
      assert Digits(v) + rest == rest;
    } else {
      hide DecodeFrom;
      var b: Byte := 128 + v % 128;
      assert Digits(v) + rest == Digits(v / 128) + ([b] + rest);
      DecodeDigits(v / 128, [b] + rest);
      DecodeStep(v / 128, v % 128, rest);
      assert v / 128 * 128 + v % 128 == v;
    }
  }

  /** Decoding undoes encoding and leaves the rest of the input alone. */
  lemma NumberRoundTrip(v: nat, rest: Bytes)
    requires v < UINT64_LIMIT
    ensures DecodeNumber(EncodeNumber(v) + rest) == Some((v, rest))
  {
    var b: Byte := v % 128;
    assert EncodeNumber(v) + rest == Digits(v / 128) + ([b] + rest);
    DecodeDigits(v / 128, [b] + rest);
    assert ([b] + rest)[1..] == rest;
    assert v / 128 * 128 + b % 128 == v;
  }

  // A value that is one number and nothing else.
  function Whole(s: Bytes): Option<nat> {
    var d := DecodeNumber(s);
    if d.Some? && d.value.1 == [] then Some(d.value.0) else None
  }

  lemma WholeRoundTrip(v: nat)
    ensures Whole(EncodeNumber(v)) == if v < UINT64_LIMIT then Some(v) else None
  {
    assert EncodeNumber(v) + [] == EncodeNumber(v);
    if v < UINT64_LIMIT {
      NumberRoundTrip(v, []);
    } else {
      TooBig(v);
    }
  }

  lemma {:induction false} DigitsTooBig(v: nat, rest: Bytes)
    requires v >= UINT64_LIMIT
    ensures DecodeFrom(Digits(v) + rest, 0) == None
  {
    var b: Byte := 128 + v % 128;
    assert Digits(v) + rest == Digits(v / 128) + ([b] + rest);
    if v / 128 >= UINT64_LIMIT {
      DigitsTooBig(v / 128, [b] + rest);
    } else {
      DecodeDigits(v / 128, [b] + rest);
      assert v / 128 * 128 + b % 128 == v;
    }
  }

  lemma TooBig(v: nat)
    requires v >= UINT64_LIMIT
    ensures DecodeNumber(EncodeNumber(v)) == None
  {
    var b: Byte := v % 128;
    if v / 128 >= UINT64_LIMIT {
      DigitsTooBig(v / 128, [b]);
    } else {
      DecodeDigits(v / 128, [b]);
      assert v / 128 * 128 + b % 128 == v;
    }
  }

  // ---------- Records ----------

  function EncodeRec(r: Rec): Bytes {
    EncodeNumber(r.tag) + EncodeNumber(|r.value|) + r.value
  }

  function EncodeAll(recs: seq<Rec>): Bytes {
    if recs == [] then [] else EncodeRec(recs[0]) + EncodeAll(recs[1..])
  }

  /** None if some record is cut short or has tag zero. */
  function DecodeAll(s: Bytes): Option<seq<Rec>>
    decreases |s|
  {
    if s == [] then Some([])
    else
      var tag := DecodeNumber(s);
      if tag.None? || tag.value.0 == 0 then None
      else
        var len := DecodeNumber(tag.value.1);
        if len.None? || len.value.0 > |len.value.1| then None
        else
          var n := len.value.0;
          var rest := DecodeAll(len.value.1[n..]);
          if rest.None? then None else Some([Rec(tag.value.0, len.value.1[..n])] + rest.value)
  }

  predicate Fits(r: Rec) {
    0 < r.tag < UINT64_LIMIT && |r.value| < UINT64_LIMIT
  }

  predicate AllFit(recs: seq<Rec>) {
    forall i :: 0 <= i < |recs| ==> Fits(recs[i])
  }

  lemma RecAhead(r: Rec, rest: Bytes)
    requires Fits(r)
    ensures EncodeRec(r) + rest != []
    ensures DecodeNumber(EncodeRec(r) + rest) == Some((r.tag, EncodeNumber(|r.value|) + r.value + rest))
    ensures DecodeNumber(EncodeNumber(|r.value|) + r.value + rest) == Some((|r.value|, r.value + rest))
  {
    var len := EncodeNumber(|r.value|);
    assert EncodeRec(r) + rest == EncodeNumber(r.tag) + (len + r.value + rest);
    NumberRoundTrip(r.tag, len + r.value + rest);
    assert len + r.value + rest == len + (r.value + rest);
    NumberRoundTrip(|r.value|, r.value + rest);
  }

  /** Decoding records undoes encoding them. */
  lemma {:induction false} RecordsRoundTrip(recs: seq<Rec>)
    requires AllFit(recs)
    ensures DecodeAll(EncodeAll(recs)) == Some(recs)
  {
    if recs != [] {
      var r, rest := recs[0], EncodeAll(recs[1..]);
      hide EncodeNumber, DecodeNumber, EncodeRec;
      RecordsRoundTrip(recs[1..]);
      RecAhead(r, rest);
      var tail := r.value + rest;
      assert tail[|r.value|..] == rest && tail[..|r.value|] == r.value;
      assert [r] + recs[1..] == recs;
    }
  }

  // ---------- Looking records up ----------

  /** The value of the record with the given tag; unknown tags are never asked for. */
  function Get(recs: seq<Rec>, tag: nat): Option<Bytes> {
    if recs == [] then None
    else if Last(recs).tag == tag then Some(Last(recs).value)
    else Get(Front(recs), tag)
  }

  function Known(recs: seq<Rec>, top: nat): seq<Rec> {
    if recs == [] then []
    else Known(Front(recs), top) + if Last(recs).tag <= top then [Last(recs)] else []
  }

  // Tags 1 to top occur once at most.
  predicate Single(recs: seq<Rec>, top: nat) {
    forall j, k :: 0 <= j < k < |recs| && recs[j].tag <= top ==> recs[j].tag != recs[k].tag
  }

  lemma {:induction false} GetIs(recs: seq<Rec>, top: nat, r: Rec)
    requires Single(recs, top) && r in recs && r.tag <= top
    ensures Get(recs, r.tag) == Some(r.value)
  {
    if Last(recs).tag == r.tag {
      var i :| 0 <= i < |recs| && recs[i] == r;
    } else {
      assert recs == Front(recs) + [Last(recs)];
      GetIs(Front(recs), top, r);
    }
  }

  lemma {:induction false} GetNone(recs: seq<Rec>, tag: nat)
    requires forall r :: r in recs ==> r.tag != tag
    ensures Get(recs, tag) == None
  {
    if recs != [] {
      assert Last(recs) in recs;
      GetNone(Front(recs), tag);
    }
  }

  lemma {:induction false} KnownElements(recs: seq<Rec>, top: nat)
    ensures forall r :: r in Known(recs, top) <==> r in recs && r.tag <= top
  {
    if recs != [] {
      KnownElements(Front(recs), top);
      assert recs == Front(recs) + [Last(recs)];
    }
  }

  /** What is found does not depend on the order of the records, nor on records with
      unknown tags in between. */
  lemma OrderDoesNotMatter(a: seq<Rec>, b: seq<Rec>, top: nat, tag: nat)
    requires Single(a, top) && Single(b, top) && tag <= top
    requires multiset(Known(a, top)) == multiset(Known(b, top))
    ensures Get(a, tag) == Get(b, tag)
  {
    KnownElements(a, top);
    KnownElements(b, top);
    forall r
      ensures r in Known(a, top) <==> r in Known(b, top)
    {
      assert r in multiset(Known(a, top)) <==> r in multiset(Known(b, top));
    }
    hide Known;
    if r :| r in a && r.tag == tag {
      GetIs(a, top, r);
      assert r in Known(a, top);
      GetIs(b, top, r);
    } else {
      GetNone(a, tag);
      assert forall r :: r in b && r.tag == tag ==> r in Known(b, top);
      GetNone(b, tag);
    }
  }

  // ---------- Building ----------

  class ByteArray {
    var data: Bytes

    constructor ()
      ensures data == []
    {
      data := [];
    }

    method Append(tag: nat, value: Bytes)
      modifies this
      ensures data == old(data) + EncodeRec(Rec(tag, value))
    {
      data := data + EncodeNumber(tag);
      data := data + EncodeNumber(|value|);
      data := data + value;
    }

    method AppendNumber(tag: nat, v: nat)
      modifies this
      ensures data == old(data) + EncodeRec(Rec(tag, EncodeNumber(v)))
    {
      Append(tag, EncodeNumber(v));
    }
  }

  lemma {:induction false} EncodeSnoc(recs: seq<Rec>, r: Rec)
    ensures EncodeAll(recs + [r]) == EncodeAll(recs) + EncodeRec(r)
  {
    if recs == [] {
      assert [r][1..] == [];
    } else {
      EncodeSnoc(recs[1..], r);
      assert (recs + [r])[1..] == recs[1..] + [r];
    }
  }
}

/** The wire form of the cross-signed state (src/wire/lcss.rs). */
module LcssCodec {
  import opened Base
  import opened Endian
  import opened State
  import opened Codec
  import opened CodecLaws

  type Bytes64 = b: Bytes | |b| == 64 witness seq(64, _ => 0)
  type WireLcss = Lcss<Bytes64>

  // ---- Parameters ----------------------------------------------------------------------------

  function WriteU16s(vs: seq<U16>): Bytes {
    if vs == [] then [] else ToBe(vs[0], 2) + WriteU16s(vs[1..])
  }

  function ReadU16s(b: Bytes, n: nat): Read<seq<U16>> {
    if n == 0 then Ok(Got([], b))
    else
      PowValues();
      var v :- ReadUint(b, 2);
      var vs :- ReadU16s(v.rest, n - 1);
      Ok(Got([v.value as U16] + vs.value, vs.rest))
  }

  /** The count is written modulo 2^16, as the source casts it. */
  function EncodeInit(i: Init): Result<Bytes, EncodeError> {
    var maxInFlight :- WriteU64Overflow(i.maxInFlight);
    var minimum :- WriteU64Overflow(i.htlcMinimum);
    var capacity :- WriteU64Overflow(i.capacity);
    var balance :- WriteU64Overflow(i.initialClientBalance);
    Ok(maxInFlight + minimum + ToBe(i.maxAccepted, 2) + capacity + balance + ToBe(|i.features| % 0x1_0000, 2) + WriteU16s(i.features))
  }

  function DecodeInit(b: Bytes): Read<Init> {
    PowValues();
    var maxInFlight :- ReadU64Overflow(b);
    var minimum :- ReadU64Overflow(maxInFlight.rest);
    var maxAccepted :- ReadUint(minimum.rest, 2);
    var capacity :- ReadU64Overflow(maxAccepted.rest);
    var balance :- ReadU64Overflow(capacity.rest);
    var count :- ReadUint(balance.rest, 2);
    var features :- ReadU16s(count.rest, count.value);
    Ok(Got(Init(maxInFlight.value, minimum.value, maxAccepted.value, capacity.value, balance.value, features.value), features.rest))
  }

  // ---- HTLC lists ----------------------------------------------------------------------------

  function EncodeHtlcs(hs: seq<Htlc>): Result<Bytes, EncodeError> {
    if hs == [] then Ok([])
    else
      var body :- EncodeHtlc(hs[0]);
      var tail :- EncodeHtlcs(hs[1..]);
      Ok(WriteLengthDelimited(body) + tail)
  }

  function DecodeHtlcs(b: Bytes, n: nat): Read<seq<Htlc>> {
    if n == 0 then Ok(Got([], b))
    else
      var body :- ReadLengthDelimited(b);
      var h :- DecodeHtlc(body.value);
      var hs :- DecodeHtlcs(body.rest, n - 1);
      Ok(Got([h] + hs.value, hs.rest))
  }

  function EncodeList(hs: seq<Htlc>): Result<Bytes, EncodeError> {
    var body :- EncodeHtlcs(hs);
    Ok(ToBe(|hs| % 0x1_0000, 2) + body)
  }

  function DecodeList(b: Bytes): Read<seq<Htlc>> {
    var n :- ReadUint(b, 2);
    DecodeHtlcs(n.rest, n.value)
  }

  // ---- The state -----------------------------------------------------------------------------

  /** Day, balances and counters. */
  datatype Numbers = Numbers(blockDay: U32, local: U64, remote: U64, localUpdates: nat, remoteUpdates: nat)

  function NumbersOf(l: WireLcss): Numbers {
    Numbers(l.blockDay, l.localBalance, l.remoteBalance, l.localUpdates, l.remoteUpdates)
  }

  function EncodeNumbers(n: Numbers): Result<Bytes, EncodeError> {
    var local :- WriteU64Overflow(n.local);
    var remote :- WriteU64Overflow(n.remote);
    Ok(ToBe(n.blockDay, 4) + local + remote + ToBe(n.localUpdates, 4) + ToBe(n.remoteUpdates, 4))
  }

  function DecodeNumbers(b: Bytes): Read<Numbers> {
    PowValues();
    var day :- ReadUint(b, 4);
    var local :- ReadU64Overflow(day.rest);
    var remote :- ReadU64Overflow(local.rest);
    var lu :- ReadUint(remote.rest, 4);
    var ru :- ReadUint(lu.rest, 4);
    Ok(Got(Numbers(day.value, local.value, remote.value, lu.value, ru.value), ru.rest))
  }

  function EncodeLcss(l: WireLcss): Result<Bytes, EncodeError> {
    var refund :- WriteVarsize(l.refund);
    var init :- EncodeInit(l.init);
    var numbers :- EncodeNumbers(NumbersOf(l));
    var incoming :- EncodeList(l.incoming);
    var outgoing :- EncodeList(l.outgoing);
    Ok([if l.isHost then 1 else 0] + refund + WriteLengthDelimited(init) + numbers + incoming + outgoing
       + l.remoteSigOfLocal + l.localSigOfRemote)
  }

  function DecodeLcss(b: Bytes): Read<WireLcss> {
    var host :- ReadBytes(b, 1);
    var refund :- ReadVarsize(host.rest);
    var body :- ReadLengthDelimited(refund.rest);
    var init :- DecodeInit(body.value);
    if init.rest != [] then Err(Invalid)
    else
      var n :- DecodeNumbers(body.rest);
      var incoming :- DecodeList(n.rest);
      var outgoing :- DecodeList(incoming.rest);
      var remoteSig :- ReadBytes(outgoing.rest, 64);
      var localSig :- ReadBytes(remoteSig.rest, 64);
      Ok(Got(Lcss(host.value[0] != 0, refund.value, init.value, n.value.blockDay, n.value.local, n.value.remote,
                  n.value.localUpdates, n.value.remoteUpdates, incoming.value, outgoing.value, remoteSig.value, localSig.value),
             localSig.rest))
  }

  // ---- Round trips ---------------------------------------------------------------------------

  lemma {:induction false} U64Back(v: U64, rest: Bytes)
    requires v <= OVERFLOW_MAX
    ensures ReadU64Overflow(ToBe(v, 8) + rest) == Ok(Got(v, rest))
  {
    hide Pow256, ReadUint;
    PowValues();
    ReadUintBack(v, 8, rest);
  }

  lemma {:induction false} U16sBack(vs: seq<U16>, rest: Bytes)
    ensures ReadU16s(WriteU16s(vs) + rest, |vs|) == Ok(Got(vs, rest))
  {
    hide Pow256, ReadUint;
    PowValues();
    if vs == [] {
      assert [] + rest == rest;
    } else {
      U16sBack(vs[1..], rest);
      assert WriteU16s(vs) + rest == ToBe(vs[0], 2) + (WriteU16s(vs[1..]) + rest);
      ReadUintBack(vs[0], 2, WriteU16s(vs[1..]) + rest);
      assert [vs[0]] + vs[1..] == vs;
    }
  }

  lemma {:induction false} Cat3(a: Bytes, b: Bytes, c: Bytes)
    ensures a + b + c == a + (b + c)
  {
  }

  /** Five, six or seven parts in a row, each followed by all that comes after it. */
  lemma {:induction false} Cat6(a: Bytes, b: Bytes, c: Bytes, d: Bytes, e: Bytes, f: Bytes)
    ensures a + b + c + d + e + f == a + (b + (c + (d + (e + f))))
  {
    Cat3(a + b + c + d, e, f);
    Cat3(a + b + c, d, e + f);
    Cat3(a + b, c, d + (e + f));
    Cat3(a, b, c + (d + (e + f)));
  }

  lemma {:induction false} Cat8(a: Bytes, b: Bytes, c: Bytes, d: Bytes, e: Bytes, f: Bytes, g: Bytes, h: Bytes)
    ensures a + b + c + d + e + f + g + h == a + (b + (c + (d + (e + (f + (g + h))))))
  {
    Cat3(a + b + c + d + e + f, g, h);
    Cat6(a, b, c, d, e, f);
    Cat6(a, b, c, d, e, f + (g + h));
    Cat3(a + b + c + d + e, f, g + h);
  }

  lemma {:induction false} InitBack(i: Init, rest: Bytes)
    requires EncodeInit(i).Ok? && |i.features| < 0x1_0000
    ensures DecodeInit(EncodeInit(i).value + rest) == Ok(Got(i, rest))
  {
    hide Pow256, ReadUint, ReadU64Overflow, ToBe, WriteU16s, ReadU16s;
    PowValues();
    var a, b, c, d, e := ToBe(i.maxInFlight, 8), ToBe(i.htlcMinimum, 8), ToBe(i.maxAccepted, 2), ToBe(i.capacity, 8), ToBe(i.initialClientBalance, 8);
    var f, g := ToBe(|i.features|, 2), WriteU16s(i.features);
    Cat8(a, b, c, d, e, f, g, rest);
    U64Back(i.maxInFlight, b + (c + (d + (e + (f + (g + rest))))));
    U64Back(i.htlcMinimum, c + (d + (e + (f + (g + rest)))));
    ReadUintBack(i.maxAccepted, 2, d + (e + (f + (g + rest))));
    U64Back(i.capacity, e + (f + (g + rest)));
    U64Back(i.initialClientBalance, f + (g + rest));
    ReadUintBack(|i.features|, 2, g + rest);
    U16sBack(i.features, rest);
  }

  lemma {:induction false} HtlcBack(h: Htlc)
    requires EncodeHtlc(h).Ok? && ValidateTlv(h.tlv).Ok?
    ensures DecodeHtlc(EncodeHtlc(h).value) == Ok(h)
  {
    hide Pow256, ReadUint, ReadU64Overflow, ToBe, ValidateTlv;
    PowValues();
    var a, b, c, d, e := h.channelId, ToBe(h.id, 8), ToBe(h.amount, 8), h.paymentHash, ToBe(h.cltvExpiry, 4);
    Cat8(a, b, c, d, e, h.onion, h.tlv, []);
    Cat6(a, b, c, d, e, h.onion + h.tlv);
    Cat3(a + b + c + d + e, h.onion, h.tlv);
    ReadBytesBack(a, b + (c + (d + (e + (h.onion + h.tlv)))));
    U64Back(h.id, c + (d + (e + (h.onion + h.tlv))));
    U64Back(h.amount, d + (e + (h.onion + h.tlv)));
    ReadBytesBack(d, e + (h.onion + h.tlv));
    ReadUintBack(h.cltvExpiry, 4, h.onion + h.tlv);
    ReadBytesBack(h.onion, h.tlv);
  }

  lemma {:induction false} DelimitedBack(body: Bytes, rest: Bytes)
    requires |body| < U64_BOUND
    ensures ReadLengthDelimited(WriteLengthDelimited(body) + rest) == Ok(Got(body, rest))
  {
    hide WriteVarint, ReadVarint;
    Cat3(WriteVarint(|body|), body, rest);
    VarintBack(|body|, body + rest);
    ReadBytesBack(body, rest);
  }

  predicate HtlcsFit(hs: seq<Htlc>) {
    forall i :: 0 <= i < |hs| ==> ValidateTlv(hs[i].tlv).Ok?
  }

  /** TLV streams shorter than 4 GB, so that the length of a body is not cut off. */
  predicate InMemory(hs: seq<Htlc>) {
    forall i :: 0 <= i < |hs| ==> |hs[i].tlv| < 0x1_0000_0000
  }

  lemma {:induction false} HtlcsBack(hs: seq<Htlc>, rest: Bytes)
    requires EncodeHtlcs(hs).Ok? && HtlcsFit(hs) && InMemory(hs)
    ensures DecodeHtlcs(EncodeHtlcs(hs).value + rest, |hs|) == Ok(Got(hs, rest))
  {
    hide EncodeHtlc, DecodeHtlc, ReadLengthDelimited, WriteLengthDelimited;
    if hs == [] {
      assert [] + rest == rest;
    } else {
      var body, tail := EncodeHtlc(hs[0]).value, EncodeHtlcs(hs[1..]).value;
      HtlcsBack(hs[1..], rest);
      HtlcSize(hs[0]);
      HtlcBack(hs[0]);
      Cat3(WriteLengthDelimited(body), tail, rest);
      DelimitedBack(body, tail + rest);
      assert [hs[0]] + hs[1..] == hs;
    }
  }

  lemma {:induction false} HtlcSize(h: Htlc)
    requires EncodeHtlc(h).Ok?
    ensures |EncodeHtlc(h).value| == 84 + ONION_SIZE + |h.tlv|
  {
  }

  lemma {:induction false} ListBack(hs: seq<Htlc>, rest: Bytes)
    requires EncodeList(hs).Ok? && HtlcsFit(hs) && InMemory(hs) && |hs| < 0x1_0000
    ensures DecodeList(EncodeList(hs).value + rest) == Ok(Got(hs, rest))
  {
    hide EncodeHtlcs, DecodeHtlcs, ReadUint, ToBe, Pow256;
    PowValues();
    var body := EncodeHtlcs(hs).value;
    Cat3(ToBe(|hs|, 2), body, rest);
    ReadUintBack(|hs|, 2, body + rest);
    HtlcsBack(hs, rest);
  }

  lemma {:induction false} NumbersBack(n: Numbers, rest: Bytes)
    requires EncodeNumbers(n).Ok? && n.localUpdates < 0x1_0000_0000 && n.remoteUpdates < 0x1_0000_0000
    ensures DecodeNumbers(EncodeNumbers(n).value + rest) == Ok(Got(n, rest))
  {
    hide Pow256, ReadUint, ReadU64Overflow, ToBe;
    PowValues();
    var a, b, c, d, e := ToBe(n.blockDay, 4), ToBe(n.local, 8), ToBe(n.remote, 8), ToBe(n.localUpdates, 4), ToBe(n.remoteUpdates, 4);
    Cat6(a, b, c, d, e, rest);
    ReadUintBack(n.blockDay, 4, b + (c + (d + (e + rest))));
    U64Back(n.local, c + (d + (e + rest)));
    U64Back(n.remote, d + (e + rest));
    ReadUintBack(n.localUpdates, 4, e + rest);
    ReadUintBack(n.remoteUpdates, 4, rest);
  }

  lemma {:induction false} VarsizeBack(data: Bytes, rest: Bytes)
    requires WriteVarsize(data).Ok?
    ensures ReadVarsize(WriteVarsize(data).value + rest) == Ok(Got(data, rest))
  {
    hide ReadUint, ToBe, Pow256;
    PowValues();
    Cat3(ToBe(|data|, 2), data, rest);
    ReadUintBack(|data|, 2, data + rest);
    ReadBytesBack(data, rest);
  }

  /** Counters and list lengths that their wire fields can hold, and HTLCs whose TLV streams are valid. */
  predicate WireFits(l: WireLcss) {
    && l.localUpdates < 0x1_0000_0000 && l.remoteUpdates < 0x1_0000_0000
    && |l.init.features| < 0x1_0000 && |l.incoming| < 0x1_0000 && |l.outgoing| < 0x1_0000
    && HtlcsFit(l.incoming) && HtlcsFit(l.outgoing)
  }

  lemma {:induction false} InitSize(i: Init)
    requires EncodeInit(i).Ok?
    ensures |EncodeInit(i).value| == 36 + 2 * |i.features|
  {
    U16sSize(i.features);
  }

  lemma {:induction false} U16sSize(vs: seq<U16>)
    ensures |WriteU16s(vs)| == 2 * |vs|
  {
    if vs != [] {
      U16sSize(vs[1..]);
    }
  }

  /** Decoding gives back the encoded state and leaves whatever follows it untouched. */
  lemma {:induction false} LcssBack(l: WireLcss, rest: Bytes)
    requires EncodeLcss(l).Ok? && WireFits(l) && InMemory(l.incoming) && InMemory(l.outgoing)
    ensures DecodeLcss(EncodeLcss(l).value + rest) == Ok(Got(l, rest))
  {
    hide WriteVarsize, EncodeInit, DecodeInit, EncodeNumbers, DecodeNumbers, EncodeList, DecodeList, WriteLengthDelimited,
         ReadLengthDelimited, ReadVarsize, HtlcsFit, InMemory;
    var host: Bytes := [if l.isHost then 1 else 0];
    var refund, init, numbers := WriteVarsize(l.refund).value, EncodeInit(l.init).value, EncodeNumbers(NumbersOf(l)).value;
    var body, incoming, outgoing := WriteLengthDelimited(init), EncodeList(l.incoming).value, EncodeList(l.outgoing).value;
    var sigs := l.remoteSigOfLocal + (l.localSigOfRemote + rest);
    InitSize(l.init);
    Cat8(host, refund, body, numbers, incoming, outgoing, l.remoteSigOfLocal, l.localSigOfRemote);
    assert EncodeLcss(l).value + rest == host + (refund + (body + (numbers + (incoming + (outgoing + sigs))))) by {
      Cat3(host + refund + body + numbers + incoming + outgoing + l.remoteSigOfLocal, l.localSigOfRemote, rest);
      Cat8(host, refund, body, numbers, incoming, outgoing, l.remoteSigOfLocal, l.localSigOfRemote + rest);
    }
    ReadBytesBack(host, refund + (body + (numbers + (incoming + (outgoing + sigs)))));
    VarsizeBack(l.refund, body + (numbers + (incoming + (outgoing + sigs))));
    DelimitedBack(init, numbers + (incoming + (outgoing + sigs)));
    InitBack(l.init, []);
    assert init + [] == init;
    NumbersBack(NumbersOf(l), incoming + (outgoing + sigs));
    ListBack(l.incoming, outgoing + sigs);
    ListBack(l.outgoing, sigs);
    ReadBytesBack(l.remoteSigOfLocal, l.localSigOfRemote + rest);
    ReadBytesBack(l.localSigOfRemote, rest);
  }

  lemma {:induction false} HtlcsDecodedFit(b: Bytes, n: nat)
    requires DecodeHtlcs(b, n).Ok?
    ensures |DecodeHtlcs(b, n).value.value| == n && HtlcsFit(DecodeHtlcs(b, n).value.value)
    decreases n
  {
    hide ReadLengthDelimited, ValidateTlv, DecodeHtlc;
    if n > 0 {
      var body := ReadLengthDelimited(b).value;
      HtlcDecodedFits(body.value);
      HtlcsDecodedFit(body.rest, n - 1);
    }
  }

  lemma {:induction false} HtlcDecodedFits(b: Bytes)
    requires DecodeHtlc(b).Ok?
    ensures ValidateTlv(DecodeHtlc(b).value.tlv).Ok?
  {
    hide ValidateTlv, ReadUint, ReadU64Overflow;
  }

  lemma {:induction false} U16sDecodedFit(b: Bytes, n: nat)
    requires ReadU16s(b, n).Ok?
    ensures |ReadU16s(b, n).value.value| == n
  {
    hide Pow256;
    if n > 0 {
      U16sDecodedFit(ReadUint(b, 2).value.rest, n - 1);
    }
  }

  lemma {:induction false} ListDecodedFits(b: Bytes)
    requires DecodeList(b).Ok?
    ensures |DecodeList(b).value.value| < 0x1_0000 && HtlcsFit(DecodeList(b).value.value)
  {
    hide Pow256, DecodeHtlcs;
    PowValues();
    var n := ReadUint(b, 2).value;
    HtlcsDecodedFit(n.rest, n.value);
  }

  lemma {:induction false} InitDecodedFits(b: Bytes)
    requires DecodeInit(b).Ok?
    ensures |DecodeInit(b).value.value.features| < 0x1_0000
  {
    hide Pow256, ReadU16s;
    PowValues();
    var a := ReadU64Overflow(b).value;
    var c := ReadU64Overflow(a.rest).value;
    var d := ReadUint(c.rest, 2).value;
    var e := ReadU64Overflow(d.rest).value;
    var f := ReadU64Overflow(e.rest).value;
    var g := ReadUint(f.rest, 2).value;
    U16sDecodedFit(g.rest, g.value);
  }

  /** Whatever is decoded fits the wire fields. */
  lemma {:induction false} DecodedFits(b: Bytes)
    requires DecodeLcss(b).Ok?
    ensures WireFits(DecodeLcss(b).value.value)
  {
    hide DecodeInit, DecodeList, ReadVarsize, ReadLengthDelimited, Pow256, HtlcsFit;
    PowValues();
    var refund := ReadVarsize(b[1..]).value;
    var body := ReadLengthDelimited(refund.rest).value;
    var n := DecodeNumbers(body.rest).value;
    InitDecodedFits(body.value);
    ListDecodedFits(n.rest);
    ListDecodedFits(DecodeList(n.rest).value.rest);
  }

  /** An encoded state decodes to itself exactly when its counters, lists and TLV streams fit the format. */
  lemma {:induction false} LcssRoundTripIff(l: WireLcss, rest: Bytes)
    requires EncodeLcss(l).Ok? && InMemory(l.incoming) && InMemory(l.outgoing)
    ensures DecodeLcss(EncodeLcss(l).value + rest) == Ok(Got(l, rest)) <==> WireFits(l)
  {
    hide EncodeLcss, DecodeLcss, WireFits, InMemory;
    if WireFits(l) {
      LcssBack(l, rest);
    }
    if DecodeLcss(EncodeLcss(l).value + rest) == Ok(Got(l, rest)) {
      DecodedFits(EncodeLcss(l).value + rest);
    }
  }

  /** Encoding succeeds exactly when every amount and id is below 2^63 and onions have their size. */
  lemma {:induction false} EncodesIff(hs: seq<Htlc>)
    ensures EncodeHtlcs(hs).Ok? <==> HtlcsEncode(hs)
  {
    if hs != [] {
      EncodesIff(hs[1..]);
      assert forall i :: 0 < i < |hs| ==> hs[i] == hs[1..][i - 1];
      assert forall i :: 0 <= i < |hs| - 1 ==> hs[1..][i] == hs[i + 1];
      assert EncodeHtlc(hs[0]).Ok? <==> HtlcEncodes(hs[0]);
    }
  }

  /** A state with one HTLC whose TLV stream is cut off after its type. */
  function CutOffState(): WireLcss {
    var htlc := Htlc(Zeros(32), 1, 0, Zeros(32), 0, Zeros(ONION_SIZE), [1]);
    Lcss(true, [], Init(0, 0, 0, 0, 0, []), 0, 0, 0, 0, 0, [], [htlc], Zeros(64), Zeros(64))
  }

  /** The writer does not look at TLV streams: this state encodes and does not decode to itself. */
  lemma {:induction false} CutOffStateIsLost(rest: Bytes)
    ensures EncodeLcss(CutOffState()).Ok?
    ensures DecodeLcss(EncodeLcss(CutOffState()).value + rest) != Ok(Got(CutOffState(), rest))
  {
    hide EncodeHtlcs, DecodeLcss;
    var l := CutOffState();
    var tlv: Bytes := l.outgoing[0].tlv;
    EncodesIff([]);
    EncodesIff(l.outgoing);
    assert ReadVarint(tlv) == Ok(Got(1, [])) by { assert tlv[1..] == []; }
    assert ValidateTlv(tlv).Err?;
    assert EncodeLcss(l).Ok?;
    LcssRoundTripIff(l, rest);
  }

  // ---- The loops over HTLCs --------------------------------------------------------------------

  /** Appends each HTLC of a list, length-delimited, to a buffer. */
  method WriteHtlcs(buf: Bytes, hs: seq<Htlc>) returns (r: Result<Bytes, EncodeError>)
    ensures r == (var body :- EncodeHtlcs(hs); Ok(buf + body))
  {
    hide EncodeHtlc, WriteLengthDelimited, EncodeHtlcs;
    var written := buf;
    EncodeNone();
    assert buf + [] == buf && hs[0..] == hs;
    for i := 0 to |hs|
      invariant (var body :- EncodeHtlcs(hs); Ok(buf + body)) == (var body :- EncodeHtlcs(hs[i..]); Ok(written + body))
    {
      EncodeNext(hs[i..]);
      assert hs[i..][1..] == hs[i + 1..];
      var body := EncodeHtlc(hs[i]);
      if body.Err? {
        return Err(body.error);
      }
      if EncodeHtlcs(hs[i + 1..]).Ok? {
        Cat3(written, WriteLengthDelimited(body.value), EncodeHtlcs(hs[i + 1..]).value);
      }
      written := written + WriteLengthDelimited(body.value);
    }
    assert hs[|hs|..] == [];
    assert written + [] == written;
    r := Ok(written);
  }

  lemma {:induction false} EncodeNone()
    ensures EncodeHtlcs([]) == Ok([])
  {
  }

  lemma {:induction false} EncodeNext(hs: seq<Htlc>)
    requires hs != []
    ensures EncodeHtlcs(hs) ==
      (var body :- EncodeHtlc(hs[0]); var tail :- EncodeHtlcs(hs[1..]); Ok(WriteLengthDelimited(body) + tail))
  {
  }

  /** Reads `n` length-delimited HTLCs at the cursor; each body must be consumed whole. */
  method TakeHtlcs(buf: Cursor, n: nat) returns (r: Result<seq<Htlc>, DecodeError>)
    modifies buf
    ensures match DecodeHtlcs(old(buf.rest), n)
      case Ok(g) => r == Ok(g.value) && buf.rest == g.rest
      case Err(e) => r == Err(e)
  {
    hide DecodeHtlc, ReadVarint, DecodeHtlcs;
    var hs: seq<Htlc> := [];
    if DecodeHtlcs(buf.rest, n).Ok? {
      assert hs + DecodeHtlcs(buf.rest, n).value.value == DecodeHtlcs(buf.rest, n).value.value;
    }
    for i := 0 to n
      invariant (var g :- DecodeHtlcs(old(buf.rest), n); Ok(g)) ==
        (var g :- DecodeHtlcs(buf.rest, n - i); Ok(Got(hs + g.value, g.rest)))
    {
      DecodeNext(buf.rest, n - i);
      var len := buf.TakeVarint();
      if len.Err? {
        return Err(len.error);
      }
      var body := buf.TakeBytes(len.value);
      if body.Err? {
        return Err(body.error);
      }
      var h := DecodeHtlc(body.value);
      if h.Err? {
        return Err(h.error);
      }
      if DecodeHtlcs(buf.rest, n - i - 1).Ok? {
        var g := DecodeHtlcs(buf.rest, n - i - 1).value;
        assert hs + ([h.value] + g.value) == (hs + [h.value]) + g.value;
      }
      hs := hs + [h.value];
    }
    DecodeNone(buf.rest);
    assert hs + [] == hs;
    r := Ok(hs);
  }

  lemma {:induction false} DecodeNone(b: Bytes)
    ensures DecodeHtlcs(b, 0) == Ok(Got([], b))
  {
  }

  lemma {:induction false} DecodeNext(b: Bytes, n: nat)
    requires n > 0
    ensures DecodeHtlcs(b, n) ==
      (var body :- ReadLengthDelimited(b);
       var h :- DecodeHtlc(body.value);
       var hs :- DecodeHtlcs(body.rest, n - 1);
       Ok(Got([h] + hs.value, hs.rest)))
  {
  }
}

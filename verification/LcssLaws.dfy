/** What the reader of cross-signed states accepts: nothing but what the writer writes. */
module LcssLaws {
  import opened Base
  import opened Endian
  import opened State
  import opened Codec
  import opened CodecLaws
  import opened LcssCodec

  // ---- Parts ---------------------------------------------------------------------------------

  lemma {:induction false} BytesOnly(b: Bytes, n: nat)
    requires ReadBytes(b, n).Ok?
    ensures |ReadBytes(b, n).value.value| == n && b == ReadBytes(b, n).value.value + ReadBytes(b, n).value.rest
  {
  }

  lemma {:induction false} U64Only(b: Bytes)
    requires ReadU64Overflow(b).Ok?
    ensures var g := ReadU64Overflow(b).value; WriteU64Overflow(g.value) == Ok(ToBe(g.value, 8)) && b == ToBe(g.value, 8) + g.rest
  {
    hide ToBe, Pow256;
    ReadUintOnly(b, 8);
  }

  lemma {:induction false} DelimitedOnly(b: Bytes)
    requires ReadLengthDelimited(b).Ok?
    ensures var g := ReadLengthDelimited(b).value; b == WriteLengthDelimited(g.value) + g.rest
  {
    hide WriteVarint, ReadVarint;
    var len := ReadVarint(b).value;
    VarintIff(b, len.value, len.rest);
    BytesOnly(len.rest, len.value);
    var body, rest := ReadBytes(len.rest, len.value).value.value, ReadBytes(len.rest, len.value).value.rest;
    Cat3(WriteVarint(|body|), body, rest);
  }

  lemma {:induction false} VarsizeOnly(b: Bytes)
    requires ReadVarsize(b).Ok?
    ensures var g := ReadVarsize(b).value; WriteVarsize(g.value).Ok? && b == WriteVarsize(g.value).value + g.rest
  {
    hide ToBe, Pow256, ReadUint;
    PowValues();
    var len := ReadUint(b, 2).value;
    ReadUintOnly(b, 2);
    BytesOnly(len.rest, len.value);
    var g := ReadVarsize(b).value;
    Cat3(ToBe(|g.value|, 2), g.value, g.rest);
  }

  lemma {:induction false} U16sOnly(b: Bytes, n: nat)
    requires ReadU16s(b, n).Ok?
    ensures var g := ReadU16s(b, n).value; |g.value| == n && b == WriteU16s(g.value) + g.rest
    decreases n
  {
    hide ToBe, Pow256, ReadUint;
    PowValues();
    if n == 0 {
      assert [] + b == b;
    } else {
      var v := ReadUint(b, 2).value;
      ReadUintOnly(b, 2);
      U16sOnly(v.rest, n - 1);
      var vs := ReadU16s(v.rest, n - 1).value;
      assert ([v.value as U16] + vs.value)[1..] == vs.value;
      Cat3(ToBe(v.value, 2), WriteU16s(vs.value), vs.rest);
    }
  }

  lemma {:induction false} InitOnly(b: Bytes)
    requires DecodeInit(b).Ok?
    ensures var g := DecodeInit(b).value;
      EncodeInit(g.value).Ok? && |g.value.features| < 0x1_0000 && b == EncodeInit(g.value).value + g.rest
  {
    hide Pow256, ReadUint, ReadU64Overflow, WriteU64Overflow, ToBe, WriteU16s, ReadU16s;
    PowValues();
    var g1 := ReadU64Overflow(b).value;
    var g2 := ReadU64Overflow(g1.rest).value;
    var g3 := ReadUint(g2.rest, 2).value;
    var g4 := ReadU64Overflow(g3.rest).value;
    var g5 := ReadU64Overflow(g4.rest).value;
    var g6 := ReadUint(g5.rest, 2).value;
    U64Only(b);
    U64Only(g1.rest);
    ReadUintOnly(g2.rest, 2);
    U64Only(g3.rest);
    U64Only(g4.rest);
    ReadUintOnly(g5.rest, 2);
    U16sOnly(g6.rest, g6.value);
    var i, rest := DecodeInit(b).value.value, DecodeInit(b).value.rest;
    Cat8(ToBe(i.maxInFlight, 8), ToBe(i.htlcMinimum, 8), ToBe(i.maxAccepted, 2), ToBe(i.capacity, 8), ToBe(i.initialClientBalance, 8),
         ToBe(|i.features|, 2), WriteU16s(i.features), rest);
  }

  lemma {:induction false} HtlcOnly(b: Bytes)
    requires DecodeHtlc(b).Ok?
    ensures EncodeHtlc(DecodeHtlc(b).value) == Ok(b) && ValidateTlv(DecodeHtlc(b).value.tlv).Ok?
  {
    hide Pow256, ReadUint, ReadU64Overflow, WriteU64Overflow, ToBe, ValidateTlv, ReadBytes;
    PowValues();
    var g1 := ReadBytes(b, 32).value;
    var g2 := ReadU64Overflow(g1.rest).value;
    var g3 := ReadU64Overflow(g2.rest).value;
    var g4 := ReadBytes(g3.rest, 32).value;
    var g5 := ReadUint(g4.rest, 4).value;
    var g6 := ReadBytes(g5.rest, ONION_SIZE).value;
    BytesOnly(b, 32);
    U64Only(g1.rest);
    U64Only(g2.rest);
    BytesOnly(g3.rest, 32);
    ReadUintOnly(g4.rest, 4);
    BytesOnly(g5.rest, ONION_SIZE);
    var h := DecodeHtlc(b).value;
    Cat3(h.channelId + ToBe(h.id, 8) + ToBe(h.amount, 8) + h.paymentHash + ToBe(h.cltvExpiry, 4), h.onion, h.tlv);
    Cat6(h.channelId, ToBe(h.id, 8), ToBe(h.amount, 8), h.paymentHash, ToBe(h.cltvExpiry, 4), h.onion + h.tlv);
  }

  lemma {:induction false} HtlcsOnly(b: Bytes, n: nat)
    requires DecodeHtlcs(b, n).Ok?
    ensures var g := DecodeHtlcs(b, n).value; |g.value| == n && EncodeHtlcs(g.value).Ok? && b == EncodeHtlcs(g.value).value + g.rest
    decreases n
  {
    hide ReadLengthDelimited, WriteLengthDelimited, DecodeHtlc, EncodeHtlc;
    if n == 0 {
      assert [] + b == b;
    } else {
      var body := ReadLengthDelimited(b).value;
      DelimitedOnly(b);
      HtlcOnly(body.value);
      HtlcsOnly(body.rest, n - 1);
      var h, hs := DecodeHtlc(body.value).value, DecodeHtlcs(body.rest, n - 1).value;
      assert ([h] + hs.value)[1..] == hs.value;
      Cat3(WriteLengthDelimited(body.value), EncodeHtlcs(hs.value).value, hs.rest);
    }
  }

  lemma {:induction false} ListOnly(b: Bytes)
    requires DecodeList(b).Ok?
    ensures var g := DecodeList(b).value; EncodeList(g.value).Ok? && b == EncodeList(g.value).value + g.rest
  {
    hide EncodeHtlcs, DecodeHtlcs, ReadUint, ToBe, Pow256;
    PowValues();
    var n, g := ReadUint(b, 2).value, DecodeList(b).value;
    ReadUintOnly(b, 2);
    HtlcsOnly(n.rest, n.value);
    Cat3(ToBe(|g.value|, 2), EncodeHtlcs(g.value).value, g.rest);
  }

  lemma {:induction false} NumbersOnly(b: Bytes)
    requires DecodeNumbers(b).Ok?
    ensures var g := DecodeNumbers(b).value; EncodeNumbers(g.value).Ok? && b == EncodeNumbers(g.value).value + g.rest
  {
    hide Pow256, ReadUint, ReadU64Overflow, WriteU64Overflow, ToBe;
    PowValues();
    var g1 := ReadUint(b, 4).value;
    var g2 := ReadU64Overflow(g1.rest).value;
    var g3 := ReadU64Overflow(g2.rest).value;
    var g4 := ReadUint(g3.rest, 4).value;
    ReadUintOnly(b, 4);
    U64Only(g1.rest);
    U64Only(g2.rest);
    ReadUintOnly(g3.rest, 4);
    ReadUintOnly(g4.rest, 4);
    var n, rest := DecodeNumbers(b).value.value, DecodeNumbers(b).value.rest;
    Cat6(ToBe(n.blockDay, 4), ToBe(n.local, 8), ToBe(n.remote, 8), ToBe(n.localUpdates, 4), ToBe(n.remoteUpdates, 4), rest);
  }

  // ---- The state -----------------------------------------------------------------------------

  lemma {:induction false} LcssOnly(b: Bytes)
    requires DecodeLcss(b).Ok?
    ensures var g := DecodeLcss(b).value;
      && EncodeLcss(g.value).Ok? && |EncodeLcss(g.value).value| > 0
      && b == [b[0]] + EncodeLcss(g.value).value[1..] + g.rest && (g.value.isHost <==> b[0] != 0)
  {
    hide DecodeInit, EncodeInit, DecodeList, EncodeList, DecodeNumbers, EncodeNumbers, ReadVarsize, WriteVarsize, ReadLengthDelimited, WriteLengthDelimited;
    var refund := ReadVarsize(b[1..]).value;
    var body := ReadLengthDelimited(refund.rest).value;
    var init := DecodeInit(body.value).value;
    var n := DecodeNumbers(body.rest).value;
    var incoming := DecodeList(n.rest).value;
    var outgoing := DecodeList(incoming.rest).value;
    var remoteSig := ReadBytes(outgoing.rest, 64).value;
    VarsizeOnly(b[1..]);
    DelimitedOnly(refund.rest);
    InitOnly(body.value);
    assert EncodeInit(init.value).value + [] == EncodeInit(init.value).value;
    NumbersOnly(body.rest);
    ListOnly(n.rest);
    ListOnly(incoming.rest);
    BytesOnly(outgoing.rest, 64);
    BytesOnly(remoteSig.rest, 64);
    var l, rest := DecodeLcss(b).value.value, DecodeLcss(b).value.rest;
    Rejoined(l, b, rest, WriteVarsize(l.refund).value, WriteLengthDelimited(body.value), EncodeNumbers(n.value).value,
             EncodeList(l.incoming).value, EncodeList(l.outgoing).value);
  }

  lemma {:induction false} Rejoined(l: WireLcss, b: Bytes, rest: Bytes, refund: Bytes, init: Bytes, n: Bytes, incoming: Bytes, outgoing: Bytes)
    requires b != [] && b[1..] == refund + (init + (n + (incoming + (outgoing + (l.remoteSigOfLocal + (l.localSigOfRemote + rest))))))
    ensures var host: Bytes := [if l.isHost then 1 else 0];
      var all := host + refund + init + n + incoming + outgoing + l.remoteSigOfLocal + l.localSigOfRemote;
      |all| > 0 && b == [b[0]] + all[1..] + rest
  {
    var host: Bytes := [if l.isHost then 1 else 0];
    var tail := refund + (init + (n + (incoming + (outgoing + (l.remoteSigOfLocal + l.localSigOfRemote)))));
    Cat8(host, refund, init, n, incoming, outgoing, l.remoteSigOfLocal, l.localSigOfRemote);
    assert (host + tail)[1..] == tail;
    Cat8(refund, init, n, incoming, outgoing, l.remoteSigOfLocal, l.localSigOfRemote, rest);
    Cat8(refund, init, n, incoming, outgoing, l.remoteSigOfLocal, l.localSigOfRemote, []);
    Cat3([b[0]], tail, rest);
  }

  /**
   * A state is read exactly from what the writer writes for it, where any first byte but zero stands for
   * the host; whatever follows is left.
   */
  lemma {:induction false} LcssReadIff(b: Bytes, l: WireLcss, rest: Bytes)
    requires InMemory(l.incoming) && InMemory(l.outgoing)
    ensures DecodeLcss(b) == Ok(Got(l, rest)) <==>
      && WireFits(l) && EncodeLcss(l).Ok? && b != [] && (l.isHost <==> b[0] != 0)
      && |EncodeLcss(l).value| > 0 && b == [b[0]] + EncodeLcss(l).value[1..] + rest
  {
    hide DecodeLcss, EncodeLcss, WireFits, InMemory;
    if DecodeLcss(b) == Ok(Got(l, rest)) {
      LcssOnly(b);
      DecodedFits(b);
    }
    if WireFits(l) && EncodeLcss(l).Ok? && b != [] && (l.isHost <==> b[0] != 0) && |EncodeLcss(l).value| > 0
       && b == [b[0]] + EncodeLcss(l).value[1..] + rest {
      LcssBack(l, rest);
      HostByte(l);
      SameHost(b, EncodeLcss(l).value + rest);
    }
  }

  lemma {:induction false} HostByte(l: WireLcss)
    requires EncodeLcss(l).Ok?
    ensures |EncodeLcss(l).value| > 0 && EncodeLcss(l).value[0] == (if l.isHost then 1 else 0)
  {
    hide EncodeInit, EncodeList, EncodeNumbers, WriteVarsize, WriteLengthDelimited;
  }

  /** Only whether the first byte is zero matters. */
  lemma {:induction false} SameHost(a: Bytes, b: Bytes)
    requires a != [] && b != [] && a[1..] == b[1..] && (a[0] == 0 <==> b[0] == 0)
    ensures DecodeLcss(a) == DecodeLcss(b)
  {
    hide DecodeInit, DecodeList, DecodeNumbers, ReadVarsize, ReadLengthDelimited;
  }

  /** A state can be written exactly if its amounts and ids are below 2^63, its onions have their size and its script fits. */
  lemma {:induction false} LcssEncodesIff(l: WireLcss)
    ensures EncodeLcss(l).Ok? <==>
      && |l.refund| < 0x1_0000 && HtlcsEncode(l.incoming) && HtlcsEncode(l.outgoing)
      && l.init.maxInFlight <= OVERFLOW_MAX && l.init.htlcMinimum <= OVERFLOW_MAX && l.init.capacity <= OVERFLOW_MAX
      && l.init.initialClientBalance <= OVERFLOW_MAX && l.localBalance <= OVERFLOW_MAX && l.remoteBalance <= OVERFLOW_MAX
  {
    hide EncodeHtlcs, HtlcsEncode, ToBe;
    EncodesIff(l.incoming);
    EncodesIff(l.outgoing);
  }

  // ---- Where the fields lie --------------------------------------------------------------------

  /** The big-endian number at this offset. */
  predicate HasNumber(b: Bytes, at: nat, n: nat, v: nat) {
    at + n <= |b| && FromBe(b[at..at + n]) == v
  }

  /** The offsets of the parameters of a channel. */
  lemma {:induction false} InitOffsets(i: Init)
    requires EncodeInit(i).Ok? && |i.features| < 0x1_0000
    ensures var e := EncodeInit(i).value;
      && HasNumber(e, 0, 8, i.maxInFlight) && HasNumber(e, 8, 8, i.htlcMinimum) && HasNumber(e, 16, 2, i.maxAccepted)
      && HasNumber(e, 18, 8, i.capacity) && HasNumber(e, 26, 8, i.initialClientBalance) && HasNumber(e, 34, 2, |i.features|)
      && |e| == 36 + 2 * |i.features|
  {
    hide ToBe, FromBe, Pow256, WriteU16s;
    PowValues();
    InitSize(i);
    var e := EncodeInit(i).value;
    FromToBe(i.maxInFlight, 8);
    FromToBe(i.htlcMinimum, 8);
    FromToBe(i.maxAccepted, 2);
    FromToBe(i.capacity, 8);
    FromToBe(i.initialClientBalance, 8);
    FromToBe(|i.features|, 2);
    assert e[0..8] == ToBe(i.maxInFlight, 8) && e[8..16] == ToBe(i.htlcMinimum, 8) && e[16..18] == ToBe(i.maxAccepted, 2);
    assert e[18..26] == ToBe(i.capacity, 8) && e[26..34] == ToBe(i.initialClientBalance, 8) && e[34..36] == ToBe(|i.features|, 2);
  }

  /** The offsets of an HTLC: two ids, the amount, the hash, the expiry, the onion, and the TLV stream at the end. */
  lemma {:induction false} HtlcOffsets(h: Htlc)
    requires EncodeHtlc(h).Ok?
    ensures var e := EncodeHtlc(h).value;
      && |e| == 1450 + |h.tlv| && e[..32] == h.channelId && HasNumber(e, 32, 8, h.id) && HasNumber(e, 40, 8, h.amount)
      && e[48..80] == h.paymentHash && HasNumber(e, 80, 4, h.cltvExpiry) && e[84..1450] == h.onion && e[1450..] == h.tlv
  {
    hide ToBe, FromBe, Pow256;
    PowValues();
    var e := EncodeHtlc(h).value;
    FromToBe(h.id, 8);
    FromToBe(h.amount, 8);
    FromToBe(h.cltvExpiry, 4);
    assert e[32..40] == ToBe(h.id, 8) && e[40..48] == ToBe(h.amount, 8) && e[80..84] == ToBe(h.cltvExpiry, 4);
  }

  lemma {:induction false} NumbersOffsets(n: Numbers)
    requires EncodeNumbers(n).Ok? && n.localUpdates < 0x1_0000_0000 && n.remoteUpdates < 0x1_0000_0000
    ensures var e := EncodeNumbers(n).value;
      && |e| == 28 && HasNumber(e, 0, 4, n.blockDay) && HasNumber(e, 4, 8, n.local) && HasNumber(e, 12, 8, n.remote)
      && HasNumber(e, 20, 4, n.localUpdates) && HasNumber(e, 24, 4, n.remoteUpdates)
  {
    hide ToBe, FromBe, Pow256;
    PowValues();
    var e := EncodeNumbers(n).value;
    FromToBe(n.blockDay, 4);
    FromToBe(n.local, 8);
    FromToBe(n.remote, 8);
    FromToBe(n.localUpdates, 4);
    FromToBe(n.remoteUpdates, 4);
    assert e[0..4] == ToBe(n.blockDay, 4) && e[4..12] == ToBe(n.local, 8) && e[12..20] == ToBe(n.remote, 8);
    assert e[20..24] == ToBe(n.localUpdates, 4) && e[24..28] == ToBe(n.remoteUpdates, 4);
  }

  /**
   * Where the parts of a written state lie: the side, the length of the script and the script, the length of
   * the parameters and the parameters, the numbers, how many incoming HTLCs follow, and at the very end the
   * two signatures, the peer's first.
   */
  lemma {:induction false} LcssOffsets(l: WireLcss)
    requires EncodeLcss(l).Ok? && |l.incoming| < 0x1_0000
    ensures var e, r := EncodeLcss(l).value, |l.refund|;
      var init, numbers := EncodeInit(l.init).value, EncodeNumbers(NumbersOf(l)).value;
      var at := 3 + r + |WriteVarint(|init| % U64_BOUND)|;
      var end := at + |init| + |numbers|;
      && end + 2 + 128 <= |e| && e[0] == (if l.isHost then 1 else 0) && HasNumber(e, 1, 2, r) && e[3..3 + r] == l.refund
      && e[3 + r..at] == WriteVarint(|init| % U64_BOUND) && e[at..at + |init|] == init && e[at + |init|..end] == numbers
      && HasNumber(e, end, 2, |l.incoming|)
      && e[|e| - 128..|e| - 64] == l.remoteSigOfLocal && e[|e| - 64..] == l.localSigOfRemote
  {
    hide ToBe, FromBe, Pow256, EncodeInit, EncodeNumbers, EncodeHtlcs, WriteVarint;
    PowValues();
    var host: Bytes := [if l.isHost then 1 else 0];
    var init, numbers := EncodeInit(l.init).value, EncodeNumbers(NumbersOf(l)).value;
    var length, bodies, outgoing := WriteVarint(|init| % U64_BOUND), EncodeHtlcs(l.incoming).value, EncodeList(l.outgoing).value;
    FromToBe(|l.refund|, 2);
    FromToBe(|l.incoming|, 2);
    Offsets(host, ToBe(|l.refund|, 2), l.refund, length, init, numbers, ToBe(|l.incoming|, 2), bodies, outgoing, l.remoteSigOfLocal, l.localSigOfRemote);
  }

  lemma {:induction false} Offsets(host: Bytes, size: Bytes, refund: Bytes, length: Bytes, init: Bytes, numbers: Bytes, count: Bytes,
                                   bodies: Bytes, outgoing: Bytes, sig: Bytes64, sig': Bytes64)
    requires |host| == 1 && |size| == 2 && |count| == 2
    ensures var e := host + (size + refund) + (length + init) + numbers + (count + bodies) + outgoing + sig + sig';
      var at := 3 + |refund| + |length|;
      var end := at + |init| + |numbers|;
      && end + 2 + 128 <= |e| && e[0] == host[0] && e[1..3] == size && e[3..3 + |refund|] == refund && e[3 + |refund|..at] == length
      && e[at..at + |init|] == init && e[at + |init|..end] == numbers && e[end..end + 2] == count
      && e[|e| - 128..|e| - 64] == sig && e[|e| - 64..] == sig'
  {
  }

  // ---- What a signature covers -----------------------------------------------------------------

  /** The low `n` bytes of a number, least significant first. */
  function ToLe(v: nat, n: nat): (b: Bytes)
    ensures |b| == n
  {
    if n == 0 then [] else [v % 256] + ToLe(v / 256, n - 1)
  }

  function LeOverflow(v: U64): Result<Bytes, EncodeError> {
    if v > OVERFLOW_MAX then Err(TooLarge(v)) else Ok(ToLe(v, 8))
  }

  /** HTLC bodies one after the other, without lengths. */
  function Bodies(hs: seq<Htlc>): Result<Bytes, EncodeError> {
    if hs == [] then Ok([])
    else
      var body :- EncodeHtlc(hs[0]);
      var tail :- Bodies(hs[1..]);
      Ok(body + tail)
  }

  /** Capacity, share of the client, day, balances and counters. */
  function SignedNumbers(l: WireLcss): Result<Bytes, EncodeError> {
    var capacity :- LeOverflow(l.init.capacity);
    var share :- LeOverflow(l.init.initialClientBalance);
    var local :- LeOverflow(l.localBalance);
    var remote :- LeOverflow(l.remoteBalance);
    Ok(capacity + share + ToLe(l.blockDay, 4) + local + remote + ToLe(l.localUpdates, 4) + ToLe(l.remoteUpdates, 4))
  }

  /** The bytes whose hash a signature signs. */
  function SigMaterial(l: WireLcss): Result<Bytes, EncodeError> {
    var numbers :- SignedNumbers(l);
    var incoming :- Bodies(l.incoming);
    var outgoing :- Bodies(l.outgoing);
    Ok(l.refund + numbers + incoming + outgoing + [if l.isHost then 1 else 0])
  }

  lemma {:induction false} ToLeInjective(a: nat, b: nat, n: nat)
    requires a < Pow256(n) && b < Pow256(n) && ToLe(a, n) == ToLe(b, n)
    ensures a == b
  {
    if n > 0 {
      assert ToLe(a, n)[0] == ToLe(b, n)[0] && ToLe(a, n)[1..] == ToLe(a / 256, n - 1) && ToLe(b, n)[1..] == ToLe(b / 256, n - 1);
      ToLeInjective(a / 256, b / 256, n - 1);
    }
  }

  lemma {:induction false} BodiesConcat(a: seq<Htlc>, b: seq<Htlc>)
    ensures Bodies(a).Ok? && Bodies(b).Ok? ==> Bodies(a + b) == Ok(Bodies(a).value + Bodies(b).value)
  {
    hide EncodeHtlc;
    if a == [] {
      assert a + b == b;
      if Bodies(b).Ok? {
        assert [] + Bodies(b).value == Bodies(b).value;
      }
    } else {
      BodiesConcat(a[1..], b);
      assert (a + b)[1..] == a[1..] + b;
      if Bodies(a).Ok? && Bodies(b).Ok? {
        Cat3(EncodeHtlc(a[0]).value, Bodies(a[1..]).value, Bodies(b).value);
      }
    }
  }

  predicate Plain(hs: seq<Htlc>) {
    forall i :: 0 <= i < |hs| ==> hs[i].tlv == []
  }

  lemma {:induction false} SameFront(a: Bytes, b: Bytes, x: Bytes, y: Bytes)
    requires |a| == |b| && a + x == b + y
    ensures a == b && x == y
  {
    assert (a + x)[..|a|] == a && (b + y)[..|b|] == b && (a + x)[|a|..] == x && (b + y)[|b|..] == y;
  }

  lemma {:induction false} HtlcInjective(g: Htlc, h: Htlc)
    requires g.tlv == [] && h.tlv == [] && EncodeHtlc(g).Ok? && EncodeHtlc(g) == EncodeHtlc(h)
    ensures g == h
  {
    hide EncodeHtlc, DecodeHtlc;
    assert ValidateTlv([]).Ok?;
    HtlcBack(g);
    HtlcBack(h);
  }

  /** Without TLV streams the bodies of a list determine the list. */
  lemma {:induction false} BodiesInjective(a: seq<Htlc>, b: seq<Htlc>)
    requires Plain(a) && Plain(b) && Bodies(a).Ok? && Bodies(a) == Bodies(b)
    ensures a == b
  {
    hide EncodeHtlc;
    BodiesSize(a);
    BodiesSize(b);
    if a != [] {
      assert b != [];
      HtlcSize(a[0]);
      HtlcSize(b[0]);
      SameFront(EncodeHtlc(a[0]).value, EncodeHtlc(b[0]).value, Bodies(a[1..]).value, Bodies(b[1..]).value);
      HtlcInjective(a[0], b[0]);
      BodiesInjective(a[1..], b[1..]);
      assert a == [a[0]] + a[1..] && b == [b[0]] + b[1..];
    }
  }

  lemma {:induction false} BodiesSize(hs: seq<Htlc>)
    requires Plain(hs) && Bodies(hs).Ok?
    ensures |Bodies(hs).value| == 1450 * |hs|
  {
    hide EncodeHtlc;
    if hs != [] {
      HtlcSize(hs[0]);
      BodiesSize(hs[1..]);
    }
  }

  predicate SameNumbers(a: WireLcss, b: WireLcss) {
    && a.init.capacity == b.init.capacity && a.init.initialClientBalance == b.init.initialClientBalance && a.blockDay == b.blockDay
    && a.localBalance == b.localBalance && a.remoteBalance == b.remoteBalance
    && a.localUpdates == b.localUpdates && a.remoteUpdates == b.remoteUpdates
  }

  predicate CountersFit32(l: WireLcss) {
    l.localUpdates < 0x1_0000_0000 && l.remoteUpdates < 0x1_0000_0000
  }

  lemma {:induction false} NumbersInjective(a: WireLcss, b: WireLcss)
    requires CountersFit32(a) && CountersFit32(b) && SignedNumbers(a).Ok? && SignedNumbers(b).Ok?
    ensures SignedNumbers(a) == SignedNumbers(b) <==> SameNumbers(a, b)
    ensures |SignedNumbers(a).value| == 44 && |SignedNumbers(b).value| == 44
  {
    hide ToLe, Pow256;
    PowValues();
    if SignedNumbers(a) == SignedNumbers(b) {
      var a1, a2, a3, a4 := ToLe(a.init.capacity, 8), ToLe(a.init.initialClientBalance, 8), ToLe(a.blockDay, 4), ToLe(a.localBalance, 8);
      var b1, b2, b3, b4 := ToLe(b.init.capacity, 8), ToLe(b.init.initialClientBalance, 8), ToLe(b.blockDay, 4), ToLe(b.localBalance, 8);
      var a5, a6, a7 := ToLe(a.remoteBalance, 8), ToLe(a.localUpdates, 4), ToLe(a.remoteUpdates, 4);
      var b5, b6, b7 := ToLe(b.remoteBalance, 8), ToLe(b.localUpdates, 4), ToLe(b.remoteUpdates, 4);
      SameFront(a1 + a2 + a3 + a4 + a5 + a6, b1 + b2 + b3 + b4 + b5 + b6, a7, b7);
      SameFront(a1 + a2 + a3 + a4 + a5, b1 + b2 + b3 + b4 + b5, a6, b6);
      SameFront(a1 + a2 + a3 + a4, b1 + b2 + b3 + b4, a5, b5);
      SameFront(a1 + a2 + a3, b1 + b2 + b3, a4, b4);
      SameFront(a1 + a2, b1 + b2, a3, b3);
      SameFront(a1, b1, a2, b2);
      ToLeInjective(a.init.capacity, b.init.capacity, 8);
      ToLeInjective(a.init.initialClientBalance, b.init.initialClientBalance, 8);
      ToLeInjective(a.blockDay, b.blockDay, 4);
      ToLeInjective(a.localBalance, b.localBalance, 8);
      ToLeInjective(a.remoteBalance, b.remoteBalance, 8);
      ToLeInjective(a.localUpdates, b.localUpdates, 4);
      ToLeInjective(a.remoteUpdates, b.remoteUpdates, 4);
    }
  }

  lemma {:induction false} MaterialParts(l: WireLcss)
    requires SigMaterial(l).Ok?
    ensures SignedNumbers(l).Ok? && Bodies(l.incoming + l.outgoing).Ok?
    ensures SigMaterial(l).value == l.refund + SignedNumbers(l).value + Bodies(l.incoming + l.outgoing).value + [if l.isHost then 1 else 0]
  {
    hide SignedNumbers, Bodies;
    BodiesConcat(l.incoming, l.outgoing);
    Cat3(l.refund + SignedNumbers(l).value, Bodies(l.incoming).value, Bodies(l.outgoing).value);
  }

  /** Where the parts lie: the script, eight-byte amounts and four-byte counters, all HTLCs, and the side at the end. */
  lemma {:induction false} MaterialOffsets(l: WireLcss)
    requires SigMaterial(l).Ok?
    ensures Bodies(l.incoming + l.outgoing).Ok?
    ensures var e, r := SigMaterial(l).value, |l.refund|;
      && r + 45 <= |e| && e[..r] == l.refund
      && e[r..r + 8] == ToLe(l.init.capacity, 8) && e[r + 8..r + 16] == ToLe(l.init.initialClientBalance, 8)
      && e[r + 16..r + 20] == ToLe(l.blockDay, 4) && e[r + 20..r + 28] == ToLe(l.localBalance, 8)
      && e[r + 28..r + 36] == ToLe(l.remoteBalance, 8) && e[r + 36..r + 40] == ToLe(l.localUpdates, 4)
      && e[r + 40..r + 44] == ToLe(l.remoteUpdates, 4)
      && e[r + 44..|e| - 1] == Bodies(l.incoming + l.outgoing).value && e[|e| - 1] == (if l.isHost then 1 else 0)
  {
    hide ToLe, Bodies, SigMaterial;
    MaterialParts(l);
  }

  /**
   * What the signed bytes determine, for scripts of one length and HTLCs without TLV streams: every number,
   * the side, and the HTLCs of both directions as one list. Where the incoming ones end is not signed.
   */
  lemma {:induction false} MaterialIff(a: WireLcss, b: WireLcss)
    requires SigMaterial(a).Ok? && SigMaterial(b).Ok? && CountersFit32(a) && CountersFit32(b) && |a.refund| == |b.refund|
    requires Plain(a.incoming + a.outgoing) && Plain(b.incoming + b.outgoing)
    ensures SigMaterial(a) == SigMaterial(b) <==>
      && a.refund == b.refund && SameNumbers(a, b) && a.isHost == b.isHost && a.incoming + a.outgoing == b.incoming + b.outgoing
  {
    hide SigMaterial, SignedNumbers, Bodies, SameNumbers, Plain;
    MaterialParts(a);
    MaterialParts(b);
    NumbersInjective(a, b);
    if SigMaterial(a) == SigMaterial(b) {
      var an, bn := SignedNumbers(a).value, SignedNumbers(b).value;
      var ah, bh := Bodies(a.incoming + a.outgoing).value, Bodies(b.incoming + b.outgoing).value;
      var aSide, bSide := if a.isHost then 1 else 0, if b.isHost then 1 else 0;
      assert |ah| == |bh|;
      SameFront(a.refund + an + ah, b.refund + bn + bh, [aSide], [bSide]);
      SameFront(a.refund + an, b.refund + bn, ah, bh);
      SameFront(a.refund, b.refund, an, bn);
      assert [aSide][0] == [bSide][0];
      BodiesInjective(a.incoming + a.outgoing, b.incoming + b.outgoing);
    }
  }

  /** So a state and the one that counts all its HTLCs as incoming are signed alike. */
  lemma {:induction false} DirectionIsNotSigned(l: WireLcss)
    requires SigMaterial(l).Ok?
    ensures SigMaterial(l.(incoming := l.incoming + l.outgoing, outgoing := [])) == SigMaterial(l)
  {
    hide EncodeHtlc;
    BodiesConcat(l.incoming, l.outgoing);
    var m := l.(incoming := l.incoming + l.outgoing, outgoing := []);
    assert SignedNumbers(m) == SignedNumbers(l);
    MaterialParts(l);
    assert Bodies([]) == Ok([]);
    assert l.refund + SignedNumbers(l).value + Bodies(l.incoming + l.outgoing).value + [] ==
      l.refund + SignedNumbers(l).value + Bodies(l.incoming + l.outgoing).value;
  }
}

/** Onion packets: construction for at most two hops, and peeling (src/sphinx.rs). */
module Sphinx {
  import opened Base
  import opened Endian

  const ROUTING_INFO_SIZE: nat := 1300

  type Secret = Bytes32

  /** A public key in its compressed, serialized form. */
  type Public = b: Bytes | |b| == 33 witness seq(33, _ => 0)

  /** The primitives the packets are built from. */
  datatype Crypto = Crypto(
    publicOf: Secret -> Public,
    parse: Bytes -> Option<Public>,
    ecdh: (Secret, Public) -> Option<Bytes32>,
    blinding: (Public, Bytes32) -> Bytes32,
    blindPublic: (Public, Bytes32) -> Option<Public>,
    blindSecret: (Secret, Bytes32) -> Option<Secret>,
    hmac: (Bytes, Bytes) -> Bytes32,
    stream: (Bytes32, nat) -> Bytes)

  /** The laws of the primitives; nothing is said about their secrecy. */
  ghost predicate Lawful(c: Crypto) {
    && (forall s: Secret :: c.parse(c.publicOf(s)) == Some(c.publicOf(s)))
    && (forall s: Secret, t: Secret :: c.ecdh(s, c.publicOf(t)) == c.ecdh(t, c.publicOf(s)))
    && (forall s: Secret, b: Bytes32 :: c.blindPublic(c.publicOf(s), b) ==
          match c.blindSecret(s, b) case None => None case Some(s') => Some(c.publicOf(s')))
    && (forall k: Bytes32, n: nat :: |c.stream(k, n)| == n)
    && (forall k: Bytes32, m: nat, n: nat :: m <= n ==> c.stream(k, m) == c.stream(k, n)[..m])
  }

  datatype SphinxError =
    | InvalidSize | UnsupportedVersion | HmacFailed | InvalidEphemeralKey | EcdhFailed | InvalidPayload | UnsupportedPayload

  datatype PeeledOnion = PeeledOnion(scid: U64, amount: U64, cltv: U32, nextOnion: Bytes, sharedSecret: Bytes32)

  const RHO: Bytes := [0x72, 0x68, 0x6f]
  const MU: Bytes := [0x6d, 0x75]

  function Rho(c: Crypto, shared: Bytes32): Bytes32 { c.hmac(RHO, shared) }

  function Mu(c: Crypto, shared: Bytes32): Bytes32 { c.hmac(MU, shared) }

  // ---- Bytes -------------------------------------------------------------------------------

  function XorBits(a: nat, b: nat, bits: nat): nat {
    if bits == 0 then 0 else (if a % 2 == b % 2 then 0 else 1) + 2 * XorBits(a / 2, b / 2, bits - 1)
  }

  function Pow2(n: nat): nat {
    if n == 0 then 1 else 2 * Pow2(n - 1)
  }

  lemma {:induction false} XorBitsLaws(a: nat, b: nat, bits: nat)
    requires a < Pow2(bits)
    ensures XorBits(a, b, bits) < Pow2(bits)
    ensures XorBits(XorBits(a, b, bits), b, bits) == a
  {
    if bits > 0 {
      XorBitsLaws(a / 2, b / 2, bits - 1);
      var y := XorBits(a / 2, b / 2, bits - 1);
      var d := if a % 2 == b % 2 then 0 else 1;
      assert (d + 2 * y) % 2 == d && (d + 2 * y) / 2 == y;
    }
  }

  lemma {:induction false} XorBitsZero(b: nat, bits: nat)
    requires b < Pow2(bits)
    ensures XorBits(0, b, bits) == b
  {
    if bits > 0 {
      XorBitsZero(b / 2, bits - 1);
    }
  }

  lemma {:induction false} Pow2Eight()
    ensures Pow2(8) == 256
  {
    assert Pow2(4) == 16;
    assert Pow2(6) == 64;
  }

  function Xor(a: Byte, b: Byte): (x: Byte)
    ensures XorBits(x, b, 8) == a
  {
    Pow2Eight();
    XorBitsLaws(a, b, 8);
    XorBits(a, b, 8)
  }

  /** The first string, combined with the second as far as both go. */
  function XorAll(a: Bytes, b: Bytes): (x: Bytes)
    ensures |x| == |a|
    ensures forall i :: 0 <= i < |a| ==> x[i] == if i < |b| then Xor(a[i], b[i]) else a[i]
  {
    seq(|a|, i requires 0 <= i < |a| => if i < |b| then Xor(a[i], b[i]) else a[i])
  }

  method XorInPlace(dst: array<Byte>, src: Bytes)
    modifies dst
    ensures dst[..] == XorAll(old(dst[..]), src)
  {
    var i := 0;
    while i < dst.Length && i < |src|
      invariant i <= dst.Length
      invariant forall j :: 0 <= j < i ==> j < |src| && dst[j] == Xor(old(dst[j]), src[j])
      invariant forall j :: i <= j < dst.Length ==> dst[j] == old(dst[j])
    {
      dst[i] := Xor(dst[i], src[i]);
      i := i + 1;
    }
  }

  // ---- Sizes and payloads ------------------------------------------------------------------

  function WriteBigsize(v: U64): (b: Bytes)
    ensures |b| == BigsizeLen(v)
  {
    if v < 0xfd then [v]
    else if v <= 0xffff then [0xfd] + ToBe(v, 2)
    else if v <= 0xffff_ffff then [0xfe] + ToBe(v, 4)
    else [0xff] + ToBe(v, 8)
  }

  function BigsizeLen(v: U64): nat {
    if v < 0xfd then 1 else if v <= 0xffff then 3 else if v <= 0xffff_ffff then 5 else 9
  }

  /** The number at the start of the data and how many bytes it takes; longer forms than needed are refused. */
  function ReadBigsize(data: Bytes): Result<(nat, nat), SphinxError> {
    if data == [] then Err(InvalidPayload)
    else if data[0] == 0xfd then
      if |data| < 3 || FromBe(data[1..3]) < 0xfd then Err(InvalidPayload) else Ok((FromBe(data[1..3]), 3))
    else if data[0] == 0xfe then
      if |data| < 5 || FromBe(data[1..5]) <= 0xffff then Err(InvalidPayload) else Ok((FromBe(data[1..5]), 5))
    else if data[0] == 0xff then
      if |data| < 9 || FromBe(data[1..9]) <= 0xffff_ffff then Err(InvalidPayload) else Ok((FromBe(data[1..9]), 9))
    else Ok((data[0], 1))
  }

  /** A truncated integer: no longer than `max` bytes, not empty, no leading zero. */
  function BeTu(value: Bytes, max: nat): (r: Result<U64, SphinxError>)
    ensures r.Ok? ==> r.value < Pow256(max)
  {
    if value == [] || |value| > max || |value| > 8 || (|value| > 1 && value[0] == 0) then Err(InvalidPayload)
    else
      PowValues();
      FromBeBound(value, 8);
      FromBeBound(value, max);
      Ok(FromBe(value))
  }

  datatype Fields = Fields(scid: Option<U64>, amount: Option<U64>, cltv: Option<U32>)

  /** One record of a payload. */
  function TakeRecord(f: Fields, t: nat, value: Bytes): Result<Fields, SphinxError> {
    PowValues();
    FromBeBound(value, |value|);
    if t == 2 then var v :- BeTu(value, 8); Ok(f.(amount := Some(v)))
    else if t == 4 then var v :- BeTu(value, 4); Ok(f.(cltv := Some(v)))
    else if t == 6 then if |value| != 8 then Err(InvalidPayload) else Ok(f.(scid := Some(FromBe(value))))
    else if t == 8 || t == 16 || t == 18 then Ok(f)
    else if t == 10 || t == 12 then Err(UnsupportedPayload)
    else if t % 2 == 0 then Err(InvalidPayload)
    else Ok(f)
  }

  /** The record at the start of the data: its type, its value and its whole length. */
  function NextRecord(data: Bytes): Result<(nat, Bytes, nat), SphinxError> {
    var t :- ReadBigsize(data);
    ReadBigsizeBounds(data);
    var len :- ReadBigsize(data[t.1..]);
    ReadBigsizeBounds(data[t.1..]);
    if t.1 + len.1 + len.0 > |data| then Err(InvalidPayload)
    else Ok((t.0, data[t.1 + len.1..t.1 + len.1 + len.0], t.1 + len.1 + len.0))
  }

  lemma {:induction false} ReadBigsizeBounds(data: Bytes)
    ensures ReadBigsize(data).Ok? ==> 1 <= ReadBigsize(data).value.1 <= |data|
  {
  }

  /** The records of a payload, in order of strictly increasing type. */
  function ParseRecords(data: Bytes, last: Option<nat>, f: Fields): Result<Fields, SphinxError>
    decreases |data|
  {
    if data == [] then Ok(f)
    else
      var t :- ReadBigsize(data);
      if last.Some? && t.0 <= last.value then Err(InvalidPayload)
      else
        var r :- NextRecord(data);
        ReadBigsizeBounds(data);
        var f' :- TakeRecord(f, r.0, r.1);
        ParseRecords(data[r.2..], Some(r.0), f')
  }

  function ParsePayload(data: Bytes, isFinal: bool): Result<Fields, SphinxError> {
    var f :- ParseRecords(data, None, Fields(None, None, None));
    if f.amount.None? || f.cltv.None? || (!isFinal && f.scid.None?) then Err(InvalidPayload) else Ok(f)
  }

  function Record(t: U64, value: Bytes): (r: Bytes)
    requires |value| < U64_BOUND
    ensures |r| == BigsizeLen(t) + BigsizeLen(|value|) + |value|
  {
    WriteBigsize(t) + WriteBigsize(|value|) + value
  }

  function MinimalBe(v: U64): (b: Bytes)
    ensures 1 <= |b| <= 8
  {
    Stripped(ToBe(v, 8))
  }

  function BuildPayload(amount: U64, cltv: U32, scid: Option<U64>, paymentSecret: Option<Bytes32>): (payload: Bytes)
    ensures 6 <= |payload| <= 73
  {
    var total := if amount == 0 then [] else MinimalBe(amount);
    Record(2, MinimalBe(amount)) + Record(4, MinimalBe(cltv))
    + (if scid.Some? then Record(6, ToBe(scid.value, 8)) else [])
    + (if paymentSecret.Some? then Record(8, paymentSecret.value + [|total|] + total) else [])
  }

  // ---- Peeling -----------------------------------------------------------------------------

  /** A decrypted hop: its payload, the authentication of the next packet, and what to forward. */
  datatype Hop = Hop(payload: Bytes, nextHmac: Bytes, forward: Bytes)

  function OpenHop(unwrapped: Bytes): Result<Hop, SphinxError> {
    var size :- ReadBigsize(unwrapped);
    ReadBigsizeBounds(unwrapped);
    if size.0 < 2 then Err(InvalidPayload)
    else
      var payloadEnd := size.1 + size.0;
      var hmacEnd := payloadEnd + 32;
      if hmacEnd > |unwrapped| || |unwrapped| - hmacEnd < ROUTING_INFO_SIZE then Err(InvalidPayload)
      else Ok(Hop(unwrapped[size.1..payloadEnd], unwrapped[payloadEnd..hmacEnd], unwrapped[hmacEnd..hmacEnd + ROUTING_INFO_SIZE]))
  }

  function Unwrap(c: Crypto, shared: Bytes32, info: Bytes): Bytes {
    XorAll(info + Zeros(ROUTING_INFO_SIZE), c.stream(Rho(c, shared), ROUTING_INFO_SIZE * 2))
  }

  function Peel(c: Crypto, key: Secret, onion: Bytes, associated: Bytes): Result<PeeledOnion, SphinxError> {
    if |onion| != ONION_SIZE then Err(InvalidSize)
    else if onion[0] != 0 then Err(UnsupportedVersion)
    else
      var ephemeral := c.parse(onion[1..34]);
      if ephemeral.None? then Err(InvalidEphemeralKey)
      else
        var shared := c.ecdh(key, ephemeral.value);
        if shared.None? then Err(EcdhFailed)
        else PeelWith(c, shared.value, ephemeral.value, onion[34..1334], onion[1334..], associated)
  }

  function PeelWith(c: Crypto, shared: Bytes32, ephemeral: Public, info: Bytes, hmac: Bytes, associated: Bytes)
    : Result<PeeledOnion, SphinxError>
  {
    if c.hmac(Mu(c, shared), info + associated) != hmac then Err(HmacFailed)
    else
      var hop :- OpenHop(Unwrap(c, shared, info));
      var isFinal := hop.nextHmac == Zeros(32);
      var f :- ParsePayload(hop.payload, isFinal);
      var scid := if f.scid.Some? then f.scid.value else 0;
      if isFinal then Ok(PeeledOnion(scid, f.amount.value, f.cltv.value, [], shared))
      else
        var next := c.blindPublic(ephemeral, c.blinding(ephemeral, shared));
        if next.None? then Err(InvalidEphemeralKey)
        else Ok(PeeledOnion(scid, f.amount.value, f.cltv.value, Packet(next.value, hop.forward, hop.nextHmac), shared))
  }

  function Packet(ephemeral: Public, info: Bytes, hmac: Bytes): Bytes {
    [0] + ephemeral + info + hmac
  }

  // ---- Construction ------------------------------------------------------------------------

  datatype Sealed = Sealed(info: Bytes, hmac: Bytes32)

  function HopData(payload: Bytes, nextHmac: Bytes): Bytes
    requires |payload| < U64_BOUND
  {
    WriteBigsize(|payload|) + payload + nextHmac
  }

  function HopDataLen(payload: Bytes): nat
    requires |payload| < U64_BOUND
  {
    BigsizeLen(|payload|) + |payload| + 32
  }

  /** One layer: the hop data pushed in front of the inner packet, encrypted, its end overwritten by the filler. */
  function Seal(c: Crypto, shared: Bytes32, payload: Bytes, next: Sealed, filler: Bytes, associated: Bytes)
    : (r: Result<Sealed, SphinxError>)
    requires |payload| < U64_BOUND && |next.info| == ROUTING_INFO_SIZE
    ensures r.Ok? ==> |r.value.info| == ROUTING_INFO_SIZE
  {
    var hop := HopData(payload, next.hmac);
    if |hop| > ROUTING_INFO_SIZE || |filler| > ROUTING_INFO_SIZE - |hop| then Err(InvalidPayload)
    else
      var shifted := XorAll(hop + next.info[..ROUTING_INFO_SIZE - |hop|], c.stream(Rho(c, shared), ROUTING_INFO_SIZE));
      var info := shifted[..ROUTING_INFO_SIZE - |filler|] + filler;
      Ok(Sealed(info, c.hmac(Mu(c, shared), info + associated)))
  }

  /** The bytes that peeling the first hop will shift in at the end. */
  function Filler(c: Crypto, shared: Bytes32, shift: nat): Bytes
    requires shift <= ROUTING_INFO_SIZE && |c.stream(Rho(c, shared), ROUTING_INFO_SIZE * 2)| == ROUTING_INFO_SIZE * 2
  {
    c.stream(Rho(c, shared), ROUTING_INFO_SIZE * 2)[ROUTING_INFO_SIZE..ROUTING_INFO_SIZE + shift]
  }

  datatype Stage = Stage(shared: Bytes32, next: Secret)

  /** The shared secret with one hop and the ephemeral secret for the hop after it. */
  function Advance(c: Crypto, ephemeral: Secret, hop: Public): Result<Stage, SphinxError> {
    var shared := c.ecdh(ephemeral, hop);
    if shared.None? then Err(EcdhFailed)
    else
      var next := c.blindSecret(ephemeral, c.blinding(c.publicOf(ephemeral), shared.value));
      if next.None? then Err(InvalidEphemeralKey) else Ok(Stage(shared.value, next.value))
  }

  const INNERMOST: Sealed := Sealed(Zeros(ROUTING_INFO_SIZE), Zeros(32))

  function CreateOne(c: Crypto, session: Secret, hop: Public, payload: Bytes, associated: Bytes): Result<Bytes, SphinxError>
    requires |payload| < U64_BOUND
  {
    var stage :- Advance(c, session, hop);
    var last :- Seal(c, stage.shared, payload, INNERMOST, [], associated);
    Ok(Packet(c.publicOf(session), last.info, last.hmac))
  }

  /** The layer of the second hop, with the filler that the first hop's peeling will reproduce. */
  function SealSecond(c: Crypto, first: Bytes32, second: Bytes32, payload1: Bytes, payload2: Bytes, associated: Bytes)
    : (r: Result<Sealed, SphinxError>)
    requires |payload1| < U64_BOUND && |payload2| < U64_BOUND
    requires |c.stream(Rho(c, first), ROUTING_INFO_SIZE * 2)| == ROUTING_INFO_SIZE * 2
  {
    if HopDataLen(payload1) > ROUTING_INFO_SIZE then Err(InvalidPayload)
    else Seal(c, second, payload2, INNERMOST, Filler(c, first, HopDataLen(payload1)), associated)
  }

  function CreateTwo(c: Crypto, session: Secret, hop1: Public, payload1: Bytes, hop2: Public, payload2: Bytes, associated: Bytes)
    : Result<Bytes, SphinxError>
    requires |payload1| < U64_BOUND && |payload2| < U64_BOUND
    requires forall k :: |c.stream(k, ROUTING_INFO_SIZE * 2)| == ROUTING_INFO_SIZE * 2
    requires forall k :: |c.stream(k, ROUTING_INFO_SIZE)| == ROUTING_INFO_SIZE
  {
    var stage1 :- Advance(c, session, hop1);
    var stage2 :- Advance(c, stage1.next, hop2);
    var inner :- SealSecond(c, stage1.shared, stage2.shared, payload1, payload2, associated);
    var outer :- Seal(c, stage1.shared, payload1, inner, [], associated);
    Ok(Packet(c.publicOf(session), outer.info, outer.hmac))
  }

  function Create(c: Crypto, session: Secret, hops: seq<(Public, Bytes)>, associated: Bytes): Result<Bytes, SphinxError>
    requires forall i :: 0 <= i < |hops| ==> |hops[i].1| < U64_BOUND
    requires Lawful(c)
  {
    if |hops| == 0 then Err(InvalidPayload)
    else if |hops| > 2 then Err(UnsupportedPayload)
    else if |hops| == 1 then CreateOne(c, session, hops[0].0, hops[0].1, associated)
    else CreateTwo(c, session, hops[0].0, hops[0].1, hops[1].0, hops[1].1, associated)
  }

  // ---- The loops -----------------------------------------------------------------------------

  /** A record read at an offset of the data is the next record of what is left there. */
  lemma {:induction false} RecordAt(data: Bytes, at: nat)
    requires at < |data|
    ensures var t := ReadBigsize(data[at..]);
      && (t.Err? ==> NextRecord(data[at..]) == Err(t.error))
      && (t.Ok? ==>
            && 1 <= t.value.1 && at + t.value.1 <= |data|
            && var start := at + t.value.1;
            && var len := ReadBigsize(data[start..]);
            && (len.Err? ==> NextRecord(data[at..]) == Err(len.error))
            && (len.Ok? ==>
                  && 1 <= len.value.1 && start + len.value.1 <= |data|
                  && var end := start + len.value.1 + len.value.0;
                  && (end > |data| ==> NextRecord(data[at..]) == Err(InvalidPayload))
                  && (end <= |data| ==>
                        && NextRecord(data[at..]) == Ok((t.value.0, data[start + len.value.1..end], end - at))
                        && data[at..][end - at..] == data[end..])))
  {
    hide ReadBigsize;
    var rest := data[at..];
    ReadBigsizeBounds(rest);
    var t := ReadBigsize(rest);
    if t.Ok? {
      var start := at + t.value.1;
      assert rest[t.value.1..] == data[start..];
      ReadBigsizeBounds(data[start..]);
      var len := ReadBigsize(data[start..]);
      if len.Ok? && start + len.value.1 + len.value.0 <= |data| {
        var end := start + len.value.1 + len.value.0;
        assert rest[t.value.1 + len.value.1..end - at] == data[start + len.value.1..end];
      }
    }
  }

  /** What the first record of the rest does to the parse. */
  lemma {:induction false} ParseNext(data: Bytes, last: Option<nat>, f: Fields)
    requires data != []
    ensures var t, r, parse := ReadBigsize(data), NextRecord(data), ParseRecords(data, last, f);
      && (t.Err? ==> parse == Err(t.error))
      && (t.Ok? && last.Some? && t.value.0 <= last.value ==> parse == Err(InvalidPayload))
      && (t.Ok? && (last.Some? ==> last.value < t.value.0) ==>
            && (r.Err? ==> parse == Err(r.error))
            && (r.Ok? ==>
                  && r.value.2 <= |data|
                  && parse == (var f' :- TakeRecord(f, r.value.0, r.value.1); ParseRecords(data[r.value.2..], Some(r.value.0), f'))))
  {
    hide TakeRecord, ReadBigsize;
  }

  lemma {:induction false} ParseEnd(last: Option<nat>, f: Fields)
    ensures ParseRecords([], last, f) == Ok(f)
  {
  }

  method ParseTlvPayload(data: Bytes, isFinal: bool) returns (r: Result<Fields, SphinxError>)
    ensures r == ParsePayload(data, isFinal)
  {
    hide TakeRecord, ReadBigsize, NextRecord, ParseRecords;
    var fields := Fields(None, None, None);
    var consumed := 0;
    var last: Option<nat> := None;
    assert data[0..] == data;
    while consumed < |data|
      invariant consumed <= |data|
      invariant ParseRecords(data, None, Fields(None, None, None)) == ParseRecords(data[consumed..], last, fields)
    {
      RecordAt(data, consumed);
      ParseNext(data[consumed..], last, fields);
      var t := ReadBigsize(data[consumed..]);
      if t.Err? {
        return Err(t.error);
      }
      if last.Some? && t.value.0 <= last.value {
        return Err(InvalidPayload);
      }
      consumed := consumed + t.value.1;
      var len := ReadBigsize(data[consumed..]);
      if len.Err? {
        return Err(len.error);
      }
      consumed := consumed + len.value.1;
      if consumed + len.value.0 > |data| {
        return Err(InvalidPayload);
      }
      var value := data[consumed..consumed + len.value.0];
      consumed := consumed + len.value.0;
      var taken := TakeRecord(fields, t.value.0, value);
      if taken.Err? {
        return Err(taken.error);
      }
      fields := taken.value;
      last := Some(t.value.0);
    }
    ParseEnd(last, fields);
    assert data[consumed..] == [];
    if fields.amount.None? || fields.cltv.None? || (!isFinal && fields.scid.None?) {
      return Err(InvalidPayload);
    }
    r := Ok(fields);
  }

  method PeelOnion(c: Crypto, key: Secret, onion: Bytes, associated: Bytes) returns (r: Result<PeeledOnion, SphinxError>)
    ensures r == Peel(c, key, onion, associated)
  {
    if |onion| != ONION_SIZE {
      return Err(InvalidSize);
    }
    if onion[0] != 0 {
      return Err(UnsupportedVersion);
    }
    var ephemeral := c.parse(onion[1..34]);
    if ephemeral.None? {
      return Err(InvalidEphemeralKey);
    }
    var info, hmac := onion[34..1334], onion[1334..];
    var shared := c.ecdh(key, ephemeral.value);
    if shared.None? {
      return Err(EcdhFailed);
    }
    if c.hmac(Mu(c, shared.value), info + associated) != hmac {
      return Err(HmacFailed);
    }
    var unwrapped := new Byte[2 * ROUTING_INFO_SIZE](i requires 0 <= i < 2 * ROUTING_INFO_SIZE =>
      if i < ROUTING_INFO_SIZE then info[i] else 0);
    assert unwrapped[..] == info + Zeros(ROUTING_INFO_SIZE);
    XorInPlace(unwrapped, c.stream(Rho(c, shared.value), 2 * ROUTING_INFO_SIZE));
    assert unwrapped[..] == Unwrap(c, shared.value, info);
    r := Forward(c, ephemeral.value, shared.value, unwrapped[..]);
  }

  /** The second half of peeling: the payload of the decrypted hop and the packet for the next one. */
  method Forward(c: Crypto, ephemeral: Public, shared: Bytes32, unwrapped: Bytes) returns (r: Result<PeeledOnion, SphinxError>)
    ensures forall info: Bytes, hmac: Bytes, associated: Bytes ::
      Unwrap(c, shared, info) == unwrapped && c.hmac(Mu(c, shared), info + associated) == hmac ==>
        r == PeelWith(c, shared, ephemeral, info, hmac, associated)
  {
    hide ParseRecords, ReadBigsize, Unwrap;
    var size := ReadBigsize(unwrapped);
    if size.Err? {
      return Err(size.error);
    }
    ReadBigsizeBounds(unwrapped);
    if size.value.0 < 2 {
      return Err(InvalidPayload);
    }
    var payloadEnd := size.value.1 + size.value.0;
    var hmacEnd := payloadEnd + 32;
    if hmacEnd > |unwrapped| || |unwrapped| - hmacEnd < ROUTING_INFO_SIZE {
      return Err(InvalidPayload);
    }
    var nextHmac := unwrapped[payloadEnd..hmacEnd];
    var isFinal := nextHmac == Zeros(32);
    var f := ParseTlvPayload(unwrapped[size.value.1..payloadEnd], isFinal);
    if f.Err? {
      return Err(f.error);
    }
    var scid := if f.value.scid.Some? then f.value.scid.value else 0;
    if isFinal {
      return Ok(PeeledOnion(scid, f.value.amount.value, f.value.cltv.value, [], shared));
    }
    var next := c.blindPublic(ephemeral, c.blinding(ephemeral, shared));
    if next.None? {
      return Err(InvalidEphemeralKey);
    }
    var packet := [0];
    packet := packet + next.value;
    packet := packet + unwrapped[hmacEnd..hmacEnd + ROUTING_INFO_SIZE];
    packet := packet + nextHmac;
    r := Ok(PeeledOnion(scid, f.value.amount.value, f.value.cltv.value, packet, shared));
  }

  /** The shared secrets of a route of at most two hops, and the ephemeral secret after the last. */
  ghost predicate Derived(c: Crypto, session: Secret, hops: seq<(Public, Bytes)>, secrets: seq<Bytes32>, ephemeral: Secret) {
    && |secrets| <= |hops| && |secrets| <= 2
    && (|secrets| == 0 ==> ephemeral == session)
    && (|secrets| == 1 ==> Advance(c, session, hops[0].0) == Ok(Stage(secrets[0], ephemeral)))
    && (|secrets| == 2 ==>
          var first := Advance(c, session, hops[0].0);
          first.Ok? && first.value.shared == secrets[0]
          && Advance(c, first.value.next, hops[1].0) == Ok(Stage(secrets[1], ephemeral)))
  }

  lemma {:induction false} LayersAreCreated(c: Crypto, session: Secret, hops: seq<(Public, Bytes)>, secrets: seq<Bytes32>,
                                            ephemeral: Secret, filler: Bytes, associated: Bytes)
    requires Lawful(c) && 1 <= |hops| <= 2 && |secrets| == |hops|
    requires forall i :: 0 <= i < |hops| ==> |hops[i].1| < U64_BOUND
    requires Derived(c, session, hops, secrets, ephemeral)
    requires |hops| == 1 ==> filler == []
    requires |hops| == 2 ==> HopDataLen(hops[0].1) <= ROUTING_INFO_SIZE && filler == Filler(c, secrets[0], HopDataLen(hops[0].1))
    ensures Create(c, session, hops, associated) ==
      (var s :- Layers(c, hops, secrets, filler, associated, 0); Ok(Packet(c.publicOf(session), s.info, s.hmac)))
  {
    hide Seal, Advance;
    assert Layers(c, hops, secrets, filler, associated, |hops|) == Ok(INNERMOST);
    assert Layers(c, hops, secrets, filler, associated, |hops| - 1) ==
      Seal(c, secrets[|hops| - 1], hops[|hops| - 1].1, INNERMOST, filler, associated);
  }

  method CreatePaymentOnion(c: Crypto, session: Secret, hops: seq<(Public, Bytes)>, associated: Bytes)
    returns (r: Result<Bytes, SphinxError>)
    requires Lawful(c)
    requires forall i :: 0 <= i < |hops| ==> |hops[i].1| < U64_BOUND
    ensures r == Create(c, session, hops, associated)
  {
    if |hops| == 0 {
      return Err(InvalidPayload);
    }
    if |hops| > 2 {
      return Err(UnsupportedPayload);
    }
    var ephemeral := session;
    var secrets: seq<Bytes32> := [];
    for i := 0 to |hops|
      invariant |secrets| == i && Derived(c, session, hops, secrets, ephemeral)
    {
      var shared := c.ecdh(ephemeral, hops[i].0);
      if shared.None? {
        return Err(EcdhFailed);
      }
      secrets := secrets + [shared.value];
      var next := c.blindSecret(ephemeral, c.blinding(c.publicOf(ephemeral), shared.value));
      if next.None? {
        return Err(InvalidEphemeralKey);
      }
      ephemeral := next.value;
    }
    var filler := [];
    if |hops| == 2 {
      if HopDataLen(hops[0].1) > ROUTING_INFO_SIZE {
        return Err(InvalidPayload);
      }
      filler := Filler(c, secrets[0], HopDataLen(hops[0].1));
    }
    var sealed := SealLayers(c, hops, secrets, filler, associated);
    LayersAreCreated(c, session, hops, secrets, ephemeral, filler, associated);
    if sealed.Err? {
      return Err(sealed.error);
    }
    r := Ok(Packet(c.publicOf(session), sealed.value.info, sealed.value.hmac));
  }

  /** The layers of the hops from `idx` on; only the last hop gets the filler. */
  function Layers(c: Crypto, hops: seq<(Public, Bytes)>, secrets: seq<Bytes32>, filler: Bytes, associated: Bytes, idx: nat)
    : (r: Result<Sealed, SphinxError>)
    requires |secrets| == |hops| && idx <= |hops|
    requires forall i :: 0 <= i < |hops| ==> |hops[i].1| < U64_BOUND
    ensures r.Ok? ==> |r.value.info| == ROUTING_INFO_SIZE
    decreases |hops| - idx
  {
    if idx == |hops| then Ok(INNERMOST)
    else
      var next :- Layers(c, hops, secrets, filler, associated, idx + 1);
      Seal(c, secrets[idx], hops[idx].1, next, if idx == |hops| - 1 then filler else [], associated)
  }

  lemma {:induction false} LayersErrorStays(c: Crypto, hops: seq<(Public, Bytes)>, secrets: seq<Bytes32>, filler: Bytes,
                                            associated: Bytes, idx: nat)
    requires |secrets| == |hops| && idx <= |hops|
    requires forall i :: 0 <= i < |hops| ==> |hops[i].1| < U64_BOUND
    ensures var at := Layers(c, hops, secrets, filler, associated, idx);
      at.Err? ==> Layers(c, hops, secrets, filler, associated, 0) == at
    decreases idx
  {
    if idx > 0 {
      LayersErrorStays(c, hops, secrets, filler, associated, idx - 1);
    }
  }

  method SealLayers(c: Crypto, hops: seq<(Public, Bytes)>, secrets: seq<Bytes32>, filler: Bytes, associated: Bytes)
    returns (r: Result<Sealed, SphinxError>)
    requires |secrets| == |hops|
    requires forall i :: 0 <= i < |hops| ==> |hops[i].1| < U64_BOUND
    ensures r == Layers(c, hops, secrets, filler, associated, 0)
  {
    hide Seal;
    var sealed := INNERMOST;
    var idx := |hops|;
    while idx > 0
      invariant 0 <= idx <= |hops|
      invariant Layers(c, hops, secrets, filler, associated, idx) == Ok(sealed)
    {
      idx := idx - 1;
      LayersErrorStays(c, hops, secrets, filler, associated, idx);
      var layer := SealLayer(c, secrets[idx], hops[idx].1, sealed, if idx == |hops| - 1 then filler else [], associated);
      if layer.Err? {
        return layer;
      }
      sealed := layer.value;
    }
    r := Ok(sealed);
  }

  method SealLayer(c: Crypto, shared: Bytes32, payload: Bytes, next: Sealed, filler: Bytes, associated: Bytes)
    returns (r: Result<Sealed, SphinxError>)
    requires |payload| < U64_BOUND && |next.info| == ROUTING_INFO_SIZE
    ensures r == Seal(c, shared, payload, next, filler, associated)
  {
    hide WriteBigsize, Xor;
    var hop := WriteBigsize(|payload|);
    hop := hop + payload;
    hop := hop + next.hmac;
    if |hop| > ROUTING_INFO_SIZE {
      return Err(InvalidPayload);
    }
    var shifted := new Byte[ROUTING_INFO_SIZE](i requires 0 <= i < ROUTING_INFO_SIZE =>
      if i < |hop| then hop[i] else next.info[i - |hop|]);
    assert shifted[..] == hop + next.info[..ROUTING_INFO_SIZE - |hop|];
    XorInPlace(shifted, c.stream(Rho(c, shared), ROUTING_INFO_SIZE));
    if |filler| > ROUTING_INFO_SIZE - |hop| {
      return Err(InvalidPayload);
    }
    var info := shifted[..ROUTING_INFO_SIZE - |filler|] + filler;
    r := Ok(Sealed(info, c.hmac(Mu(c, shared), info + associated)));
  }
}

/** Peeling undoes construction, hop by hop. */
module SphinxLaws {
  import opened Base
  import opened Endian
  import opened Sphinx

  // ---- Sizes, records and payloads -----------------------------------------------------------

  lemma {:induction false} BigsizeRoundTrip(v: U64, rest: Bytes)
    ensures ReadBigsize(WriteBigsize(v) + rest) == Ok((v, BigsizeLen(v)))
  {
    hide Pow256, FromBe, ToBe;
    PowValues();
    var n := BigsizeLen(v) - 1;
    var data := WriteBigsize(v) + rest;
    if n > 0 {
      FromToBe(v, n);
      assert data[1..n + 1] == ToBe(v, n);
    }
  }

  lemma {:induction false} RecordRoundTrip(t: U64, value: Bytes, rest: Bytes)
    requires |value| < U64_BOUND
    ensures NextRecord(Record(t, value) + rest) == Ok((t, value, |Record(t, value)|))
    ensures ReadBigsize(Record(t, value) + rest) == Ok((t, BigsizeLen(t)))
  {
    hide WriteBigsize, ReadBigsize;
    var data := Record(t, value) + rest;
    var tail := WriteBigsize(|value|) + (value + rest);
    assert data == WriteBigsize(t) + tail;
    BigsizeRoundTrip(t, tail);
    BigsizeRoundTrip(|value|, value + rest);
    var at := BigsizeLen(t);
    assert data[at..] == tail;
    var start := at + BigsizeLen(|value|);
    assert data[start..start + |value|] == value;
  }

  /** A well-formed record in front of the rest of a payload is taken and skipped. */
  lemma {:induction false} ParseStep(t: U64, value: Bytes, rest: Bytes, last: Option<nat>, f: Fields)
    requires |value| < U64_BOUND && (last.Some? ==> last.value < t)
    ensures ParseRecords(Record(t, value) + rest, last, f) ==
      (var f' :- TakeRecord(f, t, value); ParseRecords(rest, Some(t), f'))
  {
    hide Record, NextRecord, ReadBigsize, TakeRecord;
    var data := Record(t, value) + rest;
    RecordRoundTrip(t, value, rest);
    assert data[|Record(t, value)|..] == rest;
  }

  /** A number that fits `k` bytes needs no more than `k` once the leading zeros are gone. */
  lemma {:induction false} StrippedFits(v: nat, k: nat, n: nat)
    requires 1 <= k <= n && v < Pow256(k)
    ensures |Stripped(ToBe(v, n))| <= k
    decreases n
  {
    if k < n {
      StrippedFits(v, k, n - 1);
      PowGrows(k, n - 1);
      LeadingZero(v, n);
    }
  }

  lemma {:induction false} LeadingZero(v: nat, n: nat)
    requires n >= 1 && v < Pow256(n - 1)
    ensures ToBe(v, n) == [0] + ToBe(v, n - 1)
  {
    if n > 1 {
      LeadingZero(v / 256, n - 1);
    }
  }

  lemma {:induction false} MinimalRoundTrip(v: U64, k: nat)
    requires k == 4 || k == 8
    requires v < Pow256(k)
    ensures 1 <= |MinimalBe(v)| <= k && BeTu(MinimalBe(v), k) == Ok(v)
  {
    PowValues();
    FromToBe(v, 8);
    StrippedSameValue(ToBe(v, 8));
    StrippedFits(v, k, 8);
  }

  lemma {:induction false} ScidRoundTrip(scid: U64, f: Fields)
    ensures TakeRecord(f, 6, ToBe(scid, 8)) == Ok(f.(scid := Some(scid)))
  {
    PowValues();
    FromToBe(scid, 8);
  }

  lemma {:induction false} BuiltRecords(amount: U64, cltv: U32, rest: Bytes)
    ensures ParseRecords(Record(2, MinimalBe(amount)) + (Record(4, MinimalBe(cltv)) + rest), None, Fields(None, None, None)) ==
      ParseRecords(rest, Some(4), Fields(None, Some(amount), Some(cltv)))
  {
    hide Record, ParseRecords, MinimalBe, BeTu, Pow256;
    PowValues();
    MinimalRoundTrip(amount, 8);
    MinimalRoundTrip(cltv, 4);
    ParseStep(2, MinimalBe(amount), Record(4, MinimalBe(cltv)) + rest, None, Fields(None, None, None));
    ParseStep(4, MinimalBe(cltv), rest, Some(2), Fields(None, Some(amount), None));
  }

  function SecretRecord(amount: U64, paymentSecret: Option<Bytes32>): Bytes {
    if paymentSecret.None? then []
    else
      var total := if amount == 0 then [] else MinimalBe(amount);
      Record(8, paymentSecret.value + [|total|] + total)
  }

  function ScidRecord(scid: Option<U64>): Bytes {
    if scid.Some? then Record(6, ToBe(scid.value, 8)) else []
  }

  lemma {:induction false} SecretIsSkipped(amount: U64, paymentSecret: Option<Bytes32>, last: nat, f: Fields)
    requires last < 8
    ensures ParseRecords(SecretRecord(amount, paymentSecret), Some(last), f) == Ok(f)
  {
    hide Record, MinimalBe;
    if paymentSecret.Some? {
      var total := if amount == 0 then [] else MinimalBe(amount);
      PowValues();
      MinimalRoundTrip(amount, 8);
      var value := paymentSecret.value + [|total|] + total;
      ParseStep(8, value, [], Some(last), f);
      assert Record(8, value) + [] == Record(8, value);
    }
  }

  lemma {:induction false} ScidIsTaken(scid: Option<U64>, rest: Bytes, f: Fields)
    requires f.scid.None?
    ensures scid.Some? ==> ParseRecords(ScidRecord(scid) + rest, Some(4), f) == ParseRecords(rest, Some(6), f.(scid := scid))
    ensures scid.None? ==> ScidRecord(scid) + rest == rest
  {
    hide Record, ParseRecords, TakeRecord;
    if scid.Some? {
      ScidRoundTrip(scid.value, f);
      ParseStep(6, ToBe(scid.value, 8), rest, Some(4), f);
    }
  }

  lemma {:induction false} PayloadSplits(amount: U64, cltv: U32, scid: Option<U64>, paymentSecret: Option<Bytes32>)
    ensures BuildPayload(amount, cltv, scid, paymentSecret) ==
      Record(2, MinimalBe(amount)) + (Record(4, MinimalBe(cltv)) + (ScidRecord(scid) + SecretRecord(amount, paymentSecret)))
  {
    hide Record, MinimalBe;
    var a, b, s, t := Record(2, MinimalBe(amount)), Record(4, MinimalBe(cltv)), ScidRecord(scid), SecretRecord(amount, paymentSecret);
    assert a + b + s + t == a + (b + (s + t));
  }

  /** The fields put into a payload are the fields read from it. */
  lemma {:induction false} PayloadRoundTrip(amount: U64, cltv: U32, scid: Option<U64>, paymentSecret: Option<Bytes32>, isFinal: bool)
    requires isFinal || scid.Some?
    ensures ParsePayload(BuildPayload(amount, cltv, scid, paymentSecret), isFinal) == Ok(Fields(scid, Some(amount), Some(cltv)))
  {
    hide Record, MinimalBe, BuildPayload, SecretRecord, ScidRecord;
    var tail := SecretRecord(amount, paymentSecret);
    var f := Fields(None, Some(amount), Some(cltv));
    PayloadSplits(amount, cltv, scid, paymentSecret);
    BuiltRecords(amount, cltv, ScidRecord(scid) + tail);
    ScidIsTaken(scid, tail, f);
    SecretIsSkipped(amount, paymentSecret, if scid.Some? then 6 else 4, f.(scid := scid));
  }

  // ---- Layers --------------------------------------------------------------------------------

  lemma {:induction false} XorLaws(a: Byte, b: Byte)
    ensures Xor(Xor(a, b), b) == a && Xor(0, b) == b
  {
    Pow2Eight();
    XorBitsZero(b, 8);
  }

  /** Decrypting what was encrypted, over twice the length: the data up to the filler, then the rest of the stream. */
  lemma {:induction false} DecryptWithFiller(x: Bytes, stream: Bytes, filler: Bytes)
    requires |x| == ROUTING_INFO_SIZE && |stream| == 2 * ROUTING_INFO_SIZE && |filler| <= ROUTING_INFO_SIZE
    ensures var kept := ROUTING_INFO_SIZE - |filler|;
      var y := XorAll(XorAll(x, stream[..ROUTING_INFO_SIZE])[..kept] + filler + Zeros(ROUTING_INFO_SIZE), stream);
      y[..kept] == x[..kept] && y[ROUTING_INFO_SIZE..] == stream[ROUTING_INFO_SIZE..]
  {
    hide XorBits;
    var kept := ROUTING_INFO_SIZE - |filler|;
    var enc := XorAll(x, stream[..ROUTING_INFO_SIZE]);
    var whole := enc[..kept] + filler + Zeros(ROUTING_INFO_SIZE);
    var y := XorAll(whole, stream);
    forall i | 0 <= i < kept
      ensures y[i] == x[i]
    {
      XorLaws(x[i], stream[i]);
    }
    forall i | ROUTING_INFO_SIZE <= i < 2 * ROUTING_INFO_SIZE
      ensures y[i] == stream[i]
    {
      XorLaws(0, stream[i]);
      assert whole[i] == 0;
    }
  }

  /** A decrypted hop is read back whatever follows its hop data. */
  lemma {:induction false} OpenBuilt(payload: Bytes, hmac: Bytes, rest: Bytes)
    requires 2 <= |payload| < U64_BOUND && |hmac| == 32 && ROUTING_INFO_SIZE <= |rest|
    ensures OpenHop(HopData(payload, hmac) + rest) == Ok(Hop(payload, hmac, rest[..ROUTING_INFO_SIZE]))
    ensures |HopData(payload, hmac)| == HopDataLen(payload)
  {
    hide WriteBigsize, ReadBigsize;
    var unwrapped := HopData(payload, hmac) + rest;
    BigsizeRoundTrip(|payload|, payload + hmac + rest);
    assert unwrapped == WriteBigsize(|payload|) + (payload + hmac + rest);
    var start := BigsizeLen(|payload|);
    var end := start + |payload|;
    assert unwrapped[start..end] == payload;
    assert unwrapped[end..end + 32] == hmac;
    assert unwrapped[end + 32..end + 32 + ROUTING_INFO_SIZE] == rest[..ROUTING_INFO_SIZE];
  }

  /** What a peeled layer decrypts to: its hop data, then the inner packet, then the end of the stream. */
  lemma {:induction false} UnwrapSealed(c: Crypto, shared: Bytes32, payload: Bytes, next: Sealed, filler: Bytes, associated: Bytes)
    returns (rest: Bytes)
    requires Lawful(c) && |payload| < U64_BOUND && |next.info| == ROUTING_INFO_SIZE
    requires Seal(c, shared, payload, next, filler, associated).Ok?
    ensures var sealed := Seal(c, shared, payload, next, filler, associated).value;
      var hop := HopData(payload, next.hmac);
      var stream := c.stream(Rho(c, shared), ROUTING_INFO_SIZE * 2);
      && |sealed.info| == ROUTING_INFO_SIZE && |stream| == 2 * ROUTING_INFO_SIZE && |hop| + |filler| <= ROUTING_INFO_SIZE
      && Unwrap(c, shared, sealed.info) == hop + rest && |rest| == 2 * ROUTING_INFO_SIZE - |hop|
      && (filler == [] ==> rest == next.info[..ROUTING_INFO_SIZE - |hop|] + stream[ROUTING_INFO_SIZE..])
  {
    hide HopData, Rho, Mu, XorBits;
    var sealed := Seal(c, shared, payload, next, filler, associated).value;
    var hop := HopData(payload, next.hmac);
    var stream := c.stream(Rho(c, shared), ROUTING_INFO_SIZE * 2);
    var x := hop + next.info[..ROUTING_INFO_SIZE - |hop|];
    assert c.stream(Rho(c, shared), ROUTING_INFO_SIZE) == stream[..ROUTING_INFO_SIZE];
    DecryptWithFiller(x, stream, filler);
    var y := Unwrap(c, shared, sealed.info);
    var kept := ROUTING_INFO_SIZE - |filler|;
    assert y[..|hop|] == y[..kept][..|hop|] == x[..kept][..|hop|] == hop;
    rest := y[|hop|..];
    assert y == hop + rest;
    if filler == [] {
      assert y == y[..ROUTING_INFO_SIZE] + y[ROUTING_INFO_SIZE..];
      assert y[..ROUTING_INFO_SIZE] == x;
    }
  }

  // ---- Peeling a packet ----------------------------------------------------------------------

  lemma {:induction false} PacketParts(ephemeral: Public, info: Bytes, hmac: Bytes)
    requires |info| == ROUTING_INFO_SIZE && |hmac| == 32
    ensures var p := Packet(ephemeral, info, hmac);
      && |p| == ONION_SIZE && p[0] == 0 && p[1..34] == ephemeral
      && p[34..1334] == info && p[1334..] == hmac
  {
    var p := Packet(ephemeral, info, hmac);
    assert p[1..34] == ephemeral;
    assert p[34..1334] == info;
    assert p[1334..] == hmac;
  }

  /** The holder of the right key peels exactly the layer that was sealed. */
  lemma {:induction false} PeelSealed(c: Crypto, ephemeral: Secret, key: Secret, shared: Bytes32, payload: Bytes, next: Sealed,
                                      filler: Bytes, associated: Bytes, f: Fields)
    returns (forward: Bytes)
    requires Lawful(c) && 2 <= |payload| < U64_BOUND && |next.info| == ROUTING_INFO_SIZE
    requires c.ecdh(ephemeral, c.publicOf(key)) == Some(shared)
    requires Seal(c, shared, payload, next, filler, associated).Ok?
    requires ParsePayload(payload, next.hmac == Zeros(32)) == Ok(f)
    ensures |forward| == ROUTING_INFO_SIZE
    ensures HopDataLen(payload) <= ROUTING_INFO_SIZE
    ensures filler == [] ==>
      forward == next.info[..ROUTING_INFO_SIZE - HopDataLen(payload)] + Filler(c, shared, HopDataLen(payload))
    ensures var sealed := Seal(c, shared, payload, next, filler, associated).value;
      var e := c.publicOf(ephemeral);
      var scid := if f.scid.Some? then f.scid.value else 0;
      Peel(c, key, Packet(e, sealed.info, sealed.hmac), associated) ==
        if next.hmac == Zeros(32) then Ok(PeeledOnion(scid, f.amount.value, f.cltv.value, [], shared))
        else
          match c.blindPublic(e, c.blinding(e, shared))
          case None => Err(InvalidEphemeralKey)
          case Some(e') => Ok(PeeledOnion(scid, f.amount.value, f.cltv.value, Packet(e', forward, next.hmac), shared))
  {
    hide Seal, OpenHop, Unwrap, ParsePayload, HopData, Packet, Rho, Mu;
    var sealed := Seal(c, shared, payload, next, filler, associated).value;
    var rest := UnwrapSealed(c, shared, payload, next, filler, associated);
    SealedHmac(c, shared, payload, next, filler, associated);
    PacketParts(c.publicOf(ephemeral), sealed.info, sealed.hmac);
    OpenBuilt(payload, next.hmac, rest);
    forward := rest[..ROUTING_INFO_SIZE];
    assert c.ecdh(key, c.publicOf(ephemeral)) == Some(shared);
    if filler == [] {
      var n := HopDataLen(payload);
      assert forward == next.info[..ROUTING_INFO_SIZE - n] + Filler(c, shared, n);
    }
  }

  lemma {:induction false} SealedHmac(c: Crypto, shared: Bytes32, payload: Bytes, next: Sealed, filler: Bytes, associated: Bytes)
    requires |payload| < U64_BOUND && |next.info| == ROUTING_INFO_SIZE
    requires Seal(c, shared, payload, next, filler, associated).Ok?
    ensures var sealed := Seal(c, shared, payload, next, filler, associated).value;
      sealed.hmac == c.hmac(Mu(c, shared), sealed.info + associated)
  {
    hide HopData;
  }

  // ---- Whole routes --------------------------------------------------------------------------

  /** A one-hop packet gives its recipient the fields it was built with and nothing to forward. */
  lemma {:induction false} SingleHopRoundTrip(c: Crypto, session: Secret, key: Secret, amount: U64, cltv: U32,
                                              paymentSecret: Option<Bytes32>, associated: Bytes, onion: Bytes)
    requires Lawful(c)
    requires CreateOne(c, session, c.publicOf(key), BuildPayload(amount, cltv, None, paymentSecret), associated) == Ok(onion)
    ensures exists shared: Bytes32 ::
      c.ecdh(session, c.publicOf(key)) == Some(shared) &&
      Peel(c, key, onion, associated) == Ok(PeeledOnion(0, amount, cltv, [], shared))
  {
    hide BuildPayload, Seal, Peel, ParsePayload;
    var payload := BuildPayload(amount, cltv, None, paymentSecret);
    PayloadRoundTrip(amount, cltv, None, paymentSecret, true);
    var stage := Advance(c, session, c.publicOf(key)).value;
    var forward := PeelSealed(c, session, key, stage.shared, payload, INNERMOST, [], associated, Fields(None, Some(amount), Some(cltv)));
  }

  /**
   * In a two-hop packet the first hop reads its fields and forwards, byte for byte, the packet that
   * was sealed for the second hop; the second hop reads its fields and has nothing to forward.
   */
  lemma {:induction false} TwoHopRoundTrip(c: Crypto, session: Secret, key1: Secret, key2: Secret,
                                           amount1: U64, cltv1: U32, scid: U64, amount2: U64, cltv2: U32,
                                           paymentSecret: Option<Bytes32>, associated: Bytes, onion: Bytes)
    returns (stage1: Stage, stage2: Stage, inner: Sealed)
    requires Lawful(c)
    requires CreateTwo(c, session, c.publicOf(key1), BuildPayload(amount1, cltv1, Some(scid), None),
                       c.publicOf(key2), BuildPayload(amount2, cltv2, None, paymentSecret), associated) == Ok(onion)
    ensures Advance(c, session, c.publicOf(key1)) == Ok(stage1) && Advance(c, stage1.next, c.publicOf(key2)) == Ok(stage2)
    ensures SealSecond(c, stage1.shared, stage2.shared, BuildPayload(amount1, cltv1, Some(scid), None),
                       BuildPayload(amount2, cltv2, None, paymentSecret), associated) == Ok(inner)
    ensures var packet := Packet(c.publicOf(stage1.next), inner.info, inner.hmac);
      && (inner.hmac != Zeros(32) ==>
            Peel(c, key1, onion, associated) == Ok(PeeledOnion(scid, amount1, cltv1, packet, stage1.shared)))
      && Peel(c, key2, packet, associated) == Ok(PeeledOnion(0, amount2, cltv2, [], stage2.shared))
  {
    hide BuildPayload, Seal, Peel, ParsePayload, Packet, HopData;
    var payload1, payload2 := BuildPayload(amount1, cltv1, Some(scid), None), BuildPayload(amount2, cltv2, None, paymentSecret);
    PayloadRoundTrip(amount1, cltv1, Some(scid), None, false);
    PayloadRoundTrip(amount2, cltv2, None, paymentSecret, true);
    stage1 := Advance(c, session, c.publicOf(key1)).value;
    stage2 := Advance(c, stage1.next, c.publicOf(key2)).value;
    inner := SealSecond(c, stage1.shared, stage2.shared, payload1, payload2, associated).value;
    var filler := Filler(c, stage1.shared, HopDataLen(payload1));
    var _ := PeelSealed(c, stage1.next, key2, stage2.shared, payload2, INNERMOST, filler, associated, Fields(None, Some(amount2), Some(cltv2)));
    SealEndsWithFiller(c, stage2.shared, payload2, INNERMOST, filler, associated);
    if inner.hmac != Zeros(32) {
      var forward := PeelSealed(c, session, key1, stage1.shared, payload1, inner, [], associated,
                                Fields(Some(scid), Some(amount1), Some(cltv1)));
      var n := HopDataLen(payload1);
      assert inner.info == inner.info[..ROUTING_INFO_SIZE - n] + inner.info[ROUTING_INFO_SIZE - n..];
    }
  }

  /** A two-hop packet can be built exactly when the data of both hops fits the routing info. */
  lemma {:induction false} TwoHopFitsIff(c: Crypto, session: Secret, hop1: Public, payload1: Bytes, hop2: Public, payload2: Bytes,
                                         associated: Bytes)
    requires Lawful(c) && |payload1| < U64_BOUND && |payload2| < U64_BOUND
    requires Advance(c, session, hop1).Ok? && Advance(c, Advance(c, session, hop1).value.next, hop2).Ok?
    ensures CreateTwo(c, session, hop1, payload1, hop2, payload2, associated).Ok? <==>
      HopDataLen(payload1) + HopDataLen(payload2) <= ROUTING_INFO_SIZE
  {
    var stage1 := Advance(c, session, hop1).value;
    var stage2 := Advance(c, stage1.next, hop2).value;
    var inner := SealSecond(c, stage1.shared, stage2.shared, payload1, payload2, associated);
    if inner.Ok? {
      SealEndsWithFiller(c, stage2.shared, payload2, INNERMOST, Filler(c, stage1.shared, HopDataLen(payload1)), associated);
    }
  }

  /** The laws asked of the primitives can be met together, with an HMAC that is never all zeros. */
  lemma {:induction false} LawsAreConsistent()
    ensures exists c: Crypto :: Lawful(c) && forall k: Bytes, data: Bytes :: c.hmac(k, data) != Zeros(32)
  {
    var c := Crypto(
      (s: Secret) => [2] + s,
      (b: Bytes) => if |b| == 33 then Some(b) else None,
      (s: Secret, p: Public) => Some(Zeros(32)),
      (p: Public, shared: Bytes32) => shared,
      (p: Public, b: Bytes32) => Some(p),
      (s: Secret, b: Bytes32) => Some(s),
      (k: Bytes, data: Bytes) => Zeros(31) + [1],
      (k: Bytes32, n: nat) => Zeros(n));
    assert forall k: Bytes32, m: nat, n: nat :: m <= n ==> c.stream(k, m) == c.stream(k, n)[..m];
    assert Lawful(c);
    assert forall k: Bytes, data: Bytes :: c.hmac(k, data)[31] == 1 != Zeros(32)[31];
  }

  lemma {:induction false} SealEndsWithFiller(c: Crypto, shared: Bytes32, payload: Bytes, next: Sealed, filler: Bytes, associated: Bytes)
    requires Lawful(c) && |payload| < U64_BOUND && |next.info| == ROUTING_INFO_SIZE
    requires Seal(c, shared, payload, next, filler, associated).Ok?
    ensures var info := Seal(c, shared, payload, next, filler, associated).value.info;
      |info| == ROUTING_INFO_SIZE && |filler| <= |info| && info[ROUTING_INFO_SIZE - |filler|..] == filler
  {
    hide HopData;
  }
}

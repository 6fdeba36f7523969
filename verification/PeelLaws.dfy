/** Exactly which payloads and packets are accepted: authenticity, and the records a hop may carry. */
module PeelLaws {
  import opened Base
  import opened Endian
  import opened Sphinx
  import opened SphinxLaws
  import Codec
  import CodecLaws

  // ---- Payloads ----------------------------------------------------------------------------

  datatype Rec = Rec(tag: U64, value: Bytes)

  predicate Sized(rs: seq<Rec>) {
    forall i :: 0 <= i < |rs| ==> |rs[i].value| < U64_BOUND
  }

  function Written(rs: seq<Rec>): Bytes
    requires Sized(rs)
  {
    if rs == [] then [] else Record(rs[0].tag, rs[0].value) + Written(rs[1..])
  }

  /** A big-endian number without leading zeros, of at most `max` bytes. */
  predicate Truncated(value: Bytes, max: nat) {
    1 <= |value| <= max && (|value| > 1 ==> value[0] != 0)
  }

  /** A record a hop may carry: the three fields in their form, a few known even types, any odd type. */
  predicate Allowed(r: Rec) {
    && (r.tag == 2 ==> Truncated(r.value, 8))
    && (r.tag == 4 ==> Truncated(r.value, 4))
    && (r.tag == 6 ==> |r.value| == 8)
    && (r.tag % 2 == 0 ==> r.tag in {2, 4, 6, 8, 16, 18})
  }

  predicate Ascending(rs: seq<Rec>, last: Option<nat>) {
    && (forall i :: 0 < i < |rs| ==> rs[i - 1].tag < rs[i].tag)
    && (rs != [] && last.Some? ==> last.value < rs[0].tag)
  }

  predicate AllAllowed(rs: seq<Rec>) {
    forall i :: 0 <= i < |rs| ==> Allowed(rs[i])
  }

  /** The number a type carries, if the records have that type. */
  function Carried(rs: seq<Rec>, tag: U64): Option<nat> {
    if rs == [] then None else if rs[0].tag == tag then Some(FromBe(rs[0].value)) else Carried(rs[1..], tag)
  }

  /** The fields agree with the records, and where these are silent with what was known before. */
  predicate Filled(f: Fields, rs: seq<Rec>, before: Fields) {
    && f.amount == (if Carried(rs, 2).Some? then Carried(rs, 2) else before.amount)
    && f.cltv == (if Carried(rs, 4).Some? then Carried(rs, 4) else before.cltv)
    && f.scid == (if Carried(rs, 6).Some? then Carried(rs, 6) else before.scid)
  }

  lemma {:induction false} TakeRecordIff(f: Fields, r: Rec)
    ensures TakeRecord(f, r.tag, r.value).Ok? <==> Allowed(r)
    ensures Allowed(r) ==> Filled(TakeRecord(f, r.tag, r.value).value, [r], f)
  {
    hide FromBe, Pow256;
    assert [r][1..] == [];
    assert forall t: U64 :: Carried([r], t) == if r.tag == t then Some(FromBe(r.value)) else None;
  }

  /** Records that are left say nothing of types at or below the first. */
  lemma {:induction false} LaterSilent(rs: seq<Rec>, last: nat, tag: U64)
    requires Ascending(rs, Some(last)) && tag <= last
    ensures Carried(rs, tag) == None
  {
    if rs != [] {
      LaterSilent(rs[1..], rs[0].tag, tag);
    }
  }

  lemma {:induction false} FilledStep(f: Fields, r: Rec, rs: seq<Rec>, g: Fields, before: Fields)
    requires Ascending(rs, Some(r.tag)) && Filled(f, [r], before)
    ensures Filled(g, rs, f) <==> Filled(g, [r] + rs, before)
  {
    var all := [r] + rs;
    assert all[1..] == rs && [r][1..] == [];
    LaterSilent(rs, r.tag, r.tag);
    assert forall t: U64 :: Carried(all, t) == if r.tag == t then Some(FromBe(r.value)) else Carried(rs, t);
    assert forall t: U64 :: Carried([r], t) == if r.tag == t then Some(FromBe(r.value)) else None;
  }

  /** The reader of sizes accepts only the shortest form. */
  lemma {:induction false} BigsizeOnly(data: Bytes)
    requires ReadBigsize(data).Ok?
    ensures var v := ReadBigsize(data).value;
      v.0 < U64_BOUND && v.1 <= |data| && data[..v.1] == WriteBigsize(v.0)
  {
    hide ReadBigsize, WriteBigsize;
    var v := ReadBigsize(data).value;
    CodecLaws.BigsizeAgrees(data);
    CodecLaws.VarintIff(data, v.0, data[v.1..]);
    SameWriter(v.0);
    assert data == data[..v.1] + data[v.1..];
    assert |Codec.WriteVarint(v.0)| == |data| - |data[v.1..]|;
  }

  lemma {:induction false} SameWriter(v: U64)
    ensures WriteBigsize(v) == Codec.WriteVarint(v)
  {
  }

  lemma {:induction false} RecordOnly(data: Bytes) returns (r: Rec)
    requires NextRecord(data).Ok?
    ensures |r.value| < U64_BOUND && NextRecord(data).value == (r.tag, r.value, |Record(r.tag, r.value)|)
    ensures |Record(r.tag, r.value)| <= |data| && data == Record(r.tag, r.value) + data[|Record(r.tag, r.value)|..]
  {
    hide ReadBigsize, WriteBigsize;
    BigsizeOnly(data);
    var t := ReadBigsize(data).value;
    BigsizeOnly(data[t.1..]);
    var len := ReadBigsize(data[t.1..]).value;
    var start := t.1 + len.1;
    r := Rec(t.0, data[start..start + len.0]);
    assert data[t.1..][..len.1] == data[t.1..start];
    assert data == data[..t.1] + data[t.1..start] + data[start..start + len.0] + data[start + len.0..];
    assert |WriteBigsize(t.0)| == t.1 && |WriteBigsize(len.0)| == len.1;
  }

  lemma {:induction false} ParsedIsWritten(data: Bytes, last: Option<nat>, f: Fields) returns (rs: seq<Rec>)
    requires ParseRecords(data, last, f).Ok?
    ensures Sized(rs) && Written(rs) == data && Ascending(rs, last) && AllAllowed(rs)
    ensures Filled(ParseRecords(data, last, f).value, rs, f)
    decreases |data|
  {
    hide Record, NextRecord, ReadBigsize, TakeRecord, Allowed, Filled;
    if data == [] {
      rs := [];
      assert Filled(f, [], f) by { FilledByNone(f); }
    } else {
      ReadBigsizeBounds(data);
      NextIsRead(data);
      var r := RecordOnly(data);
      TakeRecordIff(f, r);
      var f' := TakeRecord(f, r.tag, r.value).value;
      var n := |Record(r.tag, r.value)|;
      RecordSize(r);
      var tail := ParsedIsWritten(data[n..], Some(r.tag), f');
      rs := [r] + tail;
      assert rs[1..] == tail;
      FilledStep(f', r, tail, ParseRecords(data, last, f).value, f);
    }
  }

  lemma {:induction false} RecordSize(r: Rec)
    requires |r.value| < U64_BOUND
    ensures |Record(r.tag, r.value)| > 0
  {
  }

  lemma {:induction false} FilledByNone(f: Fields)
    ensures forall g :: Filled(g, [], f) <==> g == f
  {
  }

  lemma {:induction false} NextIsRead(data: Bytes)
    ensures NextRecord(data).Ok? ==> ReadBigsize(data).Ok? && NextRecord(data).value.0 == ReadBigsize(data).value.0
  {
  }

  lemma {:induction false} WrittenIsParsed(rs: seq<Rec>, last: Option<nat>, f: Fields)
    requires Sized(rs) && Ascending(rs, last) && AllAllowed(rs)
    ensures ParseRecords(Written(rs), last, f).Ok? && Filled(ParseRecords(Written(rs), last, f).value, rs, f)
  {
    hide Record, TakeRecord, Allowed, Filled, ParseRecords;
    if rs == [] {
      ParseEnd(last, f);
      FilledByNone(f);
    } else {
      var r, tail := rs[0], rs[1..];
      assert rs == [r] + tail;
      TakeRecordIff(f, r);
      ParseStep(r.tag, r.value, Written(tail), last, f);
      var f' := TakeRecord(f, r.tag, r.value).value;
      WrittenIsParsed(tail, Some(r.tag), f');
      FilledStep(f', r, tail, ParseRecords(Written(rs), last, f).value, f);
    }
  }

  ghost predicate IsPayload(data: Bytes, isFinal: bool, f: Fields, rs: seq<Rec>) {
    && Sized(rs) && Written(rs) == data && Ascending(rs, None) && AllAllowed(rs)
    && f.amount.Some? && Carried(rs, 2) == f.amount && f.cltv.Some? && Carried(rs, 4) == f.cltv
    && Carried(rs, 6) == f.scid && (isFinal || f.scid.Some?)
  }

  /**
   * A payload is accepted exactly when it is a concatenation of minimally written, allowed records of
   * strictly increasing type that carry an amount, an expiry and, unless the hop is the last, a short
   * channel id; and the fields are what they carry.
   */
  lemma {:induction false} PayloadIff(data: Bytes, isFinal: bool, f: Fields)
    ensures ParsePayload(data, isFinal) == Ok(f) <==> exists rs :: IsPayload(data, isFinal, f, rs)
  {
    hide Written, Ascending, AllAllowed, Carried, ParseRecords;
    var none := Fields(None, None, None);
    if ParsePayload(data, isFinal) == Ok(f) {
      var rs := ParsedIsWritten(data, None, none);
      assert IsPayload(data, isFinal, f, rs);
    }
    if rs :| IsPayload(data, isFinal, f, rs) {
      WrittenIsParsed(rs, None, none);
    }
  }

  // ---- Authenticity ------------------------------------------------------------------------

  /** The last 32 bytes of a packet: the HMAC, under the "mu" key, of the routing info and the associated data. */
  predicate Authentic(c: Crypto, shared: Bytes32, onion: Bytes, associated: Bytes)
    requires |onion| == ONION_SIZE
  {
    onion[1334..] == c.hmac(c.hmac([0x6d, 0x75], shared), onion[34..1334] + associated)
  }

  /** A packet this key can open at all: its size, its version, its ephemeral key, the shared secret. */
  predicate Openable(c: Crypto, key: Secret, onion: Bytes, shared: Bytes32) {
    && |onion| == ONION_SIZE && onion[0] == 0 && c.parse(onion[1..34]).Some?
    && c.ecdh(key, c.parse(onion[1..34]).value) == Some(shared)
  }

  /** For such a packet the HMAC is refused exactly when it does not authenticate info and associated data. */
  lemma {:induction false} HmacFailsIff(c: Crypto, key: Secret, onion: Bytes, associated: Bytes, shared: Bytes32)
    requires Openable(c, key, onion, shared)
    ensures Peel(c, key, onion, associated) == Err(HmacFailed) <==> !Authentic(c, shared, onion, associated)
  {
    hide ReadBigsize, ParseRecords, Unwrap, Packet;
    assert onion[34..1334] + associated == onion[34..1334] + associated;
    OpeningErrors(Unwrap(c, shared, onion[34..1334]));
  }

  lemma {:induction false} OpeningErrors(unwrapped: Bytes)
    ensures OpenHop(unwrapped) != Err(HmacFailed)
    ensures forall data: Bytes, isFinal: bool :: ParsePayload(data, isFinal) != Err(HmacFailed)
  {
    hide FromBe;
    forall data: Bytes, isFinal: bool
      ensures ParsePayload(data, isFinal) != Err(HmacFailed)
    {
      RecordErrors(data, None, Fields(None, None, None));
    }
  }

  lemma {:induction false} RecordErrors(data: Bytes, last: Option<nat>, f: Fields)
    ensures ParseRecords(data, last, f) != Err(HmacFailed)
    decreases |data|
  {
    hide FromBe, Pow256;
    if data != [] && NextRecord(data).Ok? && TakeRecord(f, NextRecord(data).value.0, NextRecord(data).value.1).Ok? {
      ReadBigsizeBounds(data);
      RecordErrors(data[NextRecord(data).value.2..], Some(NextRecord(data).value.0),
                   TakeRecord(f, NextRecord(data).value.0, NextRecord(data).value.1).value);
    }
  }

  /** The routing info, lengthened by zeros, under the "rho" stream of the shared secret. */
  function Decrypted(c: Crypto, shared: Bytes32, info: Bytes): Bytes {
    XorAll(info + Zeros(1300), c.stream(c.hmac([0x72, 0x68, 0x6f], shared), 2600))
  }

  /** The plain text begins with a payload behind its size, the next HMAC and the info to forward. */
  predicate Begins(plain: Bytes, hop: Hop) {
    && 2 <= |hop.payload| < U64_BOUND && |hop.nextHmac| == 32 && |hop.forward| == 1300
    && WriteBigsize(|hop.payload|) + hop.payload + hop.nextHmac + hop.forward <= plain
  }

  lemma {:induction false} OpenedBegins(plain: Bytes)
    requires OpenHop(plain).Ok?
    ensures Begins(plain, OpenHop(plain).value)
  {
    hide ReadBigsize, WriteBigsize;
    BigsizeOnly(plain);
    var size, hop := ReadBigsize(plain).value, OpenHop(plain).value;
    var end := size.1 + size.0;
    assert plain == plain[..size.1] + plain[size.1..end] + plain[end..end + 32] + plain[end + 32..end + 1332] + plain[end + 1332..];
    assert hop == Hop(plain[size.1..end], plain[end..end + 32], plain[end + 32..end + 1332]);
  }

  /** A hop is read from a plain text exactly when the text begins with it. */
  lemma {:induction false} OpenHopIff(plain: Bytes, hop: Hop)
    ensures OpenHop(plain) == Ok(hop) <==> Begins(plain, hop)
  {
    hide OpenHop, WriteBigsize;
    if OpenHop(plain) == Ok(hop) {
      OpenedBegins(plain);
    }
    if Begins(plain, hop) {
      BeginningOpens(plain, hop);
    }
  }

  lemma {:induction false} BeginningOpens(plain: Bytes, hop: Hop)
    requires Begins(plain, hop)
    ensures OpenHop(plain) == Ok(hop)
  {
    hide ReadBigsize, WriteBigsize;
    var front := WriteBigsize(|hop.payload|);
    var at := |front|;
    var end := at + |hop.payload|;
    var whole := front + hop.payload + hop.nextHmac + hop.forward;
    assert plain == front + plain[at..] by {
      assert whole[..at] == front && plain[..at] == whole[..at];
    }
    BigsizeRoundTrip(|hop.payload|, plain[at..]);
    SliceOfPrefix(whole, plain, at, end);
    SliceOfPrefix(whole, plain, end, end + 32);
    SliceOfPrefix(whole, plain, end + 32, end + 1332);
    assert whole[at..end] == hop.payload && whole[end..end + 32] == hop.nextHmac && whole[end + 32..end + 1332] == hop.forward;
  }

  lemma {:induction false} SliceOfPrefix(a: Bytes, b: Bytes, i: nat, j: nat)
    requires a <= b && i <= j <= |a|
    ensures b[i..j] == a[i..j]
  {
  }

  /** What peeling such a packet yields. */
  ghost predicate Yields(c: Crypto, shared: Bytes32, ephemeral: Public, hop: Hop, f: Fields, p: PeeledOnion) {
    && f.amount == Some(p.amount) && f.cltv == Some(p.cltv) && p.scid == (if f.scid.Some? then f.scid.value else 0)
    && p.sharedSecret == shared
    && if hop.nextHmac == Zeros(32) then p.nextOnion == []
       else
         var next := c.blindPublic(ephemeral, c.blinding(ephemeral, shared));
         next.Some? && p.nextOnion == [0] + next.value + hop.forward + hop.nextHmac
  }

  /** The packet opens under the key, is authentic, and decrypts to a hop with these fields. */
  ghost predicate Opens(c: Crypto, key: Secret, onion: Bytes, associated: Bytes, p: PeeledOnion, hop: Hop, f: Fields) {
    && Openable(c, key, onion, p.sharedSecret) && Authentic(c, p.sharedSecret, onion, associated)
    && Begins(Decrypted(c, p.sharedSecret, onion[34..1334]), hop)
    && ParsePayload(hop.payload, hop.nextHmac == Zeros(32)) == Ok(f)
    && Yields(c, p.sharedSecret, c.parse(onion[1..34]).value, hop, f, p)
  }

  /** An onion is peeled exactly if it opens, is authentic and decrypts to a hop; and then to what that hop says. */
  lemma {:induction false} PeelIff(c: Crypto, key: Secret, onion: Bytes, associated: Bytes, p: PeeledOnion)
    ensures Peel(c, key, onion, associated) == Ok(p) <==> exists hop, f :: Opens(c, key, onion, associated, p, hop, f)
  {
    hide Peel, Opens;
    if Peel(c, key, onion, associated) == Ok(p) {
      var hop, f := PeeledOpens(c, key, onion, associated);
    }
    if hop, f :| Opens(c, key, onion, associated, p, hop, f) {
      OpensPeels(c, key, onion, associated, p, hop, f);
    }
  }

  lemma {:induction false} PeeledOpens(c: Crypto, key: Secret, onion: Bytes, associated: Bytes) returns (hop: Hop, f: Fields)
    requires Peel(c, key, onion, associated).Ok?
    ensures Opens(c, key, onion, associated, Peel(c, key, onion, associated).value, hop, f)
  {
    hide OpenHop, ParseRecords, XorAll, Begins, Packet;
    var shared := Peel(c, key, onion, associated).value.sharedSecret;
    var plain := Decrypted(c, shared, onion[34..1334]);
    hop := OpenHop(plain).value;
    f := ParsePayload(hop.payload, hop.nextHmac == Zeros(32)).value;
    OpenedBegins(plain);
    PacketIs();
  }

  lemma {:induction false} PacketIs()
    ensures forall e: Public, info: Bytes, hmac: Bytes :: Packet(e, info, hmac) == [0] + e + info + hmac
  {
  }

  lemma {:induction false} OpensPeels(c: Crypto, key: Secret, onion: Bytes, associated: Bytes, p: PeeledOnion, hop: Hop, f: Fields)
    requires Opens(c, key, onion, associated, p, hop, f)
    ensures Peel(c, key, onion, associated) == Ok(p)
  {
    hide OpenHop, ParseRecords, XorAll, Begins, Packet;
    BeginningOpens(Decrypted(c, p.sharedSecret, onion[34..1334]), hop);
    PacketIs();
  }

  // ---- Construction ------------------------------------------------------------------------

  /** The shared secret with the hop, and from it the ephemeral key for the hop after it, exist. */
  predicate Reaches(c: Crypto, session: Secret, hop: Public) {
    var shared := c.ecdh(session, hop);
    shared.Some? && c.blindSecret(session, c.blinding(c.publicOf(session), shared.value)).Some?
  }

  function NextSession(c: Crypto, session: Secret, hop: Public): Secret
    requires Reaches(c, session, hop)
  {
    c.blindSecret(session, c.blinding(c.publicOf(session), c.ecdh(session, hop).value)).value
  }

  /** What a hop takes of the 1300 bytes: its payload, the size of that, and an HMAC. */
  function Room(payload: Bytes): nat
    requires |payload| < U64_BOUND
  {
    |WriteBigsize(|payload|)| + |payload| + 32
  }

  /** An onion is built exactly for one or two hops that are reached and whose data fit. */
  lemma {:induction false} CreateIff(c: Crypto, session: Secret, hops: seq<(Public, Bytes)>, associated: Bytes)
    requires Lawful(c) && forall i :: 0 <= i < |hops| ==> |hops[i].1| < U64_BOUND
    ensures Create(c, session, hops, associated).Ok? <==>
      && 1 <= |hops| <= 2 && Reaches(c, session, hops[0].0)
      && (|hops| == 2 ==> Reaches(c, NextSession(c, session, hops[0].0), hops[1].0))
      && Room(hops[0].1) + (if |hops| == 2 then Room(hops[1].1) else 0) <= 1300
  {
    hide Seal, CreateTwo, Lawful, WriteBigsize;
    if |hops| == 1 {
      SealsIff(c, session, hops[0].0, hops[0].1, associated);
    } else if |hops| == 2 && Reaches(c, session, hops[0].0) && Reaches(c, NextSession(c, session, hops[0].0), hops[1].0) {
      TwoHopFitsIff(c, session, hops[0].0, hops[0].1, hops[1].0, hops[1].1, associated);
    } else if |hops| == 2 {
      TwoNeedsBoth(c, session, hops[0].0, hops[0].1, hops[1].0, hops[1].1, associated);
    }
  }

  lemma {:induction false} SealsIff(c: Crypto, session: Secret, hop: Public, payload: Bytes, associated: Bytes)
    requires |payload| < U64_BOUND && Lawful(c)
    ensures CreateOne(c, session, hop, payload, associated).Ok? <==> Reaches(c, session, hop) && Room(payload) <= 1300
  {
    hide WriteBigsize;
  }

  lemma {:induction false} TwoNeedsBoth(c: Crypto, session: Secret, hop1: Public, payload1: Bytes, hop2: Public, payload2: Bytes, associated: Bytes)
    requires Lawful(c) && |payload1| < U64_BOUND && |payload2| < U64_BOUND
    requires !(Reaches(c, session, hop1) && Reaches(c, NextSession(c, session, hop1), hop2))
    ensures CreateTwo(c, session, hop1, payload1, hop2, payload2, associated).Err?
  {
    hide Seal, SealSecond;
  }
}

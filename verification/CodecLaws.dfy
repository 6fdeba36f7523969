/** What the varint and TLV readers accept. */
module CodecLaws {
  import opened Base
  import opened Endian
  import opened Codec
  import Sphinx

  lemma {:induction false} ReadBytesBack(a: Bytes, rest: Bytes)
    ensures ReadBytes(a + rest, |a|) == Ok(Got(a, rest))
  {
  }

  lemma {:induction false} ReadUintBack(v: nat, n: nat, rest: Bytes)
    requires v < Pow256(n)
    ensures ReadUint(ToBe(v, n) + rest, n) == Ok(Got(v, rest))
  {
    hide ToBe, FromBe;
    ReadBytesBack(ToBe(v, n), rest);
    FromToBe(v, n);
  }

  lemma {:induction false} ReadUintOnly(b: Bytes, n: nat)
    requires ReadUint(b, n).Ok?
    ensures b == ToBe(ReadUint(b, n).value.value, n) + ReadUint(b, n).value.rest
  {
    hide ToBe, FromBe;
    ToFromBe(b[..n]);
    assert b == b[..n] + b[n..];
  }

  lemma {:induction false} VarintBack(v: U64, rest: Bytes)
    ensures ReadVarint(WriteVarint(v) + rest) == Ok(Got(v, rest))
  {
    hide ToBe, FromBe, Pow256;
    PowValues();
    var b := WriteVarint(v) + rest;
    if v < 0xfd {
      assert b[1..] == rest;
    } else {
      var n := if v <= 0xffff then 2 else if v <= 0xffff_ffff then 4 else 8;
      assert b[1..] == ToBe(v, n) + rest;
      ReadUintBack(v, n, rest);
    }
  }

  /** The reader accepts exactly what the writer produces, whatever follows it. */
  lemma {:induction false} VarintIff(b: Bytes, v: nat, rest: Bytes)
    ensures ReadVarint(b) == Ok(Got(v, rest)) <==> v < U64_BOUND && b == WriteVarint(v) + rest
  {
    if v < U64_BOUND {
      VarintBack(v, rest);
    }
    if ReadVarint(b) == Ok(Got(v, rest)) {
      hide ToBe, FromBe, Pow256;
      PowValues();
      assert b == [b[0]] + b[1..];
      if b[0] >= 0xfd {
        var n := if b[0] == 0xfd then 2 else if b[0] == 0xfe then 4 else 8;
        ReadUintOnly(b[1..], n);
        assert [b[0]] + (ToBe(v, n) + rest) == [b[0]] + ToBe(v, n) + rest;
      }
    }
  }

  /** The onion's own reader of sizes and the wire's accept the same inputs with the same values. */
  lemma {:induction false} BigsizeAgrees(b: Bytes)
    ensures match (ReadVarint(b), Sphinx.ReadBigsize(b))
      case (Ok(g), Ok(s)) => g.value == s.0 && s.1 <= |b| && g.rest == b[s.1..]
      case (Err(_), Err(_)) => true
      case _ => false
  {
    hide FromBe, Pow256;
    if b != [] {
      assert b[1..][..|b| - 1] == b[1..];
      if |b| >= 3 {
        assert b[1..][..2] == b[1..3] && b[1..][2..] == b[3..];
      }
      if |b| >= 5 {
        assert b[1..][..4] == b[1..5] && b[1..][4..] == b[5..];
      }
      if |b| >= 9 {
        assert b[1..][..8] == b[1..9] && b[1..][8..] == b[9..];
      }
    }
  }

  // ---- TLV streams ---------------------------------------------------------------------------

  datatype Tlv = Tlv(tag: U64, value: Bytes)

  predicate Sized(rs: seq<Tlv>) {
    forall i :: 0 <= i < |rs| ==> |rs[i].value| < U64_BOUND
  }

  function EncodeTlv(r: Tlv): Bytes
    requires |r.value| < U64_BOUND
  {
    WriteVarint(r.tag) + WriteVarint(|r.value|) + r.value
  }

  function EncodeTlvs(rs: seq<Tlv>): Bytes
    requires Sized(rs)
  {
    if rs == [] then [] else EncodeTlv(rs[0]) + EncodeTlvs(rs[1..])
  }

  /** Strictly increasing types above `prev`, none of them even and below 2^32. */
  predicate Canonical(rs: seq<Tlv>, prev: Option<nat>) {
    && (forall i :: 0 <= i < |rs| ==> rs[i].tag >= HIGH_RANGE || rs[i].tag % 2 == 1)
    && (forall i :: 0 < i < |rs| ==> rs[i - 1].tag < rs[i].tag)
    && (rs != [] && prev.Some? ==> prev.value < rs[0].tag)
  }

  lemma {:induction false} RecordBack(r: Tlv, rest: Bytes)
    requires |r.value| < U64_BOUND
    ensures ReadRecord(EncodeTlv(r) + rest) == Ok(Got((r.tag, r.value), rest))
  {
    hide WriteVarint, ReadVarint;
    var tail := WriteVarint(|r.value|) + (r.value + rest);
    assert EncodeTlv(r) + rest == WriteVarint(r.tag) + tail;
    VarintBack(r.tag, tail);
    VarintBack(|r.value|, r.value + rest);
    ReadBytesBack(r.value, rest);
  }

  lemma {:induction false} RecordOnly(b: Bytes) returns (r: Tlv)
    requires ReadRecord(b).Ok?
    ensures |r.value| < U64_BOUND && ReadRecord(b).value.value == (r.tag, r.value)
    ensures b == EncodeTlv(r) + ReadRecord(b).value.rest
  {
    hide WriteVarint, ReadVarint;
    var tag := ReadVarint(b).value;
    var len := ReadVarint(tag.rest).value;
    VarintIff(b, tag.value, tag.rest);
    VarintIff(tag.rest, len.value, len.rest);
    r := Tlv(tag.value, len.rest[..len.value]);
    var rest := len.rest[len.value..];
    assert len.rest == r.value + rest;
    assert WriteVarint(r.tag) + (WriteVarint(|r.value|) + (r.value + rest)) == EncodeTlv(r) + rest;
  }

  lemma {:induction false} EncodeTlvNotEmpty(r: Tlv)
    requires |r.value| < U64_BOUND
    ensures EncodeTlv(r) != []
  {
  }

  /** A canonical stream is accepted. */
  lemma {:induction false} CanonicalIsValid(rs: seq<Tlv>, prev: Option<nat>)
    requires Sized(rs) && Canonical(rs, prev)
    ensures ValidateFrom(EncodeTlvs(rs), prev) == Ok(())
  {
    hide EncodeTlv, ReadRecord;
    if rs != [] {
      RecordBack(rs[0], EncodeTlvs(rs[1..]));
      EncodeTlvNotEmpty(rs[0]);
      CanonicalIsValid(rs[1..], Some(rs[0].tag));
    }
  }

  /** An accepted stream is canonical: its records can be recovered. */
  lemma {:induction false} ValidIsCanonical(b: Bytes, prev: Option<nat>) returns (rs: seq<Tlv>)
    requires ValidateFrom(b, prev) == Ok(())
    ensures Sized(rs) && Canonical(rs, prev) && EncodeTlvs(rs) == b
    decreases |b|
  {
    hide EncodeTlv, ReadRecord;
    if b == [] {
      rs := [];
    } else {
      var r := RecordOnly(b);
      var tail := ValidIsCanonical(ReadRecord(b).value.rest, Some(r.tag));
      rs := [r] + tail;
      assert rs[1..] == tail;
    }
  }

  /** A stream is accepted exactly when it is a concatenation of minimal records in canonical order. */
  lemma {:induction false} TlvIff(b: Bytes)
    ensures ValidateTlv(b) == Ok(()) <==> exists rs: seq<Tlv> :: Sized(rs) && Canonical(rs, None) && EncodeTlvs(rs) == b
  {
    hide ValidateFrom, EncodeTlvs, Canonical;
    if ValidateTlv(b) == Ok(()) {
      var rs := ValidIsCanonical(b, None);
    }
    if rs: seq<Tlv> :| Sized(rs) && Canonical(rs, None) && EncodeTlvs(rs) == b {
      CanonicalIsValid(rs, None);
    }
  }
}

/** Byte codecs: integers, varints, length-delimited bodies and TLV streams (src/wire/codecs.rs). */
module Codec {
  import opened Base
  import opened Endian
  import opened State

  datatype DecodeError = Eof | Invalid
  datatype EncodeError = TooLarge(v: nat) | VarsizeTooLarge(size: nat) | InvalidOnionLength(size: nat)

  /** A value read from the front of a buffer, and the bytes left. */
  datatype Got<+T> = Got(value: T, rest: Bytes)

  type Read<+T> = Result<Got<T>, DecodeError>

  const HIGH_RANGE: nat := 0x1_0000_0000

  function ReadBytes(b: Bytes, n: nat): Read<Bytes> {
    if |b| < n then Err(Eof) else Ok(Got(b[..n], b[n..]))
  }

  function ReadUint(b: Bytes, n: nat): (r: Read<nat>)
    ensures r.Ok? ==> r.value.value < Pow256(n) && |r.value.rest| == |b| - n
  {
    var g :- ReadBytes(b, n);
    FromBeBound(g.value, n);
    Ok(Got(FromBe(g.value), g.rest))
  }

  function ReadU64Overflow(b: Bytes): (r: Read<U64>)
    ensures r.Ok? ==> r.value.value <= OVERFLOW_MAX
  {
    var g :- ReadUint(b, 8);
    if g.value > OVERFLOW_MAX then Err(Invalid) else Ok(Got(g.value, g.rest))
  }

  function Read32(b: Bytes): Read<Bytes32> {
    var g :- ReadBytes(b, 32);
    Ok(Got(g.value, g.rest))
  }

  function WriteU64Overflow(v: U64): Result<Bytes, EncodeError> {
    if v > OVERFLOW_MAX then Err(TooLarge(v)) else Ok(ToBe(v, 8))
  }

  // ---- Varints -------------------------------------------------------------------------------

  function WriteVarint(v: U64): Bytes {
    if v < 0xfd then [v]
    else if v <= 0xffff then [0xfd] + ToBe(v, 2)
    else if v <= 0xffff_ffff then [0xfe] + ToBe(v, 4)
    else [0xff] + ToBe(v, 8)
  }

  /** A longer form than the value needs is refused. */
  function ReadVarint(b: Bytes): (r: Read<nat>)
    ensures r.Ok? ==> |r.value.rest| < |b|
  {
    var prefix :- ReadBytes(b, 1);
    var tag := prefix.value[0];
    if tag == 0xff then
      var g :- ReadUint(prefix.rest, 8);
      if g.value < HIGH_RANGE then Err(Invalid) else Ok(g)
    else if tag == 0xfe then
      var g :- ReadUint(prefix.rest, 4);
      if g.value < 0x1_0000 then Err(Invalid) else Ok(g)
    else if tag == 0xfd then
      var g :- ReadUint(prefix.rest, 2);
      if g.value < 0xfd then Err(Invalid) else Ok(g)
    else Ok(Got(tag, prefix.rest))
  }

  function WriteVarsize(data: Bytes): Result<Bytes, EncodeError> {
    if |data| > 0xffff then Err(VarsizeTooLarge(|data|)) else Ok(ToBe(|data|, 2) + data)
  }

  function ReadVarsize(b: Bytes): Read<Bytes> {
    var len :- ReadUint(b, 2);
    ReadBytes(len.rest, len.value)
  }

  /** The length is a 64-bit number. */
  function WriteLengthDelimited(body: Bytes): Bytes {
    WriteVarint(|body| % U64_BOUND) + body
  }

  function ReadLengthDelimited(b: Bytes): (r: Read<Bytes>)
    ensures r.Ok? ==> |r.value.rest| < |b|
  {
    var len :- ReadVarint(b);
    ReadBytes(len.rest, len.value)
  }

  // ---- TLV streams ---------------------------------------------------------------------------

  function ReadRecord(b: Bytes): (r: Read<(nat, Bytes)>)
    ensures r.Ok? ==> |r.value.rest| < |b|
  {
    var tag :- ReadVarint(b);
    var len :- ReadVarint(tag.rest);
    var value :- ReadBytes(len.rest, len.value);
    Ok(Got((tag.value, value.value), value.rest))
  }

  /** Types strictly increase, and an even type below 2^32 is one the reader would have to know. */
  function ValidateFrom(b: Bytes, prev: Option<nat>): Result<(), DecodeError>
    decreases |b|
  {
    if b == [] then Ok(())
    else
      var r :- ReadRecord(b);
      var tag := r.value.0;
      if prev.Some? && tag <= prev.value then Err(Invalid)
      else if tag < HIGH_RANGE && tag % 2 == 0 then Err(Invalid)
      else ValidateFrom(r.rest, Some(tag))
  }

  function ValidateTlv(b: Bytes): Result<(), DecodeError> {
    ValidateFrom(b, None)
  }

  // ---- update_add_htlc -----------------------------------------------------------------------

  function EncodeHtlc(h: Htlc): Result<Bytes, EncodeError> {
    var id :- WriteU64Overflow(h.id);
    var amount :- WriteU64Overflow(h.amount);
    if |h.onion| != ONION_SIZE then Err(InvalidOnionLength(|h.onion|))
    else Ok(h.channelId + id + amount + h.paymentHash + ToBe(h.cltvExpiry, 4) + h.onion + h.tlv)
  }

  /** The whole body is consumed: what follows the onion is the TLV stream. */
  function DecodeHtlc(b: Bytes): Result<Htlc, DecodeError> {
    PowValues();
    var channelId :- Read32(b);
    var id :- ReadU64Overflow(channelId.rest);
    var amount :- ReadU64Overflow(id.rest);
    var hash :- Read32(amount.rest);
    var cltv :- ReadUint(hash.rest, 4);
    var onion :- ReadBytes(cltv.rest, ONION_SIZE);
    var _ :- ValidateTlv(onion.rest);
    Ok(Htlc(channelId.value, id.value, amount.value, hash.value, cltv.value, onion.value, onion.rest))
  }

  // ---- Readers that advance a cursor, as the source has them ---------------------------------

  class Cursor {
    var rest: Bytes

    constructor (data: Bytes)
      ensures rest == data
    {
      rest := data;
    }

    method TakeBytes(n: nat) returns (r: Result<Bytes, DecodeError>)
      modifies this
      ensures match ReadBytes(old(rest), n)
        case Ok(g) => r == Ok(g.value) && rest == g.rest
        case Err(e) => r == Err(e) && rest == old(rest)
    {
      if |rest| < n {
        return Err(Eof);
      }
      r := Ok(rest[..n]);
      rest := rest[n..];
    }

    method TakeUint(n: nat) returns (r: Result<nat, DecodeError>)
      modifies this
      ensures match ReadUint(old(rest), n)
        case Ok(g) => r == Ok(g.value) && rest == g.rest
        case Err(e) => r == Err(e) && rest == old(rest)
    {
      var bytes := TakeBytes(n);
      if bytes.Err? {
        return Err(bytes.error);
      }
      r := Ok(FromBe(bytes.value));
    }

    /** On an error the bytes read so far are gone, as in the source. */
    method TakeVarint() returns (r: Result<nat, DecodeError>)
      modifies this
      ensures match ReadVarint(old(rest))
        case Ok(g) => r == Ok(g.value) && rest == g.rest
        case Err(e) => r == Err(e) && |rest| <= |old(rest)|
    {
      hide FromBe, Pow256;
      var prefix := TakeUint(1);
      if prefix.Err? {
        return prefix;
      }
      FromBeOne(old(rest));
      if prefix.value == 0xff {
        r := TakeUint(8);
        if r.Ok? && r.value < HIGH_RANGE {
          r := Err(Invalid);
        }
      } else if prefix.value == 0xfe {
        r := TakeUint(4);
        if r.Ok? && r.value < 0x1_0000 {
          r := Err(Invalid);
        }
      } else if prefix.value == 0xfd {
        r := TakeUint(2);
        if r.Ok? && r.value < 0xfd {
          r := Err(Invalid);
        }
      } else {
        r := prefix;
      }
    }
  }

  lemma {:induction false} FromBeOne(b: Bytes)
    requires b != []
    ensures FromBe(b[..1]) == b[0]
  {
    assert b[..1][..0] == [];
  }

  method ValidateTlvStream(data: Bytes) returns (r: Result<(), DecodeError>)
    ensures r == ValidateTlv(data)
  {
    hide ReadVarint;
    if data == [] {
      return Ok(());
    }
    var buf := new Cursor(data);
    var prevTag: Option<nat> := None;
    while buf.rest != []
      invariant fresh(buf)
      invariant ValidateFrom(data, None) == ValidateFrom(buf.rest, prevTag)
      decreases |buf.rest|
    {
      var tag := buf.TakeVarint();
      if tag.Err? {
        return Err(tag.error);
      }
      var len := buf.TakeVarint();
      if len.Err? {
        return Err(len.error);
      }
      if |buf.rest| < len.value {
        return Err(Eof);
      }
      var value := buf.TakeBytes(len.value);
      if prevTag.Some? && tag.value <= prevTag.value {
        return Err(Invalid);
      }
      if tag.value < HIGH_RANGE && tag.value % 2 == 0 {
        return Err(Invalid);
      }
      prevTag := Some(tag.value);
    }
    r := Ok(());
  }
}

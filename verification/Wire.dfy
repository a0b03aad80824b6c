/**
 * The peer protocol's messages and their binary encoding.
 *
 * The server encodes `Response{Value: bytes}` with `proto.Marshal` and the
 * client decodes it with `proto.Unmarshal`. Those library calls are
 * represented by a `Codec` value handed to the operations that use them;
 * `ProtoCodec` is one concrete codec, the canonical proto3 wire form of a
 * message whose only field is `bytes value = 1`, with its round trip proved.
 */
module Wire {
  import opened Wrappers

  newtype byte = x: int | 0 <= x < 256

  type Bytes = seq<byte>

  /** What a client asks a peer for: a key within a named group. */
  datatype Request = Request(group: string, key: string)

  /** What a peer answers: the raw bytes of the cached value. */
  datatype Response = Response(value: Bytes)

  /** A message encoder and decoder; each may fail with an error text. */
  datatype Codec = Codec(
    marshal: Response -> Result<Bytes, string>,
    unmarshal: Bytes -> Result<Response, string>)

  /** Decoding gives back `r` whenever encoding `r` succeeded. */
  ghost predicate RoundTripsOn(c: Codec, r: Response)
  {
    c.marshal(r).Success? ==> c.unmarshal(c.marshal(r).value) == Success(r)
  }

  // ---------------------------------------------------------------------
  // The proto3 wire form of the one-field response message.
  // ---------------------------------------------------------------------

  /** Key byte of field 1 with wire type 2 (length-delimited): (1 << 3) | 2. */
  const ValueFieldKey: byte := 0x0A

  /** Base-128 varint, least significant group first, high bit = "more follows". */
  function EncodeVarint(n: nat): (r: Bytes)
    ensures 1 <= |r|
    ensures r[|r| - 1] < 128
    ensures forall i :: 0 <= i < |r| - 1 ==> 128 <= r[i]
    decreases n
  {
    if n < 128 then [n as byte]
    else
      var low: byte := (n % 128 + 128) as byte;
      var rest := EncodeVarint(n / 128);
      assert forall i :: 1 <= i < |rest| + 1 ==> ([low] + rest)[i] == rest[i - 1];
      [low] + rest
  }

  /**
   * Reads one varint from the front of `b`: its value and the number of
   * bytes it took, or `None` when `b` ends before the last byte.
   */
  function DecodeVarint(b: Bytes): (r: Option<(nat, nat)>)
    ensures r.Some? ==> 1 <= r.value.1 <= |b|
    ensures r.None? <==> forall i :: 0 <= i < |b| ==> 128 <= b[i]
  {
    if |b| == 0 then None
    else if b[0] < 128 then Some((b[0] as nat, 1))
    else
      match DecodeVarint(b[1..])
      case None => None
      case Some((v, k)) => Some(((b[0] - 128) as nat + 128 * v, k + 1))
  }

  /** A varint reads back as the number it encodes, whatever follows it. */
  lemma {:induction false} VarintRoundTrip(n: nat, rest: Bytes)
    ensures DecodeVarint(EncodeVarint(n) + rest) == Some((n, |EncodeVarint(n)|))
    decreases n
  {
    var b := EncodeVarint(n) + rest;
    if n >= 128 {
      assert b[1..] == EncodeVarint(n / 128) + rest;
      VarintRoundTrip(n / 128, rest);
    }
  }

  /**
   * `proto.Marshal(&Response{Value: v})`: proto3 leaves out a field that
   * holds its default, so an empty value encodes as no bytes at all;
   * otherwise key byte, length varint, then the value itself.
   */
  function Marshal(r: Response): (b: Bytes)
    ensures |r.value| == 0 <==> |b| == 0
    ensures |b| > 0 ==> |r.value| < |b| && b[0] == ValueFieldKey && b[|b| - |r.value|..] == r.value
  {
    if |r.value| == 0 then []
    else [ValueFieldKey] + EncodeVarint(|r.value|) + r.value
  }

  /**
   * Decodes no bytes, or one length-delimited field 1 whose length covers
   * exactly the rest. This takes in everything `Marshal` produces, and also
   * an empty field 1 and a length varint written with extra bytes.
   */
  function Unmarshal(b: Bytes): (r: Result<Response, string>)
    ensures r.Success? ==> |r.value.value| <= |b|
    ensures |b| == 0 ==> r == Success(Response([]))
    ensures 0 < |b| && b[0] != ValueFieldKey ==> r.Failure?
  {
    if |b| == 0 then Success(Response([]))
    else if b[0] != ValueFieldKey then Failure("proto: unexpected field")
    else
      match DecodeVarint(b[1..])
      case None => Failure("proto: truncated length")
      case Some((len, k)) =>
        if 1 + k + len == |b| then Success(Response(b[1 + k..]))
        else Failure("proto: length does not match body")
  }

  /** Every response survives `Marshal` then `Unmarshal` unchanged. */
  lemma UnmarshalMarshal(r: Response)
    ensures Unmarshal(Marshal(r)) == Success(r)
  {
    var v := r.value;
    if |v| > 0 {
      var b := Marshal(r);
      assert b[1..] == EncodeVarint(|v|) + v;
      VarintRoundTrip(|v|, v);
    }
  }

  /** The protobuf codec: encoding never fails for this message. */
  function ProtoCodec(): (c: Codec)
    ensures forall r :: c.marshal(r).Success? && RoundTripsOn(c, r)
  {
    forall r ensures Unmarshal(Marshal(r)) == Success(r) {
      UnmarshalMarshal(r);
    }
    Codec(r => Success(Marshal(r)), Unmarshal)
  }
}

/** Length-prefixed framing of serialized envelopes, for transports that do not keep message boundaries. */
module Codec {
  import opened Outcomes

  newtype Byte = b: int | 0 <= b < 256

  datatype CodecError = Serialization | InvalidFrame

  /** The serializer: `decode` undoes `encode` wherever `encode` succeeds. */
  datatype Serde<!E> = Serde(encode: E -> Option<seq<Byte>>, decode: seq<Byte> -> Option<E>)

  ghost predicate Lawful<E(!new)>(s: Serde<E>) {
    forall e: E :: s.encode(e).Some? ==> s.decode(s.encode(e).value) == Some(e)
  }

  const U32_LIMIT := 0x1_0000_0000

  function ToLe(n: nat): seq<Byte>
    requires n < U32_LIMIT
  {
    [(n % 256) as Byte, (n / 256 % 256) as Byte, (n / 65536 % 256) as Byte, (n / 16777216) as Byte]
  }

  function FromLe(b: seq<Byte>): nat
    requires |b| == 4
  {
    b[0] as nat + 256 * (b[1] as nat) + 65536 * (b[2] as nat) + 16777216 * (b[3] as nat)
  }

  function EncodeFramed<E>(s: Serde<E>, e: E): Result<seq<Byte>, CodecError> {
    match s.encode(e)
    case None => Err(Serialization)
    case Some(payload) => if |payload| >= U32_LIMIT then Err(InvalidFrame) else Ok(ToLe(|payload|) + payload)
  }

  /** The frame is built by appending to a buffer. */
  method BuildFrame<E>(s: Serde<E>, e: E) returns (r: Result<seq<Byte>, CodecError>)
    ensures r == EncodeFramed(s, e)
  {
    var payload := s.encode(e);
    if payload.None? { return Err(Serialization); }
    if |payload.value| >= U32_LIMIT { return Err(InvalidFrame); }
    var frame: seq<Byte> := [];
    frame := frame + ToLe(|payload.value|);
    frame := frame + payload.value;
    assert [] + ToLe(|payload.value|) == ToLe(|payload.value|);
    r := Ok(frame);
  }

  /** The first envelope in a buffer, and how many bytes it took. */
  function DecodeFramed<E>(s: Serde<E>, bytes: seq<Byte>): Result<(E, nat), CodecError> {
    if |bytes| < 4 then Err(InvalidFrame)
    else
      var total := 4 + FromLe(bytes[..4]);
      if |bytes| < total then Err(InvalidFrame)
      else match s.decode(bytes[4..total])
        case None => Err(Serialization)
        case Some(e) => Ok((e, total))
  }

  // ---------- The length prefix ----------

  lemma LeRoundTrip(n: nat)
    requires n < U32_LIMIT
    ensures |ToLe(n)| == 4 && FromLe(ToLe(n)) == n
  {
    assert n == n % 256 + 256 * (n / 256);
    assert n / 256 == n / 256 % 256 + 256 * (n / 65536);
    assert n / 65536 == n / 65536 % 256 + 256 * (n / 16777216);
  }

  lemma LeSurjective(b: seq<Byte>)
    requires |b| == 4
    ensures FromLe(b) < U32_LIMIT && ToLe(FromLe(b)) == b
  {
    var n := FromLe(b);
    assert n / 256 == b[1] as nat + 256 * (b[2] as nat) + 65536 * (b[3] as nat);
    assert n / 65536 == b[2] as nat + 256 * (b[3] as nat);
    assert n / 16777216 == b[3] as nat;
  }

  function Pow256(i: nat): (r: nat)
    ensures r > 0
  { if i == 0 then 1 else 256 * Pow256(i - 1) }

  /** Least significant byte first. */
  lemma LeIsLittleEndian(n: nat, i: nat)
    requires n < U32_LIMIT && i < 4
    ensures |ToLe(n)| == 4 && ToLe(n)[i] as nat == n / Pow256(i) % 256
  {
    assert Pow256(1) == 256 && Pow256(2) == 65536 && Pow256(3) == 16777216;
  }

  // ---------- One frame ----------

  /** The serializer can encode it, and a 32-bit prefix can tell its length. */
  predicate Framable<E>(s: Serde<E>, e: E) { s.encode(e).Some? && |s.encode(e).value| < 0x1_0000_0000 }

  /** Exactly that can be framed: as the length and the payload. Otherwise the serializer or the length is at fault. */
  lemma EncodesIff<E>(s: Serde<E>, e: E)
    ensures var r := EncodeFramed(s, e);
      && (r.Ok? <==> Framable(s, e))
      && (r == Err(Serialization) <==> s.encode(e).None?)
      && (r == Err(InvalidFrame) <==> s.encode(e).Some? && |s.encode(e).value| >= 0x1_0000_0000)
      && (r.Ok? ==> r.value[4..] == s.encode(e).value && FromLe(r.value[..4]) == |s.encode(e).value|)
  {
    if Framable(s, e) {
      var payload := s.encode(e).value;
      LeRoundTrip(|payload|);
      assert (ToLe(|payload|) + payload)[..4] == ToLe(|payload|);
    }
  }

  /** The buffer holds a length and as many bytes. */
  predicate Complete(bytes: seq<Byte>) { |bytes| >= 4 && |bytes| >= 4 + FromLe(bytes[..4]) }

  /** Decoding fails for want of bytes, or because the payload does not decode; never otherwise. */
  lemma DecodesIff<E>(s: Serde<E>, bytes: seq<Byte>)
    ensures var r := DecodeFramed(s, bytes);
      && (r == Err(InvalidFrame) <==> !Complete(bytes))
      && (r == Err(Serialization) <==> Complete(bytes) && s.decode(bytes[4..4 + FromLe(bytes[..4])]).None?)
      && (r.Ok? <==> Complete(bytes) && s.decode(bytes[4..4 + FromLe(bytes[..4])]).Some?)
      && (r.Ok? ==>
            r.value.1 == 4 + FromLe(bytes[..4]) && s.decode(bytes[4..r.value.1]) == Some(r.value.0))
  {
  }

  /** A frame decodes to its envelope whatever follows it in the buffer. */
  lemma FrameRoundTrip<E(!new)>(s: Serde<E>, e: E, rest: seq<Byte>)
    requires Lawful(s) && Framable(s, e)
    ensures EncodeFramed(s, e).Ok?
    ensures DecodeFramed(s, EncodeFramed(s, e).value + rest) == Ok((e, |EncodeFramed(s, e).value|))
  {
    var payload := s.encode(e).value;
    var bytes := ToLe(|payload|) + payload + rest;
    LeRoundTrip(|payload|);
    assert bytes[..4] == ToLe(|payload|);
    assert bytes[4..4 + |payload|] == payload;
  }

  /** No strict prefix of a frame is taken for an envelope. */
  lemma PrefixRejected<E>(s: Serde<E>, e: E, k: nat)
    requires Framable(s, e) && k < 4 + |s.encode(e).value|
    ensures EncodeFramed(s, e).Ok? && k < |EncodeFramed(s, e).value|
    ensures DecodeFramed(s, EncodeFramed(s, e).value[..k]) == Err(InvalidFrame)
  {
    var payload := s.encode(e).value;
    LeRoundTrip(|payload|);
    if k >= 4 {
      assert (ToLe(|payload|) + payload)[..k][..4] == ToLe(|payload|);
    }
  }

  /** What is decoded depends only on the bytes consumed, and those are a length prefix and a payload of that length. */
  lemma DecodeIsLocal<E>(s: Serde<E>, bytes: seq<Byte>, rest: seq<Byte>)
    requires DecodeFramed(s, bytes).Ok?
    ensures var (e, n) := DecodeFramed(s, bytes).value;
      && 4 <= n <= |bytes|
      && bytes[..n] == ToLe(n - 4) + bytes[4..n] && s.decode(bytes[4..n]) == Some(e)
      && DecodeFramed(s, bytes[..n] + rest) == Ok((e, n))
  {
    var (e, n) := DecodeFramed(s, bytes).value;
    LeSurjective(bytes[..4]);
    assert bytes[..n] == bytes[..4] + bytes[4..n];
    assert (bytes[..n] + rest)[..4] == bytes[..4];
    assert (bytes[..n] + rest)[4..n] == bytes[4..n];
  }

  // ---------- A stream of frames ----------

  /** Decode until the buffer is used up, or fail where it cannot be. */
  function DecodeAll<E>(s: Serde<E>, bytes: seq<Byte>): Result<seq<(E, nat)>, CodecError>
    decreases |bytes|
  {
    if bytes == [] then Ok([])
    else match DecodeFramed(s, bytes)
      case Err(error) => Err(error)
      case Ok((e, n)) =>
        match DecodeAll(s, bytes[n..])
        case Err(error) => Err(error)
        case Ok(more) => Ok([(e, n)] + more)
  }

  function Stream<E>(s: Serde<E>, es: seq<E>): seq<Byte>
    requires forall e :: e in es ==> Framable(s, e)
  {
    if es == [] then []
    else
      assert Framable(s, es[0]);
      EncodeFramed(s, es[0]).value + Stream(s, es[1..])
  }

  function Envelopes<E>(decoded: seq<(E, nat)>): seq<E> {
    if decoded == [] then [] else [decoded[0].0] + Envelopes(decoded[1..])
  }

  function Consumed<E>(decoded: seq<(E, nat)>): nat {
    if decoded == [] then 0 else decoded[0].1 + Consumed(decoded[1..])
  }

  /** Decoding the concatenation of any list of frames gives back the list, and uses the buffer up exactly. */
  lemma {:induction false} StreamRoundTrip<E(!new)>(s: Serde<E>, es: seq<E>)
    requires Lawful(s) && forall e :: e in es ==> Framable(s, e)
    ensures var r := DecodeAll(s, Stream(s, es));
      r.Ok? && Envelopes(r.value) == es && Consumed(r.value) == |Stream(s, es)|
  {
    if es == [] {
    } else {
      assert Framable(s, es[0]);
      var (frame, rest) := (EncodeFramed(s, es[0]).value, Stream(s, es[1..]));
      FrameRoundTrip(s, es[0], rest);
      assert (frame + rest)[|frame|..] == rest;
      StreamRoundTrip(s, es[1..]);
      var more := DecodeAll(s, rest).value;
      assert DecodeAll(s, Stream(s, es)).value == [(es[0], |frame|)] + more;
      assert ([(es[0], |frame|)] + more)[1..] == more;
    }
  }

  /** Whatever buffer decodes to the end, the consumed lengths add up to its own. */
  lemma {:induction false} ConsumesAll<E>(s: Serde<E>, bytes: seq<Byte>)
    requires DecodeAll(s, bytes).Ok?
    ensures Consumed(DecodeAll(s, bytes).value) == |bytes|
    decreases |bytes|
  {
    if bytes == [] {
    } else {
      var (e, n) := DecodeFramed(s, bytes).value;
      ConsumesAll(s, bytes[n..]);
      var more := DecodeAll(s, bytes[n..]).value;
      assert ([(e, n)] + more)[1..] == more;
    }
  }
}

/**
 * Length-prefixed control messages: crates/arp-common/src/protocol/codec.rs. The JSON library enters as a
 * pair of functions; only their inverse law is ever used.
 */
module MessageCodec {
  import opened Bytes

  const MAX_MESSAGE_SIZE: nat := 8 * 1024 * 1024

  /** serde_json and the message type byte, for messages of type M. */
  datatype Json<!M> = Json(toVec: M -> Option<seq<byte>>, fromSlice: seq<byte> -> Option<M>, typeByte: M -> byte)

  ghost predicate Lawful<M(!new)>(j: Json<M>) {
    forall m :: j.toVec(m).Some? ==> j.fromSlice(j.toVec(m).value) == Some(m)
  }

  datatype Encoding = Encoded(bytes: seq<byte>) | SerializeError | TooLarge

  datatype Decoding<+M> =
    | NeedMore
    | Item(msg: M, rest: seq<byte>)
    | LengthError
    | JsonError(rest: seq<byte>)

  function Encode<M>(j: Json<M>, m: M): (e: Encoding)
  {
    match j.toVec(m)
    case None => SerializeError
    case Some(json) =>
      if |json| > MAX_MESSAGE_SIZE then TooLarge
      else Encoded([j.typeByte(m)] + Be(|json|, 8) + json)
  }

  function Decode<M>(j: Json<M>, src: seq<byte>): (d: Decoding<M>)
  {
    if |src| < 9 then NeedMore
    else
      var len := FromBe(src[1..9]);
      if len > MAX_MESSAGE_SIZE then LengthError
      else if |src| < 9 + len then NeedMore
      else
        match j.fromSlice(src[9..9 + len])
        case Some(m) => Item(m, src[9 + len..])
        case None => JsonError(src[9 + len..])
  }

  /** The growable buffer the codec works on. */
  class BytesMut {
    var data: seq<byte>

    constructor (data: seq<byte>)
      ensures this.data == data
    {
      this.data := data;
    }

    method Put(bytes: seq<byte>)
      modifies this
      ensures data == old(data) + bytes
    {
      data := data + bytes;
    }

    method SplitTo(n: nat) returns (front: seq<byte>)
      requires n <= |data|
      modifies this
      ensures front == old(data)[..n] && data == old(data)[n..]
    {
      front, data := data[..n], data[n..];
    }
  }

  /** Appends one message; on error nothing is written. */
  method EncodeInto<M>(j: Json<M>, m: M, dst: BytesMut) returns (ok: bool)
    modifies dst
    ensures ok <==> Encode(j, m).Encoded?
    ensures dst.data == old(dst.data) + if ok then Encode(j, m).bytes else []
  {
    var json := j.toVec(m);
    if json.None? || |json.value| > MAX_MESSAGE_SIZE { return false; }
    Appended(dst.data, [j.typeByte(m)], Be(|json.value|, 8), json.value);
    dst.Put([j.typeByte(m)]);
    dst.Put(Be(|json.value|, 8));
    dst.Put(json.value);
    ok := true;
  }

  lemma Appended(was: seq<byte>, a: seq<byte>, b: seq<byte>, c: seq<byte>)
    ensures was + a + b + c == was + (a + b + c)
  {
  }

  /** Takes one message off the front; an incomplete message or a length error leaves the buffer as it was. */
  method DecodeFrom<M>(j: Json<M>, src: BytesMut) returns (d: Decoding<M>)
    modifies src
    ensures d == Decode(j, old(src.data))
    ensures d.NeedMore? || d.LengthError? ==> src.data == old(src.data)
    ensures d.Item? || d.JsonError? ==> src.data == d.rest
  {
    if |src.data| < 9 { return NeedMore; }
    var len := FromBe(src.data[1..9]);
    if len > MAX_MESSAGE_SIZE { return LengthError; }
    if |src.data| < 9 + len { return NeedMore; }
    ghost var was := src.data;
    var _ := src.SplitTo(9);
    var json := src.SplitTo(len);
    assert json == was[9..9 + len] && src.data == was[9 + len..];
    d := match j.fromSlice(json) case Some(m) => Item(m, src.data) case None => JsonError(src.data);
  }

  /** Once a decode has an outcome, later bytes only extend what is left over. */
  lemma DecodeExtend<M>(j: Json<M>, src: seq<byte>, more: seq<byte>)
    requires !Decode(j, src).NeedMore?
    ensures Decode(j, src + more) == match Decode(j, src)
                                     case Item(m, rest) => Item(m, rest + more)
                                     case JsonError(rest) => JsonError(rest + more)
                                     case d => d
  {
    var s := src + more;
    assert s[1..9] == src[1..9];
    var len := FromBe(src[1..9]);
    if len <= MAX_MESSAGE_SIZE {
      assert s[9..9 + len] == src[9..9 + len];
      assert s[9 + len..] == src[9 + len..] + more;
    }
  }

  /** A written message is read back whole, whatever follows it. */
  lemma DecodeEncode<M(!new)>(j: Json<M>, m: M, rest: seq<byte>)
    requires Lawful(j) && Encode(j, m).Encoded?
    ensures Decode(j, Encode(j, m).bytes + rest) == Item(m, rest)
  {
    var json := j.toVec(m).value;
    var len, head := Be(|json|, 8), [j.typeByte(m)];
    var s := head + len + json + rest;
    assert s[1..9] == len;
    FromBeBe(|json|, 8);
    Widths();
    assert s[9..9 + |json|] == json && s[9 + |json|..] == rest;
  }

  /** Until the last byte of a message has arrived the decoder asks for more. */
  lemma DecodePartial<M(!new)>(j: Json<M>, m: M, k: nat)
    requires Lawful(j) && Encode(j, m).Encoded? && k < |Encode(j, m).bytes|
    ensures Decode(j, Encode(j, m).bytes[..k]).NeedMore?
  {
    var bytes := Encode(j, m).bytes;
    DecodeEncode(j, m, []);
    assert bytes + [] == bytes;
    if k >= 9 {
      assert bytes[..k][1..9] == bytes[1..9];
    }
  }
}

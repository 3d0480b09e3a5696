/** The asynchronous reader and writer the codecs use, as byte buffers changed in place. */
module ByteIo {
  import opened Bytes

  /** The first `room` octets of `data`, or all of it. */
  function Cut(data: seq<byte>, room: nat): (s: seq<byte>)
    ensures s <= data && |s| == if |data| <= room then |data| else room
  {
    if |data| <= room then data else data[..room]
  }

  /** A field preceded by its length. */
  function WriteField(data: seq<byte>, width: nat): seq<byte> {
    Be(|data|, width) + data
  }

  /** Writing `a` then, if it fitted, `b` is writing `a + b`. */
  lemma CutConcat(a: seq<byte>, b: seq<byte>, room: nat)
    ensures Cut(a + b, room) == if |a| <= room then a + Cut(b, room - |a|) else Cut(a, room)
  {
  }

  /** The same with what was on the connection before. */
  lemma TwoParts(was: seq<byte>, a: seq<byte>, b: seq<byte>, room: nat)
    ensures |a| <= room ==> was + Cut(a, room) + Cut(b, room - |a|) == was + Cut(a + b, room)
    ensures |a| > room ==> was + Cut(a, room) == was + Cut(a + b, room)
  {
    CutConcat(a, b, room);
  }

  /**
   * A writer whose connection carries at most `room` more octets: a write that does not fit
   * leaves a prefix of its bytes on the connection and fails.
   */
  class ByteSink {
    var bytes: seq<byte>
    var room: nat

    constructor (room: nat)
      ensures bytes == [] && this.room == room
    {
      bytes, this.room := [], room;
    }

    method WriteAll(data: seq<byte>) returns (ok: bool)
      modifies this
      ensures ok <==> |data| <= old(room)
      ensures bytes == old(bytes) + Cut(data, old(room))
      ensures room == old(room) - |Cut(data, old(room))|
    {
      ok := |data| <= room;
      var data' := Cut(data, room);
      bytes, room := bytes + data', room - |data'|;
    }

    method WriteInt(n: nat, width: nat) returns (ok: bool)
      modifies this
      ensures ok <==> width <= old(room)
      ensures bytes == old(bytes) + Cut(Be(n, width), old(room))
      ensures room == old(room) - |Cut(Be(n, width), old(room))|
    {
      ok := WriteAll(Be(n, width));
    }

    method PutField(data: seq<byte>, width: nat) returns (ok: bool)
      modifies this
      ensures ok <==> |WriteField(data, width)| <= old(room)
      ensures bytes == old(bytes) + Cut(WriteField(data, width), old(room))
      ensures ok ==> room == old(room) - |WriteField(data, width)|
    {
      TwoParts(bytes, Be(|data|, width), data, room);
      ok := WriteInt(|data|, width);
      if ok { ok := WriteAll(data); }
    }
  }

  /** A reader over the bytes that will still arrive before the end of the stream. */
  class ByteSource {
    var rest: seq<byte>

    constructor (rest: seq<byte>)
      ensures this.rest == rest
    {
      this.rest := rest;
    }

    method ReadExact(n: nat) returns (data: Option<seq<byte>>)
      modifies this
      ensures data == if n <= |old(rest)| then Some(old(rest)[..n]) else None
      ensures data.Some? ==> rest == old(rest)[n..]
    {
      if n <= |rest| {
        data, rest := Some(rest[..n]), rest[n..];
      } else {
        data, rest := None, [];
      }
    }

    method ReadInt(width: nat) returns (n: Option<nat>)
      modifies this
      ensures n == if width <= |old(rest)| then Some(FromBe(old(rest)[..width])) else None
      ensures n.Some? ==> rest == old(rest)[width..]
    {
      var data := ReadExact(width);
      n := match data case Some(d) => Some(FromBe(d)) case None => None;
    }
  }
}

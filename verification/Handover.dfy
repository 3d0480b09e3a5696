/**
 * From framed messages to a raw stream: `MessageTransport` of crates/arp-common/src/transport/mod.rs over a
 * connection that delivers its bytes in arbitrary chunks, and `PrefixedStream` of
 * crates/arp-common/src/transport/prefixed.rs, which replays what the framed reader had read ahead.
 */
module Handover {
  import opened Bytes
  import opened MessageCodec

  // ----- framed side -----

  /** Read-ahead buffer and the chunks that the connection will still deliver before it closes. */
  datatype Framed = Framed(buf: seq<byte>, chunks: seq<seq<byte>>)

  datatype Received<+M> = Message(msg: M) | Closed | Truncated | Invalid

  function Total(f: Framed): seq<byte> {
    f.buf + Flatten(f.chunks)
  }

  /** One `recv`: decode, or read another chunk and try again. */
  function Recv<M>(j: Json<M>, f: Framed): (r: (Received<M>, Framed))
    decreases |f.chunks|
  {
    match Decode(j, f.buf)
    case Item(m, rest) => (Message(m), f.(buf := rest))
    case LengthError => (Invalid, f)
    case JsonError(rest) => (Invalid, f.(buf := rest))
    case NeedMore =>
      if f.chunks != [] then Recv(j, Framed(f.buf + f.chunks[0], f.chunks[1..]))
      else (if f.buf == [] then Closed else Truncated, f)
  }

  /** The outcome of `recv` and the bytes left afterwards depend on the bytes of the connection, not on its chunks. */
  lemma {:induction false} ChunkingIrrelevant<M>(j: Json<M>, f: Framed)
    ensures var whole := Framed(Total(f), []);
            && Recv(j, f).0 == Recv(j, whole).0
            && Total(Recv(j, f).1) == Total(Recv(j, whole).1)
    decreases |f.chunks|
  {
    if Decode(j, f.buf).NeedMore? {
      if f.chunks == [] {
        assert Total(f) == f.buf;
      } else {
        var g := Framed(f.buf + f.chunks[0], f.chunks[1..]);
        assert Total(g) == Total(f);
        ChunkingIrrelevant(j, g);
      }
    } else {
      DecodeExtend(j, f.buf, Flatten(f.chunks));
    }
  }

  lemma RecvMessage<M(!new)>(j: Json<M>, f: Framed, m: M, rest: seq<byte>)
    requires Lawful(j) && Encode(j, m).Encoded? && Total(f) == Encode(j, m).bytes + rest
    ensures Recv(j, f).0 == Message(m) && Total(Recv(j, f).1) == rest
  {
    ChunkingIrrelevant(j, f);
    DecodeEncode(j, m, rest);
    assert Recv(j, Framed(Total(f), [])) == (Message(m), Framed(rest, []));
  }

  /** The encodings of a list of messages, one after the other. */
  function EncodeAll<M>(j: Json<M>, ms: seq<M>): (s: seq<byte>)
    requires AllEncode(j, ms)
  {
    if ms == [] then [] else Encode(j, ms[0]).bytes + EncodeAll(j, ms[1..])
  }

  predicate AllEncode<M>(j: Json<M>, ms: seq<M>) {
    forall i :: 0 <= i < |ms| ==> Encode(j, ms[i]).Encoded?
  }

  /** `count` successive messages, or None as soon as a `recv` yields none. */
  function RecvMany<M>(j: Json<M>, f: Framed, count: nat): (r: Option<(seq<M>, Framed)>)
    decreases count
  {
    if count == 0 then Some(([], f))
    else
      match Recv(j, f)
      case (Message(m), g) =>
        (match RecvMany(j, g, count - 1)
         case Some((ms, h)) => Some(([m] + ms, h))
         case None => None)
      case _ => None
  }

  /** Every chunking of the encodings followed by raw bytes yields exactly the messages and leaves exactly the raw bytes. */
  lemma {:induction false} RecvAll<M(!new)>(j: Json<M>, f: Framed, ms: seq<M>, raw: seq<byte>)
    requires Lawful(j) && AllEncode(j, ms) && Total(f) == EncodeAll(j, ms) + raw
    ensures RecvMany(j, f, |ms|).Some?
    ensures RecvMany(j, f, |ms|).value.0 == ms && Total(RecvMany(j, f, |ms|).value.1) == raw
    decreases |ms|
  {
    if ms != [] {
      var rest := EncodeAll(j, ms[1..]) + raw;
      assert Total(f) == Encode(j, ms[0]).bytes + rest;
      RecvMessage(j, f, ms[0], rest);
      RecvAll(j, Recv(j, f).1, ms[1..], raw);
      assert [ms[0]] + ms[1..] == ms;
    }
  }

  /** The framed transport as the object that `recv` updates. */
  class MessageTransport {
    var readBuf: BytesMut
    var chunks: seq<seq<byte>>

    constructor (chunks: seq<seq<byte>>)
      ensures fresh(readBuf) && View() == Framed([], chunks)
    {
      readBuf := new BytesMut([]);
      this.chunks := chunks;
    }

    ghost function View(): Framed
      reads this, readBuf
    {
      Framed(readBuf.data, chunks)
    }

    method RecvNext<M>(j: Json<M>) returns (r: Received<M>)
      modifies this, readBuf
      ensures readBuf == old(readBuf)
      ensures (r, View()) == Recv(j, old(View()))
    {
      ghost var start := View();
      while true
        invariant readBuf == old(readBuf)
        invariant Recv(j, View()) == Recv(j, start)
        decreases |chunks|
      {
        var d := DecodeFrom(j, readBuf);
        match d {
          case Item(m, _) => return Message(m);
          case LengthError => return Invalid;
          case JsonError(_) => return Invalid;
          case NeedMore =>
            if chunks == [] {
              return if readBuf.data == [] then Closed else Truncated;
            }
            readBuf.Put(chunks[0]);
            chunks := chunks[1..];
        }
      }
    }

    /** Takes the transport apart into its connection and the bytes already read from it. */
    method IntoInnerWithReadBuf() returns (io: seq<seq<byte>>, prefix: seq<byte>)
      ensures prefix + Flatten(io) == Total(View())
      ensures io == chunks && prefix == readBuf.data
    {
      io, prefix := chunks, readBuf.data;
    }

    /** Takes only the connection; what was read ahead is dropped. */
    method IntoInner() returns (io: seq<seq<byte>>)
      ensures readBuf.data + Flatten(io) == Total(View())
    {
      io := chunks;
    }
  }

  // ----- raw side -----

  /** A connection with bytes to be replayed first. */
  datatype Prefixed = Prefixed(prefix: seq<byte>, pos: nat, inner: seq<seq<byte>>)

  predicate Valid(p: Prefixed) {
    p.pos <= |p.prefix| && NoEmptyChunk(p.inner)
  }

  /** A read of zero bytes means end of stream, so a connection never delivers an empty chunk. */
  predicate NoEmptyChunk(chunks: seq<seq<byte>>) {
    forall i :: 0 <= i < |chunks| ==> chunks[i] != []
  }

  function Left(p: Prefixed): seq<byte>
    requires p.pos <= |p.prefix|
  {
    p.prefix[p.pos..] + Flatten(p.inner)
  }

  function InnerRead(chunks: seq<seq<byte>>, cap: nat): (r: (seq<byte>, seq<seq<byte>>))
  {
    if chunks == [] then ([], [])
    else if |chunks[0]| <= cap then (chunks[0], chunks[1..])
    else (chunks[0][..cap], [chunks[0][cap..]] + chunks[1..])
  }

  /** `poll_read` into a buffer with `cap` free octets. */
  function PollRead(p: Prefixed, cap: nat): (r: (seq<byte>, Prefixed))
    requires p.pos <= |p.prefix|
  {
    if p.pos < |p.prefix| && cap > 0 then
      var n := if |p.prefix| - p.pos <= cap then |p.prefix| - p.pos else cap;
      (p.prefix[p.pos..p.pos + n], p.(pos := p.pos + n))
    else
      var (out, inner) := InnerRead(p.inner, cap);
      (out, p.(inner := inner))
  }

  lemma InnerReadConserves(chunks: seq<seq<byte>>, cap: nat)
    requires NoEmptyChunk(chunks)
    ensures var (out, rest) := InnerRead(chunks, cap);
            && out + Flatten(rest) == Flatten(chunks) && |out| <= cap && NoEmptyChunk(rest)
            && (cap > 0 && out == [] ==> Flatten(chunks) == [])
  {
    if chunks != [] && |chunks[0]| > cap {
      var rest := [chunks[0][cap..]] + chunks[1..];
      assert rest[1..] == chunks[1..];
      assert chunks[0] == chunks[0][..cap] + chunks[0][cap..];
    }
  }

  /** One read neither loses nor reorders bytes, fits the buffer, and reports end of stream only at the end. */
  lemma PollReadConserves(p: Prefixed, cap: nat)
    requires Valid(p)
    ensures var (out, p') := PollRead(p, cap);
            && Valid(p') && out + Left(p') == Left(p) && |out| <= cap
            && (cap > 0 && out == [] ==> Left(p) == [])
  {
    if p.pos < |p.prefix| && cap > 0 {
      var n := |PollRead(p, cap).0|;
      assert p.prefix[p.pos..] == p.prefix[p.pos..p.pos + n] + p.prefix[p.pos + n..];
    } else {
      InnerReadConserves(p.inner, cap);
      if cap > 0 { assert p.prefix[p.pos..] == []; }
      if cap == 0 { assert PollRead(p, cap).0 == []; }
    }
  }

  /** All bytes read by a sequence of reads with the given buffer sizes. */
  function ReadSizes(p: Prefixed, caps: seq<nat>): (r: (seq<byte>, Prefixed))
    requires p.pos <= |p.prefix|
    decreases |caps|
  {
    if caps == [] then ([], p)
    else
      var (out, p') := PollRead(p, caps[0]);
      assert p'.pos <= |p'.prefix|;
      var (outs, p'') := ReadSizes(p', caps[1..]);
      (out + outs, p'')
  }

  /** For every sequence of buffer sizes, what was read followed by what is left is what was there. */
  lemma {:induction false} ReadsConserve(p: Prefixed, caps: seq<nat>)
    requires Valid(p)
    ensures Valid(ReadSizes(p, caps).1)
    ensures ReadSizes(p, caps).0 + Left(ReadSizes(p, caps).1) == Left(p)
    decreases |caps|
  {
    if caps != [] {
      PollReadConserves(p, caps[0]);
      ReadsConserve(PollRead(p, caps[0]).1, caps[1..]);
    }
  }

  /** A reader with any non-zero buffer sizes gets everything after finitely many reads. */
  lemma {:induction false} ReadsComplete(p: Prefixed, caps: seq<nat>)
    requires Valid(p)
    requires |caps| >= |Left(p)| && forall i :: 0 <= i < |caps| ==> caps[i] > 0
    ensures ReadSizes(p, caps).0 == Left(p)
    decreases |caps|
  {
    if caps != [] {
      PollReadConserves(p, caps[0]);
      var (out, p') := PollRead(p, caps[0]);
      if out == [] {
        assert Left(p') == [];
        ReadsConserve(p', caps[1..]);
      } else {
        ReadsComplete(p', caps[1..]);
      }
    }
  }

  /** The prefixed stream as the object whose cursor moves. */
  class PrefixedStream {
    const prefix: seq<byte>
    var position: nat
    var inner: seq<seq<byte>>

    constructor (prefix: seq<byte>, inner: seq<seq<byte>>)
      ensures View() == Prefixed(prefix, 0, inner)
    {
      this.prefix, position, this.inner := prefix, 0, inner;
    }

    ghost function View(): Prefixed
      reads this
    {
      Prefixed(prefix, position, inner)
    }

    method Read(cap: nat) returns (out: seq<byte>)
      requires Valid(View())
      modifies this
      ensures Valid(View())
      ensures (out, View()) == PollRead(old(View()), cap)
      ensures out + Left(View()) == old(Left(View()))
    {
      PollReadConserves(View(), cap);
      if position < |prefix| && cap > 0 {
        var remaining := |prefix| - position;
        var toCopy := if remaining <= cap then remaining else cap;
        out := prefix[position..position + toCopy];
        position := position + toCopy;
      } else {
        var (o, rest) := InnerRead(inner, cap);
        out, inner := o, rest;
      }
    }
  }

  // ----- the handover -----

  /** The raw stream that continues a framed transport. */
  function Resume(f: Framed): Prefixed {
    Prefixed(f.buf, 0, f.chunks)
  }

  predicate AllPositive(caps: seq<nat>) {
    forall i :: 0 <= i < |caps| ==> caps[i] > 0
  }

  /** Reads of any sizes see a prefix of the bytes the framed transport had left, and all of them if they go on. */
  lemma ResumeReads(f: Framed, caps: seq<nat>)
    requires NoEmptyChunk(f.chunks)
    ensures Left(Resume(f)) == Total(f)
    ensures ReadSizes(Resume(f), caps).0 <= Total(f)
    ensures |caps| >= |Total(f)| && AllPositive(caps) ==> ReadSizes(Resume(f), caps).0 == Total(f)
  {
    var p := Resume(f);
    assert p.prefix[0..] == f.buf;
    ReadsConserve(p, caps);
    if |caps| >= |Total(f)| && AllPositive(caps) {
      ReadsComplete(p, caps);
    }
  }

  // ----- handing over the connection alone -----

  /** Some number of initial chunks hold exactly `n` octets. */
  predicate BoundaryAt(chunks: seq<seq<byte>>, n: nat) {
    n == 0 || (chunks != [] && |chunks[0]| <= n && BoundaryAt(chunks[1..], n - |chunks[0]|))
  }

  /** The network has a chunk boundary `n` octets from where the framed reader stands. */
  predicate Boundary(f: Framed, n: nat) {
    |f.buf| <= n && BoundaryAt(f.chunks, n - |f.buf|)
  }

  /** Receiving a message reads no chunk it does not need, so it moves the boundaries after it by its own length. */
  lemma {:induction false} RecvBoundary<M(!new)>(j: Json<M>, f: Framed, m: M, rest: seq<byte>, n: nat)
    requires Lawful(j) && Encode(j, m).Encoded? && Total(f) == Encode(j, m).bytes + rest
    requires n >= |Encode(j, m).bytes|
    ensures Boundary(f, n) <==> Boundary(Recv(j, f).1, n - |Encode(j, m).bytes|)
    decreases |f.chunks|
  {
    var e := Encode(j, m).bytes;
    if |e| <= |f.buf| {
      assert f.buf == Total(f)[..|f.buf|] == e + rest[..|f.buf| - |e|];
      DecodeEncode(j, m, rest[..|f.buf| - |e|]);
    } else {
      assert f.buf == Total(f)[..|f.buf|] == e[..|f.buf|];
      DecodePartial(j, m, |f.buf|);
      var g := Framed(f.buf + f.chunks[0], f.chunks[1..]);
      assert Total(g) == Total(f);
      RecvBoundary(j, g, m, rest, n);
    }
  }

  lemma {:induction false} RecvManyBoundary<M(!new)>(j: Json<M>, f: Framed, ms: seq<M>, raw: seq<byte>)
    requires Lawful(j) && AllEncode(j, ms) && Total(f) == EncodeAll(j, ms) + raw
    ensures RecvMany(j, f, |ms|).Some?
    ensures Boundary(f, |EncodeAll(j, ms)|) <==> RecvMany(j, f, |ms|).value.1.buf == []
    decreases |ms|
  {
    RecvAll(j, f, ms, raw);
    if ms != [] {
      var rest := EncodeAll(j, ms[1..]) + raw;
      assert Total(f) == Encode(j, ms[0]).bytes + rest;
      RecvMessage(j, f, ms[0], rest);
      RecvBoundary(j, f, ms[0], rest, |EncodeAll(j, ms)|);
      RecvManyBoundary(j, Recv(j, f).1, ms[1..], raw);
    }
  }

  /**
   * Taking only the connection after m1..mk loses exactly what was read ahead. For every chunking it is
   * lossless if and only if the network happened to end a chunk where the last message ends.
   */
  lemma PlainIntoInner<M(!new)>(j: Json<M>, ms: seq<M>, raw: seq<byte>, chunks: seq<seq<byte>>)
    requires Lawful(j) && AllEncode(j, ms) && Flatten(chunks) == EncodeAll(j, ms) + raw
    ensures var r := RecvMany(j, Framed([], chunks), |ms|);
            && r.Some? && r.value.0 == ms && raw == r.value.1.buf + Flatten(r.value.1.chunks)
            && (Flatten(r.value.1.chunks) == raw <==> BoundaryAt(chunks, |EncodeAll(j, ms)|))
  {
    var f := Framed([], chunks);
    assert Total(f) == Flatten(chunks);
    RecvAll(j, f, ms, raw);
    RecvManyBoundary(j, f, ms, raw);
    var g := RecvMany(j, f, |ms|).value.1;
    assert |raw| == |g.buf| + |Flatten(g.chunks)|;
  }

  /** The loss: a message and the first raw bytes in one chunk leave all of these bytes behind. */
  lemma FirstPacketLost<M(!new)>(j: Json<M>, m: M, raw: seq<byte>)
    requires Lawful(j) && Encode(j, m).Encoded? && raw != []
    ensures var (r, g) := Recv(j, Framed([], [Encode(j, m).bytes + raw]));
            r == Message(m) && g == Framed(raw, []) && Flatten(g.chunks) == []
  {
    var chunk := Encode(j, m).bytes + raw;
    assert Decode(j, []).NeedMore?;
    var none: seq<byte>, chunks := [], [chunk];
    assert none + chunk == chunk && chunks[1..] == [];
    DecodeEncode(j, m, raw);
  }

  /**
   * However the network cuts `encode(m1)..encode(mk)` and the raw bytes after them into chunks, the framed
   * reader yields exactly m1..mk, and the stream made from its connection and read-ahead buffer yields
   * exactly the raw bytes to a reader with any non-zero buffer sizes: no first packet is lost.
   */
  lemma NoByteLost<M(!new)>(j: Json<M>, ms: seq<M>, raw: seq<byte>, chunks: seq<seq<byte>>, caps: seq<nat>)
    requires Lawful(j) && AllEncode(j, ms) && NoEmptyChunk(chunks)
    requires Flatten(chunks) == EncodeAll(j, ms) + raw
    ensures var r := RecvMany(j, Framed([], chunks), |ms|);
            && r.Some? && r.value.0 == ms
            && ReadSizes(Resume(r.value.1), caps).0 <= raw
            && (|caps| >= |raw| && AllPositive(caps) ==> ReadSizes(Resume(r.value.1), caps).0 == raw)
  {
    var f := Framed([], chunks);
    assert Total(f) == Flatten(chunks);
    RecvAll(j, f, ms, raw);
    RecvManyChunks(j, f, |ms|);
    ResumeReads(RecvMany(j, f, |ms|).value.1, caps);
  }

  lemma {:induction false} RecvChunks<M>(j: Json<M>, f: Framed)
    requires NoEmptyChunk(f.chunks)
    ensures NoEmptyChunk(Recv(j, f).1.chunks)
    decreases |f.chunks|
  {
    if Decode(j, f.buf).NeedMore? && f.chunks != [] {
      RecvChunks(j, Framed(f.buf + f.chunks[0], f.chunks[1..]));
    }
  }

  lemma {:induction false} RecvManyChunks<M>(j: Json<M>, f: Framed, count: nat)
    requires NoEmptyChunk(f.chunks) && RecvMany(j, f, count).Some?
    ensures NoEmptyChunk(RecvMany(j, f, count).value.1.chunks)
    decreases count
  {
    if count > 0 {
      RecvChunks(j, f);
      RecvManyChunks(j, Recv(j, f).1, count - 1);
    }
  }
}

/** Binary frames of the tcp_mux tunnel: crates/arp-common/src/transport/mux.rs. */
module MuxCodec {
  import opened Bytes
  import opened ByteIo

  const FRAME_OPEN: byte := 1
  const FRAME_DATA: byte := 2
  const FRAME_CLOSE: byte := 3
  const FRAME_PING: byte := 4
  const FRAME_PONG: byte := 5
  const MAX_FRAME_PAYLOAD: nat := 1024 * 1024

  datatype Frame =
    | Open(id: u32)
    | Data(id: u32, payload: seq<byte>)
    | Close(id: u32)
    | Ping
    | Pong

  /** One attempt to read a frame: success with the unread bytes, end of stream, or a protocol error. */
  datatype Reading = Got(frame: Frame, rest: seq<byte>) | Eof | Bad

  /** The reader's payload limit. */
  predicate Fits(f: Frame) {
    f.Data? ==> |f.payload| <= MAX_FRAME_PAYLOAD
  }

  predicate AllFit(fs: seq<Frame>) {
    forall i :: 0 <= i < |fs| ==> Fits(fs[i])
  }

  /** Wire form of a frame; the payload length is cast to 32 bits. */
  function Write(f: Frame): (s: seq<byte>)
    ensures s != []
  {
    match f
    case Open(id) => [FRAME_OPEN] + Be(id, 4)
    case Data(id, payload) => [FRAME_DATA] + Be(id, 4) + Be(|payload|, 4) + payload
    case Close(id) => [FRAME_CLOSE] + Be(id, 4)
    case Ping => [FRAME_PING]
    case Pong => [FRAME_PONG]
  }

  function ReadId(s: seq<byte>): (id: u32)
    requires |s| >= 5
  {
    FromBeBound(s[1..5]); Widths();
    FromBe(s[1..5])
  }

  function Read(s: seq<byte>): (r: Reading)
  {
    if s == [] then Eof
    else if s[0] == FRAME_OPEN then
      if |s| < 5 then Eof else Got(Open(ReadId(s)), s[5..])
    else if s[0] == FRAME_DATA then
      if |s| < 9 then Eof
      else
        var len := FromBe(s[5..9]);
        if len > MAX_FRAME_PAYLOAD then Bad
        else if |s| < 9 + len then Eof
        else Got(Data(ReadId(s), s[9..9 + len]), s[9 + len..])
    else if s[0] == FRAME_CLOSE then
      if |s| < 5 then Eof else Got(Close(ReadId(s)), s[5..])
    else if s[0] == FRAME_PING then Got(Ping, s[1..])
    else if s[0] == FRAME_PONG then Got(Pong, s[1..])
    else Bad
  }

  function WriteAll(fs: seq<Frame>): (s: seq<byte>)
  {
    if fs == [] then [] else Write(fs[0]) + WriteAll(fs[1..])
  }

  /** Every frame the reader loop sees before it stops. */
  function ReadAll(s: seq<byte>): (fs: seq<Frame>)
    decreases |s|
  {
    match Read(s)
    case Got(f, rest) => ReadOk(s); [f] + ReadAll(rest)
    case _ => []
  }

  /** Why the reader loop stopped. */
  function ReadEnd(s: seq<byte>): (r: Reading)
    ensures !r.Got?
    decreases |s|
  {
    match Read(s)
    case Got(_, rest) => ReadOk(s); ReadEnd(rest)
    case r => r
  }

  // ----- field-by-field writer and reader -----

  method WriteMuxFrame(w: ByteSink, f: Frame) returns (ok: bool)
    modifies w
    ensures ok <==> |Write(f)| <= old(w.room)
    ensures w.bytes == old(w.bytes) + Cut(Write(f), old(w.room))
  {
    match f {
      case Open(id) => ok := WriteHead(w, FRAME_OPEN, id);
      case Close(id) => ok := WriteHead(w, FRAME_CLOSE, id);
      case Ping => ok := w.WriteAll([FRAME_PING]);
      case Pong => ok := w.WriteAll([FRAME_PONG]);
      case Data(id, payload) => ok := WriteData(w, id, payload);
    }
  }

  method WriteData(w: ByteSink, id: u32, payload: seq<byte>) returns (ok: bool)
    modifies w
    ensures ok <==> |Write(Data(id, payload))| <= old(w.room)
    ensures w.bytes == old(w.bytes) + Cut(Write(Data(id, payload)), old(w.room))
  {
    ghost var head, field := [FRAME_DATA] + Be(id, 4), WriteField(payload, 4);
    assert Write(Data(id, payload)) == head + field;
    TwoParts(w.bytes, head, field, w.room);
    ok := WriteHead(w, FRAME_DATA, id);
    if ok { ok := w.PutField(payload, 4); }
  }

  method WriteHead(w: ByteSink, frameType: byte, id: u32) returns (ok: bool)
    modifies w
    ensures ok <==> 5 <= old(w.room)
    ensures w.bytes == old(w.bytes) + Cut([frameType] + Be(id, 4), old(w.room))
    ensures ok ==> w.room == old(w.room) - 5
  {
    TwoParts(w.bytes, [frameType], Be(id, 4), w.room);
    ok := w.WriteAll([frameType]);
    if ok { ok := w.WriteInt(id, 4); }
  }

  method ReadMuxFrame(r: ByteSource) returns (res: Reading)
    modifies r
    ensures res == Read(old(r.rest))
    ensures res.Got? ==> r.rest == res.rest
  {
    ghost var s := r.rest;
    Widths();
    var head := r.ReadExact(1);
    if head.None? { return Eof; }
    var t := head.value[0];
    if t == FRAME_OPEN || t == FRAME_CLOSE {
      var id := r.ReadInt(4);
      if id.None? { return Eof; }
      FromBeBound(s[1..5]);
      assert s[1..][..4] == s[1..5];
      assert s[1..][4..] == s[5..];
      res := Got(if t == FRAME_OPEN then Open(id.value) else Close(id.value), r.rest);
    } else if t == FRAME_DATA {
      var id := r.ReadInt(4);
      if id.None? { return Eof; }
      FromBeBound(s[1..5]);
      assert s[1..][..4] == s[1..5];
      assert s[1..][4..] == s[5..];
      var len := r.ReadInt(4);
      if len.None? { return Eof; }
      assert s[5..][..4] == s[5..9];
      assert s[5..][4..] == s[9..];
      if len.value > MAX_FRAME_PAYLOAD { return Bad; }
      var payload := r.ReadExact(len.value);
      if payload.None? { return Eof; }
      assert s[9..][..len.value] == s[9..9 + len.value];
      assert s[9..][len.value..] == s[9 + len.value..];
      res := Got(Data(id.value, payload.value), r.rest);
    } else if t == FRAME_PING {
      res := Got(Ping, r.rest);
    } else if t == FRAME_PONG {
      res := Got(Pong, r.rest);
    } else {
      res := Bad;
    }
  }

  // ----- one frame -----

  /** A successful read consumed exactly the wire form of the frame it returned: no other frame has these bytes. */
  lemma ReadOk(s: seq<byte>)
    requires Read(s).Got?
    ensures Fits(Read(s).frame)
    ensures s == Write(Read(s).frame) + Read(s).rest
  {
    var Got(f, rest) := Read(s);
    if f.Open? || f.Data? || f.Close? {
      BeFromBe(s[1..5]);
      assert s == [s[0]] + s[1..5] + s[5..];
      if f.Data? {
        BeFromBe(s[5..9]);
        var len := FromBe(s[5..9]);
        assert s == [s[0]] + s[1..5] + s[5..9] + s[9..9 + len] + s[9 + len..];
      }
    } else {
      assert s == [s[0]] + s[1..];
    }
  }

  /** Layout of a written frame followed by other bytes. */
  lemma Layout(f: Frame, rest: seq<byte>)
    requires !f.Ping? && !f.Pong?
    ensures var s := Write(f) + rest;
            && |s| >= 5 && ReadId(s) == f.id
            && (!f.Data? ==> s[5..] == rest)
            && (f.Data? ==> |s| == 9 + |f.payload| + |rest|
                            && FromBe(s[5..9]) == |f.payload| % 0x1_0000_0000
                            && s[9..] == f.payload + rest)
  {
    Widths();
    FromBeBe(f.id, 4);
    if f.Data? {
      LayoutData(f.id, f.payload, rest);
    } else {
      var s := [Write(f)[0]] + Be(f.id, 4) + rest;
      assert s[1..5] == Be(f.id, 4) && s[5..] == rest;
    }
  }

  lemma LayoutData(id: u32, payload: seq<byte>, rest: seq<byte>)
    ensures var s := Write(Data(id, payload)) + rest;
            && |s| == 9 + |payload| + |rest|
            && ReadId(s) == id
            && FromBe(s[5..9]) == |payload| % 0x1_0000_0000
            && s[9..] == payload + rest
  {
    var a, b := Be(id, 4), Be(|payload|, 4);
    var s := [FRAME_DATA] + a + b + payload + rest;
    assert s[1..5] == a && s[5..9] == b;
    assert s == ([FRAME_DATA] + a + b) + (payload + rest);
    Widths();
    FromBeBe(id, 4);
    FromBeBe(|payload|, 4);
  }

  /** A frame survives the wire exactly when its payload is within the reader's limit. */
  lemma ReadWrite(f: Frame, rest: seq<byte>)
    ensures Read(Write(f) + rest) == Got(f, rest) <==> Fits(f)
  {
    var s := Write(f) + rest;
    if f.Ping? || f.Pong? {
      assert s[1..] == rest;
    } else {
      Layout(f, rest);
      if f.Data? {
        var n := |f.payload|;
        if Fits(f) {
          assert s[9..9 + n] == s[9..][..n] == f.payload;
          assert s[9 + n..] == s[9..][n..] == rest;
        } else if Read(s).Got? {
          assert |Read(s).frame.payload| <= MAX_FRAME_PAYLOAD;
        }
      }
    }
  }

  /** More bytes on the stream never change a frame that was already complete. */
  lemma ReadExtend(s: seq<byte>, more: seq<byte>)
    requires Read(s).Got?
    ensures Read(s + more) == Got(Read(s).frame, Read(s).rest + more)
  {
    ReadOk(s);
    var Got(f, rest) := Read(s);
    assert s + more == Write(f) + (rest + more);
    ReadWrite(f, rest + more);
  }

  /** A connection lost inside a frame is seen as end of stream, never as a different frame. */
  lemma ReadTruncated(f: Frame, k: nat)
    requires Fits(f) && k < |Write(f)|
    ensures Read(Write(f)[..k]) == Eof
  {
    var s, t := Write(f), Write(f)[..k];
    ReadWrite(f, []);
    assert s + [] == s;
    if k > 0 {
      assert t[0] == s[0];
      if f.Data? && k >= 9 {
        Layout(f, []);
        assert t[5..9] == s[5..9];
      }
    }
  }

  // ----- frame lists -----

  /** Reading the concatenation of written frames returns the same list and then end of stream. */
  lemma {:induction false} ReadAllWriteAll(fs: seq<Frame>)
    requires AllFit(fs)
    ensures ReadAll(WriteAll(fs)) == fs
    ensures ReadEnd(WriteAll(fs)) == Eof
  {
    if fs != [] {
      ReadWrite(fs[0], WriteAll(fs[1..]));
      ReadAllWriteAll(fs[1..]);
    }
  }

  /** Any truncation of those bytes yields a prefix of the list, then end of stream. */
  lemma {:induction false} Truncation(fs: seq<Frame>, k: nat)
    requires AllFit(fs) && k <= |WriteAll(fs)|
    ensures ReadAll(WriteAll(fs)[..k]) <= fs
    ensures ReadEnd(WriteAll(fs)[..k]) == Eof
    ensures k == |WriteAll(fs)| <==> ReadAll(WriteAll(fs)[..k]) == fs
  {
    var s := WriteAll(fs);
    if fs != [] {
      var w := Write(fs[0]);
      if k < |w| {
        assert s[..k] == w[..k];
        ReadTruncated(fs[0], k);
      } else {
        assert s[..k] == w + WriteAll(fs[1..])[..k - |w|];
        ReadWrite(fs[0], WriteAll(fs[1..])[..k - |w|]);
        Truncation(fs[1..], k - |w|);
      }
    }
  }

  lemma {:induction false} WriteAllAppend(fs: seq<Frame>, gs: seq<Frame>)
    ensures WriteAll(fs + gs) == WriteAll(fs) + WriteAll(gs)
  {
    if fs == [] {
      assert fs + gs == gs;
    } else {
      assert (fs + gs)[1..] == fs[1..] + gs;
      WriteAllAppend(fs[1..], gs);
    }
  }

  /** A byte string without a protocol error starts with the wire form of the frames read from it; less than one frame follows. */
  lemma {:induction false} ReadAllOnto(s: seq<byte>)
    requires ReadEnd(s) == Eof
    ensures AllFit(ReadAll(s))
    ensures WriteAll(ReadAll(s)) <= s
    decreases |s|
  {
    if Read(s).Got? {
      ReadOk(s);
      ReadAllOnto(Read(s).rest);
    }
  }
}

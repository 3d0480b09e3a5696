/** Binary frames of the udp tunnel: crates/arp-common/src/transport/udp_mux.rs. */
module UdpCodec {
  import opened Bytes
  import opened ByteIo
  import opened Utf8
  import Mux = MuxCodec

  const FRAME_REQ: byte := 1
  const FRAME_RESP: byte := 2
  const FRAME_PING: byte := 3
  const FRAME_PONG: byte := 4
  const MAX_ADDR_LEN: nat := 1024
  const MAX_PAYLOAD_LEN: nat := 1024 * 1024

  /** The source address is a Rust string, kept as its UTF-8 octets. */
  datatype Frame =
    | Req(id: u32, addr: seq<byte>, payload: seq<byte>)
    | Resp(id: u32, payload: seq<byte>)
    | Ping
    | Pong

  datatype Reading = Got(frame: Frame, rest: seq<byte>) | Eof | Bad

  predicate IsString(f: Frame) { f.Req? ==> ValidUtf8(f.addr) }

  /** The limits the reader puts on a frame. */
  predicate Fits(f: Frame) {
    && (f.Req? ==> |f.addr| <= MAX_ADDR_LEN && |f.payload| <= MAX_PAYLOAD_LEN)
    && (f.Resp? ==> |f.payload| <= MAX_PAYLOAD_LEN)
  }

  predicate AllFit(fs: seq<Frame>) {
    forall i :: 0 <= i < |fs| ==> Fits(fs[i]) && IsString(fs[i])
  }

  // ----- length-prefixed fields

  datatype Field = Field(data: seq<byte>, rest: seq<byte>) | Short | TooLong

  function ReadField(s: seq<byte>, width: nat, max: nat): Field {
    if |s| < width then Short
    else
      var len := FromBe(s[..width]);
      if len > max then TooLong
      else if |s| < width + len then Short
      else Field(s[width..width + len], s[width + len..])
  }

  lemma FieldHead(data: seq<byte>, width: nat, rest: seq<byte>)
    ensures var s := WriteField(data, width) + rest;
            |s| >= width && FromBe(s[..width]) == |data| % Pow256(width) && s[width..] == data + rest
  {
    var s := WriteField(data, width) + rest;
    assert s == Be(|data|, width) + (data + rest);
    assert s[..width] == Be(|data|, width);
    FromBeBe(|data|, width);
  }

  lemma FieldRoundTrip(data: seq<byte>, width: nat, max: nat, rest: seq<byte>)
    requires max < Pow256(width)
    ensures ReadField(WriteField(data, width) + rest, width, max) == Field(data, rest) <==> |data| <= max
  {
    var s := WriteField(data, width) + rest;
    FieldHead(data, width, rest);
    var n := |data|;
    if n <= max {
      DivModUnique(n, Pow256(width), 0, n);
      assert s[width..width + n] == s[width..][..n] == data;
      assert s[width + n..] == s[width..][n..] == rest;
    }
  }

  lemma FieldTruncated(data: seq<byte>, width: nat, max: nat, k: nat)
    requires max < Pow256(width) && |data| <= max && k < width + |data|
    ensures ReadField(WriteField(data, width)[..k], width, max) == Short
  {
    var s := WriteField(data, width);
    FieldHead(data, width, []);
    assert s + [] == s;
    DivModUnique(|data|, Pow256(width), 0, |data|);
    if k >= width {
      assert s[..k][..width] == s[..width];
    }
  }

  lemma FieldOk(s: seq<byte>, width: nat, max: nat)
    requires ReadField(s, width, max).Field?
    ensures var f := ReadField(s, width, max);
            |f.data| <= max && |f.rest| <= |s| - width && s == WriteField(f.data, width) + f.rest
  {
    var len := FromBe(s[..width]);
    BeFromBe(s[..width]);
    assert s == s[..width] + s[width..width + len] + s[width + len..];
  }

  // ----- frames

  /** Wire form; `None` where the writer refuses the frame before it has written anything. */
  function Write(f: Frame): (s: Option<seq<byte>>)
    ensures s.Some? ==> s.value != []
    ensures s.None? <==> f.Req? && |f.addr| > MAX_ADDR_LEN
  {
    match f
    case Req(id, addr, payload) =>
      if |addr| > MAX_ADDR_LEN then None
      else Some([FRAME_REQ] + Be(id, 4) + (WriteField(addr, 2) + WriteField(payload, 4)))
    case Resp(id, payload) => Some([FRAME_RESP] + Be(id, 4) + WriteField(payload, 4))
    case Ping => Some([FRAME_PING])
    case Pong => Some([FRAME_PONG])
  }

  function ReadReq(id: u32, s: seq<byte>): Reading {
    match ReadField(s, 2, MAX_ADDR_LEN)
    case Short => Eof
    case TooLong => Bad
    case Field(addr, more) =>
      match ReadField(more, 4, MAX_PAYLOAD_LEN)
      case Short => Eof
      case TooLong => Bad
      case Field(payload, rest) => if ValidUtf8(addr) then Got(Req(id, addr, payload), rest) else Bad
  }

  function ReadResp(id: u32, s: seq<byte>): Reading {
    match ReadField(s, 4, MAX_PAYLOAD_LEN)
    case Short => Eof
    case TooLong => Bad
    case Field(payload, rest) => Got(Resp(id, payload), rest)
  }

  function ReadId(s: seq<byte>): (id: u32)
    requires |s| == 4
  {
    FromBeBound(s); Widths();
    FromBe(s)
  }

  function Read(s: seq<byte>): Reading {
    if s == [] then Eof
    else if s[0] == FRAME_REQ then
      if |s| < 5 then Eof else ReadReq(ReadId(s[1..5]), s[5..])
    else if s[0] == FRAME_RESP then
      if |s| < 5 then Eof else ReadResp(ReadId(s[1..5]), s[5..])
    else if s[0] == FRAME_PING then Got(Ping, s[1..])
    else if s[0] == FRAME_PONG then Got(Pong, s[1..])
    else Bad
  }

  lemma HeadLayout(t: byte, id: u32, body: seq<byte>)
    ensures var s := [t] + Be(id, 4) + body;
            |s| == 5 + |body| && s[0] == t && ReadId(s[1..5]) == id && s[5..] == body
  {
    var s := [t] + Be(id, 4) + body;
    assert s[1..5] == Be(id, 4);
    Widths();
    FromBeBe(id, 4);
  }

  lemma ReqRoundTrip(id: u32, addr: seq<byte>, payload: seq<byte>, rest: seq<byte>)
    requires ValidUtf8(addr) && |addr| <= MAX_ADDR_LEN
    ensures ReadReq(id, WriteField(addr, 2) + (WriteField(payload, 4) + rest)) == Got(Req(id, addr, payload), rest)
       <==> |payload| <= MAX_PAYLOAD_LEN
  {
    Widths();
    var more := WriteField(payload, 4) + rest;
    FieldRoundTrip(addr, 2, MAX_ADDR_LEN, more);
    FieldRoundTrip(payload, 4, MAX_PAYLOAD_LEN, rest);
  }

  lemma FieldsAssoc(a: seq<byte>, p: seq<byte>, rest: seq<byte>)
    ensures a + p + rest == a + (p + rest)
  {
  }

  lemma ReadWriteReq(id: u32, addr: seq<byte>, payload: seq<byte>, rest: seq<byte>)
    requires ValidUtf8(addr) && |addr| <= MAX_ADDR_LEN
    ensures var f := Req(id, addr, payload);
            Read(Write(f).value + rest) == Got(f, rest) <==> |payload| <= MAX_PAYLOAD_LEN
  {
    var a, p := WriteField(addr, 2), WriteField(payload, 4);
    Assoc([FRAME_REQ] + Be(id, 4), a, p, rest);
    ReadHead(FRAME_REQ, id, a + (p + rest));
    ReqRoundTrip(id, addr, payload, rest);
  }

  lemma Assoc(head: seq<byte>, a: seq<byte>, p: seq<byte>, rest: seq<byte>)
    ensures head + (a + p) + rest == head + (a + (p + rest))
  {
  }

  lemma ReadHead(t: byte, id: u32, body: seq<byte>)
    ensures t == FRAME_REQ ==> Read([t] + Be(id, 4) + body) == ReadReq(id, body)
    ensures t == FRAME_RESP ==> Read([t] + Be(id, 4) + body) == ReadResp(id, body)
  {
    HeadLayout(t, id, body);
  }

  lemma ReadWriteResp(id: u32, payload: seq<byte>, rest: seq<byte>)
    ensures var f := Resp(id, payload);
            Read(Write(f).value + rest) == Got(f, rest) <==> |payload| <= MAX_PAYLOAD_LEN
  {
    var p := WriteField(payload, 4);
    Assoc([FRAME_RESP] + Be(id, 4), [], p, rest);
    assert [] + p == p && [] + (p + rest) == p + rest;
    ReadHead(FRAME_RESP, id, p + rest);
    Widths();
    FieldRoundTrip(payload, 4, MAX_PAYLOAD_LEN, rest);
  }

  /** A frame survives the wire exactly when its address and payload are within the reader's limits. */
  lemma ReadWrite(f: Frame, rest: seq<byte>)
    requires IsString(f)
    ensures Write(f).Some? && Read(Write(f).value + rest) == Got(f, rest) <==> Fits(f)
  {
    match f
    case Req(id, addr, payload) =>
      if |addr| <= MAX_ADDR_LEN { ReadWriteReq(id, addr, payload, rest); }
    case Resp(id, payload) => ReadWriteResp(id, payload, rest);
    case Ping => assert ([FRAME_PING] + rest)[1..] == rest;
    case Pong => assert ([FRAME_PONG] + rest)[1..] == rest;
  }

  lemma HeadOk(s: seq<byte>)
    requires |s| >= 5
    ensures s == [s[0]] + Be(ReadId(s[1..5]), 4) + s[5..]
  {
    BeFromBe(s[1..5]);
  }

  /** A successful read consumed exactly the wire form of the frame it returned: no other frame has these bytes. */
  lemma ReadOk(s: seq<byte>)
    requires Read(s).Got?
    ensures var Got(f, rest) := Read(s);
            Fits(f) && IsString(f) && s == Write(f).value + rest && |rest| < |s|
  {
    var Got(f, rest) := Read(s);
    if f.Resp? {
      HeadOk(s);
      FieldOk(s[5..], 4, MAX_PAYLOAD_LEN);
    } else if f.Req? {
      HeadOk(s);
      FieldOk(s[5..], 2, MAX_ADDR_LEN);
      var more := ReadField(s[5..], 2, MAX_ADDR_LEN).rest;
      FieldOk(more, 4, MAX_PAYLOAD_LEN);
      FieldsAssoc(WriteField(f.addr, 2), WriteField(f.payload, 4), rest);
    }
  }

  lemma ReqTruncated(id: u32, addr: seq<byte>, payload: seq<byte>, k: nat)
    requires |addr| <= MAX_ADDR_LEN && |payload| <= MAX_PAYLOAD_LEN && k < 6 + |addr| + |payload|
    ensures ReadReq(id, (WriteField(addr, 2) + WriteField(payload, 4))[..k]) == Eof
  {
    Widths();
    var a, p := WriteField(addr, 2), WriteField(payload, 4);
    if k < |a| {
      assert (a + p)[..k] == a[..k];
      FieldTruncated(addr, 2, MAX_ADDR_LEN, k);
    } else {
      assert (a + p)[..k] == a + p[..k - |a|];
      FieldRoundTrip(addr, 2, MAX_ADDR_LEN, p[..k - |a|]);
      FieldTruncated(payload, 4, MAX_PAYLOAD_LEN, k - |a|);
    }
  }

  lemma HeadTruncated(t: byte, id: u32, body: seq<byte>, k: nat)
    requires 5 <= k <= 5 + |body|
    ensures ([t] + Be(id, 4) + body)[..k] == [t] + Be(id, 4) + body[..k - 5]
  {
  }

  /** A connection lost inside a frame is seen as end of stream, never as a different frame. */
  lemma ReadTruncated(f: Frame, k: nat)
    requires Fits(f) && k < |Write(f).value|
    ensures Read(Write(f).value[..k]) == Eof
  {
    if k > 0 {
      assert Write(f).value[..k][0] == Write(f).value[0];
      if k >= 5 {
        if f.Req? {
          var body := WriteField(f.addr, 2) + WriteField(f.payload, 4);
          HeadTruncated(FRAME_REQ, f.id, body, k);
          HeadLayout(FRAME_REQ, f.id, body[..k - 5]);
          ReqTruncated(f.id, f.addr, f.payload, k - 5);
        } else {
          var body := WriteField(f.payload, 4);
          HeadTruncated(FRAME_RESP, f.id, body, k);
          HeadLayout(FRAME_RESP, f.id, body[..k - 5]);
          Widths();
          FieldTruncated(f.payload, 4, MAX_PAYLOAD_LEN, k - 5);
        }
      }
    }
  }

  // ----- frame lists

  function WriteAll(fs: seq<Frame>): seq<byte>
    requires AllFit(fs)
  {
    if fs == [] then [] else Write(fs[0]).value + WriteAll(fs[1..])
  }

  function ReadAll(s: seq<byte>): seq<Frame>
    decreases |s|
  {
    match Read(s)
    case Got(f, rest) => ReadOk(s); [f] + ReadAll(rest)
    case _ => []
  }

  /** Why the reader loop stopped. */
  function ReadEnd(s: seq<byte>): (r: Reading)
    ensures !r.Got?
    decreases |s|
  {
    match Read(s)
    case Got(_, rest) => ReadOk(s); ReadEnd(rest)
    case r => r
  }

  lemma {:induction false} WriteAllAppend(fs: seq<Frame>, gs: seq<Frame>)
    requires AllFit(fs) && AllFit(gs)
    ensures AllFit(fs + gs) && WriteAll(fs + gs) == WriteAll(fs) + WriteAll(gs)
  {
    if fs == [] {
      assert fs + gs == gs;
    } else {
      assert (fs + gs)[1..] == fs[1..] + gs;
      WriteAllAppend(fs[1..], gs);
    }
  }

  /**
   * Reading what was written before the connection was lost at octet `k` gives back a prefix of the frames,
   * and all of them exactly when nothing was lost.
   */
  lemma {:induction false} Truncation(fs: seq<Frame>, k: nat)
    requires AllFit(fs) && k <= |WriteAll(fs)|
    ensures ReadAll(WriteAll(fs)[..k]) <= fs && ReadEnd(WriteAll(fs)[..k]) == Eof
    ensures k == |WriteAll(fs)| <==> ReadAll(WriteAll(fs)[..k]) == fs
  {
    var s := WriteAll(fs);
    if fs != [] {
      ReadWrite(fs[0], []);
      var w := Write(fs[0]).value;
      if k < |w| {
        assert s[..k] == w[..k];
        ReadTruncated(fs[0], k);
      } else {
        assert s[..k] == w + WriteAll(fs[1..])[..k - |w|];
        ReadWrite(fs[0], WriteAll(fs[1..])[..k - |w|]);
        Truncation(fs[1..], k - |w|);
      }
    }
  }

  /** Without a loss the same list is read back and the stream ends cleanly. */
  lemma WrittenReads(fs: seq<Frame>)
    requires AllFit(fs)
    ensures ReadAll(WriteAll(fs)) == fs && ReadEnd(WriteAll(fs)) == Eof
  {
    var w := WriteAll(fs);
    Truncation(fs, |w|);
    assert w[..|w|] == w;
  }

  // ----- field-by-field writer and reader

  method WriteUdpMuxFrame(w: ByteSink, f: Frame) returns (ok: bool)
    modifies w
    ensures ok <==> Write(f).Some? && |Write(f).value| <= old(w.room)
    ensures w.bytes == old(w.bytes) + (if Write(f).Some? then Cut(Write(f).value, old(w.room)) else [])
  {
    match f {
      case Ping => ok := w.WriteAll([FRAME_PING]);
      case Pong => ok := w.WriteAll([FRAME_PONG]);
      case Resp(id, payload) => ok := WriteResp(w, id, payload);
      case Req(id, addr, payload) =>
        if |addr| > MAX_ADDR_LEN { return false; }
        ok := WriteReq(w, id, addr, payload);
    }
  }

  method WriteResp(w: ByteSink, id: u32, payload: seq<byte>) returns (ok: bool)
    modifies w
    ensures ok <==> |Write(Resp(id, payload)).value| <= old(w.room)
    ensures w.bytes == old(w.bytes) + Cut(Write(Resp(id, payload)).value, old(w.room))
  {
    TwoParts(w.bytes, [FRAME_RESP] + Be(id, 4), WriteField(payload, 4), w.room);
    ok := Mux.WriteHead(w, FRAME_RESP, id);
    if ok { ok := w.PutField(payload, 4); }
  }

  method WriteReq(w: ByteSink, id: u32, addr: seq<byte>, payload: seq<byte>) returns (ok: bool)
    requires |addr| <= MAX_ADDR_LEN
    modifies w
    ensures ok <==> |Write(Req(id, addr, payload)).value| <= old(w.room)
    ensures w.bytes == old(w.bytes) + Cut(Write(Req(id, addr, payload)).value, old(w.room))
  {
    TwoParts(w.bytes, [FRAME_REQ] + Be(id, 4), WriteField(addr, 2) + WriteField(payload, 4), w.room);
    ok := Mux.WriteHead(w, FRAME_REQ, id);
    if ok { ok := WriteReqBody(w, addr, payload); }
  }

  method WriteReqBody(w: ByteSink, addr: seq<byte>, payload: seq<byte>) returns (ok: bool)
    modifies w
    ensures ok <==> |WriteField(addr, 2) + WriteField(payload, 4)| <= old(w.room)
    ensures w.bytes == old(w.bytes) + Cut(WriteField(addr, 2) + WriteField(payload, 4), old(w.room))
  {
    TwoParts(w.bytes, WriteField(addr, 2), WriteField(payload, 4), w.room);
    ok := w.PutField(addr, 2);
    if ok { ok := w.PutField(payload, 4); }
  }

  method TakeField(r: ByteSource, width: nat, max: nat) returns (f: Field)
    modifies r
    ensures f == ReadField(old(r.rest), width, max)
    ensures f.Field? ==> r.rest == f.rest
  {
    ghost var s := r.rest;
    var len := r.ReadInt(width);
    if len.None? { return Short; }
    if len.value > max { return TooLong; }
    var data := r.ReadExact(len.value);
    if data.None? { return Short; }
    assert s[width..][..len.value] == s[width..width + len.value];
    assert s[width..][len.value..] == s[width + len.value..];
    return Field(data.value, r.rest);
  }

  method ReadUdpMuxFrame(r: ByteSource) returns (res: Reading)
    modifies r
    ensures res == Read(old(r.rest))
    ensures res.Got? ==> r.rest == res.rest
  {
    ghost var s := r.rest;
    var head := r.ReadExact(1);
    if head.None? { return Eof; }
    var t := head.value[0];
    if t == FRAME_REQ || t == FRAME_RESP {
      var id := r.ReadInt(4);
      if id.None? { return Eof; }
      assert s[1..][..4] == s[1..5];
      assert s[1..][4..] == s[5..];
      FromBeBound(s[1..5]);
      Widths();
      if t == FRAME_REQ {
        res := ReadReqBody(r, id.value);
      } else {
        var payload := TakeField(r, 4, MAX_PAYLOAD_LEN);
        match payload
        case Short => res := Eof;
        case TooLong => res := Bad;
        case Field(data, _) => res := Got(Resp(id.value, data), r.rest);
      }
    } else if t == FRAME_PING {
      res := Got(Ping, r.rest);
    } else if t == FRAME_PONG {
      res := Got(Pong, r.rest);
    } else {
      res := Bad;
    }
  }

  method ReadReqBody(r: ByteSource, id: u32) returns (res: Reading)
    modifies r
    ensures res == ReadReq(id, old(r.rest))
    ensures res.Got? ==> r.rest == res.rest
  {
    var addr := TakeField(r, 2, MAX_ADDR_LEN);
    match addr
    case Short => return Eof;
    case TooLong => return Bad;
    case Field(a, _) =>
      var payload := TakeField(r, 4, MAX_PAYLOAD_LEN);
      match payload
      case Short => return Eof;
      case TooLong => return Bad;
      case Field(p, _) =>
        if ValidUtf8(a) { return Got(Req(id, a, p), r.rest); }
        return Bad;
  }
}

/**
 * Request correlation over one udp tunnel: crates/arp-server/src/proxy/udp.rs and
 * crates/arp-client/src/proxy/udp.rs.
 *
 * Any number of packets are in flight at the server, each under its own request id; the client serves
 * one request at a time over one local socket. The connection delivers frames in order and may stop at
 * any point, which here is a run in which nobody takes the remaining frames.
 */
module UdpTunnel {
  import opened Bytes
  import opened UdpCodec
  import Utf8

  const UDP_PACKET_MAX: nat := 65535

  // ----- payload encoding

  /** Compression and packet cipher, switched on per proxy; both ends share one configuration. */
  datatype Coding = Coding(
    compress: seq<byte> -> seq<byte>,
    decompress: seq<byte> -> Option<seq<byte>>,
    encrypt: (seq<byte>, nat) -> seq<byte>,
    decrypt: seq<byte> -> Option<seq<byte>>,
    useCompression: bool,
    useEncryption: bool)

  /**
   * What the two libraries promise: decoding undoes encoding, whatever nonce was drawn, and a packet does not
   * outgrow a frame.
   */
  ghost predicate Lawful(c: Coding) {
    && (forall x :: c.decompress(c.compress(x)) == Some(x))
    && (forall x, nonce :: c.decrypt(c.encrypt(x, nonce)) == Some(x))
    && (forall x, nonce :: |x| <= UDP_PACKET_MAX ==> |Encode(c, x, nonce)| <= MAX_PAYLOAD_LEN)
  }

  function Encode(c: Coding, packet: seq<byte>, nonce: nat): seq<byte> {
    var x := if c.useCompression then c.compress(packet) else packet;
    if c.useEncryption then c.encrypt(x, nonce) else x
  }

  function Decode(c: Coding, payload: seq<byte>): Option<seq<byte>> {
    var x := if c.useEncryption then c.decrypt(payload) else Some(payload);
    if c.useCompression && x.Some? then c.decompress(x.value) else x
  }

  /** Compress-then-encrypt is undone by decrypt-then-decompress, in every configuration. */
  lemma DecodeEncode(c: Coding, packet: seq<byte>, nonce: nat)
    requires Lawful(c)
    ensures Decode(c, Encode(c, packet, nonce)) == Some(packet)
  {
    var x := if c.useCompression then c.compress(packet) else packet;
    assert c.decrypt(c.encrypt(x, nonce)) == Some(x);
  }

  // ----- states and steps

  datatype Request = Request(src: seq<byte>, packet: seq<byte>)
  datatype Reply = Reply(id: u32, data: seq<byte>)
  datatype Delivery = Delivery(id: u32, src: seq<byte>, data: seq<byte>)

  datatype State = State(
    // server
    nextId: nat,
    requests: map<u32, Request>,   // every packet that was given an id
    unposted: map<u32, Frame>,     // registered, frame not yet handed to the writer
    pending: set<u32>,
    waiting: set<u32>,             // callers still waiting for their answer
    reading: bool,
    delivered: seq<Delivery>,
    // connection
    down: seq<Frame>,
    up: seq<Frame>,
    // client and local service
    serving: Option<u32>,
    order: seq<u32>,               // the requests it has taken up, in order
    asked: map<u32, seq<byte>>,    // what the local service was sent, per request
    replies: seq<Reply>,           // every datagram the service sent back, and for which request
    taken: nat)                    // how many of them the client has received

  function Init(): State {
    State(1, map[], map[], {}, {}, true, [], [], [], None, [], map[], [], 0)
  }

  datatype Step =
    | Begin(src: seq<byte>, packet: seq<byte>, nonce: nat)
    | Post(id: u32)
    | PostFails(id: u32)
    | GiveUp(id: u32)
    | ServerTake
    | ReaderExits
    | ClientTake
    | ServiceReplies(id: u32, data: seq<byte>)
    | ClientAnswer(nonce: nat)
    | Probe(toClient: bool)

  predicate Enabled(c: Coding, s: State, step: Step) {
    match step
    case Begin(src, packet, _) =>
      s.nextId < 0x1_0000_0000 && |packet| <= UDP_PACKET_MAX && |src| <= MAX_ADDR_LEN && Utf8.ValidUtf8(src)
    case Post(id) => id in s.unposted
    case PostFails(id) => id in s.unposted
    case GiveUp(id) => id in s.waiting && id !in s.unposted
    case ServerTake => s.reading && s.up != []
    case ReaderExits => s.reading
    case ClientTake => s.serving.None? && s.down != [] && (s.down[0].Req? ==> Decode(c, s.down[0].payload).Some?)
    case ServiceReplies(id, data) => id in s.asked && |data| <= UDP_PACKET_MAX
    case ClientAnswer(_) => s.serving.Some? && s.taken < |s.replies|
    case Probe(_) => true
  }

  function TakeResp(c: Coding, s: State, id: u32, payload: seq<byte>): State {
    if id !in s.pending then s
    else
      var s' := s.(pending := s.pending - {id}, waiting := s.waiting - {id});
      if id in s.waiting && id in s.requests && Decode(c, payload).Some? then
        s'.(delivered := s.delivered + [Delivery(id, s.requests[id].src, Decode(c, payload).value)])
      else s'
  }

  function ServerNext(c: Coding, s: State): State
    requires s.up != []
  {
    var f, s' := s.up[0], s.(up := s.up[1..]);
    match f
    case Resp(id, payload) => TakeResp(c, s', id, payload)
    case Ping => s'.(down := s.down + [Pong])
    case _ => s'
  }

  function ClientNext(c: Coding, s: State): State
    requires s.down != [] && (s.down[0].Req? ==> Decode(c, s.down[0].payload).Some?)
  {
    var f, s' := s.down[0], s.(down := s.down[1..]);
    match f
    case Req(id, _, payload) =>
      s'.(serving := Some(id), order := s.order + [id], asked := s.asked[id := Decode(c, payload).value])
    case Ping => s'.(up := s.up + [Pong])
    case _ => s'
  }

  function Next(c: Coding, s: State, step: Step): State
    requires Enabled(c, s, step)
  {
    match step
    case Begin(src, packet, nonce) =>
      var id: u32 := s.nextId;
      s.(nextId := s.nextId + 1, requests := s.requests[id := Request(src, packet)],
         unposted := s.unposted[id := Req(id, src, Encode(c, packet, nonce))],
         pending := s.pending + {id}, waiting := s.waiting + {id})
    case Post(id) => s.(down := s.down + [s.unposted[id]], unposted := s.unposted - {id})
    case PostFails(id) =>
      s.(unposted := s.unposted - {id}, pending := s.pending - {id}, waiting := s.waiting - {id})
    case GiveUp(id) => s.(waiting := s.waiting - {id})
    case ServerTake => ServerNext(c, s)
    case ReaderExits => s.(reading := false, pending := {})
    case ClientTake => ClientNext(c, s)
    case ServiceReplies(id, data) => s.(replies := s.replies + [Reply(id, data)])
    case ClientAnswer(nonce) =>
      s.(up := s.up + [Resp(s.serving.value, Encode(c, s.replies[s.taken].data, nonce))],
         serving := None, taken := s.taken + 1)
    case Probe(toClient) => if toClient then s.(down := s.down + [Ping]) else s.(up := s.up + [Ping])
  }

  ghost predicate Run(c: Coding, s: State, steps: seq<Step>)
    decreases |steps|
  {
    steps != [] ==> Enabled(c, s, steps[0]) && Run(c, Next(c, s, steps[0]), steps[1..])
  }

  ghost function Exec(c: Coding, s: State, steps: seq<Step>): State
    requires Run(c, s, steps)
    decreases |steps|
  {
    if steps == [] then s else Exec(c, Next(c, s, steps[0]), steps[1..])
  }

  // ----- invariants

  ghost predicate Known(nextId: nat, requests: map<u32, Request>, ids: set<u32>) {
    ids <= requests.Keys && forall id :: id in requests ==> id < nextId
  }

  ghost predicate Once(requests: map<u32, Request>, pending: set<u32>, delivered: seq<Delivery>) {
    && (forall i :: 0 <= i < |delivered| ==> delivered[i].id in requests && delivered[i].id !in pending)
    && (forall i, j :: 0 <= i < j < |delivered| ==> delivered[i].id != delivered[j].id)
  }

  /** The server's bookkeeping: ids are fresh, and an answered request is no longer pending. */
  ghost predicate Registered(s: State) {
    && Known(s.nextId, s.requests, s.pending + s.waiting + s.unposted.Keys)
    && Known(s.nextId, s.requests, s.asked.Keys)
    && Once(s.requests, s.pending, s.delivered)
  }

  /** A request frame carries the packet of its own request and has not reached the client yet. */
  ghost predicate GoodReq(c: Coding, requests: map<u32, Request>, asked: map<u32, seq<byte>>, f: Frame) {
    f.Req? && f.id in requests && f.id !in asked && f.addr == requests[f.id].src
    && Decode(c, f.payload) == Some(requests[f.id].packet)
  }

  ghost predicate Posting(c: Coding, requests: map<u32, Request>, asked: map<u32, seq<byte>>, unposted: map<u32, Frame>) {
    forall id :: id in unposted ==> GoodReq(c, requests, asked, unposted[id]) && unposted[id].id == id
  }

  ghost predicate Travelling(c: Coding, requests: map<u32, Request>, asked: map<u32, seq<byte>>,
                             unposted: map<u32, Frame>, down: seq<Frame>)
  {
    && (forall i :: 0 <= i < |down| && down[i].Req? ==> GoodReq(c, requests, asked, down[i]) && down[i].id !in unposted)
    && (forall i, j :: 0 <= i < j < |down| && down[i].Req? && down[j].Req? ==> down[i].id != down[j].id)
  }

  ghost predicate Asked(requests: map<u32, Request>, asked: map<u32, seq<byte>>) {
    forall id :: id in asked ==> id in requests && asked[id] == requests[id].packet
  }

  ghost predicate Downward(c: Coding, s: State) {
    && Posting(c, s.requests, s.asked, s.unposted)
    && Travelling(c, s.requests, s.asked, s.unposted, s.down)
    && Asked(s.requests, s.asked)
  }

  /** The client takes up each request once and receives one datagram for each before the next. */
  ghost predicate InLine(serving: Option<u32>, order: seq<u32>, asked: map<u32, seq<byte>>, replies: seq<Reply>, taken: nat) {
    && taken <= |replies| && taken + (if serving.Some? then 1 else 0) == |order|
    && (serving.Some? ==> order[taken] == serving.value)
    && (forall k :: 0 <= k < |order| ==> order[k] in asked)
    && (forall j, k :: 0 <= j < k < |order| ==> order[j] != order[k])
    && (forall id :: id in asked ==> id in order)
    && (forall i :: 0 <= i < |replies| ==> replies[i].id in asked)
  }

  ghost predicate Line(s: State) {
    InLine(s.serving, s.order, s.asked, s.replies, s.taken)
  }

  /** Datagram `k` is what the client received while it served request `id`, and `data` is its content. */
  ghost predicate Datagram(order: seq<u32>, replies: seq<Reply>, taken: nat, id: u32, data: seq<byte>, k: nat) {
    k < taken && k < |order| && k < |replies| && order[k] == id && replies[k].data == data
  }

  ghost predicate Received(order: seq<u32>, replies: seq<Reply>, taken: nat, id: u32, data: seq<byte>) {
    exists k: nat :: Datagram(order, replies, taken, id, data, k)
  }

  ghost predicate Answering(c: Coding, order: seq<u32>, replies: seq<Reply>, taken: nat, f: Frame) {
    f.Resp? ==> Decode(c, f.payload).Some? && Received(order, replies, taken, f.id, Decode(c, f.payload).value)
  }

  ghost predicate Upward(c: Coding, order: seq<u32>, replies: seq<Reply>, taken: nat, up: seq<Frame>) {
    forall i :: 0 <= i < |up| ==> Answering(c, order, replies, taken, up[i])
  }

  /** A delivery goes back where its packet came from, with what the client received while it served that request. */
  ghost predicate Delivered(requests: map<u32, Request>, order: seq<u32>, replies: seq<Reply>, taken: nat, d: Delivery) {
    d.id in requests && d.src == requests[d.id].src && Received(order, replies, taken, d.id, d.data)
  }

  ghost predicate AllDelivered(requests: map<u32, Request>, order: seq<u32>, replies: seq<Reply>, taken: nat, ds: seq<Delivery>) {
    forall i :: 0 <= i < |ds| ==> Delivered(requests, order, replies, taken, ds[i])
  }

  ghost predicate Returning(c: Coding, s: State) {
    && Upward(c, s.order, s.replies, s.taken, s.up)
    && AllDelivered(s.requests, s.order, s.replies, s.taken, s.delivered)
  }

  ghost predicate FramesFit(unposted: map<u32, Frame>) {
    forall id :: id in unposted ==> Fits(unposted[id]) && IsString(unposted[id])
  }

  ghost predicate RepliesFit(replies: seq<Reply>) {
    forall i :: 0 <= i < |replies| ==> |replies[i].data| <= UDP_PACKET_MAX
  }

  ghost predicate Limits(s: State) {
    FramesFit(s.unposted) && RepliesFit(s.replies) && AllFit(s.down) && AllFit(s.up)
  }

  ghost predicate Inv(c: Coding, s: State) {
    Registered(s) && Downward(c, s) && Line(s) && Returning(c, s) && Limits(s)
  }

  // ----- bookkeeping

  lemma RegisteredResp(c: Coding, s: State, id: u32, payload: seq<byte>)
    requires Registered(s)
    ensures Registered(TakeResp(c, s, id, payload))
  {
  }

  lemma RegisteredServerTake(c: Coding, s: State)
    requires Registered(s) && s.up != []
    ensures Registered(ServerNext(c, s))
  {
    if s.up[0].Resp? {
      var s' := s.(up := s.up[1..]);
      assert Registered(s');
      RegisteredResp(c, s', s.up[0].id, s.up[0].payload);
    }
  }

  lemma RegisteredClientTake(c: Coding, s: State)
    requires Registered(s) && Downward(c, s) && Enabled(c, s, ClientTake)
    ensures Registered(ClientNext(c, s))
  {
  }

  lemma RegisteredBegin(c: Coding, s: State, step: Step)
    requires Registered(s) && step.Begin? && Enabled(c, s, step)
    ensures Registered(Next(c, s, step))
  {
  }

  lemma RegisteredStep(c: Coding, s: State, step: Step)
    requires Registered(s) && Downward(c, s) && Enabled(c, s, step)
    ensures Registered(Next(c, s, step))
  {
    match step
    case ServerTake => RegisteredServerTake(c, s);
    case ClientTake => RegisteredClientTake(c, s);
    case Begin(_, _, _) => RegisteredBegin(c, s, step);
    case _ =>
  }

  // ----- requests on their way to the service

  lemma DownwardBegin(c: Coding, s: State, step: Step)
    requires Lawful(c) && Registered(s) && Downward(c, s) && step.Begin? && Enabled(c, s, step)
    ensures Downward(c, Next(c, s, step))
  {
    DecodeEncode(c, step.packet, step.nonce);
  }

  lemma DownwardPost(c: Coding, s: State, step: Step)
    requires Downward(c, s) && step.Post? && Enabled(c, s, step)
    ensures Downward(c, Next(c, s, step))
  {
    var s' := Next(c, s, step);
    assert forall i :: 0 <= i < |s.down| ==> s'.down[i] == s.down[i];
  }

  lemma DownwardTake(c: Coding, s: State)
    requires Downward(c, s) && Enabled(c, s, ClientTake)
    ensures Downward(c, ClientNext(c, s))
  {
    var s' := ClientNext(c, s);
    assert forall i :: 0 <= i < |s'.down| ==> s'.down[i] == s.down[i + 1];
  }

  lemma TravellingMore(c: Coding, s: State, f: Frame)
    requires Downward(c, s) && !f.Req?
    ensures Downward(c, s.(down := s.down + [f]))
  {
    var down := s.down + [f];
    assert forall i :: 0 <= i < |s.down| ==> down[i] == s.down[i];
  }

  lemma DownwardStep(c: Coding, s: State, step: Step)
    requires Lawful(c) && Registered(s) && Downward(c, s) && Enabled(c, s, step)
    ensures Downward(c, Next(c, s, step))
  {
    match step
    case Begin(_, _, _) => DownwardBegin(c, s, step);
    case Post(_) => DownwardPost(c, s, step);
    case ClientTake => DownwardTake(c, s);
    case ServerTake => TravellingMore(c, s, Pong);
    case Probe(_) => TravellingMore(c, s, Ping);
    case _ =>
  }

  // ----- the client's line of requests and datagrams

  lemma LineTake(c: Coding, s: State)
    requires Downward(c, s) && Line(s) && Enabled(c, s, ClientTake)
    ensures Line(ClientNext(c, s))
  {
    if s.down[0].Req? {
      var id := s.down[0].id;
      assert GoodReq(c, s.requests, s.asked, s.down[0]);
      assert forall k :: 0 <= k < |s.order| ==> (s.order + [id])[k] == s.order[k];
      assert (s.order + [id])[|s.order|] == id;
    }
  }

  lemma LineStep(c: Coding, s: State, step: Step)
    requires Downward(c, s) && Line(s) && Enabled(c, s, step)
    ensures Line(Next(c, s, step))
  {
    match step
    case ClientTake => LineTake(c, s);
    case _ =>
  }

  // ----- answers on their way back

  /** What was received stays received as the client goes on. */
  lemma ReceivedMore(order: seq<u32>, order': seq<u32>, replies: seq<Reply>, replies': seq<Reply>,
                     taken: nat, taken': nat, id: u32, data: seq<byte>)
    requires order <= order' && replies <= replies' && taken <= taken'
    requires Received(order, replies, taken, id, data)
    ensures Received(order', replies', taken', id, data)
  {
    var k: nat :| Datagram(order, replies, taken, id, data, k);
    assert Datagram(order', replies', taken', id, data, k);
  }

  lemma ReturningMore(c: Coding, s: State, order: seq<u32>, replies: seq<Reply>, taken: nat)
    requires Returning(c, s) && s.order <= order && s.replies <= replies && s.taken <= taken
    ensures Upward(c, order, replies, taken, s.up)
    ensures AllDelivered(s.requests, order, replies, taken, s.delivered)
  {
    forall i | 0 <= i < |s.up| ensures Answering(c, order, replies, taken, s.up[i]) {
      assert Answering(c, s.order, s.replies, s.taken, s.up[i]);
      if s.up[i].Resp? {
        ReceivedMore(s.order, order, s.replies, replies, s.taken, taken, s.up[i].id, Decode(c, s.up[i].payload).value);
      }
    }
    forall i | 0 <= i < |s.delivered| ensures Delivered(s.requests, order, replies, taken, s.delivered[i]) {
      assert Delivered(s.requests, s.order, s.replies, s.taken, s.delivered[i]);
      ReceivedMore(s.order, order, s.replies, replies, s.taken, taken, s.delivered[i].id, s.delivered[i].data);
    }
  }

  lemma UpwardQueue(c: Coding, order: seq<u32>, replies: seq<Reply>, taken: nat, up: seq<Frame>, f: Frame)
    requires Upward(c, order, replies, taken, up) && Answering(c, order, replies, taken, f)
    ensures Upward(c, order, replies, taken, up + [f])
  {
  }

  lemma ReturningBegin(c: Coding, s: State, step: Step)
    requires Registered(s) && Returning(c, s) && step.Begin? && Enabled(c, s, step)
    ensures Returning(c, Next(c, s, step))
  {
    var s' := Next(c, s, step);
    forall i | 0 <= i < |s.delivered| ensures Delivered(s'.requests, s'.order, s'.replies, s'.taken, s'.delivered[i]) {
      assert Delivered(s.requests, s.order, s.replies, s.taken, s.delivered[i]);
    }
  }

  lemma ReturningServerTake(c: Coding, s: State)
    requires Returning(c, s) && s.up != []
    ensures Returning(c, ServerNext(c, s))
  {
    var up := s.up[1..];
    assert forall i :: 0 <= i < |up| ==> up[i] == s.up[i + 1];
    assert Answering(c, s.order, s.replies, s.taken, s.up[0]);
    var s' := ServerNext(c, s);
    forall i | 0 <= i < |s'.delivered| ensures Delivered(s'.requests, s'.order, s'.replies, s'.taken, s'.delivered[i]) {
      assert i < |s.delivered| ==> Delivered(s.requests, s.order, s.replies, s.taken, s.delivered[i]);
    }
  }

  lemma ReturningClientTake(c: Coding, s: State)
    requires Returning(c, s) && Enabled(c, s, ClientTake)
    ensures Returning(c, ClientNext(c, s))
  {
    var s' := ClientNext(c, s);
    ReturningMore(c, s, s'.order, s.replies, s.taken);
    UpwardQueue(c, s.order, s.replies, s.taken, s.up, Pong);
  }

  lemma ReturningAnswer(c: Coding, s: State, nonce: nat)
    requires Lawful(c) && Line(s) && Returning(c, s) && Enabled(c, s, ClientAnswer(nonce))
    ensures Returning(c, Next(c, s, ClientAnswer(nonce)))
  {
    var data := s.replies[s.taken].data;
    DecodeEncode(c, data, nonce);
    ReturningMore(c, s, s.order, s.replies, s.taken + 1);
    assert Datagram(s.order, s.replies, s.taken + 1, s.serving.value, data, s.taken);
    UpwardQueue(c, s.order, s.replies, s.taken + 1, s.up, Resp(s.serving.value, Encode(c, data, nonce)));
  }

  lemma ReturningStep(c: Coding, s: State, step: Step)
    requires Lawful(c) && Registered(s) && Line(s) && Returning(c, s) && Enabled(c, s, step)
    ensures Returning(c, Next(c, s, step))
  {
    match step
    case Begin(_, _, _) => ReturningBegin(c, s, step);
    case ServerTake => ReturningServerTake(c, s);
    case ClientTake => ReturningClientTake(c, s);
    case ClientAnswer(nonce) => ReturningAnswer(c, s, nonce);
    case ServiceReplies(id, data) => ReturningMore(c, s, s.order, s.replies + [Reply(id, data)], s.taken);
    case Probe(_) => UpwardQueue(c, s.order, s.replies, s.taken, s.up, Ping);
    case _ =>
  }

  // ----- sizes

  lemma AllFitMore(fs: seq<Frame>, f: Frame)
    requires AllFit(fs) && Fits(f) && IsString(f)
    ensures AllFit(fs + [f])
  {
  }

  lemma LimitsBegin(c: Coding, s: State, step: Step)
    requires Lawful(c) && Limits(s) && step.Begin? && Enabled(c, s, step)
    ensures Limits(Next(c, s, step))
  {
    assert |Encode(c, step.packet, step.nonce)| <= MAX_PAYLOAD_LEN;
  }

  lemma LimitsAnswer(c: Coding, s: State, nonce: nat)
    requires Lawful(c) && Limits(s) && Enabled(c, s, ClientAnswer(nonce))
    ensures Limits(Next(c, s, ClientAnswer(nonce)))
  {
    var data := s.replies[s.taken].data;
    AllFitMore(s.up, Resp(s.serving.value, Encode(c, data, nonce)));
  }

  lemma LimitsTake(c: Coding, s: State, step: Step)
    requires Limits(s) && (step.ServerTake? || step.ClientTake?) && Enabled(c, s, step)
    ensures Limits(Next(c, s, step))
  {
    AllFitMore(s.down, Pong);
    AllFitMore(s.up, Pong);
  }

  lemma LimitsStep(c: Coding, s: State, step: Step)
    requires Lawful(c) && Limits(s) && Enabled(c, s, step)
    ensures Limits(Next(c, s, step))
  {
    match step
    case Begin(_, _, _) => LimitsBegin(c, s, step);
    case ClientAnswer(nonce) => LimitsAnswer(c, s, nonce);
    case ServerTake => LimitsTake(c, s, step);
    case ClientTake => LimitsTake(c, s, step);
    case Post(id) => AllFitMore(s.down, s.unposted[id]);
    case Probe(_) => AllFitMore(s.down, Ping); AllFitMore(s.up, Ping);
    case _ =>
  }

  lemma StepKeeps(c: Coding, s: State, step: Step)
    requires Lawful(c) && Inv(c, s) && Enabled(c, s, step)
    ensures Inv(c, Next(c, s, step))
  {
    RegisteredStep(c, s, step);
    DownwardStep(c, s, step);
    LineStep(c, s, step);
    ReturningStep(c, s, step);
    LimitsStep(c, s, step);
  }

  lemma {:induction false} RunKeeps(c: Coding, s: State, steps: seq<Step>)
    requires Lawful(c) && Inv(c, s) && Run(c, s, steps)
    ensures Inv(c, Exec(c, s, steps))
    decreases |steps|
  {
    if steps != [] {
      StepKeeps(c, s, steps[0]);
      RunKeeps(c, Next(c, s, steps[0]), steps[1..]);
    }
  }

  lemma InitInv(c: Coding)
    ensures Inv(c, Init())
  {
  }

  // ----- what holds of every run

  /** The k-th request the client took up was answered with a datagram the service had sent for it. */
  predicate InStep(s: State, k: nat) {
    k < |s.order| && k < |s.replies| && s.replies[k].id == s.order[k]
  }

  /** The content of a delivery is a datagram that the service sent for that request. */
  predicate Own(s: State, d: Delivery) {
    Reply(d.id, d.data) in s.replies
  }

  /** No two requests got datagrams of the same content, so a datagram tells which request it was sent for. */
  predicate Telling(replies: seq<Reply>) {
    forall i, j :: 0 <= i < j < |replies| && replies[i].data == replies[j].data ==> replies[i].id == replies[j].id
  }

  /**
   * In every run: a payload handed back to a user goes to the address its packet came from, the service was sent
   * exactly that packet, and if the request was the k-th the client took up, the payload is datagram k of the
   * service. It is the request's own answer if datagram k was sent for it, and, where datagrams can be told apart,
   * only then; whatever else was in flight, timed out, failed to be posted or lost.
   */
  lemma OwnAnswerIff(c: Coding, steps: seq<Step>, i: nat) returns (k: nat)
    requires Lawful(c) && Run(c, Init(), steps) && i < |Exec(c, Init(), steps).delivered|
    ensures var s := Exec(c, Init(), steps);
            var d := s.delivered[i];
            && d.id in s.requests && d.src == s.requests[d.id].src
            && d.id in s.asked && s.asked[d.id] == s.requests[d.id].packet
            && k < |s.order| && k < |s.replies| && s.order[k] == d.id && s.replies[k].data == d.data
            && (forall j :: 0 <= j < |s.order| && j != k ==> s.order[j] != d.id)
            && (InStep(s, k) ==> Own(s, d))
            && (Telling(s.replies) ==> (Own(s, d) <==> InStep(s, k)))
  {
    InitInv(c);
    RunKeeps(c, Init(), steps);
    var s := Exec(c, Init(), steps);
    var d := s.delivered[i];
    assert Delivered(s.requests, s.order, s.replies, s.taken, d);
    k :| Datagram(s.order, s.replies, s.taken, d.id, d.data, k);
    if InStep(s, k) {
      assert s.replies[k] == Reply(d.id, d.data);
    }
    if Own(s, d) && Telling(s.replies) {
      var j :| 0 <= j < |s.replies| && s.replies[j] == Reply(d.id, d.data);
    }
  }

  /** The service sends at most one datagram per packet it gets. */
  predicate Disciplined(replies: seq<Reply>) {
    forall i, j :: 0 <= i < j < |replies| ==> replies[i].id != replies[j].id
  }

  /** Then the client and the service are in step. */
  ghost predicate Paired(order: seq<u32>, replies: seq<Reply>) {
    |replies| <= |order| && forall k :: 0 <= k < |replies| ==> replies[k].id == order[k]
  }

  ghost predicate Lockstep(s: State) {
    Paired(s.order, s.replies)
  }

  /** With one datagram per packet, the next one can only be for the one request that has none. */
  lemma LockstepReply(s: State, id: u32, data: seq<byte>)
    requires Line(s) && Lockstep(s) && id in s.asked && Disciplined(s.replies + [Reply(id, data)])
    ensures Lockstep(s.(replies := s.replies + [Reply(id, data)]))
  {
    var all, n := s.replies + [Reply(id, data)], |s.replies|;
    forall j | 0 <= j < n ensures s.order[j] != id {
      assert all[j].id != all[n].id;
    }
    var k :| 0 <= k < |s.order| && s.order[k] == id;
    assert k == n;
  }

  lemma LockstepStep(c: Coding, s: State, step: Step)
    requires Line(s) && Lockstep(s) && Enabled(c, s, step) && Disciplined(Next(c, s, step).replies)
    ensures Lockstep(Next(c, s, step))
  {
    match step
    case ServiceReplies(id, data) => LockstepReply(s, id, data);
    case _ => LockstepOther(c, s, step);
  }

  lemma LockstepOther(c: Coding, s: State, step: Step)
    requires Lockstep(s) && Enabled(c, s, step) && !step.ServiceReplies?
    ensures Lockstep(Next(c, s, step))
  {
    if step.ClientTake? {
      PairedMore(s.order, s.replies, ClientNext(c, s).order);
    }
  }

  lemma PairedMore(order: seq<u32>, replies: seq<Reply>, order': seq<u32>)
    requires Paired(order, replies) && order <= order'
    ensures Paired(order', replies)
  {
  }

  lemma {:induction false} RunLockstep(c: Coding, s: State, steps: seq<Step>)
    requires Lawful(c) && Inv(c, s) && Lockstep(s) && Run(c, s, steps) && Disciplined(Exec(c, s, steps).replies)
    ensures Lockstep(Exec(c, s, steps))
    decreases |steps|
  {
    if steps != [] {
      var s' := Next(c, s, steps[0]);
      RepliesGrow(c, s', steps[1..]);
      DisciplinePrefix(s'.replies, Exec(c, s', steps[1..]).replies);
      StepKeeps(c, s, steps[0]);
      LockstepStep(c, s, steps[0]);
      RunLockstep(c, s', steps[1..]);
    }
  }

  lemma DisciplinePrefix(some: seq<Reply>, all: seq<Reply>)
    requires some <= all && Disciplined(all)
    ensures Disciplined(some)
  {
    assert forall i :: 0 <= i < |some| ==> some[i] == all[i];
  }

  lemma {:induction false} RepliesGrow(c: Coding, s: State, steps: seq<Step>)
    requires Run(c, s, steps)
    ensures s.replies <= Exec(c, s, steps).replies
    decreases |steps|
  {
    if steps != [] {
      RepliesGrow(c, Next(c, s, steps[0]), steps[1..]);
    }
  }

  /** If the service sends at most one datagram per packet, every delivery is the request's own answer. */
  lemma OwnAnswer(c: Coding, steps: seq<Step>, i: nat)
    requires Lawful(c) && Run(c, Init(), steps)
    requires Disciplined(Exec(c, Init(), steps).replies) && i < |Exec(c, Init(), steps).delivered|
    ensures var s := Exec(c, Init(), steps); Own(s, s.delivered[i])
  {
    var k := OwnAnswerIff(c, steps, i);
    InitInv(c);
    RunLockstep(c, Init(), steps);
  }

  /** No request is answered twice, in any run. */
  lemma AtMostOnce(c: Coding, steps: seq<Step>, i: nat, j: nat)
    requires Lawful(c) && Run(c, Init(), steps) && i < j < |Exec(c, Init(), steps).delivered|
    ensures var d := Exec(c, Init(), steps).delivered; d[i].id != d[j].id
  {
    InitInv(c);
    RunKeeps(c, Init(), steps);
  }

  // ----- a second datagram

  lemma ExecMore(c: Coding, s: State, step: Step, more: seq<Step>)
    requires Enabled(c, s, step) && Run(c, Next(c, s, step), more)
    ensures Run(c, s, [step] + more) && Exec(c, s, [step] + more) == Exec(c, Next(c, s, step), more)
  {
    assert ([step] + more)[1..] == more;
  }

  lemma {:induction false} ExecConcat(c: Coding, s: State, a: seq<Step>, b: seq<Step>)
    requires Run(c, s, a) && Run(c, Exec(c, s, a), b)
    ensures Run(c, s, a + b) && Exec(c, s, a + b) == Exec(c, Exec(c, s, a), b)
    decreases |a|
  {
    if a == [] {
      assert a + b == b;
    } else {
      ExecConcat(c, Next(c, s, a[0]), a[1..], b);
      assert (a + b)[1..] == a[1..] + b;
    }
  }

  lemma ExecThree(c: Coding, s: State, x: Step, y: Step, z: Step)
    requires Enabled(c, s, x) && Enabled(c, Next(c, s, x), y) && Enabled(c, Next(c, Next(c, s, x), y), z)
    ensures Run(c, s, [x, y, z]) && Exec(c, s, [x, y, z]) == Next(c, Next(c, Next(c, s, x), y), z)
  {
    var s1 := Next(c, s, x);
    var s2 := Next(c, s1, y);
    ExecMore(c, s2, z, []);
    ExecMore(c, s1, y, [z]);
    ExecMore(c, s, x, [y, z]);
    assert [z] + [] == [z] && [y] + [z] == [y, z] && [x] + [y, z] == [x, y, z];
  }

  /** The client finishes one request and takes up the next while a second datagram is queued. */
  lemma StraySent(c: Coding, s: State, data: seq<byte>, nonce: nat)
    requires Registered(s) && Downward(c, s) && Line(s) && |data| <= UDP_PACKET_MAX
    requires s.serving.Some? && s.taken + 1 == |s.replies| && s.down != [] && s.down[0].Req?
    ensures var run := [ServiceReplies(s.serving.value, data), ClientAnswer(nonce), ClientTake];
            && Run(c, s, run)
            && Exec(c, s, run) == s.(
                 replies := s.replies + [Reply(s.serving.value, data)],
                 up := s.up + [Resp(s.serving.value, Encode(c, s.replies[s.taken].data, nonce))],
                 taken := s.taken + 1, serving := Some(s.down[0].id), order := s.order + [s.down[0].id],
                 asked := s.asked[s.down[0].id := s.requests[s.down[0].id].packet], down := s.down[1..])
    ensures s.serving.value != s.down[0].id && s.down[0].id in s.requests
  {
    assert GoodReq(c, s.requests, s.asked, s.down[0]);
    ExecThree(c, s, ServiceReplies(s.serving.value, data), ClientAnswer(nonce), ClientTake);
  }

  /** Two answers reach two users that are still waiting. */
  lemma StrayDelivered(c: Coding, s: State, r: u32, next: u32, own: seq<byte>, stray: seq<byte>, n: nat, n': nat)
    requires Lawful(c) && s.reading && r != next && s.serving == Some(next) && s.taken < |s.replies|
    requires s.replies[s.taken].data == stray && s.up == [Resp(r, Encode(c, own, n))]
    requires r in s.pending && r in s.waiting && r in s.requests && next in s.pending && next in s.waiting && next in s.requests
    ensures var run := [ClientAnswer(n'), ServerTake, ServerTake];
            && Run(c, s, run)
            && Exec(c, s, run).replies == s.replies
            && Exec(c, s, run).delivered == s.delivered + [Delivery(r, s.requests[r].src, own)]
                                                       + [Delivery(next, s.requests[next].src, stray)]
  {
    DecodeEncode(c, own, n);
    DecodeEncode(c, stray, n');
    var s1 := Next(c, s, ClientAnswer(n'));
    assert s1.up[1..] == [Resp(next, Encode(c, stray, n'))];
    ExecThree(c, s, ClientAnswer(n'), ServerTake, ServerTake);
  }

  /**
   * A second datagram for the request being served is delivered to the user of the request the client takes up
   * next: from every reachable state in which the client serves r, has r's datagram queued and finds another
   * request waiting, and both users still wait.
   */
  lemma SecondDatagramGoesToNext(c: Coding, steps: seq<Step>, data: seq<byte>, nonce: nat, nonce': nat)
    requires Lawful(c) && Run(c, Init(), steps) && |data| <= UDP_PACKET_MAX
    requires SecondCanStray(Exec(c, Init(), steps))
    ensures var s := Exec(c, Init(), steps);
            var r, next := s.serving.value, s.down[0].id;
            var run := [ServiceReplies(r, data), ClientAnswer(nonce), ClientTake]
                     + [ClientAnswer(nonce'), ServerTake, ServerTake];
            && Run(c, s, run) && next != r && next in s.requests
            && Exec(c, s, run).replies == s.replies + [Reply(r, data)]
            && Exec(c, s, run).delivered != []
            && Exec(c, s, run).delivered[|Exec(c, s, run).delivered| - 1] == Delivery(next, s.requests[next].src, data)
  {
    InitInv(c);
    RunKeeps(c, Init(), steps);
    var s := Exec(c, Init(), steps);
    var r, next := s.serving.value, s.down[0].id;
    var own, first := s.replies[s.taken].data, [ServiceReplies(r, data), ClientAnswer(nonce), ClientTake];
    StraySent(c, s, data, nonce);
    StrayDelivered(c, Exec(c, s, first), r, next, own, data, nonce, nonce');
    ExecConcat(c, s, first, [ClientAnswer(nonce'), ServerTake, ServerTake]);
  }

  predicate SecondCanStray(s: State) {
    && s.serving.Some? && s.taken + 1 == |s.replies| && s.down != [] && s.down[0].Req? && s.reading && s.up == []
    && s.serving.value in s.pending && s.serving.value in s.waiting
    && s.down[0].id in s.pending && s.down[0].id in s.waiting && s.serving.value in s.requests
  }

  /** Such a state is reached by two packets sent one after the other. */
  lemma StrayReached(c: Coding, src: seq<byte>, src': seq<byte>, packet: seq<byte>, packet': seq<byte>, data: seq<byte>)
    requires Lawful(c) && |packet| <= UDP_PACKET_MAX && |packet'| <= UDP_PACKET_MAX && |data| <= UDP_PACKET_MAX
    requires |src| <= MAX_ADDR_LEN && |src'| <= MAX_ADDR_LEN && Utf8.ValidUtf8(src) && Utf8.ValidUtf8(src')
    ensures var run := [Begin(src, packet, 0), Begin(src', packet', 0), Post(1)] + [Post(2), ClientTake, ServiceReplies(1, data)];
            && Run(c, Init(), run)
            && var s := Exec(c, Init(), run);
               && SecondCanStray(s) && s.serving == Some(1) && s.down[0].id == 2
               && s.replies == [Reply(1, data)] && 2 in s.requests && s.requests[2] == Request(src', packet')
  {
    DecodeEncode(c, packet, 0);
    var first := [Begin(src, packet, 0), Begin(src', packet', 0), Post(1)];
    ExecThree(c, Init(), Begin(src, packet, 0), Begin(src', packet', 0), Post(1));
    var s := Exec(c, Init(), first);
    assert s.down == [Req(1, src, Encode(c, packet, 0))] && s.unposted == map[2 := Req(2, src', Encode(c, packet', 0))];
    ExecThree(c, s, Post(2), ClientTake, ServiceReplies(1, data));
    ExecConcat(c, Init(), first, [Post(2), ClientTake, ServiceReplies(1, data)]);
  }

  /** A run from the start that hands one user the service's second datagram for another user's packet. */
  lemma WrongAnswerDelivered(c: Coding, src: seq<byte>, src': seq<byte>, packet: seq<byte>, packet': seq<byte>,
                             data: seq<byte>, data': seq<byte>) returns (run: seq<Step>)
    requires Lawful(c) && |packet| <= UDP_PACKET_MAX && |packet'| <= UDP_PACKET_MAX
    requires |data| <= UDP_PACKET_MAX && |data'| <= UDP_PACKET_MAX
    requires |src| <= MAX_ADDR_LEN && |src'| <= MAX_ADDR_LEN && Utf8.ValidUtf8(src) && Utf8.ValidUtf8(src')
    ensures Run(c, Init(), run)
    ensures var s := Exec(c, Init(), run);
            && s.replies == [Reply(1, data), Reply(1, data')] && s.delivered != []
            && var d := s.delivered[|s.delivered| - 1];
               d == Delivery(2, src', data') && !Own(s, d)
  {
    var first := [Begin(src, packet, 0), Begin(src', packet', 0), Post(1)] + [Post(2), ClientTake, ServiceReplies(1, data)];
    var second := [ServiceReplies(1, data'), ClientAnswer(0), ClientTake] + [ClientAnswer(0), ServerTake, ServerTake];
    StrayReached(c, src, src', packet, packet', data);
    SecondDatagramGoesToNext(c, first, data', 0, 0);
    ExecConcat(c, Init(), first, second);
    run := first + second;
  }

  /** What travels is within the frame limits, so both directions of the byte stream read back as the frames sent. */
  lemma WireFaithful(c: Coding, steps: seq<Step>, k: nat)
    requires Lawful(c) && Run(c, Init(), steps)
    ensures var s := Exec(c, Init(), steps);
            && AllFit(s.down) && AllFit(s.up)
            && (k <= |WriteAll(s.down)| ==> ReadAll(WriteAll(s.down)[..k]) <= s.down)
            && (k <= |WriteAll(s.up)| ==> ReadAll(WriteAll(s.up)[..k]) <= s.up)
            && ReadAll(WriteAll(s.down)) == s.down && ReadAll(WriteAll(s.up)) == s.up
  {
    InitInv(c);
    RunKeeps(c, Init(), steps);
    var s := Exec(c, Init(), steps);
    WrittenReads(s.down);
    WrittenReads(s.up);
    if k <= |WriteAll(s.down)| { Truncation(s.down, k); }
    if k <= |WriteAll(s.up)| { Truncation(s.up, k); }
  }

  // ----- the server's object

  class UdpTunnelEnd {
    var nextId: u32
    var pending: set<u32>

    constructor ()
      ensures nextId == Init().nextId && pending == Init().pending
    {
      nextId, pending := 1, {};
    }

    /** Takes the next id, which wraps at 32 bits; until it wraps this is how the protocol begins a request. */
    method Register() returns (id: u32)
      modifies this
      ensures id == old(nextId) && nextId == (id + 1) % 0x1_0000_0000
      ensures forall c, s: State, src, packet, nonce ::
                s.nextId == old(nextId) && s.pending == old(pending) && Enabled(c, s, Begin(src, packet, nonce)) ==>
                  var s' := Next(c, s, Begin(src, packet, nonce));
                  && s'.requests == s.requests[id := Request(src, packet)] && s'.pending == pending
                  && (nextId != 0 ==> s'.nextId == nextId)
    {
      id := nextId;
      nextId := (nextId + 1) % 0x1_0000_0000;
      pending := pending + {id};
    }

    /** Takes back the registration of a request whose frame could not be posted. */
    method Abandon(id: u32)
      modifies `pending
      ensures forall c, s: State :: s.pending == old(pending) && Enabled(c, s, PostFails(id)) ==>
                Next(c, s, PostFails(id)).pending == pending
      ensures forall other :: other != id ==> (other in pending <==> other in old(pending))
    {
      pending := pending - {id};
    }

    /** One turn of the reader loop: hands a payload to the request it answers, or sends a frame back. */
    method HandleFrame(f: Frame) returns (hit: Option<u32>, reply: Option<Frame>)
      modifies `pending
      ensures hit == if f.Resp? && f.id in old(pending) then Some(f.id) else None
      ensures forall c, s: State :: s.up != [] && s.up[0] == f && s.pending == old(pending) ==>
                && ServerNext(c, s).pending == pending
                && ServerNext(c, s).down == s.down + (if reply.Some? then [reply.value] else [])
      ensures forall c, s: State :: s.up != [] && s.up[0] == f && s.pending == old(pending) && hit.None? ==>
                ServerNext(c, s).delivered == s.delivered && ServerNext(c, s).waiting == s.waiting
    {
      hit, reply := None, None;
      match f
      case Resp(id, payload) =>
        if id in pending {
          hit := Some(id);
          pending := pending - {id};
        }
      case Ping => reply := Some(Pong);
      case Pong =>
      case Req(_, _, _) =>
    }
  }
}

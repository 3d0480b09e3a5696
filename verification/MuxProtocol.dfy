/**
 * The two-ended tcp_mux protocol as a transition system: the server's `MuxTunnel` and stream relays
 * (crates/arp-server/src/proxy/tcp.rs) against the client's mux loop and local streams
 * (crates/arp-client/src/proxy/tcp.rs). One step is one lock section or one channel operation, so
 * every interleaving of the tasks is a run. A link holds the frames queued or travelling in one direction.
 */
module MuxProtocol {
  import opened Bytes
  import opened MuxCodec

  /** Both relay loops read their socket through a buffer of this size. */
  const RELAY_BUFFER: nat := 16 * 1024

  datatype Side = Server | Client

  /** What the reader task holds between two of its atomic actions. */
  datatype Hand =
    | Free
    | Deliver(id: u32, payload: seq<byte>)  // sender cloned from the map, payload not yet sent
    | Unregister(id: u32)                   // the receiver was gone; about to remove the id
    | Reply(frame: Frame)                   // about to queue an answer

  datatype Endpoint = Endpoint(
    streams: set<u32>,            // ids with a sender in the stream map
    gone: set<u32>,               // ids whose receiving task has dropped its end
    relays: set<u32>,             // ids whose relay still reads its socket
    closing: set<u32>,            // relays between the two halves of their shutdown
    hand: Hand,
    running: bool,                // the reader loop has not exited
    sent: map<u32, seq<byte>>,    // all bytes relays put on each stream
    got: map<u32, seq<byte>>)     // all bytes handed to each stream's channel

  datatype Link = Link(frames: seq<Frame>, cut: bool)

  datatype State = State(
    server: Endpoint,
    client: Endpoint,
    down: Link,                   // server to client
    up: Link,                     // client to server
    nextId: nat,
    opening: set<u32>)            // ids reserved by open_stream whose Open frame is not queued yet

  datatype Step =
    | Reserve
    | SendOpen(id: u32)
    | Send(side: Side, id: u32, payload: seq<byte>)
    | EndOfInput(side: Side, id: u32)
    | EndOfRelay(side: Side, id: u32)
    | RelayError(side: Side, id: u32)
    | DropReceiver(side: Side, id: u32)
    | Probe(side: Side)
    | Receive(side: Side)
    | Finish(side: Side)
    | Exit(side: Side)
    | Lose(side: Side, arriving: nat)

  // ----- state access -----

  function Other(side: Side): Side { if side.Server? then Client else Server }

  function End(s: State, side: Side): Endpoint { if side.Server? then s.server else s.client }

  /** The link that carries what `side` sends. */
  function Out(s: State, side: Side): Link { if side.Server? then s.down else s.up }

  function In(s: State, side: Side): Link { Out(s, Other(side)) }

  function SetEnd(s: State, side: Side, e: Endpoint): State {
    if side.Server? then s.(server := e) else s.(client := e)
  }

  function SetOut(s: State, side: Side, l: Link): State {
    if side.Server? then s.(down := l) else s.(up := l)
  }

  /** A frame queued on a lost link never arrives. */
  function Queue(s: State, side: Side, f: Frame): State {
    var l := Out(s, side);
    if l.cut then s else SetOut(s, side, l.(frames := l.frames + [f]))
  }

  function History(m: map<u32, seq<byte>>, id: u32): seq<byte> {
    if id in m then m[id] else []
  }

  // ----- transitions -----

  const IDLE_END := Endpoint({}, {}, {}, {}, Free, true, map[], map[])
  const INIT := State(IDLE_END, IDLE_END, Link([], false), Link([], false), 1, {})

  predicate Enabled(s: State, step: Step) {
    match step
    case Reserve => s.nextId < 0x1_0000_0000
    case SendOpen(id) => id in s.opening
    case Send(side, id, payload) => id in End(s, side).relays && 1 <= |payload| <= RELAY_BUFFER
    case EndOfInput(side, id) => id in End(s, side).relays
    case EndOfRelay(side, id) => id in End(s, side).closing
    case RelayError(side, id) => id in End(s, side).relays
    case DropReceiver(side, id) => true
    case Probe(side) => true
    case Receive(side) => End(s, side).running && End(s, side).hand.Free? && In(s, side).frames != []
    case Finish(side) => !End(s, side).hand.Free?
    case Exit(side) => End(s, side).running && End(s, side).hand.Free?
                       && In(s, side).cut && In(s, side).frames == []
    case Lose(side, arriving) => arriving <= |Out(s, side).frames|
  }

  function Next(s: State, step: Step): State
    requires Enabled(s, step)
  {
    match step
    case Reserve =>
      s.(nextId := s.nextId + 1, opening := s.opening + {s.nextId},
         server := s.server.(streams := s.server.streams + {s.nextId}))
    case SendOpen(id) =>
      Queue(s.(opening := s.opening - {id}, server := s.server.(relays := s.server.relays + {id})), Server, Open(id))
    case Send(side, id, payload) =>
      var e := End(s, side);
      Queue(SetEnd(s, side, e.(sent := e.sent[id := History(e.sent, id) + payload])), side, Data(id, payload))
    case EndOfInput(side, id) => NextEndOfInput(s, side, id)
    case EndOfRelay(side, id) => NextEndOfRelay(s, side, id)
    case RelayError(side, id) =>
      var e := End(s, side);
      SetEnd(s, side, e.(relays := e.relays - {id}))
    case DropReceiver(side, id) =>
      var e := End(s, side);
      SetEnd(s, side, e.(gone := e.gone + {id}))
    case Probe(side) => Queue(s, side, Ping)
    case Receive(side) =>
      var l := In(s, side);
      SetOut(SetEnd(s, side, Take(End(s, side), side, l.frames[0])), Other(side), l.(frames := l.frames[1..]))
    case Finish(side) => NextFinish(s, side)
    case Exit(side) =>
      var e := End(s, side);
      SetEnd(s, side, e.(running := false, streams := {}))
    case Lose(side, arriving) => SetOut(s, side, Link(Out(s, side).frames[..arriving], true))
  }

  /** The server unregisters before it queues Close; the client queues Close before it unregisters. */
  function NextEndOfInput(s: State, side: Side, id: u32): State {
    var e := End(s, side).(relays := End(s, side).relays - {id}, closing := End(s, side).closing + {id});
    if side.Server? then SetEnd(s, side, e.(streams := e.streams - {id}))
    else Queue(SetEnd(s, side, e), side, Close(id))
  }

  function NextEndOfRelay(s: State, side: Side, id: u32): State {
    var e := End(s, side).(closing := End(s, side).closing - {id});
    if side.Server? then Queue(SetEnd(s, side, e), side, Close(id))
    else SetEnd(s, side, e.(streams := e.streams - {id}))
  }

  /** One turn of the reader loop up to its first await. */
  function Take(e: Endpoint, side: Side, f: Frame): Endpoint {
    match f
    case Open(id) =>
      if side.Client? then
        e.(streams := e.streams + {id}, gone := e.gone - {id}, relays := e.relays + {id})
      else e
    case Data(id, payload) =>
      e.(hand := if id in e.streams then Deliver(id, payload) else Reply(Close(id)))
    case Close(id) => e.(streams := e.streams - {id})
    case Ping => e.(hand := Reply(Pong))
    case Pong => e
  }

  /** The send into the stream's channel fails when the receiver is gone. */
  function Delivered(e: Endpoint): Endpoint
    requires e.hand.Deliver?
  {
    if e.hand.id in e.gone then e.(hand := Unregister(e.hand.id))
    else e.(hand := Free, got := e.got[e.hand.id := History(e.got, e.hand.id) + e.hand.payload])
  }

  function NextFinish(s: State, side: Side): State
    requires !End(s, side).hand.Free?
  {
    var e := End(s, side);
    match e.hand
    case Deliver(id, payload) => SetEnd(s, side, Delivered(e))
    case Unregister(id) => SetEnd(s, side, e.(hand := Free, streams := e.streams - {id}))
    case Reply(f) => Queue(SetEnd(s, side, e.(hand := Free)), side, f)
  }

  /** The state after a run from `s`, or None when some step was not enabled. */
  function Exec(s: State, steps: seq<Step>): (r: Option<State>)
    decreases |steps|
  {
    if steps == [] then Some(s)
    else if Enabled(s, steps[0]) then Exec(Next(s, steps[0]), steps[1..])
    else None
  }

  /** Runs the reader of `side` until it is ready for the next frame. */
  function Settle(s: State, side: Side): (s': State)
    requires HarmlessReply(End(s, side).hand)
    ensures End(s', side).hand.Free?
    decreases HandWork(End(s, side).hand)
  {
    if End(s, side).hand.Free? then s else Settle(Next(s, Finish(side)), side)
  }

  // ----- what every reachable state satisfies -----

  function PayloadFor(f: Frame, id: u32): seq<byte> {
    if f.Data? && f.id == id then f.payload else []
  }

  /** Bytes of stream `id` among the frames of a link. */
  function InFlight(fs: seq<Frame>, id: u32): seq<byte> {
    if fs == [] then [] else PayloadFor(fs[0], id) + InFlight(fs[1..], id)
  }

  function Held(h: Hand, id: u32): seq<byte> {
    if h.Deliver? && h.id == id then h.payload else []
  }

  /** The receiver still forwards stream `id`. */
  predicate Registered(r: Endpoint, id: u32) {
    id in r.streams && r.hand != Unregister(id)
  }

  /** Everything sent is delivered, held or in flight; on a lost link the end may be missing. */
  predicate Accounted(part: seq<byte>, whole: seq<byte>, lossy: bool) {
    if lossy then part <= whole else part == whole
  }

  /** Delivery of stream `id` into `r`, whose peer has put `sent` on it, over link `l`. */
  predicate Delivery(sent: seq<byte>, r: Endpoint, l: Link, id: u32) {
    var seen := History(r.got, id) + Held(r.hand, id);
    && seen <= sent
    && (Registered(r, id) ==> Accounted(seen + InFlight(l.frames, id), sent, l.cut))
  }

  /** Faithful delivery of stream `id` from `side` to the other end. */
  predicate Faithful(s: State, side: Side, id: u32) {
    Delivery(History(End(s, side).sent, id), End(s, Other(side)), Out(s, side), id)
  }

  predicate IsData(f: Frame, id: u32) {
    f.Data? && f.id == id
  }

  predicate NoData(fs: seq<Frame>, id: u32) {
    forall i :: 0 <= i < |fs| ==> !IsData(fs[i], id)
  }

  predicate Mentions(h: Hand, id: u32) {
    (h.Deliver? || h.Unregister?) && h.id == id
  }

  /** No Open(id) comes after another Open or Data frame of the same stream. */
  predicate OpenFirst(fs: seq<Frame>, id: u32) {
    forall i, j :: 0 <= i < j < |fs| && fs[j] == Open(id) ==> fs[i] != Open(id) && !IsData(fs[i], id)
  }

  /** An endpoint that has neither sent nor received anything on `id`. */
  predicate Untouched(e: Endpoint, id: u32) {
    History(e.got, id) == [] && History(e.sent, id) == [] && !Mentions(e.hand, id) && id !in e.relays
  }

  /** The Open frame is still on its way: the client knows nothing of the stream. */
  predicate Awaited(s: State, id: u32) {
    && Untouched(s.client, id) && id !in s.client.streams
    && Accounted(InFlight(s.down.frames, id), History(s.server.sent, id), s.down.cut)
  }

  predicate Unopened(s: State, id: u32) {
    id >= s.nextId || id in s.opening
  }

  /** No Open frame was queued yet: neither end nor link knows the stream, except for the reservation. */
  predicate Fresh(s: State, id: u32) {
    && Untouched(s.client, id) && id !in s.client.streams && Untouched(s.server, id)
    && NoData(s.up.frames, id) && NoData(s.down.frames, id) && Open(id) !in s.down.frames
  }

  predicate Opened(s: State, id: u32) {
    && OpenFirst(s.down.frames, id)
    && (Open(id) in s.down.frames ==> Awaited(s, id))
    && (Unopened(s, id) ==> Fresh(s, id))
  }

  predicate StreamInv(s: State, id: u32) {
    Faithful(s, Server, id) && Faithful(s, Client, id) && Opened(s, id)
  }

  predicate HarmlessReply(h: Hand) {
    h.Reply? ==> h.frame.Close? || h.frame.Pong?
  }

  predicate Shape(s: State) {
    && AllFit(s.down.frames) && AllFit(s.up.frames)
    && HarmlessReply(s.server.hand) && HarmlessReply(s.client.hand)
    && 1 <= s.nextId <= 0x1_0000_0000
    && (forall id :: id in s.opening ==> id < s.nextId)
  }

  ghost predicate Inv(s: State) {
    Shape(s) && forall id: u32 :: StreamInv(s, id)
  }

  // ----- frames in flight -----

  lemma {:induction false} InFlightAppend(a: seq<Frame>, b: seq<Frame>, id: u32)
    ensures InFlight(a + b, id) == InFlight(a, id) + InFlight(b, id)
  {
    if a == [] {
      assert a + b == b;
    } else {
      assert (a + b)[1..] == a[1..] + b;
      InFlightAppend(a[1..], b, id);
    }
  }

  lemma InFlightQueue(fs: seq<Frame>, f: Frame, id: u32)
    ensures InFlight(fs + [f], id) == InFlight(fs, id) + PayloadFor(f, id)
  {
    InFlightAppend(fs, [f], id);
    assert InFlight([f], id) == PayloadFor(f, id);
  }

  lemma InFlightPrefix(fs: seq<Frame>, k: nat, id: u32)
    requires k <= |fs|
    ensures InFlight(fs[..k], id) <= InFlight(fs, id)
  {
    assert fs == fs[..k] + fs[k..];
    InFlightAppend(fs[..k], fs[k..], id);
  }

  lemma {:induction false} NoDataInFlight(fs: seq<Frame>, id: u32)
    requires NoData(fs, id)
    ensures InFlight(fs, id) == []
  {
    if fs != [] {
      NoDataInFlight(fs[1..], id);
    }
  }

  // ----- delivery, one change at a time -----

  lemma DeliverySend(sent: seq<byte>, r: Endpoint, l: Link, id: u32, f: Frame)
    requires Delivery(sent, r, l, id)
    ensures l.cut ==> Delivery(sent + PayloadFor(f, id), r, l, id)
    ensures !l.cut ==> Delivery(sent + PayloadFor(f, id), r, l.(frames := l.frames + [f]), id)
  {
    InFlightQueue(l.frames, f, id);
    var seen := History(r.got, id) + Held(r.hand, id);
    assert (seen + InFlight(l.frames, id)) + PayloadFor(f, id)
        == seen + (InFlight(l.frames, id) + PayloadFor(f, id));
  }

  lemma DeliveryTakeData(sent: seq<byte>, r: Endpoint, side: Side, l: Link, id: u32)
    requires l.frames != [] && r.hand.Free? && IsData(l.frames[0], id)
    requires Delivery(sent, r, l, id)
    ensures Delivery(sent, Take(r, side, l.frames[0]), l.(frames := l.frames[1..]), id)
  {
    var payload, got, rest := l.frames[0].payload, History(r.got, id), InFlight(l.frames[1..], id);
    assert got + Held(r.hand, id) == got;
    assert InFlight(l.frames, id) == payload + rest;
    assert got + (payload + rest) == (got + payload) + rest;
  }

  lemma DeliveryTakeOther(sent: seq<byte>, r: Endpoint, side: Side, l: Link, id: u32)
    requires l.frames != [] && r.hand.Free? && !IsData(l.frames[0], id)
    requires Delivery(sent, r, l, id)
    requires l.frames[0] == Open(id) && side.Client? ==>
               History(r.got, id) == [] && Accounted(InFlight(l.frames, id), sent, l.cut)
    ensures Delivery(sent, Take(r, side, l.frames[0]), l.(frames := l.frames[1..]), id)
  {
    var got, rest := History(r.got, id), InFlight(l.frames[1..], id);
    assert InFlight(l.frames, id) == [] + rest == rest;
    assert got + [] == got;
  }

  lemma DeliveryTake(sent: seq<byte>, r: Endpoint, side: Side, l: Link, id: u32)
    requires l.frames != [] && r.hand.Free?
    requires Delivery(sent, r, l, id)
    requires l.frames[0] == Open(id) && side.Client? ==>
               History(r.got, id) == [] && Accounted(InFlight(l.frames, id), sent, l.cut)
    ensures Delivery(sent, Take(r, side, l.frames[0]), l.(frames := l.frames[1..]), id)
  {
    if IsData(l.frames[0], id) {
      DeliveryTakeData(sent, r, side, l, id);
    } else {
      DeliveryTakeOther(sent, r, side, l, id);
    }
  }

  lemma DeliveryFinish(sent: seq<byte>, r: Endpoint, l: Link, id: u32, payload: seq<byte>)
    requires r.hand == Deliver(id, payload)
    requires Delivery(sent, r, l, id)
    ensures Delivery(sent, r.(hand := Free, got := r.got[id := History(r.got, id) + payload]), l, id)
    ensures Delivery(sent, r.(hand := Unregister(id)), l, id)
  {
    assert (History(r.got, id) + payload) + [] == History(r.got, id) + payload;
    assert History(r.got, id) + [] == History(r.got, id);
  }

  lemma DeliveryLose(sent: seq<byte>, r: Endpoint, l: Link, id: u32, k: nat)
    requires k <= |l.frames|
    requires Delivery(sent, r, l, id)
    ensures Delivery(sent, r, Link(l.frames[..k], true), id)
  {
    InFlightPrefix(l.frames, k, id);
    var seen := History(r.got, id) + Held(r.hand, id);
    PrefixOfConcat(seen, InFlight(l.frames[..k], id), InFlight(l.frames, id));
  }

  lemma PrefixOfConcat(a: seq<byte>, b: seq<byte>, c: seq<byte>)
    requires b <= c
    ensures a + b <= a + c
  {
    assert a + c == (a + b) + c[|b|..];
  }

  // ----- each step keeps the invariant of each stream -----

  lemma AppendFrame(fs: seq<Frame>, f: Frame, id: u32)
    ensures NoData(fs, id) && !IsData(f, id) ==> NoData(fs + [f], id)
    ensures Open(id) in fs + [f] <==> Open(id) in fs || f == Open(id)
    ensures OpenFirst(fs, id) && (f == Open(id) ==> NoData(fs, id) && Open(id) !in fs) ==> OpenFirst(fs + [f], id)
  {
  }

  lemma QueueFaithful(s: State, side: Side, f: Frame, id: u32, to: Side)
    requires Faithful(s, to, id) && PayloadFor(f, id) == []
    ensures Faithful(Queue(s, side, f), to, id)
  {
    if side == to {
      var sent := History(End(s, side).sent, id);
      DeliverySend(sent, End(s, Other(side)), Out(s, side), id, f);
      assert sent + PayloadFor(f, id) == sent;
    }
  }

  lemma QueueOpened(s: State, side: Side, f: Frame, id: u32)
    requires Opened(s, id) && (f.Close? || f.Ping? || f.Pong?)
    ensures Opened(Queue(s, side, f), id)
  {
    AppendFrame(Out(s, side).frames, f, id);
    InFlightQueue(Out(s, side).frames, f, id);
  }

  lemma QueueKeeps(s: State, side: Side, f: Frame, id: u32)
    requires StreamInv(s, id) && (f.Close? || f.Ping? || f.Pong?)
    ensures StreamInv(Queue(s, side, f), id)
  {
    QueueFaithful(s, side, f, id, Server);
    QueueFaithful(s, side, f, id, Client);
    QueueOpened(s, side, f, id);
  }

  lemma ReserveKeeps(s: State, id: u32)
    requires Shape(s) && StreamInv(s, id) && Enabled(s, Reserve)
    ensures StreamInv(Next(s, Reserve), id)
  {
    if id == s.nextId {
      NoDataInFlight(s.up.frames, id);
    }
  }

  lemma SendOpenKeeps(s: State, id: u32, newId: u32)
    requires Shape(s) && StreamInv(s, id) && Enabled(s, SendOpen(newId))
    ensures StreamInv(Next(s, SendOpen(newId)), id)
  {
    var s1 := s.(opening := s.opening - {newId}, server := s.server.(relays := s.server.relays + {newId}));
    QueueFaithful(s1, Server, Open(newId), id, Server);
    QueueFaithful(s1, Server, Open(newId), id, Client);
    SendOpenOpened(s, id, newId);
  }

  lemma SendOpenOpened(s: State, id: u32, newId: u32)
    requires Shape(s) && Opened(s, id) && Enabled(s, SendOpen(newId))
    ensures Opened(Next(s, SendOpen(newId)), id)
  {
    AppendFrame(s.down.frames, Open(newId), id);
    InFlightQueue(s.down.frames, Open(newId), id);
    if id == newId {
      NoDataInFlight(s.down.frames, id);
    }
  }

  lemma SendKeeps(s: State, id: u32, side: Side, to: u32, payload: seq<byte>)
    requires Shape(s) && StreamInv(s, id) && Enabled(s, Send(side, to, payload))
    ensures StreamInv(Next(s, Send(side, to, payload)), id)
  {
    SendFaithful(s, id, side, to, payload);
    SendOpened(s, id, side, to, payload);
  }

  lemma SendFaithful(s: State, id: u32, side: Side, to: u32, payload: seq<byte>)
    requires Faithful(s, Server, id) && Faithful(s, Client, id) && Enabled(s, Send(side, to, payload))
    ensures Faithful(Next(s, Send(side, to, payload)), Server, id)
    ensures Faithful(Next(s, Send(side, to, payload)), Client, id)
  {
    var f, s' := Data(to, payload), Next(s, Send(side, to, payload));
    var sent := History(End(s, side).sent, id);
    DeliverySend(sent, End(s, Other(side)), Out(s, side), id, f);
    assert History(End(s', side).sent, id) == sent + PayloadFor(f, id);
  }

  lemma SendOpened(s: State, id: u32, side: Side, to: u32, payload: seq<byte>)
    requires Opened(s, id) && Enabled(s, Send(side, to, payload))
    ensures Opened(Next(s, Send(side, to, payload)), id)
  {
    var f := Data(to, payload);
    AppendFrame(Out(s, side).frames, f, id);
    InFlightQueue(Out(s, side).frames, f, id);
    var sent := History(s.server.sent, id);
    assert sent + [] == sent;
  }

  lemma ReceiveKeeps(s: State, id: u32, side: Side)
    requires Shape(s) && StreamInv(s, id) && Enabled(s, Receive(side))
    ensures StreamInv(Next(s, Receive(side)), id)
  {
    ReceiveFaithful(s, id, side);
    ReceiveOpened(s, id, side);
  }

  lemma ReceiveFaithful(s: State, id: u32, side: Side)
    requires StreamInv(s, id) && Enabled(s, Receive(side))
    ensures Faithful(Next(s, Receive(side)), Server, id) && Faithful(Next(s, Receive(side)), Client, id)
  {
    var l, e := In(s, side), End(s, side);
    var e', l' := Take(e, side, l.frames[0]), l.(frames := l.frames[1..]);
    assert Faithful(s, side, id) && Faithful(s, Other(side), id);
    DeliveryTake(History(End(s, Other(side)).sent, id), e, side, l, id);
    TakeFaithful(s, side, e', l', id);
  }

  /** A frame taken off the link concerns only what its reader receives. */
  lemma TakeFaithful(s: State, side: Side, e: Endpoint, l: Link, id: u32)
    requires Faithful(s, side, id) && e.sent == End(s, side).sent
    requires Delivery(History(End(s, Other(side)).sent, id), e, l, id)
    ensures var s' := SetOut(SetEnd(s, side, e), Other(side), l);
            Faithful(s', Server, id) && Faithful(s', Client, id)
  {
    var s' := SetOut(SetEnd(s, side, e), Other(side), l);
    assert Faithful(s', side, id) && Faithful(s', Other(side), id);
  }

  lemma ReceiveOpened(s: State, id: u32, side: Side)
    requires Opened(s, id) && Enabled(s, Receive(side))
    ensures Opened(Next(s, Receive(side)), id)
  {
    var s' := Next(s, Receive(side));
    if side.Client? && Open(id) in s'.down.frames {
      var j :| 0 <= j < |s'.down.frames| && s'.down.frames[j] == Open(id);
      assert s.down.frames[j + 1] == Open(id);
    }
  }

  lemma FinishKeeps(s: State, id: u32, side: Side)
    requires Shape(s) && StreamInv(s, id) && Enabled(s, Finish(side))
    ensures StreamInv(Next(s, Finish(side)), id)
  {
    match End(s, side).hand
    case Deliver(_, _) => FinishDeliver(s, id, side);
    case Unregister(_) => FinishUnregister(s, id, side);
    case Reply(_) => FinishReply(s, id, side);
  }

  /** A change at one end that sends nothing concerns only what that end receives. */
  lemma SetEndFaithful(s: State, side: Side, e: Endpoint, id: u32)
    requires Faithful(s, Server, id) && Faithful(s, Client, id)
    requires e.sent == End(s, side).sent
    requires Delivery(History(End(s, Other(side)).sent, id), e, In(s, side), id)
    ensures Faithful(SetEnd(s, side, e), Server, id) && Faithful(SetEnd(s, side, e), Client, id)
  {
    var s' := SetEnd(s, side, e);
    assert Faithful(s', side, id) by {
      assert Faithful(s, side, id);
      assert End(s', Other(side)) == End(s, Other(side)) && Out(s', side) == Out(s, side);
    }
    assert Faithful(s', Other(side), id);
  }

  lemma FinishUnregister(s: State, id: u32, side: Side)
    requires StreamInv(s, id) && End(s, side).hand.Unregister?
    ensures StreamInv(Next(s, Finish(side)), id)
  {
    var e := End(s, side);
    var e' := e.(hand := Free, streams := e.streams - {e.hand.id});
    assert Faithful(s, Other(side), id);
    assert Held(e'.hand, id) == Held(e.hand, id) == [];
    SetEndFaithful(s, side, e', id);
    FinishUnregisterOpened(s, id, side);
  }

  lemma FinishUnregisterOpened(s: State, id: u32, side: Side)
    requires Opened(s, id) && End(s, side).hand.Unregister?
    ensures Opened(Next(s, Finish(side)), id)
  {
  }

  lemma FreeKeeps(s: State, id: u32, side: Side)
    requires StreamInv(s, id) && End(s, side).hand.Reply?
    ensures StreamInv(SetEnd(s, side, End(s, side).(hand := Free)), id)
  {
    var e := End(s, side);
    assert Faithful(s, Other(side), id);
    SetEndFaithful(s, side, e.(hand := Free), id);
  }

  lemma FinishReply(s: State, id: u32, side: Side)
    requires StreamInv(s, id) && End(s, side).hand.Reply? && HarmlessReply(End(s, side).hand)
    ensures StreamInv(Next(s, Finish(side)), id)
  {
    FreeKeeps(s, id, side);
    QueueKeeps(SetEnd(s, side, End(s, side).(hand := Free)), side, End(s, side).hand.frame, id);
  }

  lemma FinishDeliver(s: State, id: u32, side: Side)
    requires StreamInv(s, id) && End(s, side).hand.Deliver?
    ensures StreamInv(Next(s, Finish(side)), id)
  {
    assert Faithful(s, Other(side), id);
    DeliveryDeliver(History(End(s, Other(side)).sent, id), End(s, side), In(s, side), id);
    SetEndFaithful(s, side, Delivered(End(s, side)), id);
    FinishDeliverOpened(s, id, side);
  }

  lemma DeliveryDeliver(sent: seq<byte>, r: Endpoint, l: Link, id: u32)
    requires r.hand.Deliver? && Delivery(sent, r, l, id)
    ensures Delivery(sent, Delivered(r), l, id)
  {
    if id == r.hand.id {
      DeliveryFinish(sent, r, l, id, r.hand.payload);
    } else {
      assert History(Delivered(r).got, id) == History(r.got, id);
    }
  }

  lemma FinishDeliverOpened(s: State, id: u32, side: Side)
    requires Opened(s, id) && End(s, side).hand.Deliver?
    ensures Opened(Next(s, Finish(side)), id)
  {
  }

  lemma LoseKeeps(s: State, id: u32, side: Side, arriving: nat)
    requires Shape(s) && StreamInv(s, id) && Enabled(s, Lose(side, arriving))
    ensures StreamInv(Next(s, Lose(side, arriving)), id)
  {
    DeliveryLose(History(End(s, side).sent, id), End(s, Other(side)), Out(s, side), id, arriving);
    LoseOpened(s, id, side, arriving);
  }

  lemma LoseOpened(s: State, id: u32, side: Side, arriving: nat)
    requires Opened(s, id) && Enabled(s, Lose(side, arriving))
    ensures Opened(Next(s, Lose(side, arriving)), id)
  {
    PrefixFrames(Out(s, side).frames, arriving, id);
    InFlightPrefix(Out(s, side).frames, arriving, id);
  }

  lemma PrefixFrames(fs: seq<Frame>, k: nat, id: u32)
    requires k <= |fs|
    ensures NoData(fs, id) ==> NoData(fs[..k], id)
    ensures OpenFirst(fs, id) ==> OpenFirst(fs[..k], id)
    ensures Open(id) in fs[..k] ==> Open(id) in fs
  {
  }

  lemma EndOfInputKeeps(s: State, id: u32, side: Side, of: u32)
    requires StreamInv(s, id)
    ensures StreamInv(NextEndOfInput(s, side, of), id)
  {
    var e := End(s, side);
    var s' := SetEnd(s, side, e.(relays := e.relays - {of}, closing := e.closing + {of}));
    assert StreamInv(s', id);
    QueueKeeps(s', side, Close(of), id);
  }

  lemma EndOfRelayKeeps(s: State, id: u32, side: Side, of: u32)
    requires StreamInv(s, id)
    ensures StreamInv(NextEndOfRelay(s, side, of), id)
  {
    var e := End(s, side);
    var s' := SetEnd(s, side, e.(closing := e.closing - {of}));
    assert StreamInv(s', id);
    QueueKeeps(s', side, Close(of), id);
  }

  lemma StepKeeps(s: State, id: u32, step: Step)
    requires Shape(s) && StreamInv(s, id) && Enabled(s, step)
    ensures StreamInv(Next(s, step), id)
  {
    match step
    case Reserve => ReserveKeeps(s, id);
    case SendOpen(to) => SendOpenKeeps(s, id, to);
    case Send(side, to, payload) => SendKeeps(s, id, side, to, payload);
    case EndOfInput(side, of) => EndOfInputKeeps(s, id, side, of);
    case EndOfRelay(side, of) => EndOfRelayKeeps(s, id, side, of);
    case RelayError(side, of) => QuietKeeps(s, id, side, of);
    case DropReceiver(side, of) => QuietKeeps(s, id, side, of);
    case Probe(side) => QueueKeeps(s, side, Ping, id);
    case Receive(side) => ReceiveKeeps(s, id, side);
    case Finish(side) => FinishKeeps(s, id, side);
    case Exit(side) => ExitKeeps(s, id, side);
    case Lose(side, arriving) => LoseKeeps(s, id, side, arriving);
  }

  lemma QuietKeeps(s: State, id: u32, side: Side, of: u32)
    requires StreamInv(s, id)
    ensures var e := End(s, side);
            && StreamInv(SetEnd(s, side, e.(relays := e.relays - {of})), id)
            && StreamInv(SetEnd(s, side, e.(gone := e.gone + {of})), id)
  {
  }

  lemma ExitKeeps(s: State, id: u32, side: Side)
    requires StreamInv(s, id)
    ensures StreamInv(SetEnd(s, side, End(s, side).(running := false, streams := {})), id)
  {
  }

  lemma QueueShape(s: State, side: Side, f: Frame)
    requires Shape(s) && Fits(f)
    ensures Shape(Queue(s, side, f))
  {
  }

  lemma ShapeKeeps(s: State, step: Step)
    requires Shape(s) && Enabled(s, step)
    ensures Shape(Next(s, step))
  {
    match step
    case SendOpen(id) => QueueShape(s, Server, Open(id));
    case Send(side, id, payload) => QueueShape(s, side, Data(id, payload));
    case EndOfInput(side, id) => QueueShape(s, side, Close(id));
    case EndOfRelay(side, id) => QueueShape(s, side, Close(id));
    case Probe(side) => QueueShape(s, side, Ping);
    case Finish(side) => FinishShape(s, side);
    case _ =>
  }

  lemma FinishShape(s: State, side: Side)
    requires Shape(s) && Enabled(s, Finish(side))
    ensures Shape(Next(s, Finish(side)))
  {
    var e := End(s, side);
    if e.hand.Reply? {
      QueueShape(SetEnd(s, side, e.(hand := Free)), side, e.hand.frame);
    }
  }

  // ----- one frame handled to its end -----

  lemma SettleUnregister(s: State, side: Side)
    requires End(s, side).hand.Unregister?
    ensures var e := End(s, side);
            Settle(s, side) == SetEnd(s, side, e.(hand := Free, streams := e.streams - {e.hand.id}))
  {
    var e := End(s, side);
    var s' := SetEnd(s, side, e.(hand := Free, streams := e.streams - {e.hand.id}));
    assert Next(s, Finish(side)) == s';
    assert Settle(s', side) == s';
  }

  /** The receiver is gone: the stream is unregistered. */
  lemma SettleGone(s: State, side: Side)
    requires End(s, side).hand.Deliver? && End(s, side).hand.id in End(s, side).gone
    ensures var e := End(s, side);
            Settle(s, side) == SetEnd(s, side, e.(hand := Free, streams := e.streams - {e.hand.id}))
  {
    var e := End(s, side);
    var s' := SetEnd(s, side, e.(hand := Unregister(e.hand.id)));
    assert Next(s, Finish(side)) == s';
    SettleUnregister(s', side);
  }

  /** The payload goes into the stream's channel. */
  lemma SettleDelivered(s: State, side: Side)
    requires End(s, side).hand.Deliver? && End(s, side).hand.id !in End(s, side).gone
    ensures Settle(s, side) == SetEnd(s, side, Delivered(End(s, side)))
  {
    var s' := SetEnd(s, side, Delivered(End(s, side)));
    assert Next(s, Finish(side)) == s';
    assert Settle(s', side) == s';
  }

  /** An answer is queued. */
  lemma SettleReply(s: State, side: Side)
    requires End(s, side).hand.Reply? && HarmlessReply(End(s, side).hand)
    ensures Settle(s, side) == Queue(SetEnd(s, side, End(s, side).(hand := Free)), side, End(s, side).hand.frame)
  {
    var s' := Queue(SetEnd(s, side, End(s, side).(hand := Free)), side, End(s, side).hand.frame);
    assert Next(s, Finish(side)) == s';
    assert Settle(s', side) == s';
  }

  // ----- every run -----

  lemma {:induction false} Invariant(s: State, steps: seq<Step>)
    requires Inv(s) && Exec(s, steps).Some?
    ensures Inv(Exec(s, steps).value)
    decreases |steps|
  {
    if steps != [] {
      var s' := Next(s, steps[0]);
      ShapeKeeps(s, steps[0]);
      forall id: u32 ensures StreamInv(s', id) {
        StepKeeps(s, id, steps[0]);
      }
      Invariant(s', steps[1..]);
    }
  }

  lemma Reachable(steps: seq<Step>, id: u32)
    requires Exec(INIT, steps).Some?
    ensures Shape(Exec(INIT, steps).value) && StreamInv(Exec(INIT, steps).value, id)
  {
    InitInv();
    Invariant(INIT, steps);
  }

  lemma InitInv()
    ensures Inv(INIT)
  {
  }

  /**
   * In every run, on every stream and in both directions, the bytes handed to the receiving channel are a
   * prefix of the bytes sent; while the receiver has the stream registered and the link is up, delivered,
   * held and travelling bytes are together exactly the bytes sent.
   */
  lemma FaithfulDelivery(steps: seq<Step>, side: Side, id: u32)
    requires Exec(INIT, steps).Some?
    ensures var s := Exec(INIT, steps).value;
            var r := End(s, Other(side));
            var sent := History(End(s, side).sent, id);
            && History(r.got, id) <= sent
            && (Registered(r, id) && !Out(s, side).cut ==>
                  History(r.got, id) + Held(r.hand, id) + InFlight(Out(s, side).frames, id) == sent)
  {
    Reachable(steps, id);
    var s := Exec(INIT, steps).value;
    assert Faithful(s, Server, id) && Faithful(s, Client, id);
  }

  /** The client never registers or hears of a stream the server has not opened, and sends nothing on it. */
  lemma NothingBeforeOpen(steps: seq<Step>, id: u32)
    requires Exec(INIT, steps).Some?
    ensures var s := Exec(INIT, steps).value;
            Unopened(s, id) || Open(id) in s.down.frames ==>
              && id !in s.client.streams && id !in s.client.relays
              && History(s.client.sent, id) == [] && History(s.client.got, id) == []
  {
    Reachable(steps, id);
    assert Opened(Exec(INIT, steps).value, id);
  }

  // ----- handling the frames in flight terminates -----

  /** A frame is lighter than the frame it answers: Data may cause Close, Ping causes Pong. */
  function Weight(f: Frame): nat {
    if f.Data? || f.Ping? then 4 else 1
  }

  function LinkWork(fs: seq<Frame>): nat {
    if fs == [] then 0 else Weight(fs[0]) + LinkWork(fs[1..])
  }

  function HandWork(h: Hand): nat {
    match h
    case Free => 0
    case Deliver(_, _) => 2
    case Unregister(_) => 1
    case Reply(f) => Weight(f) + 1
  }

  /** Work left for the two reader loops when the relays stay silent. */
  function Work(s: State): nat {
    LinkWork(s.down.frames) + LinkWork(s.up.frames) + HandWork(s.server.hand) + HandWork(s.client.hand)
  }

  predicate ReaderStep(step: Step) {
    step.Receive? || step.Finish?
  }

  lemma {:induction false} LinkWorkQueue(fs: seq<Frame>, f: Frame)
    ensures LinkWork(fs + [f]) == LinkWork(fs) + Weight(f)
  {
    if fs == [] {
      assert fs + [f] == [f];
    } else {
      assert (fs + [f])[1..] == fs[1..] + [f];
      LinkWorkQueue(fs[1..], f);
    }
  }

  lemma ReaderStepDecreases(s: State, step: Step)
    requires Shape(s) && Enabled(s, step) && ReaderStep(step)
    ensures Work(Next(s, step)) < Work(s)
  {
    match step
    case Receive(side) => ReceiveDecreases(s, side);
    case Finish(side) => FinishDecreases(s, side);
  }

  lemma ReceiveDecreases(s: State, side: Side)
    requires Enabled(s, Receive(side))
    ensures Work(Next(s, Receive(side))) < Work(s)
  {
  }

  lemma FinishDecreases(s: State, side: Side)
    requires Shape(s) && Enabled(s, Finish(side))
    ensures Work(Next(s, Finish(side))) < Work(s)
  {
    var h := End(s, side).hand;
    if h.Reply? {
      LinkWorkQueue(Out(s, side).frames, h.frame);
    }
  }

  /** Without relay input no exchange of answers goes on: any run of the readers is bounded by the work at its start. */
  lemma {:induction false} ReadersTerminate(s: State, steps: seq<Step>)
    requires Shape(s) && Exec(s, steps).Some?
    requires forall i :: 0 <= i < |steps| ==> ReaderStep(steps[i])
    ensures |steps| + Work(Exec(s, steps).value) <= Work(s)
    decreases |steps|
  {
    if steps != [] {
      ShapeKeeps(s, steps[0]);
      ReaderStepDecreases(s, steps[0]);
      ReadersTerminate(Next(s, steps[0]), steps[1..]);
    }
  }

  /** The readers only stop when nothing is held and every link has been emptied or lost its reader. */
  lemma ReadersDrain(s: State)
    requires forall side :: !Enabled(s, Receive(side)) && !Enabled(s, Finish(side))
    ensures s.server.hand.Free? && s.client.hand.Free?
    ensures s.down.frames == [] || !s.client.running
    ensures s.up.frames == [] || !s.server.running
  {
    assert !Enabled(s, Receive(Server)) && !Enabled(s, Receive(Client));
    assert !Enabled(s, Finish(Server)) && !Enabled(s, Finish(Client));
  }
}

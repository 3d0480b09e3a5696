/**
 * The tcp_mux tunnel down to its bytes: frames wait in the frame channel, the writer task serialises them
 * onto the connection, the reader task parses them back, and the connection may be lost at any octet.
 * Every run of this system is shown to be a run of `MuxProtocol`.
 */
module MuxWire {
  import opened Bytes
  import opened MuxCodec
  import P = MuxProtocol

  datatype Pipe = Pipe(queue: seq<Frame>, wire: seq<byte>, cut: bool)

  datatype Tunnel = Tunnel(
    server: P.Endpoint,
    client: P.Endpoint,
    down: Pipe,
    up: Pipe,
    nextId: nat,
    opening: set<u32>)

  datatype Action =
    | Local(step: P.Step)                // any step that only queues frames
    | WriteOne(side: P.Side)             // the writer task takes one frame from the channel
    | Receive(side: P.Side)              // the reader task parses one frame
    | Exit(side: P.Side)                 // the reader task fails and clears the stream map
    | Break(side: P.Side, octets: nat)   // the connection dies, possibly inside a frame

  const IDLE := Tunnel(P.IDLE_END, P.IDLE_END, Pipe([], [], false), Pipe([], [], false), 1, {})

  function Out(t: Tunnel, side: P.Side): Pipe { if side.Server? then t.down else t.up }

  function In(t: Tunnel, side: P.Side): Pipe { Out(t, P.Other(side)) }

  function End(t: Tunnel, side: P.Side): P.Endpoint { if side.Server? then t.server else t.client }

  function SetOut(t: Tunnel, side: P.Side, p: Pipe): Tunnel {
    if side.Server? then t.(down := p) else t.(up := p)
  }

  function SetEnd(t: Tunnel, side: P.Side, e: P.Endpoint): Tunnel {
    if side.Server? then t.(server := e) else t.(client := e)
  }

  /** The tunnel as the relays see it: only the frame channels. */
  function Channels(t: Tunnel): P.State {
    P.State(t.server, t.client, P.Link(t.down.queue, t.down.cut), P.Link(t.up.queue, t.up.cut), t.nextId, t.opening)
  }

  function WithChannels(t: Tunnel, s: P.State): Tunnel {
    Tunnel(s.server, s.client, t.down.(queue := s.down.frames), t.up.(queue := s.up.frames), s.nextId, s.opening)
  }

  predicate LocalStep(step: P.Step) {
    !step.Receive? && !step.Exit? && !step.Lose?
  }

  predicate Enabled(t: Tunnel, a: Action) {
    match a
    case Local(step) => LocalStep(step) && P.Enabled(Channels(t), step)
    case WriteOne(side) => Out(t, side).queue != [] && !Out(t, side).cut
    case Receive(side) => End(t, side).running && End(t, side).hand.Free? && Read(In(t, side).wire).Got?
    case Exit(side) =>
      var r := Read(In(t, side).wire);
      End(t, side).running && End(t, side).hand.Free? && (r.Bad? || (r.Eof? && In(t, side).cut))
    case Break(side, octets) => !Out(t, side).cut && octets <= |Reaching(Out(t, side))|
  }

  /** All that the writer may have put on the connection when it dies. */
  function Reaching(p: Pipe): seq<byte> {
    p.wire + WriteAll(p.queue)
  }

  function Next(t: Tunnel, a: Action): Tunnel
    requires Enabled(t, a)
  {
    match a
    case Local(step) => WithChannels(t, P.Next(Channels(t), step))
    case WriteOne(side) =>
      var p := Out(t, side);
      SetOut(t, side, p.(queue := p.queue[1..], wire := p.wire + Write(p.queue[0])))
    case Receive(side) =>
      var p := In(t, side);
      var Got(f, rest) := Read(p.wire);
      SetOut(SetEnd(t, side, P.Take(End(t, side), side, f)), P.Other(side), p.(wire := rest))
    case Exit(side) => SetEnd(t, side, End(t, side).(running := false, streams := {}))
    case Break(side, octets) => SetOut(t, side, Pipe([], Reaching(Out(t, side))[..octets], true))
  }

  function Exec(t: Tunnel, acts: seq<Action>): (r: Option<Tunnel>)
    decreases |acts|
  {
    if acts == [] then Some(t)
    else if Enabled(t, acts[0]) then Exec(Next(t, acts[0]), acts[1..])
    else None
  }

  // ----- refinement of the frame-level protocol -----

  /** The frames a pipe still delivers. */
  function Frames(p: Pipe): P.Link {
    P.Link(ReadAll(p.wire) + p.queue, p.cut)
  }

  function Abs(t: Tunnel): P.State {
    P.State(t.server, t.client, Frames(t.down), Frames(t.up), t.nextId, t.opening)
  }

  predicate PipeOk(p: Pipe) {
    && ReadEnd(p.wire) == Eof
    && AllFit(p.queue)
    && if p.cut then p.queue == [] else p.wire == WriteAll(ReadAll(p.wire))
  }

  predicate Ok(t: Tunnel) {
    PipeOk(t.down) && PipeOk(t.up) && P.Shape(Abs(t))
  }

  /** The protocol step an action performs, if any. */
  function Image(t: Tunnel, a: Action): (steps: seq<P.Step>)
    requires Enabled(t, a)
  {
    match a
    case Local(step) => [step]
    case WriteOne(_) => []
    case Receive(side) => [P.Receive(side)]
    case Exit(side) => [P.Exit(side)]
    case Break(side, octets) => [P.Lose(side, |ReadAll(Reaching(Out(t, side))[..octets])|)]
  }

  /** Puts frames in front of both links. */
  function Ahead(s: P.State, down: seq<Frame>, up: seq<Frame>): P.State {
    s.(down := s.down.(frames := down + s.down.frames), up := s.up.(frames := up + s.up.frames))
  }

  lemma QueueAhead(s: P.State, side: P.Side, f: Frame, down: seq<Frame>, up: seq<Frame>)
    ensures P.Queue(Ahead(s, down, up), side, f) == Ahead(P.Queue(s, side, f), down, up)
  {
    assert down + (s.down.frames + [f]) == (down + s.down.frames) + [f];
    assert up + (s.up.frames + [f]) == (up + s.up.frames) + [f];
  }

  /** A local step does not look at the frames already travelling. */
  lemma LocalAhead(s: P.State, step: P.Step, down: seq<Frame>, up: seq<Frame>)
    requires LocalStep(step) && P.Enabled(s, step)
    ensures P.Enabled(Ahead(s, down, up), step)
    ensures P.Next(Ahead(s, down, up), step) == Ahead(P.Next(s, step), down, up)
  {
    match step
    case SendOpen(id) =>
      var s1 := s.(opening := s.opening - {id}, server := s.server.(relays := s.server.relays + {id}));
      QueueAhead(s1, P.Server, Open(id), down, up);
    case Send(side, id, payload) =>
      var e := P.End(s, side);
      var s1 := P.SetEnd(s, side, e.(sent := e.sent[id := P.History(e.sent, id) + payload]));
      QueueAhead(s1, side, Data(id, payload), down, up);
    case EndOfInput(side, id) =>
      var e := P.End(s, side);
      QueueAhead(P.SetEnd(s, side, e.(relays := e.relays - {id}, closing := e.closing + {id})), side, Close(id), down, up);
    case EndOfRelay(side, id) =>
      var e := P.End(s, side);
      QueueAhead(P.SetEnd(s, side, e.(closing := e.closing - {id})), side, Close(id), down, up);
    case Probe(side) => QueueAhead(s, side, Ping, down, up);
    case Finish(side) =>
      var e := P.End(s, side);
      if e.hand.Reply? {
        QueueAhead(P.SetEnd(s, side, e.(hand := P.Free)), side, e.hand.frame, down, up);
      }
    case _ =>
  }

  lemma AppendWritten(s: seq<byte>, f: Frame)
    requires ReadEnd(s) == Eof && s == WriteAll(ReadAll(s)) && Fits(f)
    ensures ReadAll(s + Write(f)) == ReadAll(s) + [f] && ReadEnd(s + Write(f)) == Eof
    ensures s + Write(f) == WriteAll(ReadAll(s) + [f])
  {
    var fs := ReadAll(s);
    ReadAllOnto(s);
    WriteAllAppend(fs, [f]);
    assert WriteAll([f]) == Write(f) + WriteAll([]) == Write(f);
    ReadAllWriteAll(fs + [f]);
  }

  /** The writer task moves a frame from the channel to the connection and nothing else changes. */
  lemma WriteOneFrames(p: Pipe)
    requires PipeOk(p) && p.queue != [] && !p.cut
    ensures var p' := p.(queue := p.queue[1..], wire := p.wire + Write(p.queue[0]));
            PipeOk(p') && Frames(p') == Frames(p)
  {
    AppendWritten(p.wire, p.queue[0]);
    Regroup(ReadAll(p.wire), p.queue);
  }

  /** A connection lost at any octet delivers a prefix of the frames it would have carried. */
  lemma BreakFrames(p: Pipe, octets: nat)
    requires PipeOk(p) && !p.cut && octets <= |Reaching(p)|
    ensures PipeOk(Pipe([], Reaching(p)[..octets], true))
    ensures ReadAll(Reaching(p)[..octets]) <= Frames(p).frames
  {
    ReadAllOnto(p.wire);
    WriteAllAppend(ReadAll(p.wire), p.queue);
    Truncation(ReadAll(p.wire) + p.queue, octets);
  }

  lemma ReceiveFrames(p: Pipe)
    requires PipeOk(p) && Read(p.wire).Got?
    ensures Frames(p).frames != [] && Frames(p).frames[0] == Read(p.wire).frame
    ensures var p' := p.(wire := Read(p.wire).rest);
            PipeOk(p') && Frames(p') == Frames(p).(frames := Frames(p).frames[1..])
  {
    ReadOk(p.wire);
    var Got(f, rest) := Read(p.wire);
    assert ([f] + ReadAll(rest) + p.queue)[1..] == ReadAll(rest) + p.queue;
    if !p.cut {
      assert Write(f) + rest == Write(f) + WriteAll(ReadAll(rest));
      assert rest == p.wire[|Write(f)|..];
    }
  }

  lemma LocalRefines(t: Tunnel, step: P.Step)
    requires Ok(t) && Enabled(t, Local(step))
    ensures P.Enabled(Abs(t), step) && Abs(Next(t, Local(step))) == P.Next(Abs(t), step)
    ensures PipeOk(Next(t, Local(step)).down) && PipeOk(Next(t, Local(step)).up)
  {
    var d, u := ReadAll(t.down.wire), ReadAll(t.up.wire);
    LocalAhead(Channels(t), step, d, u);
    assert Abs(t) == Ahead(Channels(t), d, u);
    P.ShapeKeeps(Abs(t), step);
    LocalQueues(Channels(t), step);
    var s', t' := P.Next(Channels(t), step), Next(t, Local(step));
    AllFitSuffix(d, t'.down.queue);
    AllFitSuffix(u, t'.up.queue);
  }

  lemma AllFitSuffix(a: seq<Frame>, b: seq<Frame>)
    requires AllFit(a + b)
    ensures AllFit(b)
  {
    assert forall i :: 0 <= i < |b| ==> b[i] == (a + b)[|a| + i];
  }

  /** Local steps leave links up or down as they are and add nothing to a lost one. */
  lemma LocalQueues(s: P.State, step: P.Step)
    requires LocalStep(step) && P.Enabled(s, step)
    ensures var s' := P.Next(s, step);
            && s'.down.cut == s.down.cut && (s.down.cut ==> s'.down == s.down)
            && s'.up.cut == s.up.cut && (s.up.cut ==> s'.up == s.up)
  {
  }

  lemma ReceiveRefines(t: Tunnel, side: P.Side)
    requires Ok(t) && Enabled(t, Receive(side))
    ensures var t' := Next(t, Receive(side));
            && PipeOk(t'.down) && PipeOk(t'.up)
            && P.Enabled(Abs(t), P.Receive(side)) && P.Next(Abs(t), P.Receive(side)) == Abs(t')
  {
    ReceiveFrames(In(t, side));
  }

  lemma BreakRefines(t: Tunnel, side: P.Side, octets: nat)
    requires Ok(t) && Enabled(t, Break(side, octets))
    ensures var t', step := Next(t, Break(side, octets)), Image(t, Break(side, octets))[0];
            && PipeOk(t'.down) && PipeOk(t'.up)
            && P.Enabled(Abs(t), step) && P.Next(Abs(t), step) == Abs(t')
  {
    BreakFrames(Out(t, side), octets);
  }

  lemma ExitRefines(t: Tunnel, side: P.Side)
    requires Ok(t) && Enabled(t, Exit(side))
    ensures P.Enabled(Abs(t), P.Exit(side)) && P.Next(Abs(t), P.Exit(side)) == Abs(Next(t, Exit(side)))
  {
    assert PipeOk(In(t, side));
  }

  lemma ActionRefines(t: Tunnel, a: Action)
    requires Ok(t) && Enabled(t, a)
    ensures Ok(Next(t, a))
    ensures P.Exec(Abs(t), Image(t, a)) == Some(Abs(Next(t, a)))
  {
    match a
    case WriteOne(side) => WriteOneFrames(Out(t, side));
    case Local(step) => LocalRefines(t, step); ExecOne(Abs(t), step);
    case Receive(side) => ReceiveRefines(t, side); ExecOne(Abs(t), P.Receive(side));
    case Exit(side) => ExitRefines(t, side); ExecOne(Abs(t), P.Exit(side));
    case Break(side, octets) => BreakRefines(t, side, octets); ExecOne(Abs(t), Image(t, a)[0]);
  }

  lemma ExecOne(s: P.State, step: P.Step)
    requires P.Shape(s) && P.Enabled(s, step)
    ensures P.Exec(s, [step]) == Some(P.Next(s, step)) && P.Shape(P.Next(s, step))
  {
    P.ShapeKeeps(s, step);
    assert [step][1..] == [];
    assert P.Exec(P.Next(s, step), []) == Some(P.Next(s, step));
  }

  /** The protocol run behind a tunnel run. */
  function Images(t: Tunnel, acts: seq<Action>): (steps: seq<P.Step>)
    requires Exec(t, acts).Some?
    decreases |acts|
  {
    if acts == [] then [] else Image(t, acts[0]) + Images(Next(t, acts[0]), acts[1..])
  }

  lemma {:induction false} ExecConcat(s: P.State, a: seq<P.Step>, b: seq<P.Step>)
    requires P.Exec(s, a).Some?
    ensures P.Exec(s, a + b) == P.Exec(P.Exec(s, a).value, b)
    decreases |a|
  {
    if a == [] {
      assert a + b == b;
    } else {
      assert (a + b)[1..] == a[1..] + b;
      ExecConcat(P.Next(s, a[0]), a[1..], b);
    }
  }

  /** Every run over bytes is a run over frames with the same endpoints. */
  lemma {:induction false} Refinement(t: Tunnel, acts: seq<Action>)
    requires Ok(t) && Exec(t, acts).Some?
    ensures Ok(Exec(t, acts).value)
    ensures P.Exec(Abs(t), Images(t, acts)) == Some(Abs(Exec(t, acts).value))
    decreases |acts|
  {
    if acts != [] {
      ActionRefines(t, acts[0]);
      var t' := Next(t, acts[0]);
      Refinement(t', acts[1..]);
      ExecConcat(Abs(t), Image(t, acts[0]), Images(t', acts[1..]));
    }
  }

  /**
   * In every run of the tunnel over its two byte streams, whatever the interleaving and wherever the
   * connection breaks, each stream delivers a prefix of what was sent on it, in both directions.
   */
  lemma FaithfulOverBytes(acts: seq<Action>, side: P.Side, id: u32)
    requires Exec(IDLE, acts).Some?
    ensures var t := Exec(IDLE, acts).value;
            P.History(End(t, P.Other(side)).got, id) <= P.History(End(t, side).sent, id)
  {
    IdleOk();
    Refinement(IDLE, acts);
    P.FaithfulDelivery(Images(IDLE, acts), side, id);
  }

  lemma IdleOk()
    ensures Ok(IDLE) && Abs(IDLE) == P.INIT
  {
    assert ReadAll([]) == [];
  }

  /** In every run the reader loops only ever stop at the end of a lost connection, never on a protocol error. */
  lemma NeverProtocolError(acts: seq<Action>, side: P.Side)
    requires Exec(IDLE, acts).Some?
    ensures var p := Out(Exec(IDLE, acts).value, side);
            !Read(p.wire).Bad? && (!p.cut && p.wire != [] ==> Read(p.wire).Got?)
  {
    IdleOk();
    Refinement(IDLE, acts);
    var p := Out(Exec(IDLE, acts).value, side);
    assert PipeOk(p);
    assert ReadAll(p.wire) == [] ==> WriteAll(ReadAll(p.wire)) == [];
  }
}

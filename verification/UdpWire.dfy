/**
 * The udp tunnel down to its bytes: frames wait to be written, are serialised onto the connection one by one and
 * parsed back, and the connection may be lost at any octet in either direction. Every run of this system is
 * simulated by a run of `UdpTunnel`, so what holds of the answers there holds over bytes.
 */
module UdpWire {
  import opened Bytes
  import opened UdpCodec
  import U = UdpTunnel

  datatype Pipe = Pipe(queue: seq<Frame>, wire: seq<byte>, cut: bool)

  /** `core` is everything but the two directions of the connection; its own channels stay empty. */
  datatype Tunnel = Tunnel(core: U.State, down: Pipe, up: Pipe)

  datatype Action =
    | Local(step: U.Step)                  // a step that at most queues frames
    | WriteOne(toClient: bool)             // one frame is written onto the connection
    | ClientTakes                          // the client parses one frame
    | ServerTakes                          // the server's reader parses one frame
    | ReaderFails                          // the server's reader stops and clears the pending map
    | Break(toClient: bool, octets: nat)   // one direction dies, possibly inside a frame

  function Idle(): Tunnel {
    Tunnel(U.Init(), Pipe([], [], false), Pipe([], [], false))
  }

  function Out(t: Tunnel, toClient: bool): Pipe { if toClient then t.down else t.up }

  function SetOut(t: Tunnel, toClient: bool, p: Pipe): Tunnel {
    if toClient then t.(down := p) else t.(up := p)
  }

  predicate LocalStep(step: U.Step) {
    !step.ServerTake? && !step.ClientTake? && !step.ReaderExits?
  }

  /** A frame for a lost direction goes nowhere. */
  function Offer(p: Pipe, fs: seq<Frame>): Pipe {
    if p.cut then p else p.(queue := p.queue + fs)
  }

  /** The outcome of a step on the core alone: the frames it emits go into the pipes. */
  function Emit(t: Tunnel, x: U.State): Tunnel {
    Tunnel(x.(down := [], up := []), Offer(t.down, x.down), Offer(t.up, x.up))
  }

  predicate Enabled(c: U.Coding, t: Tunnel, a: Action) {
    match a
    case Local(step) => LocalStep(step) && U.Enabled(c, t.core, step)
    case WriteOne(d) => Out(t, d).queue != [] && !Out(t, d).cut && Write(Out(t, d).queue[0]).Some?
    case ClientTakes => Read(t.down.wire).Got? && U.Enabled(c, t.core.(down := [Read(t.down.wire).frame]), U.ClientTake)
    case ServerTakes => Read(t.up.wire).Got? && U.Enabled(c, t.core.(up := [Read(t.up.wire).frame]), U.ServerTake)
    case ReaderFails => t.core.reading && (Read(t.up.wire).Bad? || (Read(t.up.wire).Eof? && t.up.cut))
    case Break(d, octets) => !Out(t, d).cut && AllFit(Out(t, d).queue) && octets <= |Reaching(Out(t, d))|
  }

  /** All that may have been put on the connection when it dies. */
  function Reaching(p: Pipe): seq<byte>
    requires AllFit(p.queue)
  {
    p.wire + WriteAll(p.queue)
  }

  function Next(c: U.Coding, t: Tunnel, a: Action): Tunnel
    requires Enabled(c, t, a)
  {
    match a
    case Local(step) => Emit(t, U.Next(c, t.core, step))
    case WriteOne(d) =>
      var p := Out(t, d);
      SetOut(t, d, p.(queue := p.queue[1..], wire := p.wire + Write(p.queue[0]).value))
    case ClientTakes =>
      var Got(f, rest) := Read(t.down.wire);
      Emit(t.(down := t.down.(wire := rest)), U.Next(c, t.core.(down := [f]), U.ClientTake))
    case ServerTakes =>
      var Got(f, rest) := Read(t.up.wire);
      Emit(t.(up := t.up.(wire := rest)), U.Next(c, t.core.(up := [f]), U.ServerTake))
    case ReaderFails => t.(core := U.Next(c, t.core, U.ReaderExits))
    case Break(d, octets) => SetOut(t, d, Pipe([], Reaching(Out(t, d))[..octets], true))
  }

  ghost predicate Run(c: U.Coding, t: Tunnel, acts: seq<Action>)
    decreases |acts|
  {
    acts != [] ==> Enabled(c, t, acts[0]) && Run(c, Next(c, t, acts[0]), acts[1..])
  }

  ghost function Exec(c: U.Coding, t: Tunnel, acts: seq<Action>): Tunnel
    requires Run(c, t, acts)
    decreases |acts|
  {
    if acts == [] then t else Exec(c, Next(c, t, acts[0]), acts[1..])
  }

  // ----- simulation by the frame-level protocol

  /** The pipe still delivers the frames `fs`, or a prefix of them once it is cut. */
  predicate Covers(p: Pipe, fs: seq<Frame>) {
    if p.cut then p.queue == [] && ReadAll(p.wire) <= fs else ReadAll(p.wire) + p.queue == fs
  }

  predicate PipeOk(p: Pipe) {
    && ReadEnd(p.wire) == Eof
    && (!p.cut ==> AllFit(ReadAll(p.wire)) && p.wire == WriteAll(ReadAll(p.wire)))
  }

  predicate Carries(p: Pipe, fs: seq<Frame>) {
    Covers(p, fs) && PipeOk(p)
  }

  /** The tunnel and the protocol agree on everything but where the frames are. */
  ghost predicate Related(t: Tunnel, s: U.State) {
    t.core == s.(down := [], up := []) && Carries(t.down, s.down) && Carries(t.up, s.up)
  }

  lemma OfferCarries(p: Pipe, fs: seq<Frame>, more: seq<Frame>)
    requires Carries(p, fs)
    ensures Carries(Offer(p, more), fs + more)
  {
    if !p.cut {
      assert (ReadAll(p.wire) + p.queue) + more == ReadAll(p.wire) + (p.queue + more);
    }
  }

  lemma TakeCarries(p: Pipe, fs: seq<Frame>)
    requires Carries(p, fs) && Read(p.wire).Got?
    ensures fs != [] && fs[0] == Read(p.wire).frame
    ensures Carries(p.(wire := Read(p.wire).rest), fs[1..])
  {
    var Got(f, rest) := Read(p.wire);
    ReadOk(p.wire);
    assert ReadAll(p.wire) == [f] + ReadAll(rest);
    if p.cut {
      assert fs[0] == f;
    } else {
      assert fs == [f] + (ReadAll(rest) + p.queue);
      assert ReadAll(p.wire)[1..] == ReadAll(rest);
      assert AllFit(ReadAll(rest)) by {
        assert forall i :: 0 <= i < |ReadAll(rest)| ==> ReadAll(rest)[i] == ReadAll(p.wire)[i + 1];
      }
      assert Write(f).value + rest == Write(f).value + WriteAll(ReadAll(rest));
      assert rest == p.wire[|Write(f).value|..];
    }
  }

  /** Writing a queued frame moves it onto the connection and changes nothing else. */
  lemma WriteCarries(p: Pipe, fs: seq<Frame>)
    requires Carries(p, fs) && AllFit(fs) && p.queue != [] && !p.cut
    ensures Write(p.queue[0]).Some?
    ensures Carries(p.(queue := p.queue[1..], wire := p.wire + Write(p.queue[0]).value), fs)
  {
    var f, sent := p.queue[0], ReadAll(p.wire);
    assert f == fs[|sent|];
    AppendWritten(p.wire, sent, f);
    Regroup(sent, p.queue);
  }

  lemma AppendWritten(wire: seq<byte>, sent: seq<Frame>, f: Frame)
    requires AllFit(sent) && wire == WriteAll(sent) && Fits(f) && IsString(f)
    ensures Write(f).Some? && ReadAll(wire + Write(f).value) == sent + [f] && ReadEnd(wire + Write(f).value) == Eof
    ensures AllFit(sent + [f]) && wire + Write(f).value == WriteAll(sent + [f])
  {
    var one := [f];
    WriteAllAppend(sent, one);
    assert WriteAll(one) == Write(f).value + WriteAll(one[1..]) == Write(f).value;
    WrittenReads(sent + one);
  }

  /** A direction lost at any octet delivers a prefix of the frames it would have carried. */
  lemma BreakCarries(p: Pipe, fs: seq<Frame>, octets: nat)
    requires Carries(p, fs) && AllFit(fs) && !p.cut && AllFit(p.queue) && octets <= |Reaching(p)|
    ensures Carries(Pipe([], Reaching(p)[..octets], true), fs)
  {
    WriteAllAppend(ReadAll(p.wire), p.queue);
    Truncation(fs, octets);
  }

  /** A local step does not look at the frames travelling. */
  lemma LocalAnywhere(c: U.Coding, core: U.State, step: U.Step, d: seq<Frame>, u: seq<Frame>)
    requires core.down == [] && core.up == [] && LocalStep(step) && U.Enabled(c, core, step)
    ensures U.Enabled(c, core.(down := d, up := u), step)
    ensures var x := U.Next(c, core, step);
            U.Next(c, core.(down := d, up := u), step) == x.(down := d + x.down, up := u + x.up)
  {
    assert d + [] == d && u + [] == u;
  }

  lemma ClientTakeAnywhere(c: U.Coding, core: U.State, d: seq<Frame>, u: seq<Frame>)
    requires core.down == [] && core.up == [] && d != [] && U.Enabled(c, core.(down := [d[0]]), U.ClientTake)
    ensures U.Enabled(c, core.(down := d, up := u), U.ClientTake)
    ensures var x := U.Next(c, core.(down := [d[0]]), U.ClientTake);
            x.down == [] && U.Next(c, core.(down := d, up := u), U.ClientTake) == x.(down := d[1..], up := u + x.up)
  {
    assert u + [] == u;
  }

  lemma ServerTakeAnywhere(c: U.Coding, core: U.State, d: seq<Frame>, u: seq<Frame>)
    requires core.down == [] && core.up == [] && u != [] && U.Enabled(c, core.(up := [u[0]]), U.ServerTake)
    ensures U.Enabled(c, core.(down := d, up := u), U.ServerTake)
    ensures var x := U.Next(c, core.(up := [u[0]]), U.ServerTake);
            x.up == [] && U.Next(c, core.(down := d, up := u), U.ServerTake) == x.(down := d + x.down, up := u[1..])
  {
    assert d + [] == d;
  }

  lemma LocalSimulates(c: U.Coding, t: Tunnel, s: U.State, step: U.Step)
    requires Related(t, s) && Enabled(c, t, Local(step))
    ensures U.Enabled(c, s, step) && Related(Next(c, t, Local(step)), U.Next(c, s, step))
  {
    LocalAnywhere(c, t.core, step, s.down, s.up);
    assert s == t.core.(down := s.down, up := s.up);
    var x := U.Next(c, t.core, step);
    OfferCarries(t.down, s.down, x.down);
    OfferCarries(t.up, s.up, x.up);
  }

  lemma ClientSimulates(c: U.Coding, t: Tunnel, s: U.State)
    requires Related(t, s) && Enabled(c, t, ClientTakes)
    ensures U.Enabled(c, s, U.ClientTake) && Related(Next(c, t, ClientTakes), U.Next(c, s, U.ClientTake))
  {
    TakeCarries(t.down, s.down);
    ClientTakeAnywhere(c, t.core, s.down, s.up);
    assert s == t.core.(down := s.down, up := s.up);
    var x := U.Next(c, t.core.(down := [s.down[0]]), U.ClientTake);
    OfferCarries(t.down.(wire := Read(t.down.wire).rest), s.down[1..], []);
    OfferCarries(t.up, s.up, x.up);
    assert s.down[1..] + [] == s.down[1..];
  }

  lemma ServerSimulates(c: U.Coding, t: Tunnel, s: U.State)
    requires Related(t, s) && Enabled(c, t, ServerTakes)
    ensures U.Enabled(c, s, U.ServerTake) && Related(Next(c, t, ServerTakes), U.Next(c, s, U.ServerTake))
  {
    TakeCarries(t.up, s.up);
    ServerTakeAnywhere(c, t.core, s.down, s.up);
    assert s == t.core.(down := s.down, up := s.up);
    var x := U.Next(c, t.core.(up := [s.up[0]]), U.ServerTake);
    OfferCarries(t.up.(wire := Read(t.up.wire).rest), s.up[1..], []);
    OfferCarries(t.down, s.down, x.down);
    assert s.up[1..] + [] == s.up[1..];
  }

  /** The protocol step an action performs, if any. */
  function Image(a: Action): seq<U.Step> {
    match a
    case Local(step) => [step]
    case ClientTakes => [U.ClientTake]
    case ServerTakes => [U.ServerTake]
    case ReaderFails => [U.ReaderExits]
    case WriteOne(_) => []
    case Break(_, _) => []
  }

  lemma OneStep(c: U.Coding, s: U.State, step: U.Step)
    requires U.Enabled(c, s, step)
    ensures U.Run(c, s, [step]) && U.Exec(c, s, [step]) == U.Next(c, s, step)
  {
    U.ExecMore(c, s, step, []);
    assert [step] + [] == [step];
  }

  /** Writing and breaking are silent: the protocol does not move. */
  lemma SilentSimulates(c: U.Coding, t: Tunnel, s: U.State, a: Action)
    requires Related(t, s) && AllFit(s.down) && AllFit(s.up) && Enabled(c, t, a) && (a.WriteOne? || a.Break?)
    ensures Related(Next(c, t, a), s)
  {
    var fs := if a.toClient then s.down else s.up;
    match a
    case WriteOne(d) => WriteCarries(Out(t, d), fs);
    case Break(d, octets) => BreakCarries(Out(t, d), fs, octets);
  }

  lemma ActionSimulates(c: U.Coding, t: Tunnel, s: U.State, a: Action)
    requires Related(t, s) && AllFit(s.down) && AllFit(s.up) && Enabled(c, t, a)
    ensures U.Run(c, s, Image(a)) && Related(Next(c, t, a), U.Exec(c, s, Image(a)))
  {
    match a
    case Local(step) => LocalSimulates(c, t, s, step); OneStep(c, s, step);
    case ClientTakes => ClientSimulates(c, t, s); OneStep(c, s, U.ClientTake);
    case ServerTakes => ServerSimulates(c, t, s); OneStep(c, s, U.ServerTake);
    case ReaderFails => OneStep(c, s, U.ReaderExits);
    case WriteOne(_) => SilentSimulates(c, t, s, a);
    case Break(_, _) => SilentSimulates(c, t, s, a);
  }

  function Images(acts: seq<Action>): seq<U.Step> {
    if acts == [] then [] else Image(acts[0]) + Images(acts[1..])
  }

  /** Every run over bytes is simulated by a run over frames, wherever and in whichever direction the connection breaks. */
  lemma {:induction false} Simulation(c: U.Coding, t: Tunnel, s: U.State, acts: seq<Action>)
    requires U.Lawful(c) && U.Inv(c, s) && Related(t, s) && Run(c, t, acts)
    ensures U.Run(c, s, Images(acts)) && Related(Exec(c, t, acts), U.Exec(c, s, Images(acts)))
    decreases |acts|
  {
    if acts != [] {
      ActionSimulates(c, t, s, acts[0]);
      U.RunKeeps(c, s, Image(acts[0]));
      Simulation(c, Next(c, t, acts[0]), U.Exec(c, s, Image(acts[0])), acts[1..]);
      U.ExecConcat(c, s, Image(acts[0]), Images(acts[1..]));
    }
  }

  lemma FromIdle(c: U.Coding, acts: seq<Action>) returns (s: U.State)
    requires U.Lawful(c) && Run(c, Idle(), acts)
    ensures U.Run(c, U.Init(), Images(acts)) && s == U.Exec(c, U.Init(), Images(acts))
    ensures Related(Exec(c, Idle(), acts), s)
  {
    U.InitInv(c);
    assert ReadAll([]) == [] && ReadEnd([]) == Eof;
    assert Related(Idle(), U.Init());
    Simulation(c, Idle(), U.Init(), acts);
    s := U.Exec(c, U.Init(), Images(acts));
  }

  /**
   * Over bytes, too, and wherever the connection breaks: a payload handed back to a user goes where its packet came
   * from, the service was sent exactly that packet, the payload is datagram k if the request was the k-th taken up,
   * and it is the request's own answer if datagram k was sent for it, and only then where datagrams can be told apart.
   */
  lemma AnswersOverBytes(c: U.Coding, acts: seq<Action>, i: nat) returns (k: nat)
    requires U.Lawful(c) && Run(c, Idle(), acts) && i < |Exec(c, Idle(), acts).core.delivered|
    ensures var s := Exec(c, Idle(), acts).core;
            var d := s.delivered[i];
            && d.id in s.requests && d.src == s.requests[d.id].src
            && d.id in s.asked && s.asked[d.id] == s.requests[d.id].packet
            && k < |s.order| && k < |s.replies| && s.order[k] == d.id && s.replies[k].data == d.data
            && (U.InStep(s, k) ==> U.Own(s, d))
            && (U.Telling(s.replies) ==> (U.Own(s, d) <==> U.InStep(s, k)))
            && (U.Disciplined(s.replies) ==> U.Own(s, d))
            && (forall j :: 0 <= j < |s.delivered| && j != i ==> s.delivered[j].id != d.id)
  {
    var s := FromIdle(c, acts);
    k := U.OwnAnswerIff(c, Images(acts), i);
    if U.Disciplined(s.replies) { U.OwnAnswer(c, Images(acts), i); }
    forall j: nat | j < |s.delivered| && j != i ensures s.delivered[j].id != s.delivered[i].id {
      U.AtMostOnce(c, Images(acts), if i < j then i else j, if i < j then j else i);
    }
  }

  /** No run makes either reader see a protocol error; on a live direction what has arrived always parses. */
  lemma NeverProtocolError(c: U.Coding, acts: seq<Action>, toClient: bool)
    requires U.Lawful(c) && Run(c, Idle(), acts)
    ensures var p := Out(Exec(c, Idle(), acts), toClient);
            !Read(p.wire).Bad? && (!p.cut && p.wire != [] ==> Read(p.wire).Got?)
  {
    var s := FromIdle(c, acts);
    var p := Out(Exec(c, Idle(), acts), toClient);
    assert PipeOk(p);
    assert ReadAll(p.wire) == [] ==> WriteAll(ReadAll(p.wire)) == [];
  }
}

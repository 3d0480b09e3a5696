/**
 * XTCP coordination: a visitor asks for a proxy by name, its request waits under the visitor's address,
 * and the owner's response to that address is passed on to the visitor: crates/arp-server/src/nathole.rs.
 *
 * The tables are shared by all sessions. One access to a table is one step, so handlers of different
 * sessions interleave freely.
 */
module NatHole {
  import opened Bytes
  import opened Text

  const EVENT_CAPACITY: nat := 32

  datatype Owner = Owner(runId: string, sk: string, relayAddr: string)
  datatype VisitorMsg = VisitorMsg(proxyName: string, signedMsg: string)
  datatype RespMsg = RespMsg(visitorAddr: string, clientAddr: string, relayAddr: string, error: string)
  datatype PendingVisitor = PendingVisitor(runId: string, proxyName: string, relayAddr: string)
  datatype Event = Event(stage: string, proxyName: string, visitorRun: string, ownerRun: string,
                         visitorAddr: string, clientAddr: string, relayAddr: string, error: string)

  /** What a handler looks up elsewhere: registered xtcp proxies, peer addresses of sessions, address rewriting. */
  datatype Env = Env(owners: map<string, Owner>, peers: map<string, string>, normalize: (string, string) -> string)

  function Normalized(env: Env, runId: string, addr: string): string {
    if runId in env.peers then env.normalize(addr, env.peers[runId]) else addr
  }

  // ----- the signed message "<sk>|<visitor_addr>"

  datatype Signed = Signed(sk: string, addr: string) | NoSeparator | EmptySk | EmptyAddr

  function ParseSigned(s: string): Signed {
    match SplitOnce(s, '|')
    case None => NoSeparator
    case Some((sk, addr)) =>
      if Trim(sk) == [] then EmptySk
      else if Trim(addr) == [] then EmptyAddr
      else Signed(Trim(sk), Trim(addr))
  }

  lemma {:induction false} TrimKeepsOut(s: string, c: char)
    requires c !in s
    ensures c !in Trim(s)
    decreases |s|
  {
    if s != [] {
      if White(s[0]) {
        TrimKeepsOut(s[1..], c);
      } else if White(s[|s| - 1]) {
        TrimKeepsOut(s[..|s| - 1], c);
      }
    }
  }

  /** A key can be presented in a signed message exactly when it is non-empty, has no '|' and no white space at its ends. */
  lemma PresentableKeys(sk: string)
    ensures (exists s :: ParseSigned(s).Signed? && ParseSigned(s).sk == sk) <==> sk != [] && '|' !in sk && Trim(sk) == sk
  {
    forall s | ParseSigned(s).Signed? && ParseSigned(s).sk == sk ensures '|' !in sk {
      SplitSound(s, '|');
      TrimKeepsOut(SplitOnce(s, '|').value.0, '|');
    }
    if sk != [] && '|' !in sk && Trim(sk) == sk {
      var s := sk + ['|'] + "x";
      SplitJoin(sk, '|', "x");
      assert ParseSigned(s) == Signed(sk, "x");
    }
  }

  // ----- one visitor request

  datatype Verdict =
    | Malformed(why: Signed)
    | NotFound(addr: string)
    | SkMismatch(addr: string, owner: Owner)
    | Accept(addr: string, owner: Owner)

  function Judge(env: Env, runId: string, msg: VisitorMsg): Verdict {
    var p := ParseSigned(msg.signedMsg);
    if !p.Signed? then Malformed(p)
    else
      var addr := Normalized(env, runId, p.addr);
      if msg.proxyName !in env.owners then NotFound(addr)
      else
        var owner := env.owners[msg.proxyName];
        if owner.sk != p.sk then SkMismatch(addr, owner) else Accept(addr, owner)
  }

  // ----- runs

  /** A request that was accepted, with what its handler had looked up. */
  datatype Accepted = Accepted(env: Env, runId: string, msg: VisitorMsg, addr: string, owner: Owner)

  /**
   * A response passed on: what came from which owner, what went to which visitor. `source` is the accepted
   * request it answers, out of the `seen` accepted by then.
   */
  datatype Forwarded = Forwarded(env: Env, owner: string, raw: RespMsg, to: string, msg: RespMsg, source: nat, seen: nat)

  datatype State = State(
    pending: map<string, PendingVisitor>,
    recent: seq<Event>,
    accepted: seq<Accepted>,
    forwarded: seq<Forwarded>,
    pushed: seq<Event>)

  function Init(): State {
    State(map[], [], [], [], [])
  }

  /** Position of the latest accepted request for `addr`, or the length when there is none. */
  function Latest(accepted: seq<Accepted>, addr: string): (i: nat)
    ensures i <= |accepted|
    ensures i < |accepted| ==> accepted[i].addr == addr && forall j :: i < j < |accepted| ==> accepted[j].addr != addr
    ensures i == |accepted| ==> forall j :: 0 <= j < |accepted| ==> accepted[j].addr != addr
  {
    if accepted == [] then 0
    else
      var n := |accepted| - 1;
      if accepted[n].addr == addr then n
      else
        var i := Latest(accepted[..n], addr);
        if i < n then i else n + 1
  }

  datatype Step =
    | Visit(env: Env, runId: string, msg: VisitorMsg)
    | Respond(env: Env, ownerRun: string, resp: RespMsg)
    | Push(event: Event)

  function PendingOf(runId: string, msg: VisitorMsg, owner: Owner): PendingVisitor {
    PendingVisitor(runId, msg.proxyName, owner.relayAddr)
  }

  /** The message the visitor gets: the client address rewritten, the relay address filled in when the owner left it empty. */
  function Completed(env: Env, ownerRun: string, msg: RespMsg, p: PendingVisitor): RespMsg {
    msg.(clientAddr := Normalized(env, ownerRun, msg.clientAddr),
         relayAddr := if msg.relayAddr == [] then p.relayAddr else msg.relayAddr)
  }

  function PushEvent(recent: seq<Event>, e: Event): seq<Event> {
    (if |recent| >= EVENT_CAPACITY then recent[1..] else recent) + [e]
  }

  function Next(s: State, step: Step): State {
    match step
    case Visit(env, runId, msg) =>
      (match Judge(env, runId, msg)
       case Accept(addr, owner) =>
         s.(pending := s.pending[addr := PendingOf(runId, msg, owner)],
            accepted := s.accepted + [Accepted(env, runId, msg, addr, owner)])
       case _ => s)
    case Respond(env, ownerRun, msg) =>
      if msg.visitorAddr !in s.pending then s
      else
        var p := s.pending[msg.visitorAddr];
        s.(pending := s.pending - {msg.visitorAddr},
           forwarded := s.forwarded + [Forwarded(env, ownerRun, msg, p.runId, Completed(env, ownerRun, msg, p),
                                                 Latest(s.accepted, msg.visitorAddr), |s.accepted|)])
    case Push(event) => s.(recent := PushEvent(s.recent, event), pushed := s.pushed + [event])
  }

  function Exec(s: State, steps: seq<Step>): State
    decreases |steps|
  {
    if steps == [] then s else Exec(Next(s, steps[0]), steps[1..])
  }

  // ----- invariants

  /**
   * The owner is the one registered for the proxy asked for, the key presented is that owner's key, and the
   * address is the one presented, rewritten for the visitor's session.
   */
  ghost predicate Justified(a: Accepted) {
    var p := ParseSigned(a.msg.signedMsg);
    && p.Signed?
    && a.msg.proxyName in a.env.owners && a.env.owners[a.msg.proxyName] == a.owner
    && p.sk == a.owner.sk
    && a.addr == Normalized(a.env, a.runId, p.addr)
  }

  ghost predicate Waits(accepted: seq<Accepted>, addr: string, p: PendingVisitor) {
    var i := Latest(accepted, addr);
    i < |accepted| && p == PendingOf(accepted[i].runId, accepted[i].msg, accepted[i].owner)
  }

  /** What one forwarded response owes to the request it answers. */
  ghost predicate Owed(accepted: seq<Accepted>, f: Forwarded) {
    && f.source < f.seen <= |accepted|
    && var a := accepted[f.source];
       && f.to == a.runId && f.raw.visitorAddr == a.addr
       && f.msg == Completed(f.env, f.owner, f.raw, PendingOf(a.runId, a.msg, a.owner))
       && forall j :: f.source < j < f.seen ==> accepted[j].addr != a.addr
  }

  ghost predicate Waiting(s: State) {
    forall addr :: addr in s.pending ==> Waits(s.accepted, addr, s.pending[addr])
  }

  ghost predicate Unused(s: State) {
    forall addr, k :: addr in s.pending && 0 <= k < |s.forwarded| ==> s.forwarded[k].source != Latest(s.accepted, addr)
  }

  ghost predicate Answered(s: State) {
    && (forall k :: 0 <= k < |s.forwarded| ==> Owed(s.accepted, s.forwarded[k]))
    && (forall j, k :: 0 <= j < k < |s.forwarded| ==> s.forwarded[j].source != s.forwarded[k].source)
  }

  ghost predicate Inv(s: State) {
    && (forall i :: 0 <= i < |s.accepted| ==> Justified(s.accepted[i]))
    && Waiting(s) && Unused(s) && Answered(s)
    && s.recent == Tail(s.pushed)
  }

  /** The last 32 events, or all of them. */
  function Tail(pushed: seq<Event>): seq<Event> {
    if |pushed| <= EVENT_CAPACITY then pushed else pushed[|pushed| - EVENT_CAPACITY..]
  }

  lemma LatestAfter(accepted: seq<Accepted>, a: Accepted, addr: string)
    ensures Latest(accepted + [a], addr)
         == if a.addr == addr then |accepted|
            else if Latest(accepted, addr) < |accepted| then Latest(accepted, addr)
            else |accepted| + 1
  {
    assert (accepted + [a])[..|accepted|] == accepted;
  }

  lemma AcceptKeeps(s: State, a: Accepted)
    requires Inv(s) && Justified(a)
    ensures Inv(s.(pending := s.pending[a.addr := PendingOf(a.runId, a.msg, a.owner)], accepted := s.accepted + [a]))
  {
    var s' := s.(pending := s.pending[a.addr := PendingOf(a.runId, a.msg, a.owner)], accepted := s.accepted + [a]);
    forall addr | addr in s'.pending
      ensures Waits(s'.accepted, addr, s'.pending[addr])
      ensures forall k :: 0 <= k < |s'.forwarded| ==> s'.forwarded[k].source != Latest(s'.accepted, addr)
    {
      LatestAfter(s.accepted, a, addr);
      assert addr != a.addr ==> Waits(s.accepted, addr, s.pending[addr]);
      assert forall k :: 0 <= k < |s.forwarded| ==> Owed(s.accepted, s.forwarded[k]);
    }
    forall k | 0 <= k < |s.forwarded| ensures Owed(s'.accepted, s.forwarded[k]) {
      assert Owed(s.accepted, s.forwarded[k]);
    }
  }

  /** Different addresses wait on different requests. */
  lemma LatestDiffer(accepted: seq<Accepted>, x: string, y: string)
    requires x != y && Latest(accepted, x) < |accepted|
    ensures Latest(accepted, x) != Latest(accepted, y)
  {
  }

  lemma ConsumedWaits(s: State, addr: string, f: Forwarded)
    requires Waiting(s) && Unused(s) && addr in s.pending && f.source == Latest(s.accepted, addr)
    ensures var s' := s.(pending := s.pending - {addr}, forwarded := s.forwarded + [f]);
            Waiting(s') && Unused(s')
  {
    var s' := s.(pending := s.pending - {addr}, forwarded := s.forwarded + [f]);
    assert Waits(s.accepted, addr, s.pending[addr]);
    forall x, k | x in s'.pending && 0 <= k < |s'.forwarded|
      ensures s'.forwarded[k].source != Latest(s'.accepted, x)
    {
      if k == |s.forwarded| { LatestDiffer(s.accepted, addr, x); }
    }
  }

  lemma ConsumedAnswers(s: State, addr: string, f: Forwarded)
    requires Unused(s) && Answered(s) && addr in s.pending && f.source == Latest(s.accepted, addr) && Owed(s.accepted, f)
    ensures Answered(s.(pending := s.pending - {addr}, forwarded := s.forwarded + [f]))
  {
    var fs := s.forwarded + [f];
    assert forall k :: 0 <= k < |s.forwarded| ==> fs[k] == s.forwarded[k];
  }

  lemma RespondKeeps(s: State, step: Step)
    requires Inv(s) && step.Respond? && step.resp.visitorAddr in s.pending
    ensures Inv(Next(s, step))
  {
    var s', addr := Next(s, step), step.resp.visitorAddr;
    var f := s'.forwarded[|s.forwarded|];
    assert Waits(s.accepted, addr, s.pending[addr]);
    assert Owed(s.accepted, f);
    ConsumedWaits(s, addr, f);
    ConsumedAnswers(s, addr, f);
  }

  lemma AcceptIsJustified(env: Env, runId: string, msg: VisitorMsg)
    requires Judge(env, runId, msg).Accept?
    ensures var v := Judge(env, runId, msg); Justified(Accepted(env, runId, msg, v.addr, v.owner))
  {
  }

  lemma PushKeeps(s: State, e: Event)
    requires Inv(s)
    ensures Inv(Next(s, Push(e)))
  {
  }

  lemma StepKeeps(s: State, step: Step)
    requires Inv(s)
    ensures Inv(Next(s, step))
  {
    match step
    case Visit(env, runId, msg) =>
      var v := Judge(env, runId, msg);
      if v.Accept? {
        AcceptIsJustified(env, runId, msg);
        AcceptKeeps(s, Accepted(env, runId, msg, v.addr, v.owner));
      }
    case Respond(_, _, resp) =>
      if resp.visitorAddr in s.pending { RespondKeeps(s, step); }
    case Push(e) => PushKeeps(s, e);
  }

  lemma {:induction false} RunKeeps(s: State, steps: seq<Step>)
    requires Inv(s)
    ensures Inv(Exec(s, steps))
    decreases |steps|
  {
    if steps != [] {
      StepKeeps(s, steps[0]);
      RunKeeps(Next(s, steps[0]), steps[1..]);
    }
  }

  // ----- what holds of every run

  /**
   * Each forwarded response answers a request that presented the registered key, was the latest such request for
   * that address when the response came, and goes to the run that made it, with the relay address the proxy had
   * registered when the owner named none.
   */
  lemma ForwardedToLatest(steps: seq<Step>, k: nat)
    requires k < |Exec(Init(), steps).forwarded|
    ensures var s := Exec(Init(), steps);
            Owed(s.accepted, s.forwarded[k]) && Justified(s.accepted[s.forwarded[k].source])
  {
    RunKeeps(Init(), steps);
    var s := Exec(Init(), steps);
    assert Owed(s.accepted, s.forwarded[k]);
  }

  /** No accepted request is answered twice, so responses never outnumber accepted requests. */
  lemma AnsweredOnce(steps: seq<Step>)
    ensures var s := Exec(Init(), steps);
            && (forall j, k :: 0 <= j < k < |s.forwarded| ==> s.forwarded[j].source != s.forwarded[k].source)
            && |s.forwarded| <= |s.accepted|
  {
    RunKeeps(Init(), steps);
    var s := Exec(Init(), steps);
    assert forall k :: 0 <= k < |s.forwarded| ==> Owed(s.accepted, s.forwarded[k]);
    Pigeonhole(s.forwarded, |s.accepted|);
  }

  lemma {:induction false} Pigeonhole(fs: seq<Forwarded>, n: nat)
    requires forall k :: 0 <= k < |fs| ==> fs[k].source < n
    requires forall j, k :: 0 <= j < k < |fs| ==> fs[j].source != fs[k].source
    ensures |fs| <= n
    decreases n
  {
    if fs != [] {
      assert fs[0].source < n;
      if i :| 0 <= i < |fs| && fs[i].source == n - 1 {
        Pigeonhole(fs[..i] + fs[i + 1..], n - 1);
      } else {
        Pigeonhole(fs, n - 1);
      }
    }
  }

  // ----- who answers

  /** A forwarded response came from the owner that the request had been for. */
  predicate FromOwner(accepted: seq<Accepted>, f: Forwarded) {
    f.source < |accepted| && f.owner == accepted[f.source].owner.runId
  }

  predicate AllFromOwner(s: State) {
    forall k :: 0 <= k < |s.forwarded| ==> FromOwner(s.accepted, s.forwarded[k])
  }

  /**
   * From the messages alone: for each address, the owner that was asked about it last, unless somebody has responded
   * since.
   */
  function AskedAfter(asked: map<string, string>, step: Step): map<string, string> {
    match step
    case Visit(env, runId, msg) =>
      (match Judge(env, runId, msg)
       case Accept(addr, owner) => asked[addr := owner.runId]
       case _ => asked)
    case Respond(_, _, resp) => asked - {resp.visitorAddr}
    case Push(_) => asked
  }

  /** Whoever responds to an address that an owner was asked about is the owner asked last. */
  predicate OwnersRespond(asked: map<string, string>, steps: seq<Step>)
    decreases |steps|
  {
    steps == [] || (OwnerResponds(asked, steps[0]) && OwnersRespond(AskedAfter(asked, steps[0]), steps[1..]))
  }

  predicate OwnerResponds(asked: map<string, string>, step: Step) {
    step.Respond? && step.resp.visitorAddr in asked ==> step.ownerRun == asked[step.resp.visitorAddr]
  }

  /** The pending table waits for exactly the owners asked. */
  ghost predicate Tracks(s: State, asked: map<string, string>) {
    && asked.Keys == s.pending.Keys
    && forall addr :: addr in asked ==>
         Latest(s.accepted, addr) < |s.accepted| && s.accepted[Latest(s.accepted, addr)].owner.runId == asked[addr]
  }

  lemma TracksVisit(s: State, asked: map<string, string>, a: Accepted)
    requires Tracks(s, asked)
    ensures Tracks(s.(pending := s.pending[a.addr := PendingOf(a.runId, a.msg, a.owner)], accepted := s.accepted + [a]),
                   asked[a.addr := a.owner.runId])
  {
    forall addr | addr == a.addr || addr in asked ensures Latest(s.accepted + [a], addr) <= |s.accepted| {
      LatestAfter(s.accepted, a, addr);
    }
    forall addr | addr in asked && addr != a.addr ensures Latest(s.accepted + [a], addr) == Latest(s.accepted, addr) {
      LatestAfter(s.accepted, a, addr);
    }
    LatestAfter(s.accepted, a, a.addr);
  }

  lemma TracksStep(s: State, asked: map<string, string>, step: Step)
    requires Tracks(s, asked)
    ensures Tracks(Next(s, step), AskedAfter(asked, step))
  {
    match step
    case Visit(env, runId, msg) =>
      var v := Judge(env, runId, msg);
      if v.Accept? { TracksVisit(s, asked, Accepted(env, runId, msg, v.addr, v.owner)); }
    case Respond(_, _, _) =>
    case Push(_) =>
  }

  /** Later requests do not change whom an earlier response was for. */
  lemma FromOwnerStays(accepted: seq<Accepted>, more: seq<Accepted>, f: Forwarded)
    requires Owed(accepted, f)
    ensures FromOwner(accepted + more, f) <==> FromOwner(accepted, f)
  {
  }

  lemma AcceptFromOwner(s: State, a: Accepted, pending: map<string, PendingVisitor>)
    requires Answered(s)
    ensures AllFromOwner(s.(accepted := s.accepted + [a], pending := pending)) <==> AllFromOwner(s)
  {
    var s' := s.(accepted := s.accepted + [a], pending := pending);
    forall k | 0 <= k < |s.forwarded| ensures FromOwner(s'.accepted, s'.forwarded[k]) == FromOwner(s.accepted, s.forwarded[k]) {
      FromOwnerStays(s.accepted, [a], s.forwarded[k]);
    }
  }

  lemma RespondFromOwner(s: State, asked: map<string, string>, step: Step)
    requires Tracks(s, asked) && step.Respond? && step.resp.visitorAddr in s.pending
    ensures AllFromOwner(Next(s, step)) <==> AllFromOwner(s) && OwnerResponds(asked, step)
  {
    var s', n := Next(s, step), |s.forwarded|;
    assert FromOwner(s'.accepted, s'.forwarded[n]) <==> OwnerResponds(asked, step);
    assert forall k :: 0 <= k < n ==> s'.forwarded[k] == s.forwarded[k];
  }

  lemma StepFromOwner(s: State, asked: map<string, string>, step: Step)
    requires Inv(s) && Tracks(s, asked)
    ensures AllFromOwner(Next(s, step)) <==> AllFromOwner(s) && OwnerResponds(asked, step)
  {
    match step
    case Visit(env, runId, msg) =>
      var v := Judge(env, runId, msg);
      if v.Accept? {
        AcceptFromOwner(s, Accepted(env, runId, msg, v.addr, v.owner), Next(s, step).pending);
      }
    case Respond(_, _, resp) =>
      if resp.visitorAddr in s.pending { RespondFromOwner(s, asked, step); }
    case Push(_) =>
  }

  lemma {:induction false} RunFromOwner(s: State, asked: map<string, string>, steps: seq<Step>)
    requires Inv(s) && Tracks(s, asked)
    ensures AllFromOwner(Exec(s, steps)) <==> AllFromOwner(s) && OwnersRespond(asked, steps)
    decreases |steps|
  {
    if steps != [] {
      StepFromOwner(s, asked, steps[0]);
      StepKeeps(s, steps[0]);
      TracksStep(s, asked, steps[0]);
      RunFromOwner(Next(s, steps[0]), AskedAfter(asked, steps[0]), steps[1..]);
    }
  }

  /**
   * Responses are matched by address alone, so the responder need not be the owner. In every run, all forwarded
   * responses come from the owners asked if and only if, among the messages sent, whoever responds to an address
   * that an owner was asked about is the owner asked last.
   */
  lemma OwnersAnswerIff(steps: seq<Step>)
    ensures AllFromOwner(Exec(Init(), steps)) <==> OwnersRespond(map[], steps)
  {
    RunFromOwner(Init(), map[], steps);
  }

  /**
   * In every reachable state, the response of any run to any pending address is passed on to the visitor waiting
   * there, and it comes from the owner asked exactly when that run is the owner.
   */
  lemma OtherRunAnswers(steps: seq<Step>, env: Env, run: string, resp: RespMsg)
    requires resp.visitorAddr in Exec(Init(), steps).pending
    ensures var s := Exec(Init(), steps);
            var s' := Next(s, Respond(env, run, resp));
            var p, i := s.pending[resp.visitorAddr], Latest(s.accepted, resp.visitorAddr);
            && i < |s.accepted| && |s'.forwarded| == |s.forwarded| + 1
            && var f := s'.forwarded[|s.forwarded|];
               && f.to == p.runId && f.msg == Completed(env, run, resp, p) && f.source == i
               && (FromOwner(s'.accepted, f) <==> run == s.accepted[i].owner.runId)
  {
    RunKeeps(Init(), steps);
    var s := Exec(Init(), steps);
    assert Waits(s.accepted, resp.visitorAddr, s.pending[resp.visitorAddr]);
  }

  /** A run in which somebody else's response is passed on. */
  lemma OtherRunHappens(run: string, owner: string, visitor: string)
    requires run != owner
    ensures var env := Env(map["p" := Owner(owner, "k", "")], map[], (addr, peer) => addr);
            var msg, resp := VisitorMsg("p", "k" + ['|'] + "a"), RespMsg("a", "c", "r", "");
            var s := Exec(Init(), [Visit(env, visitor, msg), Respond(env, run, resp)]);
            && |s.forwarded| == 1 && s.forwarded[0].to == visitor && !FromOwner(s.accepted, s.forwarded[0])
  {
    var env := Env(map["p" := Owner(owner, "k", "")], map[], (addr, peer) => addr);
    var msg, resp := VisitorMsg("p", "k" + ['|'] + "a"), RespMsg("a", "c", "r", "");
    SplitJoin("k", '|', "a");
    assert Judge(env, visitor, msg) == Accept("a", Owner(owner, "k", ""));
    var s1 := Next(Init(), Visit(env, visitor, msg));
    assert s1.pending == map["a" := PendingVisitor(visitor, "p", "")];
    assert s1.accepted == [Accepted(env, visitor, msg, "a", Owner(owner, "k", ""))];
    var s2 := Next(s1, Respond(env, run, resp));
    var steps := [Visit(env, visitor, msg), Respond(env, run, resp)];
    assert steps[1..] == [Respond(env, run, resp)] && steps[1..][1..] == [];
    assert Exec(s2, []) == s2;
    assert Exec(s1, steps[1..]) == s2;
  }

  /** The event list is always the last 32 events pushed, in order. */
  lemma RecentEvents(steps: seq<Step>)
    ensures Exec(Init(), steps).recent == Tail(Exec(Init(), steps).pushed)
  {
    RunKeeps(Init(), steps);
  }

  // ----- the object

  /** What a handler sends: a reply to the visitor, a request to the owner. */
  datatype VisitorOutcome =
    | Failed(why: Signed)
    | Refused(reply: RespMsg)
    | Forwarding

  /** What the event list says about a request that was read, and what its visitor is told. */
  function VisitEvent(v: Verdict, runId: string, proxy: string, failure: Option<string>): Event
    requires !v.Malformed?
  {
    match v
    case NotFound(addr) =>
      Event("owner_not_found", proxy, runId, [], addr, [], [], "xtcp proxy " + proxy + " not found")
    case SkMismatch(addr, owner) =>
      Event("sk_mismatch", proxy, runId, owner.runId, addr, [], owner.relayAddr, "xtcp sk mismatch")
    case Accept(addr, owner) =>
      if failure.Some? then
        Event("owner_offline", proxy, runId, owner.runId, addr, [], owner.relayAddr, "owner client offline: " + failure.value)
      else
        Event("visitor_forwarded", proxy, runId, owner.runId, addr, [], owner.relayAddr, [])
  }

  function VisitOutcome(v: Verdict, proxy: string, failure: Option<string>): VisitorOutcome {
    match v
    case Malformed(why) => Failed(why)
    case NotFound(addr) => Refused(RespMsg(addr, [], [], "xtcp proxy " + proxy + " not found"))
    case SkMismatch(addr, _) => Refused(RespMsg(addr, [], [], "xtcp sk mismatch"))
    case Accept(_, _) => if failure.Some? then Refused(RespMsg([], [], [], "owner client offline")) else Forwarding
  }

  function RespEvent(p: PendingVisitor, ownerRun: string, msg: RespMsg): Event {
    Event(if msg.error == [] then "response_forwarded" else "response_error", p.proxyName, p.runId, ownerRun,
          msg.visitorAddr, msg.clientAddr, msg.relayAddr, msg.error)
  }

  class NatHoleController {
    var pending: map<string, PendingVisitor>
    var recent: seq<Event>

    constructor ()
      ensures pending == map[] && recent == []
    {
      pending, recent := map[], [];
    }

    method Record(e: Event)
      modifies `recent
      ensures recent == PushEvent(old(recent), e)
    {
      if |recent| >= EVENT_CAPACITY {
        recent := recent[1..];
      }
      recent := recent + [e];
    }

    /** Checks a visitor's request and, if it is accepted, leaves it pending. */
    method Admit(env: Env, runId: string, msg: VisitorMsg) returns (v: Verdict)
      modifies `pending
      ensures v == Judge(env, runId, msg)
      ensures forall s: State :: s.pending == old(pending) ==> Next(s, Visit(env, runId, msg)).pending == pending
    {
      var parsed := ParseSigned(msg.signedMsg);
      if !parsed.Signed? { return Malformed(parsed); }
      var addr := parsed.addr;
      if runId in env.peers { addr := env.normalize(addr, env.peers[runId]); }
      if msg.proxyName !in env.owners { return NotFound(addr); }
      var owner := env.owners[msg.proxyName];
      if owner.sk != parsed.sk { return SkMismatch(addr, owner); }
      pending := pending[addr := PendingVisitor(runId, msg.proxyName, owner.relayAddr)];
      return Accept(addr, owner);
    }

    /**
     * `failure` is why the message to the owner could not be sent, if it could not. The request stays pending
     * even then.
     */
    method HandleVisitor(env: Env, runId: string, msg: VisitorMsg, failure: Option<string>)
      returns (outcome: VisitorOutcome)
      modifies this
      ensures forall s: State :: s.pending == old(pending) ==> Next(s, Visit(env, runId, msg)).pending == pending
      ensures var v := Judge(env, runId, msg);
              && outcome == VisitOutcome(v, msg.proxyName, failure)
              && recent == if v.Malformed? then old(recent)
                           else PushEvent(old(recent), VisitEvent(v, runId, msg.proxyName, failure))
    {
      var v := Admit(env, runId, msg);
      outcome := VisitOutcome(v, msg.proxyName, failure);
      if !v.Malformed? {
        Record(VisitEvent(v, runId, msg.proxyName, failure));
      }
    }

    method HandleClientResp(env: Env, ownerRun: string, resp: RespMsg)
      returns (sent: Option<(string, RespMsg)>)
      modifies this
      ensures sent.Some? <==> resp.visitorAddr in old(pending)
      ensures forall s: State :: s.pending == old(pending) ==>
                var s' := Next(s, Respond(env, ownerRun, resp));
                && s'.pending == pending
                && (sent.None? <==> s'.forwarded == s.forwarded)
                && (sent.Some? ==> |s'.forwarded| == |s.forwarded| + 1
                                   && s'.forwarded[|s.forwarded|].to == sent.value.0
                                   && s'.forwarded[|s.forwarded|].msg == sent.value.1)
      ensures recent == if sent.None? then old(recent)
                        else PushEvent(old(recent), RespEvent(old(pending)[resp.visitorAddr], ownerRun, sent.value.1))
    {
      var msg := resp;
      if ownerRun in env.peers {
        msg := msg.(clientAddr := env.normalize(msg.clientAddr, env.peers[ownerRun]));
      }
      if msg.visitorAddr !in pending { return None; }
      var p := pending[msg.visitorAddr];
      pending := pending - {msg.visitorAddr};
      if msg.relayAddr == [] { msg := msg.(relayAddr := p.relayAddr); }
      Record(RespEvent(p, ownerRun, msg));
      return Some((p.runId, msg));
    }
  }
}

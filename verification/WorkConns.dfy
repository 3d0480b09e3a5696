/**
 * Matching work-connection requests with arriving work connections: `handle_work_conn_request` and
 * `handle_work_conn` of crates/arp-server/src/control/mod.rs. The request queue and the idle pool are under
 * separate locks; one step is one lock section, one reply or one send, so every interleaving of the single
 * request loop with any number of arriving connections is a run.
 */
module WorkConns {
  import opened Bytes

  type Conn = nat
  type Req = nat

  /** Where the request loop is. */
  datatype Loop =
    | Waiting
    | Looking(req: Req)              // about to try the idle pool
    | Replying(req: Req, conn: Conn) // took an idle connection
    | Missed(req: Req)               // the pool was empty; about to queue
    | Queued(req: Req)               // queued; sending ReqWorkConn to the client
    | RollingBack(req: Req)          // that send failed

  datatype State = State(
    loop: Loop,
    pending: seq<Req>,
    idle: seq<Conn>,
    starting: set<Conn>,             // arrived, not yet holding the queue lock
    parking: Option<Conn>,           // holds the queue lock, waits for the pool lock
    delivering: seq<(Req, Conn)>,    // took a request, about to reply
    arrived: set<Conn>,              // histories
    requested: set<Req>,
    queued: seq<Req>,                // pushed and not rolled back
    served: seq<Req>,                // taken from the queue by connections
    dropped: seq<Req>,               // rolled back
    given: seq<(Req, Conn)>,         // successful replies
    failed: seq<(Req, Conn)>)        // replies whose requester had given up

  datatype Step =
    | Request(req: Req)
    | TryIdle
    | LoopReply(ok: bool)
    | PushPending
    | Announce(ok: bool)
    | PopBack
    | Arrive(conn: Conn)
    | TakeQueue(conn: Conn)
    | Park
    | Deliver(task: nat, ok: bool)

  const INIT := State(Waiting, [], [], {}, None, [], {}, {}, [], [], [], [], [])

  predicate Enabled(s: State, step: Step) {
    match step
    case Request(r) => s.loop.Waiting? && r !in s.requested
    case TryIdle => s.loop.Looking?
    case LoopReply(_) => s.loop.Replying?
    case PushPending => s.loop.Missed? && s.parking.None?
    case Announce(_) => s.loop.Queued?
    case PopBack => s.loop.RollingBack? && s.parking.None?
    case Arrive(c) => c !in s.arrived
    case TakeQueue(c) => c in s.starting && s.parking.None?
    case Park => s.parking.Some?
    case Deliver(k, _) => k < |s.delivering|
  }

  function Reply(s: State, r: Req, c: Conn, ok: bool): State {
    if ok then s.(given := s.given + [(r, c)]) else s.(failed := s.failed + [(r, c)])
  }

  function Without<T>(s: seq<T>, k: nat): seq<T>
    requires k < |s|
  {
    s[..k] + s[k + 1..]
  }

  function Init<T>(s: seq<T>): seq<T>
    requires s != []
  {
    s[..|s| - 1]
  }

  function Last<T>(s: seq<T>): T
    requires s != []
  {
    s[|s| - 1]
  }

  function Next(s: State, step: Step): State
    requires Enabled(s, step)
  {
    match step
    case Request(r) => s.(loop := Looking(r), requested := s.requested + {r})
    case TryIdle =>
      if s.idle != [] then s.(loop := Replying(s.loop.req, Last(s.idle)), idle := Init(s.idle))
      else s.(loop := Missed(s.loop.req))
    case LoopReply(ok) => Reply(s, s.loop.req, s.loop.conn, ok).(loop := Waiting)
    case PushPending =>
      s.(loop := Queued(s.loop.req), pending := s.pending + [s.loop.req], queued := s.queued + [s.loop.req])
    case Announce(ok) => s.(loop := if ok then Waiting else RollingBack(s.loop.req))
    case PopBack => RollBack(s).(loop := Waiting)
    case Arrive(c) => s.(arrived := s.arrived + {c}, starting := s.starting + {c})
    case TakeQueue(c) =>
      if s.pending == [] then s.(starting := s.starting - {c}, parking := Some(c))
      else s.(starting := s.starting - {c}, delivering := s.delivering + [(s.pending[0], c)],
              pending := s.pending[1..], served := s.served + [s.pending[0]])
    case Park => s.(parking := None, idle := s.idle + [s.parking.value])
    case Deliver(k, ok) =>
      var (r, c) := s.delivering[k];
      Reply(s, r, c, ok).(delivering := Without(s.delivering, k))
  }

  /** `pop_back` on the queue, whatever its last element is. */
  function RollBack(s: State): State {
    if s.pending == [] then s
    else s.(pending := Init(s.pending), dropped := s.dropped + [Last(s.pending)],
            queued := if s.queued == [] then [] else Init(s.queued))
  }

  function Exec(s: State, steps: seq<Step>): (r: Option<State>)
    decreases |steps|
  {
    if steps == [] then Some(s)
    else if Enabled(s, steps[0]) then Exec(Next(s, steps[0]), steps[1..])
    else None
  }

  // ----- conservation -----

  function One(b: bool): nat { if b then 1 else 0 }

  function Count(s: seq<nat>, x: nat): nat {
    if s == [] then 0 else Count(Init(s), x) + One(Last(s) == x)
  }

  function CountReq(ps: seq<(Req, Conn)>, r: Req): nat {
    if ps == [] then 0 else CountReq(Init(ps), r) + One(Last(ps).0 == r)
  }

  function CountConn(ps: seq<(Req, Conn)>, c: Conn): nat {
    if ps == [] then 0 else CountConn(Init(ps), c) + One(Last(ps).1 == c)
  }

  /** In how many places connection `c` is. */
  function ConnPlaces(s: State, c: Conn): nat {
    One(c in s.starting) + One(s.parking == Some(c)) + Count(s.idle, c) + One(s.loop.Replying? && s.loop.conn == c)
    + CountConn(s.delivering, c) + CountConn(s.given, c) + CountConn(s.failed, c)
  }

  /** In how many places request `r` is. */
  function ReqPlaces(s: State, r: Req): nat {
    One((s.loop.Looking? || s.loop.Replying? || s.loop.Missed?) && s.loop.req == r) + Count(s.pending, r)
    + Count(s.dropped, r) + CountReq(s.delivering, r) + CountReq(s.given, r) + CountReq(s.failed, r)
  }

  /** Once known, a connection or request is in exactly one place. */
  predicate InOnePlace(s: State, x: nat) {
    ConnPlaces(s, x) == One(x in s.arrived) && ReqPlaces(s, x) == One(x in s.requested)
  }

  /** Requests are taken in the order in which they were queued and kept. */
  predicate InOrder(s: State) {
    && s.queued == s.served + s.pending
    && (s.loop.Queued? || s.loop.RollingBack? ==> s.queued != [] && Last(s.queued) == s.loop.req)
  }

  lemma CountAppend(s: seq<nat>, y: nat, x: nat)
    ensures Count(s + [y], x) == Count(s, x) + One(y == x)
  {
    assert Init(s + [y]) == s;
  }

  lemma {:induction false} CountTail(s: seq<nat>, x: nat)
    requires s != []
    ensures Count(s, x) == One(s[0] == x) + Count(s[1..], x)
    decreases |s|
  {
    if |s| > 1 {
      CountTail(Init(s), x);
      assert Init(s[1..]) == Init(s)[1..];
    }
  }

  lemma PairAppend(ps: seq<(Req, Conn)>, r: Req, c: Conn, x: nat)
    ensures CountReq(ps + [(r, c)], x) == CountReq(ps, x) + One(r == x)
    ensures CountConn(ps + [(r, c)], x) == CountConn(ps, x) + One(c == x)
  {
    assert Init(ps + [(r, c)]) == ps;
  }

  lemma {:induction false} PairWithout(ps: seq<(Req, Conn)>, k: nat, x: nat)
    requires k < |ps|
    ensures CountReq(ps, x) == CountReq(Without(ps, k), x) + One(ps[k].0 == x)
    ensures CountConn(ps, x) == CountConn(Without(ps, k), x) + One(ps[k].1 == x)
    decreases |ps|
  {
    if k == |ps| - 1 {
      assert Without(ps, k) == Init(ps);
    } else {
      PairWithout(Init(ps), k, x);
      assert Init(Without(ps, k)) == Without(Init(ps), k);
    }
  }

  lemma StepCounts(s: State, step: Step, x: nat)
    requires Enabled(s, step) && InOnePlace(s, x)
    ensures InOnePlace(Next(s, step), x)
  {
    match step
    case TakeQueue(c) => TakeQueueCounts(s, c, x);
    case Deliver(k, ok) => DeliverCounts(s, k, ok, x);
    case Arrive(_) => ArriveCounts(s, step, x);
    case Park => ArriveCounts(s, step, x);
    case PushPending => PushCounts(s, x);
    case Announce(_) => AnnounceCounts(s, step, x);
    case PopBack => PopCounts(s, x);
    case LoopReply(ok) => LoopReplyCounts(s, ok, x);
    case TryIdle => TryIdleCounts(s, x);
    case Request(_) => RequestCounts(s, step, x);
  }

  lemma RequestCounts(s: State, step: Step, x: nat)
    requires Enabled(s, step) && InOnePlace(s, x) && step.Request?
    ensures InOnePlace(Next(s, step), x)
  {
  }

  lemma TryIdleCounts(s: State, x: nat)
    requires Enabled(s, TryIdle) && InOnePlace(s, x)
    ensures InOnePlace(Next(s, TryIdle), x)
  {
  }

  lemma LoopReplyCounts(s: State, ok: bool, x: nat)
    requires Enabled(s, LoopReply(ok)) && InOnePlace(s, x)
    ensures InOnePlace(Next(s, LoopReply(ok)), x)
  {
    ReplyCounts(s, s.loop.req, s.loop.conn, ok, x);
    LoopDone(Reply(s, s.loop.req, s.loop.conn, ok), x);
  }

  /** The loop lets go of its pair. */
  lemma LoopDone(s: State, x: nat)
    requires s.loop.Replying?
    ensures ConnPlaces(s.(loop := Waiting), x) + One(s.loop.conn == x) == ConnPlaces(s, x)
    ensures ReqPlaces(s.(loop := Waiting), x) + One(s.loop.req == x) == ReqPlaces(s, x)
  {
  }

  lemma PushCounts(s: State, x: nat)
    requires Enabled(s, PushPending) && InOnePlace(s, x)
    ensures InOnePlace(Next(s, PushPending), x)
  {
    PushConns(s, x);
    PushReqs(s, x);
  }

  lemma PushConns(s: State, x: nat)
    requires Enabled(s, PushPending)
    ensures ConnPlaces(Next(s, PushPending), x) == ConnPlaces(s, x)
  {
  }

  lemma PushReqs(s: State, x: nat)
    requires Enabled(s, PushPending)
    ensures ReqPlaces(Next(s, PushPending), x) == ReqPlaces(s, x)
  {
    CountAppend(s.pending, s.loop.req, x);
  }

  lemma AnnounceCounts(s: State, step: Step, x: nat)
    requires Enabled(s, step) && InOnePlace(s, x) && step.Announce?
    ensures InOnePlace(Next(s, step), x)
  {
  }

  lemma PopCounts(s: State, x: nat)
    requires Enabled(s, PopBack) && InOnePlace(s, x)
    ensures InOnePlace(Next(s, PopBack), x)
  {
    if s.pending != [] {
      CountAppend(s.dropped, Last(s.pending), x);
    }
  }

  lemma ArriveCounts(s: State, step: Step, x: nat)
    requires Enabled(s, step) && InOnePlace(s, x) && (step.Arrive? || step.Park?)
    ensures InOnePlace(Next(s, step), x)
  {
    if step.Park? {
      CountAppend(s.idle, s.parking.value, x);
    }
  }

  lemma DeliverCounts(s: State, k: nat, ok: bool, x: nat)
    requires Enabled(s, Deliver(k, ok)) && InOnePlace(s, x)
    ensures InOnePlace(Next(s, Deliver(k, ok)), x)
  {
    ReplyCounts(s, s.delivering[k].0, s.delivering[k].1, ok, x);
    PairWithout(s.delivering, k, x);
  }

  lemma GivenCounts(s: State, r: Req, c: Conn, x: nat)
    ensures ConnPlaces(s.(given := s.given + [(r, c)]), x) == ConnPlaces(s, x) + One(c == x)
    ensures ReqPlaces(s.(given := s.given + [(r, c)]), x) == ReqPlaces(s, x) + One(r == x)
  {
    PairAppend(s.given, r, c, x);
  }

  lemma FailedCounts(s: State, r: Req, c: Conn, x: nat)
    ensures ConnPlaces(s.(failed := s.failed + [(r, c)]), x) == ConnPlaces(s, x) + One(c == x)
    ensures ReqPlaces(s.(failed := s.failed + [(r, c)]), x) == ReqPlaces(s, x) + One(r == x)
  {
    PairAppend(s.failed, r, c, x);
  }

  /** A reply adds its pair to one of the two logs and changes nothing else. */
  lemma ReplyCounts(s: State, r: Req, c: Conn, ok: bool, x: nat)
    ensures ConnPlaces(Reply(s, r, c, ok), x) == ConnPlaces(s, x) + One(c == x)
    ensures ReqPlaces(Reply(s, r, c, ok), x) == ReqPlaces(s, x) + One(r == x)
  {
    if ok { GivenCounts(s, r, c, x); } else { FailedCounts(s, r, c, x); }
  }

  lemma TakeQueueCounts(s: State, c: Conn, x: nat)
    requires Enabled(s, TakeQueue(c)) && InOnePlace(s, x)
    ensures InOnePlace(Next(s, TakeQueue(c)), x)
  {
    if s.pending != [] {
      PairAppend(s.delivering, s.pending[0], c, x);
      CountTail(s.pending, x);
    }
  }

  /** The rollback removes the request just pushed, or nothing because a connection already took it. */
  lemma RollBackExact(s: State)
    requires InOrder(s) && Enabled(s, PopBack)
    ensures var s' := Next(s, PopBack);
            if s.pending == [] then s.served != [] && Last(s.served) == s.loop.req && s' == s.(loop := Waiting)
            else s.pending == s'.pending + [s.loop.req] && s'.dropped == s.dropped + [s.loop.req]
  {
    if s.pending == [] {
      assert s.queued == s.served;
    } else {
      assert Last(s.queued) == Last(s.pending);
    }
  }

  lemma StepOrder(s: State, step: Step)
    requires Enabled(s, step) && InOrder(s)
    ensures InOrder(Next(s, step))
  {
    match step
    case PushPending => assert s.queued + [s.loop.req] == s.served + (s.pending + [s.loop.req]);
    case PopBack => if s.pending != [] { assert Init(s.served + s.pending) == s.served + Init(s.pending); }
    case TakeQueue(_) =>
      if s.pending != [] { assert s.served + s.pending == (s.served + [s.pending[0]]) + s.pending[1..]; }
    case _ =>
  }

  lemma {:induction false} RunCounts(s: State, steps: seq<Step>, x: nat)
    requires InOnePlace(s, x) && Exec(s, steps).Some?
    ensures InOnePlace(Exec(s, steps).value, x)
    decreases |steps|
  {
    if steps != [] {
      StepCounts(s, steps[0], x);
      RunCounts(Next(s, steps[0]), steps[1..], x);
    }
  }

  lemma {:induction false} RunOrder(s: State, steps: seq<Step>)
    requires InOrder(s) && Exec(s, steps).Some?
    ensures InOrder(Exec(s, steps).value)
    decreases |steps|
  {
    if steps != [] {
      StepOrder(s, steps[0]);
      RunOrder(Next(s, steps[0]), steps[1..]);
    }
  }

  // ----- every run -----

  /**
   * In every interleaving, each connection and each request is in exactly one place: nothing is duplicated,
   * and nothing disappears except through a failed reply or a rollback, which are places of their own.
   */
  lemma NothingLostOrDuplicated(steps: seq<Step>, x: nat)
    requires Exec(INIT, steps).Some?
    ensures var s := Exec(INIT, steps).value;
            ConnPlaces(s, x) == One(x in s.arrived) && ReqPlaces(s, x) == One(x in s.requested)
  {
    RunCounts(INIT, steps, x);
  }

  lemma {:induction false} PairCounted(ps: seq<(Req, Conn)>, i: nat)
    requires i < |ps|
    ensures CountReq(ps, ps[i].0) >= 1 && CountConn(ps, ps[i].1) >= 1
    decreases |ps|
  {
    if i < |ps| - 1 {
      PairCounted(Init(ps), i);
    }
  }

  lemma {:induction false} PairTwice(ps: seq<(Req, Conn)>, i: nat, j: nat)
    requires i < j < |ps|
    ensures ps[i].0 == ps[j].0 ==> CountReq(ps, ps[i].0) >= 2
    ensures ps[i].1 == ps[j].1 ==> CountConn(ps, ps[i].1) >= 2
    decreases |ps|
  {
    if j == |ps| - 1 {
      PairCounted(Init(ps), i);
    } else {
      PairTwice(Init(ps), i, j);
    }
  }

  lemma {:induction false} Counted(s: seq<nat>, x: nat)
    requires x in s
    ensures Count(s, x) >= 1
    decreases |s|
  {
    if Last(s) != x {
      Counted(Init(s), x);
    }
  }

  /** No connection is given to two requests and no request gets two connections. */
  lemma MatchedOnce(steps: seq<Step>, i: nat, j: nat)
    requires Exec(INIT, steps).Some? && i < j < |Exec(INIT, steps).value.given|
    ensures var given := Exec(INIT, steps).value.given;
            given[i].0 != given[j].0 && given[i].1 != given[j].1
  {
    var s := Exec(INIT, steps).value;
    PairTwice(s.given, i, j);
    RunCounts(INIT, steps, s.given[i].0);
    RunCounts(INIT, steps, s.given[i].1);
  }

  /** What was given away is in neither queue nor pool, so it cannot be given again. */
  lemma GivenIsGone(steps: seq<Step>, i: nat)
    requires Exec(INIT, steps).Some? && i < |Exec(INIT, steps).value.given|
    ensures var s := Exec(INIT, steps).value;
            s.given[i].1 !in s.idle && s.given[i].0 !in s.pending && s.given[i].0 !in s.dropped
  {
    var s := Exec(INIT, steps).value;
    var (r, c) := s.given[i];
    PairCounted(s.given, i);
    RunCounts(INIT, steps, r);
    RunCounts(INIT, steps, c);
    if c in s.idle { Counted(s.idle, c); }
    if r in s.pending { Counted(s.pending, r); }
    if r in s.dropped { Counted(s.dropped, r); }
  }

  /** Queued requests are served first come, first served, and a failed announcement takes back its own request or none. */
  lemma FirstComeFirstServed(steps: seq<Step>)
    requires Exec(INIT, steps).Some?
    ensures var s := Exec(INIT, steps).value;
            && s.queued == s.served + s.pending
            && (s.loop.RollingBack? ==> (s.pending != [] && Last(s.pending) == s.loop.req) || s.loop.req in s.served)
  {
    RunOrder(INIT, steps);
    var s := Exec(INIT, steps).value;
    if s.loop.RollingBack? {
      RollBackState(s);
    }
  }

  lemma RollBackState(s: State)
    requires InOrder(s) && s.loop.RollingBack?
    ensures (s.pending != [] && Last(s.pending) == s.loop.req) || s.loop.req in s.served
  {
    if s.pending == [] {
      assert s.queued == s.served && Last(s.served) in s.served;
    } else {
      assert Last(s.queued) == Last(s.pending);
    }
  }

  /** A request waits although a connection is idle. */
  predicate Both(s: State) {
    s.pending != [] && s.idle != []
  }

  /** At some point of the run a request waits although a connection is idle. */
  predicate Coexist(s: State, steps: seq<Step>)
    decreases |steps|
  {
    Both(s) || (steps != [] && Enabled(s, steps[0]) && Coexist(Next(s, steps[0]), steps[1..]))
  }

  /**
   * Some request is pushed onto the queue although a connection was parked after that request had found the
   * pool empty; `parked` says whether one was parked since the last look at the pool.
   */
  predicate LatePush(steps: seq<Step>, parked: bool)
    decreases |steps|
  {
    steps != [] &&
    (|| (steps[0].PushPending? && parked)
     || LatePush(steps[1..], if steps[0].TryIdle? then false else if steps[0].Park? then true else parked))
  }

  /** A connection is parked only while it keeps the empty queue locked, and between look and push the pool only grows. */
  predicate Watching(s: State, parked: bool) {
    && (s.parking.Some? ==> s.pending == [])
    && (s.loop.Missed? ==> (parked <==> s.idle != []))
  }

  lemma {:induction false} CoexistExact(s: State, steps: seq<Step>, parked: bool)
    requires Exec(s, steps).Some? && Watching(s, parked) && !Both(s)
    ensures Coexist(s, steps) <==> LatePush(steps, parked)
    decreases |steps|
  {
    if steps != [] {
      var s' := Next(s, steps[0]);
      if !Both(s') {
        CoexistExact(s', steps[1..], if steps[0].TryIdle? then false else if steps[0].Park? then true else parked);
      }
    }
  }

  /**
   * The two locks do not make look-up and queueing one action. In every run, a waiting request and an idle
   * connection coexist at some point if and only if some connection is parked between a request's look at the
   * pool and its push onto the queue.
   */
  lemma WaitingBesideIdleIff(steps: seq<Step>)
    requires Exec(INIT, steps).Some?
    ensures Coexist(INIT, steps) <==> LatePush(steps, false)
  {
    CoexistExact(INIT, steps, false);
  }

  /** Such a run exists. */
  lemma WaitingBesideIdle(r: Req, c: Conn)
    ensures var run := [Request(r), TryIdle, Arrive(c), TakeQueue(c), Park, PushPending];
            && Exec(INIT, run).Some?
            && Exec(INIT, run).value.pending == [r] && Exec(INIT, run).value.idle == [c]
  {
    Exec3(INIT, Request(r), TryIdle, Arrive(c));
    var s3 := Next(Next(Next(INIT, Request(r)), TryIdle), Arrive(c));
    Exec3(s3, TakeQueue(c), Park, PushPending);
    var first, second := [Request(r), TryIdle, Arrive(c)], [TakeQueue(c), Park, PushPending];
    ExecConcat(INIT, first, s3, second);
    assert first + second == [Request(r), TryIdle, Arrive(c), TakeQueue(c), Park, PushPending];
  }

  // ----- the object whose queues are updated -----

  class Control {
    var pending: seq<Req>
    var idle: seq<Conn>
    ghost var history: State

    ghost predicate Valid()
      reads this
    {
      && history.pending == pending && history.idle == idle
      && history.loop.Waiting? && history.parking.None? && history.starting == {} && history.delivering == []
    }

    constructor ()
      ensures Valid() && history == INIT
    {
      pending, idle, history := [], [], INIT;
    }

    /** One request, undisturbed: an idle connection, or a place in the queue unless the client cannot be told. */
    method HandleWorkConnRequest(req: Req, replyOk: bool, sendOk: bool) returns (ok: bool)
      requires Valid() && req !in history.requested
      modifies this
      ensures Valid()
      ensures var run := if old(idle) != [] then [Request(req), TryIdle, LoopReply(replyOk)]
                         else if sendOk then [Request(req), TryIdle, PushPending, Announce(true)]
                         else [Request(req), TryIdle, PushPending, Announce(false), PopBack];
              Exec(old(history), run) == Some(history)
      ensures ok == if old(idle) != [] then replyOk else sendOk
    {
      ghost var s0 := history;
      ghost var s1 := Next(s0, Request(req));
      ghost var s2 := Next(s1, TryIdle);
      if idle != [] {
        idle := Init(idle);
        history := Next(s2, LoopReply(replyOk));
        Exec3(s0, Request(req), TryIdle, LoopReply(replyOk));
        return replyOk;
      }
      ghost var s3 := Next(s2, PushPending);
      pending := pending + [req];
      Exec3(s0, Request(req), TryIdle, PushPending);
      if sendOk {
        history := Next(s3, Announce(true));
        ExecMore(s0, [Request(req), TryIdle, PushPending], s3, Announce(true));
        assert [Request(req), TryIdle, PushPending] + [Announce(true)]
            == [Request(req), TryIdle, PushPending, Announce(true)];
      } else {
        pending := Init(pending);
        history := Next(Next(s3, Announce(false)), PopBack);
        ExecMore(s0, [Request(req), TryIdle, PushPending], s3, Announce(false));
        assert [Request(req), TryIdle, PushPending] + [Announce(false)]
            == [Request(req), TryIdle, PushPending, Announce(false)];
        ExecMore(s0, [Request(req), TryIdle, PushPending, Announce(false)], Next(s3, Announce(false)), PopBack);
        assert [Request(req), TryIdle, PushPending, Announce(false)] + [PopBack]
            == [Request(req), TryIdle, PushPending, Announce(false), PopBack];
      }
      ok := sendOk;
    }

    /** One connection, undisturbed: the oldest queued request, or the idle pool. */
    method HandleWorkConn(conn: Conn, replyOk: bool) returns (ok: bool)
      requires Valid() && conn !in history.arrived
      modifies this
      ensures Valid()
      ensures var run := if old(pending) == [] then [Arrive(conn), TakeQueue(conn), Park]
                         else [Arrive(conn), TakeQueue(conn), Deliver(0, replyOk)];
              Exec(old(history), run) == Some(history)
      ensures ok == (old(pending) == [] || replyOk)
    {
      ghost var s0 := history;
      ghost var s2 := Next(Next(s0, Arrive(conn)), TakeQueue(conn));
      if pending == [] {
        idle := idle + [conn];
        history := Next(s2, Park);
        Exec3(s0, Arrive(conn), TakeQueue(conn), Park);
        return true;
      }
      pending := pending[1..];
      history := Next(s2, Deliver(0, replyOk));
      Exec3(s0, Arrive(conn), TakeQueue(conn), Deliver(0, replyOk));
      ok := replyOk;
    }
  }

  lemma {:induction false} ExecMore(s: State, a: seq<Step>, mid: State, step: Step)
    requires Exec(s, a) == Some(mid) && Enabled(mid, step)
    ensures Exec(s, a + [step]) == Some(Next(mid, step))
    decreases |a|
  {
    if a == [] {
      assert (a + [step])[1..] == [];
      assert Exec(Next(s, step), []) == Some(Next(s, step));
    } else {
      assert (a + [step])[1..] == a[1..] + [step];
      ExecMore(Next(s, a[0]), a[1..], mid, step);
    }
  }

  lemma {:induction false} ExecConcat(s: State, a: seq<Step>, mid: State, b: seq<Step>)
    requires Exec(s, a) == Some(mid)
    ensures Exec(s, a + b) == Exec(mid, b)
    decreases |a|
  {
    if a == [] {
      assert a + b == b;
    } else {
      assert (a + b)[1..] == a[1..] + b;
      ExecConcat(Next(s, a[0]), a[1..], mid, b);
    }
  }

  lemma Exec3(s: State, a: Step, b: Step, c: Step)
    requires Enabled(s, a) && Enabled(Next(s, a), b) && Enabled(Next(Next(s, a), b), c)
    ensures Exec(s, [a, b, c]) == Some(Next(Next(Next(s, a), b), c))
  {
    ExecMore(s, [], s, a);
    assert [] + [a] == [a];
    ExecMore(s, [a], Next(s, a), b);
    ExecMore(s, [a, b], Next(Next(s, a), b), c);
    assert [a] + [b] == [a, b] && [a, b] + [c] == [a, b, c];
  }
}

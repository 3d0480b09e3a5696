/**
 * Token bucket: a semaphore of byte permits, any number of consumers taking permits, and one task
 * that refills it ten times a second.
 *
 * The semaphore is fair, as Tokio's is: permits released go to the longest waiting request first, and
 * a request that cannot be met at once keeps what it could take and waits for the rest. The refill
 * task reads the permit count and adds to it in two separate steps, so consumers run in between.
 */
module Throttle {
  import opened Bytes

  type Id = nat

  const CAST_MODULUS: nat := 0x1_0000_0000

  function Min(a: nat, b: nat): nat { if a <= b then a else b }

  /** Permits added per tick. */
  function Refill(rate: nat): nat { if rate / 10 >= 1 then rate / 10 else 1 }

  /** The arguments `consume` passes to the semaphore, one after the other; each is cast to 32 bits. */
  function Requests(bytes: nat, rate: nat): (r: seq<nat>)
    requires rate >= 1
    ensures forall n :: n in r ==> n <= rate
    decreases bytes
  {
    if bytes == 0 then []
    else
      var take := Min(bytes, rate);
      [take % CAST_MODULUS] + Requests(bytes - take, rate)
  }

  function Sum(s: seq<nat>): nat {
    if s == [] then 0 else s[0] + Sum(s[1..])
  }

  /** `consume` itself, up to the semaphore calls it makes. */
  method ConsumeRequests(bytes: nat, rate: nat) returns (requests: seq<nat>)
    requires rate >= 1
    ensures requests == Requests(bytes, rate)
  {
    requests := [];
    var remaining: nat := bytes;
    while remaining > 0
      invariant requests + Requests(remaining, rate) == Requests(bytes, rate)
    {
      var take := Min(remaining, rate);
      assert requests + Requests(remaining, rate)
          == (requests + [take % CAST_MODULUS]) + Requests(remaining - take, rate);
      requests := requests + [take % CAST_MODULUS];
      remaining := remaining - take;
    }
  }

  lemma CastFits(n: nat)
    requires n < CAST_MODULUS
    ensures n % CAST_MODULUS == n
  {
    DivModUnique(n, CAST_MODULUS, 0, n);
  }

  lemma CastLoses(n: nat)
    requires n >= CAST_MODULUS
    ensures n % CAST_MODULUS < n
  {
  }

  lemma {:induction false} RequestsAtMost(bytes: nat, rate: nat)
    requires rate >= 1
    ensures Sum(Requests(bytes, rate)) <= bytes
    decreases bytes
  {
    if bytes > 0 {
      var take := Min(bytes, rate);
      RequestsAtMost(bytes - take, rate);
      assert take % CAST_MODULUS <= take;
    }
  }

  /**
   * The requests of one `consume` add up to exactly the bytes asked for if and only if no chunk is
   * cut by the cast to 32 bits, that is, when the amount or the rate fits in 32 bits.
   */
  lemma {:induction false} RequestsExact(bytes: nat, rate: nat)
    requires rate >= 1
    ensures Sum(Requests(bytes, rate)) == bytes <==> bytes < CAST_MODULUS || rate < CAST_MODULUS
    decreases bytes
  {
    if bytes > 0 {
      var take := Min(bytes, rate);
      if take < CAST_MODULUS {
        CastFits(take);
        RequestsExact(bytes - take, rate);
      } else {
        CastLoses(take);
        RequestsAtMost(bytes - take, rate);
      }
    }
  }

  // ----- the semaphore, its waiters and the refill task

  datatype Waiter = Waiter(id: Id, asked: nat, missing: nat)
  datatype Grant = Grant(id: Id, amount: nat)

  datatype State = State(
    permits: nat,
    queue: seq<Waiter>,
    refill: Option<nat>,        // what the refill task computed and has not added yet
    bytes: map<Id, nat>,        // what each `consume` call was asked for
    owed: map<Id, seq<nat>>,    // its requests not granted yet, the waiting one first
    log: seq<Grant>,
    added: nat)

  function Init(rate: nat): State {
    State(rate, [], None, map[], map[], [], 0)
  }

  function Total(log: seq<Grant>): nat {
    if log == [] then 0 else Total(log[..|log| - 1]) + log[|log| - 1].amount
  }

  /** What was granted to `c`, in order. */
  function Of(log: seq<Grant>, c: Id): seq<nat> {
    if log == [] then []
    else
      var before, last := Of(log[..|log| - 1], c), log[|log| - 1];
      if last.id == c then before + [last.amount] else before
  }

  predicate InQueue(queue: seq<Waiter>, c: Id) {
    exists i :: 0 <= i < |queue| && queue[i].id == c
  }

  /** The first outstanding request of `c` is met. */
  function Granted(s: State, c: Id): State
    requires c in s.owed && s.owed[c] != []
  {
    s.(owed := s.owed[c := s.owed[c][1..]], log := s.log + [Grant(c, s.owed[c][0])])
  }

  predicate Stuck(owed: map<Id, seq<nat>>, w: Waiter) {
    w.id in owed && owed[w.id] != [] && owed[w.id][0] == w.asked
  }

  /** Each waiter is stuck on the first outstanding request of its own `consume`. */
  ghost predicate Waiting(s: State) {
    && (forall i :: 0 <= i < |s.queue| ==> Stuck(s.owed, s.queue[i]))
    && (forall i, j :: 0 <= i < j < |s.queue| ==> s.queue[i].id != s.queue[j].id)
  }

  /** `amount` fresh permits go to the waiters in order; what is left becomes available. */
  ghost function Release(s: State, amount: nat): State
    requires Waiting(s)
    decreases |s.queue|
  {
    if amount == 0 then s
    else if s.queue == [] then s.(permits := s.permits + amount)
    else
      var w := s.queue[0];
      if w.missing <= amount then Release(Served(s), amount - w.missing)
      else s.(queue := [w.(missing := w.missing - amount)] + s.queue[1..])
  }

  /** The longest waiting request is met. */
  ghost function Served(s: State): (s': State)
    requires Waiting(s) && s.queue != []
    ensures Waiting(s') && s'.queue == s.queue[1..]
  {
    assert Stuck(s.owed, s.queue[0]);
    var s' := Granted(s, s.queue[0].id).(queue := s.queue[1..]);
    assert forall i :: 0 <= i < |s'.queue| ==> s'.queue[i] == s.queue[i + 1] && Stuck(s.owed, s.queue[i + 1]);
    s'
  }

  function Acquire(s: State, c: Id): State
    requires c in s.owed && s.owed[c] != []
  {
    var need := s.owed[c][0];
    if need <= s.permits then Granted(s, c).(permits := s.permits - need)
    else s.(permits := 0, queue := s.queue + [Waiter(c, need, need - s.permits)])
  }

  /** The refill task calls `add_permits` with the amount in hand. */
  function Releasing(s: State): State
    requires s.refill.Some?
  {
    s.(refill := None, added := s.added + s.refill.value)
  }

  datatype Step =
    | Begin(c: Id, amount: nat)
    | Ask(c: Id)
    | ReadPermits
    | AddPermits

  ghost predicate Enabled(s: State, step: Step) {
    match step
    case Begin(c, _) => c !in s.owed
    case Ask(c) => c in s.owed && s.owed[c] != [] && !InQueue(s.queue, c)
    case ReadPermits => s.refill.None?
    case AddPermits => s.refill.Some?
  }

  ghost function Next(rate: nat, s: State, step: Step): State
    requires rate >= 1 && Waiting(s) && Enabled(s, step)
  {
    match step
    case Begin(c, amount) => s.(bytes := s.bytes[c := amount], owed := s.owed[c := Requests(amount, rate)])
    case Ask(c) => Acquire(s, c)
    case ReadPermits => s.(refill := Some(Min(Refill(rate), if rate <= s.permits then 0 else rate - s.permits)))
    case AddPermits => Release(Releasing(s), s.refill.value)
  }

  // ----- the invariant

  /** Permits already assigned to the request at the head of the queue. */
  function Partial(queue: seq<Waiter>): int {
    if queue == [] then 0 else queue[0].asked - queue[0].missing
  }

  ghost predicate Queued(rate: nat, queue: seq<Waiter>) {
    && (forall i :: 0 <= i < |queue| ==> 1 <= queue[i].missing <= queue[i].asked <= rate)
    && (forall i :: 1 <= i < |queue| ==> queue[i].missing == queue[i].asked)
  }

  /** Permits are bounded by the rate even counting what the refill task is about to add. */
  ghost predicate Bounded(rate: nat, s: State, inFlight: nat) {
    && s.permits + inFlight + (if s.refill.Some? then s.refill.value else 0) <= rate
    && (s.refill.Some? ==> s.refill.value <= Refill(rate))
    && (s.queue != [] ==> s.permits == 0)
  }

  ghost predicate Conserved(rate: nat, s: State, inFlight: nat) {
    rate + s.added == Total(s.log) + s.permits + Partial(s.queue) + inFlight
  }

  /** What a `consume` call got and what it still has to ask for are exactly its requests. */
  ghost predicate Account(rate: nat, s: State, c: Id)
    requires rate >= 1
  {
    c in s.owed ==> c in s.bytes && Of(s.log, c) + s.owed[c] == Requests(s.bytes[c], rate)
  }

  ghost predicate Accounts(rate: nat, s: State)
    requires rate >= 1
  {
    && (forall c :: c in s.owed ==> Account(rate, s, c))
    && (forall c :: c !in s.owed ==> Of(s.log, c) == [])
  }

  ghost predicate Tokens(rate: nat, s: State, inFlight: nat) {
    Waiting(s) && Queued(rate, s.queue) && Bounded(rate, s, inFlight) && Conserved(rate, s, inFlight)
  }

  ghost predicate Inv(rate: nat, s: State) {
    rate >= 1 && Tokens(rate, s, 0) && Accounts(rate, s)
  }

  lemma OfLast(log: seq<Grant>, g: Grant, c: Id)
    ensures Of(log + [g], c) == if g.id == c then Of(log, c) + [g.amount] else Of(log, c)
    ensures Total(log + [g]) == Total(log) + g.amount
  {
    assert (log + [g])[..|log|] == log;
  }

  lemma GrantedAccount(rate: nat, s: State, c: Id)
    requires rate >= 1 && Account(rate, s, c) && c in s.owed && s.owed[c] != []
    ensures Account(rate, Granted(s, c), c)
    ensures s.owed[c][0] <= rate
  {
    var s' := Granted(s, c);
    OfLast(s.log, Grant(c, s.owed[c][0]), c);
    assert Of(s'.log, c) + s'.owed[c] == Of(s.log, c) + s.owed[c];
    assert s.owed[c][0] == Requests(s.bytes[c], rate)[|Of(s.log, c)|];
    assert s.owed[c][0] in Requests(s.bytes[c], rate);
  }

  lemma GrantedAccounts(rate: nat, s: State, c: Id)
    requires rate >= 1 && Accounts(rate, s) && c in s.owed && s.owed[c] != []
    ensures Accounts(rate, Granted(s, c))
    ensures s.owed[c][0] <= rate
  {
    var s' := Granted(s, c);
    GrantedAccount(rate, s, c);
    forall d | d != c ensures Of(s'.log, d) == Of(s.log, d) {
      OfLast(s.log, Grant(c, s.owed[c][0]), d);
    }
    forall d | d in s'.owed && d != c ensures Account(rate, s', d) {
      assert Account(rate, s, d);
    }
  }

  /** Accounts depend on the log and the request lists only. */
  lemma AccountsFrame(rate: nat, s: State, s': State)
    requires rate >= 1 && Accounts(rate, s)
    requires s'.log == s.log && s'.owed == s.owed && s'.bytes == s.bytes
    ensures Accounts(rate, s')
  {
    forall d | d in s'.owed ensures Account(rate, s', d) {
      assert Account(rate, s, d);
    }
  }

  lemma ServedTokens(rate: nat, s: State, amount: nat)
    requires Tokens(rate, s, amount) && s.refill.None? && s.queue != [] && s.queue[0].missing <= amount
    ensures Tokens(rate, Served(s), amount - s.queue[0].missing)
  {
    var w := s.queue[0];
    assert Stuck(s.owed, w);
    OfLast(s.log, Grant(w.id, w.asked), w.id);
    QueuedTail(rate, s.queue);
  }

  lemma QueuedTail(rate: nat, queue: seq<Waiter>)
    requires Queued(rate, queue) && queue != []
    ensures Queued(rate, queue[1..]) && Partial(queue[1..]) == 0
  {
  }

  lemma AssignedTokens(rate: nat, s: State, amount: nat)
    requires Tokens(rate, s, amount) && s.refill.None? && s.queue != [] && 0 < amount < s.queue[0].missing
    ensures Tokens(rate, Release(s, amount), 0)
  {
    var w := s.queue[0];
    var s' := s.(queue := [w.(missing := w.missing - amount)] + s.queue[1..]);
    assert Stuck(s.owed, w);
    assert forall i :: 1 <= i < |s.queue| ==> s'.queue[i] == s.queue[i];
  }

  lemma PooledTokens(rate: nat, s: State, amount: nat)
    requires Tokens(rate, s, amount) && s.refill.None? && s.queue == []
    ensures Tokens(rate, s.(permits := s.permits + amount), 0)
  {
  }

  lemma {:induction false} ReleaseTokens(rate: nat, s: State, amount: nat)
    requires Tokens(rate, s, amount) && s.refill.None?
    ensures Tokens(rate, Release(s, amount), 0)
    ensures Release(s, amount).refill.None? && Release(s, amount).added == s.added
    decreases |s.queue|
  {
    var s' := Release(s, amount);
    if amount == 0 {
      assert s' == s;
    } else if s.queue == [] {
      PooledTokens(rate, s, amount);
    } else if s.queue[0].missing <= amount {
      var served, rest := Served(s), amount - s.queue[0].missing;
      ServedTokens(rate, s, amount);
      ReleaseTokens(rate, served, rest);
      assert s' == Release(served, rest);
    } else {
      AssignedTokens(rate, s, amount);
    }
  }

  lemma {:induction false} ReleaseAccounts(rate: nat, s: State, amount: nat)
    requires rate >= 1 && Waiting(s) && Accounts(rate, s)
    ensures Accounts(rate, Release(s, amount))
    decreases |s.queue|
  {
    var s' := Release(s, amount);
    if amount > 0 && s.queue != [] && s.queue[0].missing <= amount {
      var c := s.queue[0].id;
      assert Stuck(s.owed, s.queue[0]);
      GrantedAccounts(rate, s, c);
      AccountsFrame(rate, Granted(s, c), Served(s));
      ReleaseAccounts(rate, Served(s), amount - s.queue[0].missing);
    } else {
      AccountsFrame(rate, s, s');
    }
  }

  lemma GrantKeeps(rate: nat, s: State, c: Id)
    requires Inv(rate, s) && Enabled(s, Ask(c)) && s.owed[c][0] <= s.permits
    ensures Inv(rate, Acquire(s, c))
  {
    GrantedAccounts(rate, s, c);
    AccountsFrame(rate, Granted(s, c), Acquire(s, c));
    OfLast(s.log, Grant(c, s.owed[c][0]), c);
    assert forall i :: 0 <= i < |s.queue| ==> Stuck(s.owed, s.queue[i]) && s.queue[i].id != c;
  }

  lemma WaitTokens(rate: nat, s: State, c: Id)
    requires Tokens(rate, s, 0) && Enabled(s, Ask(c)) && s.permits < s.owed[c][0] <= rate
    ensures Tokens(rate, Acquire(s, c), 0)
  {
    var s', n := Acquire(s, c), |s.queue|;
    assert forall i :: 0 <= i < n ==> s'.queue[i] == s.queue[i];
    assert forall i :: 0 <= i < n ==> s.queue[i].id != c && Stuck(s.owed, s.queue[i]);
  }

  lemma WaitKeeps(rate: nat, s: State, c: Id)
    requires Inv(rate, s) && Enabled(s, Ask(c)) && s.owed[c][0] > s.permits
    ensures Inv(rate, Acquire(s, c))
  {
    assert Account(rate, s, c);
    GrantedAccount(rate, s, c);
    WaitTokens(rate, s, c);
    AccountsFrame(rate, s, Acquire(s, c));
  }

  lemma BeginKeeps(rate: nat, s: State, c: Id, amount: nat)
    requires Inv(rate, s) && Enabled(s, Begin(c, amount))
    ensures Inv(rate, Next(rate, s, Begin(c, amount)))
  {
    var s' := Next(rate, s, Begin(c, amount));
    assert Of(s.log, c) + s'.owed[c] == Requests(amount, rate);
    forall d | d in s'.owed ensures Account(rate, s', d) {
      assert d != c ==> Account(rate, s, d);
    }
  }

  lemma ReleasingTokens(rate: nat, s: State)
    requires Tokens(rate, s, 0) && s.refill.Some?
    ensures Tokens(rate, Releasing(s), s.refill.value)
  {
  }

  lemma TickKeeps(rate: nat, s: State)
    requires Inv(rate, s) && s.refill.Some?
    ensures Inv(rate, Release(Releasing(s), s.refill.value))
    ensures Release(Releasing(s), s.refill.value).refill.None?
    ensures Release(Releasing(s), s.refill.value).added == s.added + s.refill.value
  {
    ReleasingTokens(rate, s);
    AccountsFrame(rate, s, Releasing(s));
    ReleaseAccounts(rate, Releasing(s), s.refill.value);
    ReleaseTokens(rate, Releasing(s), s.refill.value);
  }

  lemma StepKeeps(rate: nat, s: State, step: Step)
    requires Inv(rate, s) && Enabled(s, step)
    ensures Inv(rate, Next(rate, s, step))
  {
    match step
    case Begin(c, amount) => BeginKeeps(rate, s, c, amount);
    case Ask(c) =>
      if s.owed[c][0] <= s.permits { GrantKeeps(rate, s, c); } else { WaitKeeps(rate, s, c); }
    case ReadPermits =>
      AccountsFrame(rate, s, Next(rate, s, step));
    case AddPermits =>
      TickKeeps(rate, s);
  }

  // ----- runs

  ghost predicate Run(rate: nat, s: State, steps: seq<Step>)
    decreases |steps|
  {
    && rate >= 1 && Waiting(s)
    && (steps != [] ==> Enabled(s, steps[0]) && Run(rate, Next(rate, s, steps[0]), steps[1..]))
  }

  ghost function Exec(rate: nat, s: State, steps: seq<Step>): State
    requires Run(rate, s, steps)
    decreases |steps|
  {
    if steps == [] then s else Exec(rate, Next(rate, s, steps[0]), steps[1..])
  }

  /** Ticks of the refill task in a run, counted where the permits arrive. */
  function Ticks(steps: seq<Step>): nat {
    if steps == [] then 0 else (if steps[0].AddPermits? then 1 else 0) + Ticks(steps[1..])
  }

  /** The most those ticks can add. */
  function Allowance(refill: nat, steps: seq<Step>): nat {
    if steps == [] then 0 else (if steps[0].AddPermits? then refill else 0) + Allowance(refill, steps[1..])
  }

  lemma {:induction false} AllowanceIsTicks(refill: nat, steps: seq<Step>)
    ensures Allowance(refill, steps) == Ticks(steps) * refill
  {
    if steps != [] {
      AllowanceIsTicks(refill, steps[1..]);
      var n := Ticks(steps[1..]);
      assert (n + 1) * refill == n * refill + refill;
    }
  }

  lemma InitInv(rate: nat)
    requires rate >= 1
    ensures Inv(rate, Init(rate))
  {
  }

  lemma AddedPerStep(rate: nat, s: State, step: Step)
    requires Inv(rate, s) && Enabled(s, step)
    ensures Next(rate, s, step).added <= s.added + (if step.AddPermits? then Refill(rate) else 0)
  {
    if step.AddPermits? {
      TickKeeps(rate, s);
    }
  }

  lemma {:induction false} RunKeeps(rate: nat, s: State, steps: seq<Step>)
    requires Run(rate, s, steps) && Inv(rate, s)
    ensures Inv(rate, Exec(rate, s, steps))
    ensures Exec(rate, s, steps).added <= s.added + Allowance(Refill(rate), steps)
    decreases |steps|
  {
    if steps != [] {
      var s' := Next(rate, s, steps[0]);
      StepKeeps(rate, s, steps[0]);
      AddedPerStep(rate, s, steps[0]);
      RunKeeps(rate, s', steps[1..]);
    }
  }

  /**
   * The bucket is never over-full in any reachable state, counting both what is assigned to a waiting
   * request and what the refill task has decided to add but not added yet.
   */
  lemma PermitsBounded(rate: nat, steps: seq<Step>)
    requires Run(rate, Init(rate), steps)
    ensures var s := Exec(rate, Init(rate), steps);
            && s.permits + (if s.refill.Some? then s.refill.value else 0) <= rate
            && s.permits + Partial(s.queue) <= rate
            && rate + s.added == Total(s.log) + s.permits + Partial(s.queue)
  {
    InitInv(rate);
    RunKeeps(rate, Init(rate), steps);
  }

  /**
   * The rate bound, over any window of any run: between two reachable states the bytes granted exceed
   * one burst plus the refills of the window by nothing.
   */
  lemma RateBound(rate: nat, before: seq<Step>, window: seq<Step>)
    requires Run(rate, Init(rate), before) && Run(rate, Exec(rate, Init(rate), before), window)
    ensures var s := Exec(rate, Init(rate), before);
            Total(Exec(rate, s, window).log) - Total(s.log) <= rate + Ticks(window) * Refill(rate)
  {
    InitInv(rate);
    RunKeeps(rate, Init(rate), before);
    RunKeeps(rate, Exec(rate, Init(rate), before), window);
    AllowanceIsTicks(Refill(rate), window);
  }

  /**
   * Every `consume` call is granted a prefix of its requests, in chunks of at most the rate; once it has
   * nothing left to ask, it was granted exactly the bytes it was called with if and only if the amount
   * or the rate fits in 32 bits.
   */
  lemma ConsumeExact(rate: nat, steps: seq<Step>, c: Id)
    requires Run(rate, Init(rate), steps) && c in Exec(rate, Init(rate), steps).owed
    ensures var s := Exec(rate, Init(rate), steps);
            && c in s.bytes
            && Of(s.log, c) <= Requests(s.bytes[c], rate)
            && (forall n :: n in Of(s.log, c) ==> n <= rate)
            && (s.owed[c] == [] ==>
                  (Sum(Of(s.log, c)) == s.bytes[c] <==> s.bytes[c] < CAST_MODULUS || rate < CAST_MODULUS))
  {
    InitInv(rate);
    RunKeeps(rate, Init(rate), steps);
    var s := Exec(rate, Init(rate), steps);
    assert Account(rate, s, c);
    var got, all := Of(s.log, c), Requests(s.bytes[c], rate);
    forall n | n in got ensures n <= rate {
      assert n in all;
    }
    RequestsExact(s.bytes[c], rate);
    assert s.owed[c] == [] ==> got == all;
  }

  // ----- no waiting request starves

  /** Permits that must arrive before the request of `c` is met. */
  function Ahead(queue: seq<Waiter>, c: Id): nat {
    if queue == [] then 0
    else if queue[0].id == c then queue[0].missing
    else queue[0].missing + Ahead(queue[1..], c)
  }

  lemma {:induction false} AheadAppend(queue: seq<Waiter>, w: Waiter, c: Id)
    requires InQueue(queue, c)
    ensures Ahead(queue + [w], c) == Ahead(queue, c)
  {
    if queue[0].id != c {
      var i :| 0 <= i < |queue| && queue[i].id == c;
      assert queue[1..][i - 1].id == c;
      assert (queue + [w])[1..] == queue[1..] + [w];
      AheadAppend(queue[1..], w, c);
    }
  }

  /** Fresh permits bring `c` closer by their full amount, or serve it. */
  lemma {:induction false} ReleaseAhead(rate: nat, s: State, amount: nat, c: Id)
    requires Tokens(rate, s, amount) && s.refill.None? && InQueue(s.queue, c)
    ensures var s' := Release(s, amount);
            if amount >= Ahead(s.queue, c) then |Of(s'.log, c)| > |Of(s.log, c)|
            else InQueue(s'.queue, c) && Ahead(s'.queue, c) == Ahead(s.queue, c) - amount && Of(s'.log, c) == Of(s.log, c)
    decreases |s.queue|
  {
    var w := s.queue[0];
    var i :| 0 <= i < |s.queue| && s.queue[i].id == c;
    if amount > 0 {
      if w.missing <= amount {
        ServedTokens(rate, s, amount);
        OfLast(s.log, Grant(w.id, s.owed[w.id][0]), c);
        if w.id == c {
          ReleaseLog(Served(s), amount - w.missing, c);
        } else {
          assert Served(s).queue[i - 1].id == c;
          ReleaseAhead(rate, Served(s), amount - w.missing, c);
        }
      } else {
        var s' := Release(s, amount);
        assert s'.queue[i].id == c;
        assert s'.queue[1..] == s.queue[1..];
      }
    }
  }

  lemma {:induction false} ReleaseLog(s: State, amount: nat, c: Id)
    requires Waiting(s)
    ensures |Of(Release(s, amount).log, c)| >= |Of(s.log, c)|
    decreases |s.queue|
  {
    if amount > 0 && s.queue != [] && s.queue[0].missing <= amount {
      var w := s.queue[0];
      assert Stuck(s.owed, w);
      OfLast(s.log, Grant(w.id, s.owed[w.id][0]), c);
      ReleaseLog(Served(s), amount - w.missing, c);
    }
  }

  lemma StepLog(rate: nat, s: State, step: Step, c: Id)
    requires Inv(rate, s) && Enabled(s, step)
    ensures |Of(Next(rate, s, step).log, c)| >= |Of(s.log, c)|
  {
    match step
    case Begin(_, _) =>
    case ReadPermits =>
    case Ask(d) => OfLast(s.log, Grant(d, s.owed[d][0]), c);
    case AddPermits =>
      ReleaseLog(Releasing(s), s.refill.value, c);
  }

  lemma {:induction false} RunLog(rate: nat, s: State, steps: seq<Step>, c: Id)
    requires Run(rate, s, steps) && Inv(rate, s)
    ensures |Of(Exec(rate, s, steps).log, c)| >= |Of(s.log, c)|
    decreases |steps|
  {
    if steps != [] {
      StepKeeps(rate, s, steps[0]);
      StepLog(rate, s, steps[0], c);
      RunLog(rate, Next(rate, s, steps[0]), steps[1..], c);
    }
  }

  /** While `c` waits, the refill task only ever holds a full refill it read after `c` began to wait. */
  ghost predicate FullRefill(rate: nat, s: State) {
    s.refill.Some? ==> s.refill.value == Refill(rate)
  }

  lemma WaitStep(rate: nat, s: State, step: Step, c: Id)
    requires Inv(rate, s) && Enabled(s, step) && !step.AddPermits? && InQueue(s.queue, c)
    ensures var s' := Next(rate, s, step);
            && InQueue(s'.queue, c) && Ahead(s'.queue, c) == Ahead(s.queue, c) && Of(s'.log, c) == Of(s.log, c)
            && (s.refill.Some? ==> s'.refill == s.refill)
            && (s.refill.None? ==> FullRefill(rate, s'))
  {
    var i :| 0 <= i < |s.queue| && s.queue[i].id == c;
    if step.Ask? {
      var s' := Acquire(s, step.c);
      OfLast(s.log, Grant(step.c, s.owed[step.c][0]), c);
      assert s'.queue[i].id == c;
      AheadAppend(s.queue, Waiter(step.c, s.owed[step.c][0], s.owed[step.c][0]), c);
    }
  }

  lemma {:induction false} ServedByAllowance(rate: nat, s: State, steps: seq<Step>, c: Id)
    requires Run(rate, s, steps) && Inv(rate, s) && InQueue(s.queue, c) && FullRefill(rate, s)
    requires Allowance(Refill(rate), steps) >= Ahead(s.queue, c)
    ensures |Of(Exec(rate, s, steps).log, c)| > |Of(s.log, c)|
    decreases |steps|
  {
    AheadPositive(rate, s.queue, c);
    var s' := Next(rate, s, steps[0]);
    StepKeeps(rate, s, steps[0]);
    if steps[0].AddPermits? {
      WaitTick(rate, s, c);
      if Refill(rate) >= Ahead(s.queue, c) {
        RunLog(rate, s', steps[1..], c);
      } else {
        ServedByAllowance(rate, s', steps[1..], c);
      }
    } else {
      WaitStep(rate, s, steps[0], c);
      ServedByAllowance(rate, s', steps[1..], c);
    }
  }

  /** What a refill already in hand is short of a full one. */
  function Shortfall(rate: nat, s: State): nat {
    if s.refill.Some? && s.refill.value < Refill(rate) then Refill(rate) - s.refill.value else 0
  }

  /** A refill read before `c` began to wait may be a smaller one; it helps, and every later one is full. */
  lemma {:induction false} ServedAfterHeld(rate: nat, s: State, steps: seq<Step>, c: Id)
    requires Run(rate, s, steps) && Inv(rate, s) && InQueue(s.queue, c) && s.refill.Some?
    requires Allowance(Refill(rate), steps) >= Ahead(s.queue, c) + Shortfall(rate, s)
    ensures |Of(Exec(rate, s, steps).log, c)| > |Of(s.log, c)|
    decreases |steps|
  {
    AheadPositive(rate, s.queue, c);
    var s' := Next(rate, s, steps[0]);
    StepKeeps(rate, s, steps[0]);
    if steps[0].AddPermits? {
      WaitTick(rate, s, c);
      if s.refill.value >= Ahead(s.queue, c) {
        RunLog(rate, s', steps[1..], c);
      } else {
        ServedByAllowance(rate, s', steps[1..], c);
      }
    } else {
      WaitStep(rate, s, steps[0], c);
      ServedAfterHeld(rate, s', steps[1..], c);
    }
  }

  lemma WaitTick(rate: nat, s: State, c: Id)
    requires Inv(rate, s) && Enabled(s, AddPermits) && InQueue(s.queue, c)
    ensures var s' := Next(rate, s, AddPermits);
            && s'.refill.None?
            && if s.refill.value >= Ahead(s.queue, c) then |Of(s'.log, c)| > |Of(s.log, c)|
               else InQueue(s'.queue, c) && Ahead(s'.queue, c) == Ahead(s.queue, c) - s.refill.value
                    && Of(s'.log, c) == Of(s.log, c)
  {
    TickKeeps(rate, s);
    ReleasingTokens(rate, s);
    ReleaseAhead(rate, Releasing(s), s.refill.value, c);
  }

  lemma ServedFrom(rate: nat, s: State, steps: seq<Step>, c: Id)
    requires Run(rate, s, steps) && Inv(rate, s) && InQueue(s.queue, c)
    requires Allowance(Refill(rate), steps) >= Ahead(s.queue, c) + Shortfall(rate, s)
    ensures |Of(Exec(rate, s, steps).log, c)| > |Of(s.log, c)|
  {
    if s.refill.None? {
      ServedByAllowance(rate, s, steps, c);
    } else {
      ServedAfterHeld(rate, s, steps, c);
    }
  }

  /**
   * No waiting request starves: from any reachable state, a waiting request is met as soon as the refills cover
   * what it and the requests before it lack, however many other consumers ask meanwhile. When the refill task
   * already holds a refill smaller than a full one, the refills must make up for that too.
   */
  lemma ServedInTime(rate: nat, before: seq<Step>, window: seq<Step>, c: Id)
    requires Run(rate, Init(rate), before) && Run(rate, Exec(rate, Init(rate), before), window)
    requires var s := Exec(rate, Init(rate), before);
             InQueue(s.queue, c) && Ticks(window) * Refill(rate) >= Ahead(s.queue, c) + Shortfall(rate, s)
    ensures var s := Exec(rate, Init(rate), before);
            |Of(Exec(rate, s, window).log, c)| > |Of(s.log, c)|
  {
    InitInv(rate);
    RunKeeps(rate, Init(rate), before);
    AllowanceIsTicks(Refill(rate), window);
    ServedFrom(rate, Exec(rate, Init(rate), before), window, c);
  }

  lemma {:induction false} AheadPositive(rate: nat, queue: seq<Waiter>, c: Id)
    requires Queued(rate, queue) && InQueue(queue, c)
    ensures Ahead(queue, c) > 0
  {
    assert queue[0].missing >= 1;
  }
}

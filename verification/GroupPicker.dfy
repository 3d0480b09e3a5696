/**
 * Backend choice inside a load-balanced tcp group: a round-robin start, then the first backend that
 * is not ejected. A failure ejects a backend for five seconds, a success takes it back at once.
 *
 * Every operation holds the backend lock and reads the clock under it, so one operation is one step
 * and the clock never goes back between steps.
 */
module GroupPicker {
  import opened Bytes
  import RR = RoundRobin

  /** Instants are nanoseconds of the monotonic clock. */
  const BACKEND_EJECT: nat := 5_000_000_000
  const BACKEND_FAIL_THRESHOLD: nat := 1
  const COUNTER_MODULUS: nat := 0x1_0000_0000

  datatype Backend = Backend(id: string, failures: nat, ejectedUntil: Option<nat>)
  datatype Group = Group(backends: seq<Backend>, rr: nat)

  predicate Ejected(b: Backend, now: nat) {
    b.ejectedUntil.Some? && b.ejectedUntil.value > now
  }

  ghost predicate Distinct(bs: seq<Backend>) {
    forall i, j :: 0 <= i < j < |bs| ==> bs[i].id != bs[j].id
  }

  ghost predicate Valid(g: Group) {
    Distinct(g.backends) && g.rr < COUNTER_MODULUS
  }

  ghost predicate Has(g: Group, id: string) {
    exists k :: 0 <= k < |g.backends| && g.backends[k].id == id
  }

  ghost predicate IsEjected(g: Group, id: string, now: nat) {
    exists k :: 0 <= k < |g.backends| && g.backends[k].id == id && Ejected(g.backends[k], now)
  }

  // ----- the five operations

  /** The i-th position looked at, going round from `start`. */
  function Slot(start: nat, i: nat, len: nat): (k: nat)
    requires len > 0
    ensures k < len
  {
    (start + i) % len
  }

  /** Index of the first backend that is not ejected, looking at offsets `i..` from `start`. */
  function FirstFrom(bs: seq<Backend>, start: nat, i: nat, now: nat): (r: Option<nat>)
    requires i <= |bs|
    ensures r.Some? ==> r.value < |bs| && !Ejected(bs[r.value], now)
    decreases |bs| - i
  {
    if i == |bs| then None
    else
      var idx := Slot(start, i, |bs|);
      if Ejected(bs[idx], now) then FirstFrom(bs, start, i + 1, now) else Some(idx)
  }

  function Choice(g: Group, now: nat): (r: Option<nat>)
    ensures r.Some? ==> r.value < |g.backends| && !Ejected(g.backends[r.value], now)
  {
    if g.backends == [] then None else FirstFrom(g.backends, g.rr % |g.backends|, 0, now)
  }

  function Pick(g: Group, now: nat): (Group, Option<string>) {
    if g.backends == [] then (g, None)
    else
      var rr := (g.rr + 1) % COUNTER_MODULUS;
      match Choice(g, now)
      case None => (Group(g.backends, rr), None)
      case Some(k) =>
        (Group(g.backends[k := g.backends[k].(ejectedUntil := None)], rr), Some(g.backends[k].id))
  }

  /** Position of the backend called `id`, or the length when there is none. */
  function IndexOf(bs: seq<Backend>, id: string): (k: nat)
    ensures k <= |bs| && (k < |bs| ==> bs[k].id == id)
    ensures forall i :: 0 <= i < k ==> bs[i].id != id
  {
    if bs == [] || bs[0].id == id then 0 else 1 + IndexOf(bs[1..], id)
  }

  function Succeeded(b: Backend): Backend {
    b.(failures := 0, ejectedUntil := None)
  }

  function Failed(b: Backend, now: nat): Backend {
    var counted := b.(failures := b.failures + 1);
    if counted.failures >= BACKEND_FAIL_THRESHOLD then counted.(ejectedUntil := Some(now + BACKEND_EJECT))
    else counted
  }

  function MarkSuccess(g: Group, id: string): Group {
    var k := IndexOf(g.backends, id);
    if k == |g.backends| then g else g.(backends := g.backends[k := Succeeded(g.backends[k])])
  }

  function MarkFailure(g: Group, id: string, now: nat): Group {
    var k := IndexOf(g.backends, id);
    if k == |g.backends| then g else g.(backends := g.backends[k := Failed(g.backends[k], now)])
  }

  function Add(g: Group, id: string): Group {
    if IndexOf(g.backends, id) < |g.backends| then g
    else g.(backends := g.backends + [Backend(id, 0, None)])
  }

  function Without(bs: seq<Backend>, id: string): (r: seq<Backend>)
    ensures forall b :: b in r <==> b in bs && b.id != id
    ensures Distinct(bs) ==> Distinct(r)
  {
    if bs == [] then []
    else
      assert bs == [bs[0]] + bs[1..];
      if bs[0].id == id then Without(bs[1..], id) else [bs[0]] + Without(bs[1..], id)
  }

  function Remove(g: Group, id: string): Group {
    g.(backends := Without(g.backends, id))
  }

  // ----- runs

  datatype Event =
    | Picking(now: nat)
    | Success(id: string)
    | Failure(id: string, now: nat)
    | Adding(id: string)
    | Removing(id: string)

  function Step(g: Group, e: Event): Group {
    match e
    case Picking(now) => Pick(g, now).0
    case Success(id) => MarkSuccess(g, id)
    case Failure(id, now) => MarkFailure(g, id, now)
    case Adding(id) => Add(g, id)
    case Removing(id) => Remove(g, id)
  }

  function Exec(g: Group, events: seq<Event>): Group
    decreases |events|
  {
    if events == [] then g else Exec(Step(g, events[0]), events[1..])
  }

  /** What the picks of a run returned, in order. */
  function Results(g: Group, events: seq<Event>): seq<Option<string>>
    decreases |events|
  {
    if events == [] then []
    else
      var later := Results(Step(g, events[0]), events[1..]);
      if events[0].Picking? then [Pick(g, events[0].now).1] + later else later
  }

  lemma StepValid(g: Group, e: Event)
    requires Valid(g)
    ensures Valid(Step(g, e))
  {
    if e.Adding? {
      AddValid(g, e.id);
    }
  }

  lemma AddValid(g: Group, id: string)
    requires Valid(g)
    ensures Valid(Add(g, id))
  {
  }

  // ----- exactness of one pick

  lemma {:induction false} FirstFromNone(bs: seq<Backend>, start: nat, i: nat, now: nat)
    requires i <= |bs|
    ensures FirstFrom(bs, start, i, now).None?
       <==> forall j :: i <= j < |bs| ==> Ejected(bs[Slot(start, j, |bs|)], now)
    decreases |bs| - i
  {
    if i < |bs| {
      FirstFromNone(bs, start, i + 1, now);
    }
  }

  /**
   * A pick returns a member that is not ejected, and returns nothing exactly when the group is empty
   * or every member is ejected.
   */
  lemma PickExact(g: Group, now: nat)
    ensures Pick(g, now).1.None? <==> forall k :: 0 <= k < |g.backends| ==> Ejected(g.backends[k], now)
    ensures Pick(g, now).1.Some? ==>
              exists k :: 0 <= k < |g.backends| && Pick(g, now).1 == Some(g.backends[k].id) && !Ejected(g.backends[k], now)
  {
    var bs := g.backends;
    if bs != [] {
      var start := g.rr % |bs|;
      FirstFromNone(bs, start, 0, now);
      if Choice(g, now).None? {
        forall k | 0 <= k < |bs| ensures Ejected(bs[k], now) {
          var i := RR.Reaches(start, k, |bs|);
          assert Slot(start, i, |bs|) == k;
        }
      }
    }
  }

  /** A pick changes nothing about any member that could matter later: it only forgets a deadline already past. */
  lemma PickKeepsHealth(g: Group, now: nat, k: nat, later: nat)
    requires k < |g.backends| && later >= now
    ensures |Pick(g, now).0.backends| == |g.backends|
    ensures Pick(g, now).0.backends[k].(ejectedUntil := None) == g.backends[k].(ejectedUntil := None)
    ensures Ejected(Pick(g, now).0.backends[k], later) <==> Ejected(g.backends[k], later)
  {
  }

  /** The member a pick returns is the first un-ejected one at or after the round-robin start. */
  lemma {:induction false} PickNearest(bs: seq<Backend>, start: nat, i: nat, now: nat)
    returns (offset: nat)
    requires i <= |bs| && FirstFrom(bs, start, i, now).Some?
    ensures i <= offset < |bs| && FirstFrom(bs, start, i, now) == Some(Slot(start, offset, |bs|))
    ensures forall j :: i <= j < offset ==> Ejected(bs[Slot(start, j, |bs|)], now)
    decreases |bs| - i
  {
    if Ejected(bs[Slot(start, i, |bs|)], now) {
      offset := PickNearest(bs, start, i + 1, now);
    } else {
      offset := i;
    }
  }

  // ----- fairness

  predicate Steady(events: seq<Event>) {
    forall e :: e in events ==> !e.Adding? && !e.Removing?
  }

  function Picks(events: seq<Event>): nat {
    if events == [] then 0 else (if events[0].Picking? then 1 else 0) + Picks(events[1..])
  }

  /** Backend `j` is un-ejected whenever the run picks. */
  predicate HealthyAtPicks(g: Group, events: seq<Event>, j: nat)
    decreases |events|
  {
    events != [] ==>
      && (events[0].Picking? ==> j < |g.backends| && !Ejected(g.backends[j], events[0].now))
      && HealthyAtPicks(Step(g, events[0]), events[1..], j)
  }

  lemma SteadyStep(g: Group, e: Event)
    requires !e.Adding? && !e.Removing?
    ensures |Step(g, e).backends| == |g.backends|
    ensures forall k :: 0 <= k < |g.backends| ==> Step(g, e).backends[k].id == g.backends[k].id
    ensures Step(g, e).rr == if e.Picking? && g.backends != [] then (g.rr + 1) % COUNTER_MODULUS else g.rr
  {
  }

  lemma PickAtStart(g: Group, now: nat, j: nat)
    requires j < |g.backends| && g.rr % |g.backends| == j && !Ejected(g.backends[j], now)
    ensures Pick(g, now).1 == Some(g.backends[j].id)
  {
    DivModUnique(j, |g.backends|, 0, j);
  }

  lemma {:induction false} PickedAtItsTurn(g: Group, events: seq<Event>, j: nat, turn: nat)
    requires Valid(g) && j < |g.backends| && Steady(events)
    requires HealthyAtPicks(g, events, j) && turn < Picks(events)
    requires RR.Pick(g.rr, turn, |g.backends|, COUNTER_MODULUS) == j
    ensures Some(g.backends[j].id) in Results(g, events)
    decreases |events|
  {
    var e, g' := events[0], Step(g, events[0]);
    assert e in events;
    var n := |g.backends|;
    SteadyStep(g, e);
    StepValid(g, e);
    if e.Picking? && turn == 0 {
      RR.FirstPick(g.rr, n, COUNTER_MODULUS);
      PickAtStart(g, e.now, j);
    } else {
      if e.Picking? {
        RR.PickShift(g.rr, turn, n, COUNTER_MODULUS);
      }
      PickedAtItsTurn(g', events[1..], j, if e.Picking? then turn - 1 else turn);
    }
  }

  /**
   * With fixed membership, a backend un-ejected at every pick is returned at least once by any run
   * with as many picks as there are backends, whatever fails, recovers or expires meanwhile, while
   * the 32-bit counter does not wrap visibly.
   */
  lemma PickerIsFair(g: Group, events: seq<Event>, j: nat)
    requires Valid(g) && j < |g.backends| <= COUNTER_MODULUS && Steady(events)
    requires HealthyAtPicks(g, events, j) && Picks(events) >= |g.backends|
    requires g.rr + |g.backends| <= COUNTER_MODULUS || COUNTER_MODULUS % |g.backends| == 0
    ensures Some(g.backends[j].id) in Results(g, events)
  {
    var n := |g.backends|;
    RR.FairWithoutWrap(g.rr, n, COUNTER_MODULUS);
    assert RR.Reached(g.rr, n, COUNTER_MODULUS, j);
    var turn: nat :| turn < n && RR.Pick(g.rr, turn, n, COUNTER_MODULUS) == j;
    PickedAtItsTurn(g, events, j, turn);
  }

  function PickTimes(now: nat, count: nat): (events: seq<Event>)
    ensures |events| == count
  {
    if count == 0 then [] else [Picking(now)] + PickTimes(now, count - 1)
  }

  ghost predicate AllHealthy(g: Group) {
    forall b :: b in g.backends ==> b.ejectedUntil.None?
  }

  lemma {:induction false} HealthyResults(g: Group, now: nat, count: nat, i: nat)
    requires Valid(g) && g.backends != [] && AllHealthy(g) && i < count
    ensures |Results(g, PickTimes(now, count))| == count
    ensures Results(g, PickTimes(now, count))[i]
         == Some(g.backends[RR.Pick(g.rr, i, |g.backends|, COUNTER_MODULUS)].id)
    decreases count
  {
    var n, j := |g.backends|, g.rr % |g.backends|;
    PickAtStart(g, now, j);
    var g' := Pick(g, now).0;
    assert g'.backends == g.backends;
    StepValid(g, Picking(now));
    assert PickTimes(now, count)[1..] == PickTimes(now, count - 1);
    if i == 0 {
      RR.FirstPick(g.rr, n, COUNTER_MODULUS);
      if count > 1 {
        HealthyResults(g', now, count - 1, 0);
      }
    } else {
      HealthyResults(g', now, count - 1, i - 1);
      RR.PickShift(g.rr, i, n, COUNTER_MODULUS);
    }
  }

  /** The wrap condition is exact: a visible wrap starves a healthy backend of a healthy group. */
  lemma WrapStarves(g: Group, now: nat) returns (j: nat)
    requires Valid(g) && 0 < |g.backends| <= COUNTER_MODULUS && AllHealthy(g)
    requires g.rr + |g.backends| > COUNTER_MODULUS && COUNTER_MODULUS % |g.backends| != 0
    ensures j < |g.backends|
    ensures Some(g.backends[j].id) !in Results(g, PickTimes(now, |g.backends|))
  {
    var n := |g.backends|;
    j := RR.WrapMisses(g.rr, n, COUNTER_MODULUS);
    var results := Results(g, PickTimes(now, n));
    HealthyResults(g, now, n, 0);
    forall i: nat | i < n ensures results[i] != Some(g.backends[j].id) {
      HealthyResults(g, now, n, i);
    }
  }

  // ----- ejection for five seconds

  /** Nothing is reported about `id`, and it stays a member. */
  predicate Quiet(events: seq<Event>, id: string) {
    forall e :: e in events ==>
      !(e.Success? && e.id == id) && !(e.Failure? && e.id == id) && !(e.Removing? && e.id == id)
  }

  /** Clock readings go from `from` to `until` without going back. */
  predicate Timed(from: nat, events: seq<Event>, until: nat)
    decreases |events|
  {
    if events == [] then from <= until
    else if events[0].Picking? || events[0].Failure? then
      from <= events[0].now && Timed(events[0].now, events[1..], until)
    else Timed(from, events[1..], until)
  }

  /** `id` still carries the deadline, or lost it at a pick after the deadline had passed. */
  ghost predicate Carries(g: Group, id: string, deadline: nat, clock: nat) {
    && (exists b :: b in g.backends && b.id == id)
    && (forall b :: b in g.backends && b.id == id ==>
          b.ejectedUntil == Some(deadline) || (b.ejectedUntil.None? && deadline <= clock))
  }

  lemma CarriesStep(g: Group, e: Event, id: string, deadline: nat, clock: nat)
    requires Valid(g) && Carries(g, id, deadline, clock) && Quiet([e], id)
    requires e.Picking? ==> clock <= e.now
    requires e.Failure? ==> clock <= e.now
    ensures Carries(Step(g, e), id, deadline, if e.Picking? || e.Failure? then e.now else clock)
  {
    assert e in [e];
    StaysMember(g, e, id);
  }

  lemma {:induction false} CarriesRun(g: Group, events: seq<Event>, id: string, deadline: nat, clock: nat, until: nat)
    requires Valid(g) && Carries(g, id, deadline, clock) && Quiet(events, id) && Timed(clock, events, until)
    ensures Carries(Exec(g, events), id, deadline, until)
    decreases |events|
  {
    if events != [] {
      var e := events[0];
      assert e in events;
      CarriesStep(g, e, id, deadline, clock);
      StepValid(g, e);
      CarriesRun(Step(g, e), events[1..], id, deadline, if e.Picking? || e.Failure? then e.now else clock, until);
    }
  }

  /**
   * A member that fails at `t` is ejected for exactly the next five seconds: through any run that
   * reports nothing about it and keeps it a member, it is ejected at `now` if and only if
   * `now < t + 5 s`. Hence no pick returns it before then, and it is eligible from then on.
   */
  lemma EjectedForFiveSeconds(g: Group, id: string, t: nat, events: seq<Event>, now: nat)
    requires Valid(g) && Has(g, id) && Quiet(events, id) && Timed(t, events, now)
    ensures var after := Exec(MarkFailure(g, id, t), events);
            && Has(after, id)
            && (IsEjected(after, id, now) <==> now < t + BACKEND_EJECT)
            && (Pick(after, now).1 == Some(id) ==> now >= t + BACKEND_EJECT)
  {
    var failed := MarkFailure(g, id, t);
    var k := IndexOf(g.backends, id);
    assert failed.backends[k] in failed.backends;
    assert Carries(failed, id, t + BACKEND_EJECT, t);
    StepValid(g, Failure(id, t));
    CarriesRun(failed, events, id, t + BACKEND_EJECT, t, now);
    var after := Exec(failed, events);
    var b :| b in after.backends && b.id == id;
    var i :| 0 <= i < |after.backends| && after.backends[i] == b;
    PickExact(after, now);
  }

  /** No success is reported of `id`, and it stays a member; it may fail again. */
  predicate NoSuccess(events: seq<Event>, id: string) {
    forall e :: e in events ==> !(e.Success? && e.id == id) && !(e.Removing? && e.id == id)
  }

  /** Every deadline of `id` is that one or a later one, or was lost at a pick after the deadline had passed. */
  ghost predicate Barred(g: Group, id: string, deadline: nat, clock: nat) {
    && (exists b :: b in g.backends && b.id == id)
    && (forall b :: b in g.backends && b.id == id ==>
          (b.ejectedUntil.Some? && b.ejectedUntil.value >= deadline) || (b.ejectedUntil.None? && deadline <= clock))
  }

  lemma BarredStep(g: Group, e: Event, id: string, deadline: nat, clock: nat)
    requires Valid(g) && Barred(g, id, deadline, clock) && NoSuccess([e], id)
    requires e.Picking? ==> clock <= e.now
    requires e.Failure? ==> clock <= e.now && deadline <= e.now + BACKEND_EJECT
    ensures Barred(Step(g, e), id, deadline, if e.Picking? || e.Failure? then e.now else clock)
  {
    assert e in [e];
    StaysMember(g, e, id);
    if e.Failure? {
      BarredFailure(g, e.id, e.now, id, deadline, clock);
    }
  }

  /** Only removal takes a member away. */
  lemma StaysMember(g: Group, e: Event, id: string)
    requires (exists b :: b in g.backends && b.id == id) && !(e.Removing? && e.id == id)
    ensures exists b :: b in Step(g, e).backends && b.id == id
  {
    var g' := Step(g, e);
    var b :| b in g.backends && b.id == id;
    var k :| 0 <= k < |g.backends| && g.backends[k] == b;
    if e.Removing? {
      assert b in g'.backends;
    } else {
      assert g'.backends[k].id == id;
      assert g'.backends[k] in g'.backends;
    }
  }

  lemma BarredFailure(g: Group, who: string, now: nat, id: string, deadline: nat, clock: nat)
    requires Barred(g, id, deadline, clock) && clock <= now && deadline <= now + BACKEND_EJECT
    ensures forall b :: b in MarkFailure(g, who, now).backends && b.id == id ==>
              (b.ejectedUntil.Some? && b.ejectedUntil.value >= deadline) || (b.ejectedUntil.None? && deadline <= now)
  {
  }

  lemma {:induction false} BarredRun(g: Group, events: seq<Event>, id: string, t: nat, clock: nat, until: nat)
    requires Valid(g) && Barred(g, id, t + BACKEND_EJECT, clock) && NoSuccess(events, id)
    requires t <= clock && Timed(clock, events, until)
    ensures Barred(Exec(g, events), id, t + BACKEND_EJECT, until)
    decreases |events|
  {
    if events != [] {
      var e := events[0];
      assert e in events;
      BarredStep(g, e, id, t + BACKEND_EJECT, clock);
      StepValid(g, e);
      BarredRun(Step(g, e), events[1..], id, t, if e.Picking? || e.Failure? then e.now else clock, until);
    }
  }

  /** Failing again does not bring a member back: it is not picked within five seconds of any failure without a success since. */
  lemma NotPickedForFiveSeconds(g: Group, id: string, t: nat, events: seq<Event>, now: nat)
    requires Valid(g) && Has(g, id) && NoSuccess(events, id) && Timed(t, events, now) && now < t + BACKEND_EJECT
    ensures var after := Exec(MarkFailure(g, id, t), events);
            IsEjected(after, id, now) && Pick(after, now).1 != Some(id)
  {
    var failed := MarkFailure(g, id, t);
    var k := IndexOf(g.backends, id);
    assert failed.backends[k] in failed.backends;
    assert Barred(failed, id, t + BACKEND_EJECT, t);
    StepValid(g, Failure(id, t));
    BarredRun(failed, events, id, t, t, now);
    var after := Exec(failed, events);
    var b :| b in after.backends && b.id == id;
    var i :| 0 <= i < |after.backends| && after.backends[i] == b;
    PickExact(after, now);
  }

  // ----- the object

  class GroupedTcp {
    var backends: seq<Backend>
    var rr: nat

    ghost function View(): Group
      reads this
    {
      Group(backends, rr)
    }

    constructor ()
      ensures View() == Group([], 0) && Valid(View())
    {
      backends, rr := [], 0;
    }

    method AddBackend(id: string)
      requires Valid(View())
      modifies this
      ensures View() == Add(old(View()), id) && Valid(View()) && Has(View(), id)
    {
      StepValid(View(), Adding(id));
      if IndexOf(backends, id) == |backends| {
        backends := backends + [Backend(id, 0, None)];
        assert backends[|backends| - 1].id == id;
      }
    }

    /** True when the last backend has left, which is what shuts the group down. */
    method RemoveBackend(id: string) returns (empty: bool)
      requires Valid(View())
      modifies `backends
      ensures View() == Remove(old(View()), id) && Valid(View()) && !Has(View(), id)
      ensures empty <==> forall b :: b in old(backends) ==> b.id == id
    {
      StepValid(View(), Removing(id));
      backends := Without(backends, id);
      empty := backends == [];
      if !empty {
        assert backends[0] in backends;
      }
    }

    method FirstHealthy(start: nat, now: nat) returns (k: Option<nat>)
      ensures k == FirstFrom(backends, start, 0, now)
    {
      var i := 0;
      while i < |backends|
        invariant 0 <= i <= |backends|
        invariant FirstFrom(backends, start, 0, now) == FirstFrom(backends, start, i, now)
      {
        var idx := Slot(start, i, |backends|);
        if !Ejected(backends[idx], now) {
          return Some(idx);
        }
        i := i + 1;
      }
      return None;
    }

    method PickBackend(now: nat) returns (picked: Option<string>)
      requires Valid(View())
      modifies this
      ensures View() == Pick(old(View()), now).0 && picked == Pick(old(View()), now).1 && Valid(View())
    {
      StepValid(View(), Picking(now));
      if backends == [] {
        return None;
      }
      var k := FirstHealthy(rr % |backends|, now);
      rr := (rr + 1) % COUNTER_MODULUS;
      match k
      case None => picked := None;
      case Some(idx) =>
        picked := Some(backends[idx].id);
        backends := backends[idx := backends[idx].(ejectedUntil := None)];
    }

    method MarkBackendSuccess(id: string)
      requires Valid(View())
      modifies `backends
      ensures View() == MarkSuccess(old(View()), id) && Valid(View())
    {
      StepValid(View(), Success(id));
      var i := 0;
      while i < |backends|
        invariant i <= |backends| && backends == old(backends)
        invariant forall k :: 0 <= k < i ==> backends[k].id != id
      {
        if backends[i].id == id {
          assert IndexOf(backends, id) == i;
          backends := backends[i := Succeeded(backends[i])];
          return;
        }
        i := i + 1;
      }
    }

    method MarkBackendFailure(id: string, now: nat)
      requires Valid(View())
      modifies `backends
      ensures View() == MarkFailure(old(View()), id, now) && Valid(View())
    {
      StepValid(View(), Failure(id, now));
      var i := 0;
      while i < |backends|
        invariant i <= |backends| && backends == old(backends)
        invariant forall k :: 0 <= k < i ==> backends[k].id != id
      {
        if backends[i].id == id {
          assert IndexOf(backends, id) == i;
          var failures := backends[i].failures + 1;
          var b := backends[i].(failures := failures);
          if failures >= BACKEND_FAIL_THRESHOLD {
            b := b.(ejectedUntil := Some(now + BACKEND_EJECT));
          }
          backends := backends[i := b];
          return;
        }
        i := i + 1;
      }
    }
  }
}

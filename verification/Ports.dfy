/** The port allocator: crates/arp-server/src/resource/mod.rs, used by one caller at a time. */
module Ports {
  import opened Bytes

  const FIRST_DYNAMIC: u16 := 10000
  const LAST_PORT: u16 := 65535
  const ATTEMPTS: nat := 1000
  /** Number of cursor values. */
  const PERIOD: nat := 55536

  /** Inclusive ranges; none configured means 10000-65535. */
  function AllowedRanges(configured: seq<(u16, u16)>): seq<(u16, u16)> {
    if configured == [] then [(FIRST_DYNAMIC, LAST_PORT)] else configured
  }

  predicate Allowed(ranges: seq<(u16, u16)>, port: u16) {
    exists i :: 0 <= i < |ranges| && ranges[i].0 <= port <= ranges[i].1
  }

  /** The dynamic cursor after one attempt: it restarts after 65535. */
  function Advance(cursor: u16): u16 {
    if cursor >= LAST_PORT then FIRST_DYNAMIC else cursor + 1
  }

  function CursorAt(cursor: u16, attempts: nat): u16
    decreases attempts
  {
    if attempts == 0 then cursor else CursorAt(Advance(cursor), attempts - 1)
  }

  predicate InRange(cursor: u16) {
    FIRST_DYNAMIC <= cursor
  }

  predicate Usable(ranges: seq<(u16, u16)>, taken: set<u16>, port: u16) {
    port < LAST_PORT && Allowed(ranges, port) && port !in taken
  }

  /** The first usable port among the next `attempts` cursor values, and the cursor afterwards. */
  function Search(ranges: seq<(u16, u16)>, taken: set<u16>, cursor: u16, attempts: nat): (r: (Option<u16>, u16))
    decreases attempts
  {
    if attempts == 0 then (None, cursor)
    else if Usable(ranges, taken, cursor) then (Some(cursor), Advance(cursor))
    else Search(ranges, taken, Advance(cursor), attempts - 1)
  }

  class ResourceController {
    var tcpPorts: set<u16>
    var nextDynamicPort: u16
    const allowPorts: seq<(u16, u16)>

    constructor (configured: seq<(u16, u16)>)
      ensures tcpPorts == {} && nextDynamicPort == FIRST_DYNAMIC && allowPorts == AllowedRanges(configured)
    {
      tcpPorts, nextDynamicPort := {}, FIRST_DYNAMIC;
      allowPorts := AllowedRanges(configured);
    }

    method IsPortAllowed(port: u16) returns (ok: bool)
      ensures ok <==> Allowed(allowPorts, port)
    {
      for i := 0 to |allowPorts|
        invariant forall k :: 0 <= k < i ==> !(allowPorts[k].0 <= port <= allowPorts[k].1)
      {
        if allowPorts[i].0 <= port <= allowPorts[i].1 { return true; }
      }
      return false;
    }

    method AllocateTcpPort(port: u16) returns (r: Option<u16>)
      modifies this
      ensures r == if Allowed(allowPorts, port) && port !in old(tcpPorts) then Some(port) else None
      ensures tcpPorts == if r.Some? then old(tcpPorts) + {port} else old(tcpPorts)
      ensures nextDynamicPort == old(nextDynamicPort)
    {
      var ok := IsPortAllowed(port);
      if !ok || port in tcpPorts { return None; }
      tcpPorts := tcpPorts + {port};
      r := Some(port);
    }

    method AllocateRandomTcpPort() returns (r: Option<u16>)
      modifies this
      ensures (r, nextDynamicPort) == Search(allowPorts, old(tcpPorts), old(nextDynamicPort), ATTEMPTS)
      ensures tcpPorts == if r.Some? then old(tcpPorts) + {r.value} else old(tcpPorts)
      ensures old(InRange(nextDynamicPort)) ==> InRange(nextDynamicPort)
    {
      for i := 0 to ATTEMPTS
        invariant tcpPorts == old(tcpPorts)
        invariant Search(allowPorts, tcpPorts, nextDynamicPort, ATTEMPTS - i)
               == Search(allowPorts, old(tcpPorts), old(nextDynamicPort), ATTEMPTS)
        invariant old(InRange(nextDynamicPort)) ==> InRange(nextDynamicPort)
      {
        var port := nextDynamicPort;
        nextDynamicPort := (nextDynamicPort + 1) % 0x1_0000;
        if port >= LAST_PORT {
          nextDynamicPort := FIRST_DYNAMIC;
          continue;
        }
        var ok := IsPortAllowed(port);
        if ok && port !in tcpPorts {
          tcpPorts := tcpPorts + {port};
          return Some(port);
        }
      }
      return None;
    }

    method ReleaseTcpPort(port: u16)
      modifies this
      ensures tcpPorts == old(tcpPorts) - {port} && nextDynamicPort == old(nextDynamicPort)
    {
      tcpPorts := tcpPorts - {port};
    }
  }

  // ----- what the search finds -----

  lemma {:induction false} CursorStep(cursor: u16, i: nat)
    ensures CursorAt(cursor, i + 1) == Advance(CursorAt(cursor, i))
    decreases i
  {
    if i > 0 {
      CursorStep(Advance(cursor), i - 1);
    }
  }

  /** The search takes the first usable port among the next cursor values, and fails only if none of them is usable. */
  lemma {:induction false} SearchFirst(ranges: seq<(u16, u16)>, taken: set<u16>, cursor: u16, attempts: nat) returns (i: nat)
    ensures i <= attempts
    ensures forall k: nat :: k < i ==> !Usable(ranges, taken, CursorAt(cursor, k))
    ensures var (port, after) := Search(ranges, taken, cursor, attempts);
            if port.None? then i == attempts && after == CursorAt(cursor, attempts)
            else i < attempts && port.value == CursorAt(cursor, i) && Usable(ranges, taken, port.value)
                 && after == CursorAt(cursor, i + 1)
    decreases attempts
  {
    if attempts == 0 {
      i := 0;
    } else if Usable(ranges, taken, cursor) {
      i := 0;
      assert CursorAt(cursor, 1) == CursorAt(Advance(cursor), 0);
    } else {
      var j := SearchFirst(ranges, taken, Advance(cursor), attempts - 1);
      i := j + 1;
      forall k: nat | k < i ensures !Usable(ranges, taken, CursorAt(cursor, k)) {
        if k > 0 {
          assert CursorAt(cursor, k) == CursorAt(Advance(cursor), k - 1);
        }
      }
    }
  }

  /** The cursor runs through 10000..65535 cyclically. */
  lemma {:induction false} CursorCyclic(cursor: u16, i: nat)
    requires InRange(cursor)
    ensures CursorAt(cursor, i) == FIRST_DYNAMIC + (cursor - FIRST_DYNAMIC + i) % PERIOD
    decreases i
  {
    if i > 0 {
      CursorCyclic(Advance(cursor), i - 1);
      if cursor == LAST_PORT {
        assert (cursor - FIRST_DYNAMIC + i) == PERIOD + (i - 1);
      }
    }
  }

  /** A search moves the cursor: it never ends where it began. */
  lemma SearchMoves(ranges: seq<(u16, u16)>, taken: set<u16>, cursor: u16)
    requires InRange(cursor)
    ensures Search(ranges, taken, cursor, ATTEMPTS).1 != cursor
  {
    var i := SearchFirst(ranges, taken, cursor, ATTEMPTS);
    var n := if Search(ranges, taken, cursor, ATTEMPTS).0.None? then ATTEMPTS else i + 1;
    CursorCyclic(cursor, n);
    var at := cursor - FIRST_DYNAMIC;
    DivModUnique(at + n, PERIOD, if at + n < PERIOD then 0 else 1, if at + n < PERIOD then at + n else at + n - PERIOD);
  }

  /** Every dynamic port comes up within one period. */
  lemma CursorReaches(cursor: u16, port: u16) returns (i: nat)
    requires InRange(cursor) && InRange(port)
    ensures i < PERIOD && CursorAt(cursor, i) == port
  {
    i := (port - cursor + PERIOD) % PERIOD;
    CursorCyclic(cursor, i);
  }

  lemma {:induction false} CursorAdd(cursor: u16, i: nat, j: nat)
    ensures CursorAt(CursorAt(cursor, i), j) == CursorAt(cursor, i + j)
    decreases i
  {
    if i > 0 {
      CursorAdd(Advance(cursor), i - 1, j);
    }
  }

  /** Successive random allocations of `n` attempts all fail, call `k` finding the ports `takens[k]` allocated. */
  predicate AllFail(ranges: seq<(u16, u16)>, takens: seq<set<u16>>, cursor: u16, n: nat)
    decreases |takens|
  {
    takens == [] ||
    (var (port, after) := Search(ranges, takens[0], cursor, n);
     port.None? && AllFail(ranges, takens[1..], after, n))
  }

  lemma {:induction false} FailureCovers(ranges: seq<(u16, u16)>, takens: seq<set<u16>>, cursor: u16, n: nat, k: nat, i: nat)
    requires AllFail(ranges, takens, cursor, n) && k < |takens| && i < n
    ensures !Usable(ranges, takens[k], CursorAt(cursor, n * k + i))
    decreases k
  {
    var _ := SearchFirst(ranges, takens[0], cursor, n);
    if k > 0 {
      assert n * k == n + n * (k - 1);
      CursorAdd(cursor, n, n * (k - 1) + i);
      FailureCovers(ranges, takens[1..], CursorAt(cursor, n), n, k - 1, i);
    }
  }

  /** 56 consecutive failures prove that every allowed dynamic port was allocated during one of them. */
  lemma FiftySixFailures(ranges: seq<(u16, u16)>, takens: seq<set<u16>>, cursor: u16, port: u16)
    requires InRange(cursor) && |takens| == 56 && AllFail(ranges, takens, cursor, ATTEMPTS)
    requires InRange(port) && port < LAST_PORT && Allowed(ranges, port)
    ensures exists k :: 0 <= k < 56 && port in takens[k]
  {
    var i := CursorReaches(cursor, port);
    var k, r := i / ATTEMPTS, i % ATTEMPTS;
    FailureCovers(ranges, takens, cursor, ATTEMPTS, k, r);
    assert port in takens[k];
  }

  /** 56 is the exact bound: with only port 65534 allowed and free throughout, 55 calls from a fresh cursor all fail. */
  lemma FiftyFiveFailuresHappen()
    ensures AllFail([(65534, 65534)], seq(55, _ => {}), FIRST_DYNAMIC, ATTEMPTS)
  {
    FailsFor(seq(55, _ => {}), 0, ATTEMPTS);
  }

  lemma {:induction false} FailsFor(takens: seq<set<u16>>, done: nat, n: nat)
    requires n == ATTEMPTS && done + |takens| == 55 && forall k :: 0 <= k < |takens| ==> takens[k] == {}
    ensures AllFail([(65534, 65534)], takens, CursorAt(FIRST_DYNAMIC, n * done), n)
    decreases |takens|
  {
    if takens != [] {
      FailsOnce(takens[0], done, n);
      FailsFor(takens[1..], done + 1, n);
    }
  }

  lemma FailsOnce(taken: set<u16>, done: nat, n: nat)
    requires n == ATTEMPTS && done < 55
    ensures Search([(65534, 65534)], taken, CursorAt(FIRST_DYNAMIC, n * done), n)
         == (None, CursorAt(FIRST_DYNAMIC, n * (done + 1)))
  {
    var cursor := CursorAt(FIRST_DYNAMIC, n * done);
    var i := SearchFirst([(65534, 65534)], taken, cursor, n);
    CursorAdd(FIRST_DYNAMIC, n * done, i);
    CursorCyclic(FIRST_DYNAMIC, n * done + i);
    CursorAdd(FIRST_DYNAMIC, n * done, n);
  }
}

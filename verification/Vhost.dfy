/** The virtual-host route table of crates/arp-server/src/proxy/vhost.rs: routes per domain with a round-robin counter. */
module Vhost {
  import opened Bytes
  import RR = RoundRobin

  /** An AtomicUsize wraps at 2^64. */
  const COUNTER_MODULUS: nat := 0x1_0000_0000_0000_0000

  datatype Route = Route(key: string, proxyName: string)
  datatype Table = Table(routes: map<string, seq<Route>>, rr: map<string, nat>)

  const EMPTY := Table(map[], map[])

  predicate HasKey(rs: seq<Route>, key: string) {
    exists i :: 0 <= i < |rs| && rs[i].key == key
  }

  function AddRoute(t: Table, domain: string, r: Route): Table {
    var rs := if domain in t.routes then t.routes[domain] else [];
    Table(t.routes[domain := if HasKey(rs, r.key) then rs else rs + [r]],
          if domain in t.rr then t.rr else t.rr[domain := 0])
  }

  function AddAll(t: Table, domains: seq<string>, r: Route): Table
    decreases |domains|
  {
    if domains == [] then t else AddAll(AddRoute(t, domains[0], r), domains[1..], r)
  }

  function Without(rs: seq<Route>, key: string): (r: seq<Route>)
  {
    if rs == [] then []
    else (if rs[0].key == key then [] else [rs[0]]) + Without(rs[1..], key)
  }

  /** Drops a route key from one domain, and the domain with it when nothing is left. */
  function RemoveAt(t: Table, domain: string, key: string): Table
    requires domain in t.routes
  {
    var rs := Without(t.routes[domain], key);
    if rs == [] then Table(t.routes - {domain}, t.rr - {domain}) else t.(routes := t.routes[domain := rs])
  }

  /** The routes of a domain once `key` has been dropped from the domains `done`. */
  function Left(t: Table, key: string, done: set<string>, domain: string): seq<Route>
    requires domain in t.routes
  {
    if domain in done then Without(t.routes[domain], key) else t.routes[domain]
  }

  function RemoveIn(t: Table, key: string, done: set<string>): Table {
    Table(map d | d in t.routes && Left(t, key, done, d) != [] :: Left(t, key, done, d),
          map d | d in t.rr && (d in t.routes ==> Left(t, key, done, d) != []) :: t.rr[d])
  }

  /** Drops a route key everywhere. */
  function Remove(t: Table, key: string): Table {
    RemoveIn(t, key, t.routes.Keys)
  }

  /** The route for the next connection to a domain. */
  function Lookup(t: Table, domain: string): (r: (Option<Route>, Table))
  {
    if domain !in t.routes || t.routes[domain] == [] then (None, t)
    else
      var c := if domain in t.rr then t.rr[domain] else 0;
      (Some(t.routes[domain][c % |t.routes[domain]|]), t.(rr := t.rr[domain := (c + 1) % COUNTER_MODULUS]))
  }

  // ----- invariant -----

  predicate Distinct(rs: seq<Route>) {
    forall i, j :: 0 <= i < j < |rs| ==> rs[i].key != rs[j].key
  }

  ghost predicate Valid(t: Table) {
    && t.routes.Keys == t.rr.Keys
    && (forall d :: d in t.routes ==> t.routes[d] != [] && Distinct(t.routes[d]))
    && (forall d :: d in t.rr ==> t.rr[d] < COUNTER_MODULUS)
  }

  /** A route of that key serves the domain. */
  predicate Serves(t: Table, domain: string, key: string) {
    domain in t.routes && HasKey(t.routes[domain], key)
  }

  lemma {:induction false} WithoutKeys(rs: seq<Route>, key: string, k: string)
    ensures HasKey(Without(rs, key), k) <==> HasKey(rs, k) && k != key
    decreases |rs|
  {
    if rs != [] {
      WithoutKeys(rs[1..], key, k);
      HasKeySplit(rs, k);
      if rs[0].key == key {
        assert Without(rs, key) == Without(rs[1..], key);
      } else {
        HasKeySplit(Without(rs, key), k);
        assert Without(rs, key)[1..] == Without(rs[1..], key);
      }
    }
  }

  lemma HasKeySplit(rs: seq<Route>, k: string)
    requires rs != []
    ensures HasKey(rs, k) <==> rs[0].key == k || HasKey(rs[1..], k)
  {
    if HasKey(rs, k) && rs[0].key != k {
      var i :| 0 <= i < |rs| && rs[i].key == k;
      assert rs[1..][i - 1].key == k;
    }
    if HasKey(rs[1..], k) {
      var i :| 0 <= i < |rs[1..]| && rs[1..][i].key == k;
      assert rs[i + 1].key == k;
    }
  }

  /** Removal keeps the order of the remaining routes. */
  predicate Subsequence(a: seq<Route>, b: seq<Route>) {
    a == [] || (b != [] && (if a[0] == b[0] then Subsequence(a[1..], b[1..]) else Subsequence(a, b[1..])))
  }

  lemma {:induction false} WithoutOrder(rs: seq<Route>, key: string)
    requires Distinct(rs)
    ensures Subsequence(Without(rs, key), rs) && Distinct(Without(rs, key))
    decreases |rs|
  {
    if rs != [] {
      WithoutOrder(rs[1..], key);
      var left := Without(rs[1..], key);
      if rs[0].key == key {
        assert Without(rs, key) == left;
        WithoutKeys(rs[1..], key, key);
        assert forall i :: 0 <= i < |left| ==> left[i].key != key;
      } else {
        assert Without(rs, key) == [rs[0]] + left;
        WithoutKeys(rs[1..], key, rs[0].key);
        assert !HasKey(rs[1..], rs[0].key);
        assert forall i :: 0 <= i < |left| ==> left[i].key != rs[0].key;
      }
    }
  }

  lemma AddRouteValid(t: Table, domain: string, r: Route)
    requires Valid(t)
    ensures Valid(AddRoute(t, domain, r))
  {
  }

  lemma AddRouteServes(t: Table, domain: string, r: Route, d: string, k: string)
    ensures Serves(AddRoute(t, domain, r), d, k) <==> Serves(t, d, k) || (d == domain && k == r.key)
  {
    var rs := if domain in t.routes then t.routes[domain] else [];
    if !HasKey(rs, r.key) {
      assert (rs + [r])[|rs|] == r;
      if HasKey(rs, k) {
        var i :| 0 <= i < |rs| && rs[i].key == k;
        assert (rs + [r])[i].key == k;
      }
    }
  }

  lemma {:induction false} AddAllRefines(t: Table, domains: seq<string>, r: Route, d: string, k: string)
    requires Valid(t)
    ensures Valid(AddAll(t, domains, r))
    ensures Serves(AddAll(t, domains, r), d, k) <==> Serves(t, d, k) || (d in domains && k == r.key)
    decreases |domains|
  {
    if domains != [] {
      AddRouteValid(t, domains[0], r);
      AddRouteServes(t, domains[0], r, d, k);
      AddAllRefines(AddRoute(t, domains[0], r), domains[1..], r, d, k);
    }
  }

  lemma RemoveRefines(t: Table, key: string, d: string, k: string)
    requires Valid(t)
    ensures Valid(Remove(t, key))
    ensures Serves(Remove(t, key), d, k) <==> Serves(t, d, k) && k != key
  {
    forall x | x in t.routes ensures Distinct(Without(t.routes[x], key)) {
      WithoutOrder(t.routes[x], key);
    }
    if d in t.routes {
      WithoutKeys(t.routes[d], key, k);
    }
  }

  /** Removal changes a domain's list only by deleting that route key; the rest keep their order and the counter its value. */
  lemma RemoveKeepsOrder(t: Table, key: string, d: string)
    requires Valid(t) && d in Remove(t, key).routes
    ensures d in t.routes && Subsequence(Remove(t, key).routes[d], t.routes[d]) && Remove(t, key).rr[d] == t.rr[d]
    ensures !HasKey(t.routes[d], key) ==> Remove(t, key).routes[d] == t.routes[d]
  {
    WithoutOrder(t.routes[d], key);
    if !HasKey(t.routes[d], key) {
      WithoutAbsent(t.routes[d], key);
    }
  }

  lemma {:induction false} WithoutAbsent(rs: seq<Route>, key: string)
    requires !HasKey(rs, key)
    ensures Without(rs, key) == rs
    decreases |rs|
  {
    if rs != [] {
      HasKeySplit(rs, key);
      WithoutAbsent(rs[1..], key);
    }
  }

  lemma LookupRefines(t: Table, domain: string, d: string, k: string)
    requires Valid(t)
    ensures Valid(Lookup(t, domain).1)
    ensures Serves(Lookup(t, domain).1, d, k) <==> Serves(t, d, k)
    ensures Lookup(t, domain).0.Some? <==> domain in t.routes
    ensures Lookup(t, domain).0.Some? ==> Serves(t, domain, Lookup(t, domain).0.value.key)
  {
  }

  // ----- every run -----

  datatype Step = Add(domains: seq<string>, route: Route) | Drop(key: string) | Connect(domain: string)

  function Next(t: Table, step: Step): Table {
    match step
    case Add(domains, r) => AddAll(t, domains, r)
    case Drop(key) => Remove(t, key)
    case Connect(d) => Lookup(t, d).1
  }

  function Run(t: Table, steps: seq<Step>): Table
    decreases |steps|
  {
    if steps == [] then t else Run(Next(t, steps[0]), steps[1..])
  }

  /** The last addition or removal that concerns (domain, key) was an addition. */
  predicate Wanted(steps: seq<Step>, domain: string, key: string, before: bool) {
    if steps == [] then before
    else Wanted(steps[1..], domain, key,
                match steps[0]
                case Add(domains, r) => before || (domain in domains && r.key == key)
                case Drop(k) => before && k != key
                case Connect(_) => before)
  }

  /** Through every sequence of additions, removals and lookups the table stays well formed and is the set of wanted pairs. */
  lemma {:induction false} TableIsPairSet(t: Table, steps: seq<Step>, d: string, k: string)
    requires Valid(t)
    ensures Valid(Run(t, steps))
    ensures Serves(Run(t, steps), d, k) <==> Wanted(steps, d, k, Serves(t, d, k))
    decreases |steps|
  {
    if steps != [] {
      match steps[0] {
        case Add(domains, r) => AddAllRefines(t, domains, r, d, k);
        case Drop(key) => RemoveRefines(t, key, d, k);
        case Connect(domain) => LookupRefines(t, domain, d, k);
      }
      TableIsPairSet(Next(t, steps[0]), steps[1..], d, k);
    }
  }

  /** Index of the route served by the i-th of a series of lookups on one domain. */
  function Served(t: Table, domain: string, i: nat): (r: Option<Route>)
    decreases i
  {
    if i == 0 then Lookup(t, domain).0 else Served(Lookup(t, domain).1, domain, i - 1)
  }

  lemma {:induction false} ServedIsPick(t: Table, domain: string, i: nat)
    requires Valid(t) && domain in t.routes
    ensures Served(t, domain, i)
         == Some(t.routes[domain][RR.Pick(t.rr[domain], i, |t.routes[domain]|, COUNTER_MODULUS)])
    decreases i
  {
    if i == 0 {
      RR.FirstPick(t.rr[domain], |t.routes[domain]|, COUNTER_MODULUS);
    } else {
      ServedNext(t, domain);
      ServedIsPick(Lookup(t, domain).1, domain, i - 1);
      RR.PickShift(t.rr[domain], i, |t.routes[domain]|, COUNTER_MODULUS);
    }
  }

  lemma ServedNext(t: Table, domain: string)
    requires Valid(t) && domain in t.routes
    ensures var t' := Lookup(t, domain).1;
            Valid(t') && t'.routes == t.routes && t'.rr[domain] == (t.rr[domain] + 1) % COUNTER_MODULUS
  {
    LookupRefines(t, domain, domain, "");
  }

  /**
   * As many consecutive lookups as a domain has routes hit each route exactly once, if and only if the counter's
   * wrap is not visible.
   */
  lemma LookupsAreFair(t: Table, domain: string)
    requires Valid(t) && domain in t.routes && |t.routes[domain]| <= COUNTER_MODULUS
    ensures var n := |t.routes[domain]|;
            RR.EachOnce(t.rr[domain], n, COUNTER_MODULUS)
            <==> t.rr[domain] + n <= COUNTER_MODULUS || COUNTER_MODULUS % n == 0
    ensures forall i: nat :: Served(t, domain, i)
              == Some(t.routes[domain][RR.Pick(t.rr[domain], i, |t.routes[domain]|, COUNTER_MODULUS)])
  {
    RR.FairIffNoVisibleWrap(t.rr[domain], |t.routes[domain]|, COUNTER_MODULUS);
    forall i: nat
      ensures Served(t, domain, i)
           == Some(t.routes[domain][RR.Pick(t.rr[domain], i, |t.routes[domain]|, COUNTER_MODULUS)])
    {
      ServedIsPick(t, domain, i);
    }
  }

  // ----- the object whose maps are updated -----

  class VhostRoutes {
    var routes: map<string, seq<Route>>
    var rr: map<string, nat>

    constructor ()
      ensures View() == EMPTY && Valid(View())
    {
      routes, rr := map[], map[];
    }

    ghost function View(): Table
      reads this
    {
      Table(routes, rr)
    }

    method AddRoutes(domains: seq<string>, key: string, proxyName: string)
      requires Valid(View())
      modifies this
      ensures View() == AddAll(old(View()), domains, Route(key, proxyName))
      ensures Valid(View())
    {
      for i := 0 to |domains|
        invariant Valid(View())
        invariant AddAll(View(), domains[i..], Route(key, proxyName)) == AddAll(old(View()), domains, Route(key, proxyName))
      {
        ghost var was := View();
        var d := domains[i];
        var rs := if d in routes then routes[d] else [];
        if !HasKey(rs, key) {
          rs := rs + [Route(key, proxyName)];
        }
        routes := routes[d := rs];
        if d !in rr {
          rr := rr[d := 0];
        }
        assert View() == AddRoute(was, d, Route(key, proxyName));
        AddRouteValid(was, d, Route(key, proxyName));
        assert domains[i..][0] == d && domains[i..][1..] == domains[i + 1..];
      }
    }

    method DropAt(d: string, key: string)
      requires d in routes
      modifies this
      ensures View() == RemoveAt(old(View()), d, key)
    {
      var rs := Without(routes[d], key);
      if rs != [] {
        routes := routes[d := rs];
      } else {
        routes, rr := routes - {d}, rr - {d};
      }
    }

    method DropFrom(domains: set<string>, key: string)
      requires Valid(View()) && domains <= routes.Keys
      modifies this
      ensures View() == RemoveIn(old(View()), key, domains)
    {
      var left := domains;
      ghost var t := View();
      assert View() == RemoveIn(t, key, {});
      while left != {}
        invariant left <= domains && View() == RemoveIn(t, key, domains - left)
        decreases |left|
      {
        var d :| d in left;
        RemoveStep(t, key, domains - left, d);
        DropAt(d, key);
        assert domains - (left - {d}) == (domains - left) + {d};
        left := left - {d};
      }
      assert domains - left == domains;
    }

    method UnregisterRoute(key: string)
      requires Valid(View())
      modifies this
      ensures View() == Remove(old(View()), key)
      ensures Valid(View())
    {
      var keys := set d | d in routes && HasKey(routes[d], key);
      OtherDomains(View(), key, keys);
      RemoveRefines(View(), key, "", "");
      DropFrom(keys, key);
    }

    method NextRoute(domain: string) returns (r: Option<Route>)
      modifies this
      ensures (r, View()) == Lookup(old(View()), domain)
      ensures old(Valid(View())) ==> Valid(View())
    {
      if domain !in routes || routes[domain] == [] { return None; }
      if domain !in rr { rr := rr[domain := 0]; }
      var idx := rr[domain] % |routes[domain]|;
      rr := rr[domain := (rr[domain] + 1) % COUNTER_MODULUS];
      assert rr == old(rr)[domain := rr[domain]];
      r := Some(routes[domain][idx]);
    }
  }

  lemma RemoveStep(t: Table, key: string, done: set<string>, d: string)
    requires Valid(t) && d in t.routes && d !in done
    ensures d in RemoveIn(t, key, done).routes && RemoveIn(t, key, done).routes[d] == t.routes[d]
    ensures RemoveAt(RemoveIn(t, key, done), d, key) == RemoveIn(t, key, done + {d})
  {
    RemoveStepRoutes(t, key, done, d);
    RemoveStepCounters(t, key, done, d);
  }

  lemma RemoveStepRoutes(t: Table, key: string, done: set<string>, d: string)
    requires Valid(t) && d in t.routes && d !in done
    ensures var was, now := RemoveIn(t, key, done), RemoveIn(t, key, done + {d});
            now.routes == if Without(t.routes[d], key) == [] then was.routes - {d}
                          else was.routes[d := Without(t.routes[d], key)]
  {
  }

  lemma RemoveStepCounters(t: Table, key: string, done: set<string>, d: string)
    requires Valid(t) && d in t.routes && d !in done
    ensures var was, now := RemoveIn(t, key, done), RemoveIn(t, key, done + {d});
            now.rr == if Without(t.routes[d], key) == [] then was.rr - {d} else was.rr
  {
  }

  /** Domains without the key need not be visited. */
  lemma OtherDomains(t: Table, key: string, all: set<string>)
    requires Valid(t) && all == set d | d in t.routes && HasKey(t.routes[d], key)
    ensures RemoveIn(t, key, all) == Remove(t, key)
  {
    forall d | d in t.routes ensures Left(t, key, all, d) == Left(t, key, t.routes.Keys, d) {
      if d !in all { WithoutAbsent(t.routes[d], key); }
    }
    var a, b := RemoveIn(t, key, all), Remove(t, key);
    assert a.routes == b.routes;
    assert a.rr == b.rr;
  }
}

/**
 * The proxy registry: `ProxyManager` of crates/arp-server/src/proxy/mod.rs with the ports of
 * crates/arp-server/src/resource/mod.rs and the load-balanced groups of crates/arp-server/src/proxy/tcp.rs.
 * One manager call, or one removal inside a clean-up loop, is one atomic step.
 */
module Registry {
  import opened Bytes
  import opened Ports
  import opened Text

  /** A live proxy with what its `close` will give back. */
  datatype Proxy =
    | Tcp(port: u16)
    | Udp(port: u16)
    | Member(group: string)
    | Stcp(name: string)
    | Xtcp(name: string, relay: Option<u16>)
    | Http
    | Https

  datatype Kind = TcpKind | StcpKind | HttpKind | HttpsKind | UdpKind | XtcpKind | OtherKind

  /** A registration message, and how the calls into the operating system and the vhost table will turn out. */
  datatype NewProxy = NewProxy(
    name: string,
    kind: Kind,
    remotePort: u16,
    group: string,
    groupKey: string,
    sk: string,
    fallbackToRelay: bool,
    bindOk: bool,
    vhostOk: bool)

  datatype Record = Record(runId: string, name: string, kind: Kind)
  datatype Group = Group(port: u16, backends: seq<string>)
  datatype Owner = Owner(runId: string, sk: string)

  datatype State = State(
    proxies: map<string, Proxy>,
    records: map<string, Record>,
    groups: map<string, Group>,
    stcp: map<string, Owner>,
    xtcp: map<string, Owner>,
    ports: set<u16>,
    cursor: u16)

  const EMPTY := State(map[], map[], map[], map[], map[], {}, FIRST_DYNAMIC)

  function PortOf(p: Proxy): Option<u16> {
    match p
    case Tcp(port) => Some(port)
    case Udp(port) => Some(port)
    case Xtcp(_, relay) => relay
    case _ => None
  }

  function Decimal(n: nat): string {
    (if n < 10 then [] else Decimal(n / 10)) + ["0123456789"[n % 10]]
  }

  function GroupId(m: NewProxy): string {
    "tcp:" + Decimal(m.remotePort) + ":" + m.group + ":" + m.groupKey
  }

  // ----- operations -----

  /** Allocate a port, fixed or random, and bind it; a failed bind gives the port back. */
  function Claim(s: State, ranges: seq<(u16, u16)>, port: u16, bindOk: bool): (r: (Option<u16>, State))
    ensures r.1 == s.(ports := r.1.ports, cursor := r.1.cursor)
    ensures match r.0
            case Some(p) => p !in s.ports && r.1.ports == s.ports + {p} && Allowed(ranges, p)
            case None => r.1.ports == s.ports
    ensures port > 0 ==> r.1.cursor == s.cursor && r.0.Some? ==> r.0.value == port
  {
    if port > 0 then
      if Allowed(ranges, port) && port !in s.ports && bindOk then (Some(port), s.(ports := s.ports + {port}))
      else (None, s)
    else
      var (found, cursor) := Search(ranges, s.ports, s.cursor, ATTEMPTS);
      assert found.Some? ==> Usable(ranges, s.ports, found.value) by {
        var _ := SearchFirst(ranges, s.ports, s.cursor, ATTEMPTS);
      }
      if found.Some? && bindOk then (found, s.(ports := s.ports + {found.value}, cursor := cursor))
      else (None, s.(cursor := cursor))
  }

  function Add(s: State, run: string, m: NewProxy, p: Proxy): State {
    s.(proxies := s.proxies[Key(run, m.name) := p], records := s.records[Key(run, m.name) := Record(run, m.name, m.kind)])
  }

  function RegisterPort(s: State, ranges: seq<(u16, u16)>, run: string, m: NewProxy): (r: (State, bool))
  {
    var (port, s1) := Claim(s, ranges, m.remotePort, m.bindOk);
    if port.None? then (s1, false)
    else (Add(s1, run, m, if m.kind.UdpKind? then Udp(port.value) else Tcp(port.value)), true)
  }

  function RegisterMember(s: State, ranges: seq<(u16, u16)>, run: string, m: NewProxy): (r: (State, bool))
  {
    var id, key := GroupId(m), Key(run, m.name);
    if m.remotePort == 0 then (s, false)
    else if id in s.groups then
      var g := s.groups[id];
      var backends := if key in g.backends then g.backends else g.backends + [key];
      (Add(s.(groups := s.groups[id := g.(backends := backends)]), run, m, Member(id)), true)
    else
      var (port, s1) := Claim(s, ranges, m.remotePort, m.bindOk);
      if port.None? then (s1, false)
      else (Add(s1.(groups := s1.groups[id := Group(port.value, [key])]), run, m, Member(id)), true)
  }

  function RegisterStcp(s: State, run: string, m: NewProxy): (r: (State, bool))
  {
    if Blank(m.sk) || m.name in s.stcp then (s, false)
    else (Add(s.(stcp := s.stcp[m.name := Owner(run, m.sk)]), run, m, Stcp(m.name)), true)
  }

  function RegisterXtcp(s: State, ranges: seq<(u16, u16)>, run: string, m: NewProxy): (r: (State, bool))
  {
    if Blank(m.sk) || m.name in s.xtcp then (s, false)
    else
      var (relay, s1) := if m.fallbackToRelay then Claim(s, ranges, m.remotePort, m.bindOk) else (None, s);
      if m.fallbackToRelay && relay.None? then (s1, false)
      else (Add(s1.(xtcp := s1.xtcp[m.name := Owner(run, m.sk)]), run, m, Xtcp(m.name, relay)), true)
  }

  function Register(s: State, ranges: seq<(u16, u16)>, run: string, m: NewProxy): (r: (State, bool))
  {
    if Key(run, m.name) in s.proxies then (s, false)
    else
      match m.kind
      case TcpKind => if m.group == [] then RegisterPort(s, ranges, run, m) else RegisterMember(s, ranges, run, m)
      case UdpKind => RegisterPort(s, ranges, run, m)
      case StcpKind => RegisterStcp(s, run, m)
      case XtcpKind => RegisterXtcp(s, ranges, run, m)
      case HttpKind => if m.vhostOk then (Add(s, run, m, Http), true) else (s, false)
      case HttpsKind => if m.vhostOk then (Add(s, run, m, Https), true) else (s, false)
      case OtherKind => (s, false)
  }

  function Keep(backends: seq<string>, gone: string): (r: seq<string>)
    ensures forall b :: b in r <==> b in backends && b != gone
  {
    if backends == [] then []
    else (if backends[0] == gone then [] else [backends[0]]) + Keep(backends[1..], gone)
  }

  /** What closing a proxy gives back. */
  function Close(s: State, key: string, p: Proxy): State {
    match p
    case Tcp(port) => s.(ports := s.ports - {port})
    case Udp(port) => s.(ports := s.ports - {port})
    case Member(id) =>
      if id !in s.groups then s
      else
        var left := Keep(s.groups[id].backends, key);
        if left == [] then s.(ports := s.ports - {s.groups[id].port}, groups := s.groups - {id})
        else s.(groups := s.groups[id := s.groups[id].(backends := left)])
    case Stcp(name) => s.(stcp := s.stcp - {name})
    case Xtcp(name, relay) =>
      s.(ports := if relay.Some? then s.ports - {relay.value} else s.ports, xtcp := s.xtcp - {name})
    case Http => s
    case Https => s
  }

  /** Take a proxy out of both maps and close it. */
  function Remove(s: State, key: string): State
    requires key in s.proxies
  {
    Close(s.(proxies := s.proxies - {key}, records := s.records - {key}), key, s.proxies[key])
  }

  /** Eviction by name takes any one key with that suffix and also clears the name from the xtcp registry. */
  function Evict(s: State, name: string, key: string): State
    requires key in s.proxies
  {
    var s1 := Remove(s, key);
    s1.(xtcp := s1.xtcp - {name})
  }

  datatype Step =
    | RegisterProxy(run: string, msg: NewProxy)
    | RemoveProxy(key: string)
    | EvictProxy(name: string, key: string)

  predicate Enabled(s: State, step: Step) {
    match step
    case RegisterProxy(_, _) => true
    case RemoveProxy(key) => key in s.proxies
    case EvictProxy(name, key) => key in s.proxies && EndsWith(key, [':'] + name)
  }

  function Next(s: State, ranges: seq<(u16, u16)>, step: Step): State
    requires Enabled(s, step)
  {
    match step
    case RegisterProxy(run, msg) => Register(s, ranges, run, msg).0
    case RemoveProxy(key) => Remove(s, key)
    case EvictProxy(name, key) => Evict(s, name, key)
  }

  function Exec(s: State, ranges: seq<(u16, u16)>, steps: seq<Step>): (r: Option<State>)
    decreases |steps|
  {
    if steps == [] then Some(s)
    else if Enabled(s, steps[0]) then Exec(Next(s, ranges, steps[0]), ranges, steps[1..])
    else None
  }

  // ----- what every reachable state satisfies -----

  /** Who an allocated port belongs to. */
  datatype Holder = ByProxy(key: string) | ByGroup(id: string)

  type Proxies = map<string, Proxy>
  type Groups = map<string, Group>
  type Held = map<u16, Holder>

  predicate Holds(ps: Proxies, gs: Groups, h: Holder, port: u16) {
    match h
    case ByProxy(k) => k in ps && PortOf(ps[k]) == Some(port)
    case ByGroup(id) => id in gs && gs[id].port == port
  }

  /** `held` pairs allocated ports and holders one to one. */
  ghost predicate PortInv(ps: Proxies, gs: Groups, ports: set<u16>, held: Held) {
    && held.Keys == ports
    && (forall p :: p in held ==> Holds(ps, gs, held[p], p))
    && (forall k :: k in ps && PortOf(ps[k]).Some? ==>
          PortOf(ps[k]).value in held && held[PortOf(ps[k]).value] == ByProxy(k))
    && (forall id :: id in gs ==> gs[id].port in held && held[gs[id].port] == ByGroup(id))
  }

  /** Groups are exactly the groups of live members. */
  ghost predicate GroupInv(ps: Proxies, gs: Groups) {
    (forall id :: id in gs ==> gs[id].backends != []) && BackendsLive(ps, gs) && MembersListed(ps, gs)
  }

  ghost predicate BackendsLive(ps: Proxies, gs: Groups) {
    forall id, b :: id in gs && b in gs[id].backends ==> b in ps && ps[b] == Member(id)
  }

  ghost predicate MembersListed(ps: Proxies, gs: Groups) {
    forall k :: k in ps && ps[k].Member? ==> ps[k].group in gs && k in gs[ps[k].group].backends
  }

  /** A name registry lists exactly the live proxies of its kind, each under the run that holds it. */
  ghost predicate NameInv(ps: Proxies, reg: map<string, Owner>, xtcp: bool) {
    && (forall n :: n in reg ==> Listed(ps, Key(reg[n].runId, n), n, xtcp))
    && (forall k :: k in ps && Named(ps[k], xtcp) ==> ps[k].name in reg && k == Key(reg[ps[k].name].runId, ps[k].name))
  }

  predicate Named(p: Proxy, xtcp: bool) {
    if xtcp then p.Xtcp? else p.Stcp?
  }

  predicate Listed(ps: Proxies, k: string, n: string, xtcp: bool) {
    k in ps && Named(ps[k], xtcp) && ps[k].name == n
  }

  ghost predicate Inv(s: State, held: Held) {
    && s.proxies.Keys == s.records.Keys
    && PortInv(s.proxies, s.groups, s.ports, held)
    && GroupInv(s.proxies, s.groups)
    && NameInv(s.proxies, s.stcp, false)
  }

  // ----- one map update at a time -----

  lemma PortsAddPlain(ps: Proxies, gs: Groups, ports: set<u16>, held: Held, k: string, p: Proxy)
    requires PortInv(ps, gs, ports, held) && k !in ps && PortOf(p).None?
    ensures PortInv(ps[k := p], gs, ports, held)
  {
  }

  lemma PortsAddHolder(ps: Proxies, gs: Groups, ports: set<u16>, held: Held, k: string, p: Proxy)
    requires PortInv(ps, gs, ports, held) && k !in ps && PortOf(p).Some? && PortOf(p).value !in ports
    ensures PortInv(ps[k := p], gs, ports + {PortOf(p).value}, held[PortOf(p).value := ByProxy(k)])
  {
  }

  lemma PortsAddGroup(ps: Proxies, gs: Groups, ports: set<u16>, held: Held, id: string, g: Group)
    requires PortInv(ps, gs, ports, held) && id !in gs && g.port !in ports
    ensures PortInv(ps, gs[id := g], ports + {g.port}, held[g.port := ByGroup(id)])
  {
  }

  lemma PortsSameGroup(ps: Proxies, gs: Groups, ports: set<u16>, held: Held, id: string, g: Group)
    requires PortInv(ps, gs, ports, held) && id in gs && g.port == gs[id].port
    ensures PortInv(ps, gs[id := g], ports, held)
  {
  }

  lemma PortsDropPlain(ps: Proxies, gs: Groups, ports: set<u16>, held: Held, k: string)
    requires PortInv(ps, gs, ports, held) && k in ps && PortOf(ps[k]).None?
    ensures PortInv(ps - {k}, gs, ports, held)
  {
  }

  lemma PortsDropHolder(ps: Proxies, gs: Groups, ports: set<u16>, held: Held, k: string)
    requires PortInv(ps, gs, ports, held) && k in ps && PortOf(ps[k]).Some?
    ensures PortInv(ps - {k}, gs, ports - {PortOf(ps[k]).value}, held - {PortOf(ps[k]).value})
  {
  }

  lemma PortsDropGroup(ps: Proxies, gs: Groups, ports: set<u16>, held: Held, id: string)
    requires PortInv(ps, gs, ports, held) && id in gs
    ensures PortInv(ps, gs - {id}, ports - {gs[id].port}, held - {gs[id].port})
  {
  }

  lemma GroupsAddPlain(ps: Proxies, gs: Groups, k: string, p: Proxy)
    requires GroupInv(ps, gs) && k !in ps && !p.Member?
    ensures GroupInv(ps[k := p], gs)
  {
  }

  lemma GroupsJoin(ps: Proxies, gs: Groups, k: string, id: string, g: Group)
    requires GroupInv(ps, gs) && k !in ps
    requires g.backends == (if id in gs then gs[id].backends else []) + [k]
    ensures GroupInv(ps[k := Member(id)], gs[id := g])
  {
  }

  lemma GroupsDropPlain(ps: Proxies, gs: Groups, k: string)
    requires GroupInv(ps, gs) && k in ps && !ps[k].Member?
    ensures GroupInv(ps - {k}, gs)
  {
  }

  lemma GroupsLeave(ps: Proxies, gs: Groups, k: string, g: Group)
    requires GroupInv(ps, gs) && k in ps && ps[k].Member?
    requires g.backends != [] && g.backends == Keep(gs[ps[k].group].backends, k)
    ensures GroupInv(ps - {k}, gs[ps[k].group := g])
  {
    StillMember(ps, gs, k, g.backends);
  }

  lemma GroupsVanish(ps: Proxies, gs: Groups, k: string)
    requires GroupInv(ps, gs) && k in ps && ps[k].Member? && Keep(gs[ps[k].group].backends, k) == []
    ensures GroupInv(ps - {k}, gs - {ps[k].group})
  {
    VanishBackends(ps, gs, k);
    VanishMembers(ps, gs, k);
  }

  lemma VanishBackends(ps: Proxies, gs: Groups, k: string)
    requires BackendsLive(ps, gs) && k in ps && ps[k].Member?
    ensures BackendsLive(ps - {k}, gs - {ps[k].group})
  {
  }

  lemma VanishMembers(ps: Proxies, gs: Groups, k: string)
    requires MembersListed(ps, gs) && k in ps && ps[k].Member? && Keep(gs[ps[k].group].backends, k) == []
    ensures MembersListed(ps - {k}, gs - {ps[k].group})
  {
    var backends := gs[ps[k].group].backends;
    forall x | x in ps && x != k && ps[x].Member? ensures ps[x].group != ps[k].group {
      assert x in backends ==> x in Keep(backends, k);
    }
  }

  /** The other members of the group stay its backends. */
  lemma StillMember(ps: Proxies, gs: Groups, k: string, left: seq<string>)
    requires GroupInv(ps, gs) && k in ps && ps[k].Member? && left == Keep(gs[ps[k].group].backends, k)
    ensures forall x :: x in ps && x != k && ps[x] == ps[k] ==> x in left
  {
    forall x | x in ps && x != k && ps[x] == ps[k] ensures x in left {
      assert x in gs[ps[k].group].backends;
    }
  }

  lemma NamesAddPlain(ps: Proxies, reg: map<string, Owner>, xtcp: bool, k: string, p: Proxy)
    requires NameInv(ps, reg, xtcp) && k !in ps && !Named(p, xtcp)
    ensures NameInv(ps[k := p], reg, xtcp)
  {
  }

  lemma NamesAdd(ps: Proxies, reg: map<string, Owner>, xtcp: bool, run: string, p: Proxy, sk: string)
    requires NameInv(ps, reg, xtcp) && Named(p, xtcp) && p.name !in reg && Key(run, p.name) !in ps
    ensures NameInv(ps[Key(run, p.name) := p], reg[p.name := Owner(run, sk)], xtcp)
  {
  }

  lemma NamesDropPlain(ps: Proxies, reg: map<string, Owner>, xtcp: bool, k: string)
    requires NameInv(ps, reg, xtcp) && k in ps && !Named(ps[k], xtcp)
    ensures NameInv(ps - {k}, reg, xtcp)
  {
  }

  lemma NamesDrop(ps: Proxies, reg: map<string, Owner>, xtcp: bool, k: string)
    requires NameInv(ps, reg, xtcp) && k in ps && Named(ps[k], xtcp)
    ensures NameInv(ps - {k}, reg - {ps[k].name}, xtcp)
  {
    var n := ps[k].name;
    forall m | m in reg && m != n ensures Listed(ps - {k}, Key(reg[m].runId, m), m, xtcp) {
      assert Listed(ps, Key(reg[m].runId, m), m, xtcp);
    }
  }

  // ----- registering -----

  /** The registration gets as far as drawing a random port. */
  predicate DrawsPort(s: State, run: string, m: NewProxy) {
    && Key(run, m.name) !in s.proxies && m.remotePort == 0
    && (|| (m.kind.TcpKind? && m.group == []) || m.kind.UdpKind?
        || (m.kind.XtcpKind? && !Blank(m.sk) && m.name !in s.xtcp && m.fallbackToRelay))
  }

  lemma FailedCursor(s: State, ranges: seq<(u16, u16)>, run: string, m: NewProxy)
    requires !Register(s, ranges, run, m).1
    ensures Register(s, ranges, run, m).0
         == s.(cursor := if DrawsPort(s, run, m) then Search(ranges, s.ports, s.cursor, ATTEMPTS).1 else s.cursor)
  {
  }

  /**
   * A failed registration changes nothing but the dynamic cursor, and that exactly as far as the search for a
   * random port went. It changes nothing at all if and only if no random port was drawn.
   */
  lemma FailedRegistration(s: State, ranges: seq<(u16, u16)>, run: string, m: NewProxy)
    requires !Register(s, ranges, run, m).1
    ensures Register(s, ranges, run, m).0
         == s.(cursor := if DrawsPort(s, run, m) then Search(ranges, s.ports, s.cursor, ATTEMPTS).1 else s.cursor)
    ensures InRange(s.cursor) ==> (Register(s, ranges, run, m).0 == s <==> !DrawsPort(s, run, m))
  {
    FailedCursor(s, ranges, run, m);
    if InRange(s.cursor) {
      SearchMoves(ranges, s.ports, s.cursor);
    }
  }

  /** Such a registration exists: a random port is drawn, its bind fails, and the cursor has moved on. */
  lemma FailedRegistrationMoves(ranges: seq<(u16, u16)>, run: string, name: string)
    ensures var m := NewProxy(name, TcpKind, 0, "", "", "", false, false, false);
            var (s, ok) := Register(EMPTY, ranges, run, m);
            !ok && s.cursor != EMPTY.cursor && s == EMPTY.(cursor := s.cursor)
  {
    FailedRegistration(EMPTY, ranges, run, NewProxy(name, TcpKind, 0, "", "", "", false, false, false));
  }

  /** Registering a proxy that is neither a group member nor an stcp provider, with or without a port of its own. */
  lemma AddKeeps(s: State, s1: State, run: string, m: NewProxy, p: Proxy, held: Held) returns (held': Held)
    requires Inv(s, held) && Key(run, m.name) !in s.proxies && !p.Member? && !p.Stcp?
    requires s1 == s.(ports := s1.ports, cursor := s1.cursor, xtcp := s1.xtcp)
    requires PortOf(p).None? ==> s1.ports == s.ports
    requires PortOf(p).Some? ==> PortOf(p).value !in s.ports && s1.ports == s.ports + {PortOf(p).value}
    ensures Inv(Add(s1, run, m, p), held')
  {
    var k := Key(run, m.name);
    GroupsAddPlain(s.proxies, s.groups, k, p);
    NamesAddPlain(s.proxies, s.stcp, false, k, p);
    if PortOf(p).Some? {
      PortsAddHolder(s.proxies, s.groups, s.ports, held, k, p);
      held' := held[PortOf(p).value := ByProxy(k)];
    } else {
      PortsAddPlain(s.proxies, s.groups, s.ports, held, k, p);
      held' := held;
    }
  }

  lemma MemberKeeps(s: State, ranges: seq<(u16, u16)>, run: string, m: NewProxy, held: Held) returns (held': Held)
    requires Inv(s, held) && Key(run, m.name) !in s.proxies && RegisterMember(s, ranges, run, m).1
    ensures Inv(RegisterMember(s, ranges, run, m).0, held')
  {
    var id, k, s' := GroupId(m), Key(run, m.name), RegisterMember(s, ranges, run, m).0;
    var g := s'.groups[id];
    GroupsJoin(s.proxies, s.groups, k, id, g);
    NamesAddPlain(s.proxies, s.stcp, false, k, Member(id));
    held' := MemberPorts(s, s', k, id, held);
  }

  lemma MemberPorts(s: State, s': State, k: string, id: string, held: Held) returns (held': Held)
    requires PortInv(s.proxies, s.groups, s.ports, held) && k !in s.proxies && s'.proxies == s.proxies[k := Member(id)]
    requires id in s'.groups && s'.groups == s.groups[id := s'.groups[id]]
    requires if id in s.groups then s'.groups[id].port == s.groups[id].port && s'.ports == s.ports
             else s'.groups[id].port !in s.ports && s'.ports == s.ports + {s'.groups[id].port}
    ensures PortInv(s'.proxies, s'.groups, s'.ports, held')
  {
    var g := s'.groups[id];
    if id in s.groups {
      PortsSameGroup(s.proxies, s.groups, s.ports, held, id, g);
      held' := held;
    } else {
      PortsAddGroup(s.proxies, s.groups, s.ports, held, id, g);
      held' := held[g.port := ByGroup(id)];
    }
    PortsAddPlain(s.proxies, s'.groups, s'.ports, held', k, Member(id));
  }

  lemma StcpKeeps(s: State, run: string, m: NewProxy, held: Held)
    requires Inv(s, held) && Key(run, m.name) !in s.proxies && RegisterStcp(s, run, m).1
    ensures Inv(RegisterStcp(s, run, m).0, held)
  {
    var k, p := Key(run, m.name), Stcp(m.name);
    GroupsAddPlain(s.proxies, s.groups, k, p);
    PortsAddPlain(s.proxies, s.groups, s.ports, held, k, p);
    NamesAdd(s.proxies, s.stcp, false, run, p, m.sk);
  }

  lemma PortOrXtcpKeeps(s: State, ranges: seq<(u16, u16)>, run: string, m: NewProxy, held: Held) returns (held': Held)
    requires Inv(s, held) && Key(run, m.name) !in s.proxies
    ensures RegisterPort(s, ranges, run, m).1 && !m.kind.XtcpKind? ==> Inv(RegisterPort(s, ranges, run, m).0, held')
    ensures RegisterXtcp(s, ranges, run, m).1 && m.kind.XtcpKind? ==> Inv(RegisterXtcp(s, ranges, run, m).0, held')
  {
    var (s', ok) := if m.kind.XtcpKind? then RegisterXtcp(s, ranges, run, m) else RegisterPort(s, ranges, run, m);
    held' := held;
    if ok {
      held' := AddKeeps(s, s'.(proxies := s.proxies, records := s.records), run, m, s'.proxies[Key(run, m.name)], held);
    }
  }

  lemma RegisterKeeps(s: State, ranges: seq<(u16, u16)>, run: string, m: NewProxy, held: Held) returns (held': Held)
    requires Inv(s, held)
    ensures Inv(Register(s, ranges, run, m).0, held')
  {
    held' := held;
    if !Register(s, ranges, run, m).1 {
      FailedRegistration(s, ranges, run, m);
    } else if m.kind.StcpKind? {
      StcpKeeps(s, run, m, held);
    } else if m.kind.TcpKind? && m.group != [] {
      held' := MemberKeeps(s, ranges, run, m, held);
    } else if m.kind.HttpKind? || m.kind.HttpsKind? {
      held' := AddKeeps(s, s, run, m, if m.kind.HttpKind? then Http else Https, held);
    } else {
      held' := PortOrXtcpKeeps(s, ranges, run, m, held);
    }
  }

  // ----- removing -----

  lemma RemovePlainKeeps(s: State, key: string, held: Held) returns (held': Held)
    requires Inv(s, held) && key in s.proxies && !s.proxies[key].Member?
    ensures Inv(Remove(s, key), held')
  {
    var p := s.proxies[key];
    RemoveProxies(s, key);
    GroupsDropPlain(s.proxies, s.groups, key);
    RemoveNames(s, key);
    held' := RemovePorts(s, key, held);
  }

  lemma RemoveNames(s: State, key: string)
    requires NameInv(s.proxies, s.stcp, false) && key in s.proxies && !s.proxies[key].Member?
    ensures NameInv(s.proxies - {key}, Remove(s, key).stcp, false)
  {
    if s.proxies[key].Stcp? {
      NamesDrop(s.proxies, s.stcp, false, key);
    } else {
      NamesDropPlain(s.proxies, s.stcp, false, key);
    }
  }

  lemma RemovePorts(s: State, key: string, held: Held) returns (held': Held)
    requires PortInv(s.proxies, s.groups, s.ports, held) && key in s.proxies && !s.proxies[key].Member?
    ensures PortInv(s.proxies - {key}, Remove(s, key).groups, Remove(s, key).ports, held')
  {
    if PortOf(s.proxies[key]).Some? {
      PortsDropHolder(s.proxies, s.groups, s.ports, held, key);
      held' := held - {PortOf(s.proxies[key]).value};
    } else {
      PortsDropPlain(s.proxies, s.groups, s.ports, held, key);
      held' := held;
    }
  }

  lemma RemoveMemberKeeps(s: State, key: string, held: Held) returns (held': Held)
    requires Inv(s, held) && key in s.proxies && s.proxies[key].Member?
    ensures Inv(Remove(s, key), held')
  {
    var id := s.proxies[key].group;
    var left := Keep(s.groups[id].backends, key);
    var g := s.groups[id].(backends := left);
    NamesDropPlain(s.proxies, s.stcp, false, key);
    PortsDropPlain(s.proxies, s.groups, s.ports, held, key);
    if left == [] {
      GroupsVanish(s.proxies, s.groups, key);
      PortsDropGroup(s.proxies - {key}, s.groups, s.ports, held, id);
      held' := held - {s.groups[id].port};
    } else {
      GroupsLeave(s.proxies, s.groups, key, g);
      PortsSameGroup(s.proxies - {key}, s.groups, s.ports, held, id, g);
      held' := held;
    }
  }

  lemma RemoveKeeps(s: State, key: string, held: Held) returns (held': Held)
    requires Inv(s, held) && key in s.proxies
    ensures Inv(Remove(s, key), held')
  {
    if s.proxies[key].Member? {
      held' := RemoveMemberKeeps(s, key, held);
    } else {
      held' := RemovePlainKeeps(s, key, held);
    }
  }

  lemma StepKeeps(s: State, ranges: seq<(u16, u16)>, step: Step, held: Held) returns (held': Held)
    requires Inv(s, held) && Enabled(s, step)
    ensures Inv(Next(s, ranges, step), held')
  {
    match step {
      case RegisterProxy(run, m) => held' := RegisterKeeps(s, ranges, run, m, held);
      case RemoveProxy(key) => held' := RemoveKeeps(s, key, held);
      case EvictProxy(_, key) => held' := RemoveKeeps(s, key, held);
    }
  }

  // ----- every run -----

  lemma {:induction false} Invariant(s: State, ranges: seq<(u16, u16)>, steps: seq<Step>, held: Held) returns (held': Held)
    requires Inv(s, held) && Exec(s, ranges, steps).Some?
    ensures Inv(Exec(s, ranges, steps).value, held')
    decreases |steps|
  {
    held' := held;
    if steps != [] {
      var next := StepKeeps(s, ranges, steps[0], held);
      held' := Invariant(Next(s, ranges, steps[0]), ranges, steps[1..], next);
    }
  }

  lemma EmptyInv()
    ensures Inv(EMPTY, map[])
  {
  }

  /**
   * In every reachable state the allocated ports are the disjoint union of the ports of live tcp and udp
   * proxies, xtcp relays and groups.
   */
  lemma PortsAreHeldOnce(ranges: seq<(u16, u16)>, steps: seq<Step>)
    requires Exec(EMPTY, ranges, steps).Some?
    ensures var s := Exec(EMPTY, ranges, steps).value;
            && s.ports == (set k | k in s.proxies && PortOf(s.proxies[k]).Some? :: PortOf(s.proxies[k]).value)
                          + (set id | id in s.groups :: s.groups[id].port)
            && (forall k, id :: k in s.proxies && id in s.groups ==> PortOf(s.proxies[k]) != Some(s.groups[id].port))
            && (forall k, k' :: k in s.proxies && k' in s.proxies && k != k' && PortOf(s.proxies[k]).Some? ==>
                  PortOf(s.proxies[k]) != PortOf(s.proxies[k']))
            && (forall id, id' :: id in s.groups && id' in s.groups && id != id' ==> s.groups[id].port != s.groups[id'].port)
  {
    EmptyInv();
    var held := Invariant(EMPTY, ranges, steps, map[]);
    var s := Exec(EMPTY, ranges, steps).value;
    HeldOnce(s.proxies, s.groups, s.ports, held);
  }

  lemma HeldOnce(ps: Proxies, gs: Groups, ports: set<u16>, held: Held)
    requires PortInv(ps, gs, ports, held)
    ensures ports == (set k | k in ps && PortOf(ps[k]).Some? :: PortOf(ps[k]).value) + (set id | id in gs :: gs[id].port)
    ensures forall k, id :: k in ps && id in gs ==> PortOf(ps[k]) != Some(gs[id].port)
    ensures forall k, k' :: k in ps && k' in ps && k != k' && PortOf(ps[k]).Some? ==> PortOf(ps[k]) != PortOf(ps[k'])
    ensures forall id, id' :: id in gs && id' in gs && id != id' ==> gs[id].port != gs[id'].port
  {
    var direct := set k | k in ps && PortOf(ps[k]).Some? :: PortOf(ps[k]).value;
    var grouped := set id | id in gs :: gs[id].port;
    forall p | p in ports ensures p in direct + grouped {
      assert Holds(ps, gs, held[p], p);
    }
  }

  /**
   * Removing one proxy, from any reachable state, leaves every other live proxy's port and every remaining
   * group's port allocated.
   */
  lemma CloseFreesOnlyItsOwn(ranges: seq<(u16, u16)>, steps: seq<Step>, key: string, other: string)
    requires Exec(EMPTY, ranges, steps).Some? && key in Exec(EMPTY, ranges, steps).value.proxies
    ensures var s := Exec(EMPTY, ranges, steps).value;
            var s' := Remove(s, key);
            && (other != key && other in s.proxies && PortOf(s.proxies[other]).Some? ==>
                  PortOf(s.proxies[other]).value in s'.ports)
            && (other in s'.groups ==> s'.groups[other].port in s'.ports)
  {
    EmptyInv();
    var held := Invariant(EMPTY, ranges, steps, map[]);
    var s := Exec(EMPTY, ranges, steps).value;
    var held' := RemoveKeeps(s, key, held);
    assert PortInv(Remove(s, key).proxies, Remove(s, key).groups, Remove(s, key).ports, held');
    RemoveProxies(s, key);
  }

  lemma RemoveProxies(s: State, key: string)
    requires key in s.proxies
    ensures Remove(s, key).proxies == s.proxies - {key} && Remove(s, key).records == s.records - {key}
  {
  }

  /** In every reachable state both maps have the same keys and a group exists exactly when it has a live member. */
  lemma GroupsAndRecordsAgree(ranges: seq<(u16, u16)>, steps: seq<Step>, id: string)
    requires Exec(EMPTY, ranges, steps).Some?
    ensures var s := Exec(EMPTY, ranges, steps).value;
            && s.proxies.Keys == s.records.Keys
            && (id in s.groups <==> exists k :: k in s.proxies && s.proxies[k] == Member(id))
            && (id in s.groups ==> s.groups[id].backends != [])
  {
    EmptyInv();
    var held := Invariant(EMPTY, ranges, steps, map[]);
    var s := Exec(EMPTY, ranges, steps).value;
    if id in s.groups {
      var b := s.groups[id].backends[0];
      assert b in s.groups[id].backends;
      assert b in s.proxies && s.proxies[b] == Member(id);
    }
  }

  // ----- the stcp and xtcp registries -----

  lemma KeySuffixInjective(r1: string, r2: string, n: string)
    ensures Key(r1, n) == Key(r2, n) <==> r1 == r2
  {
    if Key(r1, n) == Key(r2, n) {
      assert |r1| == |r2|;
      assert r1 == Key(r1, n)[..|r1|] && r2 == Key(r2, n)[..|r2|];
    }
  }

  /** In every reachable state the stcp registry maps a name to run r exactly when r's stcp proxy of that name is live. */
  lemma StcpOwner(ranges: seq<(u16, u16)>, steps: seq<Step>, run: string, name: string)
    requires Exec(EMPTY, ranges, steps).Some?
    ensures var s := Exec(EMPTY, ranges, steps).value;
            (name in s.stcp && s.stcp[name].runId == run)
            <==> (Key(run, name) in s.proxies && s.proxies[Key(run, name)] == Stcp(name))
  {
    EmptyInv();
    var held := Invariant(EMPTY, ranges, steps, map[]);
    var s := Exec(EMPTY, ranges, steps).value;
    NameOwner(s.proxies, s.stcp, false, run, name);
  }

  lemma NameOwner(ps: Proxies, reg: map<string, Owner>, xtcp: bool, run: string, name: string)
    requires NameInv(ps, reg, xtcp)
    ensures (name in reg && reg[name].runId == run) <==> Listed(ps, Key(run, name), name, xtcp)
  {
    if Listed(ps, Key(run, name), name, xtcp) {
      KeySuffixInjective(run, reg[name].runId, name);
    }
  }

  /** What a successful registration adds to the maps. */
  predicate Grew(s: State, s': State, run: string, m: NewProxy) {
    var k := Key(run, m.name);
    && k !in s.proxies && k in s'.proxies && s'.proxies == s.proxies[k := s'.proxies[k]]
    && s'.records == s.records[k := Record(run, m.name, m.kind)]
    && (if s'.proxies[k].Xtcp?
        then s'.proxies[k].name == m.name && m.name !in s.xtcp && s'.xtcp == s.xtcp[m.name := Owner(run, m.sk)]
        else s'.xtcp == s.xtcp)
  }

  lemma AddGrows(s: State, s1: State, run: string, m: NewProxy, p: Proxy)
    requires Key(run, m.name) !in s.proxies && s1.proxies == s.proxies && s1.records == s.records
    requires if p.Xtcp? then p.name == m.name && m.name !in s.xtcp && s1.xtcp == s.xtcp[m.name := Owner(run, m.sk)]
             else s1.xtcp == s.xtcp
    ensures Grew(s, Add(s1, run, m, p), run, m)
  {
  }

  lemma PortGrows(s: State, ranges: seq<(u16, u16)>, run: string, m: NewProxy)
    requires Key(run, m.name) !in s.proxies && RegisterPort(s, ranges, run, m).1
    ensures Grew(s, RegisterPort(s, ranges, run, m).0, run, m)
  {
    var (port, s1) := Claim(s, ranges, m.remotePort, m.bindOk);
    AddGrows(s, s1, run, m, if m.kind.UdpKind? then Udp(port.value) else Tcp(port.value));
  }

  lemma MemberGrows(s: State, ranges: seq<(u16, u16)>, run: string, m: NewProxy)
    requires Key(run, m.name) !in s.proxies && RegisterMember(s, ranges, run, m).1
    ensures Grew(s, RegisterMember(s, ranges, run, m).0, run, m)
  {
    var id, key := GroupId(m), Key(run, m.name);
    if id in s.groups {
      var g := s.groups[id];
      var backends := if key in g.backends then g.backends else g.backends + [key];
      AddGrows(s, s.(groups := s.groups[id := g.(backends := backends)]), run, m, Member(id));
    } else {
      var (port, s1) := Claim(s, ranges, m.remotePort, m.bindOk);
      AddGrows(s, s1.(groups := s1.groups[id := Group(port.value, [key])]), run, m, Member(id));
    }
  }

  lemma XtcpGrows(s: State, ranges: seq<(u16, u16)>, run: string, m: NewProxy)
    requires Key(run, m.name) !in s.proxies && RegisterXtcp(s, ranges, run, m).1
    ensures Grew(s, RegisterXtcp(s, ranges, run, m).0, run, m)
  {
    var (relay, s1) := if m.fallbackToRelay then Claim(s, ranges, m.remotePort, m.bindOk) else (None, s);
    AddGrows(s, s1.(xtcp := s1.xtcp[m.name := Owner(run, m.sk)]), run, m, Xtcp(m.name, relay));
  }

  lemma Registered(s: State, ranges: seq<(u16, u16)>, run: string, m: NewProxy)
    requires Register(s, ranges, run, m).1
    ensures Grew(s, Register(s, ranges, run, m).0, run, m)
  {
    match m.kind
    case TcpKind => if m.group == [] { PortGrows(s, ranges, run, m); } else { MemberGrows(s, ranges, run, m); }
    case UdpKind => PortGrows(s, ranges, run, m);
    case StcpKind => AddGrows(s, s.(stcp := s.stcp[m.name := Owner(run, m.sk)]), run, m, Stcp(m.name));
    case XtcpKind => XtcpGrows(s, ranges, run, m);
    case HttpKind => AddGrows(s, s, run, m, Http);
    case HttpsKind => AddGrows(s, s, run, m, Https);
  }

  lemma RegisterXtcpNames(s: State, ranges: seq<(u16, u16)>, run: string, m: NewProxy)
    requires NameInv(s.proxies, s.xtcp, true)
    ensures var s' := Register(s, ranges, run, m).0; NameInv(s'.proxies, s'.xtcp, true)
  {
    var (s', ok) := Register(s, ranges, run, m);
    if ok {
      Registered(s, ranges, run, m);
      AddedName(s.proxies, s.xtcp, s'.xtcp, run, m.name, s'.proxies[Key(run, m.name)], m.sk);
    } else {
      FailedRegistration(s, ranges, run, m);
    }
  }

  lemma AddedName(ps: Proxies, reg: map<string, Owner>, reg': map<string, Owner>, run: string, n: string, p: Proxy, sk: string)
    requires NameInv(ps, reg, true) && Key(run, n) !in ps
    requires p.Xtcp? ==> p.name == n && n !in reg && reg' == reg[n := Owner(run, sk)]
    requires !p.Xtcp? ==> reg' == reg
    ensures NameInv(ps[Key(run, n) := p], reg', true)
  {
    if p.Xtcp? { NamesAdd(ps, reg, true, run, p, sk); } else { NamesAddPlain(ps, reg, true, Key(run, n), p); }
  }

  lemma RemoveXtcpNames(s: State, key: string)
    requires NameInv(s.proxies, s.xtcp, true) && key in s.proxies
    ensures NameInv(Remove(s, key).proxies, Remove(s, key).xtcp, true)
  {
    if s.proxies[key].Xtcp? { NamesDrop(s.proxies, s.xtcp, true, key); } else { NamesDropPlain(s.proxies, s.xtcp, true, key); }
  }

  /** The evicted proxy is the one the xtcp registry lists under that name, or it lists none. */
  predicate CleanEviction(s: State, name: string, key: string)
    requires key in s.proxies
  {
    name !in s.xtcp || (s.proxies[key].Xtcp? && s.proxies[key].name == name)
  }

  /** Eviction keeps the xtcp registry exact if and only if it takes the listed proxy or the name is not listed. */
  lemma EvictionExact(s: State, name: string, key: string)
    requires NameInv(s.proxies, s.xtcp, true) && key in s.proxies
    ensures NameInv(Evict(s, name, key).proxies, Evict(s, name, key).xtcp, true) <==> CleanEviction(s, name, key)
  {
    var s1 := Remove(s, key);
    RemoveXtcpNames(s, key);
    RemoveProxies(s, key);
    if CleanEviction(s, name, key) {
      assert s1.xtcp - {name} == s1.xtcp;
    } else {
      var k := Key(s.xtcp[name].runId, name);
      assert Listed(s.proxies, k, name, true);
      assert k in s1.proxies && s1.proxies[k] == s.proxies[k];
    }
  }

  predicate CleanRun(s: State, ranges: seq<(u16, u16)>, steps: seq<Step>)
    decreases |steps|
  {
    steps == [] ||
    (&& Enabled(s, steps[0])
     && (steps[0].EvictProxy? ==> CleanEviction(s, steps[0].name, steps[0].key))
     && CleanRun(Next(s, ranges, steps[0]), ranges, steps[1..]))
  }

  /** Over every run whose evictions are clean, the xtcp registry maps a name to run r exactly when r's xtcp proxy is live. */
  lemma {:induction false} XtcpOwner(s: State, ranges: seq<(u16, u16)>, steps: seq<Step>, run: string, name: string)
    requires NameInv(s.proxies, s.xtcp, true) && CleanRun(s, ranges, steps)
    ensures Exec(s, ranges, steps).Some?
    ensures var s' := Exec(s, ranges, steps).value;
            (name in s'.xtcp && s'.xtcp[name].runId == run) <==> Listed(s'.proxies, Key(run, name), name, true)
    decreases |steps|
  {
    if steps == [] {
      NameOwner(s.proxies, s.xtcp, true, run, name);
    } else {
      match steps[0] {
        case RegisterProxy(r, m) => RegisterXtcpNames(s, ranges, r, m);
        case RemoveProxy(key) => RemoveXtcpNames(s, key);
        case EvictProxy(n, key) => EvictionExact(s, n, key);
      }
      XtcpOwner(Next(s, ranges, steps[0]), ranges, steps[1..], run, name);
    }
  }

  /**
   * Two runs may use one name for proxies of different kinds. Evicting the first run's tcp proxy then drops
   * the second run's live xtcp proxy from the registry.
   */
  lemma EvictionOrphansXtcp(r1: string, r2: string, name: string)
    requires r1 != r2
    ensures var tcp := NewProxy(name, TcpKind, 20000, "", "", "", false, true, false);
            var xtcp := NewProxy(name, XtcpKind, 0, "", "", "sk", false, true, false);
            var run := [RegisterProxy(r1, tcp), RegisterProxy(r2, xtcp), EvictProxy(name, Key(r1, name))];
            && Exec(EMPTY, AllowedRanges([]), run).Some?
            && name !in Exec(EMPTY, AllowedRanges([]), run).value.xtcp
            && Listed(Exec(EMPTY, AllowedRanges([]), run).value.proxies, Key(r2, name), name, true)
  {
    var ranges := AllowedRanges([]);
    var tcp := NewProxy(name, TcpKind, 20000, "", "", "", false, true, false);
    var xtcp := NewProxy(name, XtcpKind, 0, "", "", "sk", false, true, false);
    KeySuffixInjective(r1, r2, name);
    assert ranges[0].0 <= 20000 <= ranges[0].1;
    assert !White("sk"[0]);
    var k1, k2 := Key(r1, name), Key(r2, name);
    var s1 := Next(EMPTY, ranges, RegisterProxy(r1, tcp));
    assert s1.proxies == map[k1 := Tcp(20000)] && s1.xtcp == map[];
    var s2 := Next(s1, ranges, RegisterProxy(r2, xtcp));
    assert s2.proxies == map[k1 := Tcp(20000), k2 := Xtcp(name, None)];
    assert k1[|r1|..] == [':'] + name;
    var s3 := Next(s2, ranges, EvictProxy(name, k1));
    var t2, t1 := [EvictProxy(name, k1)], [RegisterProxy(r2, xtcp), EvictProxy(name, k1)];
    var run := [RegisterProxy(r1, tcp), RegisterProxy(r2, xtcp), EvictProxy(name, k1)];
    assert t2[1..] == [] && t1[1..] == t2 && run[1..] == t1;
    assert Exec(s3, ranges, []) == Some(s3);
    assert Exec(s2, ranges, t2) == Some(s3);
    assert Exec(s1, ranges, t1) == Some(s3);
    assert Exec(EMPTY, ranges, run) == Some(s3);
  }

  // ----- keys and runs -----

  /** Every key is built from the run and name in its record. */
  ghost predicate KeysInv(s: State) {
    && s.proxies.Keys == s.records.Keys
    && (forall k :: k in s.records ==> k == Key(s.records[k].runId, s.records[k].name) && ':' !in s.records[k].runId)
  }

  lemma StepKeys(s: State, ranges: seq<(u16, u16)>, step: Step)
    requires KeysInv(s) && Enabled(s, step) && (step.RegisterProxy? ==> ':' !in step.run)
    ensures KeysInv(Next(s, ranges, step))
  {
    match step
    case RegisterProxy(run, m) => RegisterKeysOk(s, ranges, run, m);
    case RemoveProxy(key) => RemoveProxies(s, key);
    case EvictProxy(_, key) => RemoveProxies(s, key);
  }

  lemma RegisterKeysOk(s: State, ranges: seq<(u16, u16)>, run: string, m: NewProxy)
    requires KeysInv(s) && ':' !in run
    ensures KeysInv(Register(s, ranges, run, m).0)
  {
    if Register(s, ranges, run, m).1 {
      Registered(s, ranges, run, m);
    } else {
      FailedRegistration(s, ranges, run, m);
    }
  }

  lemma {:induction false} RunKeys(s: State, ranges: seq<(u16, u16)>, steps: seq<Step>)
    requires KeysInv(s) && Exec(s, ranges, steps).Some?
    requires forall i :: 0 <= i < |steps| && steps[i].RegisterProxy? ==> ':' !in steps[i].run
    ensures KeysInv(Exec(s, ranges, steps).value)
    decreases |steps|
  {
    if steps != [] {
      StepKeys(s, ranges, steps[0]);
      RunKeys(Next(s, ranges, steps[0]), ranges, steps[1..]);
    }
  }

  /**
   * Over every run with colon-free run ids (they are UUIDs), the string keys behave like (run, name) pairs:
   * the keys with prefix "run:" are exactly the proxies of that run, and a key with suffix ":name" is a proxy
   * of that name, or of a longer name that itself ends in ":name".
   */
  lemma KeysSelectExactly(ranges: seq<(u16, u16)>, steps: seq<Step>, run: string, name: string, key: string)
    requires Exec(EMPTY, ranges, steps).Some? && key in Exec(EMPTY, ranges, steps).value.proxies && ':' !in run
    requires forall i :: 0 <= i < |steps| && steps[i].RegisterProxy? ==> ':' !in steps[i].run
    ensures var s := Exec(EMPTY, ranges, steps).value;
            && key in s.records
            && (run + [':'] <= key <==> s.records[key].runId == run)
            && (EndsWith(key, [':'] + name) <==> s.records[key].name == name || EndsWith(s.records[key].name, [':'] + name))
            && (':' !in s.records[key].name ==> (EndsWith(key, [':'] + name) <==> s.records[key].name == name))
  {
    RunKeys(EMPTY, ranges, steps);
    var s := Exec(EMPTY, ranges, steps).value;
    PrefixIsRun(run, s.records[key].runId, s.records[key].name);
    SuffixIsName(name, s.records[key].runId, s.records[key].name);
  }

  // ----- the object whose maps are updated -----

  class ProxyManager {
    var proxies: Proxies
    var records: map<string, Record>
    var tcpGroups: Groups
    var stcpRegistry: map<string, Owner>
    var xtcpRegistry: map<string, Owner>
    const resources: ResourceController

    constructor (resources: ResourceController)
      requires resources.tcpPorts == {} && resources.nextDynamicPort == FIRST_DYNAMIC
      ensures this.resources == resources && View() == EMPTY
    {
      proxies, records, tcpGroups, stcpRegistry, xtcpRegistry := map[], map[], map[], map[], map[];
      this.resources := resources;
    }

    ghost function View(): State
      reads this, resources
    {
      State(proxies, records, tcpGroups, stcpRegistry, xtcpRegistry, resources.tcpPorts, resources.nextDynamicPort)
    }

    /** Port allocation and bind of `TcpProxy::new`, `UdpProxy::new` and `GroupedTcpProxy::new`. */
    method Open(port: u16, bindOk: bool) returns (r: Option<u16>)
      modifies resources
      ensures (r, View()) == Claim(old(View()), resources.allowPorts, port, bindOk)
    {
      if port > 0 {
        r := resources.AllocateTcpPort(port);
      } else {
        r := resources.AllocateRandomTcpPort();
        var _ := SearchFirst(resources.allowPorts, old(resources.tcpPorts), old(resources.nextDynamicPort), ATTEMPTS);
      }
      if r.Some? && !bindOk {
        resources.ReleaseTcpPort(r.value);
        assert resources.tcpPorts == old(resources.tcpPorts);
        return None;
      }
    }

    method RegisterNew(run: string, m: NewProxy) returns (ok: bool)
      modifies this, resources
      ensures (View(), ok) == Register(old(View()), resources.allowPorts, run, m)
    {
      var key := Key(run, m.name);
      if key in proxies { return false; }
      var proxy: Proxy;
      match m.kind {
        case TcpKind =>
          if m.group == [] {
            var port := Open(m.remotePort, m.bindOk);
            if port.None? { return false; }
            proxy := Tcp(port.value);
          } else {
            ok := JoinGroup(key, m);
            if !ok { return; }
            proxy := Member(GroupId(m));
          }
        case UdpKind =>
          var port := Open(m.remotePort, m.bindOk);
          if port.None? { return false; }
          proxy := Udp(port.value);
        case StcpKind =>
          if Blank(m.sk) || m.name in stcpRegistry { return false; }
          stcpRegistry := stcpRegistry[m.name := Owner(run, m.sk)];
          proxy := Stcp(m.name);
        case XtcpKind =>
          if Blank(m.sk) || m.name in xtcpRegistry { return false; }
          var relay := None;
          if m.fallbackToRelay {
            relay := Open(m.remotePort, m.bindOk);
            if relay.None? { return false; }
          }
          xtcpRegistry := xtcpRegistry[m.name := Owner(run, m.sk)];
          proxy := Xtcp(m.name, relay);
        case HttpKind =>
          if !m.vhostOk { return false; }
          proxy := Http;
        case HttpsKind =>
          if !m.vhostOk { return false; }
          proxy := Https;
        case OtherKind => return false;
      }
      proxies := proxies[key := proxy];
      records := records[key := Record(run, m.name, m.kind)];
      ok := true;
    }

    method JoinGroup(key: string, m: NewProxy) returns (ok: bool)
      modifies this`tcpGroups, resources
      ensures var (port, s1) := Claim(old(View()), resources.allowPorts, m.remotePort, m.bindOk);
              if m.remotePort == 0 then !ok && View() == old(View())
              else if GroupId(m) in old(tcpGroups) then
                ok && View() == old(View()).(groups := tcpGroups)
                && tcpGroups == old(tcpGroups)[GroupId(m) := old(tcpGroups)[GroupId(m)].(backends :=
                     if key in old(tcpGroups)[GroupId(m)].backends then old(tcpGroups)[GroupId(m)].backends
                     else old(tcpGroups)[GroupId(m)].backends + [key])]
              else
                ok == port.Some?
                && View() == if ok then s1.(groups := s1.groups[GroupId(m) := Group(port.value, [key])]) else s1
    {
      var id := GroupId(m);
      if m.remotePort == 0 { return false; }
      if id in tcpGroups {
        var g := tcpGroups[id];
        if key !in g.backends { g := g.(backends := g.backends + [key]); }
        tcpGroups := tcpGroups[id := g];
        return true;
      }
      var port := Open(m.remotePort, m.bindOk);
      if port.None? { return false; }
      tcpGroups := tcpGroups[id := Group(port.value, [key])];
      ok := true;
    }

    method CloseProxy(key: string, p: Proxy)
      modifies this, resources
      ensures View() == Close(old(View()), key, p)
    {
      match p {
        case Tcp(port) => resources.ReleaseTcpPort(port);
        case Udp(port) => resources.ReleaseTcpPort(port);
        case Member(id) =>
          if id in tcpGroups {
            var left := Keep(tcpGroups[id].backends, key);
            if left == [] {
              resources.ReleaseTcpPort(tcpGroups[id].port);
              tcpGroups := tcpGroups - {id};
            } else {
              tcpGroups := tcpGroups[id := tcpGroups[id].(backends := left)];
            }
          }
        case Stcp(name) => stcpRegistry := stcpRegistry - {name};
        case Xtcp(name, relay) =>
          if relay.Some? { resources.ReleaseTcpPort(relay.value); }
          xtcpRegistry := xtcpRegistry - {name};
        case Http =>
        case Https =>
      }
    }

    method RemoveKey(key: string)
      requires key in proxies
      modifies this, resources
      ensures View() == Remove(old(View()), key)
    {
      var p := proxies[key];
      proxies, records := proxies - {key}, records - {key};
      CloseProxy(key, p);
    }

    method UnregisterProxy(run: string, name: string)
      modifies this, resources
      ensures View() == if Key(run, name) in old(proxies) then Remove(old(View()), Key(run, name)) else old(View())
    {
      if Key(run, name) in proxies {
        RemoveKey(Key(run, name));
      }
    }

    /** Evicts some proxy of that name, if there is one; returns its key. */
    method EvictProxyByName(name: string) returns (key: Option<string>)
      modifies this, resources
      ensures match key
              case None => View() == old(View()) && (forall k :: k in proxies ==> !EndsWith(k, [':'] + name))
              case Some(k) => k in old(proxies) && EndsWith(k, [':'] + name) && View() == Evict(old(View()), name, k)
    {
      var candidates := set k | k in proxies && EndsWith(k, [':'] + name);
      if candidates == {} {
        forall k | k in proxies ensures !EndsWith(k, [':'] + name) {
          assert k !in candidates;
        }
        return None;
      }
      var k :| k in candidates;
      RemoveKey(k);
      xtcpRegistry := xtcpRegistry - {name};
      key := Some(k);
    }

    /** Removes exactly the proxies whose key starts with "run:" and keeps every registry invariant. */
    /**
     * The clean-up of a run is a run of removals of its keys, in some order; what such a run keeps and frees is
     * what `Invariant` and `CloseFreesOnlyItsOwn` say of every run.
     */
    method UnregisterRunProxies(run: string) returns (ghost steps: seq<Step>)
      modifies this, resources
      ensures Exec(old(View()), resources.allowPorts, steps) == Some(View())
      ensures forall i :: 0 <= i < |steps| ==> steps[i].RemoveProxy? && run + [':'] <= steps[i].key
      ensures proxies.Keys == (set k | k in old(proxies) && !(run + [':'] <= k))
      ensures forall k :: k in proxies ==> proxies[k] == old(proxies)[k]
    {
      var keys := set k | k in proxies && run + [':'] <= k;
      ghost var all := keys;
      steps := [];
      while keys != {}
        invariant Exec(old(View()), resources.allowPorts, steps) == Some(View())
        invariant forall i :: 0 <= i < |steps| ==> steps[i].RemoveProxy? && run + [':'] <= steps[i].key
        invariant keys <= all && keys <= proxies.Keys
        invariant proxies.Keys == old(proxies).Keys - (all - keys)
        invariant forall k :: k in proxies ==> proxies[k] == old(proxies)[k]
        decreases |keys|
      {
        var key :| key in keys;
        ExecMore(old(View()), resources.allowPorts, steps, View(), RemoveProxy(key));
        RemoveProxies(View(), key);
        RemoveKey(key);
        steps := steps + [RemoveProxy(key)];
        keys := keys - {key};
      }
      forall k ensures k in proxies <==> k in old(proxies) && !(run + [':'] <= k) {
        assert k in proxies.Keys <==> k in old(proxies).Keys - all;
      }
    }
  }

  lemma {:induction false} ExecMore(s: State, ranges: seq<(u16, u16)>, steps: seq<Step>, mid: State, step: Step)
    requires Exec(s, ranges, steps) == Some(mid) && Enabled(mid, step)
    ensures Exec(s, ranges, steps + [step]) == Some(Next(mid, ranges, step))
    decreases |steps|
  {
    if steps == [] {
      assert (steps + [step])[1..] == [];
      assert Exec(Next(s, ranges, step), ranges, []) == Some(Next(s, ranges, step));
    } else {
      assert (steps + [step])[1..] == steps[1..] + [step];
      ExecMore(Next(s, ranges, steps[0]), ranges, steps[1..], mid, step);
    }
  }
}

/** The eBPF route table projected from the rules, written independently of the generator. */
module Routes {
  import opened Text
  import opened Rules
  import opened Canonical
  import opened Dedicated
  import opened EnvoyConfig
  import opened Generator
  import opened Lockstep
  import opened LockstepRules

  /** The domain stands for its hash; seeded routes carry a literal IPv4 address. */
  datatype Route = Route(domain: string, dstPort: int, envoyPort: int, l4: Family, seeded: bool)

  // ---------------------------------------------------------------- dedicated routes

  function MappingRoute(m: Mapping, fam: Family, net: Net): Route {
    Route(m.dst, Uint16(m.dstPort), Uint16(m.envoyPort), fam, net.kind(m.dst) == Ipv4)
  }

  function DedicatedRoutes(ms: seq<Mapping>, fam: Family, net: Net): seq<Route> {
    if ms == [] then []
    else (if ms[0].dst == "" then [] else [MappingRoute(ms[0], fam, net)]) + DedicatedRoutes(ms[1..], fam, net)
  }

  function MappingKeys(ms: seq<Mapping>): set<string> {
    set m | m in ms && m.dst != "" :: PortKey(m.dst, m.dstPort)
  }

  // ---------------------------------------------------------------- shared routes

  /** Rules that ride the shared egress listener. */
  predicate Shares(r: Rule, net: Net) {
    Allows(r) && !IsOpaque(r) && net.kind(r.dst) == Fqdn && NormalizeDomain(r.dst) != "" && SinglePort(r).Some?
  }

  function SharedKey(r: Rule): string
    requires SinglePort(r).Some?
  {
    PortKey(NormalizeDomain(r.dst), SinglePort(r).value)
  }

  predicate HasQuic(r: Rule) { Lower(r.proto) == "https" || Lower(r.proto) == "wss" }

  function EgressRoute(r: Rule, egress: int, l4: Family): Route
    requires SinglePort(r).Some?
  {
    Route(NormalizeDomain(r.dst), Uint16(SinglePort(r).value), Uint16(egress), l4, false)
  }

  /** Whether the shared pass takes a rule: one route per host and port. */
  predicate Taken(r: Rule, net: Net, seen: set<string>) { Shares(r, net) && SharedKey(r) !in seen }

  /** Whether it also gets the QUIC route; a raw udp rule on that host and port has priority. */
  predicate TakenUdp(r: Rule, net: Net, seen: set<string>, udpSeen: set<string>) {
    Taken(r, net, seen) && HasQuic(r) && SharedKey(r) !in udpSeen
  }

  function SharedHere(r: Rule, net: Net, egress: int, seen: set<string>, udpSeen: set<string>): seq<Route> {
    (if Taken(r, net, seen) then [EgressRoute(r, egress, Tcp)] else [])
    + (if TakenUdp(r, net, seen, udpSeen) then [EgressRoute(r, egress, Udp)] else [])
  }

  function SeenNext(r: Rule, net: Net, seen: set<string>): set<string> {
    if Taken(r, net, seen) then seen + {SharedKey(r)} else seen
  }

  function UdpNext(r: Rule, net: Net, seen: set<string>, udpSeen: set<string>): set<string> {
    if TakenUdp(r, net, seen, udpSeen) then udpSeen + {SharedKey(r)} else udpSeen
  }

  function SharedRoutes(rules: seq<Rule>, net: Net, egress: int, seen: set<string>, udpSeen: set<string>): seq<Route>
    decreases |rules|
  {
    if rules == [] then []
    else
      var r := rules[0];
      SharedHere(r, net, egress, seen, udpSeen)
      + SharedRoutes(rules[1..], net, egress, SeenNext(r, net, seen), UdpNext(r, net, seen, udpSeen))
  }

  /** Dedicated TCP, then dedicated UDP, then the shared pass. */
  function RoutesOf(rules: seq<Rule>, net: Net, ports: EnvoyPorts): seq<Route> {
    var tcp, udp := Mappings(Tcp, net.kind, rules, ports), Mappings(Udp, net.kind, rules, ports);
    DedicatedRoutes(tcp, Tcp, net) + DedicatedRoutes(udp, Udp, net)
    + SharedRoutes(rules, net, ports.egress, {}, MappingKeys(udp))
  }

  lemma DedicatedStep(ms: seq<Mapping>, i: nat, fam: Family, net: Net, out: seq<Route>)
    requires i < |ms|
    ensures out + DedicatedRoutes(ms[i..], fam, net) ==
            (if ms[i].dst == "" then out else out + [MappingRoute(ms[i], fam, net)]) + DedicatedRoutes(ms[i + 1..], fam, net)
  {
    hide MappingRoute;
    assert ms[i..][0] == ms[i] && ms[i..][1..] == ms[i + 1..];
    Assoc(out, [MappingRoute(ms[i], fam, net)], DedicatedRoutes(ms[i + 1..], fam, net));
  }

  lemma DedicatedNothing(fam: Family, net: Net)
    ensures DedicatedRoutes([], fam, net) == []
  {
  }

  method TcpPass(tcp: seq<Mapping>, net: Net) returns (out: seq<Route>)
    ensures out == DedicatedRoutes(tcp, Tcp, net)
  {
    hide DedicatedRoutes, MappingRoute;
    out := [];
    assert tcp[0..] == tcp && out + DedicatedRoutes(tcp, Tcp, net) == DedicatedRoutes(tcp, Tcp, net);
    for i := 0 to |tcp|
      invariant out + DedicatedRoutes(tcp[i..], Tcp, net) == DedicatedRoutes(tcp, Tcp, net)
    {
      DedicatedStep(tcp, i, Tcp, net, out);
      if tcp[i].dst != "" {
        out := out + [MappingRoute(tcp[i], Tcp, net)];
      }
    }
    DedicatedNothing(Tcp, net);
    assert tcp[|tcp|..] == [];
  }

  method RoutesFromRules(rules: seq<Rule>, net: Net, ports: EnvoyPorts) returns (out: seq<Route>)
    ensures out == RoutesOf(rules, net, ports)
  {
    hide Fanout, Assign, PortKey, DedicatedRoutes, SharedRoutes, MappingKeys;
    var tcp := DedicatedMappings(Tcp, net.kind, rules, ports.tcpBase);
    var tcpRoutes := TcpPass(tcp, net);
    var udp := DedicatedMappings(Udp, net.kind, rules, ports.udpBase);
    var udpRoutes, udpSeen := UdpPass(udp, net);
    var shared := SharedPass(rules, net, ports.egress, udpSeen);
    out := tcpRoutes + udpRoutes + shared;
  }

  method UdpPass(udp: seq<Mapping>, net: Net) returns (out: seq<Route>, udpSeen: set<string>)
    ensures out == DedicatedRoutes(udp, Udp, net) && udpSeen == MappingKeys(udp)
  {
    hide PortKey, MappingKeys, DedicatedRoutes, MappingRoute;
    MappingKeysEmpty();
    out, udpSeen := [], {};
    assert udp[0..] == udp && udp[..0] == [] && out + DedicatedRoutes(udp, Udp, net) == DedicatedRoutes(udp, Udp, net);
    for i := 0 to |udp|
      invariant out + DedicatedRoutes(udp[i..], Udp, net) == DedicatedRoutes(udp, Udp, net)
      invariant udpSeen == MappingKeys(udp[..i])
    {
      DedicatedStep(udp, i, Udp, net, out);
      assert udp[..i + 1] == udp[..i] + [udp[i]];
      MappingKeysAppend(udp[..i], udp[i]);
      if udp[i].dst != "" {
        udpSeen := udpSeen + {PortKey(udp[i].dst, udp[i].dstPort)};
        out := out + [MappingRoute(udp[i], Udp, net)];
      }
    }
    DedicatedNothing(Udp, net);
    assert udp[|udp|..] == [] && udp[..|udp|] == udp;
  }

  lemma MappingKeysEmpty()
    ensures MappingKeys([]) == {}
  {
  }

  lemma MappingKeysAppend(ms: seq<Mapping>, m: Mapping)
    ensures MappingKeys(ms + [m]) == MappingKeys(ms) + (if m.dst == "" then {} else {PortKey(m.dst, m.dstPort)})
  {
    hide PortKey;
  }

  lemma SharedStep(rules: seq<Rule>, i: nat, net: Net, egress: int, seen: set<string>, udpSeen: set<string>, out: seq<Route>)
    requires i < |rules|
    ensures var r := rules[i];
            out + SharedRoutes(rules[i..], net, egress, seen, udpSeen) ==
            out + SharedHere(r, net, egress, seen, udpSeen)
            + SharedRoutes(rules[i + 1..], net, egress, SeenNext(r, net, seen), UdpNext(r, net, seen, udpSeen))
  {
    hide SharedHere, SeenNext, UdpNext;
    var r := rules[i];
    assert rules[i..][0] == r && rules[i..][1..] == rules[i + 1..];
    Assoc(out, SharedHere(r, net, egress, seen, udpSeen),
          SharedRoutes(rules[i + 1..], net, egress, SeenNext(r, net, seen), UdpNext(r, net, seen, udpSeen)));
  }

  lemma SharedNothing(net: Net, egress: int, seen: set<string>, udpSeen: set<string>)
    ensures SharedRoutes([], net, egress, seen, udpSeen) == []
  {
  }

  method SharedPass(rules: seq<Rule>, net: Net, egress: int, claimed: set<string>) returns (out: seq<Route>)
    ensures out == SharedRoutes(rules, net, egress, {}, claimed)
  {
    hide SharedRoutes, Shares, SharedKey, HasQuic, EgressRoute;
    out := [];
    var seen: set<string>, udpSeen := {}, claimed;
    ghost var goal := SharedRoutes(rules, net, egress, {}, claimed);
    assert rules[0..] == rules && out + goal == goal;
    for i := 0 to |rules|
      invariant out + SharedRoutes(rules[i..], net, egress, seen, udpSeen) == goal
    {
      SharedStep(rules, i, net, egress, seen, udpSeen, out);
      out, seen, udpSeen := TakeShared(rules[i], net, egress, seen, udpSeen, out);
    }
    SharedNothing(net, egress, seen, udpSeen);
    assert rules[|rules|..] == [];
  }

  /** The loop body: skip, or one TCP route and perhaps its QUIC sibling. */
  method TakeShared(r: Rule, net: Net, egress: int, seen: set<string>, udpSeen: set<string>, out: seq<Route>)
    returns (out': seq<Route>, seen': set<string>, udpSeen': set<string>)
    ensures out' == out + SharedHere(r, net, egress, seen, udpSeen)
    ensures seen' == SeenNext(r, net, seen) && udpSeen' == UdpNext(r, net, seen, udpSeen)
  {
    SharesHasPort(r, net);
    hide Shares, SharedKey, HasQuic, EgressRoute;
    out', seen', udpSeen' := out, seen, udpSeen;
    if !Shares(r, net) {
      return;
    }
    var key := SharedKey(r);
    if key in seen {
      return;
    }
    seen' := seen + {key};
    out' := out + [EgressRoute(r, egress, Tcp)];
    if HasQuic(r) && key !in udpSeen {
      udpSeen' := udpSeen + {key};
      out' := out' + [EgressRoute(r, egress, Udp)];
    }
  }

  lemma SharesHasPort(r: Rule, net: Net)
    ensures Shares(r, net) ==> SinglePort(r).Some?
  {
  }

  // ---------------------------------------------------------------- the dedicated routes of guarded rules

  /** The route of a slot, with no cast in it. */
  function SlotRoute(fam: Family, s: Slot, envoyPort: int, net: Net): Route {
    Route(Host(s), s.port, envoyPort, fam, net.kind(Host(s)) == Ipv4)
  }

  ghost predicate AllAdmissible(rules: seq<Rule>) { forall r :: r in rules ==> Admissible(r) }

  lemma SlotInRange(fam: Family, rules: seq<Rule>, net: Net, s: Slot)
    requires AllAdmissible(rules) && s in Fanout(fam, net.kind, rules)
    ensures Host(s) != "" && 1 <= s.port <= MAX_PORT
  {
    hide Fanout, NormalizeDomain, Lower, ParsePortSpec;
    FanoutIn(fam, net.kind, rules);
    assert Admissible(s.rule);
  }

  lemma GuardedAdmissible(rules: seq<Rule>)
    requires Guarded(rules)
    ensures AllAdmissible(rules)
  {
    hide Guarded, Admissible;
    forall r | r in rules ensures Admissible(r) {
      var j :| 0 <= j < |rules| && rules[j] == r;
      ReadyAdmissible(rules, j);
    }
  }

  lemma {:induction false} NamedMappingsAll(ms: seq<Mapping>, fam: Family, net: Net)
    requires forall m :: m in ms ==> m.dst != ""
    ensures |DedicatedRoutes(ms, fam, net)| == |ms|
    ensures forall k :: 0 <= k < |ms| ==> DedicatedRoutes(ms, fam, net)[k] == MappingRoute(ms[k], fam, net)
  {
    hide MappingRoute;
    if ms != [] {
      assert ms[0] in ms && forall m :: m in ms[1..] ==> m in ms;
      NamedMappingsAll(ms[1..], fam, net);
    }
  }

  lemma DedicatedRoutesAt(slots: seq<Slot>, base: int, fam: Family, net: Net)
    requires forall s :: s in slots ==> Host(s) != "" && 1 <= s.port <= MAX_PORT
    requires slots != [] ==> 1 <= base && base + |slots| - 1 <= MAX_PORT
    ensures |DedicatedRoutes(Assign(slots, base), fam, net)| == |slots|
    ensures forall k :: 0 <= k < |slots| ==>
              DedicatedRoutes(Assign(slots, base), fam, net)[k] == SlotRoute(fam, slots[k], base + k, net)
  {
    hide Host, DedicatedRoutes;
    var ms := Assign(slots, base);
    forall m | m in ms ensures m.dst != "" {
      var k :| 0 <= k < |ms| && ms[k] == m;
      assert slots[k] in slots;
    }
    NamedMappingsAll(ms, fam, net);
    forall k | 0 <= k < |slots| ensures MappingRoute(ms[k], fam, net) == SlotRoute(fam, slots[k], base + k, net) {
      assert slots[k] in slots;
    }
  }

  lemma GuardedRoutes(fam: Family, rules: seq<Rule>, net: Net, ports: EnvoyPorts)
    requires Guarded(rules) && ValidPorts(ports)
    requires LayoutFits(|Fanout(Tcp, net.kind, rules)|, |Fanout(Udp, net.kind, rules)|, ports)
    ensures var slots, routes := Fanout(fam, net.kind, rules), DedicatedRoutes(Mappings(fam, net.kind, rules, ports), fam, net);
            && |routes| == |slots|
            && forall k :: 0 <= k < |slots| ==> routes[k] == SlotRoute(fam, slots[k], Base(fam, ports) + k, net)
  {
    hide Guarded, Fanout, DedicatedRoutes, Assign, Host, AllAdmissible;
    GuardedAdmissible(rules);
    var slots := Fanout(fam, net.kind, rules);
    forall s | s in slots ensures Host(s) != "" && 1 <= s.port <= MAX_PORT {
      SlotInRange(fam, rules, net, s);
    }
    DedicatedRoutesAt(slots, Base(fam, ports), fam, net);
  }

  // ---------------------------------------------------------------- the shared listeners

  /** The shared listeners are bound to the egress port, TCP or QUIC. */
  ghost predicate CommonBound(c: Config, ports: EnvoyPorts) {
    forall n :: n in c.listeners && Common(n) ==> n != "" && c.listeners[n].bind == ports.egress
  }

  lemma CommonBoundLayer(l: Layer, r: Rule, net: Net, ports: EnvoyPorts, ctx: Ctx, c: Config)
    requires CommonBound(c, ports) && RunLayer(l, r, net, ports, ctx, c).Some?
    ensures CommonBound(RunLayer(l, r, net, ports, ctx, c).value.1, ports)
  {
    hide NormalizeDomain, NameFor, HttpPort, HttpsPort, CryptoMatch, AppVHosts, SlotName, WithUpstream;
    if l.DedicatedListener? {
      SlotNameNotCommon(l.fam, NormalizeDomain(r.dst), l.dstPort);
    }
  }

  lemma {:induction false} CommonBoundLayers(ls: seq<Layer>, r: Rule, net: Net, ports: EnvoyPorts, ctx: Ctx, c: Config)
    requires CommonBound(c, ports) && RunLayers(ls, r, net, ports, ctx, c).Some?
    ensures CommonBound(RunLayers(ls, r, net, ports, ctx, c).value.1, ports)
    decreases |ls|
  {
    hide RunLayer, CommonBound;
    if ls != [] {
      CommonBoundLayer(ls[0], r, net, ports, ctx, c);
      var (ctx', c') := RunLayer(ls[0], r, net, ports, ctx, c).value;
      CommonBoundLayers(ls[1..], r, net, ports, ctx', c');
    }
  }

  lemma CommonBoundPerm(p: Perm, net: Net, ports: EnvoyPorts, c: Config)
    requires CommonBound(c, ports) && RunPerm(p, net, ports, c).Some?
    ensures CommonBound(RunPerm(p, net, ports, c).value, ports)
  {
    hide RunLayers, AddClusters, AddToChains, Common;
    CommonBoundLayers(p.layers, p.rule, net, ports, NEW_CTX, c);
    var (ctx, c') := RunLayers(p.layers, p.rule, net, ports, NEW_CTX, c).value;
    AddClustersKeeps(c', ctx.clusters);
  }

  lemma {:induction false} CommonBoundPerms(ps: seq<Perm>, net: Net, ports: EnvoyPorts, c: Config, seen: set<string>)
    requires CommonBound(c, ports) && RunPerms(ps, net, ports, c, seen).Some?
    ensures CommonBound(RunPerms(ps, net, ports, c, seen).value, ports)
    decreases |ps|
  {
    hide RunPerm, CommonBound;
    if ps != [] {
      if ps[0].key in seen {
        CommonBoundPerms(ps[1..], net, ports, c, seen);
      } else {
        CommonBoundPerm(ps[0], net, ports, c);
        CommonBoundPerms(ps[1..], net, ports, RunPerm(ps[0], net, ports, c).value, seen + {ps[0].key});
      }
    }
  }

  // ---------------------------------------------------------------- lockstep

  function RouteListener(rt: Route): string { SlotName(rt.l4, rt.domain, rt.dstPort) }

  /** A dedicated route and its listener: same port, and the terminal pins that very host
      and port, or refuses it when the rule denies. */
  ghost predicate Matched(rt: Route, deny: bool, cfg: Config, net: Net) {
    var name := RouteListener(rt);
    && name in cfg.listeners && !Common(name)
    && cfg.listeners[name] == SlotListener(rt.l4, deny, rt.envoyPort, name)
    && SlotTarget(name, deny) in cfg.clusters
    && cfg.clusters[SlotTarget(name, deny)] == SlotCluster(rt.domain, rt.dstPort, deny, net)
  }

  function DedicatedOf(rules: seq<Rule>, net: Net, ports: EnvoyPorts): seq<Route> {
    DedicatedRoutes(Mappings(Tcp, net.kind, rules, ports), Tcp, net) + DedicatedRoutes(Mappings(Udp, net.kind, rules, ports), Udp, net)
  }

  function AllSlots(rules: seq<Rule>, net: Net): seq<Slot> {
    Fanout(Tcp, net.kind, rules) + Fanout(Udp, net.kind, rules)
  }

  lemma RouteAt(rules: seq<Rule>, net: Net, ports: EnvoyPorts, i: nat)
    requires Ready(rules) && ValidPorts(ports) && Generate(rules, net, ports).Some?
    requires LayoutFits(|Fanout(Tcp, net.kind, rules)|, |Fanout(Udp, net.kind, rules)|, ports)
    requires i < |AllSlots(rules, net)|
    ensures |DedicatedOf(rules, net, ports)| == |AllSlots(rules, net)|
    ensures var rt, s := DedicatedOf(rules, net, ports)[i], AllSlots(rules, net)[i];
            && Matched(rt, IsDeny(s.rule), Generate(rules, net, ports).value, net)
            && rt.domain == Host(s) && rt.dstPort == s.port && rt.l4 == (if i < |Fanout(Tcp, net.kind, rules)| then Tcp else Udp)
  {
    hide Ready, Guarded, Generate, Fanout, DedicatedRoutes, Mappings, ValidPorts, LayoutFits, SlotName, SlotListener, SlotTarget, SlotCluster, IsDeny, Host, Common;
    assert Guarded(rules) by { ReadyGuarded(rules); }
    DedicatedLockstep(rules, net, ports);
    GuardedRoutes(Tcp, rules, net, ports);
    GuardedRoutes(Udp, rules, net, ports);
    var tcp := Fanout(Tcp, net.kind, rules);
    var fam, k := if i < |tcp| then Tcp else Udp, if i < |tcp| then i else i - |tcp|;
    var s := Fanout(fam, net.kind, rules)[k];
    assert Listens(Generate(rules, net, ports).value, fam, s, Base(fam, ports) + k, net);
    SlotNameNotCommon(fam, Host(s), s.port);
  }

  lemma ReadyGuarded(rules: seq<Rule>)
    requires Ready(rules)
    ensures Guarded(rules)
  {
    hide Guarded;
  }

  /** The dedicated routes and the dedicated listeners are in bijection. */
  lemma LockstepBijection(rules: seq<Rule>, net: Net, ports: EnvoyPorts)
    requires Ready(rules) && ValidPorts(ports) && Generate(rules, net, ports).Some?
    requires LayoutFits(|Fanout(Tcp, net.kind, rules)|, |Fanout(Udp, net.kind, rules)|, ports)
    ensures var cfg, routes, slots := Generate(rules, net, ports).value, DedicatedOf(rules, net, ports), AllSlots(rules, net);
            && |routes| == |slots|
            // every route has its listener
            && (forall i :: 0 <= i < |routes| ==> Matched(routes[i], IsDeny(slots[i].rule), cfg, net))
            // every listener that is not shared has its route
            && (forall n :: n in cfg.listeners && !Common(n) ==> exists i :: 0 <= i < |routes| && RouteListener(routes[i]) == n)
            // and no two routes share a port or a listener
            && (forall i, j :: 0 <= i < j < |routes| ==>
                  routes[i].envoyPort != routes[j].envoyPort && RouteListener(routes[i]) != RouteListener(routes[j]))
            // so a route's port is bound by exactly that one listener
            && (forall i, n :: 0 <= i < |routes| && n in cfg.listeners && cfg.listeners[n].bind == routes[i].envoyPort
                               ==> n == RouteListener(routes[i]))
  {
    hide Ready, Generate, Fanout, DedicatedOf, Matched, ValidPorts, LayoutFits, RouteListener, IsDeny, Common;
    var cfg, routes, slots := Generate(rules, net, ports).value, DedicatedOf(rules, net, ports), AllSlots(rules, net);
    RouteCount(rules, net, ports);
    forall i | 0 <= i < |routes| ensures Matched(routes[i], IsDeny(slots[i].rule), cfg, net) {
      RouteAt(rules, net, ports, i);
    }
    forall n | n in cfg.listeners && !Common(n) ensures exists i :: 0 <= i < |routes| && RouteListener(routes[i]) == n {
      ListenerHasRoute(rules, net, ports, n);
    }
    forall i, j | 0 <= i < j < |routes|
      ensures routes[i].envoyPort != routes[j].envoyPort && RouteListener(routes[i]) != RouteListener(routes[j])
    {
      RoutesApart(rules, net, ports, i, j);
    }
    forall i, n | 0 <= i < |routes| && n in cfg.listeners && cfg.listeners[n].bind == routes[i].envoyPort
      ensures n == RouteListener(routes[i])
    {
      BoundOnce(rules, net, ports, i, n);
    }
  }

  lemma RouteCount(rules: seq<Rule>, net: Net, ports: EnvoyPorts)
    requires Ready(rules) && ValidPorts(ports)
    requires LayoutFits(|Fanout(Tcp, net.kind, rules)|, |Fanout(Udp, net.kind, rules)|, ports)
    ensures |DedicatedOf(rules, net, ports)| == |AllSlots(rules, net)|
  {
    hide Guarded, Fanout, DedicatedRoutes, Mappings, ValidPorts, LayoutFits;
    ReadyGuarded(rules);
    GuardedRoutes(Tcp, rules, net, ports);
    GuardedRoutes(Udp, rules, net, ports);
  }

  lemma ListenerHasRoute(rules: seq<Rule>, net: Net, ports: EnvoyPorts, n: string)
    requires Ready(rules) && ValidPorts(ports) && Generate(rules, net, ports).Some?
    requires LayoutFits(|Fanout(Tcp, net.kind, rules)|, |Fanout(Udp, net.kind, rules)|, ports)
    requires n in Generate(rules, net, ports).value.listeners && !Common(n)
    ensures exists i :: 0 <= i < |DedicatedOf(rules, net, ports)| && RouteListener(DedicatedOf(rules, net, ports)[i]) == n
  {
    hide Ready, Generate, Fanout, DedicatedOf, ValidPorts, LayoutFits, SlotName, IsDeny, Common, Host, Matched;
    DedicatedLockstep(rules, net, ports);
    RouteCount(rules, net, ports);
    var tcp, udp := Fanout(Tcp, net.kind, rules), Fanout(Udp, net.kind, rules);
    if SlotNamed(Tcp, tcp, n) {
      var k :| 0 <= k < |tcp| && n == SlotName(Tcp, Host(tcp[k]), tcp[k].port);
      RouteAt(rules, net, ports, k);
      assert RouteListener(DedicatedOf(rules, net, ports)[k]) == n;
    } else {
      var k :| 0 <= k < |udp| && n == SlotName(Udp, Host(udp[k]), udp[k].port);
      RouteAt(rules, net, ports, |tcp| + k);
      assert RouteListener(DedicatedOf(rules, net, ports)[|tcp| + k]) == n;
    }
  }

  /** The dedicated routes carry the assigned ports, uncast. */
  lemma RoutePort(rules: seq<Rule>, net: Net, ports: EnvoyPorts, i: nat)
    requires Ready(rules) && ValidPorts(ports)
    requires LayoutFits(|Fanout(Tcp, net.kind, rules)|, |Fanout(Udp, net.kind, rules)|, ports)
    requires i < |AllSlots(rules, net)| && |DedicatedOf(rules, net, ports)| == |AllSlots(rules, net)|
    ensures DedicatedOf(rules, net, ports)[i].envoyPort ==
            (Mappings(Tcp, net.kind, rules, ports) + Mappings(Udp, net.kind, rules, ports))[i].envoyPort
  {
    hide Guarded, Fanout, DedicatedRoutes, ValidPorts, LayoutFits, Host;
    ReadyGuarded(rules);
    GuardedRoutes(Tcp, rules, net, ports);
    GuardedRoutes(Udp, rules, net, ports);
  }

  lemma RoutesApart(rules: seq<Rule>, net: Net, ports: EnvoyPorts, i: nat, j: nat)
    requires Ready(rules) && ValidPorts(ports) && Generate(rules, net, ports).Some?
    requires LayoutFits(|Fanout(Tcp, net.kind, rules)|, |Fanout(Udp, net.kind, rules)|, ports)
    requires i < j < |AllSlots(rules, net)| && |DedicatedOf(rules, net, ports)| == |AllSlots(rules, net)|
    ensures DedicatedOf(rules, net, ports)[i].envoyPort != DedicatedOf(rules, net, ports)[j].envoyPort
    ensures RouteListener(DedicatedOf(rules, net, ports)[i]) != RouteListener(DedicatedOf(rules, net, ports)[j])
  {
    hide Ready, Generate, Fanout, DedicatedOf, ValidPorts, LayoutFits, RouteListener, IsDeny, Common, Host, Assign;
    RouteAt(rules, net, ports, i);
    RouteAt(rules, net, ports, j);
    RoutePort(rules, net, ports, i);
    RoutePort(rules, net, ports, j);
    PortArithmetic(net.kind, rules, ports);
    // one listener has one bind port
    SlotListenerBinds();
  }

  lemma SlotListenerBinds()
    ensures forall fam, deny, bind, name :: SlotListener(fam, deny, bind, name).bind == bind
  {
  }

  lemma BoundOnce(rules: seq<Rule>, net: Net, ports: EnvoyPorts, i: nat, n: string)
    requires Ready(rules) && ValidPorts(ports) && Generate(rules, net, ports).Some?
    requires LayoutFits(|Fanout(Tcp, net.kind, rules)|, |Fanout(Udp, net.kind, rules)|, ports)
    requires i < |AllSlots(rules, net)| && |DedicatedOf(rules, net, ports)| == |AllSlots(rules, net)|
    requires n in Generate(rules, net, ports).value.listeners
    requires Generate(rules, net, ports).value.listeners[n].bind == DedicatedOf(rules, net, ports)[i].envoyPort
    ensures n == RouteListener(DedicatedOf(rules, net, ports)[i])
  {
    hide Ready, GenFacts, Derive, RunPerms, Fanout, DedicatedOf, ValidPorts, LayoutFits, RouteListener, IsDeny, Common, Host, Assign;
    CommonBoundPerms(Derive(rules, net, GenFacts(rules, net, ports), {}), net, ports, Config(map[], map[]), {});
    RoutePort(rules, net, ports, i);
    PortArithmetic(net.kind, rules, ports);
    var all := Mappings(Tcp, net.kind, rules, ports) + Mappings(Udp, net.kind, rules, ports);
    assert all[i] in all;
    ListenerHasRoute(rules, net, ports, n);
    var k :| 0 <= k < |AllSlots(rules, net)| && RouteListener(DedicatedOf(rules, net, ports)[k]) == n;
    RouteAt(rules, net, ports, k);
    SlotListenerBinds();
    if k != i {
      RoutesApart(rules, net, ports, if k < i then k else i, if k < i then i else k);
    }
  }
}

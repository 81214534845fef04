/** The route table as the kernel sees it: one entry per key, shared entries on the egress
    port, and the seeded addresses. */
module RouteTable {
  import opened Text
  import opened Rules
  import opened Canonical
  import opened Dedicated
  import opened Generator
  import opened Routes
  import Lockstep

  /** Two routes that would write the same route_map entry. */
  predicate SameEntry(a: Route, b: Route) {
    a.domain == b.domain && a.dstPort == b.dstPort && a.l4 == b.l4
  }

  ghost predicate OnePerEntry(routes: seq<Route>) {
    forall i, j :: 0 <= i < j < |routes| ==> !SameEntry(routes[i], routes[j])
  }

  // ---------------------------------------------------------------- the shared pass

  ghost predicate SharedFrom(rt: Route, rules: seq<Rule>, net: Net, egress: int, seen: set<string>, udpSeen: set<string>) {
    exists r :: r in rules && Shares(r, net) && rt == EgressRoute(r, egress, rt.l4)
                && SharedKey(r) !in (if rt.l4 == Tcp then seen else udpSeen)
                && (rt.l4 == Udp ==> HasQuic(r))
  }

  lemma SharedFromTail(rules: seq<Rule>, net: Net, egress: int, seen: set<string>, udpSeen: set<string>, seen': set<string>, udpSeen': set<string>, rt: Route)
    requires rules != [] && seen <= seen' && udpSeen <= udpSeen' && SharedFrom(rt, rules[1..], net, egress, seen', udpSeen')
    ensures SharedFrom(rt, rules, net, egress, seen, udpSeen)
  {
    hide Shares, SharedKey, EgressRoute;
    SharesAllHavePort(net);
    assert forall r :: r in rules[1..] ==> r in rules;
  }

  lemma SharesAllHavePort(net: Net)
    ensures forall r :: Shares(r, net) ==> SinglePort(r).Some?
  {
  }

  lemma {:induction false} SharedShape(rules: seq<Rule>, net: Net, egress: int, seen: set<string>, udpSeen: set<string>)
    ensures forall rt :: rt in SharedRoutes(rules, net, egress, seen, udpSeen) ==> SharedFrom(rt, rules, net, egress, seen, udpSeen)
    decreases |rules|
  {
    hide SharedFrom, SharedHere, SeenNext, UdpNext;
    if rules != [] {
      var r := rules[0];
      var seen', udpSeen' := SeenNext(r, net, seen), UdpNext(r, net, seen, udpSeen);
      NextGrows(r, net, seen, udpSeen);
      SharedShape(rules[1..], net, egress, seen', udpSeen');
      forall rt | rt in SharedRoutes(rules, net, egress, seen, udpSeen) ensures SharedFrom(rt, rules, net, egress, seen, udpSeen) {
        if rt in SharedHere(r, net, egress, seen, udpSeen) {
          HeadShared(rules, net, egress, seen, udpSeen, rt);
        } else {
          SharedFromTail(rules, net, egress, seen, udpSeen, seen', udpSeen', rt);
        }
      }
    }
  }

  lemma NextGrows(r: Rule, net: Net, seen: set<string>, udpSeen: set<string>)
    ensures seen <= SeenNext(r, net, seen) && udpSeen <= UdpNext(r, net, seen, udpSeen)
  {
    hide Taken, TakenUdp, SharedKey;
    SharesAllHavePort(net);
  }

  lemma HeadShared(rules: seq<Rule>, net: Net, egress: int, seen: set<string>, udpSeen: set<string>, rt: Route)
    requires rules != [] && rt in SharedHere(rules[0], net, egress, seen, udpSeen)
    ensures SharedFrom(rt, rules, net, egress, seen, udpSeen)
  {
    hide Shares, SharedKey, HasQuic;
    SharesAllHavePort(net);
    assert rules[0] in rules;
    if Shares(rules[0], net) {
      EgressRouteL4(rules[0], egress, net);
    }
    hide EgressRoute;
  }

  lemma EgressRouteL4(r: Rule, egress: int, net: Net)
    requires Shares(r, net)
    ensures EgressRoute(r, egress, Tcp).l4 == Tcp && EgressRoute(r, egress, Udp).l4 == Udp
  {
  }

  lemma SharedPort(r: Rule, net: Net, egress: int, l4: Family)
    requires Shares(r, net)
    ensures var rt := EgressRoute(r, egress, l4);
            && rt.domain == NormalizeDomain(r.dst) && rt.dstPort == SinglePort(r).value && rt.l4 == l4
            && SharedKey(r) == PortKey(rt.domain, rt.dstPort)
            && SpanOf(r) == Span(rt.dstPort, rt.dstPort) && ParsePortSpec(r.port).Ports?
  {
    hide PortKey, ParsePortSpec, NormalizeDomain, Lower;
  }

  lemma NotInRest(r: Rule, rules: seq<Rule>, net: Net, egress: int, l4: Family, seen: set<string>, udpSeen: set<string>, rt: Route)
    requires Shares(r, net) && SharedKey(r) in (if l4 == Tcp then seen else udpSeen)
    requires SharedFrom(rt, rules, net, egress, seen, udpSeen)
    ensures !SameEntry(EgressRoute(r, egress, l4), rt)
  {
    hide Shares, SharedKey, EgressRoute;
    SharesAllHavePort(net);
    var q :| q in rules && Shares(q, net) && rt == EgressRoute(q, egress, rt.l4)
             && SharedKey(q) !in (if rt.l4 == Tcp then seen else udpSeen);
    SharedPort(r, net, egress, l4);
    SharedPort(q, net, egress, rt.l4);
  }

  lemma {:induction false} SharedOnePerEntry(rules: seq<Rule>, net: Net, egress: int, seen: set<string>, udpSeen: set<string>)
    ensures OnePerEntry(SharedRoutes(rules, net, egress, seen, udpSeen))
    decreases |rules|
  {
    hide SharedHere, SeenNext, UdpNext, SameEntry, SharedFrom, OnePerEntry;
    if rules == [] {
      NothingTwice();
    } else {
      var r := rules[0];
      var seen', udpSeen' := SeenNext(r, net, seen), UdpNext(r, net, seen, udpSeen);
      var here, rest := SharedHere(r, net, egress, seen, udpSeen), SharedRoutes(rules[1..], net, egress, seen', udpSeen');
      SharedOnePerEntry(rules[1..], net, egress, seen', udpSeen');
      SharedShape(rules[1..], net, egress, seen', udpSeen');
      forall x, y | x in here && y in rest ensures !SameEntry(x, y) {
        HereNotInRest(r, rules[1..], net, egress, seen, udpSeen, x, y);
      }
      HereOnePerEntry(r, net, egress, seen, udpSeen);
      AppendOnePerEntry(here, rest);
    }
  }

  lemma NothingTwice()
    ensures OnePerEntry([])
  {
  }

  lemma HereNotInRest(r: Rule, rules: seq<Rule>, net: Net, egress: int, seen: set<string>, udpSeen: set<string>, x: Route, y: Route)
    requires x in SharedHere(r, net, egress, seen, udpSeen)
    requires SharedFrom(y, rules, net, egress, SeenNext(r, net, seen), UdpNext(r, net, seen, udpSeen))
    ensures !SameEntry(x, y)
  {
    hide Shares, SharedKey, HasQuic, SharedFrom, SameEntry, EgressRoute;
    SharesAllHavePort(net);
    var l4 := if x == EgressRoute(r, egress, Tcp) then Tcp else Udp;
    NotInRest(r, rules, net, egress, l4, SeenNext(r, net, seen), UdpNext(r, net, seen, udpSeen), y);
  }

  lemma HereOnePerEntry(r: Rule, net: Net, egress: int, seen: set<string>, udpSeen: set<string>)
    ensures OnePerEntry(SharedHere(r, net, egress, seen, udpSeen))
  {
    hide Shares, SharedKey, HasQuic;
    SharesAllHavePort(net);
  }

  // ---------------------------------------------------------------- the whole table

  /** A dedicated slot and a shared route on one host and port would be a stack collision. */
  lemma DedicatedNotShared(fam: Family, rules: seq<Rule>, net: Net, s: Slot, r: Rule, egress: int)
    requires Guarded(rules) && s in Fanout(fam, net.kind, rules) && r in rules && Shares(r, net)
    ensures !(Host(s) == NormalizeDomain(r.dst) && s.port == SinglePort(r).value)
  {
    hide IsCanonical, ActionConflict, Fanout, NormalizeDomain, ParsePortSpec, Lower;
    FanoutIn(fam, net.kind, rules);
    SharedPort(r, net, egress, fam);
    OpaqueFamily(fam, s.rule);
    assert ExplicitPort(s.rule);
    assert CanonicalProto(r.proto) != CanonicalProto(s.rule.proto);
    assert BuildsStack(r) by { AllowBuilds(r); }
    assert !Collide(r, s.rule, s.port);
  }

  lemma AllowBuilds(r: Rule)
    requires Allows(r)
    ensures BuildsStack(r)
  {
  }

  /** No two routes of a guarded rule list write the same entry. */
  lemma RoutesOnePerEntry(rules: seq<Rule>, net: Net, ports: EnvoyPorts)
    requires Guarded(rules) && ValidPorts(ports)
    requires LayoutFits(|Fanout(Tcp, net.kind, rules)|, |Fanout(Udp, net.kind, rules)|, ports)
    ensures OnePerEntry(RoutesOf(rules, net, ports))
  {
    hide Guarded, ValidPorts, LayoutFits, Fanout, DedicatedRoutes, SharedRoutes, Mappings, MappingKeys, SameEntry;
    var tcp, udp := Mappings(Tcp, net.kind, rules, ports), Mappings(Udp, net.kind, rules, ports);
    var a, b := DedicatedRoutes(tcp, Tcp, net), DedicatedRoutes(udp, Udp, net);
    var c := SharedRoutes(rules, net, ports.egress, {}, MappingKeys(udp));
    DedicatedOnePerEntry(Tcp, rules, net, ports);
    DedicatedOnePerEntry(Udp, rules, net, ports);
    SharedOnePerEntry(rules, net, ports.egress, {}, MappingKeys(udp));
    forall x, y | x in a && y in b ensures !SameEntry(x, y) {
      DedicatedEntry(Tcp, rules, net, ports, x);
      DedicatedEntry(Udp, rules, net, ports, y);
      DifferentL4(x, y);
    }
    forall x, y | x in a + b && y in c ensures !SameEntry(x, y) {
      if x in a {
        EntriesApart(Tcp, rules, net, ports, x, y);
      } else {
        EntriesApart(Udp, rules, net, ports, x, y);
      }
    }
    AppendOnePerEntry(a, b);
    AppendOnePerEntry(a + b, c);
  }

  lemma DifferentL4(x: Route, y: Route)
    requires x.l4 != y.l4
    ensures !SameEntry(x, y)
  {
  }

  lemma AppendOnePerEntry(a: seq<Route>, b: seq<Route>)
    requires OnePerEntry(a) && OnePerEntry(b)
    requires forall x, y :: x in a && y in b ==> !SameEntry(x, y)
    ensures OnePerEntry(a + b)
  {
    hide SameEntry;
    forall i, j | 0 <= i < j < |a + b| ensures !SameEntry((a + b)[i], (a + b)[j]) {
      assert i < |a| ==> (a + b)[i] in a;
      assert j >= |a| ==> (a + b)[j] in b;
    }
  }

  lemma DedicatedOnePerEntry(fam: Family, rules: seq<Rule>, net: Net, ports: EnvoyPorts)
    requires Guarded(rules) && ValidPorts(ports)
    requires LayoutFits(|Fanout(Tcp, net.kind, rules)|, |Fanout(Udp, net.kind, rules)|, ports)
    ensures OnePerEntry(DedicatedRoutes(Mappings(fam, net.kind, rules, ports), fam, net))
  {
    hide Guarded, ValidPorts, LayoutFits, Fanout, DedicatedRoutes, Mappings, Host;
    GuardedRoutes(fam, rules, net, ports);
    assert rules[0..] == rules;
    FanoutDistinct(fam, net.kind, rules, 0);
  }

  lemma DedicatedEntry(fam: Family, rules: seq<Rule>, net: Net, ports: EnvoyPorts, x: Route)
    requires Guarded(rules) && ValidPorts(ports)
    requires LayoutFits(|Fanout(Tcp, net.kind, rules)|, |Fanout(Udp, net.kind, rules)|, ports)
    requires x in DedicatedRoutes(Mappings(fam, net.kind, rules, ports), fam, net)
    ensures x.l4 == fam
    ensures exists s :: s in Fanout(fam, net.kind, rules) && x.domain == Host(s) && x.dstPort == s.port
  {
    hide Guarded, ValidPorts, LayoutFits, Fanout, DedicatedRoutes, Mappings, Host;
    GuardedRoutes(fam, rules, net, ports);
    var k :| 0 <= k < |DedicatedRoutes(Mappings(fam, net.kind, rules, ports), fam, net)|
             && DedicatedRoutes(Mappings(fam, net.kind, rules, ports), fam, net)[k] == x;
    assert Fanout(fam, net.kind, rules)[k] in Fanout(fam, net.kind, rules);
  }

  lemma EntriesApart(fam: Family, rules: seq<Rule>, net: Net, ports: EnvoyPorts, x: Route, y: Route)
    requires Guarded(rules) && ValidPorts(ports)
    requires LayoutFits(|Fanout(Tcp, net.kind, rules)|, |Fanout(Udp, net.kind, rules)|, ports)
    requires x in DedicatedRoutes(Mappings(fam, net.kind, rules, ports), fam, net)
    requires y in SharedRoutes(rules, net, ports.egress, {}, MappingKeys(Mappings(Udp, net.kind, rules, ports)))
    ensures !SameEntry(x, y)
  {
    hide Guarded, ValidPorts, LayoutFits, Fanout, DedicatedRoutes, SharedRoutes, Mappings, MappingKeys, Host, Shares, SharedKey, EgressRoute, NormalizeDomain;
    DedicatedEntry(fam, rules, net, ports, x);
    SharedShape(rules, net, ports.egress, {}, MappingKeys(Mappings(Udp, net.kind, rules, ports)));
    SharesAllHavePort(net);
    var r :| r in rules && Shares(r, net) && y == EgressRoute(r, ports.egress, y.l4);
    var s :| s in Fanout(fam, net.kind, rules) && x.domain == Host(s) && x.dstPort == s.port;
    SharedPort(r, net, ports.egress, y.l4);
    DedicatedNotShared(fam, rules, net, s, r, ports.egress);
  }

  // ---------------------------------------------------------------- seeded addresses

  /** SeedDomainsFromRules: each literal IPv4 destination of a dedicated mapping once. */
  function Seeds(ms: seq<Mapping>, net: Net, seen: set<string>): seq<string> {
    if ms == [] then []
    else if net.kind(ms[0].dst) != Ipv4 || ms[0].dst in seen then Seeds(ms[1..], net, seen)
    else [ms[0].dst] + Seeds(ms[1..], net, seen + {ms[0].dst})
  }

  lemma SeedsStep(ms: seq<Mapping>, i: nat, net: Net, seen: set<string>, out: seq<string>)
    requires i < |ms|
    ensures out + Seeds(ms[i..], net, seen) ==
            if net.kind(ms[i].dst) != Ipv4 || ms[i].dst in seen then out + Seeds(ms[i + 1..], net, seen)
            else out + [ms[i].dst] + Seeds(ms[i + 1..], net, seen + {ms[i].dst})
  {
    assert ms[i..][0] == ms[i] && ms[i..][1..] == ms[i + 1..];
    Assoc(out, [ms[i].dst], Seeds(ms[i + 1..], net, seen + {ms[i].dst}));
  }

  lemma SeedsNothing(net: Net, seen: set<string>)
    ensures Seeds([], net, seen) == []
  {
  }

  method SeedDomainsFromRules(rules: seq<Rule>, net: Net, ports: EnvoyPorts) returns (out: seq<string>)
    ensures out == Seeds(Mappings(Tcp, net.kind, rules, ports) + Mappings(Udp, net.kind, rules, ports), net, {})
  {
    hide Fanout, Assign, Seeds;
    var tcp := DedicatedMappings(Tcp, net.kind, rules, ports.tcpBase);
    var udp := DedicatedMappings(Udp, net.kind, rules, ports.udpBase);
    var ms := tcp + udp;
    var seen: set<string> := {};
    out := [];
    assert ms[0..] == ms && out + Seeds(ms, net, {}) == Seeds(ms, net, {});
    for i := 0 to |ms|
      invariant out + Seeds(ms[i..], net, seen) == Seeds(ms, net, {})
    {
      SeedsStep(ms, i, net, seen, out);
      if net.kind(ms[i].dst) == Ipv4 && ms[i].dst !in seen {
        seen := seen + {ms[i].dst};
        out := out + [ms[i].dst];
      }
    }
    SeedsNothing(net, seen);
    assert ms[|ms|..] == [];
  }

  lemma {:induction false} SeedsIn(ms: seq<Mapping>, net: Net, seen: set<string>)
    ensures forall d :: d in Seeds(ms, net, seen) <==> d !in seen && net.kind(d) == Ipv4 && exists m :: m in ms && m.dst == d
    ensures forall i, j :: 0 <= i < j < |Seeds(ms, net, seen)| ==> Seeds(ms, net, seen)[i] != Seeds(ms, net, seen)[j]
  {
    if ms != [] {
      assert ms == [ms[0]] + ms[1..];
      var skip := net.kind(ms[0].dst) != Ipv4 || ms[0].dst in seen;
      SeedsIn(ms[1..], net, if skip then seen else seen + {ms[0].dst});
      assert ms[0] in ms && forall m :: m in ms[1..] ==> m in ms;
    }
  }

  lemma {:induction false} SeededRoutes(ms: seq<Mapping>, fam: Family, net: Net, d: string)
    requires net.kind("") != Ipv4
    ensures (exists rt :: rt in DedicatedRoutes(ms, fam, net) && rt.seeded && rt.domain == d)
            <==> net.kind(d) == Ipv4 && exists m :: m in ms && m.dst == d
  {
    if ms != [] {
      SeededRoutes(ms[1..], fam, net, d);
      assert ms == [ms[0]] + ms[1..];
      if ms[0].dst == d && d != "" {
        assert MappingRoute(ms[0], fam, net) in DedicatedRoutes(ms, fam, net);
      }
    }
  }

  /** The addresses reported for attribution are exactly those the route table seeds. */
  lemma SeedsMatchRoutes(rules: seq<Rule>, net: Net, ports: EnvoyPorts, d: string)
    requires net.kind("") != Ipv4
    ensures var ms := Mappings(Tcp, net.kind, rules, ports) + Mappings(Udp, net.kind, rules, ports);
            d in Seeds(ms, net, {}) <==> exists rt :: rt in RoutesOf(rules, net, ports) && rt.seeded && rt.domain == d
  {
    hide Fanout, Assign, DedicatedRoutes, SharedRoutes, MappingKeys, Seeds, Mappings, Shares, EgressRoute, SharedKey;
    var tcp, udp := Mappings(Tcp, net.kind, rules, ports), Mappings(Udp, net.kind, rules, ports);
    SeedsIn(tcp + udp, net, {});
    SeededRoutes(tcp, Tcp, net, d);
    SeededRoutes(udp, Udp, net, d);
    SharedNeverSeeded(rules, net, ports.egress, {}, MappingKeys(udp));
  }

  lemma SharedNeverSeeded(rules: seq<Rule>, net: Net, egress: int, seen: set<string>, udpSeen: set<string>)
    ensures forall rt :: rt in SharedRoutes(rules, net, egress, seen, udpSeen) ==> !rt.seeded && rt.envoyPort == Uint16(egress)
  {
    hide SharedRoutes, Shares, SharedKey;
    SharesAllHavePort(net);
    SharedShape(rules, net, egress, seen, udpSeen);
  }

  // ---------------------------------------------------------------- the shared routes, exactly

  /** The rule rides the shared listener on this port: allowed, not opaque, a domain, one port. */
  predicate RidesOn(r: Rule, net: Net, host: string, p: int) {
    && (r.action == "" || Lower(r.action) == "allow") && Lower(r.proto) !in {"tcp", "ssh", "udp"}
    && net.kind(r.dst) == Fqdn && host != "" && NormalizeDomain(r.dst) == host && ParsePortSpec(r.port) == Ports(Span(p, p))
  }

  lemma RidesShares(r: Rule, net: Net)
    ensures Shares(r, net) <==> SinglePort(r).Some? && RidesOn(r, net, NormalizeDomain(r.dst), SinglePort(r).value)
    ensures forall host, p :: RidesOn(r, net, host, p) ==> Shares(r, net) && SinglePort(r) == Some(p) && SharedKey(r) == PortKey(host, p)
  {
    hide ParsePortSpec, Lower, NormalizeDomain;
  }

  lemma {:induction false} SharedComplete(rules: seq<Rule>, net: Net, egress: int, seen: set<string>, udpSeen: set<string>, r: Rule) returns (s: Rule)
    requires r in rules && Shares(r, net) && SharedKey(r) !in seen
    ensures s in rules && Shares(s, net) && SharedKey(s) == SharedKey(r)
    ensures EgressRoute(s, egress, Tcp) in SharedRoutes(rules, net, egress, seen, udpSeen)
    ensures HasQuic(s) && SharedKey(r) !in udpSeen ==> EgressRoute(s, egress, Udp) in SharedRoutes(rules, net, egress, seen, udpSeen)
    decreases |rules|
  {
    hide Shares, SharedKey, HasQuic, EgressRoute;
    SharesAllHavePort(net);
    var first := rules[0];
    if Shares(first, net) && SharedKey(first) == SharedKey(r) {
      s := first;
    } else {
      var seen', udpSeen' := SeenNext(first, net, seen), UdpNext(first, net, seen, udpSeen);
      assert r in rules[1..] && SharedKey(r) !in seen' && (SharedKey(r) !in udpSeen ==> SharedKey(r) !in udpSeen');
      s := SharedComplete(rules[1..], net, egress, seen', udpSeen', r);
    }
  }

  /** A TCP route to the egress listener exists for a host and port exactly when some rule rides
      there; and a QUIC route only for https and wss, and surely where every rule that rides there
      is one of them and no raw udp rule has the port. */
  lemma SharedRoutesExactly(rules: seq<Rule>, net: Net, ports: EnvoyPorts, udpSeen: set<string>, host: string, p: int)
    requires ValidPorts(ports)
    ensures var routes := SharedRoutes(rules, net, ports.egress, {}, udpSeen);
            && (Route(host, p, ports.egress, Tcp, false) in routes <==> exists r :: r in rules && RidesOn(r, net, host, p))
            && (Route(host, p, ports.egress, Udp, false) in routes ==>
                  PortKey(host, p) !in udpSeen && exists r :: r in rules && RidesOn(r, net, host, p) && Lower(r.proto) in {"https", "wss"})
            && ((exists r :: r in rules && RidesOn(r, net, host, p))
                && (forall r :: r in rules && RidesOn(r, net, host, p) ==> Lower(r.proto) in {"https", "wss"}) && PortKey(host, p) !in udpSeen
                ==> Route(host, p, ports.egress, Udp, false) in routes)
  {
    hide SharedRoutes, ValidPorts, PortKey, Lower, ParsePortSpec, NormalizeDomain, RidesOn;
    var routes := SharedRoutes(rules, net, ports.egress, {}, udpSeen);
    SharedShape(rules, net, ports.egress, {}, udpSeen);
    forall l4 | Route(host, p, ports.egress, l4, false) in routes
      ensures exists r :: r in rules && RidesOn(r, net, host, p) && (l4 == Udp ==> HasQuic(r) && PortKey(host, p) !in udpSeen)
    {
      RouteRides(rules, net, ports, udpSeen, Route(host, p, ports.egress, l4, false));
    }
    forall r | r in rules && RidesOn(r, net, host, p)
      ensures exists s :: s in rules && RidesOn(s, net, host, p) && Route(host, p, ports.egress, Tcp, false) in routes
                          && (HasQuic(s) && PortKey(host, p) !in udpSeen ==> Route(host, p, ports.egress, Udp, false) in routes)
    {
      RidesRouted(rules, net, ports, udpSeen, r, host, p);
    }
  }

  lemma EgressFits(ports: EnvoyPorts)
    requires ValidPorts(ports)
    ensures Uint16(ports.egress) == ports.egress
  {
  }

  lemma RouteRides(rules: seq<Rule>, net: Net, ports: EnvoyPorts, udpSeen: set<string>, rt: Route)
    requires ValidPorts(ports) && SharedFrom(rt, rules, net, ports.egress, {}, udpSeen)
    ensures exists r :: r in rules && RidesOn(r, net, rt.domain, rt.dstPort) && (rt.l4 == Udp ==> HasQuic(r) && PortKey(rt.domain, rt.dstPort) !in udpSeen)
  {
    hide ValidPorts, PortKey, Lower, ParsePortSpec, NormalizeDomain, RidesOn, Shares, SharedKey, HasQuic, EgressRoute;
    SharesAllHavePort(net);
    var r :| r in rules && Shares(r, net) && rt == EgressRoute(r, ports.egress, rt.l4)
             && SharedKey(r) !in (if rt.l4 == Tcp then {} else udpSeen) && (rt.l4 == Udp ==> HasQuic(r));
    SharedPort(r, net, ports.egress, rt.l4);
    RidesShares(r, net);
    SharedPortIs(r, net, ports.egress, rt.l4);
  }

  lemma SharedPortIs(r: Rule, net: Net, egress: int, l4: Family)
    requires Shares(r, net)
    ensures SinglePort(r) == Some(EgressRoute(r, egress, l4).dstPort) && EgressRoute(r, egress, l4).domain == NormalizeDomain(r.dst)
  {
    SharedPort(r, net, egress, l4);
    hide ParsePortSpec, NormalizeDomain, Lower;
  }

  lemma RidesRouted(rules: seq<Rule>, net: Net, ports: EnvoyPorts, udpSeen: set<string>, r: Rule, host: string, p: int)
    requires ValidPorts(ports) && r in rules && RidesOn(r, net, host, p)
    ensures var routes := SharedRoutes(rules, net, ports.egress, {}, udpSeen);
            exists s :: s in rules && RidesOn(s, net, host, p) && Route(host, p, ports.egress, Tcp, false) in routes
                        && (HasQuic(s) && PortKey(host, p) !in udpSeen ==> Route(host, p, ports.egress, Udp, false) in routes)
  {
    hide SharedRoutes, ValidPorts, PortKey, Lower, ParsePortSpec, NormalizeDomain, RidesOn, Shares, SharedKey, HasQuic;
    RidesShares(r, net);
    SharesAllHavePort(net);
    var s := SharedComplete(rules, net, ports.egress, {}, udpSeen, r);
    RidesShares(s, net);
    SharedPort(s, net, ports.egress, Tcp);
    SharedPort(s, net, ports.egress, Udp);
    SharedPortIs(s, net, ports.egress, Tcp);
    Lockstep.PortKeyInjective(NormalizeDomain(s.dst), SinglePort(s).value, host, p);
    EgressFits(ports);
  }
}

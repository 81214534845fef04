/** Requests to an address range: the chain of a web rule to a range holds the rule's virtual host
    alone, which takes every authority and forwards to where the connection was going. */
module RangeRequests {
  import opened Text
  import opened Rules
  import opened Dedicated
  import opened EnvoyConfig
  import opened Generator
  import opened LockstepRules
  import opened Chains
  import opened Hosting
  import opened WebRules
  import opened HttpRequests
  import opened DefaultDeny
  import HttpRoutes

  /** The connections a web rule to addresses speaks of: to its range, on its port, over TLS for https. */
  function ToRange(r: Rule, net: Net): Match {
    if Lower(r.proto) == "https" then TlsRange(net.range(r.dst), WebPort(r)) else RawRange(net.range(r.dst), WebPort(r))
  }

  /** A rule for connections of that kind to the same range and port. */
  predicate Beside(s: Rule, r: Rule, net: Net) {
    && !IsDeny(s) && (WebRule(s) || IsWebsocket(s)) && net.kind(s.dst) != Fqdn
    && IsHttps(s) == IsHttps(r) && net.range(s.dst) == net.range(r.dst) && WebPort(s) == WebPort(r)
  }

  /** Every rule beside it is a range too, and asks for a virtual host of the same name. */
  predicate Undisputed(rules: seq<Rule>, r: Rule, net: Net) {
    forall s :: s in rules && Beside(s, r, net) ==>
      net.kind(s.dst) == Cidr && VirtualHostName(s.dst, WebPort(s)) == VirtualHostName(r.dst, WebPort(r))
  }

  lemma AddressedMatch(r: Rule, net: Net, exact: set<string>)
    requires WebRule(r) && (net.kind(r.dst) == Cidr || (Lower(r.proto) == "https" && net.kind(r.dst) != Fqdn))
    ensures WebMatch(r, net, exact, 0) == ToRange(r, net)
  {
    WebBaseProto(r);
    hide Lower, HttpPort, HttpsPort, ServerNames;
  }

  lemma RangeHost(r: Rule, net: Net, ws: bool)
    requires WebRule(r) && net.kind(r.dst) == Cidr
    ensures HostOf(r, net, ws).domains == ["*"] && HostOf(r, net, ws).routes == HttpRoutes.RouteList(r)
    ensures HostOf(r, net, ws).cluster == WebUpstream(r, net, ws).0 && WebUpstream(r, net, ws).1 == OriginalDst(if Lower(r.proto) == "https" then Reencrypt(r.skipTlsVerify, ws) else Plaintext)
    ensures HostOf(r, net, ws).name == VirtualHostName(r.dst, WebPort(r))
  {
    WebBaseProto(r);
    hide Lower, HttpPort, HttpsPort, NormalizeDomain, NameFor, VirtualHostName, HttpDomains;
  }

  /** A rule that runs in the chain of a range speaks of that range and port. */
  lemma AskerAddressed(e: Rule, r: Rule, net: Net, exact: set<string>)
    requires WebRule(e) && WebRule(r) && WebMatch(e, net, exact, 0) == ToRange(r, net)
    ensures net.kind(e.dst) != Fqdn && IsHttps(e) == IsHttps(r) && net.range(e.dst) == net.range(r.dst) && WebPort(e) == WebPort(r)
  {
    WebBaseProto(e);
    WebBaseProto(r);
    hide Lower, HttpPort, HttpsPort, ServerNames;
  }

  /** What a permutation brings to the chain bears the name of the range's virtual host. */
  lemma BroughtToRange(rules: seq<Rule>, p: Perm, s: Rule, r: Rule, net: Net, gen: Gen, v: VHost)
    requires From(p, s, net, gen) && v in BroughtTo(p, net, EGRESS, ToRange(r, net)) && WebRule(r) && net.kind(r.dst) == Cidr
    requires s in rules && (IsDeny(s) ==> IsOpaque(s)) && Undisputed(rules, r, net)
    ensures v.name == VirtualHostName(r.dst, WebPort(r))
  {
    hide LayersFor, PermKey, WebMatch, OriginKey, StandsFor, Lower, Web, WebUpstream, WebBase, Brought, HttpDomains, WebPort, BarePort, VirtualHostName, ToRange, WebRule, IsHttps;
    var u: nat :| Made(p, u, net, gen);
    if !WebRule(p.rule) {
      OpaqueBringsNothing(p, u, net, gen);
    } else {
      MadePlaced(p, u, net, gen);
      StackApart(p, u, 0, net, gen);
      AskerAddressed(p.rule, r, net, gen.exact);
      StandsAlike(p.rule, s, net, gen.exact, 0);
      KindAlike(p.rule, s);
      assert Beside(s, r, net);
    }
  }

  lemma RangeHostNamed(rules: seq<Rule>, r: Rule, net: Net, ports: EnvoyPorts, w: VHost)
    requires Generate(rules, net, ports).Some? && WebRule(r) && net.kind(r.dst) == Cidr
    requires Undisputed(rules, r, net)
    requires w in HostsIn(Generate(rules, net, ports).value, EGRESS, ToRange(r, net))
    ensures w.name == VirtualHostName(r.dst, WebPort(r))
  {
    hide Derive, GenFacts, RunPerms, BroughtTo, First, HostsIn, Hosts, UniqueNames, From, IsDeny, IsOpaque, ToRange, VirtualHostName, WebPort;
    var gen, ps, m := GenFacts(rules, net, ports), Perms(rules, net, ports), ToRange(r, net);
    ChainHosts(rules, net, ports, EGRESS, m);
    HostsFrom(ps, net, EGRESS, m, {}, w);
    var p :| p in ps && w in BroughtTo(p, net, EGRESS, m);
    DerivedRules(rules, net, gen, {});
    var s :| s in rules && From(p, s, net, gen) && (IsDeny(s) ==> IsOpaque(s));
    BroughtToRange(rules, p, s, r, net, gen, w);
  }

  lemma OnlyOne(hosts: seq<VHost>, v: VHost)
    requires UniqueNames(hosts) && v in hosts && forall w :: w in hosts ==> w.name == v.name
    ensures hosts == [v]
  {
    assert |hosts| > 1 ==> hosts[0].name != hosts[1].name;
  }

  /** Whatever its authority, path and method, a request to a range gets the verdict of the longest
      path rule of the first rule for that range and port, unless another destination of the list
      names the same range. */
  lemma RangeRequestDecided(rules: seq<Rule>, i: nat, net: Net, ports: EnvoyPorts, path: string, verb: string, rx: (string, string) -> bool)
    requires Generate(rules, net, ports).Some? && Sane(rules) && i < |rules|
    requires Standing(rules, i, net, GenFacts(rules, net, ports).exact) && net.kind(rules[i].dst) == Cidr
    requires Undisputed(rules, rules[i], net)
    requires HttpRoutes.SafeTokens(rules[i].pathRules)
    ensures var cfg, r := Generate(rules, net, ports).value, rules[i];
            exists v :: && HostsIn(cfg, EGRESS, ToRange(r, net)) == [v] && v.domains == ["*"] && Obeys(v.routes, r, path, verb, rx)
                        && v.cluster in cfg.clusters && cfg.clusters[v.cluster].OriginalDst?
                        && Secured(cfg.clusters[v.cluster].tls, rules, r)
  {
    hide LayersFor, GenFacts, Generate, WebMatch, WebUpstream, WebPort, VirtualHostName, OriginKey, HostsIn, UniqueNames, Rival, Asks, Hosts, First, ToRange, Upgrades, HostOf, WebRule, ParsePortSpec;
    var gen, r := GenFacts(rules, net, ports), rules[i];
    var ws := OriginKey(r) in gen.wsOrigins;
    var v, m := HostOf(r, net, ws), ToRange(r, net);
    var hosts := HostsIn(Generate(rules, net, ports).value, EGRESS, m);
    AddressedMatch(r, net, gen.exact);
    HasStack(r, net, gen);
    RuleHosted(rules, i, 0, net, ports);
    ChainHosts(rules, net, ports, EGRESS, m);
    RangeHost(r, net, ws);
    FactsExactly(rules, net, ports, r, "");
    forall w | w in hosts ensures w.name == v.name {
      RangeHostNamed(rules, r, net, ports, w);
    }
    OnlyOne(hosts, v);
    HttpRoutes.RoutesRefineLongestRule(r, path, verb, rx);
    assert Obeys(v.routes, r, path, verb, rx);
  }

  /** Two destinations with one range and port both claim every authority of one chain. */
  lemma SameRangeClash(rules: seq<Rule>, i: nat, j: nat, net: Net, ports: EnvoyPorts)
    requires Generate(rules, net, ports).Some? && Sane(rules) && i < |rules| && j < |rules|
    requires Standing(rules, i, net, GenFacts(rules, net, ports).exact) && Standing(rules, j, net, GenFacts(rules, net, ports).exact)
    requires net.kind(rules[i].dst) == Cidr && net.kind(rules[j].dst) == Cidr
    requires Beside(rules[j], rules[i], net)
    requires VirtualHostName(rules[i].dst, WebPort(rules[i])) != VirtualHostName(rules[j].dst, WebPort(rules[j]))
    ensures var hosts := HostsIn(Generate(rules, net, ports).value, EGRESS, ToRange(rules[i], net));
            exists v, w :: v in hosts && w in hosts && v != w && v.domains == ["*"] && w.domains == ["*"]
  {
    hide LayersFor, GenFacts, Generate, WebMatch, WebUpstream, VirtualHostName, OriginKey, HostsIn, Rival, HostOf, WebRule, ParsePortSpec, Lower, WebPort, Sane;
    var gen := GenFacts(rules, net, ports);
    var v, w := HostOf(rules[i], net, OriginKey(rules[i]) in gen.wsOrigins), HostOf(rules[j], net, OriginKey(rules[j]) in gen.wsOrigins);
    forall k | k == i || k == j
      ensures HostOf(rules[k], net, OriginKey(rules[k]) in gen.wsOrigins) in HostsIn(Generate(rules, net, ports).value, EGRESS, ToRange(rules[k], net))
    {
      HasStack(rules[k], net, gen);
      AddressedMatch(rules[k], net, gen.exact);
      RuleHosted(rules, k, 0, net, ports);
    }
    RangeHost(rules[i], net, OriginKey(rules[i]) in gen.wsOrigins);
    RangeHost(rules[j], net, OriginKey(rules[j]) in gen.wsOrigins);
    WebBaseProto(rules[i]);
    WebBaseProto(rules[j]);
    assert ToRange(rules[i], net) == ToRange(rules[j], net);
    assert v != w;
  }
}

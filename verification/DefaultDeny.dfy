/** Default deny: a request whose authority no rule of its chain speaks of is refused. */
module DefaultDeny {
  import opened Text
  import opened Rules
  import opened Dedicated
  import opened EnvoyConfig
  import opened Generator
  import opened LockstepRules
  import opened Chains
  import opened Hosting
  import opened WebRules
  import opened HttpRequests
  import HttpRoutes

  /** The virtual host the proxy picks: one that claims the authority, or else one whose domain
      is the bare star. */
  ghost predicate Selected(hosts: seq<VHost>, a: string, v: VHost) {
    v in hosts && (Claims(v, a) || ("*" in v.domains && forall w :: w in hosts ==> !Claims(w, a)))
  }

  /** The rule runs in the chain with this match. */
  predicate InChain(s: Rule, net: Net, exact: set<string>, t: nat, m: Match) {
    !IsDeny(s) && (WebRule(s) || IsWebsocket(s)) && WebMatch(s, net, exact, t) == m
  }

  // ---------------------------------------------------------------- every such chain has a catch-all

  /** If whoever brings a host brings the catch-all too, the catch-all is there with the first. */
  lemma {:induction false} BroughtTogether(ps: seq<Perm>, net: Net, n: string, m: Match, seen: set<string>)
    requires forall p :: p in ps ==> BroughtTo(p, net, n, m) == [] || DENY_ALL in BroughtTo(p, net, n, m)
    ensures Hosts(ps, net, n, m, seen) != [] ==> DENY_ALL in Hosts(ps, net, n, m, seen)
  {
    hide BroughtTo;
    if ps != [] {
      assert ps[0] in ps && forall p :: p in ps[1..] ==> p in ps;
      BroughtTogether(ps[1..], net, n, m, seen);
      BroughtTogether(ps[1..], net, n, m, seen + {ps[0].key});
    }
  }

  lemma PermBrings(p: Perm, s: Rule, net: Net, gen: Gen, t: nat, m: Match)
    requires t <= 1 && From(p, s, net, gen) && (IsDeny(s) ==> IsOpaque(s))
    requires InChain(s, net, gen.exact, t, m) ==> net.kind(s.dst) != Cidr
    ensures var b := BroughtTo(p, net, WebListener(t), m);
            && (b == [] || DENY_ALL in b)
            && (forall v :: v in b ==> v == DENY_ALL || v.name != DENY_ALL.name)
  {
    hide LayersFor, PermKey, WebMatch, OriginKey, IsDeny, IsOpaque, StandsFor, Lower, Web, WebUpstream, WebBase, Brought, VirtualHostName, HttpDomains, WebPort, BarePort, IsWebsocket;
    var u: nat :| Made(p, u, net, gen);
    if !WebRule(p.rule) {
      OpaqueBringsNothing(p, u, net, gen);
    } else {
      MadePlaced(p, u, net, gen);
      StandsAlike(p.rule, s, net, gen.exact, t);
      NotDenyAll(p.rule.dst, WebPort(p.rule));
    }
  }

  lemma CatchAllPresent(rules: seq<Rule>, net: Net, ports: EnvoyPorts, t: nat, m: Match)
    requires Generate(rules, net, ports).Some? && t <= 1
    requires forall s :: s in rules && InChain(s, net, GenFacts(rules, net, ports).exact, t, m) ==> net.kind(s.dst) != Cidr
    requires HostsIn(Generate(rules, net, ports).value, WebListener(t), m) != []
    ensures DENY_ALL in HostsIn(Generate(rules, net, ports).value, WebListener(t), m)
  {
    hide Derive, GenFacts, RunPerms, BroughtTo, First, HostsIn, Hosts, UniqueNames, From, WebListener, IsDeny, IsOpaque, InChain;
    var gen, ps, n := GenFacts(rules, net, ports), Perms(rules, net, ports), WebListener(t);
    var brought := Hosts(ps, net, n, m, {});
    ChainHosts(rules, net, ports, n, m);
    DerivedRules(rules, net, gen, {});
    forall p | p in ps
      ensures BroughtTo(p, net, n, m) == [] || DENY_ALL in BroughtTo(p, net, n, m)
      ensures forall v :: v in BroughtTo(p, net, n, m) ==> v == DENY_ALL || v.name != DENY_ALL.name
    {
      var s :| s in rules && From(p, s, net, gen) && (IsDeny(s) ==> IsOpaque(s));
      PermBrings(p, s, net, gen, t, m);
    }
    BroughtTogether(ps, net, n, m, {});
    var w := HostsIn(Generate(rules, net, ports).value, n, m)[0];
    assert First(brought, w.name) == Some(w);
    assert First(brought, DENY_ALL.name).Some?;
    HostsFrom(ps, net, n, m, {}, First(brought, DENY_ALL.name).value);
  }

  // ---------------------------------------------------------------- what it answers

  lemma CatchAllDenies(path: string, verb: string, rx: (string, string) -> bool)
    requires "/" <= path
    ensures HttpRoutes.FirstMatch(DENY_ALL.routes, path, verb, rx) == Some(HttpRoutes.Deny) && "*" in DENY_ALL.domains
  {
  }

  lemma AskedReaches(e: Rule, s: Rule, net: Net, ws: bool, a: string)
    requires StandsFor(e, s) && WebRule(e) && net.kind(e.dst) != Cidr && '*' !in s.dst && '*' !in a
    ensures "*" !in HostOf(e, net, ws).domains
    ensures Claims(HostOf(e, net, ws), a) ==> Reaches(s, a)
  {
    StandsAlike(e, s, net, {}, 0);
    KindAlike(e, s);
    PlainDomains(e, net, ws);
    hide HostOf, WebPort, IsHttps, Lower, NormalizeDomain, HttpDomains, PortText, WebRule;
    if Claims(HostOf(e, net, ws), a) {
      var d :| d in HttpDomains(e.dst, WebPort(e), BarePort(e)) && Matches(d, a);
      if IsWildcard(e.dst) {
        NormalizedHasNoStar(e.dst);
        ClaimReaches(e, d, a);
      } else {
        ExactMatches(e, d, a);
        ExactReaches(e, a);
      }
      ReachesAlike(e, s, a);
    }
  }

  lemma ExactMatches(e: Rule, d: string, a: string)
    requires !IsWildcard(e.dst) && '*' !in e.dst && d in HttpDomains(e.dst, WebPort(e), BarePort(e)) && Matches(d, a)
    ensures d == a
  {
    ExactDomains(e, d);
    NoStar(e, d);
    hide HttpDomains, WebPort, BarePort, NormalizeDomain, PortText;
    assert d != [] ==> d[0] in d;
  }

  lemma KindAlike(e: Rule, s: Rule)
    requires StandsFor(e, s) && WebRule(e)
    ensures IsHttps(e) == IsHttps(s)
  {
    assert Lower("http") == "http" && Lower("https") == "https";
  }

  lemma ReachesAlike(e: Rule, s: Rule, a: string)
    requires e.dst == s.dst && WebPort(e) == WebPort(s) && IsHttps(e) == IsHttps(s)
    ensures Reaches(e, a) <==> Reaches(s, a)
  {
    hide WebPort, IsHttps, NormalizeDomain, PortText, IsWildcard;
  }

  lemma PlainDomains(e: Rule, net: Net, ws: bool)
    requires net.kind(e.dst) != Cidr && '*' !in e.dst
    ensures HostOf(e, net, ws).domains == HttpDomains(e.dst, WebPort(e), BarePort(e)) && "*" !in HostOf(e, net, ws).domains
  {
    NormalizedHasNoStar(e.dst);
    hide WebPort, BarePort, NormalizeDomain, PortText, IsWildcard, VirtualHostName, WebUpstream;
    var d, p := NormalizeDomain(e.dst), PortText(WebPort(e));
    assert |"*." + d| > 1 && |"*." + d + ":" + p| > 1;
    PortTextPlain(WebPort(e));
    assert d != [] ==> d[0] in d;
    assert (d + ":" + p)[|d|] == ':';
  }

  /** In every generated tree, whatever the path and the method: in an HTTP chain that no range
      rule built, some virtual host is selected for every authority, and one that no rule of the
      chain reaches is refused. */
  lemma UnreachedIsDenied(rules: seq<Rule>, net: Net, ports: EnvoyPorts, t: nat, m: Match, a: string, path: string, verb: string, rx: (string, string) -> bool)
    requires Generate(rules, net, ports).Some? && t <= 1 && Sane(rules) && '*' !in a && "/" <= path
    requires HostsIn(Generate(rules, net, ports).value, WebListener(t), m) != []
    requires forall s :: s in rules && InChain(s, net, GenFacts(rules, net, ports).exact, t, m) ==> net.kind(s.dst) != Cidr && !Reaches(s, a)
    ensures var hosts := HostsIn(Generate(rules, net, ports).value, WebListener(t), m);
            && (exists v :: Selected(hosts, a, v))
            && (forall v :: Selected(hosts, a, v) ==> HttpRoutes.FirstMatch(v.routes, path, verb, rx) == Some(HttpRoutes.Deny))
  {
    hide Generate, GenFacts, HostsIn, Reaches, Claims, WebListener, WebMatch, HostOf, ParsePortSpec, OriginKey, StandsFor, WebRule, IsWebsocket, IsDeny, HttpRoutes.FirstMatch;
    var gen := GenFacts(rules, net, ports);
    var hosts := HostsIn(Generate(rules, net, ports).value, WebListener(t), m);
    CatchAllPresent(rules, net, ports, t, m);
    CatchAllDenies(path, verb, rx);
    CatchAllClaimsNothing(a);
    forall v | v in hosts && v != DENY_ALL ensures "*" !in v.domains && !Claims(v, a) {
      HostsAsked(rules, net, ports, t, m, v);
      var s, e :| Asks(rules, s, e, net, gen.exact, t, m) && v == HostOf(e, net, OriginKey(e) in gen.wsOrigins);
      assert Validated(s);
      StandsAlike(e, s, net, gen.exact, t);
      AskedReaches(e, s, net, OriginKey(e) in gen.wsOrigins, a);
      assert InChain(s, net, gen.exact, t, m);
    }
    assert Selected(hosts, a, DENY_ALL);
  }
}

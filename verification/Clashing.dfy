/** Two plaintext rules at real inputs: generation succeeds, and yet two virtual hosts claim one
    authority, or none claims it. */
module Clashing {
  import opened Text
  import opened Rules
  import opened Dedicated
  import opened EnvoyConfig
  import opened Generator
  import opened LockstepRules
  import opened Chains
  import opened Hosting
  import opened WebRules
  import opened HttpRequests
  import Routes

  const NET := Net((s: string) => Fqdn, (s: string) => s)
  const PORTS := EnvoyPorts(10000, 11000, 12000, 13000)

  const BARE := Rule("a", "http", "80", "allow", [], "", false)
  const STAR := Rule(".a", "http", "80", "allow", [], "", false)
  const RULES := [BARE, STAR]

  const DASHED := Rule(".a-b", "http", "80", "allow", [], "", false)
  const DOTTED := Rule(".a.b", "http", "80", "allow", [], "", false)

  lemma PortEighty(r: Rule)
    requires r.port == "80"
    ensures ParsePortSpec(r.port) == Ports(Span(80, 80)) && HttpPort(r) == 80
  {
    assert Itoa(80) == "80";
    hide ParsePortSpec;
    FormatParseRoundTrip(Span(80, 80));
  }

  predicate Given(r: Rule) { r == BARE || r == STAR || r == DASHED || r == DOTTED }

  lemma Shape(r: Rule)
    requires Given(r)
    ensures Lower(r.proto) == "http" && Allows(r) && !IsDeny(r) && !IsWebsocket(r) && WebRule(r) && !IsHttps(r) && WebPort(r) == 80
    ensures '*' !in r.dst && Validated(r)
  {
    PortEighty(r);
    hide ParsePortSpec;
    assert Lower("http") == "http" && Lower("allow") == "allow";
  }

  lemma Sites()
    ensures NormalizeDomain(BARE.dst) == "a" && NormalizeDomain(STAR.dst) == "a" && !IsWildcard(BARE.dst) && IsWildcard(STAR.dst)
    ensures NormalizeDomain(DASHED.dst) == "a-b" && NormalizeDomain(DOTTED.dst) == "a.b" && IsWildcard(DASHED.dst) && IsWildcard(DOTTED.dst)
  {
  }

  // ---------------------------------------------------------------- generation succeeds

  /** A plaintext stack runs on any tree. */
  lemma StackSucceeds(r: Rule, up: Layer, c: Config)
    requires up == HttpExact || up == HttpWildcard
    ensures RunLayers([TcpEgress, up, HttpApp], r, NET, PORTS, NEW_CTX, c).Some?
    ensures var (ctx, c') := RunLayers([TcpEgress, up, HttpApp], r, NET, PORTS, NEW_CTX, c).value;
            && ctx.listener == EGRESS && ctx.match_ == RawBuffer && ctx.terminal.Some? && ctx.terminal.value.Hcm?
            && ctx.clusters == [Upstream(up, r, NET, NEW_CTX)] && c' == EnsureListener(c, EGRESS, PORTS.egress, false)
  {
    hide NormalizeDomain, HttpPort, HttpsPort, NameFor, AppVHosts, EnsureListener, RunLayers;
    var c' := EnsureListener(c, EGRESS, PORTS.egress, false);
    var t := Transport(TcpEgress, r, NET, NEW_CTX);
    var (name, body) := Upstream(up, r, NET, t);
    var u := WithUpstream(t, name, body);
    UpstreamNamed(up, r);
    var v := u.(terminal := Some(Hcm(AppVHosts(r, NET, u))));
    assert RunLayer(TcpEgress, r, NET, PORTS, NEW_CTX, c) == Some((t, c'));
    assert RunLayer(up, r, NET, PORTS, t, c') == Some((u, c'));
    assert RunLayer(HttpApp, r, NET, PORTS, u, c') == Some((v, c'));
    hide RunLayer;
    RunCons(TcpEgress, [up, HttpApp], r, NEW_CTX, c);
    RunCons(up, [HttpApp], r, t, c');
    RunCons(HttpApp, [], r, u, c');
    RunNothing(r, NET, PORTS, v, c');
    assert [TcpEgress] + [up, HttpApp] == [TcpEgress, up, HttpApp] && [up] + [HttpApp] == [up, HttpApp] && [HttpApp] + [] == [HttpApp];
  }

  lemma RunCons(l: Layer, rest: seq<Layer>, r: Rule, ctx: Ctx, c: Config)
    requires RunLayer(l, r, NET, PORTS, ctx, c).Some?
    ensures var (ctx', c') := RunLayer(l, r, NET, PORTS, ctx, c).value;
            RunLayers([l] + rest, r, NET, PORTS, ctx, c) == RunLayers(rest, r, NET, PORTS, ctx', c')
  {
    hide RunLayer;
    assert ([l] + rest)[1..] == rest;
  }

  lemma UpstreamNamed(up: Layer, r: Rule)
    requires up == HttpExact || up == HttpWildcard
    ensures Upstream(up, r, NET, NEW_CTX).0 != ""
    ensures Upstream(HttpExact, r, NET, NEW_CTX).0 != Upstream(HttpWildcard, r, NET, NEW_CTX).0
    ensures forall ctx :: Upstream(up, r, NET, ctx) == Upstream(up, r, NET, NEW_CTX)
  {
    hide NormalizeDomain, HttpPort, HttpsPort, Sanitize, PortText;
    EndsInDigit(NormalizeDomain(r.dst), HttpPort(r));
  }

  lemma EndsInDigit(host: string, port: int)
    ensures var n := NameFor("http_", host, port); n != "" && IsDigit(n[|n| - 1])
  {
    hide Sanitize, PortText;
    PortTextEnds(port);
    var n, t := NameFor("http_", host, port), PortText(port);
    assert n[|n| - 1] == t[|t| - 1];
  }

  /** And its context is committed when its cluster is new and the chain is an HTTP manager. */
  lemma StackCommits(ctx: Ctx, c: Config, name: string, body: Cluster)
    requires ctx.listener == EGRESS && ctx.match_ == RawBuffer && ctx.terminal.Some? && ctx.terminal.value.Hcm?
    requires ctx.clusters == [(name, body)] && name != "" && (name in c.clusters ==> c.clusters[name] == body) && EGRESS in c.listeners
    requires c.listeners[EGRESS].chains == [] || (exists t :: c.listeners[EGRESS].chains == [Chain(RawBuffer, Hcm(t))])
    ensures Commit(ctx, c).Some?
    ensures var c' := Commit(ctx, c).value;
            && c'.clusters == c.clusters[name := body] && EGRESS in c'.listeners
            && exists t :: c'.listeners[EGRESS].chains == [Chain(RawBuffer, Hcm(t))]
  {
    hide UnionByName;
    var c1 := c.(clusters := c.clusters[name := body]);
    assert ctx.clusters[1..] == [] && AddClusters(c1, []) == Some(c1);
    assert AddCluster(c, name, body) == Some(c1);
    assert AddClusters(c, ctx.clusters) == Some(c1);
    var chains, chain := c.listeners[EGRESS].chains, Chain(RawBuffer, ctx.terminal.value);
    if chains == [] {
      assert FindChain([], RawBuffer) == 0 && [] + [chain] == [chain];
      assert AddToChains(chains, chain) == Some([Chain(RawBuffer, Hcm(chain.terminal.vhosts))]);
    } else {
      var t :| chains == [Chain(RawBuffer, Hcm(t))];
      assert FindChain(chains, RawBuffer) == 0;
      var merged := UnionByName(t + chain.terminal.vhosts, {});
      assert chains[0 := chains[0].(terminal := Hcm(merged))] == [Chain(RawBuffer, Hcm(merged))];
      assert AddToChains(chains, chain) == Some([Chain(RawBuffer, Hcm(merged))]);
    }
  }

  lemma NoWebsockets(r: Rule, s: Rule)
    requires Given(r) && Given(s)
    ensures GenFacts([r, s], NET, PORTS).wsOrigins == {}
  {
    hide OriginKey, PortTable, Mappings, NormalizeDomain, OwnsApex, IsBase, Allows, IsWebsocket;
    Shape(r);
    Shape(s);
  }

  function Way(r: Rule): Layer { if IsWildcard(r.dst) then HttpWildcard else HttpExact }

  function Stack(r: Rule): Perm { Perm(r, [TcpEgress, Way(r), HttpApp], PermKey(r, 0)) }

  lemma RowsOf(r: Rule, gen: Gen, promoted: set<string>)
    requires Given(r) && gen.wsOrigins == {}
    ensures LayersFor(r, NET, gen) == [[TcpEgress, Way(r), HttpApp]] && Effective(r, gen, promoted) == Some(r)
  {
    Shape(r);
    hide Lower, OriginKey, IsWildcard, IsDeny, IsWebsocket, SlotsOf, DedicatedRows, CidrRows, HttpsRows;
    assert [] + [TcpEgress, Way(r), HttpApp] == [TcpEgress, Way(r), HttpApp];
  }

  lemma Derived(r: Rule, s: Rule, gen: Gen)
    requires Given(r) && Given(s) && gen.wsOrigins == {}
    ensures Derive([r, s], NET, gen, {}) == [Stack(r), Stack(s)]
  {
    hide LayersFor, Effective, PermKey, OriginKey, Derive, Promoted, Way, Given;
    var next := Promoted(r, gen, {});
    var last := Promoted(s, gen, next);
    RowsOf(r, gen, {});
    RowsOf(s, gen, next);
    DeriveHead([r, s], NET, gen, {});
    DeriveHead([s], NET, gen, next);
    assert [r, s][1..] == [s] && [s][1..] == [];
    DeriveNone(gen, last);
    assert Head([r, s], NET, gen, {}) == [Stack(r)];
    assert Head([s], NET, gen, next) == [Stack(s)];
  }

  lemma DeriveNone(gen: Gen, promoted: set<string>)
    ensures Derive([], NET, gen, promoted) == []
  {
  }

  /** One stack on a tree that has room for it. */
  lemma PermSucceeds(p: Perm, up: Layer, c: Config)
    requires (up == HttpExact || up == HttpWildcard) && p.layers == [TcpEgress, up, HttpApp]
    requires var u := Upstream(up, p.rule, NET, NEW_CTX); u.0 in c.clusters ==> c.clusters[u.0] == u.1
    requires EGRESS in c.listeners ==> exists t :: c.listeners[EGRESS].chains == [Chain(RawBuffer, Hcm(t))]
    ensures RunPerm(p, NET, PORTS, c).Some?
    ensures var (c', u) := (RunPerm(p, NET, PORTS, c).value, Upstream(up, p.rule, NET, NEW_CTX));
            && c'.clusters == c.clusters[u.0 := u.1] && EGRESS in c'.listeners
            && exists t :: c'.listeners[EGRESS].chains == [Chain(RawBuffer, Hcm(t))]
  {
    hide RunLayers, Upstream, Commit;
    StackSucceeds(p.rule, up, c);
    UpstreamNamed(up, p.rule);
    var (ctx, c') := RunLayers(p.layers, p.rule, NET, PORTS, NEW_CTX, c).value;
    var u := Upstream(up, p.rule, NET, NEW_CTX);
    StackCommits(ctx, c', u.0, u.1);
  }

  /** Two such rules generate, unless they give one cluster name two bodies. */
  lemma Generates(r: Rule, s: Rule)
    requires Given(r) && Given(s)
    requires var u, v := Upstream(Way(r), r, NET, NEW_CTX), Upstream(Way(s), s, NET, NEW_CTX); u.0 == v.0 ==> u.1 == v.1
    ensures Generate([r, s], NET, PORTS).Some?
  {
    hide Derive, GenFacts, RunPerm, PermKey, Upstream, Way, Given;
    NoWebsockets(r, s);
    Derived(r, s, GenFacts([r, s], NET, PORTS));
    var empty := Config(map[], map[]);
    WayIsPlain(r);
    WayIsPlain(s);
    PermSucceeds(Stack(r), Way(r), empty);
    PermSucceeds(Stack(s), Way(s), RunPerm(Stack(r), NET, PORTS, empty).value);
    TwoRun(Stack(r), Stack(s), empty);
  }

  lemma WayIsPlain(r: Rule)
    ensures Way(r) == HttpExact || Way(r) == HttpWildcard
  {
  }

  lemma BothGenerate()
    ensures Generate(RULES, NET, PORTS).Some? && Generate([DASHED, DOTTED], NET, PORTS).Some?
  {
    hide Generate, NormalizeDomain, HttpPort, HttpsPort, NameFor, IsWildcard;
    Sites();
    UpstreamNamed(HttpWildcard, BARE);
    Generates(BARE, STAR);
    Generates(DASHED, DOTTED);
  }

  lemma TwoRun(p: Perm, q: Perm, c: Config)
    requires RunPerm(p, NET, PORTS, c).Some? && RunPerm(q, NET, PORTS, RunPerm(p, NET, PORTS, c).value).Some?
    ensures RunPerms([p, q], NET, PORTS, c, {}).Some?
  {
    hide RunPerm;
    var c1 := RunPerm(p, NET, PORTS, c).value;
    assert [p, q][1..] == [q] && [q][1..] == [];
    assert forall c, seen :: RunPerms([], NET, PORTS, c, seen) == Some(c);
    assert RunPerms([q], NET, PORTS, c1, {} + {p.key}).Some?;
  }

  // ---------------------------------------------------------------- the clash

  lemma BothStand(exact: set<string>)
    ensures Sane(RULES) && Standing(RULES, 0, NET, exact) && Standing(RULES, 1, NET, exact)
    ensures ExactRule(BARE, NET) && ApexRival(STAR, BARE, NET, exact)
  {
    hide Lower, IsWildcard, NormalizeDomain, Allows, IsDeny, IsWebsocket, ParsePortSpec, VirtualHostName, WebRule, IsHttps, WebPort, Validated;
    Shape(BARE);
    Shape(STAR);
    Sites();
    PortEighty(BARE);
    PortEighty(STAR);
    WildcardNamed(STAR.dst, BARE.dst, 80, 80);
  }

  lemma Authority(r: Rule)
    requires Given(r)
    ensures PortKey(Site(r), WebPort(r)) == NormalizeDomain(r.dst) + ":80"
  {
    Shape(r);
    hide NormalizeDomain, WebPort;
    assert Itoa(80) == "80";
    assert PortText(80) == "80";
  }

  /** Two different virtual hosts of the generated tree claim "a:80". */
  lemma TwoHostsClaimApex()
    ensures Generate(RULES, NET, PORTS).Some?
    ensures var hosts := HostsIn(Generate(RULES, NET, PORTS).value, EGRESS, RawBuffer);
            exists v, w :: v in hosts && w in hosts && v != w && "a:80" in v.domains && "a:80" in w.domains
  {
    hide Generate, GenFacts, Sane, Standing, ApexRival, HostsIn, WebPort, NormalizeDomain, ExactRule, Lower;
    BothGenerate();
    BothStand(GenFacts(RULES, NET, PORTS).exact);
    Shape(BARE);
    Sites();
    Authority(BARE);
    assert "a" + ":80" == "a:80";
    ApexClash(RULES, 0, 1, NET, PORTS);
  }

  // ---------------------------------------------------------------- a host nobody answers for

  lemma SharedName()
    ensures VirtualHostName(DASHED.dst, 80) == VirtualHostName(DOTTED.dst, 80)
  {
    Sites();
    hide NormalizeDomain, IsWildcard, PortText;
    assert Sanitize("a-b") == Sanitize("a.b");
  }

  lemma DashedDomains()
    ensures "a.b:80" !in HttpDomains(DASHED.dst, WebPort(DASHED), BarePort(DASHED))
  {
    Sites();
    hide HttpDomains, NormalizeDomain, IsWildcard, PortText, WebPort, BarePort;
    var a, h, p := "a.b:80", "a-b", ":" + PortText(WebPort(DASHED));
    StarHead(h, p);
    assert a[0] == 'a' && a[1] == '.' && h[1] == '-';
    if a in HttpDomains(DASHED.dst, WebPort(DASHED), BarePort(DASHED)) {
      WildDomains(DASHED, a);
    }
  }

  lemma StarHead(h: string, p: string)
    requires |h| > 1 && h[1] == '-'
    ensures ("*" + ("." + h + p))[0] == '*' && ("*" + ("." + h))[0] == '*' && (h + p)[1] == '-'
  {
  }

  lemma HostShape(r: Rule)
    requires r == DASHED || r == DOTTED
    ensures HostOf(r, NET, false).name == VirtualHostName(r.dst, 80) && HostOf(r, NET, false).domains == HttpDomains(r.dst, WebPort(r), BarePort(r))
  {
    Shape(r);
    hide WebPort, BarePort, IsHttps, VirtualHostName, HttpDomains, WebUpstream;
  }

  lemma DashedStands(exact: set<string>)
    ensures Sane([DASHED, DOTTED]) && Standing([DASHED, DOTTED], 0, NET, exact)
  {
    hide Lower, Allows, ParsePortSpec, WebRule, Validated;
    Shape(DASHED);
    Shape(DOTTED);
    PortEighty(DASHED);
    PortEighty(DOTTED);
  }

  /** Two plaintext wildcard hosts that sanitise alike: the tree has no virtual host that claims
      the second one's authority, although generation succeeds. */
  lemma SecondHostUnclaimed()
    ensures Generate([DASHED, DOTTED], NET, PORTS).Some?
    ensures forall v :: v in HostsIn(Generate([DASHED, DOTTED], NET, PORTS).value, EGRESS, RawBuffer) ==> "a.b:80" !in v.domains
  {
    hide Generate, GenFacts, Sane, Standing, HostsIn, HostOf, OriginKey, LayersFor, StandsFor, UniqueNames, Hosts, First, WebRule;
    var rules := [DASHED, DOTTED];
    var gen := GenFacts(rules, NET, PORTS);
    BothGenerate();
    NoWebsockets(DASHED, DOTTED);
    DashedStands(gen.exact);
    Shape(DASHED);
    Shape(DOTTED);
    HasStack(DASHED, NET, gen);
    RuleHosted(rules, 0, 0, NET, PORTS);
    ChainHosts(rules, NET, PORTS, EGRESS, RawBuffer);
    SharedName();
    DashedDomains();
    HostShape(DASHED);
    HostShape(DOTTED);
    var hosts := HostsIn(Generate(rules, NET, PORTS).value, EGRESS, RawBuffer);
    forall v | v in hosts ensures "a.b:80" !in v.domains {
      HostsAsked(rules, NET, PORTS, 0, RawBuffer, v);
      if v != DENY_ALL {
        var s, e :| Asks(rules, s, e, NET, gen.exact, 0, RawBuffer) && v == HostOf(e, NET, OriginKey(e) in gen.wsOrigins);
        AskerIs(s, e, gen.exact);
        UniqueByName(hosts, HostOf(DASHED, NET, false), v);
      }
    }
  }

  lemma AskerIs(s: Rule, e: Rule, exact: set<string>)
    requires Asks([DASHED, DOTTED], s, e, NET, exact, 0, RawBuffer)
    ensures e == DASHED || e == DOTTED
  {
    hide WebMatch, IsWebsocket, WebRule;
    Shape(s);
  }

  // ---------------------------------------------------------------- routes that lead nowhere

  lemma SharedRoutesOfTwo(r: Rule, s: Rule)
    requires Routes.Shares(r, NET) && Routes.Shares(s, NET) && !Routes.HasQuic(r) && !Routes.HasQuic(s)
    requires SinglePort(r).Some? && SinglePort(s).Some? && Routes.SharedKey(r) != Routes.SharedKey(s)
    ensures Routes.EgressRoute(s, PORTS.egress, Tcp) in Routes.SharedRoutes([r, s], NET, PORTS.egress, {}, {})
  {
    hide Routes.Shares, Routes.HasQuic, Routes.SharedKey, Routes.EgressRoute, SinglePort;
    assert [r, s][1..] == [s];
    var seen, udpSeen := Routes.SeenNext(r, NET, {}), Routes.UdpNext(r, NET, {}, {});
    assert Routes.EgressRoute(s, PORTS.egress, Tcp) in Routes.SharedHere(s, NET, PORTS.egress, seen, udpSeen);
    assert Routes.EgressRoute(s, PORTS.egress, Tcp) in Routes.SharedRoutes([s], NET, PORTS.egress, seen, udpSeen);
  }

  lemma BothShare(r: Rule)
    requires Given(r)
    ensures Routes.Shares(r, NET) && !Routes.HasQuic(r) && SinglePort(r) == Some(80)
    ensures Routes.SharedKey(r) == PortKey(NormalizeDomain(r.dst), 80)
    ensures Routes.EgressRoute(r, PORTS.egress, Tcp) == Routes.Route(NormalizeDomain(r.dst), 80, 10000, Tcp, false)
  {
    Shape(r);
    PortEighty(r);
    Sites();
    hide Lower, ParsePortSpec, NormalizeDomain;
  }

  /** The kernel routes a.b:80 to the egress listener all the same. */
  lemma UnclaimedIsRouted()
    ensures Routes.Route("a.b", 80, 10000, Tcp, false) in Routes.SharedRoutes([DASHED, DOTTED], NET, PORTS.egress, {}, {})
  {
    hide Routes.Shares, Routes.HasQuic, Routes.SharedKey, Routes.EgressRoute, Routes.SharedRoutes, NormalizeDomain, PortKey, SinglePort;
    BothShare(DASHED);
    BothShare(DOTTED);
    Sites();
    DifferentKeys();
    SharedRoutesOfTwo(DASHED, DOTTED);
  }

  lemma DifferentKeys()
    ensures PortKey("a-b", 80) != PortKey("a.b", 80)
  {
    hide PortText;
    assert PortKey("a-b", 80)[1] == '-' && PortKey("a.b", 80)[1] == '.';
  }

  const ODD := Rule("h", "foo", "443", "allow", [], "", false)

  /** A protocol the generator does not know: it is routed like a web rule, and the tree has no
      listener for it. */
  lemma UnknownProtoUnfronted()
    ensures Routes.Route("h", 443, 10000, Tcp, false) in Routes.SharedRoutes([ODD], NET, PORTS.egress, {}, {})
    ensures Generate([ODD], NET, PORTS) == Some(Config(map[], map[]))
  {
    hide Derive, GenFacts, Routes.Shares, Routes.HasQuic, Routes.EgressRoute, SinglePort, Routes.SharedKey;
    OddShares();
    assert Routes.EgressRoute(ODD, PORTS.egress, Tcp) in Routes.SharedHere(ODD, NET, PORTS.egress, {}, {});
    OddDerives(GenFacts([ODD], NET, PORTS));
  }

  lemma OddPort()
    ensures ParsePortSpec(ODD.port) == Ports(Span(443, 443))
  {
    assert Itoa(443) == "443";
    hide ParsePortSpec;
    FormatParseRoundTrip(Span(443, 443));
  }

  lemma OddShares()
    ensures Routes.Shares(ODD, NET) && SinglePort(ODD) == Some(443)
    ensures Routes.EgressRoute(ODD, PORTS.egress, Tcp) == Routes.Route("h", 443, 10000, Tcp, false)
  {
    OddPort();
    hide ParsePortSpec;
    assert Lower("foo") == "foo" && Lower("allow") == "allow";
    assert NormalizeDomain("h") == "h";
    hide Lower, NormalizeDomain;
  }

  lemma OddDerives(gen: Gen)
    ensures Derive([ODD], NET, gen, {}) == []
  {
    assert Lower("foo") == "foo" && Lower("allow") == "allow";
    hide Lower, SlotsOf, OriginKey;
    assert [ODD][1..] == [] && LayersFor(ODD, NET, gen) == [];
    assert forall promoted :: Derive([], NET, gen, promoted) == [];
  }
}

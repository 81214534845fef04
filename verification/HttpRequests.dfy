/** From a path rule to a request: which virtual host answers an authority, and that it does
    what the longest path rule of its rule says. */
module HttpRequests {
  import opened Text
  import opened Rules
  import opened Dedicated
  import opened EnvoyConfig
  import opened Generator
  import opened LockstepRules
  import opened Chains
  import opened Hosting
  import opened WebRules
  import Lockstep
  import HttpRoutes

  // ---------------------------------------------------------------- requests to an exact host

  function Site(r: Rule): string { NormalizeDomain(r.dst) }

  /** No host of the list is itself spelled like the authority of the other. */
  predicate Unspelled(s: Rule, r: Rule) {
    Site(s) != PortKey(Site(r), WebPort(r)) && Site(r) != PortKey(Site(s), WebPort(s))
  }

  /** A wildcard rule that claims the same authority, apex and port, in the same chain. */
  predicate ApexRival(s: Rule, r: Rule, net: Net, exact: set<string>) {
    && !IsDeny(s) && (WebRule(s) || IsWebsocket(s)) && IsWildcard(s.dst)
    && Site(s) == Site(r) && WebPort(s) == WebPort(r) && WebMatch(s, net, exact, 0) == WebMatch(r, net, exact, 0)
  }

  /** An exact http(s) rule for one host. */
  predicate ExactRule(r: Rule, net: Net) { WebRule(r) && !IsWildcard(r.dst) && net.kind(r.dst) != Cidr }

  /** The port an authority may leave out: 443 for https and wss, 80 for http and ws. */
  predicate OnDefaultPort(r: Rule) { WebPort(r) == if IsHttps(r) then 443 else 80 }

  /** An authority names the host with its port, or without it on the default port. */
  predicate Addresses(host: string, r: Rule, a: string) {
    a == host + ":" + PortText(WebPort(r)) || (OnDefaultPort(r) && a == host)
  }

  /** The authorities a rule speaks of: its host, and what lies below it if it is a wildcard. */
  ghost predicate Reaches(r: Rule, a: string) {
    Addresses(Site(r), r, a) || (IsWildcard(r.dst) && exists x :: x != "" && Addresses(x + "." + Site(r), r, a))
  }

  lemma ExactReaches(r: Rule, a: string)
    requires !IsWildcard(r.dst)
    ensures a in HttpDomains(r.dst, WebPort(r), BarePort(r)) <==> Reaches(r, a)
  {
    hide NormalizeDomain, PortText, WebPort, IsHttps;
  }

  lemma ExactDomains(r: Rule, a: string)
    requires !IsWildcard(r.dst) && a in HttpDomains(r.dst, WebPort(r), BarePort(r))
    ensures a == PortKey(Site(r), WebPort(r)) || (a == Site(r) && WebPort(r) == BarePort(r))
  {
    hide NormalizeDomain, PortText, WebPort, BarePort;
  }

  lemma AnyDomains(e: Rule, a: string)
    requires a in HttpDomains(e.dst, WebPort(e), BarePort(e)) && '*' !in a
    ensures a == PortKey(Site(e), WebPort(e)) || (a == Site(e) && WebPort(e) == BarePort(e))
  {
    hide NormalizeDomain, PortText, WebPort, BarePort;
    var d, p := Site(e), PortText(WebPort(e));
    assert ("*." + d)[0] == '*' && ("*." + d + ":" + p)[0] == '*';
  }

  lemma NoStar(r: Rule, a: string)
    requires '*' !in r.dst && (a == PortKey(Site(r), WebPort(r)) || a == Site(r))
    ensures '*' !in a && a != "*"
  {
    NormalizedHasNoStar(r.dst);
    hide NormalizeDomain, PortText, WebPort;
    PortTextPlain(WebPort(r));
  }

  lemma PortTextPlain(p: int)
    ensures '*' !in PortText(p) && ':' !in PortText(p) && '.' !in PortText(p)
  {
    var d := Itoa(if p < 0 then -p else p);
    assert AllDigits(d);
  }

  /** Two rules of one kind that claim one authority outright have one host and port. */
  lemma SameAuthority(e: Rule, r: Rule, a: string)
    requires BarePort(e) == BarePort(r) && !IsWildcard(r.dst) && '*' !in r.dst && Unspelled(e, r)
    requires a in HttpDomains(r.dst, WebPort(r), BarePort(r)) && a in HttpDomains(e.dst, WebPort(e), BarePort(e))
    ensures Site(e) == Site(r) && WebPort(e) == WebPort(r)
  {
    hide HttpDomains, Site, WebPort, BarePort, PortKey;
    ExactDomains(r, a);
    NoStar(r, a);
    AnyDomains(e, a);
    if a == PortKey(Site(r), WebPort(r)) && a == PortKey(Site(e), WebPort(e)) {
      Lockstep.PortKeyInjective(Site(r), WebPort(r), Site(e), WebPort(e));
    }
  }

  lemma SameKind(e: Rule, r: Rule, net: Net, exact: set<string>, t: nat)
    requires WebMatch(e, net, exact, t) == WebMatch(r, net, exact, t)
    ensures BarePort(e) == BarePort(r)
  {
    hide IsHttps, HttpPort, HttpsPort, ServerNames;
  }

  lemma NameOfSite(e: Rule, r: Rule)
    requires Site(e) == Site(r) && WebPort(e) == WebPort(r) && IsWildcard(e.dst) == IsWildcard(r.dst)
    ensures VirtualHostName(e.dst, WebPort(e)) == VirtualHostName(r.dst, WebPort(r))
  {
    hide NormalizeDomain, WebPort, Sanitize, PortText;
  }

  lemma UnspelledAlike(e: Rule, s: Rule, r: Rule)
    requires Unspelled(s, r) && e.dst == s.dst && WebPort(e) == WebPort(s)
    ensures Unspelled(e, r)
  {
    hide WebPort, PortKey, NormalizeDomain;
  }

  /** Another claimant of the authority has the name of the rule's virtual host. */
  lemma ClaimantNamed(rules: seq<Rule>, s: Rule, e: Rule, r: Rule, net: Net, gen: Gen, t: nat, a: string)
    requires Asks(rules, s, e, net, gen.exact, t, WebMatch(r, net, gen.exact, t))
    requires ExactRule(r, net) && '*' !in r.dst && Unspelled(s, r) && !ApexRival(s, r, net, gen.exact)
    requires a in HttpDomains(r.dst, WebPort(r), BarePort(r)) && a in HostOf(e, net, OriginKey(e) in gen.wsOrigins).domains
    ensures VirtualHostName(e.dst, WebPort(e)) == VirtualHostName(r.dst, WebPort(r))
  {
    hide HttpDomains, Site, WebPort, BarePort, PortKey, WebMatch, VirtualHostName, OriginKey, WebUpstream, WebRule, IsWebsocket, IsDeny, Unspelled, IsWildcard, StandsFor;
    StandsAlike(e, s, net, gen.exact, t);
    StandsAlike(e, s, net, gen.exact, 0);
    MatchEveryStack(e, r, net, gen.exact, t);
    SameKind(e, r, net, gen.exact, t);
    UnspelledAlike(e, s, r);
    ExactDomains(r, a);
    NoStar(r, a);
    SameAuthority(e, r, a);
    SiteAlike(e, s);
    if !IsWildcard(e.dst) {
      NameOfSite(e, r);
    }
  }

  lemma SiteAlike(e: Rule, s: Rule)
    requires e.dst == s.dst
    ensures Site(e) == Site(s)
  {
  }

  lemma UniqueByName(vhosts: seq<VHost>, v: VHost, w: VHost)
    requires UniqueNames(vhosts) && v in vhosts && w in vhosts && v.name == w.name
    ensures v == w
  {
  }

  /** An authority of an exact rule is claimed outright by the rule's own virtual host alone. */
  lemma ExactAuthority(rules: seq<Rule>, i: nat, t: nat, net: Net, ports: EnvoyPorts, a: string)
    requires Generate(rules, net, ports).Some? && Sane(rules) && i < |rules|
    requires Standing(rules, i, net, GenFacts(rules, net, ports).exact) && t < |LayersFor(rules[i], net, GenFacts(rules, net, ports))|
    requires ExactRule(rules[i], net) && Reaches(rules[i], a)
    requires forall s :: s in rules ==> Unspelled(s, rules[i]) && !ApexRival(s, rules[i], net, GenFacts(rules, net, ports).exact)
    ensures var cfg, gen, r := Generate(rules, net, ports).value, GenFacts(rules, net, ports), rules[i];
            var hosts, v := HostsIn(cfg, WebListener(t), WebMatch(r, net, gen.exact, t)), HostOf(r, net, OriginKey(r) in gen.wsOrigins);
            v in hosts && forall w :: w in hosts ==> (a in w.domains <==> w == v)
  {
    hide LayersFor, GenFacts, Generate, WebMatch, WebUpstream, WebPort, BarePort, VirtualHostName, HttpDomains, OriginKey, HostsIn, UniqueNames, WebListener, Unspelled, ApexRival, Rival, Asks, Hosts, First, WebRule, ParsePortSpec, IsWildcard, Reaches;
    var gen, r := GenFacts(rules, net, ports), rules[i];
    var m, v := WebMatch(r, net, gen.exact, t), HostOf(r, net, OriginKey(r) in gen.wsOrigins);
    var hosts := HostsIn(Generate(rules, net, ports).value, WebListener(t), m);
    assert r in rules && Validated(r);
    RuleHosted(rules, i, t, net, ports);
    ChainHosts(rules, net, ports, WebListener(t), m);
    StacksOf(r, t, net, gen);
    hide PlacedAt;
    AtMostTwo(StackOf(r, t, net, gen), t, net, gen);
    ExactReaches(r, a);
    ExactDomains(r, a);
    NoStar(r, a);
    forall w | w in hosts && a in w.domains ensures w == v {
      HostsAsked(rules, net, ports, t, m, w);
      if w != DENY_ALL {
        var s, e :| Asks(rules, s, e, net, gen.exact, t, m) && w == HostOf(e, net, OriginKey(e) in gen.wsOrigins);
        AskerListed(rules, s, e, net, gen.exact, t, m);
        ClaimantNamed(rules, s, e, r, net, gen, t, a);
        UniqueByName(hosts, v, w);
      }
    }
  }

  lemma AskerListed(rules: seq<Rule>, s: Rule, e: Rule, net: Net, exact: set<string>, t: nat, m: Match)
    requires Asks(rules, s, e, net, exact, t, m)
    ensures s in rules
  {
    hide WebMatch, WebRule, StandsFor;
  }

  /** The routes do what the rule says: the longest path rule that applies decides, and the
      path default where none does. */
  ghost predicate Obeys(routes: seq<HttpRoutes.Route>, r: Rule, path: string, verb: string, rx: (string, string) -> bool) {
    && (forall k: nat :: HttpRoutes.Best(r.pathRules, k, path, verb, rx) ==>
          HttpRoutes.FirstMatch(routes, path, verb, rx)
          == Some(if Lower(r.pathRules[k].action) == "allow" then HttpRoutes.Allow else HttpRoutes.Deny))
    && ((forall k :: 0 <= k < |r.pathRules| ==> !HttpRoutes.Applies(r.pathRules[k], path, verb, rx)) ==>
          HttpRoutes.FirstMatch(routes, path, verb, rx)
          == (if "/" <= path then Some(if HttpRoutes.DeniesRest(r) then HttpRoutes.Deny else HttpRoutes.Allow) else None))
  }

  /** How a rule's upstream is reached: in the clear for http; over TLS for https, verified unless
      the rule says otherwise, and over HTTP/1.1 if websockets ride on it. */
  ghost predicate Secured(tls: Tls, rules: seq<Rule>, r: Rule) {
    if Lower(r.proto) == "https" then tls == Reencrypt(r.skipTlsVerify, Upgrades(rules, r)) else tls == Plaintext
  }

  /** One virtual host claims the authority, obeys the rule, and forwards to its host and port. */
  ghost predicate Answers(hosts: seq<VHost>, clusters: map<string, Cluster>, a: string, rules: seq<Rule>, r: Rule, path: string, verb: string, rx: (string, string) -> bool) {
    exists v :: && v in hosts && (forall w :: w in hosts ==> (a in w.domains <==> w == v))
                && Obeys(v.routes, r, path, verb, rx)
                && v.cluster in clusters && clusters[v.cluster].Pinned?
                && clusters[v.cluster].host == Site(r) && clusters[v.cluster].port == WebPort(r)
                && Secured(clusters[v.cluster].tls, rules, r)
  }

  lemma ExactUpstream(r: Rule, net: Net, ws: bool)
    requires ExactRule(r, net)
    ensures WebRule(r)
    ensures var body := WebUpstream(r, net, ws).1;
            && body.Pinned? && body.host == Site(r) && body.port == WebPort(r)
            && body.tls == (if Lower(r.proto) == "https" then Reencrypt(r.skipTlsVerify, ws) else Plaintext)
    ensures HostOf(r, net, ws).cluster == WebUpstream(r, net, ws).0 && HostOf(r, net, ws).routes == HttpRoutes.RouteList(r)
  {
    WebBaseProto(r);
    hide NormalizeDomain, NameFor, IsHttps, HttpPort, HttpsPort, WebRule, VirtualHostName, HttpDomains, Lower;
  }

  /** A request to an exact host: whatever its path and method, it gets the verdict of the
      longest path rule of the first rule for that host and port. */
  lemma RequestDecided(rules: seq<Rule>, i: nat, t: nat, net: Net, ports: EnvoyPorts, a: string, path: string, verb: string, rx: (string, string) -> bool)
    requires Generate(rules, net, ports).Some? && Sane(rules) && i < |rules|
    requires Standing(rules, i, net, GenFacts(rules, net, ports).exact) && t < |LayersFor(rules[i], net, GenFacts(rules, net, ports))|
    requires ExactRule(rules[i], net) && Reaches(rules[i], a)
    requires forall s :: s in rules ==> Unspelled(s, rules[i]) && !ApexRival(s, rules[i], net, GenFacts(rules, net, ports).exact)
    requires HttpRoutes.SafeTokens(rules[i].pathRules)
    ensures var cfg, r := Generate(rules, net, ports).value, rules[i];
            Answers(HostsIn(cfg, WebListener(t), WebMatch(r, net, GenFacts(rules, net, ports).exact, t)), cfg.clusters, a, rules, r, path, verb, rx)
  {
    hide LayersFor, GenFacts, Generate, WebMatch, WebUpstream, WebPort, BarePort, Reaches, OriginKey, HostsIn, WebListener, Unspelled, ApexRival, Standing, Sane, HostOf, ExactRule, Site;
    var gen, r := GenFacts(rules, net, ports), rules[i];
    ExactAuthority(rules, i, t, net, ports, a);
    RuleHosted(rules, i, t, net, ports);
    ExactUpstream(r, net, OriginKey(r) in gen.wsOrigins);
    FactsExactly(rules, net, ports, r, "");
    HttpRoutes.RoutesRefineLongestRule(r, path, verb, rx);
    var v := HostOf(r, net, OriginKey(r) in gen.wsOrigins);
    assert Obeys(v.routes, r, path, verb, rx);
  }

  // ---------------------------------------------------------------- TLS: the chain that carries the name

  predicate TlsRule(r: Rule, net: Net) { Lower(r.proto) == "https" && net.kind(r.dst) == Fqdn }

  lemma TlsMatch(r: Rule, net: Net, exact: set<string>, t: nat)
    requires TlsRule(r, net)
    ensures var m := WebMatch(r, net, exact, t); Named(m) && m.names == ServerNames(r.dst, exact)
  {
    WebBaseProto(r);
    hide Lower, ServerNames, HttpsPort;
  }

  /** Server names tell a host and whether it is a wildcard. */
  lemma ServerNamesTell(d: string, d': string, exact: set<string>)
    requires '*' !in d && '*' !in d' && ServerNames(d, exact) == ServerNames(d', exact)
    ensures NormalizeDomain(d) == NormalizeDomain(d') && IsWildcard(d) == IsWildcard(d')
  {
    NormalizedHasNoStar(d);
    NormalizedHasNoStar(d');
    hide NormalizeDomain, IsWildcard;
    var x, y := NormalizeDomain(d), NormalizeDomain(d');
    assert ("*." + x)[0] == '*' && ("*." + y)[0] == '*' && ("*." + x)[2..] == x && ("*." + y)[2..] == y;
    assert ServerNames(d, exact)[0] == ServerNames(d', exact)[0];
    assert x != [] ==> x[0] in x;
    assert y != [] ==> y[0] in y;
  }

  lemma TlsTells(s: Rule, r: Rule, net: Net, exact: set<string>, t: nat)
    requires TlsRule(r, net) && '*' !in s.dst && '*' !in r.dst && WebMatch(s, net, exact, t) == WebMatch(r, net, exact, t)
    ensures Site(s) == Site(r) && IsWildcard(s.dst) == IsWildcard(r.dst)
  {
    WebBaseProto(r);
    hide Lower, ServerNames, HttpsPort, NormalizeDomain, IsWildcard;
    ServerNamesTell(s.dst, r.dst, exact);
  }

  /** So over TLS no wildcard meets an exact rule in one chain. */
  lemma TlsNoApex(rules: seq<Rule>, r: Rule, net: Net, exact: set<string>)
    requires Sane(rules) && r in rules && TlsRule(r, net) && !IsWildcard(r.dst)
    ensures forall s :: s in rules ==> !ApexRival(s, r, net, exact)
  {
    hide WebMatch, WebPort, Site, TlsRule, IsWildcard, ParsePortSpec, WebRule, IsWebsocket;
    forall s | s in rules ensures !ApexRival(s, r, net, exact) {
      if ApexRival(s, r, net, exact) {
        assert Validated(s) && Validated(r);
        TlsTells(s, r, net, exact, 0);
      }
    }
  }

  /** Every chain that carries one of the rule's server names is the rule's chain. */
  ghost predicate Carries(chains: seq<Chain>, name: string, hosts: seq<VHost>) {
    && (exists ch :: ch in chains && Named(ch.match_) && name in ch.match_.names)
    && (forall ch :: ch in chains && Named(ch.match_) && name in ch.match_.names ==> ch.terminal == Hcm(hosts))
  }

  lemma ChainCarries(c: Config, n: string, m: Match, name: string)
    requires HostsIn(c, n, m) != [] && Named(m) && name in m.names
    requires n in c.listeners ==> NamesApart(c.listeners[n].chains)
    ensures n in c.listeners && Carries(c.listeners[n].chains, name, HostsIn(c, n, m))
  {
    hide FindChain;
    var chains := c.listeners[n].chains;
    var k := FindChain(chains, m);
    assert chains[k] in chains;
    forall ch | ch in chains && Named(ch.match_) && name in ch.match_.names ensures ch == chains[k] {
      var j :| 0 <= j < |chains| && chains[j] == ch;
    }
  }

  /** A TLS or QUIC request with an exact host's server name and authority: one chain carries
      the name, one of its virtual hosts the authority, and the longest path rule decides. */
  lemma TlsRequestDecided(rules: seq<Rule>, i: nat, t: nat, net: Net, ports: EnvoyPorts, a: string, path: string, verb: string, rx: (string, string) -> bool)
    requires Generate(rules, net, ports).Some? && Sane(rules) && i < |rules|
    requires Standing(rules, i, net, GenFacts(rules, net, ports).exact) && t < |LayersFor(rules[i], net, GenFacts(rules, net, ports))|
    requires TlsRule(rules[i], net) && !IsWildcard(rules[i].dst) && Reaches(rules[i], a)
    requires forall s :: s in rules ==> Unspelled(s, rules[i])
    requires HttpRoutes.SafeTokens(rules[i].pathRules)
    ensures var cfg, r, n := Generate(rules, net, ports).value, rules[i], WebListener(t);
            var hosts := HostsIn(cfg, n, WebMatch(r, net, GenFacts(rules, net, ports).exact, t));
            && n in cfg.listeners && Carries(cfg.listeners[n].chains, Site(r), hosts)
            && Answers(hosts, cfg.clusters, a, rules, r, path, verb, rx)
  {
    hide LayersFor, GenFacts, Generate, WebMatch, WebPort, BarePort, Reaches, HostsIn, WebListener, Unspelled, ApexRival, Rival, Answers, Site, Carries, NamesApart, WellFormed, ParsePortSpec, ServerNames;
    var exact, r, n := GenFacts(rules, net, ports).exact, rules[i], WebListener(t);
    assert r in rules && ExactRule(r, net);
    TlsNoApex(rules, r, net, exact);
    RequestDecided(rules, i, t, net, ports, a, path, verb, rx);
    var cfg := Generate(rules, net, ports).value;
    var m := WebMatch(r, net, exact, t);
    AnswersNonempty(HostsIn(cfg, n, m), cfg.clusters, a, rules, r, path, verb, rx);
    ChainsUnique(rules, net, ports);
    TlsMatch(r, net, exact, t);
    ExactName(r.dst, exact);
    SiteIs(r);
    ChainCarries(cfg, n, m, Site(r));
  }

  lemma ExactName(dst: string, exact: set<string>)
    requires !IsWildcard(dst)
    ensures NormalizeDomain(dst) in ServerNames(dst, exact)
  {
    hide NormalizeDomain, IsWildcard;
  }

  lemma AnswersNonempty(hosts: seq<VHost>, clusters: map<string, Cluster>, a: string, rules: seq<Rule>, r: Rule, path: string, verb: string, rx: (string, string) -> bool)
    requires Answers(hosts, clusters, a, rules, r, path, verb, rx)
    ensures hosts != []
  {
    hide Obeys, Site, WebPort;
  }

  // ---------------------------------------------------------------- plaintext: where authorities clash

  lemma WildcardNamed(dst: string, dst': string, port: int, port': int)
    requires IsWildcard(dst) && !IsWildcard(dst') && NormalizeDomain(dst) == NormalizeDomain(dst') && port == port'
    ensures VirtualHostName(dst, port) != VirtualHostName(dst', port')
  {
    hide NormalizeDomain, IsWildcard, Sanitize, PortText;
    assert |VirtualHostName(dst, port)| == |VirtualHostName(dst', port')| + 9;
  }

  /** In a plaintext chain an exact rule and a wildcard rule for one host and port both claim
      its authority, because only server names give the apex to the exact rule. */
  lemma ApexClash(rules: seq<Rule>, i: nat, j: nat, net: Net, ports: EnvoyPorts)
    requires Generate(rules, net, ports).Some? && Sane(rules) && i < |rules| && j < |rules|
    requires Standing(rules, i, net, GenFacts(rules, net, ports).exact) && Standing(rules, j, net, GenFacts(rules, net, ports).exact)
    requires ExactRule(rules[i], net) && Lower(rules[i].proto) == "http"
    requires net.kind(rules[j].dst) != Cidr && ApexRival(rules[j], rules[i], net, GenFacts(rules, net, ports).exact)
    ensures var hosts, a := HostsIn(Generate(rules, net, ports).value, EGRESS, RawBuffer), PortKey(Site(rules[i]), WebPort(rules[i]));
            exists v, w :: v in hosts && w in hosts && v != w && a in v.domains && a in w.domains
  {
    hide LayersFor, GenFacts, Generate, WebUpstream, WebPort, BarePort, VirtualHostName, HttpDomains, OriginKey, HostsIn, Rival, ParsePortSpec, Lower, Sane;
    var gen, r, s := GenFacts(rules, net, ports), rules[i], rules[j];
    WebBaseProto(r);
    WebBaseProto(s);
    HasStack(r, net, gen);
    HasStack(s, net, gen);
    RuleHosted(rules, i, 0, net, ports);
    RuleHosted(rules, j, 0, net, ports);
    WildcardNamed(s.dst, r.dst, WebPort(s), WebPort(r));
    ClaimsOwn(r);
    ClaimsOwn(s);
    var v, w := HostOf(r, net, OriginKey(r) in gen.wsOrigins), HostOf(s, net, OriginKey(s) in gen.wsOrigins);
    assert v != w;
  }

  lemma HasStack(r: Rule, net: Net, gen: Gen)
    requires WebRule(r)
    ensures |LayersFor(r, net, gen)| > 0
  {
    hide Lower, OriginKey, IsWildcard, HttpRow;
  }

  lemma ClaimsOwn(r: Rule)
    ensures PortKey(Site(r), WebPort(r)) in HttpDomains(r.dst, WebPort(r), BarePort(r))
  {
    hide NormalizeDomain, PortText, WebPort, BarePort, IsWildcard;
  }

  // ---------------------------------------------------------------- requests under a wildcard

  /** A domain entry claims an authority: literally, or as a suffix behind a star. */
  predicate Matches(dom: string, a: string) {
    dom == a || (|dom| > 1 && dom[0] == '*' && EndsWith(a, dom[1..]) && |a| >= |dom|)
  }

  predicate EndsWith(a: string, tail: string) { |tail| <= |a| && a[|a| - |tail|..] == tail }

  ghost predicate Claims(v: VHost, a: string) { exists d :: d in v.domains && Matches(d, a) }

  lemma EndsShorter(a: string, head: string, tail: string)
    requires EndsWith(a, head + tail)
    ensures EndsWith(a, tail)
  {
    var k := |a| - |head + tail|;
    assert a[|a| - |tail|..] == a[k..][|head|..];
  }

  /** A claim of a wildcard host names its port, or is bare on the default port. */
  lemma ClaimShape(r: Rule, dom: string, a: string)
    requires IsWildcard(r.dst) && dom in HttpDomains(r.dst, WebPort(r), BarePort(r)) && Matches(dom, a)
    requires '*' !in a && '*' !in r.dst
    ensures EndsWith(a, ":" + PortText(WebPort(r)))
            || (WebPort(r) == BarePort(r) && (a == Site(r) || EndsWith(a, "." + Site(r))))
  {
    NormalizedHasNoStar(r.dst);
    hide HttpDomains, NormalizeDomain, PortText, WebPort, BarePort, IsWildcard;
    WildDomains(r, dom);
    var d, p := Site(r), ":" + PortText(WebPort(r));
    PlainHead(d, p);
    PlainHead(d, "");
    assert d + "" == d;
    if dom == "*" + ("." + d + p) {
      StarMatch("." + d + p, a);
      EndsShorter(a, "." + d, p);
    } else if dom == d + p {
      EndsSelf(d, p);
    } else if dom == "*" + ("." + d) {
      StarMatch("." + d, a);
    }
  }

  lemma StarMatch(tail: string, a: string)
    requires Matches("*" + tail, a) && '*' !in a
    ensures EndsWith(a, tail)
  {
    assert ("*" + tail)[1..] == tail && ("*" + tail)[0] == '*';
  }

  lemma WildDomains(r: Rule, dom: string)
    requires IsWildcard(r.dst) && dom in HttpDomains(r.dst, WebPort(r), BarePort(r))
    ensures var d, p := Site(r), ":" + PortText(WebPort(r));
            || dom == "*" + ("." + d + p) || dom == d + p
            || (WebPort(r) == BarePort(r) && (dom == "*" + ("." + d) || dom == d))
  {
    hide NormalizeDomain, PortText, WebPort, BarePort, IsWildcard;
    var d, t := Site(r), PortText(WebPort(r));
    assert "*." + d + ":" + t == "*" + ("." + d + (":" + t)) && d + ":" + t == d + (":" + t) && "*." + d == "*" + ("." + d);
  }

  lemma PlainHead(d: string, p: string)
    requires '*' !in d && (p != [] ==> p[0] != '*')
    ensures d + p != [] ==> (d + p)[0] != '*'
  {
    assert d != [] ==> d[0] in d;
  }

  lemma EndsSelf(head: string, tail: string)
    ensures EndsWith(head + tail, tail)
  {
  }

  /** An authority that ends in a port ends in no other, and in no bare host. */
  lemma PortsAgree(a: string, p: int, q: int)
    requires EndsWith(a, ":" + PortText(p)) && EndsWith(a, ":" + PortText(q))
    ensures p == q
  {
    hide PortText;
    PortTextPlain(p);
    PortTextPlain(q);
    var s, t := PortText(p), PortText(q);
    var x, y := a[..|a| - |s| - 1], a[..|a| - |t| - 1];
    assert a == x + (":" + s) && a == y + (":" + t);
    assert x + (":" + s) == x + [':'] + s && y + (":" + t) == y + [':'] + t;
    UniqueLastSplit(x, s, y, t, ':');
    Lockstep.PortTextInjective(p, q);
  }

  lemma PortOrBare(a: string, p: int, d: string)
    requires EndsWith(a, ":" + PortText(p)) && ':' !in d
    ensures a != d && !EndsWith(a, "." + d)
  {
    hide PortText;
    PortTextPlain(p);
    var t := PortText(p);
    var tail, dotted := ":" + t, "." + d;
    EndsAt(a, tail);
    EndsAt(a, dotted);
    assert tail[0] == ':' && dotted[0] == '.';
    assert forall i :: 0 < i < |tail| ==> tail[i] == t[i - 1];
    assert forall i :: 0 < i < |dotted| ==> dotted[i] == d[i - 1];
  }

  lemma EndsAt(a: string, tail: string)
    ensures EndsWith(a, tail) ==> forall i :: |a| - |tail| <= i < |a| ==> a[i] == tail[i - (|a| - |tail|)]
  {
    if EndsWith(a, tail) {
      forall i | |a| - |tail| <= i < |a| ensures a[i] == tail[i - (|a| - |tail|)] {
        assert a[|a| - |tail|..][i - (|a| - |tail|)] == a[i];
      }
    }
  }

  /** Two claims of one host on one authority are on one port. */
  lemma SameClaimPort(e: Rule, r: Rule, x: string, y: string, a: string)
    requires IsWildcard(e.dst) && IsWildcard(r.dst) && Site(e) == Site(r) && BarePort(e) == BarePort(r) && ':' !in Site(r)
    requires '*' !in a && '*' !in e.dst && '*' !in r.dst
    requires x in HttpDomains(e.dst, WebPort(e), BarePort(e)) && Matches(x, a)
    requires y in HttpDomains(r.dst, WebPort(r), BarePort(r)) && Matches(y, a)
    ensures WebPort(e) == WebPort(r)
  {
    hide HttpDomains, Matches, Site, WebPort, BarePort, EndsWith, PortText, IsWildcard;
    ClaimShape(e, x, a);
    ClaimShape(r, y, a);
    if EndsWith(a, ":" + PortText(WebPort(e))) {
      PortOrBare(a, WebPort(e), Site(r));
      PortsAgree(a, WebPort(e), WebPort(r));
    } else if EndsWith(a, ":" + PortText(WebPort(r))) {
      PortOrBare(a, WebPort(r), Site(r));
    }
  }

  /** A host claims an authority exactly when its rule reaches it. */
  lemma WildReaches(r: Rule, net: Net, ws: bool, a: string)
    requires net.kind(r.dst) == Fqdn && IsWildcard(r.dst) && '*' !in a && '*' !in r.dst
    ensures Claims(HostOf(r, net, ws), a) <==> Reaches(r, a)
  {
    HostDomains(r, net, ws);
    var h, p := Site(r), ":" + PortText(WebPort(r));
    WildDomainsAll(r);
    NormalizedHasNoStar(r.dst);
    SiteIs(r);
    hide HostOf, HttpDomains, WebPort, BarePort, NormalizeDomain, PortText, IsWildcard, Matches, Site;
    forall d | d in HttpDomains(r.dst, WebPort(r), BarePort(r)) && Matches(d, a) ensures Reaches(r, a) {
      ClaimReaches(r, d, a);
    }
    if Reaches(r, a) {
      ReachClaims(r, a);
    }
  }

  lemma WildDomainsAll(r: Rule)
    requires IsWildcard(r.dst)
    ensures var h, p, ds := Site(r), ":" + PortText(WebPort(r)), HttpDomains(r.dst, WebPort(r), BarePort(r));
            && "*" + ("." + h + p) in ds && h + p in ds
            && (WebPort(r) == BarePort(r) ==> "*" + ("." + h) in ds && h in ds)
  {
    hide NormalizeDomain, PortText, WebPort, BarePort, IsWildcard;
    var d, t := Site(r), PortText(WebPort(r));
    assert "*." + d + ":" + t == "*" + ("." + d + (":" + t)) && d + ":" + t == d + (":" + t) && "*." + d == "*" + ("." + d);
    var ds := HttpDomains(r.dst, WebPort(r), BarePort(r));
    if WebPort(r) == BarePort(r) {
      assert ds == ["*." + d, "*." + d + ":" + t, d, d + ":" + t];
    } else {
      assert ds == ["*." + d + ":" + t, d + ":" + t];
    }
  }

  lemma BareIsDefault(r: Rule)
    ensures WebPort(r) == BarePort(r) <==> OnDefaultPort(r)
  {
    hide WebPort, IsHttps;
  }

  lemma EndsSplit(a: string, tail: string)
    requires EndsWith(a, tail) && |a| > |tail|
    ensures a[..|a| - |tail|] != "" && a == a[..|a| - |tail|] + tail
  {
  }

  lemma ClaimReaches(r: Rule, d: string, a: string)
    requires IsWildcard(r.dst) && d in HttpDomains(r.dst, WebPort(r), BarePort(r)) && Matches(d, a) && '*' !in a && '*' !in Site(r)
    ensures Reaches(r, a)
  {
    hide HttpDomains, WebPort, BarePort, NormalizeDomain, PortText, IsWildcard, Site, EndsWith, OnDefaultPort;
    WildDomains(r, d);
    BareIsDefault(r);
    var h, p := Site(r), ":" + PortText(WebPort(r));
    assert h + ":" + PortText(WebPort(r)) == h + p;
    PlainHead(h, p);
    PlainHead(h, "");
    assert h + "" == h;
    if d == "*" + ("." + h + p) {
      StarMatch("." + h + p, a);
      EndsSplit(a, "." + h + p);
      var x := a[..|a| - |"." + h + p|];
      assert a == x + "." + h + ":" + PortText(WebPort(r));
      assert Addresses(x + "." + h, r, a);
    } else if d == "*" + ("." + h) {
      StarMatch("." + h, a);
      EndsSplit(a, "." + h);
      var x := a[..|a| - |"." + h|];
      assert a == x + "." + h;
      assert Addresses(x + "." + h, r, a);
    }
  }

  lemma StarClaims(tail: string, x: string, a: string)
    requires a == x + tail && x != "" && tail != ""
    ensures Matches("*" + tail, a)
  {
    assert ("*" + tail)[1..] == tail && a[|a| - |tail|..] == tail;
  }

  lemma ReachClaims(r: Rule, a: string)
    requires IsWildcard(r.dst) && Reaches(r, a)
    ensures exists d :: d in HttpDomains(r.dst, WebPort(r), BarePort(r)) && Matches(d, a)
  {
    hide HttpDomains, WebPort, BarePort, NormalizeDomain, PortText, IsWildcard, Site, OnDefaultPort;
    WildDomainsAll(r);
    BareIsDefault(r);
    var h, p := Site(r), ":" + PortText(WebPort(r));
    if Addresses(h, r, a) {
      assert h + ":" + PortText(WebPort(r)) == h + p;
      assert Matches(a, a);
    } else {
      var x :| x != "" && Addresses(x + "." + h, r, a);
      if a == x + "." + h + ":" + PortText(WebPort(r)) {
        assert a == x + ("." + h + p);
        StarClaims("." + h + p, x, a);
      } else {
        assert a == x + ("." + h);
        StarClaims("." + h, x, a);
      }
    }
  }

  /** Over TLS or QUIC every authority a wildcard rule reaches is claimed, among the virtual hosts
      of the rule's chain, by the rule's own alone. */
  lemma WildcardAuthority(rules: seq<Rule>, i: nat, t: nat, net: Net, ports: EnvoyPorts, a: string)
    requires Generate(rules, net, ports).Some? && Sane(rules) && i < |rules|
    requires Standing(rules, i, net, GenFacts(rules, net, ports).exact) && t < |LayersFor(rules[i], net, GenFacts(rules, net, ports))|
    requires TlsRule(rules[i], net) && IsWildcard(rules[i].dst) && ':' !in rules[i].dst && '*' !in a && Reaches(rules[i], a)
    ensures var cfg, gen, r := Generate(rules, net, ports).value, GenFacts(rules, net, ports), rules[i];
            var hosts, v := HostsIn(cfg, WebListener(t), WebMatch(r, net, gen.exact, t)), HostOf(r, net, OriginKey(r) in gen.wsOrigins);
            v in hosts && forall w :: w in hosts ==> (Claims(w, a) <==> w == v)
  {
    hide LayersFor, GenFacts, Generate, WebMatch, WebUpstream, WebPort, BarePort, VirtualHostName, HttpDomains, OriginKey, HostsIn, UniqueNames, WebListener, Rival, Asks, Hosts, First, ParsePortSpec, IsWildcard, Claims, TlsRule, HostOf, PlacedAt, Reaches;
    var gen, r := GenFacts(rules, net, ports), rules[i];
    var m, v := WebMatch(r, net, gen.exact, t), HostOf(r, net, OriginKey(r) in gen.wsOrigins);
    var hosts := HostsIn(Generate(rules, net, ports).value, WebListener(t), m);
    assert r in rules;
    RuleHosted(rules, i, t, net, ports);
    ChainHosts(rules, net, ports, WebListener(t), m);
    StacksOf(r, t, net, gen);
    AtMostTwo(StackOf(r, t, net, gen), t, net, gen);
    TlsIsFqdn(r, net);
    WildReaches(r, net, OriginKey(r) in gen.wsOrigins, a);
    CatchAllClaimsNothing(a);
    forall w | w in hosts && Claims(w, a) ensures w == v {
      HostsAsked(rules, net, ports, t, m, w);
      var s, e :| Asks(rules, s, e, net, gen.exact, t, m) && w == HostOf(e, net, OriginKey(e) in gen.wsOrigins);
      AskerListed(rules, s, e, net, gen.exact, t, m);
      WildClaimantNamed(rules, s, e, r, net, gen, t, a);
      UniqueByName(hosts, v, w);
    }
  }

  lemma TlsIsFqdn(r: Rule, net: Net)
    requires TlsRule(r, net)
    ensures net.kind(r.dst) == Fqdn && WebRule(r)
  {
  }

  lemma CatchAllClaimsNothing(a: string)
    requires '*' !in a
    ensures !Claims(DENY_ALL, a)
  {
  }

  /** And a request there gets the verdict of the rule's longest path rule. */
  lemma WildcardRequestDecided(rules: seq<Rule>, i: nat, t: nat, net: Net, ports: EnvoyPorts, a: string, path: string, verb: string, rx: (string, string) -> bool)
    requires Generate(rules, net, ports).Some? && Sane(rules) && i < |rules|
    requires Standing(rules, i, net, GenFacts(rules, net, ports).exact) && t < |LayersFor(rules[i], net, GenFacts(rules, net, ports))|
    requires TlsRule(rules[i], net) && IsWildcard(rules[i].dst) && ':' !in rules[i].dst && '*' !in a && Reaches(rules[i], a)
    requires HttpRoutes.SafeTokens(rules[i].pathRules)
    ensures var cfg, r := Generate(rules, net, ports).value, rules[i];
            var hosts := HostsIn(cfg, WebListener(t), WebMatch(r, net, GenFacts(rules, net, ports).exact, t));
            exists v :: && v in hosts && (forall w :: w in hosts ==> (Claims(w, a) <==> w == v)) && Obeys(v.routes, r, path, verb, rx)
                        && v.cluster in cfg.clusters && cfg.clusters[v.cluster].ForwardProxy?
                        && Secured(cfg.clusters[v.cluster].tls, rules, r)
  {
    hide LayersFor, GenFacts, Generate, WebMatch, WebUpstream, WebPort, BarePort, OriginKey, HostsIn, WebListener, Standing, Sane, HostOf, Claims, Reaches, TlsRule;
    var gen, r := GenFacts(rules, net, ports), rules[i];
    WildcardAuthority(rules, i, t, net, ports, a);
    RuleHosted(rules, i, t, net, ports);
    TlsIsFqdn(r, net);
    WildUpstream(r, net, OriginKey(r) in gen.wsOrigins);
    FactsExactly(rules, net, ports, r, "");
    SecuredTls(rules, r, net);
    HttpRoutes.RoutesRefineLongestRule(r, path, verb, rx);
    var v := HostOf(r, net, OriginKey(r) in gen.wsOrigins);
    assert Obeys(v.routes, r, path, verb, rx);
  }

  lemma SecuredTls(rules: seq<Rule>, r: Rule, net: Net)
    requires TlsRule(r, net)
    ensures Secured(Reencrypt(r.skipTlsVerify, Upgrades(rules, r)), rules, r)
  {
  }

  lemma WildUpstream(r: Rule, net: Net, ws: bool)
    requires TlsRule(r, net) && IsWildcard(r.dst)
    ensures WebUpstream(r, net, ws).1 == ForwardProxy(Reencrypt(r.skipTlsVerify, ws))
    ensures HostOf(r, net, ws).cluster == WebUpstream(r, net, ws).0 && HostOf(r, net, ws).routes == HttpRoutes.RouteList(r)
  {
    WebBaseProto(r);
    hide NormalizeDomain, NameFor, IsHttps, HttpPort, HttpsPort, VirtualHostName, HttpDomains;
  }

  lemma NormalizedHasNoColon(dst: string)
    requires ':' !in dst
    ensures ':' !in NormalizeDomain(dst)
  {
  }

  lemma HostDomains(e: Rule, net: Net, ws: bool)
    requires net.kind(e.dst) == Fqdn
    ensures HostOf(e, net, ws).domains == HttpDomains(e.dst, WebPort(e), BarePort(e))
    ensures HostOf(e, net, ws).name == VirtualHostName(e.dst, WebPort(e))
  {
    hide HttpDomains, WebPort, BarePort, VirtualHostName, WebUpstream;
  }

  lemma WildClaimantNamed(rules: seq<Rule>, s: Rule, e: Rule, r: Rule, net: Net, gen: Gen, t: nat, a: string)
    requires Asks(rules, s, e, net, gen.exact, t, WebMatch(r, net, gen.exact, t))
    requires TlsRule(r, net) && IsWildcard(r.dst) && ':' !in r.dst && '*' !in r.dst && '*' !in s.dst && '*' !in a
    requires Claims(HostOf(r, net, OriginKey(r) in gen.wsOrigins), a) && Claims(HostOf(e, net, OriginKey(e) in gen.wsOrigins), a)
    ensures HostOf(e, net, OriginKey(e) in gen.wsOrigins).name == HostOf(r, net, OriginKey(r) in gen.wsOrigins).name
  {
    hide HttpDomains, Site, WebPort, BarePort, WebMatch, VirtualHostName, OriginKey, HostOf, WebRule, IsDeny, IsWildcard, StandsFor, Matches;
    StandsAlike(e, s, net, gen.exact, t);
    TlsTells(e, r, net, gen.exact, t);
    TlsAsker(e, r, net, gen.exact, t);
    SameKind(e, r, net, gen.exact, t);
    NormalizedHasNoColon(r.dst);
    SiteIs(r);
    HostDomains(e, net, OriginKey(e) in gen.wsOrigins);
    HostDomains(r, net, OriginKey(r) in gen.wsOrigins);
    var x :| x in HttpDomains(e.dst, WebPort(e), BarePort(e)) && Matches(x, a);
    var y :| y in HttpDomains(r.dst, WebPort(r), BarePort(r)) && Matches(y, a);
    SameClaimPort(e, r, x, y, a);
    NameOfSite(e, r);
  }

  lemma SiteIs(r: Rule)
    ensures Site(r) == NormalizeDomain(r.dst)
  {
  }

  /** Only names share a chain with names. */
  lemma TlsAsker(e: Rule, r: Rule, net: Net, exact: set<string>, t: nat)
    requires TlsRule(r, net) && WebMatch(e, net, exact, t) == WebMatch(r, net, exact, t)
    ensures net.kind(e.dst) == Fqdn
  {
    WebBaseProto(r);
    hide Lower, ServerNames, HttpsPort, IsHttps;
  }
}

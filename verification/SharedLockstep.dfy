/** The shared routes and the tree: where the kernel sends a web rule's host and port, a chain
    and a virtual host of the generated tree answer for it. */
module SharedLockstep {
  import opened Text
  import opened Rules
  import opened Dedicated
  import opened EnvoyConfig
  import opened Generator
  import opened LockstepRules
  import opened Chains
  import opened Hosting
  import opened WebRules
  import opened HttpRequests
  import opened RouteTable
  import Lockstep
  import Routes

  // ---------------------------------------------------------------- the permutation behind a web rule

  predicate IsWeb(r: Rule) { WebRule(r) || IsWebsocket(r) }

  /** Web rules name one port; a range is for opaque protocols. */
  predicate OnePort(rules: seq<Rule>) { forall r :: r in rules && IsWeb(r) ==> SinglePort(r).Some? }

  /** A rule has a second, QUIC stack. */
  predicate HasStackAt(r: Rule, t: nat) { t == 0 || (t == 1 && IsHttps(r)) }

  /** e is a base rule on the origin of r. */
  predicate SameOrigin(e: Rule, r: Rule) {
    WebRule(e) && e.dst == r.dst && WebPort(e) == WebPort(r) && IsHttps(e) == IsHttps(r)
  }

  lemma OriginTells(s: Rule, r: Rule)
    requires OriginKey(s) == OriginKey(r)
    ensures s.dst == r.dst && EffectivePort(s) == EffectivePort(r)
  {
    hide EffectivePort;
    assert OriginKey(s) == PortKey(s.dst, EffectivePort(s)) && OriginKey(r) == PortKey(r.dst, EffectivePort(r));
    Lockstep.PortKeyInjective(s.dst, EffectivePort(s), r.dst, EffectivePort(r));
  }

  lemma PortOf(r: Rule)
    requires SinglePort(r).Some?
    ensures EffectivePort(r) == WebPort(r) == SinglePort(r).value && Holds(StackSpan(r), WebPort(r))
  {
    hide ParsePortSpec, IsHttps, Lower;
  }

  lemma WebProto(r: Rule)
    requires IsWeb(r)
    ensures CanonicalProto(r.proto) == (if IsHttps(r) then "https" else "http") && !IsOpaque(r)
  {
  }

  /** Past the collision guard, web rules of one origin are all TLS or all plaintext. */
  lemma OneKindPerOrigin(rules: seq<Rule>, s: Rule, r: Rule)
    requires !ProtoCollision(rules) && OnePort(rules) && s in rules && r in rules && IsWeb(s) && IsWeb(r)
    requires !IsDeny(s) && !IsDeny(r) && OriginKey(s) == OriginKey(r)
    ensures s.dst == r.dst && WebPort(s) == WebPort(r) && IsHttps(s) == IsHttps(r)
  {
    hide OriginKey, EffectivePort, WebPort, StackSpan, CanonicalProto, IsHttps, IsWeb, NormalizeDomain, IsDeny, SinglePort;
    OriginTells(s, r);
    PortOf(s);
    PortOf(r);
    WebProto(s);
    WebProto(r);
    assert !Collide(s, r, WebPort(r));
  }

  function BaseOf(w: Rule): Rule { w.(proto := BaseProto(w.proto)) }

  lemma BaseOfWeb(w: Rule)
    requires IsWebsocket(w)
    ensures WebRule(BaseOf(w)) && BaseOf(w).dst == w.dst && WebPort(BaseOf(w)) == WebPort(w) && IsHttps(BaseOf(w)) == IsHttps(w)
    ensures StandsFor(BaseOf(w), w)
  {
    assert Lower("http") == "http" && Lower("https") == "https";
    assert IsHttps(BaseOf(w)) == IsHttps(w);
    hide Lower, ParsePortSpec;
  }

  /** A websocket rule without a base rule is promoted, or an earlier one of its origin was. */
  lemma {:induction false} PromotedStack(rules: seq<Rule>, i: nat, t: nat, net: Net, gen: Gen, promoted: set<string>) returns (w: Rule, k: nat)
    requires i < |rules| && IsWebsocket(rules[i]) && !IsDeny(rules[i])
    requires OriginKey(rules[i]) !in gen.baseOrigins && OriginKey(rules[i]) !in promoted
    requires forall s :: s in rules && IsWebsocket(s) && !IsDeny(s) && OriginKey(s) == OriginKey(rules[i]) ==> t < |LayersFor(BaseOf(s), net, gen)|
    ensures w in rules && IsWebsocket(w) && !IsDeny(w) && OriginKey(w) == OriginKey(rules[i]) && t < |LayersFor(BaseOf(w), net, gen)|
    ensures k < |Derive(rules, net, gen, promoted)| && Derive(rules, net, gen, promoted)[k] == StackOf(BaseOf(w), t, net, gen)
    decreases |rules|
  {
    hide LayersFor, PermKey, Derive, IsDeny, IsWebsocket, Head, StackOf, OriginKey, BaseOf, Promoted;
    DeriveHead(rules, net, gen, promoted);
    var first := rules[0];
    assert first in rules && forall s :: s in rules[1..] ==> s in rules;
    if IsWebsocket(first) && !IsDeny(first) && OriginKey(first) == OriginKey(rules[i]) {
      w, k := first, t;
      PromotedHead(rules, t, net, gen, promoted);
    } else {
      NotPromoted(first, gen, promoted, OriginKey(rules[i]));
      assert i > 0 && rules[1..][i - 1] == rules[i];
      w, k := PromotedStack(rules[1..], i - 1, t, net, gen, Promoted(first, gen, promoted));
      k := |Head(rules, net, gen, promoted)| + k;
    }
  }

  lemma NotPromoted(r: Rule, gen: Gen, promoted: set<string>, key: string)
    requires key !in promoted && !(IsWebsocket(r) && !IsDeny(r) && OriginKey(r) == key)
    ensures key !in Promoted(r, gen, promoted)
  {
    hide OriginKey;
    WsNotOpaque(r);
  }

  lemma WsNotOpaque(r: Rule)
    ensures IsWebsocket(r) ==> !IsOpaque(r)
  {
  }

  lemma PromotedHead(rules: seq<Rule>, t: nat, net: Net, gen: Gen, promoted: set<string>)
    requires rules != [] && IsWebsocket(rules[0]) && !IsDeny(rules[0]) && t < |LayersFor(BaseOf(rules[0]), net, gen)|
    requires OriginKey(rules[0]) !in gen.baseOrigins && OriginKey(rules[0]) !in promoted
    ensures var head := Head(rules, net, gen, promoted); t < |head| && head[t] == StackOf(BaseOf(rules[0]), t, net, gen)
  {
    hide LayersFor, PermKey, OriginKey, IsWebsocket, IsDeny, BaseProto;
  }

  lemma StackCount(e: Rule, t: nat, net: Net, gen: Gen)
    requires WebRule(e) && HasStackAt(e, t) && net.kind(e.dst) == Fqdn
    ensures t < |LayersFor(e, net, gen)|
  {
    WebBaseProto(e);
    hide Lower, OriginKey, IsWildcard, HttpRow, IsHttps;
  }

  /** Every allowed web rule has a permutation of its own origin. */
  lemma OriginStack(rules: seq<Rule>, i: nat, t: nat, net: Net, ports: EnvoyPorts) returns (s: Rule, e: Rule, k: nat)
    requires i < |rules| && IsWeb(rules[i]) && Allows(rules[i]) && net.kind(rules[i].dst) == Fqdn && HasStackAt(rules[i], t)
    requires !ProtoCollision(rules) && OnePort(rules)
    ensures s in rules && StandsFor(e, s) && SameOrigin(e, rules[i]) && t < |LayersFor(e, net, GenFacts(rules, net, ports))|
    ensures k < |Perms(rules, net, ports)| && Perms(rules, net, ports)[k] == StackOf(e, t, net, GenFacts(rules, net, ports))
  {
    var r, gen := rules[i], GenFacts(rules, net, ports);
    AllowedNotDenied(r);
    hide LayersFor, PermKey, Derive, GenFacts, IsDeny, StackOf, OriginKey, WebPort, IsHttps, Allows, ProtoCollision, SinglePort, BaseOf;
    if WebRule(r) {
      WebStandsForItself(r);
      StackCount(r, t, net, gen);
      k := StackPosition(rules, i, t, net, gen, {});
      s, e := r, r;
    } else if OriginKey(r) in gen.baseOrigins {
      var b := BaseBehind(rules, r, net, ports);
      AllowedNotDenied(b);
      OneKindPerOrigin(rules, b, r);
      WebStandsForItself(b);
      StackCount(b, t, net, gen);
      var j :| 0 <= j < |rules| && rules[j] == b;
      k := StackPosition(rules, j, t, net, gen, {});
      s, e := b, b;
    } else {
      forall w | w in rules && IsWebsocket(w) && !IsDeny(w) && OriginKey(w) == OriginKey(r)
        ensures SameOrigin(BaseOf(w), r) && StandsFor(BaseOf(w), w) && t < |LayersFor(BaseOf(w), net, gen)|
      {
        OneKindPerOrigin(rules, w, r);
        BaseOfWeb(w);
        StackCount(BaseOf(w), t, net, gen);
      }
      s, k := PromotedStack(rules, i, t, net, gen, {});
      e := BaseOf(s);
    }
  }

  lemma AllowedNotDenied(r: Rule)
    requires Allows(r)
    ensures !IsDeny(r)
  {
  }

  lemma WebStandsForItself(r: Rule)
    requires WebRule(r)
    ensures StandsFor(r, r) && !IsWebsocket(r)
  {
  }

  lemma BaseBehind(rules: seq<Rule>, r: Rule, net: Net, ports: EnvoyPorts) returns (b: Rule)
    requires OriginKey(r) in GenFacts(rules, net, ports).baseOrigins
    ensures b in rules && Allows(b) && WebRule(b) && OriginKey(b) == OriginKey(r)
  {
    hide PortTable, Mappings, OriginKey, Allows;
    b :| b in rules && Allows(b) && IsBase(b) && OriginKey(b) == OriginKey(r);
  }

  // ---------------------------------------------------------------- a virtual host of its name

  /** Whichever permutation of a key runs first, they all bring a host of this name. */
  lemma {:induction false} KeyHosts(ps: seq<Perm>, k: nat, net: Net, n: string, m: Match, seen: set<string>, name: string)
    requires k < |ps| && ps[k].key !in seen
    requires forall q :: q in ps && q.key == ps[k].key ==> First(BroughtTo(q, net, n, m), name).Some?
    ensures First(Hosts(ps, net, n, m, seen), name).Some?
    decreases k
  {
    hide BroughtTo, First;
    assert ps[0] in ps && forall q :: q in ps[1..] ==> q in ps;
    if ps[0].key !in seen {
      FirstAppend(BroughtTo(ps[0], net, n, m), Hosts(ps[1..], net, n, m, seen + {ps[0].key}), name);
    }
    if ps[0].key in seen || ps[0].key != ps[k].key {
      assert ps[1..][k - 1] == ps[k];
      KeyHosts(ps[1..], k - 1, net, n, m, if ps[0].key in seen then seen else seen + {ps[0].key}, name);
    }
  }

  lemma StackNamed(q: Perm, t: nat, net: Net, gen: Gen)
    requires PlacedAt(q, t, net, gen)
    ensures First(BroughtTo(q, net, WebListener(t), WebMatch(q.rule, net, gen.exact, t)), VirtualHostName(q.rule.dst, WebPort(q.rule))).Some?
  {
    hide WebUpstream, WebMatch, VirtualHostName, WebPort, BarePort, HttpDomains, OriginKey, WebBase, Web, Brought, WebListener;
  }

  lemma SameKeyNames(rules: seq<Rule>, s: Rule, e: Rule, t: nat, net: Net, gen: Gen, q: Perm)
    requires Sane(rules) && s in rules && StandsFor(e, s) && WebRule(e)
    requires q in Derive(rules, net, gen, {}) && q.key == PermKey(e, t)
    ensures First(BroughtTo(q, net, WebListener(t), WebMatch(e, net, gen.exact, t)), VirtualHostName(e.dst, WebPort(e))).Some?
  {
    hide Derive, LayersFor, PermKey, Lower, ParsePortSpec, Validated, WebMatch, WebPort, VirtualHostName, WebListener, BroughtTo, PlacedAt, WebRule, First;
    DeriveFrom(rules, net, gen, {});
    var j :| 0 <= j < |rules| && From(q, rules[j], net, gen);
    var u: nat :| Made(q, u, net, gen);
    StandsValid(e, s);
    assert rules[j] in rules;
    KeyTells(q, u, rules[j], e, t, net, gen);
    SameTextSameStack(q.rule, e, net, gen.exact, t);
    NameTold(q.rule, e);
    MadePlaced(q, u, net, gen);
    StackNamed(q, t, net, gen);
  }

  lemma StandsValid(e: Rule, s: Rule)
    requires StandsFor(e, s) && Validated(s) && !ParsePortSpec(s.port).Malformed?
    ensures Validated(e) && !ParsePortSpec(e.port).Malformed?
  {
    hide ParsePortSpec, Lower;
  }

  lemma OriginAlike(e: Rule, r: Rule, net: Net, exact: set<string>, t: nat)
    requires SameOrigin(e, r)
    ensures WebMatch(e, net, exact, t) == WebMatch(r, net, exact, t) && VirtualHostName(e.dst, WebPort(e)) == VirtualHostName(r.dst, WebPort(r))
  {
    hide IsHttps, ServerNames, WebRule, VirtualHostName;
    assert IsHttps(r) ==> HttpsPort(e) == HttpsPort(r);
    assert !IsHttps(r) ==> HttpPort(e) == HttpPort(r);
  }

  /** The chain of an allowed web rule holds a virtual host of the rule's name. */
  lemma NameHosted(rules: seq<Rule>, i: nat, t: nat, net: Net, ports: EnvoyPorts) returns (v: VHost)
    requires Generate(rules, net, ports).Some? && Sane(rules) && !ProtoCollision(rules) && OnePort(rules)
    requires i < |rules| && IsWeb(rules[i]) && Allows(rules[i]) && net.kind(rules[i].dst) == Fqdn && HasStackAt(rules[i], t)
    ensures v in HostsIn(Generate(rules, net, ports).value, WebListener(t), WebMatch(rules[i], net, GenFacts(rules, net, ports).exact, t))
    ensures v.name == VirtualHostName(rules[i].dst, WebPort(rules[i]))
  {
    hide LayersFor, PermKey, Derive, GenFacts, Generate, WebMatch, WebPort, VirtualHostName, WebListener, BroughtTo, First, Sane, ProtoCollision, OnePort, IsWeb, Allows, HostsIn, Hosts, UniqueNames, StandsFor, SameOrigin, HasStackAt;
    var r, gen, ps := rules[i], GenFacts(rules, net, ports), Perms(rules, net, ports);
    var s, e, k := OriginStack(rules, i, t, net, ports);
    OriginAlike(e, r, net, gen.exact, t);
    OriginIsWeb(e, r);
    var n, m, name := WebListener(t), WebMatch(r, net, gen.exact, t), VirtualHostName(r.dst, WebPort(r));
    forall q | q in ps && q.key == ps[k].key ensures First(BroughtTo(q, net, n, m), name).Some? {
      SameKeyNames(rules, s, e, t, net, gen, q);
    }
    KeyHosts(ps, k, net, n, m, {}, name);
    v := First(Hosts(ps, net, n, m, {}), name).value;
    ChainHosts(rules, net, ports, n, m);
  }

  lemma OriginIsWeb(e: Rule, r: Rule)
    requires SameOrigin(e, r)
    ensures WebRule(e)
  {
    hide WebRule, WebPort, IsHttps;
  }

  // ---------------------------------------------------------------- that claims the authority

  /** A rule of the same chain whose virtual host has the same name for another host or port. */
  predicate NameClash(s: Rule, r: Rule, net: Net, exact: set<string>) {
    && !IsDeny(s) && IsWeb(s) && WebMatch(s, net, exact, 0) == WebMatch(r, net, exact, 0)
    && VirtualHostName(s.dst, WebPort(s)) == VirtualHostName(r.dst, WebPort(r))
    && !(Site(s) == Site(r) && WebPort(s) == WebPort(r))
  }

  lemma NotARange(e: Rule, r: Rule, net: Net, exact: set<string>, t: nat)
    requires net.kind(r.dst) == Fqdn && WebMatch(e, net, exact, t) == WebMatch(r, net, exact, t)
    ensures net.kind(e.dst) != Cidr
  {
    hide IsHttps, ServerNames, HttpPort, HttpsPort;
  }

  /** Over TLS a chain has one host, so there is no such rule. */
  lemma TlsNoNameClash(rules: seq<Rule>, r: Rule, net: Net, exact: set<string>)
    requires Sane(rules) && r in rules && IsHttps(r) && net.kind(r.dst) == Fqdn
    ensures forall s :: s in rules ==> !NameClash(s, r, net, exact)
  {
    hide WebMatch, WebPort, VirtualHostName, Site, IsHttps, IsWeb, ParsePortSpec, IsWildcard;
    forall s | s in rules ensures !NameClash(s, r, net, exact) {
      if NameClash(s, r, net, exact) {
        assert Validated(s) && Validated(r);
        HttpsTells(s, r, net, exact);
        SameHostNames(s, r);
      }
    }
  }

  lemma HttpsTells(s: Rule, r: Rule, net: Net, exact: set<string>)
    requires IsHttps(r) && net.kind(r.dst) == Fqdn && '*' !in s.dst && '*' !in r.dst
    requires WebMatch(s, net, exact, 0) == WebMatch(r, net, exact, 0)
    ensures Site(s) == Site(r) && IsWildcard(s.dst) == IsWildcard(r.dst)
  {
    hide IsHttps, ServerNames, HttpPort, HttpsPort, NormalizeDomain, IsWildcard;
    ServerNamesTell(s.dst, r.dst, exact);
  }

  lemma SameHostNames(s: Rule, r: Rule)
    requires Site(s) == Site(r) && IsWildcard(s.dst) == IsWildcard(r.dst)
    requires VirtualHostName(s.dst, WebPort(s)) == VirtualHostName(r.dst, WebPort(r))
    ensures WebPort(s) == WebPort(r)
  {
    hide Sanitize, PortText, NormalizeDomain, IsWildcard, WebPort;
    var front := (if IsWildcard(r.dst) then "wildcard_" else "") + Sanitize(NormalizeDomain(r.dst)) + "_";
    assert (front + PortText(WebPort(s)))[|front|..] == PortText(WebPort(s));
    assert (front + PortText(WebPort(r)))[|front|..] == PortText(WebPort(r));
    Lockstep.PortTextInjective(WebPort(s), WebPort(r));
  }

  /** Without a name clash the virtual host of the name claims the rule's authority. */
  lemma NamedClaims(rules: seq<Rule>, r: Rule, v: VHost, net: Net, gen: Gen, t: nat)
    requires net.kind(r.dst) == Fqdn && v.name == VirtualHostName(r.dst, WebPort(r))
    requires Asked(rules, v, net, gen, t, WebMatch(r, net, gen.exact, t))
    requires forall s :: s in rules ==> !NameClash(s, r, net, gen.exact)
    ensures PortKey(Site(r), WebPort(r)) in v.domains
  {
    hide WebMatch, WebPort, BarePort, VirtualHostName, HttpDomains, OriginKey, WebUpstream, WebRule, IsWebsocket, IsDeny, StandsFor, Site, PortKey;
    var s, e :| Asks(rules, s, e, net, gen.exact, t, WebMatch(r, net, gen.exact, t)) && v == HostOf(e, net, OriginKey(e) in gen.wsOrigins);
    StandsAlike(e, s, net, gen.exact, t);
    StandsAlike(e, s, net, gen.exact, 0);
    MatchEveryStack(e, r, net, gen.exact, t);
    SiteAlike(e, s);
    NotARange(e, r, net, gen.exact, t);
    ClaimsOwn(e);
    assert !NameClash(s, r, net, gen.exact);
  }

  /** The listener is bound to this port, its chain with this match alone carries its server
      names, if it has any, and a virtual host of that chain claims the authority. */
  ghost predicate Fronted(cfg: Config, n: string, m: Match, host: string, port: int, bind: int) {
    && n in cfg.listeners && cfg.listeners[n].bind == bind
    && (Named(m) ==> forall name :: name in m.names ==> Carries(cfg.listeners[n].chains, name, HostsIn(cfg, n, m)))
    && exists v :: v in HostsIn(cfg, n, m) && PortKey(host, port) in v.domains
  }

  lemma WebRuleFronted(rules: seq<Rule>, i: nat, t: nat, net: Net, ports: EnvoyPorts)
    requires Generate(rules, net, ports).Some? && Sane(rules) && !ProtoCollision(rules) && OnePort(rules)
    requires i < |rules| && IsWeb(rules[i]) && Allows(rules[i]) && net.kind(rules[i].dst) == Fqdn && HasStackAt(rules[i], t)
    requires forall s :: s in rules ==> !NameClash(s, rules[i], net, GenFacts(rules, net, ports).exact)
    ensures Fronted(Generate(rules, net, ports).value, WebListener(t), WebMatch(rules[i], net, GenFacts(rules, net, ports).exact, t),
                    Site(rules[i]), WebPort(rules[i]), ports.egress)
  {
    hide GenFacts, Generate, WebMatch, WebPort, VirtualHostName, Sane, ProtoCollision, OnePort, IsWeb, Allows, Asked, NameClash, HostsIn, Site, PortKey, Carries, NamesApart;
    var r, gen, cfg := rules[i], GenFacts(rules, net, ports), Generate(rules, net, ports).value;
    var n, m := WebListener(t), WebMatch(r, net, gen.exact, t);
    var v := NameHosted(rules, i, t, net, ports);
    NotDenyAll(r.dst, WebPort(r));
    HostsAsked(rules, net, ports, t, m, v);
    NamedClaims(rules, r, v, net, gen, t);
    HostsListener(cfg, n, m, v);
    ListenerBound(rules, net, ports, t);
    SaneValidated(rules);
    ChainsUnique(rules, net, ports);
    if Named(m) {
      forall name | name in m.names ensures Carries(cfg.listeners[n].chains, name, HostsIn(cfg, n, m)) {
        ChainCarries(cfg, n, m, name);
      }
    }
  }

  lemma SaneValidated(rules: seq<Rule>)
    requires Sane(rules)
    ensures forall r :: r in rules ==> Validated(r)
  {
    hide Validated;
  }

  lemma HostsListener(cfg: Config, n: string, m: Match, v: VHost)
    requires v in HostsIn(cfg, n, m)
    ensures n in cfg.listeners
  {
    hide FindChain;
  }

  lemma ListenerBound(rules: seq<Rule>, net: Net, ports: EnvoyPorts, t: nat)
    requires Generate(rules, net, ports).Some?
    ensures var cfg := Generate(rules, net, ports).value; WebListener(t) in cfg.listeners ==> cfg.listeners[WebListener(t)].bind == ports.egress
  {
    hide Derive, GenFacts, RunPerms;
    Routes.CommonBoundPerms(Derive(rules, net, GenFacts(rules, net, ports), {}), net, ports, Config(map[], map[]), {});
  }

  // ---------------------------------------------------------------- every shared route

  /** Some web rule of the list stands behind a host and port, and the tree fronts it. */
  ghost predicate FrontedRoute(rt: Routes.Route, rules: seq<Rule>, net: Net, ports: EnvoyPorts, cfg: Config) {
    exists r :: r in rules && Allows(r) && Site(r) == rt.domain && WebPort(r) == rt.dstPort
                && (var t := if rt.l4 == Tcp then 0 else 1;
                    Fronted(cfg, WebListener(t), WebMatch(r, net, GenFacts(rules, net, ports).exact, t), rt.domain, rt.dstPort, rt.envoyPort))
  }

  /** Every shared route of the route table leads to a listener bound to its port, TCP or QUIC,
      with a chain and a virtual host that claim the route's host and port. */
  lemma SharedRoutesFronted(rules: seq<Rule>, net: Net, ports: EnvoyPorts, udpSeen: set<string>, rt: Routes.Route)
    requires Generate(rules, net, ports).Some? && Sane(rules) && ValidPorts(ports) && !ProtoCollision(rules) && OnePort(rules)
    requires forall r :: r in rules && Routes.Shares(r, net) ==> IsWeb(r)
    requires forall r, s :: r in rules && s in rules && Routes.Shares(r, net) && !IsHttps(r) ==> !NameClash(s, r, net, GenFacts(rules, net, ports).exact)
    requires rt in Routes.SharedRoutes(rules, net, ports.egress, {}, udpSeen)
    ensures FrontedRoute(rt, rules, net, ports, Generate(rules, net, ports).value)
  {
    hide GenFacts, Generate, WebMatch, WebPort, Sane, ProtoCollision, OnePort, NameClash, Fronted, Site, Routes.SharedRoutes, ParsePortSpec, Lower, IsHttps;
    SharedShape(rules, net, ports.egress, {}, udpSeen);
    var r :| r in rules && Routes.Shares(r, net) && rt == Routes.EgressRoute(r, ports.egress, rt.l4) && (rt.l4 == Udp ==> Routes.HasQuic(r));
    var i :| 0 <= i < |rules| && rules[i] == r;
    var t := if rt.l4 == Tcp then 0 else 1;
    SharedPort(r, net, ports.egress, rt.l4);
    PortOf(r);
    SiteIs(r);
    QuicIsHttps(r);
    if IsHttps(r) {
      TlsNoNameClash(rules, r, net, GenFacts(rules, net, ports).exact);
    }
    WebRuleFronted(rules, i, t, net, ports);
    EgressPort(r, ports, rt.l4);
  }

  lemma QuicIsHttps(r: Rule)
    ensures Routes.HasQuic(r) ==> IsHttps(r)
  {
  }

  lemma EgressPort(r: Rule, ports: EnvoyPorts, l4: Family)
    requires SinglePort(r).Some? && ValidPorts(ports)
    ensures Routes.EgressRoute(r, ports.egress, l4).envoyPort == ports.egress
  {
    hide ParsePortSpec, NormalizeDomain;
  }
}

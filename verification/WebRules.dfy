/** The virtual host of an http(s) rule: which chain it goes to, what may take its name first,
    and that the tree holds it and its upstream. */
module WebRules {
  import opened Text
  import opened Rules
  import opened Dedicated
  import opened EnvoyConfig
  import opened Generator
  import opened Lockstep
  import opened LockstepRules
  import opened Chains
  import opened CrossRouting
  import opened Hosting
  import HttpRoutes

  // ---------------------------------------------------------------- the chain of a rule

  predicate IsHttps(r: Rule) { BaseProto(r.proto) == "https" }

  function WebPort(r: Rule): int { if IsHttps(r) then HttpsPort(r) else HttpPort(r) }

  /** A web rule's port: the one it names, and else 443 for https and wss, 80 for http and ws. */
  lemma WebPortMeaning(r: Rule)
    ensures forall p :: ParsePortSpec(r.port) == Ports(Span(p, p)) ==> WebPort(r) == p
    ensures (forall p :: ParsePortSpec(r.port) != Ports(Span(p, p))) && Lower(r.proto) in {"https", "wss"} ==> WebPort(r) == 443
    ensures (forall p :: ParsePortSpec(r.port) != Ports(Span(p, p))) && Lower(r.proto) in {"http", "ws"} ==> WebPort(r) == 80
  {
    hide ParsePortSpec, Lower;
  }

  /** The port whose authority may be written without it. */
  function BarePort(r: Rule): int { if IsHttps(r) then DEFAULT_DEST_PORT else HTTP_PORT }

  /** A rule's stacks: 0 over TCP, 1 over QUIC. */
  function WebListener(t: nat): string { if t == 0 then EGRESS else QUIC }

  function WebMatch(r: Rule, net: Net, exact: set<string>, t: nat): Match {
    if IsHttps(r) then CryptoMatch(r, net, exact, t == 0)
    else if net.kind(r.dst) == Cidr then RawRange(net.range(r.dst), HttpPort(r))
    else RawBuffer
  }

  /** The upstream of a rule, by name and body. */
  function WebUpstream(r: Rule, net: Net, ws: bool): (string, Cluster) {
    var host, isStatic := NormalizeDomain(r.dst), net.kind(NormalizeDomain(r.dst)) != Fqdn;
    var tls := Reencrypt(r.skipTlsVerify, ws);
    if net.kind(r.dst) == Cidr then
      if IsHttps(r) then (NameFor("tls_origdst_", host, HttpsPort(r)), OriginalDst(tls))
      else (NameFor("http_origdst_", host, HttpPort(r)), OriginalDst(Plaintext))
    else if IsWildcard(r.dst) then
      if IsHttps(r) then (if ws then "wss_dfp" else "https_dfp", ForwardProxy(tls)) else ("http_dfp", ForwardProxy(Plaintext))
    else if IsHttps(r) then (NameFor("tls_", host, HttpsPort(r)), Pinned(host, HttpsPort(r), isStatic, tls))
    else (NameFor("http_", host, HttpPort(r)), Pinned(host, HttpPort(r), isStatic, Plaintext))
  }

  predicate WebRule(r: Rule) { Lower(r.proto) == "http" || Lower(r.proto) == "https" }

  /** The virtual host a rule asks for. */
  function HostOf(r: Rule, net: Net, ws: bool): VHost {
    VHost(VirtualHostName(r.dst, WebPort(r)),
          if net.kind(r.dst) == Cidr then ["*"] else HttpDomains(r.dst, WebPort(r), BarePort(r)),
          WebUpstream(r, net, ws).0, HttpRoutes.RouteList(r))
  }

  /** Where a permutation of a web rule ends up, and what it brings there. */
  ghost predicate PlacedAt(q: Perm, t: nat, net: Net, gen: Gen) {
    var ws := OriginKey(q.rule) in gen.wsOrigins;
    && Web(q) && t <= 1
    && WebBase(q, net).listener == WebListener(t) && WebBase(q, net).match_ == WebMatch(q.rule, net, gen.exact, t)
    && WebBase(q, net).clusters == [WebUpstream(q.rule, net, ws)]
    && Brought(q, net) == [HostOf(q.rule, net, ws)] + (if net.kind(q.rule.dst) == Cidr then [] else [DENY_ALL])
  }

  /** The transport of the t-th stack of a web rule, and its upstream. */
  function TransportOf(r: Rule, net: Net, exact: set<string>, t: nat): (l: Layer)
    ensures ListenerLayer(l)
  {
    if IsHttps(r) then (if t == 0 then TlsSni(exact) else QuicSni(exact))
    else if net.kind(r.dst) == Cidr then PrefixRange(HttpPort(r))
    else TcpEgress
  }

  function UpstreamOf(r: Rule, net: Net): (l: Layer)
    ensures UpstreamLayer(l)
  {
    if IsHttps(r) then
      if net.kind(r.dst) == Cidr then HttpsOriginalDst else if IsWildcard(r.dst) then HttpsWildcard else HttpsExact
    else if net.kind(r.dst) == Cidr then HttpOriginalDst else if IsWildcard(r.dst) then HttpWildcard else HttpExact
  }

  lemma RowParts(q: Perm, ws: bool, a: Layer, b: Layer, net: Net)
    requires ListenerLayer(a) && UpstreamLayer(b) && q.layers == HttpRow(ws, a, b)
    ensures Web(q)
    ensures var x := Transport(a, q.rule, net, NEW_CTX.(websocket := ws));
            WebBase(q, net) == WithUpstream(x, Upstream(b, q.rule, net, x).0, Upstream(b, q.rule, net, x).1)
  {
    hide Transport, Upstream, WithUpstream, ListenerLayer, UpstreamLayer;
    assert q.layers[|q.layers| - 3] == a && q.layers[|q.layers| - 2] == b && (|q.layers| == 4 <==> ws);
  }

  lemma TransportPlaced(r: Rule, net: Net, exact: set<string>, t: nat, ctx: Ctx)
    requires t == 0 || (t == 1 && IsHttps(r))
    ensures var x := Transport(TransportOf(r, net, exact, t), r, net, ctx);
            && x == ctx.(listener := WebListener(t), match_ := WebMatch(r, net, exact, t), port := WebPort(r), bareHostPort := x.bareHostPort)
            && (net.kind(r.dst) != Cidr ==> x.bareHostPort == BarePort(r))
  {
    hide IsHttps, HttpPort, HttpsPort, CryptoMatch;
  }

  lemma UpstreamPlaced(r: Rule, net: Net, ctx: Ctx)
    ensures Upstream(UpstreamOf(r, net), r, net, ctx) == WebUpstream(r, net, ctx.websocket)
  {
    hide IsHttps, HttpPort, HttpsPort, NormalizeDomain, IsWildcard, NameFor;
  }

  lemma StackPlaced(q: Perm, t: nat, net: Net, gen: Gen)
    requires t == 0 || (t == 1 && IsHttps(q.rule))
    requires q.layers == HttpRow(OriginKey(q.rule) in gen.wsOrigins, TransportOf(q.rule, net, gen.exact, t), UpstreamOf(q.rule, net))
    ensures PlacedAt(q, t, net, gen)
  {
    hide OriginKey, TransportOf, UpstreamOf, Transport, Upstream, HttpRow, Web, WebBase, WebUpstream, VirtualHostName, HttpDomains, IsHttps, WebPort, BarePort, WebMatch, WebListener;
    var ws := OriginKey(q.rule) in gen.wsOrigins;
    var ctx := NEW_CTX.(websocket := ws);
    RowParts(q, ws, TransportOf(q.rule, net, gen.exact, t), UpstreamOf(q.rule, net), net);
    TransportPlaced(q.rule, net, gen.exact, t, ctx);
    UpstreamPlaced(q.rule, net, Transport(TransportOf(q.rule, net, gen.exact, t), q.rule, net, ctx));
  }

  lemma MadePlaced(q: Perm, t: nat, net: Net, gen: Gen)
    requires Made(q, t, net, gen) && WebRule(q.rule)
    ensures PlacedAt(q, t, net, gen)
  {
    WebBaseProto(q.rule);
    hide Lower, IsWildcard, OriginKey, HttpPort, HttpRow, PermKey, PlacedAt, IsHttps;
    StackPlaced(q, t, net, gen);
  }

  lemma WebBaseProto(r: Rule)
    requires WebRule(r)
    ensures IsHttps(r) <==> Lower(r.proto) == "https"
  {
  }

  lemma OpaqueBringsNothing(q: Perm, t: nat, net: Net, gen: Gen)
    requires Made(q, t, net, gen) && !WebRule(q.rule)
    ensures !Web(q)
  {
    hide Lower, LayersFor, PermKey;
    OpaqueRowsTidy(q.rule, net, gen);
    assert q.layers in LayersFor(q.rule, net, gen);
    if Web(q) {
      WebManages(q);
    }
  }

  lemma WebManages(q: Perm)
    requires Web(q)
    ensures HttpApp in q.layers
  {
    assert q.layers[|q.layers| - 1] == HttpApp;
  }

  // ---------------------------------------------------------------- what runs before a stack

  /** The permutation belongs to a rule that is not skipped. */
  ghost predicate Emits(s: Rule, q: Perm, net: Net, gen: Gen) {
    && From(q, s, net, gen) && (IsDeny(s) ==> IsOpaque(s))
    && (IsWebsocket(s) ==> OriginKey(s) !in gen.baseOrigins)
  }

  ghost predicate Before(q: Perm, rules: seq<Rule>, i: nat, t: nat, net: Net, gen: Gen)
    requires i < |rules|
  {
    || (exists j :: 0 <= j < i && Emits(rules[j], q, net, gen))
    || (q.rule == rules[i] && exists u: nat :: u < t && Made(q, u, net, gen))
  }

  /** What the first rule of a list contributes to the permutations. */
  function Head(rules: seq<Rule>, net: Net, gen: Gen, promoted: set<string>): seq<Perm>
    requires rules != []
  {
    match Effective(rules[0], gen, promoted)
    case None => []
    case Some(e) => PermsOf(e, LayersFor(e, net, gen))
  }

  function Promoted(r: Rule, gen: Gen, promoted: set<string>): set<string> {
    if Effective(r, gen, promoted).Some? && IsWebsocket(r) then promoted + {OriginKey(r)} else promoted
  }

  lemma DeriveHead(rules: seq<Rule>, net: Net, gen: Gen, promoted: set<string>)
    requires rules != []
    ensures Derive(rules, net, gen, promoted) ==
            Head(rules, net, gen, promoted) + Derive(rules[1..], net, gen, Promoted(rules[0], gen, promoted))
  {
    hide LayersFor, PermsOf, Effective, OriginKey, IsWebsocket;
  }

  lemma HeadEmits(rules: seq<Rule>, net: Net, gen: Gen, promoted: set<string>, q: Perm)
    requires rules != [] && q in Head(rules, net, gen, promoted)
    ensures Emits(rules[0], q, net, gen)
  {
    hide LayersFor, PermsOf, From, OriginKey, IsDeny, IsOpaque, IsWebsocket, BaseProto;
    PermsFrom(Effective(rules[0], gen, promoted).value, rules[0], net, gen);
  }

  lemma BeforeLater(q: Perm, rules: seq<Rule>, i: nat, t: nat, net: Net, gen: Gen)
    requires 0 < i < |rules| && Before(q, rules[1..], i - 1, t, net, gen)
    ensures Before(q, rules, i, t, net, gen)
  {
    hide Emits, Made;
    if j :| 0 <= j < i - 1 && Emits(rules[1..][j], q, net, gen) {
      assert Emits(rules[j + 1], q, net, gen);
    }
  }

  function StackOf(r: Rule, t: nat, net: Net, gen: Gen): Perm
    requires t < |LayersFor(r, net, gen)|
  {
    Perm(r, LayersFor(r, net, gen)[t], PermKey(r, t))
  }

  /** Every stack of a rule that is not skipped is a permutation, and what runs before it
      belongs to earlier rules or is an earlier stack of that rule. */
  lemma {:induction false} StackPosition(rules: seq<Rule>, i: nat, t: nat, net: Net, gen: Gen, promoted: set<string>) returns (k: nat)
    requires i < |rules| && !IsDeny(rules[i]) && !IsWebsocket(rules[i]) && t < |LayersFor(rules[i], net, gen)|
    ensures k < |Derive(rules, net, gen, promoted)| && Derive(rules, net, gen, promoted)[k] == StackOf(rules[i], t, net, gen)
    ensures forall j :: 0 <= j < k ==> Before(Derive(rules, net, gen, promoted)[j], rules, i, t, net, gen)
    decreases |rules|
  {
    hide LayersFor, PermKey, Derive, Emits, IsDeny, IsWebsocket, Promoted, Before, Head, StackOf;
    DeriveHead(rules, net, gen, promoted);
    var head, rest := Head(rules, net, gen, promoted), Derive(rules[1..], net, gen, Promoted(rules[0], gen, promoted));
    if i == 0 {
      k := t;
      HeadStacks(rules, t, net, gen, promoted);
    } else {
      k := StackPosition(rules[1..], i - 1, t, net, gen, Promoted(rules[0], gen, promoted));
      forall j | 0 <= j < |head| + k ensures Before((head + rest)[j], rules, i, t, net, gen) {
        if j < |head| {
          HeadEmits(rules, net, gen, promoted, head[j]);
          EmittedBefore(rules, i, t, net, gen, head[j]);
        } else {
          BeforeLater(rest[j - |head|], rules, i, t, net, gen);
        }
      }
      k := |head| + k;
    }
  }

  /** A rule at the front that is not skipped contributes its stacks in order. */
  lemma HeadStacks(rules: seq<Rule>, t: nat, net: Net, gen: Gen, promoted: set<string>)
    requires rules != [] && !IsDeny(rules[0]) && !IsWebsocket(rules[0]) && t < |LayersFor(rules[0], net, gen)|
    ensures var head := Head(rules, net, gen, promoted);
            && t < |head| && head[t] == StackOf(rules[0], t, net, gen)
            && forall j :: 0 <= j < t ==> Before(head[j], rules, 0, t, net, gen)
  {
    hide LayersFor, PermKey, IsDeny, IsWebsocket, Before;
    var head := Head(rules, net, gen, promoted);
    forall j | 0 <= j < t ensures Before(head[j], rules, 0, t, net, gen) {
      StackBefore(rules, j, t, net, gen);
    }
  }

  lemma StackBefore(rules: seq<Rule>, j: nat, t: nat, net: Net, gen: Gen)
    requires rules != [] && j < t < |LayersFor(rules[0], net, gen)|
    ensures Before(StackOf(rules[0], j, net, gen), rules, 0, t, net, gen)
  {
    hide LayersFor, PermKey;
    assert Made(StackOf(rules[0], j, net, gen), j, net, gen);
  }

  lemma EmittedBefore(rules: seq<Rule>, i: nat, t: nat, net: Net, gen: Gen, q: Perm)
    requires 0 < i < |rules| && Emits(rules[0], q, net, gen)
    ensures Before(q, rules, i, t, net, gen)
  {
    hide Emits, Made;
  }

  // ---------------------------------------------------------------- finding a virtual host

  /** The k-th permutation runs, and nothing before it brings a host of this name. */
  lemma {:induction false} HostsFind(ps: seq<Perm>, k: nat, net: Net, n: string, m: Match, seen: set<string>, name: string)
    requires k < |ps| && ps[k].key !in seen && First(BroughtTo(ps[k], net, n, m), name).Some?
    requires forall j :: 0 <= j < k ==> ps[j].key != ps[k].key && First(BroughtTo(ps[j], net, n, m), name).None?
    ensures First(Hosts(ps, net, n, m, seen), name) == First(BroughtTo(ps[k], net, n, m), name)
    decreases k
  {
    hide BroughtTo, First;
    if ps[0].key !in seen {
      FirstAppend(BroughtTo(ps[0], net, n, m), Hosts(ps[1..], net, n, m, seen + {ps[0].key}), name);
    }
    if k > 0 {
      assert ps[1..][k - 1] == ps[k];
      HostsFind(ps[1..], k - 1, net, n, m, if ps[0].key in seen then seen else seen + {ps[0].key}, name);
    }
  }

  /** And its clusters are in the tree, as it defines them. */
  lemma {:induction false} RanClusters(ps: seq<Perm>, k: nat, net: Net, ports: EnvoyPorts, c: Config, seen: set<string>)
    requires k < |ps| && ps[k].key !in seen && Web(ps[k]) && RunPerms(ps, net, ports, c, seen).Some?
    requires WellFormed(c) && forall j :: 0 <= j < k ==> ps[j].key != ps[k].key
    ensures var c' := RunPerms(ps, net, ports, c, seen).value;
            forall e :: e in WebBase(ps[k], net).clusters ==> e.0 in c'.clusters && c'.clusters[e.0] == e.1
    decreases k
  {
    hide RunPerm, WebBase, Web, WellFormed;
    if k == 0 {
      PermClusters(ps[0], net, ports, c);
      PermKeepsStructure(ps[0], net, ports, c);
      RunKeepsStructure(ps[1..], net, ports, RunPerm(ps[0], net, ports, c).value, seen + {ps[0].key});
    } else {
      assert ps[1..][k - 1] == ps[k];
      if ps[0].key in seen {
        RanClusters(ps[1..], k - 1, net, ports, c, seen);
      } else {
        PermKeepsStructure(ps[0], net, ports, c);
        RanClusters(ps[1..], k - 1, net, ports, RunPerm(ps[0], net, ports, c).value, seen + {ps[0].key});
      }
    }
  }

  lemma PermClusters(p: Perm, net: Net, ports: EnvoyPorts, c: Config)
    requires Web(p) && RunPerm(p, net, ports, c).Some?
    ensures var c' := RunPerm(p, net, ports, c).value;
            forall e :: e in WebBase(p, net).clusters ==> e.0 in c'.clusters && c'.clusters[e.0] == e.1
  {
    hide RunLayers, AddClusters, AddToChains, Web, WebBase, Brought;
    WebRuns(p, net, ports, c);
    var (ctx, c1) := RunLayers(p.layers, p.rule, net, ports, NEW_CTX, c).value;
    AddClustersKeeps(c1, ctx.clusters);
  }

  lemma {:induction false} HostsFrom(ps: seq<Perm>, net: Net, n: string, m: Match, seen: set<string>, v: VHost)
    requires v in Hosts(ps, net, n, m, seen)
    ensures exists p :: p in ps && v in BroughtTo(p, net, n, m)
  {
    hide BroughtTo;
    if ps[0].key in seen {
      HostsFrom(ps[1..], net, n, m, seen, v);
    } else if v !in BroughtTo(ps[0], net, n, m) {
      HostsFrom(ps[1..], net, n, m, seen + {ps[0].key}, v);
    }
  }

  // ---------------------------------------------------------------- the first rule of a chain and name

  /** Rules as validation and normalisation leave them. */
  predicate Sane(rules: seq<Rule>) {
    forall r :: r in rules ==> Validated(r) && !ParsePortSpec(r.port).Malformed?
  }

  /** s asks the chain of r for a virtual host of the same name; a websocket rule that rides on
      r itself asks for none. */
  predicate Rival(s: Rule, r: Rule, net: Net, exact: set<string>) {
    && !IsDeny(s) && (WebRule(s) || IsWebsocket(s))
    && WebMatch(s, net, exact, 0) == WebMatch(r, net, exact, 0)
    && VirtualHostName(s.dst, WebPort(s)) == VirtualHostName(r.dst, WebPort(r))
    && !(IsWebsocket(s) && OriginKey(s) == OriginKey(r))
  }

  /** An allowed http(s) rule that no earlier rule rivals. */
  predicate Standing(rules: seq<Rule>, i: nat, net: Net, exact: set<string>)
    requires i < |rules|
  {
    WebRule(rules[i]) && Allows(rules[i]) && forall j :: 0 <= j < i ==> !Rival(rules[j], rules[i], net, exact)
  }

  lemma StandsAlike(e: Rule, s: Rule, net: Net, exact: set<string>, t: nat)
    requires StandsFor(e, s) && WebRule(e)
    ensures e.dst == s.dst && (WebRule(s) || IsWebsocket(s)) && !IsOpaque(s)
    ensures WebMatch(e, net, exact, t) == WebMatch(s, net, exact, t) && WebPort(e) == WebPort(s)
  {
    assert Lower("http") == "http" && Lower("https") == "https";
    assert IsHttps(e) <==> IsHttps(s);
    hide Lower, ParsePortSpec, CryptoMatch;
  }

  lemma MatchEveryStack(r: Rule, s: Rule, net: Net, exact: set<string>, t: nat)
    requires WebMatch(r, net, exact, t) == WebMatch(s, net, exact, t)
    ensures WebMatch(r, net, exact, 0) == WebMatch(s, net, exact, 0)
  {
    hide IsHttps, HttpPort, HttpsPort, ServerNames;
  }

  lemma SameTextSameStack(e: Rule, r: Rule, net: Net, exact: set<string>, t: nat)
    requires e.dst == r.dst && e.port == r.port && Lower(e.proto) == Lower(r.proto)
    ensures WebMatch(e, net, exact, t) == WebMatch(r, net, exact, t) && WebPort(e) == WebPort(r)
  {
    hide Lower, ParsePortSpec, ServerNames;
  }

  lemma BaseIsOrigin(rules: seq<Rule>, i: nat, net: Net, ports: EnvoyPorts)
    requires i < |rules| && WebRule(rules[i]) && Allows(rules[i])
    ensures OriginKey(rules[i]) in GenFacts(rules, net, ports).baseOrigins && !IsDeny(rules[i]) && !IsWebsocket(rules[i])
  {
    hide PortTable, Mappings, OriginKey;
  }

  /** An allowed websocket rule names the same destination and port. */
  ghost predicate Upgrades(rules: seq<Rule>, r: Rule) {
    exists s :: && s in rules && (Lower(s.action) == "allow" || s.action == "") && (Lower(s.proto) == "ws" || Lower(s.proto) == "wss")
                && s.dst == r.dst && WebPort(s) == WebPort(r)
  }

  lemma OriginIsPort(r: Rule)
    requires WebRule(r) || IsWebsocket(r)
    ensures OriginKey(r) == PortKey(r.dst, WebPort(r))
  {
    hide ParsePortSpec, Lower, PortText;
  }

  /** What the whole list decides for one rule: a host is owned by an allowed exact https or wss
      rule, and an origin takes websockets if an allowed websocket rule names it. */
  lemma FactsExactly(rules: seq<Rule>, net: Net, ports: EnvoyPorts, r: Rule, d: string)
    requires WebRule(r)
    ensures OriginKey(r) in GenFacts(rules, net, ports).wsOrigins <==> Upgrades(rules, r)
    ensures d in GenFacts(rules, net, ports).exact <==>
            exists s :: && s in rules && (Lower(s.action) == "allow" || s.action == "") && (Lower(s.proto) == "https" || Lower(s.proto) == "wss")
                        && !IsWildcard(s.dst) && NormalizeDomain(s.dst) == d
  {
    hide PortTable, Mappings, OriginKey, NormalizeDomain, IsWildcard, WebPort, Lower, PortText;
    OriginIsPort(r);
    forall s | s in rules && Allows(s) && IsWebsocket(s)
      ensures OriginKey(s) == OriginKey(r) <==> s.dst == r.dst && WebPort(s) == WebPort(r)
    {
      OriginIsPort(s);
      if OriginKey(s) == OriginKey(r) {
        PortKeyInjective(s.dst, WebPort(s), r.dst, WebPort(r));
      }
    }
  }

  /** Two stacks that meet on one chain with one name belong to rivals. */
  lemma MeetingIsRivalry(s: Rule, q: Perm, u: nat, r: Rule, t: nat, net: Net, gen: Gen)
    requires Emits(s, q, net, gen) && WebRule(q.rule) && OriginKey(r) in gen.baseOrigins
    requires WebMatch(q.rule, net, gen.exact, t) == WebMatch(r, net, gen.exact, t)
    requires VirtualHostName(q.rule.dst, WebPort(q.rule)) == VirtualHostName(r.dst, WebPort(r))
    ensures Rival(s, r, net, gen.exact)
  {
    hide WebRule, IsWebsocket, WebMatch, WebPort, VirtualHostName, OriginKey, IsDeny, IsOpaque, StandsFor;
    StandsAlike(q.rule, s, net, gen.exact, t);
    MatchEveryStack(q.rule, r, net, gen.exact, t);
    StandsAlike(q.rule, s, net, gen.exact, 0);
  }

  lemma BroughtNamed(q: Perm, u: nat, net: Net, gen: Gen, n: string, m: Match, name: string)
    requires PlacedAt(q, u, net, gen) && name != DENY_ALL.name
    requires First(BroughtTo(q, net, n, m), name).Some?
    ensures n == WebListener(u) && m == WebMatch(q.rule, net, gen.exact, u)
    ensures name == VirtualHostName(q.rule.dst, WebPort(q.rule))
  {
    hide WebUpstream, WebMatch, VirtualHostName, WebPort, BarePort, HttpDomains, OriginKey, WebBase, Web, Brought;
  }

  lemma EarlierRuleHarmless(rules: seq<Rule>, i: nat, t: nat, net: Net, gen: Gen, j: nat, q: Perm)
    requires Sane(rules) && j < i < |rules| && Standing(rules, i, net, gen.exact) && OriginKey(rules[i]) in gen.baseOrigins
    requires Emits(rules[j], q, net, gen) && t < |LayersFor(rules[i], net, gen)| && t <= 1
    ensures q.key != PermKey(rules[i], t)
    ensures First(BroughtTo(q, net, WebListener(t), WebMatch(rules[i], net, gen.exact, t)), VirtualHostName(rules[i].dst, WebPort(rules[i]))).None?
  {
    hide LayersFor, PermKey, Rival, WebMatch, WebPort, VirtualHostName, OriginKey, IsDeny, IsOpaque, IsWebsocket, StandsFor, Lower, ParsePortSpec, PlacedAt, Web, BroughtTo, Allows, Supported, PlainAction, Validated;
    var r, s := rules[i], rules[j];
    assert r in rules && s in rules;
    var u: nat :| Made(q, u, net, gen);
    NotDenyAll(r.dst, WebPort(r));
    var name := VirtualHostName(r.dst, WebPort(r));
    if q.key == PermKey(r, t) {
      KeyTells(q, u, s, r, t, net, gen);
      SameTextSameStack(q.rule, r, net, gen.exact, t);
      NameTold(q.rule, r);
      MeetingIsRivalry(s, q, u, r, t, net, gen);
    }
    if First(BroughtTo(q, net, WebListener(t), WebMatch(r, net, gen.exact, t)), name).Some? {
      if !WebRule(q.rule) {
        OpaqueBringsNothing(q, u, net, gen);
        BringsNothing(q, net, WebListener(t), WebMatch(r, net, gen.exact, t), name);
      } else {
        MadePlaced(q, u, net, gen);
        BroughtNamed(q, u, net, gen, WebListener(t), WebMatch(r, net, gen.exact, t), name);
        StackApart(q, u, t, net, gen);
        MeetingIsRivalry(s, q, u, r, t, net, gen);
      }
    }
  }

  lemma StackApart(q: Perm, u: nat, t: nat, net: Net, gen: Gen)
    requires PlacedAt(q, u, net, gen) && t <= 1 && WebListener(u) == WebListener(t)
    ensures u == t
  {
    hide WebUpstream, WebMatch, VirtualHostName, WebPort, BarePort, HttpDomains, OriginKey, WebBase, Web, Brought;
  }

  lemma BringsNothing(q: Perm, net: Net, n: string, m: Match, name: string)
    requires !Web(q)
    ensures First(BroughtTo(q, net, n, m), name).None?
  {
    hide Web;
  }

  lemma NameTold(e: Rule, r: Rule)
    requires e.dst == r.dst && WebPort(e) == WebPort(r)
    ensures VirtualHostName(e.dst, WebPort(e)) == VirtualHostName(r.dst, WebPort(r))
  {
  }

  lemma ValidatedPlain(r: Rule)
    requires Validated(r)
    ensures PlainAction(r)
  {
    assert Lower("") == "";
  }

  /** An equal key is an equal destination, port, protocol and stack. */
  lemma KeyTells(q: Perm, u: nat, s: Rule, r: Rule, t: nat, net: Net, gen: Gen)
    requires Made(q, u, net, gen) && StandsFor(q.rule, s) && q.key == PermKey(r, t) && WebRule(r)
    requires Validated(s) && Validated(r) && !ParsePortSpec(s.port).Malformed? && !ParsePortSpec(r.port).Malformed?
    ensures q.rule.dst == r.dst && q.rule.port == r.port && Lower(q.rule.proto) == Lower(r.proto) && u == t && WebRule(q.rule)
  {
    hide LayersFor, PermKey, Lower, ParsePortSpec, Validated;
    RowsLawful(q.rule, net, gen);
    ValidatedPlain(s);
    ValidatedPlain(r);
    PermKeyInjective(q.rule, u, r, t);
  }

  lemma EarlierStackHarmless(r: Rule, t: nat, net: Net, gen: Gen, u: nat, q: Perm)
    requires WebRule(r) && Validated(r) && !ParsePortSpec(r.port).Malformed? && q.rule == r && Made(q, u, net, gen) && u < t <= 1
    ensures q.key != PermKey(r, t)
    ensures First(BroughtTo(q, net, WebListener(t), WebMatch(r, net, gen.exact, t)), VirtualHostName(r.dst, WebPort(r))).None?
  {
    hide LayersFor, PermKey, WebMatch, WebPort, VirtualHostName, Lower, ParsePortSpec, PlacedAt, BroughtTo, Validated;
    ValidatedPlain(r);
    var name := VirtualHostName(r.dst, WebPort(r));
    NotDenyAll(r.dst, WebPort(r));
    MadePlaced(q, u, net, gen);
    if q.key == PermKey(r, t) {
      PermKeyInjective(r, u, r, t);
    }
    if First(BroughtTo(q, net, WebListener(t), WebMatch(r, net, gen.exact, t)), name).Some? {
      BroughtNamed(q, u, net, gen, WebListener(t), WebMatch(r, net, gen.exact, t), name);
      StackApart(q, u, t, net, gen);
    }
  }

  lemma BeforeHarmless(rules: seq<Rule>, i: nat, t: nat, net: Net, gen: Gen, q: Perm)
    requires Sane(rules) && i < |rules| && Standing(rules, i, net, gen.exact) && OriginKey(rules[i]) in gen.baseOrigins
    requires t < |LayersFor(rules[i], net, gen)| && t <= 1 && Before(q, rules, i, t, net, gen)
    ensures q.key != PermKey(rules[i], t)
    ensures First(BroughtTo(q, net, WebListener(t), WebMatch(rules[i], net, gen.exact, t)), VirtualHostName(rules[i].dst, WebPort(rules[i]))).None?
  {
    hide LayersFor, PermKey, WebMatch, WebPort, VirtualHostName, OriginKey, Emits, Made, BroughtTo, Rival, Validated, ParsePortSpec;
    assert rules[i] in rules;
    if j :| 0 <= j < i && Emits(rules[j], q, net, gen) {
      EarlierRuleHarmless(rules, i, t, net, gen, j, q);
    } else {
      var u: nat :| u < t && Made(q, u, net, gen);
      EarlierStackHarmless(rules[i], t, net, gen, u, q);
    }
  }

  lemma StacksOf(r: Rule, t: nat, net: Net, gen: Gen)
    requires WebRule(r) && t < |LayersFor(r, net, gen)|
    ensures PlacedAt(StackOf(r, t, net, gen), t, net, gen)
  {
    hide LayersFor, PermKey, PlacedAt, Lower;
    assert Made(StackOf(r, t, net, gen), t, net, gen);
    MadePlaced(StackOf(r, t, net, gen), t, net, gen);
  }

  /** The stack brings the rule's virtual host to the rule's chain, first of its name. */
  lemma StackBrings(r: Rule, t: nat, net: Net, gen: Gen)
    requires WebRule(r) && t < |LayersFor(r, net, gen)|
    ensures First(BroughtTo(StackOf(r, t, net, gen), net, WebListener(t), WebMatch(r, net, gen.exact, t)), HostOf(r, net, OriginKey(r) in gen.wsOrigins).name)
            == Some(HostOf(r, net, OriginKey(r) in gen.wsOrigins))
  {
    hide LayersFor, PermKey, Lower, WebBase, Web, Brought, WebMatch, WebUpstream, VirtualHostName, HttpDomains, WebPort, BarePort, OriginKey;
    StacksOf(r, t, net, gen);
  }

  /** The k-th permutation is the stack, runs, and is the first to bring its name. */
  lemma StackRunsFirst(rules: seq<Rule>, i: nat, t: nat, net: Net, ports: EnvoyPorts) returns (k: nat)
    requires Sane(rules) && i < |rules| && Standing(rules, i, net, GenFacts(rules, net, ports).exact)
    requires t < |LayersFor(rules[i], net, GenFacts(rules, net, ports))|
    ensures var ps, gen := Perms(rules, net, ports), GenFacts(rules, net, ports);
            && k < |ps| && ps[k] == StackOf(rules[i], t, net, gen) && t <= 1
            && forall j :: 0 <= j < k ==>
                 ps[j].key != ps[k].key
                 && First(BroughtTo(ps[j], net, WebListener(t), WebMatch(rules[i], net, gen.exact, t)), VirtualHostName(rules[i].dst, WebPort(rules[i]))).None?
  {
    hide LayersFor, PermKey, Derive, GenFacts, WebMatch, WebPort, VirtualHostName, OriginKey, BroughtTo, First, Sane, Rival, Before, IsDeny, IsWebsocket, PlacedAt;
    var gen := GenFacts(rules, net, ports);
    BaseIsOrigin(rules, i, net, ports);
    StacksOf(rules[i], t, net, gen);
    AtMostTwo(StackOf(rules[i], t, net, gen), t, net, gen);
    k := StackPosition(rules, i, t, net, gen, {});
    forall j | 0 <= j < k
      ensures Perms(rules, net, ports)[j].key != PermKey(rules[i], t)
      ensures First(BroughtTo(Perms(rules, net, ports)[j], net, WebListener(t), WebMatch(rules[i], net, gen.exact, t)), VirtualHostName(rules[i].dst, WebPort(rules[i]))).None?
    {
      BeforeHarmless(rules, i, t, net, gen, Perms(rules, net, ports)[j]);
    }
  }

  lemma AtMostTwo(q: Perm, t: nat, net: Net, gen: Gen)
    requires PlacedAt(q, t, net, gen)
    ensures t <= 1 && Web(q) && WebBase(q, net).clusters == [WebUpstream(q.rule, net, OriginKey(q.rule) in gen.wsOrigins)]
  {
    hide Web, WebBase, Brought, WebUpstream, WebMatch, OriginKey, HostOf;
  }

  /** The virtual host of an allowed http(s) rule without an earlier rival is in its chain, on
      each of its listeners, and forwards to the rule's own upstream. */
  lemma RuleHosted(rules: seq<Rule>, i: nat, t: nat, net: Net, ports: EnvoyPorts)
    requires Generate(rules, net, ports).Some? && Sane(rules) && i < |rules|
    requires Standing(rules, i, net, GenFacts(rules, net, ports).exact) && t < |LayersFor(rules[i], net, GenFacts(rules, net, ports))|
    ensures var cfg, gen, r := Generate(rules, net, ports).value, GenFacts(rules, net, ports), rules[i];
            var up := WebUpstream(r, net, OriginKey(r) in gen.wsOrigins);
            && HostOf(r, net, OriginKey(r) in gen.wsOrigins) in HostsIn(cfg, WebListener(t), WebMatch(r, net, gen.exact, t))
            && up.0 in cfg.clusters && cfg.clusters[up.0] == up.1
  {
    hide LayersFor, PermKey, Derive, GenFacts, RunPerms, WebMatch, WebUpstream, WebPort, BarePort, VirtualHostName, HttpDomains, OriginKey, BroughtTo, First, Sane, Rival, PlacedAt, HostsIn, Hosts, UniqueNames, Web, WebBase, WebListener;
    var gen, r, ps := GenFacts(rules, net, ports), rules[i], Perms(rules, net, ports);
    var n, m := WebListener(t), WebMatch(r, net, gen.exact, t);
    var k := StackRunsFirst(rules, i, t, net, ports);
    StackBrings(r, t, net, gen);
    HostsFind(ps, k, net, n, m, {}, HostOf(r, net, OriginKey(r) in gen.wsOrigins).name);
    ChainHosts(rules, net, ports, n, m);
    StacksOf(r, t, net, gen);
    AtMostTwo(ps[k], t, net, gen);
    RanClusters(ps, k, net, ports, Config(map[], map[]), {});
    var up := WebUpstream(r, net, OriginKey(r) in gen.wsOrigins);
    assert up in WebBase(ps[k], net).clusters;
  }

  // ---------------------------------------------------------------- every virtual host has its rule

  /** e is what a rule of the list runs as, on the chain with match m. */
  ghost predicate Asks(rules: seq<Rule>, s: Rule, e: Rule, net: Net, exact: set<string>, t: nat, m: Match) {
    s in rules && StandsFor(e, s) && WebRule(e) && !IsDeny(s) && WebMatch(e, net, exact, t) == m
  }

  ghost predicate Asked(rules: seq<Rule>, v: VHost, net: Net, gen: Gen, t: nat, m: Match) {
    exists s, e :: Asks(rules, s, e, net, gen.exact, t, m) && v == HostOf(e, net, OriginKey(e) in gen.wsOrigins)
  }

  lemma BroughtAsked(rules: seq<Rule>, net: Net, gen: Gen, t: nat, m: Match, p: Perm, s: Rule, v: VHost)
    requires t <= 1 && s in rules && From(p, s, net, gen) && (IsDeny(s) ==> IsOpaque(s))
    requires v in BroughtTo(p, net, WebListener(t), m)
    ensures v == DENY_ALL || Asked(rules, v, net, gen, t, m)
  {
    hide LayersFor, PermKey, WebMatch, OriginKey, IsDeny, IsOpaque, StandsFor, Lower, Web, HostOf, WebUpstream, WebBase, Brought;
    var u: nat :| Made(p, u, net, gen);
    if !WebRule(p.rule) {
      OpaqueBringsNothing(p, u, net, gen);
    }
    MadePlaced(p, u, net, gen);
    assert u == t;
    StandsAlike(p.rule, s, net, gen.exact, t);
    assert Asks(rules, s, p.rule, net, gen.exact, t, m);
  }

  /** In the generated tree every virtual host but the catch-all is one a rule asks for. */
  lemma HostsAsked(rules: seq<Rule>, net: Net, ports: EnvoyPorts, t: nat, m: Match, v: VHost)
    requires Generate(rules, net, ports).Some? && t <= 1
    requires v in HostsIn(Generate(rules, net, ports).value, WebListener(t), m)
    ensures v == DENY_ALL || Asked(rules, v, net, GenFacts(rules, net, ports), t, m)
  {
    hide LayersFor, Derive, GenFacts, RunPerms, BroughtTo, First, HostsIn, Hosts, UniqueNames, Asked, From, WebListener, IsDeny, IsOpaque;
    var gen, ps := GenFacts(rules, net, ports), Perms(rules, net, ports);
    ChainHosts(rules, net, ports, WebListener(t), m);
    HostsFrom(ps, net, WebListener(t), m, {}, v);
    var p :| p in ps && v in BroughtTo(p, net, WebListener(t), m);
    DerivedRules(rules, net, gen, {});
    var s :| s in rules && From(p, s, net, gen) && (IsDeny(s) ==> IsOpaque(s));
    BroughtAsked(rules, net, gen, t, m, p, s, v);
  }
}

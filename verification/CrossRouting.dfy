/** No cross-routing: an HTTP virtual host that forwards to a pinned upstream claims the
    authority of that very host and port, and of no other. */
module CrossRouting {
  import opened Text
  import opened Rules
  import opened Dedicated
  import opened EnvoyConfig
  import opened Generator
  import opened Lockstep
  import opened LockstepRules
  import opened References

  /** What a virtual host may claim when it forwards to this cluster: host:port, and the bare
      host on a default port. */
  predicate Faithful(v: VHost, body: Cluster) {
    body.Pinned? ==>
      forall d :: d in v.domains ==>
        d == body.host + ":" + PortText(body.port)
        || (d == body.host && (body.port == HTTP_PORT || body.port == DEFAULT_DEST_PORT))
  }

  ghost predicate FaithfulTo(vhosts: seq<VHost>, clusters: map<string, Cluster>) {
    forall v :: v in vhosts && v.cluster != "" && v.cluster in clusters ==> Faithful(v, clusters[v.cluster])
  }

  ghost predicate ChainFaithful(ch: Chain, clusters: map<string, Cluster>) {
    ch.terminal.Hcm? ==> FaithfulTo(ch.terminal.vhosts, clusters)
  }

  ghost predicate NoCross(listeners: map<string, Listener>, clusters: map<string, Cluster>) {
    forall n, ch :: n in listeners && ch in listeners[n].chains ==> ChainFaithful(ch, clusters)
  }

  // ---------------------------------------------------------------- the order of layers in a row

  /** The origin port the listener layers of a row settle on. */
  function PortAfter(l: Layer, r: Rule, port: int): int {
    match l
    case TcpEgress => HttpPort(r)
    case PrefixRange(p) => p
    case TlsSni(_) => HttpsPort(r)
    case QuicSni(_) => HttpsPort(r)
    case DedicatedListener(_, _, p) => p
    case _ => port
  }

  /** A layer that pins an HTTP upstream pins the port the listener settled on, for one host;
      listeners come before pins, and the HTTP manager comes last. */
  predicate OrderlyLayer(l: Layer, r: Rule, net: Net, port: int, pinned: bool, last: bool) {
    && (l.HttpExact? ==> port == HttpPort(r))
    && (l.HttpsExact? ==> port == HttpsPort(r))
    && (l.HttpExact? || l.HttpsExact? ==> !IsWildcard(r.dst) && net.kind(r.dst) != Cidr)
    && !l.PinnedUpstream?
    && (pinned ==> !ListenerLayer(l))
    && (l.HttpApp? ==> last)
  }

  predicate Orderly(ls: seq<Layer>, r: Rule, net: Net, port: int, pinned: bool) {
    ls == []
    || (OrderlyLayer(ls[0], r, net, port, pinned, |ls| == 1)
        && Orderly(ls[1..], r, net, PortAfter(ls[0], r, port), pinned || ls[0].HttpExact? || ls[0].HttpsExact?))
  }

  // ---------------------------------------------------------------- contexts

  /** The pins a context brings are of the rule's host and the context's port. */
  ghost predicate PinsHost(ctx: Ctx, r: Rule, net: Net, pinned: bool) {
    && (ctx.bareHostPort == 0 || ctx.bareHostPort == HTTP_PORT || ctx.bareHostPort == DEFAULT_DEST_PORT)
    && (forall e :: e in ctx.clusters && e.1.Pinned? ==> pinned && e.1.host == NormalizeDomain(r.dst) && e.1.port == ctx.port)
    && (pinned ==> !IsWildcard(r.dst) && net.kind(r.dst) != Cidr && ctx.port != 0)
  }

  ghost predicate CtxFaithful(ctx: Ctx) {
    ctx.terminal.Some? && ctx.terminal.value.Hcm? ==>
      forall v, e :: v in ctx.terminal.value.vhosts && v.cluster != "" && e in ctx.clusters && e.0 == v.cluster ==> Faithful(v, e.1)
  }

  predicate NoManager(ctx: Ctx) { ctx.terminal.Some? ==> ctx.terminal.value.Proxy? }

  lemma HttpDomainsExact(dst: string, port: int, bare: int)
    requires !IsWildcard(dst) && (bare == 0 || bare == HTTP_PORT || bare == DEFAULT_DEST_PORT) && port != 0
    ensures forall d :: d in HttpDomains(dst, port, bare) ==>
              d == NormalizeDomain(dst) + ":" + PortText(port)
              || (d == NormalizeDomain(dst) && (port == HTTP_PORT || port == DEFAULT_DEST_PORT))
  {
    hide NormalizeDomain, PortText;
  }

  lemma PortsSet(r: Rule)
    ensures HttpPort(r) >= 1 && HttpsPort(r) >= 1
  {
    hide ParsePortSpec;
  }

  lemma AppFaithful(r: Rule, net: Net, ctx: Ctx, pinned: bool)
    requires PinsHost(ctx, r, net, pinned)
    ensures CtxFaithful(ctx.(terminal := Some(Hcm(AppVHosts(r, net, ctx)))))
  {
    hide VirtualHostName, HttpDomains, NormalizeDomain, PortText, IsWildcard;
    if pinned {
      HttpDomainsExact(r.dst, ctx.port, ctx.bareHostPort);
    }
  }

  lemma ListeningOrderly(l: Layer, r: Rule, net: Net, ports: EnvoyPorts, ctx: Ctx, c: Config)
    requires ListenerLayer(l) && PinsHost(ctx, r, net, false) && RunLayer(l, r, net, ports, ctx, c).Some?
    ensures var ctx' := RunLayer(l, r, net, ports, ctx, c).value.0;
            ctx'.port == PortAfter(l, r, ctx.port) && PinsHost(ctx', r, net, false) && ctx'.terminal == ctx.terminal
  {
    hide NormalizeDomain, NameFor, SlotName, CryptoMatch, HttpPort, HttpsPort, IsWildcard, EnsureListener;
  }

  lemma PinOrderly(ctx: Ctx, r: Rule, net: Net, pinned: bool, name: string, body: Cluster)
    requires PinsHost(ctx, r, net, pinned)
    requires body.Pinned? ==> !IsWildcard(r.dst) && net.kind(r.dst) != Cidr && ctx.port != 0
                              && body.host == NormalizeDomain(r.dst) && body.port == ctx.port
    ensures PinsHost(WithUpstream(ctx, name, body), r, net, pinned || body.Pinned?)
    ensures WithUpstream(ctx, name, body).port == ctx.port && WithUpstream(ctx, name, body).terminal == ctx.terminal
  {
    hide NormalizeDomain, IsWildcard;
  }

  lemma UpstreamOrderly(l: Layer, r: Rule, net: Net, ports: EnvoyPorts, ctx: Ctx, c: Config, pinned: bool, last: bool)
    requires OrderlyLayer(l, r, net, ctx.port, pinned, last) && PinsHost(ctx, r, net, pinned) && !ListenerLayer(l) && !TerminalLayer(l)
    requires RunLayer(l, r, net, ports, ctx, c).Some?
    ensures var ctx' := RunLayer(l, r, net, ports, ctx, c).value.0;
            && ctx'.port == ctx.port && PinsHost(ctx', r, net, pinned || l.HttpExact? || l.HttpsExact?) && ctx'.terminal == ctx.terminal
  {
    hide NormalizeDomain, NameFor, SlotName, CryptoMatch, HttpPort, HttpsPort, IsWildcard, EnsureListener, WithUpstream, PinsHost;
    PortsSet(r);
    if l == WsEnrich {
      WsKeepsPins(ctx, r, net, pinned);
    } else {
      var (name, body) := Upstream(l, r, net, ctx);
      PinOrderly(ctx, r, net, pinned, name, body);
    }
  }

  lemma WsKeepsPins(ctx: Ctx, r: Rule, net: Net, pinned: bool)
    requires PinsHost(ctx, r, net, pinned)
    ensures PinsHost(ctx.(websocket := true), r, net, pinned)
  {
    hide NormalizeDomain, IsWildcard;
  }

  lemma EndingOrderly(l: Layer, r: Rule, net: Net, ports: EnvoyPorts, ctx: Ctx, c: Config, pinned: bool)
    requires TerminalLayer(l) && PinsHost(ctx, r, net, pinned) && NoManager(ctx) && RunLayer(l, r, net, ports, ctx, c).Some?
    ensures var ctx' := RunLayer(l, r, net, ports, ctx, c).value.0;
            && ctx'.port == ctx.port
            && (l.HttpApp? ==> CtxFaithful(ctx'))
            && (!l.HttpApp? ==> PinsHost(ctx', r, net, pinned) && NoManager(ctx'))
  {
    hide NormalizeDomain, NameFor, SlotName, CryptoMatch, HttpPort, HttpsPort, IsWildcard, EnsureListener, AppVHosts, SetUdpTarget, CtxFaithful;
    if l.HttpApp? {
      AppFaithful(r, net, ctx, pinned);
    }
  }

  lemma OrderlyStep(l: Layer, r: Rule, net: Net, ports: EnvoyPorts, ctx: Ctx, c: Config, pinned: bool, last: bool)
    requires OrderlyLayer(l, r, net, ctx.port, pinned, last) && PinsHost(ctx, r, net, pinned) && NoManager(ctx)
    requires RunLayer(l, r, net, ports, ctx, c).Some?
    ensures var ctx' := RunLayer(l, r, net, ports, ctx, c).value.0;
            && ctx'.port == PortAfter(l, r, ctx.port)
            && (l.HttpApp? ==> CtxFaithful(ctx'))
            && (!l.HttpApp? ==> PinsHost(ctx', r, net, pinned || l.HttpExact? || l.HttpsExact?) && NoManager(ctx'))
  {
    hide RunLayer, PinsHost, CtxFaithful, HttpPort, HttpsPort, IsWildcard;
    if ListenerLayer(l) {
      ListeningOrderly(l, r, net, ports, ctx, c);
    } else if TerminalLayer(l) {
      EndingOrderly(l, r, net, ports, ctx, c, pinned);
    } else {
      UpstreamOrderly(l, r, net, ports, ctx, c, pinned, last);
    }
  }

  lemma {:induction false} OrderlyRun(ls: seq<Layer>, r: Rule, net: Net, ports: EnvoyPorts, ctx: Ctx, c: Config, pinned: bool)
    requires Orderly(ls, r, net, ctx.port, pinned) && PinsHost(ctx, r, net, pinned) && NoManager(ctx)
    requires RunLayers(ls, r, net, ports, ctx, c).Some?
    ensures CtxFaithful(RunLayers(ls, r, net, ports, ctx, c).value.0)
    decreases |ls|
  {
    hide RunLayer, OrderlyLayer, PinsHost, PortAfter;
    if ls != [] {
      OrderlyStep(ls[0], r, net, ports, ctx, c, pinned, |ls| == 1);
      var (ctx', c') := RunLayer(ls[0], r, net, ports, ctx, c).value;
      if ls[0].HttpApp? {
        AppIsLast(ls, r, net, ctx.port, pinned);
        assert RunLayers([], r, net, ports, ctx', c') == Some((ctx', c'));
      } else {
        OrderlyRun(ls[1..], r, net, ports, ctx', c', pinned || ls[0].HttpExact? || ls[0].HttpsExact?);
      }
    }
  }

  lemma AppIsLast(ls: seq<Layer>, r: Rule, net: Net, port: int, pinned: bool)
    requires ls != [] && Orderly(ls, r, net, port, pinned) && ls[0].HttpApp?
    ensures ls[1..] == []
  {
  }

  // ---------------------------------------------------------------- the tree while layers run

  /** Layers make empty listeners and set UDP targets; chains and clusters stay. */
  ghost predicate SameChains(c: Config, c': Config) {
    && c'.clusters == c.clusters
    && (forall n :: n in c.listeners ==> n in c'.listeners && c'.listeners[n].chains == c.listeners[n].chains)
    && (forall n :: n in c'.listeners && n !in c.listeners ==> c'.listeners[n].chains == [])
  }

  lemma LayerSameChains(l: Layer, r: Rule, net: Net, ports: EnvoyPorts, ctx: Ctx, c: Config)
    requires RunLayer(l, r, net, ports, ctx, c).Some?
    ensures SameChains(c, RunLayer(l, r, net, ports, ctx, c).value.1)
  {
    hide NormalizeDomain, NameFor, HttpPort, HttpsPort, CryptoMatch, AppVHosts, SlotName, WithUpstream;
  }

  lemma {:induction false} LayersSameChains(ls: seq<Layer>, r: Rule, net: Net, ports: EnvoyPorts, ctx: Ctx, c: Config)
    requires RunLayers(ls, r, net, ports, ctx, c).Some?
    ensures SameChains(c, RunLayers(ls, r, net, ports, ctx, c).value.1)
    decreases |ls|
  {
    hide RunLayer;
    if ls != [] {
      LayerSameChains(ls[0], r, net, ports, ctx, c);
      var (ctx', c') := RunLayer(ls[0], r, net, ports, ctx, c).value;
      LayersSameChains(ls[1..], r, net, ports, ctx', c');
    }
  }

  // ---------------------------------------------------------------- commit

  /** Old virtual hosts keep the body they were faithful to, because no cluster is redefined. */
  lemma KeptFaithful(c: Config, c1: Config, c2: Config)
    requires NoCross(c.listeners, c.clusters) && Grounded(c.listeners, c.clusters.Keys)
    requires SameChains(c, c1) && c2.listeners == c1.listeners && ClustersKept(c1, c2)
    ensures NoCross(c2.listeners, c2.clusters)
  {
    hide Faithful;
    forall n, ch | n in c2.listeners && ch in c2.listeners[n].chains ensures ChainFaithful(ch, c2.clusters) {
      assert n in c.listeners && ch in c.listeners[n].chains;
      assert Rooted(c.listeners[n], c.clusters.Keys);
      assert ChainFaithful(ch, c.clusters);
    }
  }

  lemma NewFaithful(ctx: Ctx, c1: Config, c2: Config)
    requires CtxGrounded(ctx) && CtxFaithful(ctx) && ctx.terminal.Some?
    requires forall e :: e in ctx.clusters ==> e.0 in c2.clusters && c2.clusters[e.0] == e.1
    ensures ChainFaithful(Chain(ctx.match_, ctx.terminal.value), c2.clusters)
  {
    hide Faithful;
  }

  lemma MergedFaithful(chains: seq<Chain>, chain: Chain, ch: Chain, clusters: map<string, Cluster>)
    requires (forall x :: x in chains ==> ChainFaithful(x, clusters)) && ChainFaithful(chain, clusters)
    requires AddToChains(chains, chain).Some? && ch in AddToChains(chains, chain).value
    ensures ChainFaithful(ch, clusters)
  {
    hide UnionByName, FindChain, Faithful;
    var i := FindChain(chains, chain.match_);
    if i < |chains| && ch !in chains {
      var both := chains[i].terminal.vhosts + chain.terminal.vhosts;
      assert chains[i] in chains;
      UnionByNameShape(both, {});
      assert ch.terminal == Hcm(UnionByName(both, {}));
      assert forall v :: v in both ==> v in chains[i].terminal.vhosts || v in chain.terminal.vhosts;
    }
  }

  lemma ChainNoCross(c: Config, name: string, chain: Chain)
    requires NoCross(c.listeners, c.clusters) && ChainFaithful(chain, c.clusters) && AddChain(c, name, chain).Some?
    ensures NoCross(AddChain(c, name, chain).value.listeners, AddChain(c, name, chain).value.clusters)
  {
    var chains := c.listeners[name].chains;
    forall ch | ch in AddToChains(chains, chain).value ensures ChainFaithful(ch, c.clusters) {
      MergedFaithful(chains, chain, ch, c.clusters);
    }
    hide ChainFaithful, AddToChains;
  }

  /** A row that ends in no HTTP manager makes no virtual host. */
  predicate Managerless(ls: seq<Layer>) { forall l :: l in ls ==> !l.HttpApp? }

  lemma ManagerlessStep(l: Layer, r: Rule, net: Net, ports: EnvoyPorts, ctx: Ctx, c: Config)
    requires !l.HttpApp? && NoManager(ctx) && RunLayer(l, r, net, ports, ctx, c).Some?
    ensures NoManager(RunLayer(l, r, net, ports, ctx, c).value.0)
  {
    hide NormalizeDomain, NameFor, HttpPort, HttpsPort, CryptoMatch, AppVHosts, SlotName, EnsureListener, SetUdpTarget;
  }

  lemma {:induction false} ManagerlessRun(ls: seq<Layer>, r: Rule, net: Net, ports: EnvoyPorts, ctx: Ctx, c: Config)
    requires Managerless(ls) && NoManager(ctx) && RunLayers(ls, r, net, ports, ctx, c).Some?
    ensures NoManager(RunLayers(ls, r, net, ports, ctx, c).value.0)
    decreases |ls|
  {
    hide RunLayer;
    if ls != [] {
      assert ls[0] in ls;
      ManagerlessStep(ls[0], r, net, ports, ctx, c);
      var (ctx', c') := RunLayer(ls[0], r, net, ports, ctx, c).value;
      ManagerlessRun(ls[1..], r, net, ports, ctx', c');
    }
  }

  predicate Tidy(p: Perm, net: Net) { Managerless(p.layers) || Orderly(p.layers, p.rule, net, 0, false) }

  lemma PermCtxFaithful(p: Perm, net: Net, ports: EnvoyPorts, c: Config)
    requires Tidy(p, net) && RunLayers(p.layers, p.rule, net, ports, NEW_CTX, c).Some?
    ensures CtxFaithful(RunLayers(p.layers, p.rule, net, ports, NEW_CTX, c).value.0)
  {
    hide RunLayers, Orderly, Managerless;
    if Managerless(p.layers) {
      ManagerlessRun(p.layers, p.rule, net, ports, NEW_CTX, c);
    } else {
      OrderlyRun(p.layers, p.rule, net, ports, NEW_CTX, c, false);
    }
  }

  lemma PermNoCross(p: Perm, net: Net, ports: EnvoyPorts, c: Config)
    requires NoCross(c.listeners, c.clusters) && Grounded(c.listeners, c.clusters.Keys)
    requires Tidy(p, net) && RunPerm(p, net, ports, c).Some?
    ensures NoCross(RunPerm(p, net, ports, c).value.listeners, RunPerm(p, net, ports, c).value.clusters)
  {
    hide RunLayers, AddClusters, AddChain, NoCross, Grounded, Tidy, CtxFaithful, CtxGrounded, SameChains;
    NewCtxGrounded(c);
    LayersGround(p.layers, p.rule, net, ports, NEW_CTX, c);
    LayersSameChains(p.layers, p.rule, net, ports, NEW_CTX, c);
    PermCtxFaithful(p, net, ports, c);
    var (ctx, c1) := RunLayers(p.layers, p.rule, net, ports, NEW_CTX, c).value;
    AddClustersKeeps(c1, ctx.clusters);
    var c2 := AddClusters(c1, ctx.clusters).value;
    KeptFaithful(c, c1, c2);
    if ctx.terminal.Some? {
      NewFaithful(ctx, c1, c2);
      ChainNoCross(c2, ctx.listener, Chain(ctx.match_, ctx.terminal.value));
    }
  }

  lemma {:induction false} RunNoCross(ps: seq<Perm>, net: Net, ports: EnvoyPorts, c: Config, seen: set<string>)
    requires NoCross(c.listeners, c.clusters) && Grounded(c.listeners, c.clusters.Keys)
    requires (forall p :: p in ps ==> Tidy(p, net)) && RunPerms(ps, net, ports, c, seen).Some?
    ensures var c' := RunPerms(ps, net, ports, c, seen).value;
            NoCross(c'.listeners, c'.clusters) && Grounded(c'.listeners, c'.clusters.Keys)
    decreases |ps|
  {
    hide RunPerm, NoCross, Grounded, Tidy;
    if ps != [] {
      assert ps[0] in ps;
      if ps[0].key in seen {
        RunNoCross(ps[1..], net, ports, c, seen);
      } else {
        PermGrounds(ps[0], net, ports, c);
        PermNoCross(ps[0], net, ports, c);
        RunNoCross(ps[1..], net, ports, RunPerm(ps[0], net, ports, c).value, seen + {ps[0].key});
      }
    }
  }

  // ---------------------------------------------------------------- every rule derives tidy rows

  lemma OrderlyRow(a: Layer, b: Layer, r: Rule, net: Net, gen: Gen, ws: bool)
    requires Pairing(a, b, r, net, gen)
    ensures Orderly(HttpRow(ws, a, b), r, net, 0, false)
  {
    hide HttpPort, HttpsPort, IsWildcard, Lower;
    var port := PortAfter(a, r, 0);
    var pinned := b.HttpExact? || b.HttpsExact?;
    assert Orderly([HttpApp], r, net, port, pinned) by { assert [HttpApp][1..] == []; }
    assert Orderly([b, HttpApp], r, net, port, false) by { assert [b, HttpApp][1..] == [HttpApp]; }
    assert Orderly([a, b, HttpApp], r, net, 0, false) by { assert [a, b, HttpApp][1..] == [b, HttpApp]; }
    if ws {
      assert ([WsEnrich] + [a, b, HttpApp])[1..] == [a, b, HttpApp];
    } else {
      assert [] + [a, b, HttpApp] == [a, b, HttpApp];
    }
  }

  lemma HttpRowsTidy(r: Rule, net: Net, gen: Gen)
    requires Lower(r.proto) == "http" || Lower(r.proto) == "https"
    ensures forall row :: row in LayersFor(r, net, gen) ==> Orderly(row, r, net, 0, false)
  {
    HttpRowsShape(r, net, gen);
    hide LayersFor, Orderly, Pairing, Lower, OriginKey, HttpRow;
    forall row | row in LayersFor(r, net, gen) ensures Orderly(row, r, net, 0, false) {
      var a, b :| Pairing(a, b, r, net, gen) && row == HttpRow(OriginKey(r) in gen.wsOrigins, a, b);
      OrderlyRow(a, b, r, net, gen, OriginKey(r) in gen.wsOrigins);
    }
  }

  lemma OpaqueRowsTidy(r: Rule, net: Net, gen: Gen)
    requires Lower(r.proto) != "http" && Lower(r.proto) != "https"
    ensures forall row :: row in LayersFor(r, net, gen) ==> Managerless(row)
  {
    DedicatedManagerless(Tcp, r, SlotsOf(r), gen);
    DedicatedManagerless(Udp, r, SlotsOf(r), gen);
    CidrManagerless(r);
    hide Managerless, SlotsOf, Lower, DedicatedRows, CidrRows, HttpRows, HttpsRows;
  }

  lemma CidrManagerless(r: Rule)
    ensures forall row :: row in CidrRows(r) ==> Managerless(row)
  {
    hide SlotsOf, IsDeny, FanSpan;
  }

  lemma {:induction false} DedicatedManagerless(fam: Family, r: Rule, slots: seq<Slot>, gen: Gen)
    ensures forall row :: row in DedicatedRows(fam, r, slots, gen) ==> Managerless(row)
  {
    hide PortKey, NormalizeDomain, IsDeny, Table;
    if slots != [] {
      DedicatedManagerless(fam, r, slots[1..], gen);
    }
  }

  lemma DerivedTidy(rules: seq<Rule>, net: Net, gen: Gen, promoted: set<string>, p: Perm)
    requires p in Derive(rules, net, gen, promoted)
    ensures Tidy(p, net)
  {
    hide Derive, LayersFor, PermKey, StandsFor, Orderly, Managerless, Lower;
    DeriveFrom(rules, net, gen, promoted);
    var j :| 0 <= j < |rules| && From(p, rules[j], net, gen);
    assert p.layers in LayersFor(p.rule, net, gen);
    if Lower(p.rule.proto) == "http" || Lower(p.rule.proto) == "https" {
      HttpRowsTidy(p.rule, net, gen);
    } else {
      OpaqueRowsTidy(p.rule, net, gen);
    }
  }

  /** For every rule list: in the generated tree each virtual host that forwards to a pinned
      host and port answers only to that host and port, and every named cluster is defined. */
  lemma NoCrossRouting(rules: seq<Rule>, net: Net, ports: EnvoyPorts)
    requires Generate(rules, net, ports).Some?
    ensures var cfg := Generate(rules, net, ports).value;
            NoCross(cfg.listeners, cfg.clusters) && Grounded(cfg.listeners, cfg.clusters.Keys)
  {
    hide Derive, GenFacts, RunPerms, Tidy;
    var ps := Derive(rules, net, GenFacts(rules, net, ports), {});
    forall p | p in ps ensures Tidy(p, net) {
      DerivedTidy(rules, net, GenFacts(rules, net, ports), {}, p);
    }
    RunNoCross(ps, net, ports, Config(map[], map[]), {});
  }
}

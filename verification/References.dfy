/** No dangling references: every cluster a listener sends traffic to is defined. */
module References {
  import opened Rules
  import opened Dedicated
  import opened EnvoyConfig
  import opened Generator
  import opened Lockstep

  /** Everything this terminal names is among the given cluster names. */
  ghost predicate Refers(t: Terminal, names: set<string>) {
    match t
    case Proxy(c) => c in names
    case Hcm(vhosts) => forall v :: v in vhosts ==> v.cluster == "" || v.cluster in names
  }

  ghost predicate Rooted(l: Listener, names: set<string>) {
    (forall ch :: ch in l.chains ==> Refers(ch.terminal, names)) && (l.udpTarget.Some? ==> l.udpTarget.value in names)
  }

  ghost predicate Grounded(listeners: map<string, Listener>, names: set<string>) {
    forall n :: n in listeners ==> Rooted(listeners[n], names)
  }

  /** The clusters a permutation brings but has not committed yet. */
  ghost function Brought(clusters: seq<(string, Cluster)>): set<string> { set e | e in clusters :: e.0 }

  ghost predicate CtxGrounded(ctx: Ctx) {
    && (ctx.upstream == "" || ctx.upstream in Brought(ctx.clusters))
    && (ctx.terminal.Some? ==> Refers(ctx.terminal.value, Brought(ctx.clusters)))
  }

  lemma RefersMore(t: Terminal, a: set<string>, b: set<string>)
    requires Refers(t, a) && a <= b
    ensures Refers(t, b)
  {
  }

  lemma GroundedMore(listeners: map<string, Listener>, a: set<string>, b: set<string>)
    requires Grounded(listeners, a) && a <= b
    ensures Grounded(listeners, b)
  {
    hide Refers;
    forall n, ch | n in listeners && ch in listeners[n].chains ensures Refers(ch.terminal, b) {
      RefersMore(ch.terminal, a, b);
    }
  }

  lemma BroughtMore(clusters: seq<(string, Cluster)>, name: string, body: Cluster)
    ensures Brought(clusters + [(name, body)]) == Brought(clusters) + {name}
  {
    assert forall e :: e in clusters + [(name, body)] <==> e in clusters || e == (name, body);
  }

  // ---------------------------------------------------------------- one layer

  ghost predicate LayerGrounded(ctx: Ctx, c: Config) {
    CtxGrounded(ctx) && Grounded(c.listeners, c.clusters.Keys + Brought(ctx.clusters))
  }

  lemma UpstreamGrounds(ctx: Ctx, c: Config, name: string, body: Cluster)
    requires LayerGrounded(ctx, c)
    ensures LayerGrounded(WithUpstream(ctx, name, body), c)
  {
    BroughtMore(ctx.clusters, name, body);
    var more := Brought(ctx.clusters + [(name, body)]);
    GroundedMore(c.listeners, c.clusters.Keys + Brought(ctx.clusters), c.clusters.Keys + more);
    if ctx.terminal.Some? {
      RefersMore(ctx.terminal.value, Brought(ctx.clusters), more);
    }
    hide Grounded, Refers, Brought;
  }

  lemma EnsureGrounds(c: Config, name: string, bind: int, udp: bool, names: set<string>)
    requires Grounded(c.listeners, names)
    ensures Grounded(EnsureListener(c, name, bind, udp).listeners, names)
    ensures EnsureListener(c, name, bind, udp).clusters == c.clusters
  {
    hide Refers;
  }

  lemma TargetGrounds(ctx: Ctx, c: Config, cluster: string)
    requires LayerGrounded(ctx, c) && cluster in Brought(ctx.clusters) && Target(ctx, c, cluster).Some?
    ensures Target(ctx, c, cluster).value.0 == ctx && LayerGrounded(ctx, Target(ctx, c, cluster).value.1)
  {
    hide Refers, CtxGrounded, Brought;
  }

  lemma DenyGrounds(ctx: Ctx, c: Config)
    requires LayerGrounded(ctx, c)
    ensures LayerGrounded(ctx.(clusters := ctx.clusters + [(DENY, Blackhole)]), c)
    ensures DENY in Brought(ctx.clusters + [(DENY, Blackhole)])
  {
    BroughtMore(ctx.clusters, DENY, Blackhole);
    var more := Brought(ctx.clusters + [(DENY, Blackhole)]);
    GroundedMore(c.listeners, c.clusters.Keys + Brought(ctx.clusters), c.clusters.Keys + more);
    if ctx.terminal.Some? {
      RefersMore(ctx.terminal.value, Brought(ctx.clusters), more);
    }
    hide Grounded, Refers, Brought;
  }

  lemma AppGrounds(r: Rule, net: Net, ctx: Ctx)
    requires CtxGrounded(ctx) && ctx.upstream != ""
    ensures Refers(Hcm(AppVHosts(r, net, ctx)), Brought(ctx.clusters))
  {
    hide VirtualHostName, HttpDomains, Brought;
  }

  lemma ListeningGrounds(l: Layer, r: Rule, net: Net, ports: EnvoyPorts, ctx: Ctx, c: Config)
    requires ListenerLayer(l) && LayerGrounded(ctx, c) && RunLayer(l, r, net, ports, ctx, c).Some?
    ensures LayerGrounded(RunLayer(l, r, net, ports, ctx, c).value.0, RunLayer(l, r, net, ports, ctx, c).value.1)
  {
    var names := c.clusters.Keys + Brought(ctx.clusters);
    EnsureGrounds(c, EGRESS, ports.egress, false, names);
    EnsureGrounds(c, QUIC, ports.egress, true, names);
    if l.DedicatedListener? {
      EnsureGrounds(c, SlotName(l.fam, NormalizeDomain(r.dst), l.dstPort), l.envoyPort, l.fam == Udp, names);
    }
    hide EnsureListener, Grounded, Refers, Brought, NormalizeDomain, SlotName, CryptoMatch, HttpPort, HttpsPort, NameFor;
  }

  lemma EndingGrounds(l: Layer, r: Rule, net: Net, ports: EnvoyPorts, ctx: Ctx, c: Config)
    requires TerminalLayer(l) && LayerGrounded(ctx, c) && RunLayer(l, r, net, ports, ctx, c).Some?
    ensures LayerGrounded(RunLayer(l, r, net, ports, ctx, c).value.0, RunLayer(l, r, net, ports, ctx, c).value.1)
  {
    hide NormalizeDomain, SlotName, CryptoMatch, HttpPort, HttpsPort, NameFor, Target, AppVHosts, Grounded, Brought;
    match l
    case ProxyTerminal(fam) =>
      if fam == Udp {
        TargetGrounds(ctx, c, ctx.upstream);
      }
    case DenyTerminal(fam) =>
      DenyGrounds(ctx, c);
      if fam == Udp {
        TargetGrounds(ctx.(clusters := ctx.clusters + [(DENY, Blackhole)]), c, DENY);
      }
    case HttpApp => AppGrounds(r, net, ctx);
  }

  lemma LayerGrounds(l: Layer, r: Rule, net: Net, ports: EnvoyPorts, ctx: Ctx, c: Config)
    requires LayerGrounded(ctx, c) && RunLayer(l, r, net, ports, ctx, c).Some?
    ensures LayerGrounded(RunLayer(l, r, net, ports, ctx, c).value.0, RunLayer(l, r, net, ports, ctx, c).value.1)
  {
    if ListenerLayer(l) {
      ListeningGrounds(l, r, net, ports, ctx, c);
    } else if TerminalLayer(l) {
      EndingGrounds(l, r, net, ports, ctx, c);
    } else {
      UpstreamLayerGrounds(l, r, net, ports, ctx, c);
    }
  }

  lemma UpstreamLayerGrounds(l: Layer, r: Rule, net: Net, ports: EnvoyPorts, ctx: Ctx, c: Config)
    requires !ListenerLayer(l) && !TerminalLayer(l) && LayerGrounded(ctx, c) && RunLayer(l, r, net, ports, ctx, c).Some?
    ensures LayerGrounded(RunLayer(l, r, net, ports, ctx, c).value.0, RunLayer(l, r, net, ports, ctx, c).value.1)
  {
    hide NormalizeDomain, SlotName, CryptoMatch, HttpPort, HttpsPort, NameFor, WithUpstream, Grounded, Refers, Brought;
    if l != WsEnrich {
      var ctx' := RunLayer(l, r, net, ports, ctx, c).value.0;
      forall name, body ensures LayerGrounded(WithUpstream(ctx, name, body), c) {
        UpstreamGrounds(ctx, c, name, body);
      }
    }
  }

  lemma {:induction false} LayersGround(ls: seq<Layer>, r: Rule, net: Net, ports: EnvoyPorts, ctx: Ctx, c: Config)
    requires LayerGrounded(ctx, c) && RunLayers(ls, r, net, ports, ctx, c).Some?
    ensures LayerGrounded(RunLayers(ls, r, net, ports, ctx, c).value.0, RunLayers(ls, r, net, ports, ctx, c).value.1)
    decreases |ls|
  {
    hide RunLayer, LayerGrounded;
    if ls != [] {
      LayerGrounds(ls[0], r, net, ports, ctx, c);
      var (ctx', c') := RunLayer(ls[0], r, net, ports, ctx, c).value;
      LayersGround(ls[1..], r, net, ports, ctx', c');
    }
  }

  // ---------------------------------------------------------------- commit

  lemma ChainGrounds(c: Config, name: string, chain: Chain)
    requires Grounded(c.listeners, c.clusters.Keys) && Refers(chain.terminal, c.clusters.Keys) && AddChain(c, name, chain).Some?
    ensures Grounded(AddChain(c, name, chain).value.listeners, AddChain(c, name, chain).value.clusters.Keys)
  {
    var chains, names := c.listeners[name].chains, c.clusters.Keys;
    var out := AddToChains(chains, chain).value;
    forall ch | ch in out ensures Refers(ch.terminal, names) {
      MergedRefers(chains, chain, ch, names);
    }
    hide Refers, AddToChains;
  }

  lemma MergedRefers(chains: seq<Chain>, chain: Chain, ch: Chain, names: set<string>)
    requires (forall x :: x in chains ==> Refers(x.terminal, names)) && Refers(chain.terminal, names)
    requires AddToChains(chains, chain).Some? && ch in AddToChains(chains, chain).value
    ensures Refers(ch.terminal, names)
  {
    hide UnionByName, FindChain;
    var i := FindChain(chains, chain.match_);
    if i < |chains| && ch !in chains {
      var both := chains[i].terminal.vhosts + chain.terminal.vhosts;
      assert chains[i] in chains;
      UnionByNameShape(both, {});
      assert ch.terminal == Hcm(UnionByName(both, {}));
      forall v | v in UnionByName(both, {}) ensures v.cluster == "" || v.cluster in names {
        assert v in chains[i].terminal.vhosts || v in chain.terminal.vhosts;
      }
    }
  }

  lemma PermGrounds(p: Perm, net: Net, ports: EnvoyPorts, c: Config)
    requires Grounded(c.listeners, c.clusters.Keys) && RunPerm(p, net, ports, c).Some?
    ensures Grounded(RunPerm(p, net, ports, c).value.listeners, RunPerm(p, net, ports, c).value.clusters.Keys)
  {
    hide RunLayers, AddClusters, AddChain, Refers;
    NewCtxGrounded(c);
    LayersGround(p.layers, p.rule, net, ports, NEW_CTX, c);
    var (ctx, c1) := RunLayers(p.layers, p.rule, net, ports, NEW_CTX, c).value;
    AddClustersKeeps(c1, ctx.clusters);
    var c2 := AddClusters(c1, ctx.clusters).value;
    CommitCovers(c1, c2, ctx);
    hide Grounded, Brought;
    if ctx.terminal.Some? {
      ChainGrounds(c2, ctx.listener, Chain(ctx.match_, ctx.terminal.value));
    }
  }

  lemma NewCtxGrounded(c: Config)
    requires Grounded(c.listeners, c.clusters.Keys)
    ensures LayerGrounded(NEW_CTX, c)
  {
    GroundedMore(c.listeners, c.clusters.Keys, c.clusters.Keys + Brought([]));
    hide Grounded;
  }

  lemma CommitCovers(c1: Config, c2: Config, ctx: Ctx)
    requires LayerGrounded(ctx, c1) && c2.listeners == c1.listeners && ClustersKept(c1, c2)
    requires forall e :: e in ctx.clusters ==> e.0 in c2.clusters
    ensures Grounded(c2.listeners, c2.clusters.Keys)
    ensures ctx.terminal.Some? ==> Refers(ctx.terminal.value, c2.clusters.Keys)
  {
    assert c1.clusters.Keys + Brought(ctx.clusters) <= c2.clusters.Keys;
    GroundedMore(c1.listeners, c1.clusters.Keys + Brought(ctx.clusters), c2.clusters.Keys);
    if ctx.terminal.Some? {
      RefersMore(ctx.terminal.value, Brought(ctx.clusters), c2.clusters.Keys);
    }
    hide Grounded, Refers;
  }

  /** After any sequence of permutations every cluster that a chain, a virtual host or a UDP
      listener names is defined. */
  lemma {:induction false} RunGrounds(ps: seq<Perm>, net: Net, ports: EnvoyPorts, c: Config, seen: set<string>)
    requires Grounded(c.listeners, c.clusters.Keys) && RunPerms(ps, net, ports, c, seen).Some?
    ensures Grounded(RunPerms(ps, net, ports, c, seen).value.listeners, RunPerms(ps, net, ports, c, seen).value.clusters.Keys)
    decreases |ps|
  {
    hide RunPerm, Grounded;
    if ps != [] {
      if ps[0].key in seen {
        RunGrounds(ps[1..], net, ports, c, seen);
      } else {
        PermGrounds(ps[0], net, ports, c);
        RunGrounds(ps[1..], net, ports, RunPerm(ps[0], net, ports, c).value, seen + {ps[0].key});
      }
    }
  }
}

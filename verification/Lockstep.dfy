/** The generator and the eBPF route table agree: every dedicated listener is bound to the
    port its route redirects to, and ends in the pin or the blackhole of that very slot. */
module Lockstep {
  import opened Text
  import opened Rules
  import opened Dedicated
  import opened EnvoyConfig
  import opened Generator

  // ---------------------------------------------------------------- names are unambiguous

  lemma {:induction false} PortTextShape(p: int)
    ensures forall c :: c in PortText(p) ==> IsDigit(c) || c == '-'
  {
    hide Itoa;
    assert p < 0 ==> AllDigits(Itoa(-p));
    assert p >= 0 ==> AllDigits(Itoa(p));
  }

  lemma {:induction false} PortTextSign(p: int)
    ensures PortText(p) != [] && (PortText(p)[0] == '-' <==> p < 0)
    ensures p < 0 ==> PortText(p)[1..] == Itoa(-p)
  {
    hide Itoa;
    if p >= 0 {
      assert IsDigit(Itoa(p)[0]);
    }
  }

  lemma {:induction false} PortTextInjective(p: int, q: int)
    requires PortText(p) == PortText(q)
    ensures p == q
  {
    hide Itoa;
    PortTextSign(p);
    PortTextSign(q);
    if p < 0 {
      ItoaInjective(-p, -q);
    } else {
      ItoaInjective(p, q);
    }
  }

  lemma PortKeyInjective(h: string, p: int, h': string, p': int)
    requires PortKey(h, p) == PortKey(h', p')
    ensures h == h' && p == p'
  {
    hide PortText;
    PortTextShape(p);
    PortTextShape(p');
    UniqueLastSplit(h, PortText(p), h', PortText(p'), ':');
    PortTextInjective(p, p');
  }

  lemma SlotNameInjective(f: Family, h: string, p: int, f': Family, h': string, p': int)
    requires SlotName(f, h, p) == SlotName(f', h', p')
    ensures f == f' && Sanitize(h) == Sanitize(h') && p == p'
  {
    hide PortText, Sanitize;
    PortTextShape(p);
    PortTextShape(p');
    var front := (if f == Tcp then "tcp_" else "udp_") + Sanitize(h);
    var front' := (if f' == Tcp then "tcp_" else "udp_") + Sanitize(h');
    assert SlotName(f, h, p) == front + ['_'] + PortText(p);
    assert SlotName(f', h', p') == front' + ['_'] + PortText(p');
    UniqueLastSplit(front, PortText(p), front', PortText(p'), '_');
    PortTextInjective(p, p');
    assert front[0] == front'[0];
    assert front[4..] == Sanitize(h) && front'[4..] == Sanitize(h');
  }

  /** The listeners shared by all rules, and the name no listener has. */
  predicate Common(name: string) { name == "" || name == EGRESS || name == QUIC }

  lemma SlotNameNotCommon(f: Family, h: string, p: int)
    ensures !Common(SlotName(f, h, p))
  {
    hide PortText, Sanitize;
    assert SlotName(f, h, p)[0] == (if f == Tcp then 't' else 'u');
  }

  // ---------------------------------------------------------------- running one permutation

  predicate Slotted(p: Perm) { p.layers != [] && p.layers[0].DedicatedListener? }

  function PermName(p: Perm): string
    requires Slotted(p)
  {
    SlotName(p.layers[0].fam, NormalizeDomain(p.rule.dst), p.layers[0].dstPort)
  }

  /** A permutation that only works on the shared listeners. */
  predicate SharedLayer(l: Layer) {
    && !l.DedicatedListener?
    && (l.ProxyTerminal? || l.DenyTerminal? ==> l.fam == Tcp)
  }

  predicate LawfulPerm(p: Perm) {
    if Slotted(p) then
      var l := p.layers[0];
      p.layers == DedicatedLayers(l.fam, IsDeny(p.rule), l.envoyPort, l.dstPort)
    else forall l :: l in p.layers ==> SharedLayer(l)
  }

  /** Only shared listeners may differ, and no cluster is redefined. */
  ghost predicate OnlyCommonChanged(c: Config, c': Config) {
    && (forall n :: !Common(n) ==> (n in c.listeners <==> n in c'.listeners))
    && (forall n :: !Common(n) && n in c.listeners ==> c'.listeners[n] == c.listeners[n])
    && ClustersKept(c, c')
  }

  lemma {:induction false} AddClustersKeeps(c: Config, clusters: seq<(string, Cluster)>)
    requires AddClusters(c, clusters).Some?
    ensures var c' := AddClusters(c, clusters).value;
            && c'.listeners == c.listeners && ClustersKept(c, c')
            && (forall e :: e in clusters ==> e.0 in c'.clusters && c'.clusters[e.0] == e.1)
    decreases |clusters|
  {
    if clusters != [] {
      AddClustersKeeps(AddCluster(c, clusters[0].0, clusters[0].1).value, clusters[1..]);
      assert clusters == [clusters[0]] + clusters[1..];
    }
  }

  lemma SharedLayerStep(l: Layer, r: Rule, net: Net, ports: EnvoyPorts, ctx: Ctx, c: Config)
    requires SharedLayer(l) && Common(ctx.listener)
    requires RunLayer(l, r, net, ports, ctx, c).Some?
    ensures var (ctx', c') := RunLayer(l, r, net, ports, ctx, c).value;
            Common(ctx'.listener) && OnlyCommonChanged(c, c')
  {
    hide NormalizeDomain, NameFor, HttpPort, HttpsPort, CryptoMatch, AppVHosts, SlotName, WithUpstream;
    WithUpstreamKeeps(ctx);
  }

  lemma WithUpstreamKeeps(ctx: Ctx)
    ensures forall name, body :: WithUpstream(ctx, name, body).listener == ctx.listener
  {
  }

  lemma {:induction false} SharedLayersStep(ls: seq<Layer>, r: Rule, net: Net, ports: EnvoyPorts, ctx: Ctx, c: Config)
    requires (forall l :: l in ls ==> SharedLayer(l)) && Common(ctx.listener)
    requires RunLayers(ls, r, net, ports, ctx, c).Some?
    ensures var (ctx', c') := RunLayers(ls, r, net, ports, ctx, c).value;
            Common(ctx'.listener) && OnlyCommonChanged(c, c')
    decreases |ls|
  {
    hide RunLayer, SharedLayer, Common;
    if ls != [] {
      assert ls[0] in ls;
      SharedLayerStep(ls[0], r, net, ports, ctx, c);
      var (ctx', c') := RunLayer(ls[0], r, net, ports, ctx, c).value;
      SharedLayersStep(ls[1..], r, net, ports, ctx', c');
    }
  }

  lemma SharedPermStep(p: Perm, net: Net, ports: EnvoyPorts, c: Config)
    requires LawfulPerm(p) && !Slotted(p) && RunPerm(p, net, ports, c).Some?
    ensures OnlyCommonChanged(c, RunPerm(p, net, ports, c).value)
  {
    hide RunLayers, AddClusters, SharedLayer;
    SharedLayersStep(p.layers, p.rule, net, ports, NEW_CTX, c);
    var (ctx, c') := RunLayers(p.layers, p.rule, net, ports, NEW_CTX, c).value;
    AddClustersKeeps(c', ctx.clusters);
  }

  /** What a dedicated permutation leaves behind. */
  function SlotTarget(name: string, deny: bool): string { if deny then DENY else name }

  function SlotListener(fam: Family, deny: bool, bind: int, name: string): Listener {
    match fam
    case Tcp => Listener(bind, false, [Chain(AnyConnection, Proxy(SlotTarget(name, deny)))], None)
    case Udp => Listener(bind, true, [], Some(SlotTarget(name, deny)))
  }

  function SlotCluster(host: string, port: int, deny: bool, net: Net): Cluster {
    if deny then Blackhole else Pinned(host, port, net.kind(host) != Fqdn, Plaintext)
  }

  /** The context and tree after the layers of a dedicated permutation, before the commit. */
  function SlotCtx(fam: Family, host: string, port: int, deny: bool, net: Net): Ctx {
    var name := SlotName(fam, host, port);
    Ctx(name, AnyConnection, if fam == Tcp then Some(Proxy(SlotTarget(name, deny))) else None,
        [(SlotTarget(name, deny), SlotCluster(host, port, deny, net))],
        port, 0, if deny then "" else name, false)
  }

  function SlotTree(c: Config, fam: Family, deny: bool, ep: int, name: string): Config {
    if fam == Tcp then EnsureListener(c, name, ep, false)
    else c.(listeners := c.listeners[name := SlotListener(fam, deny, ep, name)])
  }

  lemma DenyRun(fam: Family, ep: int, port: int, r: Rule, net: Net, ports: EnvoyPorts, c: Config)
    requires SlotName(fam, NormalizeDomain(r.dst), port) !in c.listeners
    ensures var host := NormalizeDomain(r.dst);
            RunLayers(DedicatedLayers(fam, true, ep, port), r, net, ports, NEW_CTX, c)
            == Some((SlotCtx(fam, host, port, true, net), SlotTree(c, fam, true, ep, SlotName(fam, host, port))))
  {
    hide SlotName, IsDeny, NormalizeDomain;
    var name := SlotName(fam, NormalizeDomain(r.dst), port);
    var ls := DedicatedLayers(fam, true, ep, port);
    var c1 := EnsureListener(c, name, ep, fam == Udp);
    var ctx1 := NEW_CTX.(listener := name, match_ := AnyConnection, port := port);
    assert ls[1..] == [DenyTerminal(fam)] && [DenyTerminal(fam)][1..] == [];
    assert [] + [(DENY, Blackhole)] == [(DENY, Blackhole)];
    var last := RunLayer(DenyTerminal(fam), r, net, ports, ctx1, c1);
    var made := SlotListener(fam, true, ep, name);
    assert c.listeners[name := Listener(ep, fam == Udp, [], None)][name := made] == c.listeners[name := made];
    assert last == Some((SlotCtx(fam, NormalizeDomain(r.dst), port, true, net), SlotTree(c, fam, true, ep, name)));
    assert RunLayers([], r, net, ports, last.value.0, last.value.1) == last;
    assert RunLayers([DenyTerminal(fam)], r, net, ports, ctx1, c1) == last;
  }

  lemma AllowRun(fam: Family, ep: int, port: int, r: Rule, net: Net, ports: EnvoyPorts, c: Config)
    requires SlotName(fam, NormalizeDomain(r.dst), port) !in c.listeners
    ensures var host := NormalizeDomain(r.dst);
            RunLayers(DedicatedLayers(fam, false, ep, port), r, net, ports, NEW_CTX, c)
            == Some((SlotCtx(fam, host, port, false, net), SlotTree(c, fam, false, ep, SlotName(fam, host, port))))
  {
    hide SlotName, IsDeny, NormalizeDomain;
    var host := NormalizeDomain(r.dst);
    var name := SlotName(fam, host, port);
    assert name != "" by { SlotNameNotCommon(fam, host, port); }
    var ls := DedicatedLayers(fam, false, ep, port);
    var c1 := EnsureListener(c, name, ep, fam == Udp);
    var ctx1 := NEW_CTX.(listener := name, match_ := AnyConnection, port := port);
    var ctx2 := WithUpstream(ctx1, name, SlotCluster(host, port, false, net));
    assert ls[1..] == [PinnedUpstream(fam), ProxyTerminal(fam)];
    assert [PinnedUpstream(fam), ProxyTerminal(fam)][1..] == [ProxyTerminal(fam)] && [ProxyTerminal(fam)][1..] == [];
    ProxyEnds(fam, ep, port, r, net, ports, c);
    var last := RunLayer(ProxyTerminal(fam), r, net, ports, ctx2, c1);
    assert RunLayers([], r, net, ports, last.value.0, last.value.1) == last;
    assert RunLayers([ProxyTerminal(fam)], r, net, ports, ctx2, c1) == last;
    assert RunLayers([PinnedUpstream(fam), ProxyTerminal(fam)], r, net, ports, ctx1, c1) == last;
    hide SlotCtx, SlotTree;
  }

  /** The proxy terminal on a fresh dedicated listener. */
  lemma ProxyEnds(fam: Family, ep: int, port: int, r: Rule, net: Net, ports: EnvoyPorts, c: Config)
    requires SlotName(fam, NormalizeDomain(r.dst), port) !in c.listeners
    ensures var host := NormalizeDomain(r.dst);
            var name := SlotName(fam, host, port);
            var ctx := WithUpstream(NEW_CTX.(listener := name, match_ := AnyConnection, port := port), name, SlotCluster(host, port, false, net));
            RunLayer(ProxyTerminal(fam), r, net, ports, ctx, EnsureListener(c, name, ep, fam == Udp))
            == Some((SlotCtx(fam, host, port, false, net), SlotTree(c, fam, false, ep, name)))
  {
    hide SlotName, NormalizeDomain;
    var host := NormalizeDomain(r.dst);
    var name := SlotName(fam, host, port);
    assert name != "" by { SlotNameNotCommon(fam, host, port); }
    assert [] + [(name, SlotCluster(host, port, false, net))] == [(name, SlotCluster(host, port, false, net))];
    var made := SlotListener(fam, false, ep, name);
    assert c.listeners[name := Listener(ep, fam == Udp, [], None)][name := made] == c.listeners[name := made];
  }

  lemma SlottedPermStep(p: Perm, net: Net, ports: EnvoyPorts, c: Config)
    requires LawfulPerm(p) && Slotted(p) && PermName(p) !in c.listeners
    requires RunPerm(p, net, ports, c).Some?
    ensures var c' := RunPerm(p, net, ports, c).value;
            var l, host, deny := p.layers[0], NormalizeDomain(p.rule.dst), IsDeny(p.rule);
            && c'.listeners == c.listeners[PermName(p) := SlotListener(l.fam, deny, l.envoyPort, PermName(p))]
            && ClustersKept(c, c')
            && SlotTarget(PermName(p), deny) in c'.clusters
            && c'.clusters[SlotTarget(PermName(p), deny)] == SlotCluster(host, l.dstPort, deny, net)
  {
    hide RunLayers, AddClusters, SlotName, IsDeny, NormalizeDomain, SlotCluster;
    var l := p.layers[0];
    if IsDeny(p.rule) {
      DenyRun(l.fam, l.envoyPort, l.dstPort, p.rule, net, ports, c);
    } else {
      AllowRun(l.fam, l.envoyPort, l.dstPort, p.rule, net, ports, c);
    }
    var (ctx, c1) := RunLayers(p.layers, p.rule, net, ports, NEW_CTX, c).value;
    AddClustersKeeps(c1, ctx.clusters);
    assert ctx.clusters[0] in ctx.clusters;
    var c2 := AddClusters(c1, ctx.clusters).value;
    var name, c' := PermName(p), RunPerm(p, net, ports, c).value;
    if l.fam == Tcp {
      var chain := Chain(AnyConnection, Proxy(SlotTarget(name, IsDeny(p.rule))));
      assert [] + [chain] == [chain] && AddToChains([], chain) == Some([chain]);
      assert Some(c') == AddChain(c2, name, chain);
    }
    assert c'.listeners == c.listeners[name := SlotListener(l.fam, IsDeny(p.rule), l.envoyPort, name)];
  }

  // ---------------------------------------------------------------- running all permutations

  /** A dedicated permutation shares neither its key nor its listener name. */
  predicate Separate(p: Perm, q: Perm) {
    && (Slotted(p) || Slotted(q) ==> p.key != q.key)
    && (Slotted(p) && Slotted(q) ==> PermName(p) != PermName(q))
  }

  ghost predicate LawfulPerms(ps: seq<Perm>) {
    && (forall p :: p in ps ==> LawfulPerm(p))
    && (forall i, j :: 0 <= i < j < |ps| ==> Separate(ps[i], ps[j]))
  }

  /** The listener of p stands as p's own layers left it, and its cluster with it. */
  ghost predicate InPlace(p: Perm, net: Net, c: Config)
    requires Slotted(p)
  {
    var l, deny, name := p.layers[0], IsDeny(p.rule), PermName(p);
    && name in c.listeners && c.listeners[name] == SlotListener(l.fam, deny, l.envoyPort, name)
    && SlotTarget(name, deny) in c.clusters
    && c.clusters[SlotTarget(name, deny)] == SlotCluster(NormalizeDomain(p.rule.dst), l.dstPort, deny, net)
  }

  ghost predicate Named(ps: seq<Perm>, name: string) {
    exists p :: p in ps && Slotted(p) && PermName(p) == name
  }

  /** Nothing but shared listeners and the listeners named by ps differs. */
  ghost predicate OnlyNamedAdded(c: Config, ps: seq<Perm>, c': Config) {
    && (forall n :: n in c'.listeners ==> n in c.listeners || Common(n) || Named(ps, n))
    && (forall n :: n in c.listeners && !Common(n) && !Named(ps, n) ==>
          n in c'.listeners && c'.listeners[n] == c.listeners[n])
    && ClustersKept(c, c')
  }

  lemma PermNameNotCommon(p: Perm)
    requires Slotted(p)
    ensures !Common(PermName(p))
  {
    hide SlotName, Common;
    SlotNameNotCommon(p.layers[0].fam, NormalizeDomain(p.rule.dst), p.layers[0].dstPort);
  }

  lemma HeadRun(p: Perm, net: Net, ports: EnvoyPorts, c: Config)
    requires LawfulPerm(p) && RunPerm(p, net, ports, c).Some?
    requires Slotted(p) ==> PermName(p) !in c.listeners
    ensures var c' := RunPerm(p, net, ports, c).value;
            OnlyNamedAdded(c, [p], c') && (Slotted(p) ==> InPlace(p, net, c'))
  {
    hide RunPerm, LawfulPerm, PermName, SlotListener, SlotCluster, SlotTarget, IsDeny, NormalizeDomain, Common;
    if Slotted(p) {
      SlottedPermStep(p, net, ports, c);
      assert p in [p];
    } else {
      SharedPermStep(p, net, ports, c);
    }
  }

  lemma InPlaceKept(p: Perm, net: Net, c: Config, ps: seq<Perm>, c': Config)
    requires Slotted(p) && InPlace(p, net, c) && OnlyNamedAdded(c, ps, c') && !Named(ps, PermName(p))
    ensures InPlace(p, net, c')
  {
    hide PermName, SlotListener, SlotCluster, SlotTarget, IsDeny, NormalizeDomain, Common, Named;
    PermNameNotCommon(p);
  }

  lemma {:induction false} RunPermsSlots(ps: seq<Perm>, net: Net, ports: EnvoyPorts, c: Config, seen: set<string>)
    requires LawfulPerms(ps)
    requires forall p :: p in ps && Slotted(p) ==> PermName(p) !in c.listeners && p.key !in seen
    requires RunPerms(ps, net, ports, c, seen).Some?
    ensures var c' := RunPerms(ps, net, ports, c, seen).value;
            && OnlyNamedAdded(c, ps, c')
            && (forall p :: p in ps && Slotted(p) ==> InPlace(p, net, c'))
    decreases |ps|
  {
    hide RunPerm, LawfulPerm, PermName, InPlace, Common, Slotted;
    if ps != [] {
      var p, rest := ps[0], ps[1..];
      assert ps == [p] + rest;
      assert LawfulPerms(rest);
      forall q | q in rest ensures Separate(p, q) {
        var j :| 0 <= j < |rest| && rest[j] == q;
        assert ps[j + 1] == q;
      }
      if p.key in seen {
        RunPermsSlots(rest, net, ports, c, seen);
        assert !Slotted(p);
        assert forall n :: Named(ps, n) <==> Named(rest, n);
      } else {
        HeadRun(p, net, ports, c);
        var c1 := RunPerm(p, net, ports, c).value;
        forall q | q in rest && Slotted(q) ensures PermName(q) !in c1.listeners && q.key !in seen + {p.key} {
          PermNameNotCommon(q);
          assert Separate(p, q);
        }
        RunPermsSlots(rest, net, ports, c1, seen + {p.key});
        var c' := RunPerms(rest, net, ports, c1, seen + {p.key}).value;
        OnlyNamedCompose(c, p, c1, rest, c');
        if Slotted(p) {
          InPlaceKept(p, net, c1, rest, c');
        }
      }
    }
  }

  lemma OnlyNamedCompose(c: Config, p: Perm, c1: Config, rest: seq<Perm>, c': Config)
    requires OnlyNamedAdded(c, [p], c1) && OnlyNamedAdded(c1, rest, c')
    ensures OnlyNamedAdded(c, [p] + rest, c')
  {
    hide PermName, Common, Slotted;
    forall n ensures Named([p] + rest, n) <==> Named([p], n) || Named(rest, n) {
      assert forall q :: q in [p] + rest <==> q in [p] || q in rest;
    }
  }
}

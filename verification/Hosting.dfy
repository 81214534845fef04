/** What the HTTP managers of the tree hold: each chain has, of the virtual hosts its
    permutations bring, the first of every name and no other. */
module Hosting {
  import opened Text
  import opened Rules
  import opened Dedicated
  import opened EnvoyConfig
  import opened Generator
  import opened Lockstep
  import opened LockstepRules
  import opened CrossRouting

  // ---------------------------------------------------------------- the first virtual host of a name

  function First(vhosts: seq<VHost>, name: string): (v: Option<VHost>)
    ensures v.Some? ==> v.value in vhosts && v.value.name == name
    ensures v.None? ==> forall w :: w in vhosts ==> w.name != name
  {
    if vhosts == [] then None
    else if vhosts[0].name == name then Some(vhosts[0])
    else First(vhosts[1..], name)
  }

  lemma {:induction false} FirstAppend(a: seq<VHost>, b: seq<VHost>, name: string)
    ensures First(a + b, name) == if First(a, name).Some? then First(a, name) else First(b, name)
  {
    if a == [] {
      assert a + b == b;
    } else {
      assert (a + b)[1..] == a[1..] + b;
      FirstAppend(a[1..], b, name);
    }
  }

  lemma {:induction false} FirstOfUnion(vhosts: seq<VHost>, seen: set<string>, name: string)
    requires name !in seen
    ensures First(UnionByName(vhosts, seen), name) == First(vhosts, name)
  {
    if vhosts != [] {
      if vhosts[0].name in seen {
        FirstOfUnion(vhosts[1..], seen, name);
      } else if vhosts[0].name != name {
        FirstOfUnion(vhosts[1..], seen + {vhosts[0].name}, name);
      }
    }
  }

  lemma {:induction false} FirstOfUnique(vhosts: seq<VHost>, v: VHost)
    requires UniqueNames(vhosts)
    ensures v in vhosts <==> First(vhosts, v.name) == Some(v)
  {
    if v in vhosts {
      var w := First(vhosts, v.name).value;
      var i, j :| 0 <= i < |vhosts| && 0 <= j < |vhosts| && vhosts[i] == v && vhosts[j] == w;
      assert i == j;
    }
  }

  // ---------------------------------------------------------------- permutations that host

  /** A permutation of an HTTP stack: transport, upstream, manager, perhaps for websockets. */
  predicate Web(p: Perm) {
    var k := |p.layers|;
    && (k == 3 || k == 4) && ListenerLayer(p.layers[k - 3]) && UpstreamLayer(p.layers[k - 2])
    && p.layers == HttpRow(k == 4, p.layers[k - 3], p.layers[k - 2])
  }

  /** The context a listener layer leaves behind. */
  function Transport(l: Layer, r: Rule, net: Net, ctx: Ctx): Ctx
    requires ListenerLayer(l)
  {
    match l
    case TcpEgress => ctx.(listener := EGRESS, match_ := RawBuffer, port := HttpPort(r), bareHostPort := HTTP_PORT)
    case PrefixRange(p) => ctx.(listener := EGRESS, match_ := RawRange(net.range(r.dst), p), port := p)
    case TlsSni(exact) =>
      ctx.(listener := EGRESS, match_ := CryptoMatch(r, net, exact, true), port := HttpsPort(r), bareHostPort := DEFAULT_DEST_PORT)
    case QuicSni(exact) =>
      ctx.(listener := QUIC, match_ := CryptoMatch(r, net, exact, false), port := HttpsPort(r), bareHostPort := DEFAULT_DEST_PORT)
    case DedicatedListener(fam, _, p) =>
      ctx.(listener := SlotName(fam, NormalizeDomain(r.dst), p), match_ := AnyConnection, port := p)
  }

  /** The context before the manager: everything but the terminal. */
  function WebBase(p: Perm, net: Net): Ctx
    requires Web(p)
  {
    var k := |p.layers|;
    var t := Transport(p.layers[k - 3], p.rule, net, NEW_CTX.(websocket := k == 4));
    var (name, body) := Upstream(p.layers[k - 2], p.rule, net, t);
    WithUpstream(t, name, body)
  }

  function Brought(p: Perm, net: Net): seq<VHost>
    requires Web(p)
  {
    AppVHosts(p.rule, net, WebBase(p, net))
  }

  lemma RunTwo(a: Layer, rest: seq<Layer>, r: Rule, net: Net, ports: EnvoyPorts, ctx: Ctx, c: Config)
    requires RunLayers([a] + rest, r, net, ports, ctx, c).Some?
    ensures RunLayer(a, r, net, ports, ctx, c).Some?
    ensures var (ctx', c') := RunLayer(a, r, net, ports, ctx, c).value;
            RunLayers([a] + rest, r, net, ports, ctx, c) == RunLayers(rest, r, net, ports, ctx', c')
  {
    hide RunLayer;
    assert ([a] + rest)[1..] == rest;
  }

  lemma TransportRuns(l: Layer, r: Rule, net: Net, ports: EnvoyPorts, ctx: Ctx, c: Config)
    requires ListenerLayer(l) && RunLayer(l, r, net, ports, ctx, c).Some?
    ensures RunLayer(l, r, net, ports, ctx, c).value.0 == Transport(l, r, net, ctx)
  {
    hide NormalizeDomain, SlotName, CryptoMatch, HttpPort, HttpsPort, EnsureListener;
  }

  lemma UpstreamRuns(l: Layer, r: Rule, net: Net, ports: EnvoyPorts, ctx: Ctx, c: Config)
    requires UpstreamLayer(l) && RunLayer(l, r, net, ports, ctx, c).Some?
    ensures RunLayer(l, r, net, ports, ctx, c).value.0 ==
            WithUpstream(ctx, Upstream(l, r, net, ctx).0, Upstream(l, r, net, ctx).1)
  {
    hide Upstream, WithUpstream, EnsureListener;
  }

  lemma ManagerRuns(r: Rule, net: Net, ports: EnvoyPorts, ctx: Ctx, c: Config)
    requires RunLayer(HttpApp, r, net, ports, ctx, c).Some?
    ensures RunLayer(HttpApp, r, net, ports, ctx, c).value.0 == ctx.(terminal := Some(Hcm(AppVHosts(r, net, ctx))))
  {
    hide AppVHosts;
  }

  /** The stack's three layers, whatever tree they run on. */
  lemma StackRuns(a: Layer, b: Layer, r: Rule, net: Net, ports: EnvoyPorts, ctx: Ctx, c: Config)
    requires ListenerLayer(a) && UpstreamLayer(b) && RunLayers([a, b, HttpApp], r, net, ports, ctx, c).Some?
    ensures var t := Transport(a, r, net, ctx);
            var u := WithUpstream(t, Upstream(b, r, net, t).0, Upstream(b, r, net, t).1);
            RunLayers([a, b, HttpApp], r, net, ports, ctx, c).value.0 == u.(terminal := Some(Hcm(AppVHosts(r, net, u))))
  {
    hide RunLayers, RunLayer, Transport, Upstream, AppVHosts, WithUpstream;
    assert [a] + [b, HttpApp] == [a, b, HttpApp] && [b] + [HttpApp] == [b, HttpApp] && [HttpApp] + [] == [HttpApp];
    RunTwo(a, [b, HttpApp], r, net, ports, ctx, c);
    TransportRuns(a, r, net, ports, ctx, c);
    var c1 := RunLayer(a, r, net, ports, ctx, c).value.1;
    var t := Transport(a, r, net, ctx);
    RunTwo(b, [HttpApp], r, net, ports, t, c1);
    UpstreamRuns(b, r, net, ports, t, c1);
    var (u, c2) := RunLayer(b, r, net, ports, t, c1).value;
    RunTwo(HttpApp, [], r, net, ports, u, c2);
    ManagerRuns(r, net, ports, u, c2);
    var (v, c3) := RunLayer(HttpApp, r, net, ports, u, c2).value;
    RunNothing(r, net, ports, v, c3);
  }

  lemma RunNothing(r: Rule, net: Net, ports: EnvoyPorts, ctx: Ctx, c: Config)
    ensures RunLayers([], r, net, ports, ctx, c) == Some((ctx, c))
  {
  }

  lemma WebRuns(p: Perm, net: Net, ports: EnvoyPorts, c: Config)
    requires Web(p) && RunLayers(p.layers, p.rule, net, ports, NEW_CTX, c).Some?
    ensures RunLayers(p.layers, p.rule, net, ports, NEW_CTX, c).value.0 ==
            WebBase(p, net).(terminal := Some(Hcm(Brought(p, net))))
  {
    hide RunLayers, Transport, Upstream, AppVHosts, WithUpstream;
    var k := |p.layers|;
    var a, b := p.layers[k - 3], p.layers[k - 2];
    var ctx := NEW_CTX.(websocket := k == 4);
    if k == 4 {
      assert p.layers == [WsEnrich] + [a, b, HttpApp];
      RunTwo(WsEnrich, [a, b, HttpApp], p.rule, net, ports, NEW_CTX, c);
      assert RunLayer(WsEnrich, p.rule, net, ports, NEW_CTX, c) == Some((ctx, c));
    } else {
      assert p.layers == [a, b, HttpApp] && ctx == NEW_CTX;
    }
    StackRuns(a, b, p.rule, net, ports, ctx, c);
  }

  // ---------------------------------------------------------------- one permutation on the tree

  /** The virtual hosts of the chain with this match on this listener. */
  function HostsIn(c: Config, n: string, m: Match): seq<VHost> {
    if n !in c.listeners then []
    else
      var chains := c.listeners[n].chains;
      var i := FindChain(chains, m);
      if i < |chains| && chains[i].terminal.Hcm? then chains[i].terminal.vhosts else []
  }

  /** What a permutation brings to that chain. */
  function BroughtTo(p: Perm, net: Net, n: string, m: Match): seq<VHost> {
    if Web(p) && WebBase(p, net).listener == n && WebBase(p, net).match_ == m then Brought(p, net) else []
  }

  /** Merging b into a keeps the first of each name. */
  ghost predicate Merged(a: seq<VHost>, b: seq<VHost>, c: seq<VHost>) {
    UniqueNames(c) && forall name :: First(c, name) == First(a + b, name)
  }

  lemma SameChainsHosts(c: Config, c': Config, n: string, m: Match)
    requires SameChains(c, c')
    ensures HostsIn(c', n, m) == HostsIn(c, n, m)
  {
    hide FindChain;
    FindNothing(m);
  }

  lemma FindNothing(m: Match)
    ensures FindChain([], m) == 0
  {
  }

  lemma ElsewhereKept(chains: seq<Chain>, chain: Chain, m: Match)
    requires m != chain.match_ && AddToChains(chains, chain).Some?
    ensures var out := AddToChains(chains, chain).value;
            var i, j := FindChain(chains, m), FindChain(out, m);
            if i < |chains| then j == i < |out| && out[j] == chains[i] else j == |out|
  {
    hide UnionByName, FindChain;
    var out := AddToChains(chains, chain).value;
    var i, j := FindChain(chains, m), FindChain(out, m);
    assert forall k :: 0 <= k < |chains| ==> out[k].match_ == chains[k].match_;
    if i < |chains| {
      assert out[i].match_ == m;
      assert j == i;
    } else {
      assert forall k :: 0 <= k < |out| ==> out[k].match_ != m;
    }
  }

  lemma HostsElsewhere(c: Config, name: string, chain: Chain, n: string, m: Match)
    requires AddChain(c, name, chain).Some? && (n != name || m != chain.match_)
    ensures HostsIn(AddChain(c, name, chain).value, n, m) == HostsIn(c, n, m)
  {
    hide AddToChains, FindChain;
    var c' := AddChain(c, name, chain).value;
    if n == name {
      assert c'.listeners[n].chains == AddToChains(c.listeners[n].chains, chain).value;
      ElsewhereKept(c.listeners[n].chains, chain, m);
    } else {
      assert n in c.listeners ==> c'.listeners[n] == c.listeners[n];
    }
  }

  /** Where the chain lands: appended as it is, merged by name, or refused. */
  lemma HostsHere(c: Config, name: string, chain: Chain)
    requires AddChain(c, name, chain).Some?
    requires UniqueNames(HostsIn(c, name, chain.match_))
    requires chain.terminal.Hcm? ==> UniqueNames(chain.terminal.vhosts)
    ensures var was, now := HostsIn(c, name, chain.match_), HostsIn(AddChain(c, name, chain).value, name, chain.match_);
            Merged(was, if chain.terminal.Hcm? then chain.terminal.vhosts else [], now)
  {
    hide FindChain, UnionByName, UniqueNames;
    var chains := c.listeners[name].chains;
    var i := FindChain(chains, chain.match_);
    var out := AddToChains(chains, chain).value;
    if i == |chains| {
      FoundLast(chains, chain);
      var new_ := if chain.terminal.Hcm? then chain.terminal.vhosts else [];
      assert HostsIn(AddChain(c, name, chain).value, name, chain.match_) == new_ && [] + new_ == new_;
      NothingUnique();
    } else {
      var both := chains[i].terminal.vhosts + chain.terminal.vhosts;
      FoundSame(chains, i, Hcm(UnionByName(both, {})));
      UnionByNameShape(both, {});
      forall v ensures First(UnionByName(both, {}), v) == First(both, v) {
        FirstOfUnion(both, {}, v);
      }
    }
  }

  lemma NothingUnique()
    ensures UniqueNames([])
  {
  }

  lemma FoundLast(chains: seq<Chain>, chain: Chain)
    requires FindChain(chains, chain.match_) == |chains|
    ensures FindChain(chains + [chain], chain.match_) == |chains|
  {
    hide FindChain;
    var out := chains + [chain];
    assert out[|chains|].match_ == chain.match_ && forall k :: 0 <= k < |chains| ==> out[k] == chains[k];
  }

  lemma FoundSame(chains: seq<Chain>, i: nat, t: Terminal)
    requires i < |chains| && FindChain(chains, chains[i].match_) == i
    ensures FindChain(chains[i := chains[i].(terminal := t)], chains[i].match_) == i
  {
    hide FindChain;
    var out := chains[i := chains[i].(terminal := t)];
    assert forall k :: 0 <= k < |chains| ==> out[k].match_ == chains[k].match_;
  }

  lemma NotDenyAll(dst: string, port: int)
    ensures VirtualHostName(dst, port) != DENY_ALL.name
  {
    hide Sanitize, PortText, NormalizeDomain, IsWildcard;
    PortTextShape(port);
    var t, name := PortText(port), VirtualHostName(dst, port);
    PortTextEnds(port);
    assert name[|name| - 1] == t[|t| - 1];
    assert DENY_ALL.name[|DENY_ALL.name| - 1] == 'l';
  }

  lemma PortTextEnds(p: int)
    ensures PortText(p) != "" && IsDigit(PortText(p)[|PortText(p)| - 1])
  {
    var d := Itoa(if p < 0 then -p else p);
    assert IsDigit(d[|d| - 1]);
  }

  lemma BroughtUnique(p: Perm, net: Net)
    requires Web(p)
    ensures UniqueNames(Brought(p, net))
  {
    hide VirtualHostName, HttpDomains, WebBase, HttpRow;
    NotDenyAll(p.rule.dst, WebBase(p, net).port);
  }

  /** Every permutation is an HTTP stack or makes no virtual host. */
  predicate Shaped(p: Perm) { Web(p) || Managerless(p.layers) }

  lemma CommitMerges(ctx: Ctx, c: Config, n: string, m: Match)
    requires Commit(ctx, c).Some? && UniqueNames(HostsIn(c, n, m))
    requires ctx.terminal.Some? && ctx.terminal.value.Hcm? ==> UniqueNames(ctx.terminal.value.vhosts)
    ensures Merged(HostsIn(c, n, m),
                   if ctx.terminal.Some? && ctx.terminal.value.Hcm? && ctx.listener == n && ctx.match_ == m
                   then ctx.terminal.value.vhosts else [],
                   HostsIn(Commit(ctx, c).value, n, m))
  {
    hide AddClusters, AddChain, UniqueNames, Merged;
    AddClustersKeeps(c, ctx.clusters);
    var c1 := AddClusters(c, ctx.clusters).value;
    assert HostsIn(c1, n, m) == HostsIn(c, n, m);
    hide HostsIn;
    MergedNothing(HostsIn(c, n, m));
    if ctx.terminal.Some? {
      var chain := Chain(ctx.match_, ctx.terminal.value);
      if ctx.listener == n && ctx.match_ == m {
        HostsHere(c1, n, chain);
      } else {
        HostsElsewhere(c1, ctx.listener, chain, n, m);
      }
    }
  }

  lemma MergedNothing(a: seq<VHost>)
    requires UniqueNames(a)
    ensures Merged(a, [], a)
  {
    assert a + [] == a;
  }

  lemma PermMerges(p: Perm, net: Net, ports: EnvoyPorts, c: Config, n: string, m: Match)
    requires Shaped(p) && RunPerm(p, net, ports, c).Some? && UniqueNames(HostsIn(c, n, m))
    ensures Merged(HostsIn(c, n, m), BroughtTo(p, net, n, m), HostsIn(RunPerm(p, net, ports, c).value, n, m))
  {
    hide RunLayers, Commit, HostsIn, Web, WebBase, Brought, UniqueNames, SameChains, Merged, Managerless;
    var (ctx, c1) := RunLayers(p.layers, p.rule, net, ports, NEW_CTX, c).value;
    LayersSameChains(p.layers, p.rule, net, ports, NEW_CTX, c);
    SameChainsHosts(c, c1, n, m);
    if Web(p) {
      WebRuns(p, net, ports, c);
      BroughtUnique(p, net);
    } else {
      ManagerlessRun(p.layers, p.rule, net, ports, NEW_CTX, c);
    }
    CommitMerges(ctx, c1, n, m);
  }

  // ---------------------------------------------------------------- every run

  /** What the permutations that run bring to a chain, in order. */
  function Hosts(ps: seq<Perm>, net: Net, n: string, m: Match, seen: set<string>): seq<VHost> {
    if ps == [] then []
    else if ps[0].key in seen then Hosts(ps[1..], net, n, m, seen)
    else BroughtTo(ps[0], net, n, m) + Hosts(ps[1..], net, n, m, seen + {ps[0].key})
  }

  lemma MergedTwice(a: seq<VHost>, b: seq<VHost>, c: seq<VHost>, d: seq<VHost>, e: seq<VHost>)
    requires Merged(a, b, c) && Merged(c, d, e)
    ensures Merged(a, b + d, e)
  {
    hide UniqueNames, First;
    forall name ensures First(e, name) == First(a + (b + d), name) {
      FirstAppend(a, b, name);
      FirstAppend(c, d, name);
      FirstAppend(b, d, name);
      FirstAppend(a, b + d, name);
    }
  }

  lemma {:induction false} RunMerges(ps: seq<Perm>, net: Net, ports: EnvoyPorts, c: Config, seen: set<string>, n: string, m: Match)
    requires forall p :: p in ps ==> Shaped(p)
    requires RunPerms(ps, net, ports, c, seen).Some? && UniqueNames(HostsIn(c, n, m))
    ensures Merged(HostsIn(c, n, m), Hosts(ps, net, n, m, seen), HostsIn(RunPerms(ps, net, ports, c, seen).value, n, m))
    decreases |ps|
  {
    hide RunPerm, HostsIn, Shaped, BroughtTo, UniqueNames, Merged;
    if ps == [] {
      MergedNothing(HostsIn(c, n, m));
    } else {
      assert ps[0] in ps;
      if ps[0].key in seen {
        RunMerges(ps[1..], net, ports, c, seen, n, m);
      } else {
        PermMerges(ps[0], net, ports, c, n, m);
        var c1 := RunPerm(ps[0], net, ports, c).value;
        MergedUnique(HostsIn(c, n, m), BroughtTo(ps[0], net, n, m), HostsIn(c1, n, m));
        RunMerges(ps[1..], net, ports, c1, seen + {ps[0].key}, n, m);
        MergedTwice(HostsIn(c, n, m), BroughtTo(ps[0], net, n, m), HostsIn(c1, n, m),
                    Hosts(ps[1..], net, n, m, seen + {ps[0].key}), HostsIn(RunPerms(ps, net, ports, c, seen).value, n, m));
      }
    }
  }

  lemma MergedUnique(a: seq<VHost>, b: seq<VHost>, c: seq<VHost>)
    requires Merged(a, b, c)
    ensures UniqueNames(c)
  {
    hide UniqueNames;
  }

  // ---------------------------------------------------------------- the permutations of rules

  lemma HttpRowWeb(p: Perm, a: Layer, b: Layer, net: Net, gen: Gen, ws: bool)
    requires Pairing(a, b, p.rule, net, gen) && p.layers == HttpRow(ws, a, b)
    ensures Web(p) && p.layers[|p.layers| - 3] == a && p.layers[|p.layers| - 2] == b && (|p.layers| == 4 <==> ws)
  {
    hide Lower, IsWildcard;
  }

  lemma DerivedShaped(rules: seq<Rule>, net: Net, gen: Gen, promoted: set<string>, p: Perm)
    requires p in Derive(rules, net, gen, promoted)
    ensures Shaped(p)
  {
    hide Derive, LayersFor, PermKey, StandsFor, Managerless, Lower, Pairing, Web, OriginKey, HttpRow;
    DeriveFrom(rules, net, gen, promoted);
    var j :| 0 <= j < |rules| && From(p, rules[j], net, gen);
    assert p.layers in LayersFor(p.rule, net, gen);
    if Lower(p.rule.proto) == "http" || Lower(p.rule.proto) == "https" {
      HttpRowsShape(p.rule, net, gen);
      var a, b :| Pairing(a, b, p.rule, net, gen) && p.layers == HttpRow(OriginKey(p.rule) in gen.wsOrigins, a, b);
      HttpRowWeb(p, a, b, net, gen, OriginKey(p.rule) in gen.wsOrigins);
    } else {
      OpaqueRowsTidy(p.rule, net, gen);
    }
  }

  function Perms(rules: seq<Rule>, net: Net, ports: EnvoyPorts): seq<Perm> {
    Derive(rules, net, GenFacts(rules, net, ports), {})
  }

  /** For every rule list, listener and match: the virtual hosts of the chain are exactly the
      first of each name among those its permutations bring. */
  lemma ChainHosts(rules: seq<Rule>, net: Net, ports: EnvoyPorts, n: string, m: Match)
    requires Generate(rules, net, ports).Some?
    ensures var cfg := Generate(rules, net, ports).value;
            && UniqueNames(HostsIn(cfg, n, m))
            && forall v :: v in HostsIn(cfg, n, m) <==> First(Hosts(Perms(rules, net, ports), net, n, m, {}), v.name) == Some(v)
  {
    hide Derive, GenFacts, RunPerms, Shaped, UniqueNames, First, Hosts;
    var ps := Perms(rules, net, ports);
    forall p | p in ps ensures Shaped(p) {
      DerivedShaped(rules, net, GenFacts(rules, net, ports), {}, p);
    }
    NothingUnique();
    RunMerges(ps, net, ports, Config(map[], map[]), {}, n, m);
    var hosts, brought := HostsIn(Generate(rules, net, ports).value, n, m), Hosts(ps, net, n, m, {});
    assert [] + brought == brought;
    forall v ensures v in hosts <==> First(brought, v.name) == Some(v) {
      FirstOfUnique(hosts, v);
    }
  }
}

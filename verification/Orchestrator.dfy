/** The generator as it runs: facts and permutations are collected in loops, and every
    permutation mutates the accumulator until one of them fails. */
module Orchestrator {
  import opened Text
  import opened Rules
  import opened Dedicated
  import opened EnvoyConfig
  import opened Generator
  import opened Guards

  // ---------------------------------------------------------------- facts and permutations

  method FillTable(ms: seq<Mapping>) returns (table: map<string, int>)
    ensures table == PortTable(ms)
  {
    hide PortKey;
    table := map[];
    for i := 0 to |ms|
      invariant table == PortTable(ms[..i])
    {
      assert ms[..i + 1][..i] == ms[..i];
      table := table[PortKey(ms[i].dst, ms[i].dstPort) := ms[i].envoyPort];
    }
    assert ms[..|ms|] == ms;
  }

  method CollectOrigins(rules: seq<Rule>) returns (exact: set<string>, wsOrigins: set<string>, baseOrigins: set<string>)
    ensures exact == set r | r in rules && OwnsApex(r) :: NormalizeDomain(r.dst)
    ensures wsOrigins == set r | r in rules && Allows(r) && IsWebsocket(r) :: OriginKey(r)
    ensures baseOrigins == set r | r in rules && Allows(r) && IsBase(r) :: OriginKey(r)
  {
    hide NormalizeDomain, OriginKey, IsWebsocket, IsBase, Allows, OwnsApex;
    exact, wsOrigins, baseOrigins := {}, {}, {};
    for i := 0 to |rules|
      invariant exact == set r | r in rules[..i] && OwnsApex(r) :: NormalizeDomain(r.dst)
      invariant wsOrigins == set r | r in rules[..i] && Allows(r) && IsWebsocket(r) :: OriginKey(r)
      invariant baseOrigins == set r | r in rules[..i] && Allows(r) && IsBase(r) :: OriginKey(r)
    {
      var r := rules[i];
      assert rules[..i + 1] == rules[..i] + [r];
      OwnersAllow(r);
      if !Allows(r) {
        continue;
      }
      if IsWebsocket(r) {
        wsOrigins := wsOrigins + {OriginKey(r)};
      }
      if IsBase(r) {
        baseOrigins := baseOrigins + {OriginKey(r)};
      }
      if OwnsApex(r) {
        exact := exact + {NormalizeDomain(r.dst)};
      }
    }
    assert rules[..|rules|] == rules;
  }

  lemma OwnersAllow(r: Rule)
    ensures OwnsApex(r) ==> Allows(r)
  {
  }

  method DeriveGenFacts(rules: seq<Rule>, net: Net, ports: EnvoyPorts) returns (gen: Gen)
    ensures gen == GenFacts(rules, net, ports)
  {
    hide PortTable, Assign, Fanout, NormalizeDomain, OriginKey, IsWebsocket, IsBase, Allows, OwnsApex;
    var exact, wsOrigins, baseOrigins := CollectOrigins(rules);
    var tcp := DedicatedMappings(Tcp, net.kind, rules, ports.tcpBase);
    var tcpTable := FillTable(tcp);
    var udp := DedicatedMappings(Udp, net.kind, rules, ports.udpBase);
    var udpTable := FillTable(udp);
    gen := Gen(tcpTable, udpTable, exact, wsOrigins, baseOrigins);
  }

  lemma DeriveStep(rules: seq<Rule>, i: nat, net: Net, gen: Gen, promoted: set<string>, perms: seq<Perm>)
    requires i < |rules|
    ensures var e := Effective(rules[i], gen, promoted);
            perms + Derive(rules[i..], net, gen, promoted) ==
            if e.None? then perms + Derive(rules[i + 1..], net, gen, promoted)
            else perms + PermsOf(e.value, LayersFor(e.value, net, gen))
                 + Derive(rules[i + 1..], net, gen, if IsWebsocket(rules[i]) then promoted + {OriginKey(rules[i])} else promoted)
  {
    hide LayersFor, PermsOf, Effective, OriginKey, IsWebsocket;
    assert rules[i..][0] == rules[i] && rules[i..][1..] == rules[i + 1..];
    var e := Effective(rules[i], gen, promoted);
    if e.Some? {
      Assoc(perms, PermsOf(e.value, LayersFor(e.value, net, gen)),
            Derive(rules[i + 1..], net, gen, if IsWebsocket(rules[i]) then promoted + {OriginKey(rules[i])} else promoted));
    }
  }

  lemma DeriveNothing(net: Net, gen: Gen, promoted: set<string>)
    ensures Derive([], net, gen, promoted) == []
  {
  }

  method DerivePermutations(rules: seq<Rule>, net: Net, ports: EnvoyPorts) returns (perms: seq<Perm>)
    ensures perms == Derive(rules, net, GenFacts(rules, net, ports), {})
  {
    hide GenFacts, LayersFor, PermsOf, Effective, Derive, OriginKey, IsWebsocket;
    var gen := DeriveGenFacts(rules, net, ports);
    var promoted: set<string> := {};
    perms := [];
    ghost var goal := Derive(rules, net, gen, {});
    assert rules[0..] == rules && perms + goal == goal;
    for i := 0 to |rules|
      invariant perms + Derive(rules[i..], net, gen, promoted) == goal
    {
      var r := rules[i];
      DeriveStep(rules, i, net, gen, promoted, perms);
      var e := Effective(r, gen, promoted);
      if e.Some? {
        perms := perms + PermsOf(e.value, LayersFor(e.value, net, gen));
        if IsWebsocket(r) {
          promoted := promoted + {OriginKey(r)};
        }
      }
    }
    DeriveNothing(net, gen, promoted);
    assert rules[|rules|..] == [];
  }

  // ---------------------------------------------------------------- layers on the accumulator

  /** The listener layers: the listener is made once, and the context moves onto it. */
  method OnListener(acc: Accumulator, ctx: Ctx, name: string, bind: int, udp: bool, m: Match, port: int, bare: int) returns (ctx': Ctx)
    requires acc.Valid()
    modifies acc`listeners
    ensures acc.Valid() && acc.Tree() == EnsureListener(old(acc.Tree()), name, bind, udp)
    ensures ctx' == ctx.(listener := name, match_ := m, port := port, bareHostPort := bare)
  {
    acc.EnsureListenerIn(name, bind, udp);
    ctx' := ctx.(listener := name, match_ := m, port := port, bareHostPort := bare);
  }

  method RunListenerLayer(acc: Accumulator, l: Layer, r: Rule, net: Net, ports: EnvoyPorts, ctx: Ctx) returns (ok: bool, ctx': Ctx)
    requires acc.Valid() && ListenerLayer(l)
    modifies acc`listeners
    ensures acc.Valid()
    ensures ok <==> RunLayer(l, r, net, ports, ctx, old(acc.Tree())).Some?
    ensures ok ==> RunLayer(l, r, net, ports, ctx, old(acc.Tree())) == Some((ctx', acc.Tree()))
    ensures !ok ==> acc.Tree() == old(acc.Tree())
  {
    hide NormalizeDomain, HttpPort, HttpsPort, CryptoMatch, SlotName, EnsureListener, NameFor, AppVHosts;
    ok := true;
    match l {
      case TcpEgress => ctx' := OnListener(acc, ctx, EGRESS, ports.egress, false, RawBuffer, HttpPort(r), HTTP_PORT);
      case PrefixRange(p) =>
        ctx' := OnListener(acc, ctx, EGRESS, ports.egress, false, RawRange(net.range(r.dst), p), p, ctx.bareHostPort);
      case TlsSni(exact) =>
        ctx' := OnListener(acc, ctx, EGRESS, ports.egress, false, CryptoMatch(r, net, exact, true), HttpsPort(r), DEFAULT_DEST_PORT);
      case QuicSni(exact) =>
        if net.kind(r.dst) != Fqdn {
          return false, ctx;
        }
        ctx' := OnListener(acc, ctx, QUIC, ports.egress, true, CryptoMatch(r, net, exact, false), HttpsPort(r), DEFAULT_DEST_PORT);
      case DedicatedListener(fam, envoyPort, dstPort) =>
        var name := SlotName(fam, NormalizeDomain(r.dst), dstPort);
        ctx' := OnListener(acc, ctx, name, envoyPort, fam == Udp, AnyConnection, dstPort, ctx.bareHostPort);
    }
  }

  method SetTarget(acc: Accumulator, ctx: Ctx, cluster: string) returns (ok: bool)
    requires acc.Valid()
    modifies acc`listeners
    ensures acc.Valid() && (ok <==> Target(ctx, old(acc.Tree()), cluster).Some?)
    ensures ok ==> Target(ctx, old(acc.Tree()), cluster) == Some((ctx, acc.Tree()))
    ensures !ok ==> acc.Tree() == old(acc.Tree())
  {
    hide SetUdpTarget;
    ok := acc.SetUdpTargetIn(ctx.listener, cluster);
  }

  method RunTerminalLayer(acc: Accumulator, l: Layer, r: Rule, net: Net, ports: EnvoyPorts, ctx: Ctx) returns (ok: bool, ctx': Ctx)
    requires acc.Valid() && TerminalLayer(l)
    modifies acc`listeners
    ensures acc.Valid()
    ensures ok <==> RunLayer(l, r, net, ports, ctx, old(acc.Tree())).Some?
    ensures ok ==> RunLayer(l, r, net, ports, ctx, old(acc.Tree())) == Some((ctx', acc.Tree()))
    ensures !ok ==> acc.Tree() == old(acc.Tree())
  {
    hide NormalizeDomain, HttpPort, HttpsPort, CryptoMatch, SlotName, EnsureListener, NameFor, AppVHosts, Target;
    ok, ctx' := true, ctx;
    match l {
      case ProxyTerminal(fam) =>
        if ctx.upstream == "" {
          return false, ctx;
        }
        if fam == Tcp {
          ctx' := ctx.(terminal := Some(Proxy(ctx.upstream)));
        } else {
          ok := SetTarget(acc, ctx, ctx.upstream);
        }
      case DenyTerminal(fam) =>
        ctx' := ctx.(clusters := ctx.clusters + [(DENY, Blackhole)]);
        if fam == Tcp {
          ctx' := ctx'.(terminal := Some(Proxy(DENY)));
        } else {
          ok := SetTarget(acc, ctx', DENY);
        }
      case HttpApp =>
        if ctx.listener == "" || ctx.upstream == "" {
          return false, ctx;
        }
        ctx' := ctx.(terminal := Some(Hcm(AppVHosts(r, net, ctx))));
    }
  }

  method RunLayerIn(acc: Accumulator, l: Layer, r: Rule, net: Net, ports: EnvoyPorts, ctx: Ctx) returns (ok: bool, ctx': Ctx)
    requires acc.Valid()
    modifies acc`listeners
    ensures acc.Valid()
    ensures ok <==> RunLayer(l, r, net, ports, ctx, old(acc.Tree())).Some?
    ensures ok ==> RunLayer(l, r, net, ports, ctx, old(acc.Tree())) == Some((ctx', acc.Tree()))
    ensures !ok ==> acc.Tree() == old(acc.Tree())
  {
    if ListenerLayer(l) {
      ok, ctx' := RunListenerLayer(acc, l, r, net, ports, ctx);
    } else if TerminalLayer(l) {
      ok, ctx' := RunTerminalLayer(acc, l, r, net, ports, ctx);
    } else if l == WsEnrich {
      ok, ctx' := true, ctx.(websocket := true);
    } else {
      var (name, body) := Upstream(l, r, net, ctx);
      ok, ctx' := true, WithUpstream(ctx, name, body);
    }
    hide RunLayer, Upstream;
  }

  method RunLayersIn(acc: Accumulator, p: Perm, net: Net, ports: EnvoyPorts) returns (ok: bool, ctx: Ctx)
    requires acc.Valid()
    modifies acc`listeners
    ensures acc.Valid()
    ensures ok <==> RunLayers(p.layers, p.rule, net, ports, NEW_CTX, old(acc.Tree())).Some?
    ensures ok ==> RunLayers(p.layers, p.rule, net, ports, NEW_CTX, old(acc.Tree())) == Some((ctx, acc.Tree()))
  {
    hide RunLayer;
    ok, ctx := true, NEW_CTX;
    ghost var goal := RunLayers(p.layers, p.rule, net, ports, NEW_CTX, acc.Tree());
    for i := 0 to |p.layers|
      invariant acc.Valid() && RunLayers(p.layers[i..], p.rule, net, ports, ctx, acc.Tree()) == goal
    {
      assert p.layers[i..][0] == p.layers[i] && p.layers[i..][1..] == p.layers[i + 1..];
      ok, ctx := RunLayerIn(acc, p.layers[i], p.rule, net, ports, ctx);
      if !ok {
        return;
      }
    }
    ok := true;
    assert p.layers[|p.layers|..] == [];
  }

  method CommitIn(acc: Accumulator, ctx: Ctx) returns (ok: bool)
    requires acc.Valid()
    modifies acc`listeners, acc`clusters
    ensures acc.Valid()
    ensures ok <==> Commit(ctx, old(acc.Tree())).Some?
    ensures ok ==> Commit(ctx, old(acc.Tree())) == Some(acc.Tree())
  {
    hide AddCluster, AddChain;
    ghost var goal := AddClusters(acc.Tree(), ctx.clusters);
    for i := 0 to |ctx.clusters|
      invariant acc.Valid() && AddClusters(acc.Tree(), ctx.clusters[i..]) == goal
    {
      assert ctx.clusters[i..][0] == ctx.clusters[i] && ctx.clusters[i..][1..] == ctx.clusters[i + 1..];
      var added := acc.AddClusterIn(ctx.clusters[i].0, ctx.clusters[i].1);
      if !added {
        return false;
      }
    }
    assert ctx.clusters[|ctx.clusters|..] == [];
    if ctx.terminal.Some? {
      ok := acc.AddChainIn(ctx.listener, Chain(ctx.match_, ctx.terminal.value));
    } else {
      ok := true;
    }
  }

  method RunPermIn(acc: Accumulator, p: Perm, net: Net, ports: EnvoyPorts) returns (ok: bool)
    requires acc.Valid()
    modifies acc`listeners, acc`clusters
    ensures acc.Valid()
    ensures ok <==> RunPerm(p, net, ports, old(acc.Tree())).Some?
    ensures ok ==> RunPerm(p, net, ports, old(acc.Tree())) == Some(acc.Tree())
  {
    hide RunLayers, Commit;
    var ctx;
    ok, ctx := RunLayersIn(acc, p, net, ports);
    if ok {
      ok := CommitIn(acc, ctx);
    }
  }

  /** Every permutation once, in order, on one accumulator; the first failure ends it. */
  method GenerateTree(rules: seq<Rule>, net: Net, ports: EnvoyPorts) returns (ok: bool, acc: Accumulator)
    ensures acc.Valid()
    ensures ok <==> Generate(rules, net, ports).Some?
    ensures ok ==> Generate(rules, net, ports) == Some(acc.Tree())
  {
    hide RunPerm, Derive, GenFacts;
    var perms := DerivePermutations(rules, net, ports);
    acc := new Accumulator();
    ghost var goal := RunPerms(perms, net, ports, acc.Tree(), {});
    for i := 0 to |perms|
      invariant acc.Valid() && fresh(acc)
      invariant RunPerms(perms[i..], net, ports, acc.Tree(), acc.seenPerms) == goal
    {
      assert perms[i..][0] == perms[i] && perms[i..][1..] == perms[i + 1..];
      ghost var seen := acc.seenPerms;
      var first := acc.ClaimPermutation(perms[i].key);
      if first {
        ok := RunPermIn(acc, perms[i], net, ports);
        if !ok {
          return;
        }
      } else {
        SeenAlready(seen, perms[i].key);
      }
    }
    assert perms[|perms|..] == [];
    ok := true;
  }

  lemma SeenAlready(seen: set<string>, key: string)
    requires key in seen
    ensures seen + {key} == seen
  {
  }

  /** The generator's entry point: the guards first, then every permutation. A tree comes out
      exactly when every guard passes and every layer succeeds, and it is the generated one. */
  method GenerateEnvoyConfig(rules: seq<Rule>, net: Net, ports: EnvoyPorts) returns (refused: Option<Refusal>, ok: bool, acc: Accumulator)
    ensures acc.Valid()
    ensures refused.None? <==> Accepted(net.kind, rules, ports)
    ensures ok <==> Accepted(net.kind, rules, ports) && Generate(rules, net, ports).Some?
    ensures ok ==> Generate(rules, net, ports) == Some(acc.Tree())
  {
    hide Accepted, Generate;
    ok := false;
    acc := new Accumulator();
    refused := CheckRules(net.kind, rules, ports);
    if refused.None? {
      ok, acc := GenerateTree(rules, net, ports);
    }
  }
}

/** Opaque rules to an address range: every port has its own chain on the shared listener, which
    refuses the connection or lets it through to where it was going. */
module Ranges {
  import opened Text
  import opened Rules
  import opened Canonical
  import opened DenyWins
  import opened Dedicated
  import opened EnvoyConfig
  import opened Generator
  import opened Lockstep
  import opened LockstepRules
  import opened Chains
  import opened CrossRouting
  import opened Hosting
  import opened WebRules
  import opened EndToEnd

  /** A tcp or ssh rule to an address range. */
  predicate RangeRule(r: Rule, net: Net) { InFamily(Tcp, r) && net.kind(r.dst) == Cidr }

  /** The cluster a port of the range ends in. */
  function RangeTarget(dst: string, deny: bool, p: int): string {
    if deny then DENY else NameFor("tcp_origdst_", NormalizeDomain(dst), p)
  }

  function RangeCluster(deny: bool): Cluster { if deny then Blackhole else OriginalDst(Plaintext) }

  // ---------------------------------------------------------------- one permutation

  predicate RangeRow(row: seq<Layer>, deny: bool, p: int) {
    row == [PrefixRange(p)] + (if deny then [DenyTerminal(Tcp)] else [OpaqueCidrUpstream, ProxyTerminal(Tcp)])
  }

  /** The context the layers of a range port end with. */
  function RangeCtx(dst: string, net: Net, deny: bool, p: int): Ctx {
    var target := RangeTarget(dst, deny, p);
    Ctx(EGRESS, RawRange(net.range(dst), p), Some(Proxy(target)), [(target, RangeCluster(deny))], p, 0, if deny then "" else target, false)
  }

  lemma DenyRangeRuns(r: Rule, net: Net, ports: EnvoyPorts, c: Config, p: int)
    requires RunLayers([PrefixRange(p), DenyTerminal(Tcp)], r, net, ports, NEW_CTX, c).Some?
    ensures RunLayers([PrefixRange(p), DenyTerminal(Tcp)], r, net, ports, NEW_CTX, c).value.0 == RangeCtx(r.dst, net, true, p)
  {
    hide RunLayers, EnsureListener, NormalizeDomain;
    assert [PrefixRange(p)] + [DenyTerminal(Tcp)] == [PrefixRange(p), DenyTerminal(Tcp)] && [DenyTerminal(Tcp)] + [] == [DenyTerminal(Tcp)];
    RunTwo(PrefixRange(p), [DenyTerminal(Tcp)], r, net, ports, NEW_CTX, c);
    var (x, c1) := RunLayer(PrefixRange(p), r, net, ports, NEW_CTX, c).value;
    RunTwo(DenyTerminal(Tcp), [], r, net, ports, x, c1);
    var (y, c2) := RunLayer(DenyTerminal(Tcp), r, net, ports, x, c1).value;
    RunNothing(r, net, ports, y, c2);
    assert [] + [(DENY, Blackhole)] == [(DENY, Blackhole)];
  }

  lemma AllowRangeRuns(r: Rule, net: Net, ports: EnvoyPorts, c: Config, p: int)
    requires RunLayers([PrefixRange(p), OpaqueCidrUpstream, ProxyTerminal(Tcp)], r, net, ports, NEW_CTX, c).Some?
    ensures RunLayers([PrefixRange(p), OpaqueCidrUpstream, ProxyTerminal(Tcp)], r, net, ports, NEW_CTX, c).value.0 == RangeCtx(r.dst, net, false, p)
  {
    hide RunLayers, EnsureListener, NameFor, NormalizeDomain;
    var last := [ProxyTerminal(Tcp)];
    assert [PrefixRange(p)] + ([OpaqueCidrUpstream] + last) == [PrefixRange(p), OpaqueCidrUpstream, ProxyTerminal(Tcp)] && last + [] == last;
    RunTwo(PrefixRange(p), [OpaqueCidrUpstream] + last, r, net, ports, NEW_CTX, c);
    var (x, c1) := RunLayer(PrefixRange(p), r, net, ports, NEW_CTX, c).value;
    RunTwo(OpaqueCidrUpstream, last, r, net, ports, x, c1);
    var (y, c2) := RunLayer(OpaqueCidrUpstream, r, net, ports, x, c1).value;
    RunTwo(ProxyTerminal(Tcp), [], r, net, ports, y, c2);
    var (z, c3) := RunLayer(ProxyTerminal(Tcp), r, net, ports, y, c2).value;
    RunNothing(r, net, ports, z, c3);
    var body := (RangeTarget(r.dst, false, p), OriginalDst(Plaintext));
    assert [] + [body] == [body];
  }

  /** The chain of a match on the shared listener ends in this cluster, and in no other way. */
  ghost predicate EndsIn(c: Config, m: Match, cluster: string) {
    EGRESS in c.listeners && Chain(m, Proxy(cluster)) in c.listeners[EGRESS].chains
  }

  ghost predicate RangeServed(c: Config, dst: string, net: Net, deny: bool, p: int) {
    var target := RangeTarget(dst, deny, p);
    EndsIn(c, RawRange(net.range(dst), p), target) && target in c.clusters && c.clusters[target] == RangeCluster(deny)
  }

  lemma ChainLands(c: Config, chain: Chain)
    requires AddChain(c, EGRESS, chain).Some? && chain.terminal.Proxy?
    ensures var c' := AddChain(c, EGRESS, chain).value; EGRESS in c'.listeners && chain in c'.listeners[EGRESS].chains
  {
    hide FindChain, UnionByName;
    var chains := c.listeners[EGRESS].chains;
    assert AddToChains(chains, chain) == Some(chains + [chain]);
    assert (chains + [chain])[|chains|] == chain;
  }

  lemma RangePermServes(q: Perm, net: Net, ports: EnvoyPorts, c: Config, deny: bool, p: int)
    requires RangeRow(q.layers, deny, p) && RunPerm(q, net, ports, c).Some?
    ensures RangeServed(RunPerm(q, net, ports, c).value, q.rule.dst, net, deny, p)
  {
    hide RunLayers, AddClusters, AddChain, RangeTarget, RangeCluster;
    if deny {
      assert q.layers == [PrefixRange(p), DenyTerminal(Tcp)];
      DenyRangeRuns(q.rule, net, ports, c, p);
    } else {
      assert q.layers == [PrefixRange(p), OpaqueCidrUpstream, ProxyTerminal(Tcp)];
      AllowRangeRuns(q.rule, net, ports, c, p);
    }
    var (ctx, c1) := RunLayers(q.layers, q.rule, net, ports, NEW_CTX, c).value;
    AddClustersKeeps(c1, ctx.clusters);
    assert ctx.clusters[0] in ctx.clusters;
    var c2 := AddClusters(c1, ctx.clusters).value;
    var chain := Chain(ctx.match_, ctx.terminal.value);
    ChainLands(c2, chain);
    AddChainClusters(c2, EGRESS, chain);
  }

  lemma AddChainClusters(c: Config, n: string, chain: Chain)
    requires AddChain(c, n, chain).Some?
    ensures var c' := AddChain(c, n, chain).value; c'.clusters == c.clusters && (EGRESS in c.listeners ==> EGRESS in c'.listeners)
  {
    hide AddToChains;
  }

  // ---------------------------------------------------------------- nothing undoes it

  lemma ProxyStays(chains: seq<Chain>, chain: Chain, ch: Chain)
    requires AddToChains(chains, chain).Some? && ch in chains && ch.terminal.Proxy?
    ensures ch in AddToChains(chains, chain).value
  {
    hide FindChain, UnionByName;
    var i := FindChain(chains, chain.match_);
    var j :| 0 <= j < |chains| && chains[j] == ch;
    var out := AddToChains(chains, chain).value;
    assert i < |chains| ==> j != i;
    assert out[j] == ch;
  }

  lemma PermKeepsServed(q: Perm, net: Net, ports: EnvoyPorts, c: Config, dst: string, deny: bool, p: int)
    requires WellFormed(c) && RangeServed(c, dst, net, deny, p) && RunPerm(q, net, ports, c).Some?
    ensures RangeServed(RunPerm(q, net, ports, c).value, dst, net, deny, p)
  {
    PermKeepsStructure(q, net, ports, c);
    hide RunLayers, AddClusters, AddToChains, RangeTarget, WellFormed;
    var (ctx, c1) := RunLayers(q.layers, q.rule, net, ports, NEW_CTX, c).value;
    LayersSameChains(q.layers, q.rule, net, ports, NEW_CTX, c);
    AddClustersKeeps(c1, ctx.clusters);
    var c2 := AddClusters(c1, ctx.clusters).value;
    var ch := Chain(RawRange(net.range(dst), p), Proxy(RangeTarget(dst, deny, p)));
    assert ch in c2.listeners[EGRESS].chains;
    if ctx.terminal.Some? && ctx.listener == EGRESS {
      ProxyStays(c2.listeners[EGRESS].chains, Chain(ctx.match_, ctx.terminal.value), ch);
    }
  }

  lemma {:induction false} RunKeepsServed(ps: seq<Perm>, net: Net, ports: EnvoyPorts, c: Config, seen: set<string>, dst: string, deny: bool, p: int)
    requires WellFormed(c) && RangeServed(c, dst, net, deny, p) && RunPerms(ps, net, ports, c, seen).Some?
    ensures RangeServed(RunPerms(ps, net, ports, c, seen).value, dst, net, deny, p)
    decreases |ps|
  {
    hide RunPerm, RangeServed, WellFormed;
    if ps != [] {
      if ps[0].key in seen {
        RunKeepsServed(ps[1..], net, ports, c, seen, dst, deny, p);
      } else {
        PermKeepsServed(ps[0], net, ports, c, dst, deny, p);
        PermKeepsStructure(ps[0], net, ports, c);
        RunKeepsServed(ps[1..], net, ports, RunPerm(ps[0], net, ports, c).value, seen + {ps[0].key}, dst, deny, p);
      }
    }
  }

  /** Whichever permutation of a key runs first, they all ask for the same chain. */
  lemma {:induction false} KeyServed(ps: seq<Perm>, k: nat, net: Net, ports: EnvoyPorts, c: Config, seen: set<string>, dst: string, deny: bool, p: int)
    requires k < |ps| && ps[k].key !in seen && WellFormed(c) && RunPerms(ps, net, ports, c, seen).Some?
    requires forall q :: q in ps && q.key == ps[k].key ==> q.rule.dst == dst && RangeRow(q.layers, deny, p)
    ensures RangeServed(RunPerms(ps, net, ports, c, seen).value, dst, net, deny, p)
    decreases k
  {
    hide RunPerm, RangeServed, RangeRow, WellFormed;
    assert ps[0] in ps && forall q :: q in ps[1..] ==> q in ps;
    if ps[0].key in seen {
      assert ps[1..][k - 1] == ps[k];
      KeyServed(ps[1..], k - 1, net, ports, c, seen, dst, deny, p);
    } else {
      PermKeepsStructure(ps[0], net, ports, c);
      var c' := RunPerm(ps[0], net, ports, c).value;
      if ps[0].key == ps[k].key {
        RangePermServes(ps[0], net, ports, c, deny, p);
        RunKeepsServed(ps[1..], net, ports, c', seen + {ps[0].key}, dst, deny, p);
      } else {
        assert ps[1..][k - 1] == ps[k];
        KeyServed(ps[1..], k - 1, net, ports, c', seen + {ps[0].key}, dst, deny, p);
      }
    }
  }

  // ---------------------------------------------------------------- every port of every range rule

  lemma {:induction false} OpaqueStack(rules: seq<Rule>, i: nat, t: nat, net: Net, gen: Gen, promoted: set<string>) returns (k: nat)
    requires i < |rules| && IsOpaque(rules[i]) && t < |LayersFor(rules[i], net, gen)|
    ensures k < |Derive(rules, net, gen, promoted)| && Derive(rules, net, gen, promoted)[k] == StackOf(rules[i], t, net, gen)
    decreases |rules|
  {
    hide LayersFor, PermKey, Derive, IsOpaque, Promoted, Head, StackOf;
    DeriveHead(rules, net, gen, promoted);
    if i == 0 {
      k := t;
      OpaqueHead(rules, t, net, gen, promoted);
    } else {
      k := OpaqueStack(rules[1..], i - 1, t, net, gen, Promoted(rules[0], gen, promoted));
      k := |Head(rules, net, gen, promoted)| + k;
    }
  }

  lemma OpaqueHead(rules: seq<Rule>, t: nat, net: Net, gen: Gen, promoted: set<string>)
    requires rules != [] && IsOpaque(rules[0]) && t < |LayersFor(rules[0], net, gen)|
    ensures var head := Head(rules, net, gen, promoted); t < |head| && head[t] == StackOf(rules[0], t, net, gen)
  {
    hide LayersFor, PermKey;
  }

  lemma RangeRowAt(r: Rule, net: Net, gen: Gen, p: int)
    requires RangeRule(r, net) && Holds(FanSpan(r), p)
    ensures var t := p - FanSpan(r).lo; t < |LayersFor(r, net, gen)| && RangeRow(LayersFor(r, net, gen)[t], IsDeny(r), p)
  {
    hide Lower, FanSpan, DedicatedRows, IsDeny, HttpRows, HttpsRows;
  }

  /** Two rules that read the same fan out the same. */
  lemma SameTextSameRow(e: Rule, r: Rule, net: Net, gen: Gen, p: int)
    requires e.dst == r.dst && e.port == r.port && Lower(e.action) == Lower(r.action) && Lower(e.proto) == Lower(r.proto)
    requires RangeRule(r, net) && Holds(FanSpan(r), p)
    ensures var t := p - FanSpan(r).lo; t < |LayersFor(e, net, gen)| && RangeRow(LayersFor(e, net, gen)[t], IsDeny(r), p)
  {
    hide Lower, ParsePortSpec, LayersFor, RangeRow;
    assert FanSpan(e) == FanSpan(r) && IsDeny(e) == IsDeny(r) && RangeRule(e, net);
    RangeRowAt(e, net, gen, p);
  }

  lemma SameKeySameRow(rules: seq<Rule>, r: Rule, net: Net, gen: Gen, p: int, q: Perm)
    requires forall s :: s in rules ==> Admissible(s) && PlainAction(s)
    requires r in rules && RangeRule(r, net) && Holds(FanSpan(r), p)
    requires q in Derive(rules, net, gen, {}) && q.key == PermKey(r, p - FanSpan(r).lo)
    ensures q.rule.dst == r.dst && RangeRow(q.layers, IsDeny(r), p)
  {
    hide Derive, LayersFor, PermKey, PlainAction, FanSpan, IsDeny, Lower, RangeRow, NormalizeDomain, ParsePortSpec, StandsFor;
    DeriveFrom(rules, net, gen, {});
    var j :| 0 <= j < |rules| && From(q, rules[j], net, gen);
    FromIsPlain(q, rules[j], net, gen);
    var u: nat :| Made(q, u, net, gen);
    assert Supported(r);
    PermKeyInjective(q.rule, u, r, p - FanSpan(r).lo);
    SameTextSameRow(q.rule, r, net, gen, p);
  }

  /** In the generated tree every port of a tcp or ssh rule to a range has one chain on the
      shared listener: it ends in the deny cluster if the rule denies, and else in a cluster that
      forwards to the original destination. */
  lemma RangeEnforced(rules: seq<Rule>, net: Net, ports: EnvoyPorts, r: Rule, p: int)
    requires Generate(rules, net, ports).Some? && forall s :: s in rules ==> Admissible(s) && PlainAction(s)
    requires r in rules && RangeRule(r, net) && Holds(FanSpan(r), p)
    ensures RangeServed(Generate(rules, net, ports).value, r.dst, net, IsDeny(r), p)
    ensures forall ch :: ch in Generate(rules, net, ports).value.listeners[EGRESS].chains && ch.match_ == RawRange(net.range(r.dst), p)
              ==> ch.terminal == Proxy(RangeTarget(r.dst, IsDeny(r), p))
  {
    hide Derive, GenFacts, LayersFor, RunPerms, PermKey, PlainAction, Admissible, FanSpan, IsDeny, RangeRow, RangeTarget, RangeCluster, UniqueMatches;
    var gen := GenFacts(rules, net, ports);
    var ps := Derive(rules, net, gen, {});
    var i :| 0 <= i < |rules| && rules[i] == r;
    RangeIsOpaque(r, net);
    RangeRowAt(r, net, gen, p);
    var t := p - FanSpan(r).lo;
    var k := OpaqueStack(rules, i, t, net, gen, {});
    forall q | q in ps && q.key == ps[k].key ensures q.rule.dst == r.dst && RangeRow(q.layers, IsDeny(r), p) {
      SameKeySameRow(rules, r, net, gen, p, q);
    }
    var empty := Config(map[], map[]);
    KeyServed(ps, k, net, ports, empty, {}, r.dst, IsDeny(r), p);
    RunKeepsStructure(ps, net, ports, empty, {});
    OneChain(Generate(rules, net, ports).value, Chain(RawRange(net.range(r.dst), p), Proxy(RangeTarget(r.dst, IsDeny(r), p))));
  }

  lemma RangeIsOpaque(r: Rule, net: Net)
    requires RangeRule(r, net)
    ensures IsOpaque(r)
  {
  }

  lemma OneChain(c: Config, chain: Chain)
    requires WellFormed(c) && EGRESS in c.listeners && chain in c.listeners[EGRESS].chains
    ensures forall ch :: ch in c.listeners[EGRESS].chains && ch.match_ == chain.match_ ==> ch.terminal == chain.terminal
  {
    var chains := c.listeners[EGRESS].chains;
    assert UniqueMatches(chains);
    forall ch | ch in chains && ch.match_ == chain.match_ ensures ch.terminal == chain.terminal {
      var i :| 0 <= i < |chains| && chains[i] == ch;
      var j :| 0 <= j < |chains| && chains[j] == chain;
      assert i == j;
    }
  }

  // ---------------------------------------------------------------- the ranges as written

  /** Some written spelling of this range has this port's chain. */
  ghost predicate RangeHeld(cfg: Config, out: seq<Rule>, net: Net, k: GroupId, deny: bool, p: int) {
    exists r :: r in out && GroupOf(r) == k && RangeServed(cfg, r.dst, net, deny, p)
  }

  lemma ClaimHeld(out: seq<Rule>, net: Net, ports: EnvoyPorts, k: GroupId, deny: bool, p: int)
    requires IsCanonical(out) && (forall r :: r in out ==> PlainAction(r)) && Generate(out, net, ports).Some?
    requires k.1 == "tcp" || k.1 == "ssh"
    requires forall r :: r in out && NormalizeDomain(r.dst) == k.0 ==> net.kind(r.dst) == Cidr
    requires Claims(out, k, deny, p)
    ensures RangeHeld(Generate(out, net, ports).value, out, net, k, deny, p)
  {
    hide IsCanonical, Claims, Generate, NormalizeDomain, Lower, ParsePortSpec, PlainAction, RangeServed, IsDeny, SpanOf;
    ClaimHasHolder(out, k, deny, p);
    var r :| Holder(out, k, deny, p, r);
    HolderOfHost(out, k, deny, p, r);
    HolderIsRange(out, k, deny, p, r, net);
    forall s | s in out ensures Admissible(s) {
      CanonicalAdmits(out, s);
    }
    RangeEnforced(out, net, ports, r, p);
  }

  lemma CanonicalAdmits(out: seq<Rule>, s: Rule)
    requires IsCanonical(out) && s in out
    ensures Admissible(s)
  {
    hide Admissible, NormalizeRule, InOrder, SameGroup;
    var j :| 0 <= j < |out| && out[j] == s;
    assert Settled(out[j]);
  }

  lemma HolderIsRange(out: seq<Rule>, k: GroupId, deny: bool, p: int, r: Rule, net: Net)
    requires Holder(out, k, deny, p, r) && net.kind(r.dst) == Cidr && (k.1 == "tcp" || k.1 == "ssh")
    ensures RangeRule(r, net) && Holds(FanSpan(r), p) && IsDeny(r) == deny && GroupOf(r) == k
  {
    hide NormalizeDomain, ParsePortSpec, IsDeny, SpanOf, Lower;
    assert Grouped(r) && GroupOf(r) == k;
  }

  /** A range's denied ports are refused, and those allowed and not denied are let through to
      where they were going, port by port as the rules were written. */
  lemma WrittenRangesEnforced(rules: seq<Rule>, net: Net, ports: EnvoyPorts, k: GroupId, p: int)
    requires Plain(rules) && Generate(Canonicalize(rules), net, ports).Some? && (k.1 == "tcp" || k.1 == "ssh")
    requires forall r :: r in Canonicalize(rules) ==> PlainAction(r)
    requires forall r :: r in Canonicalize(rules) && NormalizeDomain(r.dst) == k.0 ==> net.kind(r.dst) == Cidr
    ensures var out := Canonicalize(rules);
            var cfg := Generate(out, net, ports).value;
            && (Claims(rules, k, true, p) ==> RangeHeld(cfg, out, net, k, true, p))
            && (Claims(rules, k, false, p) && !Claims(rules, k, true, p) ==> RangeHeld(cfg, out, net, k, false, p))
  {
    hide Canonicalize, IsCanonical, Claims, SingleConflict, Generate, NormalizeDomain, Plain, PlainAction, RangeHeld;
    CanonicalizeIsCanonical(rules);
    DenyWinsExactly(rules, k, p);
    if Claims(rules, k, true, p) {
      ClaimHeld(Canonicalize(rules), net, ports, k, true, p);
    } else if Claims(rules, k, false, p) {
      ClaimHeld(Canonicalize(rules), net, ports, k, false, p);
    }
  }
}

/** What every run of permutations keeps: one chain per match, one body per cluster name,
    and no server name claimed by two chains of one listener. */
module Chains {
  import opened Text
  import opened Rules
  import opened Dedicated
  import opened EnvoyConfig
  import opened Generator
  import opened Lockstep
  import opened LockstepRules

  // ---------------------------------------------------------------- structure, for any permutations

  lemma LayerKeepsStructure(l: Layer, r: Rule, net: Net, ports: EnvoyPorts, ctx: Ctx, c: Config)
    requires WellFormed(c) && RunLayer(l, r, net, ports, ctx, c).Some?
    ensures var c' := RunLayer(l, r, net, ports, ctx, c).value.1; WellFormed(c') && ClustersKept(c, c')
  {
    hide NormalizeDomain, NameFor, HttpPort, HttpsPort, CryptoMatch, AppVHosts, SlotName, WithUpstream;
  }

  lemma {:induction false} LayersKeepStructure(ls: seq<Layer>, r: Rule, net: Net, ports: EnvoyPorts, ctx: Ctx, c: Config)
    requires WellFormed(c) && RunLayers(ls, r, net, ports, ctx, c).Some?
    ensures var c' := RunLayers(ls, r, net, ports, ctx, c).value.1; WellFormed(c') && ClustersKept(c, c')
    decreases |ls|
  {
    hide RunLayer, WellFormed;
    if ls != [] {
      LayerKeepsStructure(ls[0], r, net, ports, ctx, c);
      var (ctx', c') := RunLayer(ls[0], r, net, ports, ctx, c).value;
      LayersKeepStructure(ls[1..], r, net, ports, ctx', c');
    }
  }

  lemma PermKeepsStructure(p: Perm, net: Net, ports: EnvoyPorts, c: Config)
    requires WellFormed(c) && RunPerm(p, net, ports, c).Some?
    ensures var c' := RunPerm(p, net, ports, c).value; WellFormed(c') && ClustersKept(c, c')
  {
    hide RunLayers, AddClusters, UniqueMatches, AddChain;
    LayersKeepStructure(p.layers, p.rule, net, ports, NEW_CTX, c);
    var (ctx, c1) := RunLayers(p.layers, p.rule, net, ports, NEW_CTX, c).value;
    AddClustersKeeps(c1, ctx.clusters);
    var c2 := AddClusters(c1, ctx.clusters).value;
    if ctx.terminal.Some? {
      AddChainKeeps(c2, ctx.listener, Chain(ctx.match_, ctx.terminal.value));
    }
  }

  /** After any sequence of permutations no two chains of a listener share a match, and no
      cluster name was ever redefined on the way. */
  lemma {:induction false} RunKeepsStructure(ps: seq<Perm>, net: Net, ports: EnvoyPorts, c: Config, seen: set<string>)
    requires WellFormed(c) && RunPerms(ps, net, ports, c, seen).Some?
    ensures var c' := RunPerms(ps, net, ports, c, seen).value; WellFormed(c') && ClustersKept(c, c')
    decreases |ps|
  {
    hide RunPerm, WellFormed;
    if ps != [] {
      if ps[0].key in seen {
        RunKeepsStructure(ps[1..], net, ports, c, seen);
      } else {
        PermKeepsStructure(ps[0], net, ports, c);
        RunKeepsStructure(ps[1..], net, ports, RunPerm(ps[0], net, ports, c).value, seen + {ps[0].key});
      }
    }
  }

  // ---------------------------------------------------------------- who may claim a server name

  predicate Named(m: Match) { m.TlsNames? || m.QuicNames? }

  /** A destination whose claim is fair: wildcard, or recorded as an exact owner. */
  predicate FairClaim(dst: string, exact: set<string>) {
    '*' !in dst && (IsWildcard(dst) || NormalizeDomain(dst) in exact)
  }

  ghost predicate FairMatch(m: Match, exact: set<string>) {
    Named(m) ==> exists dst :: FairClaim(dst, exact) && m.names == ServerNames(dst, exact)
  }

  /** A named match sits on the listener of its transport. */
  ghost predicate FairOn(listener: string, m: Match, exact: set<string>) {
    FairMatch(m, exact) && (m.TlsNames? ==> listener == EGRESS) && (m.QuicNames? ==> listener == QUIC)
  }

  ghost predicate FairTree(c: Config, exact: set<string>) {
    forall n, chain :: n in c.listeners && chain in c.listeners[n].chains ==> FairOn(n, chain.match_, exact)
  }

  /** No server name is claimed by two of these chains. */
  ghost predicate NamesApart(chains: seq<Chain>) {
    forall i, j, name :: 0 <= i < j < |chains| && Named(chains[i].match_) && Named(chains[j].match_)
                         && name in chains[i].match_.names
                         ==> name !in chains[j].match_.names
  }

  lemma NormalizedHasNoStar(dst: string)
    requires '*' !in dst
    ensures '*' !in NormalizeDomain(dst)
  {
  }

  /** The server names of a rule, exactly: the host, and for a wildcard what lies below it, the
      host itself then only if no exact rule owns it. */
  lemma ServerNamesExactly(dst: string, exact: set<string>, name: string)
    ensures name in ServerNames(dst, exact) <==>
            || (IsWildcard(dst) && name == "*." + NormalizeDomain(dst))
            || (name == NormalizeDomain(dst) && (IsWildcard(dst) ==> NormalizeDomain(dst) !in exact))
  {
    hide NormalizeDomain, IsWildcard;
  }

  /** The only wildcard entry and the only plain entry a fair claim can hold. */
  lemma ClaimEntries(dst: string, exact: set<string>, name: string)
    requires FairClaim(dst, exact) && name in ServerNames(dst, exact)
    ensures if name != [] && name[0] == '*' then IsWildcard(dst) && name == "*." + NormalizeDomain(dst)
            else name == NormalizeDomain(dst) && (IsWildcard(dst) ==> name !in exact)
  {
    NormalizedHasNoStar(dst);
    hide NormalizeDomain, IsWildcard;
    var d := NormalizeDomain(dst);
    assert d != [] ==> d[0] in d;
    assert ("*." + d)[0] == '*';
  }

  /** Two fair claims that share an entry are one claim, exact and wildcard apexes included. */
  lemma SharedEntrySameClaim(dst: string, dst': string, exact: set<string>, name: string)
    requires FairClaim(dst, exact) && FairClaim(dst', exact)
    requires name in ServerNames(dst, exact) && name in ServerNames(dst', exact)
    ensures ServerNames(dst, exact) == ServerNames(dst', exact)
  {
    ClaimEntries(dst, exact, name);
    ClaimEntries(dst', exact, name);
    hide NormalizeDomain, IsWildcard;
    var d, d' := NormalizeDomain(dst), NormalizeDomain(dst');
    assert ("*." + d)[2..] == d && ("*." + d')[2..] == d';
  }

  /** Without the exclusion of '*' a literal star shares its entry with a wildcard. */
  lemma LiteralStarClashes()
    ensures var exact := {"*.x.io"};
            && "*.x.io" in ServerNames("*.x.io", exact) && "*.x.io" in ServerNames(".x.io", exact)
            && ServerNames("*.x.io", exact) != ServerNames(".x.io", exact)
  {
    assert NormalizeDomain(".x.io") == "x.io";
    assert |ServerNames("*.x.io", {"*.x.io"})| == 1;
    assert "x.io" !in {"*.x.io"};
    assert |ServerNames(".x.io", {"*.x.io"})| == 2;
    assert "*." + "x.io" == "*.x.io";
  }

  // ---------------------------------------------------------------- every run is fair

  predicate FairLayer(l: Layer, r: Rule, net: Net, exact: set<string>) {
    l.TlsSni? || l.QuicSni? ==> l.exact == exact && (net.kind(r.dst) == Fqdn ==> FairClaim(r.dst, exact))
  }

  predicate FairPerm(p: Perm, net: Net, exact: set<string>) {
    forall l :: l in p.layers ==> FairLayer(l, p.rule, net, exact)
  }

  lemma CryptoMatchFair(r: Rule, net: Net, exact: set<string>, tcp: bool)
    requires net.kind(r.dst) == Fqdn ==> FairClaim(r.dst, exact)
    ensures FairOn(if tcp then EGRESS else QUIC, CryptoMatch(r, net, exact, tcp), exact) || (!tcp && net.kind(r.dst) != Fqdn)
  {
    hide ServerNames, FairClaim, HttpsPort;
  }

  lemma FairLayerStep(l: Layer, r: Rule, net: Net, ports: EnvoyPorts, ctx: Ctx, c: Config, exact: set<string>)
    requires FairLayer(l, r, net, exact) && FairOn(ctx.listener, ctx.match_, exact) && FairTree(c, exact)
    requires RunLayer(l, r, net, ports, ctx, c).Some?
    ensures var (ctx', c') := RunLayer(l, r, net, ports, ctx, c).value;
            FairOn(ctx'.listener, ctx'.match_, exact) && FairTree(c', exact)
  {
    hide NormalizeDomain, NameFor, HttpPort, HttpsPort, CryptoMatch, AppVHosts, SlotName, FairClaim, ServerNames, IsDeny;
    if l.TlsSni? {
      CryptoMatchFair(r, net, exact, true);
    } else if l.QuicSni? {
      CryptoMatchFair(r, net, exact, false);
    }
    hide FairMatch;
    assert FairMatch(AnyConnection, exact) && FairMatch(RawBuffer, exact) by { PlainMatchesFair(exact); }
    PlainMatchesFair(exact);
  }

  lemma PlainMatchesFair(exact: set<string>)
    ensures forall m :: !Named(m) ==> FairMatch(m, exact)
  {
  }

  lemma {:induction false} FairLayers(ls: seq<Layer>, r: Rule, net: Net, ports: EnvoyPorts, ctx: Ctx, c: Config, exact: set<string>)
    requires forall l :: l in ls ==> FairLayer(l, r, net, exact)
    requires FairOn(ctx.listener, ctx.match_, exact) && FairTree(c, exact)
    requires RunLayers(ls, r, net, ports, ctx, c).Some?
    ensures var (ctx', c') := RunLayers(ls, r, net, ports, ctx, c).value;
            FairOn(ctx'.listener, ctx'.match_, exact) && FairTree(c', exact)
    decreases |ls|
  {
    hide RunLayer, FairLayer, FairOn, FairTree;
    if ls != [] {
      assert ls[0] in ls;
      FairLayerStep(ls[0], r, net, ports, ctx, c, exact);
      var (ctx', c') := RunLayer(ls[0], r, net, ports, ctx, c).value;
      FairLayers(ls[1..], r, net, ports, ctx', c', exact);
    }
  }

  lemma FairCommit(c: Config, listener: string, chain: Chain, exact: set<string>)
    requires FairTree(c, exact) && FairOn(listener, chain.match_, exact) && AddChain(c, listener, chain).Some?
    ensures FairTree(AddChain(c, listener, chain).value, exact)
  {
    hide FairOn, UnionByName;
    var c' := AddChain(c, listener, chain).value;
    var before, after := c.listeners[listener].chains, c'.listeners[listener].chains;
    forall x | x in after ensures FairOn(listener, x.match_, exact) {
      var i :| 0 <= i < |after| && after[i] == x;
      assert i < |before| ==> before[i] in before && after[i].match_ == before[i].match_;
    }
  }

  lemma FairPermStep(p: Perm, net: Net, ports: EnvoyPorts, c: Config, exact: set<string>)
    requires FairPerm(p, net, exact) && FairTree(c, exact) && RunPerm(p, net, ports, c).Some?
    ensures FairTree(RunPerm(p, net, ports, c).value, exact)
  {
    hide RunLayers, AddClusters, AddChain, FairLayer, FairMatch;
    PlainMatchesFair(exact);
    FairLayers(p.layers, p.rule, net, ports, NEW_CTX, c, exact);
    var (ctx, c1) := RunLayers(p.layers, p.rule, net, ports, NEW_CTX, c).value;
    AddClustersKeeps(c1, ctx.clusters);
    var c2 := AddClusters(c1, ctx.clusters).value;
    if ctx.terminal.Some? {
      FairCommit(c2, ctx.listener, Chain(ctx.match_, ctx.terminal.value), exact);
    }
  }

  lemma {:induction false} FairRun(ps: seq<Perm>, net: Net, ports: EnvoyPorts, c: Config, seen: set<string>, exact: set<string>)
    requires (forall p :: p in ps ==> FairPerm(p, net, exact)) && FairTree(c, exact)
    requires RunPerms(ps, net, ports, c, seen).Some?
    ensures FairTree(RunPerms(ps, net, ports, c, seen).value, exact)
    decreases |ps|
  {
    hide RunPerm, FairPerm, FairTree;
    if ps != [] {
      assert ps[0] in ps;
      if ps[0].key in seen {
        FairRun(ps[1..], net, ports, c, seen, exact);
      } else {
        FairPermStep(ps[0], net, ports, c, exact);
        FairRun(ps[1..], net, ports, RunPerm(ps[0], net, ports, c).value, seen + {ps[0].key}, exact);
      }
    }
  }

  // ---------------------------------------------------------------- rules derive fair permutations

  /** Rules as validation admits them: a known action and no '*' in the destination. */
  predicate Validated(r: Rule) { (Allows(r) || IsDeny(r)) && '*' !in r.dst }

  lemma {:induction false} DerivedRules(rules: seq<Rule>, net: Net, gen: Gen, promoted: set<string>)
    ensures forall p :: p in Derive(rules, net, gen, promoted) ==>
              exists r :: r in rules && From(p, r, net, gen) && (IsDeny(r) ==> IsOpaque(r))
    decreases |rules|
  {
    hide LayersFor, PermsOf, From, IsOpaque, IsDeny, IsWebsocket, BaseProto, OriginKey;
    if rules != [] {
      var next := if Effective(rules[0], gen, promoted).Some? && IsWebsocket(rules[0]) then promoted + {OriginKey(rules[0])} else promoted;
      DerivedRules(rules[1..], net, gen, next);
      assert forall r :: r in rules[1..] ==> r in rules;
      if Effective(rules[0], gen, promoted).Some? {
        PermsFrom(Effective(rules[0], gen, promoted).value, rules[0], net, gen);
        assert rules[0] in rules;
      }
    }
  }

  predicate NoSni(l: Layer) { !l.TlsSni? && !l.QuicSni? }

  predicate PlainRow(row: seq<Layer>) { forall l :: l in row ==> NoSni(l) }

  predicate FairRow(row: seq<Layer>, r: Rule, net: Net, exact: set<string>) {
    forall l :: l in row ==> FairLayer(l, r, net, exact)
  }

  lemma HttpRowFair(row: seq<Layer>, r: Rule, net: Net, gen: Gen)
    requires HttpRowOf(row, r, net, gen) && (Lower(r.proto) == "http" || Lower(r.proto) == "https")
    requires Lower(r.proto) == "https" && net.kind(r.dst) == Fqdn ==> FairClaim(r.dst, gen.exact)
    ensures FairRow(row, r, net, gen.exact)
  {
    hide Lower, OriginKey, IsWildcard, FairClaim;
  }

  lemma PlainIsFair(r: Rule, net: Net, exact: set<string>)
    ensures forall row :: PlainRow(row) ==> FairRow(row, r, net, exact)
  {
    hide FairClaim;
  }

  lemma OpaqueRowsPlain(r: Rule, net: Net, gen: Gen)
    requires Lower(r.proto) != "http" && Lower(r.proto) != "https"
    ensures forall row :: row in LayersFor(r, net, gen) ==> PlainRow(row)
  {
    DedicatedRowsPlain(Tcp, r, SlotsOf(r), gen);
    DedicatedRowsPlain(Udp, r, SlotsOf(r), gen);
    CidrRowsPlain(r);
    hide PlainRow, SlotsOf, Lower, DedicatedRows, CidrRows, HttpRows, HttpsRows;
  }

  lemma CidrRowsPlain(r: Rule)
    ensures forall row :: row in CidrRows(r) ==> PlainRow(row)
  {
    hide SlotsOf, IsDeny, FanSpan;
  }

  lemma FairLayersFor(r: Rule, net: Net, gen: Gen)
    requires Lower(r.proto) == "https" && net.kind(r.dst) == Fqdn ==> FairClaim(r.dst, gen.exact)
    ensures forall row :: row in LayersFor(r, net, gen) ==> FairRow(row, r, net, gen.exact)
  {
    hide Lower, FairClaim, LayersFor, HttpRowOf, FairRow, PlainRow;
    if Lower(r.proto) == "http" || Lower(r.proto) == "https" {
      HttpRowsShape(r, net, gen);
      forall row | row in LayersFor(r, net, gen) ensures FairRow(row, r, net, gen.exact) {
        HttpRowFair(row, r, net, gen);
      }
    } else {
      OpaqueRowsPlain(r, net, gen);
      PlainIsFair(r, net, gen.exact);
    }
  }

  lemma {:induction false} DedicatedRowsPlain(fam: Family, r: Rule, slots: seq<Slot>, gen: Gen)
    ensures forall row :: row in DedicatedRows(fam, r, slots, gen) ==> PlainRow(row)
  {
    hide PortKey, NormalizeDomain, IsDeny, Table;
    if slots != [] {
      DedicatedRowsPlain(fam, r, slots[1..], gen);
    }
  }

  lemma ExactOwner(rules: seq<Rule>, net: Net, ports: EnvoyPorts, e: Rule, r: Rule)
    requires r in rules && Validated(r) && (IsDeny(r) ==> IsOpaque(r)) && StandsFor(e, r) && Lower(e.proto) == "https"
    ensures FairClaim(e.dst, GenFacts(rules, net, ports).exact)
  {
    hide Mappings, PortTable, NormalizeDomain, OriginKey;
    assert BaseProto(r.proto) == "https" by { HttpsBase(e, r); }
    assert Allows(r);
    assert OwnsApex(r) || IsWildcard(r.dst);
  }

  lemma HttpsBase(e: Rule, r: Rule)
    requires StandsFor(e, r) && Lower(e.proto) == "https"
    ensures BaseProto(r.proto) == "https" && !IsOpaque(r)
  {
    assert Lower("http") == "http" && Lower("https") == "https";
  }

  lemma DerivedFair(rules: seq<Rule>, net: Net, ports: EnvoyPorts, p: Perm)
    requires forall r :: r in rules ==> Validated(r)
    requires p in Derive(rules, net, GenFacts(rules, net, ports), {})
    ensures FairPerm(p, net, GenFacts(rules, net, ports).exact)
  {
    hide Derive, GenFacts, LayersFor, PermKey, StandsFor, FairLayer, FairClaim, Validated, IsDeny, IsOpaque, Lower;
    var gen := GenFacts(rules, net, ports);
    DerivedRules(rules, net, gen, {});
    var r :| r in rules && From(p, r, net, gen) && (IsDeny(r) ==> IsOpaque(r));
    if Lower(p.rule.proto) == "https" {
      ExactOwner(rules, net, ports, p.rule, r);
    }
    FairLayersFor(p.rule, net, gen);
    assert p.layers in LayersFor(p.rule, net, gen);
  }

  /** No two chains of one listener share a match, and no two share a server name. */
  lemma ChainsUnique(rules: seq<Rule>, net: Net, ports: EnvoyPorts)
    requires Generate(rules, net, ports).Some?
    requires forall r :: r in rules ==> Validated(r)
    ensures WellFormed(Generate(rules, net, ports).value)
    ensures forall n :: n in Generate(rules, net, ports).value.listeners ==>
              NamesApart(Generate(rules, net, ports).value.listeners[n].chains)
  {
    hide Derive, GenFacts, RunPerms, FairPerm, FairClaim, ServerNames, Validated;
    var ps, exact := Derive(rules, net, GenFacts(rules, net, ports), {}), GenFacts(rules, net, ports).exact;
    forall p | p in ps ensures FairPerm(p, net, exact) {
      DerivedFair(rules, net, ports, p);
    }
    RunKeepsStructure(ps, net, ports, Config(map[], map[]), {});
    FairRun(ps, net, ports, Config(map[], map[]), {}, exact);
    var cfg := Generate(rules, net, ports).value;
    forall n | n in cfg.listeners ensures NamesApart(cfg.listeners[n].chains) {
      ApartOn(cfg, exact, n);
    }
  }

  lemma ApartOn(cfg: Config, exact: set<string>, n: string)
    requires WellFormed(cfg) && FairTree(cfg, exact) && n in cfg.listeners
    ensures NamesApart(cfg.listeners[n].chains)
  {
    hide FairClaim, ServerNames;
    var chains := cfg.listeners[n].chains;
    forall i, j | 0 <= i < j < |chains| && Named(chains[i].match_) && Named(chains[j].match_)
      ensures forall name :: name in chains[i].match_.names ==> name !in chains[j].match_.names
    {
      var a, b := chains[i].match_, chains[j].match_;
      assert chains[i] in chains && chains[j] in chains && a != b;
      var dst :| FairClaim(dst, exact) && a.names == ServerNames(dst, exact);
      var dst' :| FairClaim(dst', exact) && b.names == ServerNames(dst', exact);
      forall name | name in a.names ensures name !in b.names {
        if name in b.names {
          SharedEntrySameClaim(dst, dst', exact, name);
        }
      }
    }
  }
}

/** A reload the generator refuses, at a real input: one host's port is then routed to the
    listener pinned to another host. */
module Misrouted {
  import opened Text
  import opened Rules
  import opened Canonical
  import opened Dedicated
  import opened EnvoyConfig
  import opened Generator
  import opened Guards
  import opened Lockstep
  import opened LockstepRules
  import opened Routes
  import opened EndToEnd
  import opened Reconcile
  import opened Deployed

  const SITE := Site(Net((s: string) => Fqdn, (s: string) => s), EnvoyPorts(10000, 11000, 12000, 13000))

  const OLD := Rule("h", "tcp", "5", "allow", [], "", false)
  const NEW := Rule("g", "tcp", "5", "allow", [], "", false)
  const RIVAL := Rule("g", "udp", "5", "allow", [], "", false)

  // ---------------------------------------------------------------- the three rules

  lemma PortFive(r: Rule)
    requires r.port == "5"
    ensures ParsePortSpec(r.port) == Ports(Span(5, 5)) && SpanOf(r) == Span(5, 5) && FanSpan(r) == Span(5, 5)
    ensures r.port == FormatSpan(SpanOf(r))
  {
    assert Itoa(5) == "5";
    hide ParsePortSpec;
    FormatParseRoundTrip(Span(5, 5));
  }

  lemma Shape(r: Rule)
    requires r == OLD || r == NEW || r == RIVAL
    ensures Lower(r.proto) == r.proto && Lower(r.action) == "allow" && NormalizeDomain(r.dst) == r.dst
    ensures NormalizeRule(r) == r && !IsDeny(r) && PlainProto(r) && IsOpaque(r) && PlainAction(r)
  {
    assert Lower("tcp") == "tcp" && Lower("udp") == "udp" && Lower("allow") == "allow";
    assert NormalizePathRules(r.pathRules) == r.pathRules;
  }

  lemma Stored(r: Rule)
    requires r == OLD || r == NEW || r == RIVAL
    ensures Settled(r) && Grouped(r) && GroupOf(r) == (r.dst, r.proto) && ExplicitPort(r)
  {
    hide Lower, NormalizeDomain, NormalizeRule, ParsePortSpec, FormatSpan;
    PortFive(r);
    Shape(r);
  }

  lemma CanonicalForms()
    ensures Canonicalize([OLD]) == [OLD] && Canonicalize([NEW, RIVAL]) == [NEW, RIVAL]
    ensures IsCanonical([OLD])
  {
    hide Canonicalize, Settled, DedupKey, GroupOf, Grouped, IsDeny, SpanOf;
    Stored(OLD);
    Stored(NEW);
    Stored(RIVAL);
    KeysDiffer();
    assert !SameGroup(NEW, RIVAL);
    CanonicalIsFixed([OLD]);
    CanonicalIsFixed([NEW, RIVAL]);
  }

  lemma KeysDiffer()
    ensures DedupKey(NEW) != DedupKey(RIVAL)
  {
    hide IsDeny;
    assert RuleKey(NEW)[2] == 't' && RuleKey(RIVAL)[2] == 'u';
    assert DedupKey(NEW)[2] == 't' && DedupKey(RIVAL)[2] == 'u';
  }

  lemma Slots(r: Rule)
    requires r == OLD || r == NEW || r == RIVAL
    ensures SlotsOf(r) == [Slot(r, 5)] && (Fans(Tcp, SITE.net.kind, r) <==> r != RIVAL) && (Fans(Udp, SITE.net.kind, r) <==> r == RIVAL)
  {
    hide Lower, ParsePortSpec;
    PortFive(r);
    Shape(r);
  }

  lemma Fanouts()
    ensures Fanout(Tcp, SITE.net.kind, [OLD]) == [Slot(OLD, 5)] && Fanout(Udp, SITE.net.kind, [OLD]) == []
    ensures Fanout(Tcp, SITE.net.kind, [NEW, RIVAL]) == [Slot(NEW, 5)]
  {
    hide SlotsOf, Fans;
    Slots(OLD);
    Slots(NEW);
    Slots(RIVAL);
    assert [OLD][1..] == [] && [NEW, RIVAL][1..] == [RIVAL] && [RIVAL][1..] == [];
    assert Fanout(Tcp, SITE.net.kind, [RIVAL]) == [];
  }

  // ---------------------------------------------------------------- the old rules are deployed

  lemma OldAccepted()
    ensures Accepted(SITE.net.kind, [OLD], SITE.ports) && Nameable([OLD])
  {
    hide Fanout, Lower, NormalizeDomain, ParsePortSpec, Sanitize, IsDeny;
    Fanouts();
    Shape(OLD);
    Stored(OLD);
    assert forall r :: r in [OLD] ==> r == OLD;
  }

  lemma NewRefused()
    ensures !Accepted(SITE.net.kind, [NEW, RIVAL], SITE.ports)
  {
    hide Lower, NormalizeDomain, ParsePortSpec, LayoutFits, ValidPorts;
    PortFive(NEW);
    PortFive(RIVAL);
    Shape(NEW);
    Shape(RIVAL);
    assert Collide(NEW, RIVAL, 5);
  }

  lemma OldTable()
    ensures GenFacts([OLD], SITE.net, SITE.ports).tcpPorts == map[PortKey("h", 5) := 11000]
  {
    hide Fanout, NormalizeDomain, PortKey, OriginKey, OwnsApex, Allows, IsWebsocket, IsBase;
    Fanouts();
    Shape(OLD);
    var m := Mapping("h", 5, 11000);
    assert Mappings(Tcp, SITE.net.kind, [OLD], SITE.ports) == [m];
    assert [m][..0] == [] && PortTable([]) == map[];
  }

  lemma OldRows(gen: Gen)
    requires gen.tcpPorts == map[PortKey("h", 5) := 11000]
    ensures LayersFor(OLD, SITE.net, gen) == [DedicatedLayers(Tcp, false, 11000, 5)]
    ensures Effective(OLD, gen, {}) == Some(OLD)
  {
    Slots(OLD);
    Shape(OLD);
    hide Lower, NormalizeDomain, PortKey, SlotsOf, DedicatedLayers, IsDeny, OriginKey;
    assert [Slot(OLD, 5)][1..] == [] && DedicatedRows(Tcp, OLD, [], gen) == [];
    assert DedicatedRows(Tcp, OLD, [Slot(OLD, 5)], gen) == [DedicatedLayers(Tcp, false, 11000, 5)];
  }

  lemma OldPermutation()
    ensures Derive([OLD], SITE.net, GenFacts([OLD], SITE.net, SITE.ports), {})
            == [Perm(OLD, DedicatedLayers(Tcp, false, 11000, 5), PermKey(OLD, 0))]
  {
    hide GenFacts, LayersFor, Effective, PortKey, PermKey, OriginKey, DedicatedLayers, IsWebsocket;
    var gen := GenFacts([OLD], SITE.net, SITE.ports);
    OldTable();
    OldRows(gen);
    assert [OLD][1..] == [] && forall promoted :: Derive([], SITE.net, gen, promoted) == [];
    var ps := PermsOf(OLD, LayersFor(OLD, SITE.net, gen));
    assert ps == [Perm(OLD, DedicatedLayers(Tcp, false, 11000, 5), PermKey(OLD, 0))];
  }

  lemma PinCommits(name: string, body: Cluster, ctx: Ctx, bind: int)
    requires name != "" && ctx.listener == name && ctx.terminal == Some(Proxy(name)) && ctx.clusters == [(name, body)]
    ensures Generator.Commit(ctx, EnsureListener(Config(map[], map[]), name, bind, false)).Some?
  {
    var c := EnsureListener(Config(map[], map[]), name, bind, false);
    var c1 := c.(clusters := map[name := body]);
    assert ctx.clusters[1..] == [] && AddClusters(c1, []) == Some(c1);
    assert AddCluster(c, name, body) == Some(c1);
    assert AddClusters(c, ctx.clusters) == Some(c1);
    assert FindChain([], ctx.match_) == 0;
    assert AddToChains([], Chain(ctx.match_, Proxy(name))).Some?;
  }

  lemma OldGenerates()
    ensures Generate([OLD], SITE.net, SITE.ports).Some?
  {
    hide Derive, GenFacts, RunLayers, SlotName, NormalizeDomain, PermKey, IsDeny, EnsureListener, DedicatedLayers;
    OldPermutation();
    var empty := Config(map[], map[]);
    var p := Perm(OLD, DedicatedLayers(Tcp, false, 11000, 5), PermKey(OLD, 0));
    var host := NormalizeDomain(OLD.dst);
    var name := SlotName(Tcp, host, 5);
    SlotNameNotCommon(Tcp, host, 5);
    AllowRun(Tcp, 11000, 5, OLD, SITE.net, SITE.ports, empty);
    PinCommits(name, SlotCluster(host, 5, false, SITE.net), SlotCtx(Tcp, host, 5, false, SITE.net), 11000);
    assert RunPerm(p, SITE.net, SITE.ports, empty).Some?;
    hide RunPerm;
    var c := RunPerm(p, SITE.net, SITE.ports, empty).value;
    assert [p][1..] == [] && RunPerms([], SITE.net, SITE.ports, c, {} + {p.key}) == Some(c);
    assert RunPerms([p], SITE.net, SITE.ports, empty, {}) == Some(c);
  }

  lemma OldProduces()
    ensures Produce(Canonicalize([OLD]), SITE).Some? && Produce(Canonicalize([NEW, RIVAL]), SITE).None?
  {
    hide Canonicalize, Accepted, Generate;
    CanonicalForms();
    OldAccepted();
    OldGenerates();
    NewRefused();
  }

  // ---------------------------------------------------------------- the run

  /** The old rules are deployed, and then others are committed. */
  const RUN := [Regenerate(Fine), Restart(Loads), Sync(true)] + [Commit([NEW, RIVAL])]

  lemma RunPlain()
    ensures PlainRun([OLD], []) && PlainRun([OLD], RUN)
  {
    hide PlainProto;
    Shape(OLD);
    Shape(NEW);
    Shape(RIVAL);
  }

  lemma NothingRuns()
    ensures Exec([OLD], [], SITE) == Some(Start([OLD])) && RulesAt([OLD], [], 0) == Canonicalize([OLD])
  {
    hide Canonicalize;
  }

  lemma RunReaches()
    ensures Exec([OLD], RUN, SITE).Some?
    ensures var s := Exec([OLD], RUN, SITE).value;
            s.at == Idle && s.loaded.Some? && s.loaded.value.read == 0
  {
    hide Exec, Produce, RoutesOf, Canonicalize, PlainRun;
    RunPlain();
    NothingRuns();
    OldProduces();
    ReconcileHeals([OLD], [], SITE);
    var front := [Regenerate(Fine), Restart(Loads), Sync(true)];
    assert [] + front == front;
    ExecOne([OLD], front, Commit([NEW, RIVAL]), SITE);
  }

  lemma RunRules()
    ensures RulesAt([OLD], RUN, 0) == [OLD] && RulesAt([OLD], RUN, |RUN|) == [NEW, RIVAL]
  {
    hide Canonicalize;
    CanonicalForms();
    assert RUN[..0] == [] && RUN[..|RUN|] == RUN && RUN[|RUN| - 1] == Commit([NEW, RIVAL]);
  }

  /** The commit is refused, and yet g:5 is sent to a port that only the listener pinned to h:5
      binds, so it is not served as its rule says. */
  lemma RefusedReloadMisroutes()
    ensures Produce(RulesAt([OLD], RUN, |RUN|), SITE).None?
    ensures var after := Exec([OLD], RUN + [Regenerate(Fine), Sync(true)], SITE);
            && after.Some? && after.value.loaded.Some? && after.value.table.Some?
            && (var cfg, name := after.value.loaded.value.cfg, SlotName(Tcp, "h", 5);
                && Route("g", 5, 11000, Tcp, false) in after.value.table.value.routes
                && (forall n :: n in cfg.listeners && cfg.listeners[n].bind == 11000 <==> n == name)
                && name in cfg.clusters && cfg.clusters[name] == Pinned("h", 5, false, Plaintext)
                && !Served(Tcp, Slot(NEW, 5), 11000, cfg, SITE.net))
  {
    hide Exec, Produce, RoutesOf, Canonicalize, PlainRun, Generate, Nameable, Fanout, Served, SlotName, Deployable, Lower, ParsePortSpec, NormalizeDomain;
    RunPlain();
    RunReaches();
    RunRules();
    CanonicalForms();
    OldProduces();
    OldAccepted();
    Fanouts();
    Shape(OLD);
    Shape(NEW);
    RefusedServes([OLD], RUN, SITE, Tcp, 0);
    var was := LoadedDeployable([OLD], RUN, SITE);
    OldSlotServed([OLD], SITE, Tcp, 0);
    PinnedTo(Slot(OLD, 5), 11000, Generate([OLD], SITE.net, SITE.ports).value);
    assert !SameService(Tcp, Slot(NEW, 5), Slot(OLD, 5));
  }

  lemma PinnedTo(s: Slot, port: int, cfg: Config)
    requires Served(Tcp, s, port, cfg, SITE.net) && !IsDeny(s.rule)
    ensures var name := SlotName(Tcp, Host(s), s.port);
            name in cfg.clusters && cfg.clusters[name] == Pinned(Host(s), s.port, false, Plaintext)
  {
    hide SlotName, Host, Common, SlotListener;
  }
}

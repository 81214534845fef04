/** What a run deploys, seen from the traffic: routes and listeners in step when they were read
    from the same rules, and what serves a route when they were not. */
module Deployed {
  import opened Text
  import opened Rules
  import opened Canonical
  import opened Dedicated
  import opened EnvoyConfig
  import opened Generator
  import opened Guards
  import opened Lockstep
  import opened LockstepRules
  import opened Routes
  import opened EndToEnd
  import opened Reconcile

  // ---------------------------------------------------------------- what is deployed is in step

  /** What generation cannot check for itself. */
  ghost predicate Nameable(rules: seq<Rule>) {
    (forall r :: r in rules ==> ExplicitPort(r) && PlainAction(r)) && NamesDistinct(rules)
  }

  /** The dedicated routes lead the table; each has its listener in the tree, alone on its port;
      and every listener that is not shared has its route. */
  ghost predicate InStep(routes: seq<Route>, cfg: Config, rules: seq<Rule>, site: Site) {
    var slots := AllSlots(rules, site.net);
    && |slots| <= |routes|
    && (forall i :: 0 <= i < |slots| ==> Matched(routes[i], IsDeny(slots[i].rule), cfg, site.net))
    && (forall n :: n in cfg.listeners && !Common(n) ==> exists i :: 0 <= i < |slots| && RouteListener(routes[i]) == n)
    && (forall i, n :: 0 <= i < |slots| && n in cfg.listeners && cfg.listeners[n].bind == routes[i].envoyPort
                       ==> n == RouteListener(routes[i]))
  }

  lemma DedicatedLead(rules: seq<Rule>, site: Site)
    ensures |DedicatedOf(rules, site.net, site.ports)| <= |RoutesOf(rules, site.net, site.ports)|
    ensures forall i :: 0 <= i < |DedicatedOf(rules, site.net, site.ports)| ==>
              RoutesOf(rules, site.net, site.ports)[i] == DedicatedOf(rules, site.net, site.ports)[i]
  {
    hide DedicatedRoutes, SharedRoutes, Mappings, MappingKeys;
  }

  lemma ProducedInStep(was: seq<Rule>, site: Site)
    requires Plain(was) && Nameable(Canonicalize(was)) && Produce(Canonicalize(was), site).Some?
    ensures InStep(RoutesOf(Canonicalize(was), site.net, site.ports), Produce(Canonicalize(was), site).value, Canonicalize(was), site)
  {
    hide Canonicalize, Generate, RoutesOf, DedicatedOf, Matched, AllSlots, RouteListener, Common, IsDeny, Ready, ValidPorts, LayoutFits, Fanout, Accepted, Plain, NamesDistinct, ExplicitPort, PlainAction, UnsupportedDst;
    AcceptedDeploys(was, site.net, site.ports);
    LockstepBijection(Canonicalize(was), site.net, site.ports);
    DedicatedLead(Canonicalize(was), site);
  }

  /** So whenever nothing was committed between the reads, what is deployed is in step, however
      many reloads failed, refused or rebooted on the way. */
  lemma DeployedInStep(store: seq<Rule>, es: seq<Event>, site: Site)
    requires PlainRun(store, es) && Exec(store, es, site).Some?
    requires var s := Exec(store, es, site).value;
             s.loaded.Some? && s.table.Some? && s.loaded.value.read < |es| && s.table.value.read < |es|
             && NoCommitBetween(es, s.loaded.value.read, s.table.value.read)
             && Nameable(RulesAt(store, es, s.loaded.value.read))
    ensures var s := Exec(store, es, site).value;
            InStep(s.table.value.routes, s.loaded.value.cfg, RulesAt(store, es, s.loaded.value.read), site)
  {
    hide Exec, Produce, RoutesOf, NoCommitBetween, Canonicalize, Committed, Nameable, InStep, Plain, Version;
    OneSnapshot(store, es, site);
    var k := Exec(store, es, site).value.loaded.value.read;
    assert PlainRun(store, es[..k]) by { assert forall e :: e in es[..k] ==> e in es; }
    CommittedPlain(store, es[..k]);
    ProducedInStep(Committed(store, es[..k]), site);
  }

  // ---------------------------------------------------------------- routes ahead of the tree

  /** Where the k-th slot of a family stands among all slots. */
  function Place(fam: Family, k: nat, rules: seq<Rule>, net: Net): nat {
    if fam == Tcp then k else |Fanout(Tcp, net.kind, rules)| + k
  }

  /** The k-th dedicated route of a family is its k-th slot on the k-th port of the band. */
  lemma RoutePlace(rules: seq<Rule>, site: Site, fam: Family, k: nat)
    requires Guarded(rules) && ValidPorts(site.ports) && k < |Fanout(fam, site.net.kind, rules)|
    requires LayoutFits(|Fanout(Tcp, site.net.kind, rules)|, |Fanout(Udp, site.net.kind, rules)|, site.ports)
    ensures var i := Place(fam, k, rules, site.net);
            && i < |DedicatedOf(rules, site.net, site.ports)| == |AllSlots(rules, site.net)|
            && AllSlots(rules, site.net)[i] == Fanout(fam, site.net.kind, rules)[k]
            && DedicatedOf(rules, site.net, site.ports)[i]
               == SlotRoute(fam, Fanout(fam, site.net.kind, rules)[k], Base(fam, site.ports) + k, site.net)
  {
    hide Guarded, Fanout, DedicatedRoutes, Mappings, ValidPorts, LayoutFits, SlotRoute;
    GuardedRoutes(Tcp, rules, site.net, site.ports);
    GuardedRoutes(Udp, rules, site.net, site.ports);
  }

  /** What a slot needs of the tree to be served as its rule says. */
  ghost predicate Served(fam: Family, s: Slot, envoyPort: int, cfg: Config, net: Net) {
    Matched(SlotRoute(fam, s, envoyPort, net), IsDeny(s.rule), cfg, net)
  }

  /** Two slots that one listener can serve: one name and verdict, and one host if it pins. */
  predicate SameService(fam: Family, s: Slot, o: Slot) {
    && SlotName(fam, Host(s), s.port) == SlotName(fam, Host(o), o.port)
    && IsDeny(s.rule) == IsDeny(o.rule) && (IsDeny(o.rule) || Host(s) == Host(o))
  }

  lemma SameServiceServes(fam: Family, s: Slot, o: Slot, envoyPort: int, cfg: Config, net: Net)
    requires Served(fam, o, envoyPort, cfg, net) && SameService(fam, s, o)
    ensures Served(fam, s, envoyPort, cfg, net)
  {
    hide SlotName, Host, IsDeny, Common, SlotListener;
    SlotNameInjective(fam, Host(s), s.port, fam, Host(o), o.port);
  }

  lemma ServesSame(fam: Family, s: Slot, o: Slot, envoyPort: int, cfg: Config, net: Net)
    requires Served(fam, o, envoyPort, cfg, net) && Served(fam, s, envoyPort, cfg, net)
    requires SlotName(fam, Host(s), s.port) == SlotName(fam, Host(o), o.port)
    ensures SameService(fam, s, o)
  {
    hide NameFor, Host, IsDeny, Common;
    var name := SlotName(fam, Host(o), o.port);
    assert name != DENY by { NotTheDenyCluster(fam, Host(o), o.port); }
    hide SlotName;
  }

  lemma NotTheDenyCluster(fam: Family, h: string, p: int)
    ensures SlotName(fam, h, p) != DENY
  {
    hide PortText, Sanitize;
    assert SlotName(fam, h, p)[0] == (if fam == Tcp then 't' else 'u');
  }

  /** The port the k-th slot of a family is sent to, cast as the route table casts it. */
  function SentTo(fam: Family, ports: EnvoyPorts, k: nat): int { Uint16(Base(fam, ports) + k) }

  /** Whatever the new rules are, refused or not, every slot is routed, to its port modulo 2^16. */
  lemma NewRoute(now: seq<Rule>, site: Site, fam: Family, k: nat)
    requires AllAdmissible(now) && k < |Fanout(fam, site.net.kind, now)|
    ensures SlotRoute(fam, Fanout(fam, site.net.kind, now)[k], SentTo(fam, site.ports, k), site.net) in RoutesOf(now, site.net, site.ports)
  {
    hide AllAdmissible, Fanout, DedicatedRoutes, Host, SharedRoutes, MappingKeys;
    var slots, ms := Fanout(fam, site.net.kind, now), Mappings(fam, site.net.kind, now, site.ports);
    forall m | m in ms ensures m.dst != "" {
      var j :| 0 <= j < |ms| && ms[j] == m;
      SlotInRange(fam, now, site.net, slots[j]);
    }
    NamedMappingsAll(ms, fam, site.net);
    SlotInRange(fam, now, site.net, slots[k]);
    assert DedicatedRoutes(ms, fam, site.net)[k] == SlotRoute(fam, slots[k], SentTo(fam, site.ports, k), site.net);
  }

  /** The canonical form of any rules will do. */
  lemma CanonicalAdmissible(rules: seq<Rule>)
    requires Plain(rules)
    ensures AllAdmissible(Canonicalize(rules))
  {
    hide Canonicalize, Admissible, NormalizeRule, InOrder, SameGroup;
    CanonicalizeIsCanonical(rules);
    var out := Canonicalize(rules);
    forall r | r in out ensures Admissible(r) {
      var j :| 0 <= j < |out| && out[j] == r;
      assert Settled(out[j]);
    }
  }

  /** The k-th old slot of a family is served on the k-th port of its band, and that port is
      bound by its listener alone. */
  lemma OldSlotServed(was: seq<Rule>, site: Site, fam: Family, k: nat)
    requires Deployable(was, site.net, site.ports) && k < |Fanout(fam, site.net.kind, was)|
    ensures var cfg, o, port := Generate(was, site.net, site.ports).value, Fanout(fam, site.net.kind, was)[k], Base(fam, site.ports) + k;
            && Served(fam, o, port, cfg, site.net)
            && (forall n :: n in cfg.listeners && cfg.listeners[n].bind == port <==> n == SlotName(fam, Host(o), o.port))
  {
    hide Ready, Guarded, Generate, Fanout, DedicatedOf, AllSlots, ValidPorts, LayoutFits, SlotName, Host, IsDeny, Matched;
    var cfg, o, port := Generate(was, site.net, site.ports).value, Fanout(fam, site.net.kind, was)[k], Base(fam, site.ports) + k;
    var i := Place(fam, k, was, site.net);
    ReadyGuarded(was);
    RoutePlace(was, site, fam, k);
    RouteAt(was, site.net, site.ports, i);
    assert Served(fam, o, port, cfg, site.net);
    ServedBinds(fam, o, port, cfg, site.net);
    forall n | n in cfg.listeners && cfg.listeners[n].bind == port ensures n == SlotName(fam, Host(o), o.port) {
      BoundOnce(was, site.net, site.ports, i, n);
    }
  }

  /** A slot that the old tree serves on a port has the name of the old slot of that port. */
  lemma ServedHasOldSlot(was: seq<Rule>, site: Site, fam: Family, s: Slot, port: int) returns (j: nat)
    requires Deployable(was, site.net, site.ports)
    requires Served(fam, s, port, Generate(was, site.net, site.ports).value, site.net)
    ensures j < |Fanout(fam, site.net.kind, was)| && port == Base(fam, site.ports) + j
    ensures var o := Fanout(fam, site.net.kind, was)[j]; SlotName(fam, Host(s), s.port) == SlotName(fam, Host(o), o.port)
  {
    hide Ready, Generate, Fanout, DedicatedOf, ValidPorts, LayoutFits, SlotName, Host, IsDeny, Matched, Base;
    var cfg, n := Generate(was, site.net, site.ports).value, SlotName(fam, Host(s), s.port);
    ServedBinds(fam, s, port, cfg, site.net);
    SlotNameNotCommon(fam, Host(s), s.port);
    ListenerHasRoute(was, site.net, site.ports, n);
    var i: nat :| i < |DedicatedOf(was, site.net, site.ports)| && RouteListener(DedicatedOf(was, site.net, site.ports)[i]) == n;
    RouteCount(was, site.net, site.ports);
    RouteAt(was, site.net, site.ports, i);
    var o := AllSlots(was, site.net)[i];
    var tcp := |Fanout(Tcp, site.net.kind, was)|;
    SlotNameInjective(fam, Host(s), s.port, if i < tcp then Tcp else Udp, Host(o), o.port);
    j := if fam == Tcp then i else i - tcp;
    OldSlotServed(was, site, fam, j);
    ServedBinds(fam, o, Base(fam, site.ports) + j, cfg, site.net);
  }

  /** The old slot on a port of a family's band, if there is one. */
  ghost predicate OldSlotAt(was: seq<Rule>, site: Site, fam: Family, port: int, s: Slot) {
    var j := port - Base(fam, site.ports);
    0 <= j < |Fanout(fam, site.net.kind, was)| && SameService(fam, s, Fanout(fam, site.net.kind, was)[j])
  }

  /** When the routes are read from newer rules than the tree, every new slot is sent to a port
      by its own position, wrapped to 16 bits, and is served as its rule says exactly when the
      old slot of that port, if any, is the same service. */
  lemma StaleTreeServes(was: seq<Rule>, now: seq<Rule>, site: Site, fam: Family, k: nat)
    requires Deployable(was, site.net, site.ports) && AllAdmissible(now) && k < |Fanout(fam, site.net.kind, now)|
    ensures var cfg, port, s := Generate(was, site.net, site.ports).value, SentTo(fam, site.ports, k), Fanout(fam, site.net.kind, now)[k];
            && SlotRoute(fam, s, port, site.net) in RoutesOf(now, site.net, site.ports)
            && (Served(fam, s, port, cfg, site.net) <==> OldSlotAt(was, site, fam, port, s))
  {
    hide Generate, Fanout, Ready, ValidPorts, LayoutFits, RoutesOf, SlotRoute, Served, SameService, SentTo, AllAdmissible, SlotName, Host, Base;
    var cfg, port, s := Generate(was, site.net, site.ports).value, SentTo(fam, site.ports, k), Fanout(fam, site.net.kind, now)[k];
    NewRoute(now, site, fam, k);
    if Served(fam, s, port, cfg, site.net) {
      var j := ServedHasOldSlot(was, site, fam, s, port);
      OldSlotServed(was, site, fam, j);
      ServesSame(fam, s, Fanout(fam, site.net.kind, was)[j], port, cfg, site.net);
    }
    if OldSlotAt(was, site, fam, port, s) {
      var j := port - Base(fam, site.ports);
      OldSlotServed(was, site, fam, j);
      SameServiceServes(fam, s, Fanout(fam, site.net.kind, was)[j], port, cfg, site.net);
    }
  }

  lemma ServedBinds(fam: Family, s: Slot, envoyPort: int, cfg: Config, net: Net)
    requires Served(fam, s, envoyPort, cfg, net)
    ensures var n := SlotName(fam, Host(s), s.port); n in cfg.listeners && cfg.listeners[n].bind == envoyPort
  {
    hide SlotName, Host, IsDeny, Common, SlotCluster;
  }

  /** What a run holds in its loaded tree could be generated and deployed. */
  lemma LoadedDeployable(store: seq<Rule>, es: seq<Event>, site: Site) returns (was: seq<Rule>)
    requires PlainRun(store, es) && Exec(store, es, site).Some?
    requires var s := Exec(store, es, site).value;
             s.loaded.Some? && s.loaded.value.read < |es| && Nameable(RulesAt(store, es, s.loaded.value.read))
    ensures was == RulesAt(store, es, Exec(store, es, site).value.loaded.value.read)
    ensures Deployable(was, site.net, site.ports)
    ensures Generate(was, site.net, site.ports) == Some(Exec(store, es, site).value.loaded.value.cfg)
  {
    hide Exec, RoutesOf, Canonicalize, Committed, Plain, Deployable, Generate, Accepted, ExplicitPort, PlainAction, NamesDistinct, UnsupportedDst;
    RunSound(store, es, site);
    var k := Exec(store, es, site).value.loaded.value.read;
    was := RulesAt(store, es, k);
    assert PlainRun(store, es[..k]) by { assert forall e :: e in es[..k] ==> e in es; }
    CommittedPlain(store, es[..k]);
    AcceptedDeploys(Committed(store, es[..k]), site.net, site.ports);
  }

  /** After a refused reload, in every run: every slot of the new rules is routed to the tree
      still loaded by its own position, and served as its rule says exactly when the old slot on
      that port is the same service. */
  lemma RefusedServes(store: seq<Rule>, es: seq<Event>, site: Site, fam: Family, k: nat)
    requires PlainRun(store, es) && Exec(store, es, site).Some? && Exec(store, es, site).value.at == Idle
    requires Produce(RulesAt(store, es, |es|), site).None?
    requires var s := Exec(store, es, site).value;
             && s.loaded.Some? && s.loaded.value.read < |es| && Nameable(RulesAt(store, es, s.loaded.value.read))
             && k < |Fanout(fam, site.net.kind, RulesAt(store, es, |es|))|
    ensures var after := Exec(store, es + [Regenerate(Fine), Sync(true)], site);
            && after.Some? && after.value.loaded.Some? && after.value.table.Some?
            && after.value.loaded == Exec(store, es, site).value.loaded
            && (var was, now := RulesAt(store, es, after.value.loaded.value.read), RulesAt(store, es, |es|);
                var s, port := Fanout(fam, site.net.kind, now)[k], SentTo(fam, site.ports, k);
                && SlotRoute(fam, s, port, site.net) in after.value.table.value.routes
                && (Served(fam, s, port, after.value.loaded.value.cfg, site.net) <==> OldSlotAt(was, site, fam, port, s)))
  {
    hide Exec, Produce, RoutesOf, Canonicalize, Committed, Plain, Deployable, Generate, Nameable, Fanout, SlotRoute, Served, OldSlotAt, AllAdmissible, SentTo;
    RefusedMovesRoutes(store, es, site);
    var was := LoadedDeployable(store, es, site);
    var s := Current(store, es, site);
    CanonicalAdmissible(Committed(store, es));
    StaleTreeServes(was, RulesAt(store, es, |es|), site, fam, k);
  }
}

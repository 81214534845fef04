/** Name lookup beside the ports: a port the proxy pins can be reached by name exactly when no
    rule denies the domain, on whatever port. */
module Resolvable {
  import opened Text
  import opened Rules
  import opened Canonical
  import opened DenyWins
  import opened Dedicated
  import opened Generator
  import opened Routes
  import opened EndToEnd
  import opened Reconcile
  import opened Deployed
  import opened Siblings
  import CoreDns

  /** Some rule denies this domain. */
  ghost predicate DomainDenied(rules: seq<Rule>, host: string, cls: Classifier) {
    exists s :: s in rules && cls(s.dst) == Fqdn && NormalizeDomain(s.dst) == host && Lower(s.action) == "deny"
  }

  /** The rule allows a domain. */
  predicate AllowsName(r: Rule, cls: Classifier) { cls(r.dst) == Fqdn && (r.action == "" || Lower(r.action) == "allow") }

  /** The lookup of an allowed domain is forwarded, unless a rule denies the domain and the name
      is not internal. */
  lemma AllowedLooksUp(rules: seq<Rule>, r: Rule, cls: Classifier)
    requires r in rules && AllowsName(r, cls)
    ensures var q := NormalizeDomain(r.dst);
            CoreDns.Meaning(q, false, rules, cls) ==
            if CoreDns.Internal(q) then CoreDns.Forwarded(CoreDns.DockerDns)
            else if DomainDenied(rules, q, cls) then CoreDns.NxDomain
            else CoreDns.Forwarded(CoreDns.Resolver)
  {
    hide NormalizeDomain, Lower;
    var q := NormalizeDomain(r.dst);
    assert CoreDns.SaysAllow(rules, cls, q);
    assert CoreDns.SaysDeny(rules, cls, q) <==> DomainDenied(rules, q, cls);
  }

  /** A rule that holds an allowed port of a named host allows the domain. */
  lemma HolderAllows(rules: seq<Rule>, k: GroupId, p: int, net: Net)
    requires IsCanonical(rules) && Claims(rules, k, false, p)
    requires forall r :: r in rules ==> Allows(r) || IsDeny(r)
    requires forall r :: r in rules && NormalizeDomain(r.dst) == k.0 ==> net.kind(r.dst) == Fqdn
    ensures exists r :: r in rules && AllowsName(r, net.kind) && NormalizeDomain(r.dst) == k.0
  {
    hide IsCanonical, Claims, NormalizeDomain, Lower, ParsePortSpec;
    ClaimHasHolder(rules, k, false, p);
    var r :| Holder(rules, k, false, p, r);
    HolderOfHost(rules, k, false, p, r);
    assert Member(r, k, false);
  }

  /** A written port of a named host that is allowed and not denied is pinned; and its name is
      looked up with success exactly when the name is reserved or no rule denies the domain. */
  lemma PinnedResolvesIff(rules: seq<Rule>, net: Net, ports: EnvoyPorts, k: GroupId, p: int, zones: seq<CoreDns.Zone>)
    requires Plain(rules) && Deployable(Canonicalize(rules), net, ports) && OpaqueToken(k.1)
    requires forall r :: r in Canonicalize(rules) ==> Allows(r) || IsDeny(r)
    requires forall r :: r in Canonicalize(rules) && NormalizeDomain(r.dst) == k.0 ==> net.kind(r.dst) == Fqdn
    requires Claims(rules, k, false, p) && !Claims(rules, k, true, p)
    requires CoreDns.Vetted(Canonicalize(rules), net.kind) && CoreDns.ZonesOf(zones, Canonicalize(rules), net.kind)
    ensures var out := Canonicalize(rules);
            && Enforced(DedicatedOf(out, net, ports), Generate(out, net, ports).value, net, k.0, FamilyOf(k.1), p, false)
            && ((exists u :: CoreDns.Serves(zones, k.0, false, CoreDns.Forwarded(u)))
                <==> CoreDns.Internal(k.0) || !DomainDenied(out, k.0, net.kind))
            && (CoreDns.Serves(zones, k.0, false, CoreDns.NxDomain)
                <==> !CoreDns.Internal(k.0) && DomainDenied(out, k.0, net.kind))
  {
    hide Canonicalize, Deployable, Claims, SingleConflict, Enforced, Generate, DedicatedOf, NormalizeDomain, Plain, IsCanonical, DomainDenied, CoreDns.Vetted, CoreDns.ZonesOf, CoreDns.Serves, CoreDns.Meaning, CoreDns.Internal, Lower;
    var out := Canonicalize(rules);
    CanonicalizeIsCanonical(rules);
    WrittenRulesEnforced(rules, net, ports, k, p);
    DenyWinsExactly(rules, k, p);
    HolderAllows(out, k, p, net);
    var r :| r in out && AllowsName(r, net.kind) && NormalizeDomain(r.dst) == k.0;
    AllowedLooksUp(out, r, net.kind);
    forall a ensures CoreDns.Serves(zones, k.0, false, a) <==> a == CoreDns.Meaning(k.0, false, out, net.kind) {
      CoreDns.LookupIsMeaning(zones, out, net.kind, k.0, false, a);
    }
  }

  // ---------------------------------------------------------------- a pinned port nobody can look up

  const DEPLOYED := Site(Net((s: string) => Fqdn, (s: string) => s), EnvoyPorts(10000, 11000, 12000, 13000))

  /** An allow of 1-9 around a deny of 5: port 1 is allowed, not denied and routed to a listener
      of its own, and yet the name is refused. */
  lemma SplitHostUnresolvable()
    ensures var out := Canonicalize([WIDE, HOLE]);
            && Claims([WIDE, HOLE], ("h", "tcp"), false, 1) && !Claims([WIDE, HOLE], ("h", "tcp"), true, 1)
            && (exists i: nat :: SlotRoute(Tcp, Slot(LOW, 1), SentTo(Tcp, DEPLOYED.ports, i), DEPLOYED.net) in RoutesOf(out, DEPLOYED.net, DEPLOYED.ports))
            && !IsDeny(LOW)
            && CoreDns.Meaning("h", false, out, DEPLOYED.net.kind) == CoreDns.NxDomain
  {
    hide Canonicalize, Claims, RoutesOf, CoreDns.Meaning, IsDeny, NormalizeDomain, SlotRoute, SentTo, Fanout, NormalizeRule, PlainProto;
    SplitByDeny();
    Shape(WIDE);
    Shape(HOLE);
    Shape(LOW);
    PortClaims();
    CanonicalAdmissible([WIDE, HOLE]);
    LowSlot();
    var slots := Fanout(Tcp, DEPLOYED.net.kind, [HOLE, LOW, HIGH]);
    var i: nat :| i < |slots| && slots[i] == Slot(LOW, 1);
    NewRoute([HOLE, LOW, HIGH], DEPLOYED, Tcp, i);
    LowAllowed();
    AllowedLooksUp([HOLE, LOW, HIGH], LOW, DEPLOYED.net.kind);
    assert HOLE in [HOLE, LOW, HIGH] && DomainDenied([HOLE, LOW, HIGH], "h", DEPLOYED.net.kind);
  }

  lemma PortClaims()
    ensures Claims([WIDE, HOLE], ("h", "tcp"), false, 1) && !Claims([WIDE, HOLE], ("h", "tcp"), true, 1)
  {
    hide NormalizeDomain, ParsePortSpec;
    Shape(WIDE);
    Shape(HOLE);
    PortSpans();
    assert Lower("tcp") == "tcp" && Lower("allow") == "allow" && Lower("deny") == "deny";
    hide Lower;
    assert ClaimedBy(WIDE, ("h", "tcp"), false, 1) && !ClaimedBy(WIDE, ("h", "tcp"), true, 1) && !ClaimedBy(HOLE, ("h", "tcp"), true, 1);
    hide ClaimedBy;
    assert forall r :: r in [WIDE, HOLE] <==> r == WIDE || r == HOLE;
  }

  lemma LowSlot()
    ensures Slot(LOW, 1) in Fanout(Tcp, DEPLOYED.net.kind, [HOLE, LOW, HIGH])
  {
    hide Fanout, ParsePortSpec;
    FanoutIn(Tcp, DEPLOYED.net.kind, [HOLE, LOW, HIGH]);
    PortSpans();
    assert Lower("tcp") == "tcp";
    assert LOW in [HOLE, LOW, HIGH];
  }

  lemma LowAllowed()
    ensures AllowsName(LOW, DEPLOYED.net.kind) && NormalizeDomain(LOW.dst) == "h" && !CoreDns.Internal("h")
    ensures Lower(HOLE.action) == "deny"
  {
    assert Lower("allow") == "allow" && Lower("deny") == "deny";
  }
}

/** From the rules as written to the kernel and the proxy: what a user denies is refused and
    what a user allows is pinned, port by port. */
module EndToEnd {
  import opened Text
  import opened Rules
  import opened Canonical
  import opened DenyWins
  import opened Dedicated
  import opened EnvoyConfig
  import opened Generator
  import opened Guards
  import opened LockstepRules
  import opened Routes

  function FamilyOf(proto: string): Family { if proto == "udp" then Udp else Tcp }

  predicate OpaqueToken(proto: string) { proto == "tcp" || proto == "ssh" || proto == "udp" }

  /** The redirect of a host and port exists, and its listener refuses (deny) or pins that
      very host and port (allow). */
  ghost predicate Enforced(routes: seq<Route>, cfg: Config, net: Net, host: string, fam: Family, p: int, deny: bool) {
    exists i :: 0 <= i < |routes| && routes[i].domain == host && routes[i].dstPort == p && routes[i].l4 == fam
                && Matched(routes[i], deny, cfg, net)
  }

  /** Everything generation checks, for rules in canonical form. */
  ghost predicate Deployable(rules: seq<Rule>, net: Net, ports: EnvoyPorts) {
    && Ready(rules) && ValidPorts(ports)
    && LayoutFits(|Fanout(Tcp, net.kind, rules)|, |Fanout(Udp, net.kind, rules)|, ports)
    && Generate(rules, net, ports).Some?
  }

  /** For the canonical form of a written list, generation's own guards leave three things to
      ask: opaque rules name their ports, actions hold no colon, sanitised names stay apart. */
  lemma AcceptedDeploys(rules: seq<Rule>, net: Net, ports: EnvoyPorts)
    requires Plain(rules) && Generate(Canonicalize(rules), net, ports).Some?
    ensures var out := Canonicalize(rules);
            (forall r :: r in out ==> ExplicitPort(r) && PlainAction(r)) && NamesDistinct(out) ==>
            (Accepted(net.kind, out, ports) <==>
               Deployable(out, net, ports) && forall r :: r in out ==> !UnsupportedDst(net.kind, r))
  {
    hide Canonicalize, IsCanonical, ExplicitPort, PlainAction, NamesDistinct, UnsupportedDst, ValidPorts, LayoutFits, ProtoCollision, ActionConflict, Fanout, Generate, Plain;
    CanonicalizeIsCanonical(rules);
  }

  /** Some rule in this list claims the port of this host and proto, with this action. */
  ghost predicate Holder(rules: seq<Rule>, k: GroupId, deny: bool, p: int, r: Rule) {
    r in rules && Member(r, k, deny) && Holds(SpanOf(r), p)
  }

  lemma ClaimHasHolder(rules: seq<Rule>, k: GroupId, deny: bool, p: int)
    requires IsCanonical(rules)
    ensures Claims(rules, k, deny, p) <==> exists r :: Holder(rules, k, deny, p, r)
  {
    hide NormalizeRule, Admissible, SpanOf, Member, DedupKey, InOrder, Grouped, FormatSpan, ClaimedBy;
    forall r | r in rules ensures ClaimedBy(r, k, deny, p) <==> Holder(rules, k, deny, p, r) {
      var i :| 0 <= i < |rules| && rules[i] == r;
      assert Settled(rules[i]);
      SettledClaim(r, k, deny, p);
    }
  }

  lemma HolderHasSlot(rules: seq<Rule>, k: GroupId, deny: bool, p: int, r: Rule, net: Net)
    requires Holder(rules, k, deny, p, r) && OpaqueToken(k.1) && net.kind(r.dst) != Cidr
    ensures Slot(r, p) in Fanout(FamilyOf(k.1), net.kind, rules)
    ensures Host(Slot(r, p)) == k.0 && IsDeny(r) == deny
  {
    hide Fanout, ParsePortSpec, NormalizeDomain, Lower, IsDeny, SpanOf;
    FanoutIn(FamilyOf(k.1), net.kind, rules);
    assert Grouped(r) && GroupOf(r) == k;
    assert Lower(r.proto) == k.1;
    assert Fans(FamilyOf(k.1), net.kind, r);
    assert FanSpan(r) == SpanOf(r);
  }

  /** A claimed port is enforced with the action of its claim. */
  lemma ClaimEnforced(rules: seq<Rule>, net: Net, ports: EnvoyPorts, k: GroupId, deny: bool, p: int)
    requires Deployable(rules, net, ports) && OpaqueToken(k.1)
    requires forall r :: r in rules && NormalizeDomain(r.dst) == k.0 ==> net.kind(r.dst) != Cidr
    requires Claims(rules, k, deny, p)
    ensures Enforced(DedicatedOf(rules, net, ports), Generate(rules, net, ports).value, net, k.0, FamilyOf(k.1), p, deny)
  {
    hide Ready, Guarded, Generate, Fanout, DedicatedOf, ValidPorts, LayoutFits, Claims, Enforced, Host, IsDeny, NormalizeDomain, Holder, IsCanonical;
    assert Guarded(rules) by { ReadyGuarded(rules); }
    assert IsCanonical(rules) by { GuardedCanonical(rules); }
    ClaimHasHolder(rules, k, deny, p);
    var r :| Holder(rules, k, deny, p, r);
    HolderOfHost(rules, k, deny, p, r);
    HolderHasSlot(rules, k, deny, p, r, net);
    SlotEnforced(rules, net, ports, FamilyOf(k.1), Slot(r, p));
  }

  lemma SlotIndex(rules: seq<Rule>, net: Net, fam: Family, s: Slot) returns (i: nat)
    requires s in Fanout(fam, net.kind, rules)
    ensures i < |AllSlots(rules, net)| && AllSlots(rules, net)[i] == s
    ensures fam == Tcp <==> i < |Fanout(Tcp, net.kind, rules)|
  {
    hide Fanout;
    var tcp := Fanout(Tcp, net.kind, rules);
    var j :| 0 <= j < |Fanout(fam, net.kind, rules)| && Fanout(fam, net.kind, rules)[j] == s;
    i := if fam == Tcp then j else |tcp| + j;
  }

  lemma SlotEnforced(rules: seq<Rule>, net: Net, ports: EnvoyPorts, fam: Family, s: Slot)
    requires Deployable(rules, net, ports) && s in Fanout(fam, net.kind, rules)
    ensures Enforced(DedicatedOf(rules, net, ports), Generate(rules, net, ports).value, net, Host(s), fam, s.port, IsDeny(s.rule))
  {
    hide Ready, Generate, Fanout, DedicatedOf, ValidPorts, LayoutFits, Matched, Host, IsDeny, AllSlots;
    var i := SlotIndex(rules, net, fam, s);
    RouteAt(rules, net, ports, i);
  }

  lemma GuardedCanonical(rules: seq<Rule>)
    requires Guarded(rules)
    ensures IsCanonical(rules)
  {
    hide IsCanonical;
  }

  lemma HolderOfHost(rules: seq<Rule>, k: GroupId, deny: bool, p: int, r: Rule)
    requires Holder(rules, k, deny, p, r)
    ensures r in rules && NormalizeDomain(r.dst) == k.0
  {
    hide NormalizeDomain, Lower, ParsePortSpec;
  }

  lemma SlotHolds(fam: Family, rules: seq<Rule>, net: Net, s: Slot)
    requires Guarded(rules) && s in Fanout(fam, net.kind, rules)
    ensures Holder(rules, GroupOf(s.rule), IsDeny(s.rule), s.port, s.rule)
    ensures OpaqueToken(GroupOf(s.rule).1) && FamilyOf(GroupOf(s.rule).1) == fam && GroupOf(s.rule).0 == Host(s)
  {
    hide Fanout, ParsePortSpec, NormalizeDomain, Lower, IsDeny, IsCanonical, ProtoCollision, ActionConflict;
    FanoutIn(fam, net.kind, rules);
    assert ExplicitPort(s.rule);
  }

  /** And nothing is enforced that no rule claims. */
  lemma EnforcedClaimed(rules: seq<Rule>, net: Net, ports: EnvoyPorts, i: nat) returns (k: GroupId, deny: bool)
    requires Deployable(rules, net, ports) && i < |DedicatedOf(rules, net, ports)|
    ensures var rt := DedicatedOf(rules, net, ports)[i];
            && OpaqueToken(k.1) && k.0 == rt.domain && FamilyOf(k.1) == rt.l4 && Claims(rules, k, deny, rt.dstPort)
            && Matched(rt, deny, Generate(rules, net, ports).value, net)
  {
    hide Ready, Guarded, Generate, Fanout, DedicatedOf, ValidPorts, LayoutFits, Claims, Matched, Host, IsDeny, Holder, GroupOf, IsCanonical;
    assert Guarded(rules) by { ReadyGuarded(rules); }
    assert IsCanonical(rules) by { GuardedCanonical(rules); }
    RouteCount(rules, net, ports);
    RouteAt(rules, net, ports, i);
    var tcp := Fanout(Tcp, net.kind, rules);
    var s := AllSlots(rules, net)[i];
    var fam := if i < |tcp| then Tcp else Udp;
    assert s in Fanout(fam, net.kind, rules);
    SlotHolds(fam, rules, net, s);
    k, deny := GroupOf(s.rule), IsDeny(s.rule);
    ClaimHasHolder(rules, k, deny, s.port);
  }

  /** The rules as written decide what is enforced: with the canonical form of any rule list
      deployed, a denied port of a host is redirected to a listener that refuses it, and a
      port that is allowed and not denied to one that pins that host and port. */
  lemma WrittenRulesEnforced(rules: seq<Rule>, net: Net, ports: EnvoyPorts, k: GroupId, p: int)
    requires Plain(rules) && Deployable(Canonicalize(rules), net, ports) && OpaqueToken(k.1)
    requires forall r :: r in Canonicalize(rules) && NormalizeDomain(r.dst) == k.0 ==> net.kind(r.dst) != Cidr
    ensures var out := Canonicalize(rules);
            var routes, cfg := DedicatedOf(out, net, ports), Generate(out, net, ports).value;
            && (Claims(rules, k, true, p) ==> Enforced(routes, cfg, net, k.0, FamilyOf(k.1), p, true))
            && (Claims(rules, k, false, p) && !Claims(rules, k, true, p) ==>
                  Enforced(routes, cfg, net, k.0, FamilyOf(k.1), p, false))
  {
    hide Canonicalize, Deployable, Claims, SingleConflict, Enforced, Generate, DedicatedOf, NormalizeDomain, Plain;
    DenyWinsExactly(rules, k, p);
    if Claims(rules, k, true, p) {
      ClaimEnforced(Canonicalize(rules), net, ports, k, true, p);
    } else if Claims(rules, k, false, p) {
      ClaimEnforced(Canonicalize(rules), net, ports, k, false, p);
    }
  }

  /** Conversely every redirect to a dedicated listener was written: its host, port and
      verdict come from a rule, and a pin is never given to a denied port. */
  lemma EnforcedWasWritten(rules: seq<Rule>, net: Net, ports: EnvoyPorts, i: nat) returns (k: GroupId, deny: bool)
    requires Plain(rules) && Deployable(Canonicalize(rules), net, ports)
    requires i < |DedicatedOf(Canonicalize(rules), net, ports)|
    ensures var rt := DedicatedOf(Canonicalize(rules), net, ports)[i];
            && k.0 == rt.domain && FamilyOf(k.1) == rt.l4 && Claims(rules, k, deny, rt.dstPort)
            && Matched(rt, deny, Generate(Canonicalize(rules), net, ports).value, net)
            && (!deny ==> !Claims(rules, k, true, rt.dstPort))
  {
    hide Canonicalize, Claims, SingleConflict, Generate, DedicatedOf, Matched, Plain, Ready, ValidPorts, LayoutFits, Guarded, IsCanonical;
    k, deny := EnforcedClaimed(Canonicalize(rules), net, ports, i);
    var p := DedicatedOf(Canonicalize(rules), net, ports)[i].dstPort;
    DenyWinsExactly(rules, k, p);
    NoConflict(Canonicalize(rules));
    if !deny && Claims(rules, k, true, p) {
      NoBothClaims(Canonicalize(rules), k, p);
    }
  }

  lemma NoConflict(rules: seq<Rule>)
    requires Ready(rules)
    ensures IsCanonical(rules) && !ActionConflict(rules)
  {
    hide IsCanonical, ActionConflict, ProtoCollision;
  }

  lemma NoBothClaims(rules: seq<Rule>, k: GroupId, p: int)
    requires IsCanonical(rules) && Claims(rules, k, true, p) && Claims(rules, k, false, p)
    ensures ActionConflict(rules)
  {
    hide Claims, IsCanonical, NormalizeDomain, Lower, ParsePortSpec, IsDeny;
    ClaimHasHolder(rules, k, true, p);
    ClaimHasHolder(rules, k, false, p);
    forall r, s | Holder(rules, k, false, p, r) && Holder(rules, k, true, p, s) ensures ActionConflict(rules) {
      assert Contradict(r, s, p);
    }
  }
}

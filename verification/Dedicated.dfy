/** Dedicated listener ports: how opaque rules fan out into one slot per port, how slots get
    Envoy ports, and the guards that run before anything is generated. */
module Dedicated {
  import opened Text
  import opened Rules
  import opened Spans
  import opened Canonical

  /** What a destination is; decided by the network library, so a parameter here. */
  datatype DstKind = Fqdn | Ipv4 | Ipv6 | Cidr
  type Classifier = string -> DstKind

  datatype EnvoyPorts = EnvoyPorts(egress: int, tcpBase: int, udpBase: int, health: int)

  const ADMIN_PORT := 9901
  const DEFAULT_DEST_PORT := 443
  const SSH_PORT := 22
  const HTTP_PORT := 80

  datatype Family = Tcp | Udp

  predicate InFamily(fam: Family, r: Rule) {
    var p := Lower(r.proto);
    match fam
    case Tcp => p == "ssh" || p == "tcp"
    case Udp => p == "udp"
  }

  /** tcpDefaultPort / udpDefaultPort. */
  function DefaultDstPort(r: Rule): int {
    match SinglePort(r)
    case Some(p) => p
    case None => if Lower(r.proto) == "ssh" then SSH_PORT else DEFAULT_DEST_PORT
  }

  // ---------------------------------------------------------------- fan-out

  /** One destination port of one opaque rule: one listener. */
  datatype Slot = Slot(rule: Rule, port: int)

  /** The span of ports a rule fans out over: its own, or the default port alone. */
  function FanSpan(r: Rule): Span {
    if ParsePortSpec(r.port).Ports? then SpanOf(r) else Span(DefaultDstPort(r), DefaultDstPort(r))
  }

  function SlotsOf(r: Rule): (s: seq<Slot>)
    ensures FanSpan(r).lo <= FanSpan(r).hi
    ensures |s| == FanSpan(r).hi - FanSpan(r).lo + 1
    ensures forall i :: 0 <= i < |s| ==> s[i] == Slot(r, FanSpan(r).lo + i)
  {
    seq(FanSpan(r).hi - FanSpan(r).lo + 1, i => Slot(r, FanSpan(r).lo + i))
  }

  predicate Fans(fam: Family, cls: Classifier, r: Rule) {
    cls(r.dst) != Cidr && InFamily(fam, r)
  }

  function Fanout(fam: Family, cls: Classifier, rules: seq<Rule>): seq<Slot> {
    if rules == [] then []
    else (if Fans(fam, cls, rules[0]) then SlotsOf(rules[0]) else []) + Fanout(fam, cls, rules[1..])
  }

  function Host(s: Slot): string { NormalizeDomain(s.rule.dst) }

  datatype Mapping = Mapping(dst: string, dstPort: int, envoyPort: int)

  function Assign(slots: seq<Slot>, base: int): (ms: seq<Mapping>)
    ensures |ms| == |slots|
    ensures forall i :: 0 <= i < |slots| ==> ms[i] == Mapping(Host(slots[i]), slots[i].port, base + i)
  {
    seq(|slots|, i requires 0 <= i < |slots| => Mapping(Host(slots[i]), slots[i].port, base + i))
  }

  function Mappings(fam: Family, cls: Classifier, rules: seq<Rule>, ports: EnvoyPorts): seq<Mapping> {
    Assign(Fanout(fam, cls, rules), if fam == Tcp then ports.tcpBase else ports.udpBase)
  }

  /** dedicatedMappings: a running index over rules and the ports of each. */
  method DedicatedMappings(fam: Family, cls: Classifier, rules: seq<Rule>, base: int) returns (mappings: seq<Mapping>)
    ensures mappings == Assign(Fanout(fam, cls, rules), base)
  {
    hide Fanout, SlotsOf, Assign, FanSpan, Fans, Host;
    mappings := [];
    ghost var done: seq<Slot> := [];
    var idx := 0;
    assert rules[0..] == rules && done + Fanout(fam, cls, rules) == Fanout(fam, cls, rules);
    AssignNothing(base);
    for i := 0 to |rules|
      invariant done + Fanout(fam, cls, rules[i..]) == Fanout(fam, cls, rules)
      invariant mappings == Assign(done, base) && idx == |done|
    {
      var r := rules[i];
      FanoutStep(fam, cls, rules, i, done);
      if Fans(fam, cls, r) {
        var part := RuleMappings(r, base + idx);
        AssignAppend(done, SlotsOf(r), base);
        mappings, idx := mappings + part, idx + |part|;
        done := done + SlotsOf(r);
      }
    }
    FanoutNothing(fam, cls);
    assert rules[|rules|..] == [] && done + [] == done;
  }

  lemma AssignNothing(base: int)
    ensures Assign([], base) == []
  {
  }

  lemma FanoutNothing(fam: Family, cls: Classifier)
    ensures Fanout(fam, cls, []) == []
  {
  }

  lemma FanoutStep(fam: Family, cls: Classifier, rules: seq<Rule>, i: nat, done: seq<Slot>)
    requires i < |rules|
    ensures done + Fanout(fam, cls, rules[i..]) ==
            (if Fans(fam, cls, rules[i]) then done + SlotsOf(rules[i]) else done) + Fanout(fam, cls, rules[i + 1..])
  {
    hide Fans, SlotsOf, FanSpan;
    assert rules[i..][0] == rules[i] && rules[i..][1..] == rules[i + 1..];
    Assoc(done, SlotsOf(rules[i]), Fanout(fam, cls, rules[i + 1..]));
  }

  /** The inner loop: one mapping per port of one rule. */
  method RuleMappings(r: Rule, first: int) returns (part: seq<Mapping>)
    ensures part == Assign(SlotsOf(r), first)
  {
    hide FanSpan, NormalizeDomain;
    ghost var slots := SlotsOf(r);
    part := [];
    for p := FanSpan(r).lo to FanSpan(r).hi + 1
      invariant |part| == p - FanSpan(r).lo
      invariant forall i :: 0 <= i < |part| ==> part[i] == Mapping(NormalizeDomain(r.dst), FanSpan(r).lo + i, first + i)
    {
      part := part + [Mapping(NormalizeDomain(r.dst), p, first + |part|)];
    }
  }

  lemma AssignAppend(a: seq<Slot>, b: seq<Slot>, base: int)
    ensures Assign(a + b, base) == Assign(a, base) + Assign(b, base + |a|)
  {
    hide Host;
  }

  lemma {:induction false} FanoutIn(fam: Family, cls: Classifier, rules: seq<Rule>)
    ensures forall s :: s in Fanout(fam, cls, rules) <==>
              s.rule in rules && Fans(fam, cls, s.rule) && Holds(FanSpan(s.rule), s.port)
  {
    hide Fans, FanSpan;
    if rules != [] {
      FanoutIn(fam, cls, rules[1..]);
      assert rules == [rules[0]] + rules[1..];
      SlotsIn(rules[0]);
    }
  }

  lemma SlotsIn(r: Rule)
    ensures forall s :: s in SlotsOf(r) <==> s.rule == r && Holds(FanSpan(r), s.port)
  {
    hide FanSpan;
    forall s: Slot | s.rule == r && Holds(FanSpan(r), s.port) ensures s in SlotsOf(r) {
      assert SlotsOf(r)[s.port - FanSpan(r).lo] == s;
    }
  }

  // ---------------------------------------------------------------- port arithmetic

  /** EnvoyPorts.Validate. */
  predicate ValidPorts(p: EnvoyPorts) {
    && 1 <= p.egress <= MAX_PORT && 1 <= p.tcpBase <= MAX_PORT
    && 1 <= p.udpBase <= MAX_PORT && 1 <= p.health <= MAX_PORT
    && p.egress != p.tcpBase && p.egress != p.udpBase && p.egress != p.health
    && p.tcpBase != p.udpBase && p.tcpBase != p.health && p.udpBase != p.health
  }

  predicate BandFits(base: int, n: nat, ports: EnvoyPorts) {
    n > 0 ==>
      base + n - 1 <= MAX_PORT
      && !(base <= ports.egress < base + n) && !(base <= ports.health < base + n)
      && !(base <= ADMIN_PORT < base + n)
  }

  /** validateDedicatedLayout. */
  predicate LayoutFits(tcp: nat, udp: nat, ports: EnvoyPorts) {
    && BandFits(ports.tcpBase, tcp, ports)
    && BandFits(ports.udpBase, udp, ports)
    && (tcp > 0 && udp > 0 ==>
          !(ports.tcpBase <= ports.udpBase + udp - 1 && ports.udpBase <= ports.tcpBase + tcp - 1))
  }

  function Uint16(x: int): int { x % 65536 }

  /** Every assigned port survives the uint16 cast, is used once across both bands, and is none
      of the fixed ports. */
  lemma PortArithmetic(cls: Classifier, rules: seq<Rule>, ports: EnvoyPorts)
    requires ValidPorts(ports)
    requires LayoutFits(|Fanout(Tcp, cls, rules)|, |Fanout(Udp, cls, rules)|, ports)
    ensures var all := Mappings(Tcp, cls, rules, ports) + Mappings(Udp, cls, rules, ports);
            && (forall m :: m in all ==> Lawful(m.envoyPort, ports))
            && (forall i, j :: 0 <= i < j < |all| ==> all[i].envoyPort != all[j].envoyPort)
  {
    hide Fanout, Host, LayoutFits, ValidPorts;
    var t, u := |Fanout(Tcp, cls, rules)|, |Fanout(Udp, cls, rules)|;
    var all := Mappings(Tcp, cls, rules, ports) + Mappings(Udp, cls, rules, ports);
    assert forall k :: 0 <= k < |all| ==> all[k].envoyPort == BandPort(k, t, ports);
    forall m | m in all ensures Lawful(m.envoyPort, ports) {
      var k :| 0 <= k < |all| && all[k] == m;
      BandPortLawful(k, t, u, ports);
    }
    forall i, j | 0 <= i < j < |all| ensures all[i].envoyPort != all[j].envoyPort {
      BandPortsDiffer(i, j, t, u, ports);
    }
  }

  /** The port of the k-th slot of both bands. */
  function BandPort(k: nat, tcp: nat, ports: EnvoyPorts): int {
    if k < tcp then ports.tcpBase + k else ports.udpBase + (k - tcp)
  }

  predicate Lawful(p: int, ports: EnvoyPorts) {
    1 <= p <= MAX_PORT && Uint16(p) == p && p != ports.egress && p != ports.health && p != ADMIN_PORT
  }

  lemma BandPortLawful(k: nat, tcp: nat, udp: nat, ports: EnvoyPorts)
    requires ValidPorts(ports) && LayoutFits(tcp, udp, ports) && k < tcp + udp
    ensures Lawful(BandPort(k, tcp, ports), ports)
  {
  }

  lemma BandPortsDiffer(i: nat, j: nat, tcp: nat, udp: nat, ports: EnvoyPorts)
    requires LayoutFits(tcp, udp, ports) && i < j < tcp + udp
    ensures BandPort(i, tcp, ports) != BandPort(j, tcp, ports)
  {
  }

  /** The layout is accepted exactly when every slot of both bands gets a port of its own that a
      listener can have. */
  lemma LayoutExactly(tcp: nat, udp: nat, ports: EnvoyPorts)
    requires ValidPorts(ports)
    ensures LayoutFits(tcp, udp, ports) <==>
            && (forall k: nat :: k < tcp + udp ==> var p := BandPort(k, tcp, ports); 1 <= p <= 65535 && p !in {ports.egress, ports.health, 9901})
            && (forall i: nat, j: nat :: i < j < tcp + udp ==> BandPort(i, tcp, ports) != BandPort(j, tcp, ports))
  {
    if LayoutFits(tcp, udp, ports) {
      hide LayoutFits, ValidPorts;
      forall k: nat | k < tcp + udp ensures Lawful(BandPort(k, tcp, ports), ports) {
        BandPortLawful(k, tcp, udp, ports);
      }
      forall i: nat, j: nat | i < j < tcp + udp ensures BandPort(i, tcp, ports) != BandPort(j, tcp, ports) {
        BandPortsDiffer(i, j, tcp, udp, ports);
      }
    } else {
      var k := Misfit(tcp, udp, ports);
    }
  }

  /** A layout that does not fit has a slot to show for it. */
  lemma Misfit(tcp: nat, udp: nat, ports: EnvoyPorts) returns (k: nat)
    requires ValidPorts(ports) && !LayoutFits(tcp, udp, ports)
    ensures k < tcp + udp
    ensures var p := BandPort(k, tcp, ports);
            !(1 <= p <= 65535 && p !in {ports.egress, ports.health, 9901}) || exists i: nat :: i < tcp + udp && i != k && BandPort(i, tcp, ports) == p
  {
    if !BandFits(ports.tcpBase, tcp, ports) {
      var d := BandMisfit(ports.tcpBase, tcp, ports);
      k := d;
    } else if !BandFits(ports.udpBase, udp, ports) {
      var d := BandMisfit(ports.udpBase, udp, ports);
      k := tcp + d;
      assert BandPort(k, tcp, ports) == ports.udpBase + d;
    } else {
      var p := if ports.tcpBase < ports.udpBase then ports.udpBase else ports.tcpBase;
      k := p - ports.tcpBase;
      var i := tcp + (p - ports.udpBase);
      assert BandPort(k, tcp, ports) == p && BandPort(i, tcp, ports) == p;
    }
  }

  lemma BandMisfit(base: int, n: nat, ports: EnvoyPorts) returns (d: nat)
    requires base >= 1 && !BandFits(base, n, ports)
    ensures d < n && !(1 <= base + d <= 65535 && base + d !in {ports.egress, ports.health, 9901})
  {
    d := if base + n - 1 > MAX_PORT then n - 1
         else if base <= ports.egress < base + n then ports.egress - base
         else if base <= ports.health < base + n then ports.health - base
         else ADMIN_PORT - base;
  }

  // ---------------------------------------------------------------- overlap guards

  /** The lowest port that lies in sa and in b, or best when that is lower. */
  method LowestWith(sa: Span, b: seq<Span>, best: Option<int>) returns (low: Option<int>)
    ensures low == best || (low.Some? && Holds(sa, low.value) && Covers(b, low.value))
    ensures best.Some? ==> low.Some? && low.value <= best.value
    ensures forall p :: Holds(sa, p) && Covers(b, p) ==> low.Some? && low.value <= p
  {
    low := best;
    for j := 0 to |b|
      invariant low == best || (low.Some? && Holds(sa, low.value) && Covers(b, low.value))
      invariant best.Some? ==> low.Some? && low.value <= best.value
      invariant forall s, p :: s in b[..j] && Holds(sa, p) && Holds(s, p) ==> low.Some? && low.value <= p
    {
      var sb := b[j];
      assert b[..j + 1] == b[..j] + [sb];
      var lo := if sb.lo > sa.lo then sb.lo else sa.lo;
      var hi := if sb.hi < sa.hi then sb.hi else sa.hi;
      if lo <= hi && (low.None? || lo < low.value) {
        assert sb in b && Holds(sb, lo);
        low := Some(lo);
      }
    }
    assert b[..|b|] == b;
  }

  /** lowestSpanOverlap: the lowest port in both span lists, if they share one. */
  method LowestSpanOverlap(a: seq<Span>, b: seq<Span>) returns (best: Option<int>)
    ensures best.Some? ==> Covers(a, best.value) && Covers(b, best.value)
    ensures forall p :: Covers(a, p) && Covers(b, p) ==> best.Some? && best.value <= p
  {
    best := None;
    for i := 0 to |a|
      invariant best.Some? ==> Covers(a, best.value) && Covers(b, best.value)
      invariant forall s, p :: s in a[..i] && Holds(s, p) && Covers(b, p) ==> best.Some? && best.value <= p
    {
      assert a[..i + 1] == a[..i] + [a[i]];
      assert a[i] in a;
      best := LowestWith(a[i], b, best);
    }
    assert a[..|a|] == a;
  }

  // Which stack a rule claims on its host, for the one-stack-per-port guard.

  function EffectivePort(r: Rule): int {
    match SinglePort(r)
    case Some(p) => p
    case None =>
      var p := Lower(r.proto);
      if p == "http" || p == "ws" then HTTP_PORT
      else if p == "ssh" then SSH_PORT
      else DEFAULT_DEST_PORT
  }

  function CanonicalProto(proto: string): string {
    var p := Lower(proto);
    if p == "" || p == "tls" || p == "wss" then "https"
    else if p == "ws" then "http"
    else p
  }

  /** The port a rule is taken to mean where it names no single one, by protocol. */
  lemma PortDefaults(r: Rule)
    ensures forall p :: ParsePortSpec(r.port) == Ports(Span(p, p)) ==> DefaultDstPort(r) == p && EffectivePort(r) == p
    ensures (forall p :: ParsePortSpec(r.port) != Ports(Span(p, p))) ==>
              && DefaultDstPort(r) == (if Lower(r.proto) == "ssh" then 22 else 443)
              && EffectivePort(r) == (if Lower(r.proto) in {"http", "ws"} then 80 else if Lower(r.proto) == "ssh" then 22 else 443)
  {
    hide ParsePortSpec, Lower;
  }

  /** Which protocols share a stack: https with wss, tls and none given, http with ws; every other
      is a stack of its own. */
  lemma StackTokens(proto: string)
    ensures CanonicalProto(proto) == "https" <==> Lower(proto) in {"https", "wss", "tls", ""}
    ensures CanonicalProto(proto) == "http" <==> Lower(proto) in {"http", "ws"}
    ensures Lower(proto) !in {"https", "wss", "tls", "", "http", "ws"} ==> CanonicalProto(proto) == Lower(proto)
  {
    hide Lower;
  }

  /** A non-opaque deny builds nothing, so it competes with nothing. */
  predicate BuildsStack(r: Rule) { !(IsDeny(r) && !IsOpaque(r)) }

  function StackSpan(r: Rule): Span {
    if ParsePortSpec(r.port).Ports? then SpanOf(r) else Span(EffectivePort(r), EffectivePort(r))
  }

  /** Who competes for a host, and on which ports: everything but an http, https, ws or wss deny
      and the like, on the ports written, or on the protocol's own where none can be read. */
  lemma StackExactly(r: Rule)
    ensures BuildsStack(r) <==> Lower(r.action) != "deny" || Lower(r.proto) in {"tcp", "ssh", "udp"}
    ensures forall span :: ParsePortSpec(r.port) == Ports(span) ==> StackSpan(r) == span && FanSpan(r) == span
    ensures !ParsePortSpec(r.port).Ports? ==>
              var p := if Lower(r.proto) in {"http", "ws"} then 80 else if Lower(r.proto) == "ssh" then 22 else 443;
              StackSpan(r) == Span(p, p)
    ensures !ParsePortSpec(r.port).Ports? ==> var p := if Lower(r.proto) == "ssh" then 22 else 443; FanSpan(r) == Span(p, p)
  {
    hide ParsePortSpec, Lower;
    PortDefaults(r);
  }

  /** Two rules claim one host and port with different network stacks. */
  predicate Collide(r: Rule, s: Rule, p: int) {
    && BuildsStack(r) && BuildsStack(s)
    && NormalizeDomain(r.dst) == NormalizeDomain(s.dst)
    && CanonicalProto(r.proto) != CanonicalProto(s.proto)
    && Holds(StackSpan(r), p) && Holds(StackSpan(s), p)
  }

  ghost predicate ProtoCollision(rules: seq<Rule>) {
    exists r, s, p :: r in rules && s in rules && Collide(r, s, p)
  }

  /** An allow and a deny of one host and opaque protocol claim the same port. */
  predicate Contradict(r: Rule, s: Rule, p: int) {
    SameGroup(r, s) && !IsDeny(r) && IsDeny(s) && Holds(SpanOf(r), p) && Holds(SpanOf(s), p)
  }

  ghost predicate ActionConflict(rules: seq<Rule>) {
    exists r, s, p :: r in rules && s in rules && Contradict(r, s, p)
  }

  /** validateProtoDstSupport: raw udp to an address range cannot be expressed. */
  predicate UnsupportedDst(cls: Classifier, r: Rule) {
    (Lower(r.action) == "allow" || r.action == "") && Lower(r.proto) == "udp" && cls(r.dst) == Cidr
  }

  // ---------------------------------------------------------------- distinct slots

  /** Opaque rules name their ports; an unset port escapes conflict resolution. */
  predicate ExplicitPort(r: Rule) { IsOpaque(r) ==> ParsePortSpec(r.port).Ports? }

  ghost predicate DistinctSlots(slots: seq<Slot>) {
    forall i, j :: 0 <= i < j < |slots| ==> !(Host(slots[i]) == Host(slots[j]) && slots[i].port == slots[j].port)
  }

  ghost predicate Guarded(rules: seq<Rule>) {
    && IsCanonical(rules)
    && (forall r :: r in rules ==> ExplicitPort(r))
    && !ProtoCollision(rules)
    && !ActionConflict(rules)
  }

  /** Two different rules of one family never claim the same port of the same host. */
  lemma GuardedApart(fam: Family, rules: seq<Rule>, i: nat, j: nat, p: int)
    requires Guarded(rules) && i < j < |rules|
    requires InFamily(fam, rules[i]) && InFamily(fam, rules[j])
    requires NormalizeDomain(rules[i].dst) == NormalizeDomain(rules[j].dst)
    ensures !(Holds(FanSpan(rules[i]), p) && Holds(FanSpan(rules[j]), p))
  {
    var r, s := rules[i], rules[j];
    assert r in rules && s in rules;
    OpaqueFamily(fam, r);
    OpaqueFamily(fam, s);
    assert ExplicitPort(r) && ExplicitPort(s);
    hide Lower, ParsePortSpec, NormalizeDomain, Settled, DedupKey, IsDeny, InFamily;
    assert !Collide(r, s, p) && !Contradict(s, r, p);
    assert InOrder(r, s);
  }

  lemma OpaqueFamily(fam: Family, r: Rule)
    requires InFamily(fam, r)
    ensures IsOpaque(r) && CanonicalProto(r.proto) == Lower(r.proto)
  {
  }

  /** So the slots of a family are distinct host-port pairs. */
  lemma {:induction false} FanoutDistinct(fam: Family, cls: Classifier, rules: seq<Rule>, n: nat)
    requires Guarded(rules) && n <= |rules|
    ensures DistinctSlots(Fanout(fam, cls, rules[n..]))
    decreases |rules| - n
  {
    hide Guarded, FanSpan, InFamily, Host;
    if n < |rules| {
      FanoutDistinct(fam, cls, rules, n + 1);
      assert rules[n..][0] == rules[n] && rules[n..][1..] == rules[n + 1..];
      var rest := Fanout(fam, cls, rules[n + 1..]);
      if Fans(fam, cls, rules[n]) {
        SlotsIn(rules[n]);
        forall s, t | s in SlotsOf(rules[n]) && t in rest ensures !(Host(s) == Host(t) && s.port == t.port) {
          LaterSlot(fam, cls, rules, n, s, t);
        }
        DistinctAppend(SlotsOf(rules[n]), rest);
      }
    }
  }

  lemma LaterSlot(fam: Family, cls: Classifier, rules: seq<Rule>, n: nat, s: Slot, t: Slot)
    requires Guarded(rules) && n < |rules| && Fans(fam, cls, rules[n])
    requires s.rule == rules[n] && Holds(FanSpan(rules[n]), s.port)
    requires t in Fanout(fam, cls, rules[n + 1..])
    ensures !(Host(s) == Host(t) && s.port == t.port)
  {
    hide Guarded, FanSpan, InFamily, NormalizeDomain;
    FanoutIn(fam, cls, rules[n + 1..]);
    var j :| 0 <= j < |rules[n + 1..]| && rules[n + 1..][j] == t.rule;
    assert rules[n + 1 + j] == t.rule;
    if Host(s) == Host(t) {
      GuardedApart(fam, rules, n, n + 1 + j, s.port);
    }
  }

  lemma DistinctAppend(a: seq<Slot>, b: seq<Slot>)
    requires DistinctSlots(a) && DistinctSlots(b)
    requires forall s, t :: s in a && t in b ==> !(Host(s) == Host(t) && s.port == t.port)
    ensures DistinctSlots(a + b)
  {
    hide Host;
    forall i, j | 0 <= i < j < |a + b|
      ensures !(Host((a + b)[i]) == Host((a + b)[j]) && (a + b)[i].port == (a + b)[j].port)
    {
      assert i < |a| ==> (a + b)[i] in a;
      assert j >= |a| ==> (a + b)[j] in b;
    }
  }
}

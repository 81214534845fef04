/** The two guards that compare rules with each other, as the searches they are. */
module Guards {
  import opened Text
  import opened Rules
  import opened Spans
  import opened Canonical
  import opened DenyWins
  import opened Dedicated

  /** The key that files this rule's span holds p. */
  ghost predicate Filed<K>(rules: seq<Rule>, file: Rule -> Option<(K, Span)>, k: K, p: int) {
    exists r :: r in rules && file(r).Some? && file(r).value.0 == k && Holds(file(r).value.1, p)
  }

  /** The map files exactly the spans of these rules. */
  ghost predicate Files<K(!new)>(m: map<K, seq<Span>>, rules: seq<Rule>, file: Rule -> Option<(K, Span)>) {
    forall k, p :: Filed(rules, file, k, p) <==> k in m && Covers(m[k], p)
  }

  /** Spans per key, in input order. */
  method CollectSpans<K(!new, ==)>(rules: seq<Rule>, file: Rule -> Option<(K, Span)>) returns (m: map<K, seq<Span>>)
    ensures Files(m, rules, file)
  {
    m := map[];
    for i := 0 to |rules|
      invariant Files(m, rules[..i], file)
    {
      assert rules[..i + 1] == rules[..i] + [rules[i]];
      match file(rules[i]) {
        case None =>
          FilesSame(m, rules[..i], rules[i], file);
        case Some((k, span)) =>
          FilesMore(m, rules[..i], rules[i], file);
          m := m[k := (if k in m then m[k] else []) + [span]];
      }
    }
    assert rules[..|rules|] == rules;
  }

  lemma FilesSame<K(!new)>(m: map<K, seq<Span>>, rules: seq<Rule>, r: Rule, file: Rule -> Option<(K, Span)>)
    requires Files(m, rules, file) && file(r).None?
    ensures Files(m, rules + [r], file)
  {
    forall k, p ensures Filed(rules + [r], file, k, p) <==> k in m && Covers(m[k], p) {
      FiledSnoc(rules, r, file, k, p);
    }
  }

  lemma FilesMore<K(!new)>(m: map<K, seq<Span>>, rules: seq<Rule>, r: Rule, file: Rule -> Option<(K, Span)>)
    requires Files(m, rules, file) && file(r).Some?
    ensures var (k, span) := file(r).value;
            Files(m[k := (if k in m then m[k] else []) + [span]], rules + [r], file)
  {
    var (k0, span) := file(r).value;
    var filed := if k0 in m then m[k0] else [];
    var m' := m[k0 := filed + [span]];
    forall k, p ensures Filed(rules + [r], file, k, p) <==> k in m' && Covers(m'[k], p) {
      FiledSnoc(rules, r, file, k, p);
      assert Filed(rules, file, k, p) <==> k in m && Covers(m[k], p);
      CoversAppend(filed, [span], p);
      assert Covers([span], p) <==> Holds(span, p) by { assert span in [span]; }
    }
  }

  lemma FiledSnoc<K>(rules: seq<Rule>, r: Rule, file: Rule -> Option<(K, Span)>, k: K, p: int)
    ensures Filed(rules + [r], file, k, p) <==>
            Filed(rules, file, k, p)
            || (file(r).Some? && file(r).value.0 == k && Holds(file(r).value.1, p))
  {
    assert forall x :: x in rules + [r] <==> x in rules || x == r;
  }

  // ---------------------------------------------------------------- allow against deny

  function FileAction(r: Rule, deny: bool): Option<(GroupId, Span)> {
    if Grouped(r) && IsDeny(r) == deny then Some((GroupOf(r), SpanOf(r))) else None
  }

  ghost predicate Opposed(rules: seq<Rule>, k: GroupId, p: int) {
    Filed(rules, r => FileAction(r, false), k, p) && Filed(rules, r => FileAction(r, true), k, p)
  }

  lemma ConflictIffOpposed(rules: seq<Rule>)
    ensures ActionConflict(rules) <==> exists k, p :: Opposed(rules, k, p)
  {
    hide Grouped, GroupOf, IsDeny, SpanOf;
    if ActionConflict(rules) {
      var r, s, p :| r in rules && s in rules && Contradict(r, s, p);
      assert FileAction(r, false) == Some((GroupOf(r), SpanOf(r)));
      assert FileAction(s, true) == Some((GroupOf(r), SpanOf(s)));
      assert Opposed(rules, GroupOf(r), p);
    }
    if k, p :| Opposed(rules, k, p) {
      var r :| r in rules && FileAction(r, false).Some? && FileAction(r, false).value.0 == k && Holds(FileAction(r, false).value.1, p);
      var s :| s in rules && FileAction(s, true).Some? && FileAction(s, true).value.0 == k && Holds(FileAction(s, true).value.1, p);
      assert Contradict(r, s, p);
    }
  }

  /** Errors exactly when an allow and a deny of one host and protocol claim one port, and
      names the lowest such port of the group it reports. */
  method CheckOpaquePortActionConflicts(rules: seq<Rule>) returns (err: Option<(GroupId, int)>)
    ensures err.Some? <==> ActionConflict(rules)
    ensures err.Some? ==> Opposed(rules, err.value.0, err.value.1)
    ensures err.Some? ==> forall p :: Opposed(rules, err.value.0, p) ==> err.value.1 <= p
  {
    hide FileAction, ActionConflict;
    ConflictIffOpposed(rules);
    var allow := CollectSpans(rules, r => FileAction(r, false));
    var deny := CollectSpans(rules, r => FileAction(r, true));
    var keys := allow.Keys * deny.Keys;
    ghost var all := keys;
    while keys != {}
      invariant keys <= all
      invariant forall k, p :: k in all - keys ==> !Opposed(rules, k, p)
      decreases |keys|
    {
      var k :| k in keys;
      var low := LowestSpanOverlap(allow[k], deny[k]);
      if low.Some? {
        assert Opposed(rules, k, low.value);
        return Some((k, low.value));
      }
      keys := keys - {k};
    }
    assert forall k, p :: Opposed(rules, k, p) ==> k in all;
    return None;
  }

  /** On a canonicalised list the guard fires exactly for the bare one-port clashes of the
      input, the single exception to deny-wins. */
  lemma GuardFindsTheException(rules: seq<Rule>)
    requires Plain(rules)
    ensures ActionConflict(Canonicalize(rules)) <==> exists k, p :: SingleConflict(rules, k, p)
  {
    hide Canonicalize, SingleConflict, Claims, Opposed, ActionConflict, IsCanonical;
    var out := Canonicalize(rules);
    CanonicalizeIsCanonical(rules);
    ConflictIffOpposed(out);
    forall k, p ensures Opposed(out, k, p) <==> SingleConflict(rules, k, p) {
      OpposedClaims(out, k, p);
      DenyWinsExactly(rules, k, p);
      ConflictClaims(rules, k, p);
    }
  }

  lemma ConflictClaims(rules: seq<Rule>, k: GroupId, p: int)
    ensures SingleConflict(rules, k, p) ==> Claims(rules, k, true, p) && Claims(rules, k, false, p)
  {
    hide ClaimedBy;
  }

  lemma OpposedClaims(out: seq<Rule>, k: GroupId, p: int)
    requires IsCanonical(out)
    ensures Opposed(out, k, p) <==> Claims(out, k, false, p) && Claims(out, k, true, p)
  {
    hide Grouped, GroupOf, IsDeny, SpanOf, NormalizeRule, Admissible, Claims, IsCanonical;
    FiledClaims(out, k, false, p);
    FiledClaims(out, k, true, p);
  }

  lemma FiledClaims(out: seq<Rule>, k: GroupId, deny: bool, p: int)
    requires IsCanonical(out)
    ensures Filed(out, r => FileAction(r, deny), k, p) <==> Claims(out, k, deny, p)
  {
    hide Grouped, GroupOf, IsDeny, SpanOf, NormalizeRule, Admissible, InOrder, SameGroup, ClaimedBy;
    forall r | r in out
      ensures ClaimedBy(r, k, deny, p) <==>
              FileAction(r, deny).Some? && FileAction(r, deny).value.0 == k && Holds(FileAction(r, deny).value.1, p)
    {
      assert Settled(r);
      SettledClaim(r, k, deny, p);
    }
  }

  // ---------------------------------------------------------------- one stack per host and port

  /** A rule's host, stack and ports, if it builds one. */
  function FileStack(r: Rule): Option<((string, string), Span)> {
    if BuildsStack(r) then Some(((NormalizeDomain(r.dst), CanonicalProto(r.proto)), StackSpan(r))) else None
  }

  ghost predicate Rivals(rules: seq<Rule>, a: (string, string), b: (string, string), p: int) {
    a.0 == b.0 && a.1 != b.1 && Filed(rules, FileStack, a, p) && Filed(rules, FileStack, b, p)
  }

  lemma CollisionIffRivals(rules: seq<Rule>)
    ensures ProtoCollision(rules) <==> exists a, b, p :: Rivals(rules, a, b, p)
  {
    hide BuildsStack, NormalizeDomain, CanonicalProto, StackSpan;
    if ProtoCollision(rules) {
      var r, s, p :| r in rules && s in rules && Collide(r, s, p);
      assert Rivals(rules, FileStack(r).value.0, FileStack(s).value.0, p);
    }
    if a, b, p :| Rivals(rules, a, b, p) {
      var r :| r in rules && FileStack(r).Some? && FileStack(r).value.0 == a && Holds(FileStack(r).value.1, p);
      var s :| s in rules && FileStack(s).Some? && FileStack(s).value.0 == b && Holds(FileStack(s).value.1, p);
      assert Collide(r, s, p);
    }
  }

  /** Errors exactly when two stacks claim one port of one host. */
  method CheckProtoCollisions(rules: seq<Rule>) returns (err: Option<(string, int)>)
    ensures err.Some? <==> ProtoCollision(rules)
    ensures err.Some? ==> exists a, b :: Rivals(rules, a, b, err.value.1) && a.0 == err.value.0
  {
    hide FileStack, ProtoCollision;
    CollisionIffRivals(rules);
    var spans := CollectSpans(rules, FileStack);
    var left := spans.Keys;
    while left != {}
      invariant left <= spans.Keys
      invariant forall a, b, p :: a in spans.Keys - left && b in spans.Keys ==> !Rivals(rules, a, b, p)
      decreases |left|
    {
      var a :| a in left;
      var rest := spans.Keys;
      while rest != {}
        invariant rest <= spans.Keys
        invariant forall b, p :: b in spans.Keys - rest ==> !Rivals(rules, a, b, p)
        decreases |rest|
      {
        var b :| b in rest;
        if a.0 == b.0 && a.1 != b.1 {
          var low := LowestSpanOverlap(spans[a], spans[b]);
          if low.Some? {
            assert Rivals(rules, a, b, low.value);
            return Some((a.0, low.value));
          }
        }
        rest := rest - {b};
      }
      left := left - {a};
    }
    assert forall a, b, p :: Rivals(rules, a, b, p) ==> a in spans.Keys && b in spans.Keys;
    return None;
  }

  // ---------------------------------------------------------------- all guards, in order

  /** Errors exactly when an allow sends raw udp to an address range, and names the first. */
  method ValidateProtoDstSupport(cls: Classifier, rules: seq<Rule>) returns (err: Option<string>)
    ensures err.Some? <==> exists r :: r in rules && UnsupportedDst(cls, r)
    ensures err.Some? <==> exists r :: r in rules && Lower(r.proto) == "udp" && cls(r.dst) == Cidr && (r.action == "" || Lower(r.action) == "allow")
    ensures err.Some? ==> exists i :: 0 <= i < |rules| && FirstUnsupported(cls, rules, i) && rules[i].dst == err.value
  {
    assert forall r :: UnsupportedDst(cls, r) <==> Lower(r.proto) == "udp" && cls(r.dst) == Cidr && (r.action == "" || Lower(r.action) == "allow");
    hide UnsupportedDst, Lower;
    for i := 0 to |rules|
      invariant forall j :: 0 <= j < i ==> !UnsupportedDst(cls, rules[j])
    {
      if UnsupportedDst(cls, rules[i]) {
        assert FirstUnsupported(cls, rules, i);
        return Some(rules[i].dst);
      }
    }
    return None;
  }

  predicate FirstUnsupported(cls: Classifier, rules: seq<Rule>, i: nat)
    requires i < |rules|
  {
    UnsupportedDst(cls, rules[i]) && forall j :: 0 <= j < i ==> !UnsupportedDst(cls, rules[j])
  }

  /** What a rule list must satisfy before anything is generated from it. */
  ghost predicate Accepted(cls: Classifier, rules: seq<Rule>, ports: EnvoyPorts) {
    && ValidPorts(ports) && !ProtoCollision(rules) && !ActionConflict(rules)
    && LayoutFits(|Fanout(Tcp, cls, rules)|, |Fanout(Udp, cls, rules)|, ports)
    && (forall r :: r in rules ==> !UnsupportedDst(cls, r))
  }

  datatype Refusal = BadPorts | Collision(host: string, port: int) | Contradiction(group: GroupId, port: int) | NoRoom | NoUdpRange(dst: string)

  /** The guards in the order they run; the first to fail is the one reported. */
  method CheckRules(cls: Classifier, rules: seq<Rule>, ports: EnvoyPorts) returns (err: Option<Refusal>)
    ensures err.None? <==> Accepted(cls, rules, ports)
    ensures err == Some(BadPorts) <==> !ValidPorts(ports)
    ensures err.Some? && err.value.Collision? <==> ValidPorts(ports) && ProtoCollision(rules)
    ensures err.Some? && err.value.Contradiction? <==> ValidPorts(ports) && !ProtoCollision(rules) && ActionConflict(rules)
    ensures err.Some? && err.value.NoUdpRange? ==> exists r :: r in rules && UnsupportedDst(cls, r) && r.dst == err.value.dst
  {
    hide ValidPorts, ProtoCollision, ActionConflict, LayoutFits, UnsupportedDst, Fanout;
    if !ValidPorts(ports) {
      return Some(BadPorts);
    }
    var collision := CheckProtoCollisions(rules);
    if collision.Some? {
      return Some(Collision(collision.value.0, collision.value.1));
    }
    var contradiction := CheckOpaquePortActionConflicts(rules);
    if contradiction.Some? {
      return Some(Contradiction(contradiction.value.0, contradiction.value.1));
    }
    var tcp := DedicatedMappings(Tcp, cls, rules, ports.tcpBase);
    var udp := DedicatedMappings(Udp, cls, rules, ports.udpBase);
    if !LayoutFits(|tcp|, |udp|, ports) {
      return Some(NoRoom);
    }
    var unsupported := ValidateProtoDstSupport(cls, rules);
    if unsupported.Some? {
      return Some(NoUdpRange(unsupported.value));
    }
    return None;
  }
}

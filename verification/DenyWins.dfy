/** What canonicalisation does to the ports of opaque rules: deny wins, exactly. */
module DenyWins {
  import opened Text
  import opened Rules
  import opened Spans
  import opened Canonical

  // ---------------------------------------------------------------- what a rule as written claims

  /** The ports an opaque rule names, as written: those its port field reads as, and 22 for ssh
      without one. */
  function WrittenSpan(r: Rule): Option<Span> {
    if r.port == "" then (if Lower(r.proto) == "ssh" then Some(Span(22, 22)) else None)
    else
      match ParsePortSpec(r.port)
      case Ports(s) => Some(s)
      case _ => None
  }

  /** r claims port p of this host and opaque protocol: to deny it if its action reads deny, in
      any case, and to allow it otherwise, also when it gives none. */
  predicate ClaimedBy(r: Rule, k: GroupId, deny: bool, p: int) {
    && k.0 != "" && NormalizeDomain(r.dst) == k.0
    && Lower(r.proto) == k.1 && (k.1 == "tcp" || k.1 == "ssh" || k.1 == "udp")
    && (deny <==> Lower(r.action) == "deny")
    && WrittenSpan(r).Some? && WrittenSpan(r).value.lo <= p <= WrittenSpan(r).value.hi
  }

  ghost predicate Claims(rules: seq<Rule>, k: GroupId, deny: bool, p: int) {
    exists r :: r in rules && ClaimedBy(r, k, deny, p)
  }

  /** Some rule of this action claims p, and all that do name p alone. */
  ghost predicate OnlySingly(rules: seq<Rule>, k: GroupId, deny: bool, p: int) {
    && Claims(rules, k, deny, p)
    && forall r :: r in rules && ClaimedBy(r, k, deny, p) ==> WrittenSpan(r) == Some(Span(p, p))
  }

  /** An allow and a deny for one port with no range on either side: nothing to carve. */
  ghost predicate SingleConflict(rules: seq<Rule>, k: GroupId, p: int) {
    OnlySingly(rules, k, true, p) && OnlySingly(rules, k, false, p)
  }

  // ---------------------------------------------------------------- the same, after normalisation

  /** r, once normalised, is an admissible rule of this group and action that holds port p. */
  predicate NormalClaim(r: Rule, k: GroupId, deny: bool, p: int) {
    var n := NormalizeRule(r);
    Admissible(n) && Member(n, k, deny) && Holds(SpanOf(n), p)
  }

  ghost predicate NormalClaims(rules: seq<Rule>, k: GroupId, deny: bool, p: int) {
    exists r :: r in rules && NormalClaim(r, k, deny, p)
  }

  /** Some rule of this action claims p, and all that do name p alone. */
  ghost predicate NormallySingly(rules: seq<Rule>, k: GroupId, deny: bool, p: int) {
    && NormalClaims(rules, k, deny, p)
    && !exists r :: r in rules && NormalClaim(r, k, deny, p)
                    && SpanOf(NormalizeRule(r)) != Span(p, p)
  }

  /** An allow and a deny for one port with no range on either side: nothing to carve. */
  ghost predicate NormalConflict(rules: seq<Rule>, k: GroupId, p: int) {
    NormallySingly(rules, k, true, p) && NormallySingly(rules, k, false, p)
  }

  // ---------------------------------------------------------------- from spans to claims

  lemma SpanIsSingle(spans: seq<Span>, p: int)
    requires Ascending(spans)
    ensures Span(p, p) in spans <==> Covers(spans, p) && !Links(spans, p - 1) && !Links(spans, p)
  {
    if Span(p, p) in spans {
      assert Holds(Span(p, p), p);
      assert forall s :: s in spans && Holds(s, p) ==> s == Span(p, p);
    } else if Covers(spans, p) {
      var s :| s in spans && Holds(s, p);
      assert s.lo < p ==> Links(spans, p - 1);
      assert p < s.hi ==> Links(spans, p);
    }
  }

  /** The ports and links of a group's merged spans, read off the rules. */
  lemma MergedClaims(rules: seq<Rule>, k: GroupId, deny: bool, p: int)
    requires Ingested(rules)
    ensures Covers(MergedSpans(k, deny, rules), p) <==> NormalClaims(rules, k, deny, p)
    ensures Span(p, p) in MergedSpans(k, deny, rules) <==> NormallySingly(rules, k, deny, p)
  {
    hide Grouped, GroupOf, IsDeny, NormalizeRule, Admissible, SpanOf, DedupKey, PlainProto, Merge, Members;
    var ms := Members(k, deny, rules);
    var spans := SpansOf(ms);
    MembersIn(k, deny, rules);
    GroupedSpansValid(ms);
    MergeMeaning(spans);
    var merged := MergedSpans(k, deny, rules);
    assert merged == Merge(spans);
    forall s | s in spans ensures exists r :: r in ms && SpanOf(r) == s {
      var i :| 0 <= i < |ms| && spans[i] == s;
      assert ms[i] in ms;
    }
    forall r | r in ms ensures SpanOf(r) in spans {
      var i :| 0 <= i < |ms| && ms[i] == r;
      assert spans[i] == SpanOf(r);
    }
    assert forall r :: NormalClaim(r, k, deny, p) && r in rules ==> r in ms && Holds(SpanOf(r), p);
    assert forall r :: r in ms && Holds(SpanOf(r), p) ==> r in rules && NormalClaim(r, k, deny, p);
    SpanIsSingle(merged, p);
  }

  lemma EmittedClaims(rules: seq<Rule>, k: GroupId, p: int)
    requires Ingested(rules)
    ensures NormalClaims(EmitGroup(k, rules), k, true, p) <==> Covers(MergedSpans(k, true, rules), p)
    ensures NormalClaims(EmitGroup(k, rules), k, false, p) <==> Covers(AllowedSpans(k, rules), p)
  {
    hide Grouped, GroupOf, IsDeny, NormalizeRule, Admissible, SpanOf, Ingested, MergedSpans, AllowedSpans;
    var ds := Stamp(Members(k, true, rules), MergedSpans(k, true, rules));
    var as_ := Stamp(Members(k, false, rules), AllowedSpans(k, rules));
    EmitShape(k, rules);
    BlockClaims(ds, k, true, p);
    BlockClaims(as_, k, false, p);
    ClaimsAppend(ds, as_, k, true, p);
    ClaimsAppend(ds, as_, k, false, p);
  }

  lemma ClaimsAppend(a: seq<Rule>, b: seq<Rule>, k: GroupId, deny: bool, p: int)
    ensures NormalClaims(a + b, k, deny, p) <==> NormalClaims(a, k, deny, p) || NormalClaims(b, k, deny, p)
  {
    hide NormalClaim;
    assert forall r :: r in a + b <==> r in a || r in b;
  }

  lemma BlockClaims(rules: seq<Rule>, k: GroupId, deny: bool, p: int)
    requires Block(rules, k, deny)
    ensures NormalClaims(rules, k, deny, p) <==> Covers(SpansOf(rules), p)
    ensures !NormalClaims(rules, k, !deny, p)
  {
    hide Grouped, GroupOf, IsDeny, NormalizeRule, Admissible, SpanOf;
    var spans := SpansOf(rules);
    forall i | 0 <= i < |rules|
      ensures NormalClaim(rules[i], k, deny, p) <==> Holds(spans[i], p)
      ensures !NormalClaim(rules[i], k, !deny, p)
    {
      assert Settled(rules[i]) && Member(rules[i], k, deny);
    }
    assert forall i :: 0 <= i < |rules| ==> rules[i] in rules && spans[i] in spans;
  }

  // ---------------------------------------------------------------- ingestion keeps every claim

  lemma {:induction false} IngestSource(rules: seq<Rule>, seen: set<string>, r: Rule) returns (q: Rule)
    requires r in Ingest(rules, seen)
    ensures q in rules && NormalizeRule(q) == r
  {
    hide NormalizeRule, Admissible, DedupKey;
    q := rules[0];
    var n := NormalizeRule(q);
    if !Admissible(n) || DedupKey(n) in seen {
      q := IngestSource(rules[1..], seen, r);
    } else if n != r {
      q := IngestSource(rules[1..], seen + {DedupKey(n)}, r);
    }
  }

  lemma {:induction false} IngestKeeps(rules: seq<Rule>, seen: set<string>, q: Rule) returns (r: Rule)
    requires q in rules && Admissible(NormalizeRule(q)) && DedupKey(NormalizeRule(q)) !in seen
    ensures r in Ingest(rules, seen) && DedupKey(r) == DedupKey(NormalizeRule(q))
  {
    hide NormalizeRule, Admissible, DedupKey;
    r := NormalizeRule(rules[0]);
    if DedupKey(r) != DedupKey(NormalizeRule(q)) || !Admissible(r) {
      assert q in rules[1..];
      r := IngestKeeps(rules[1..], if !Admissible(r) || DedupKey(r) in seen then seen else seen + {DedupKey(r)}, q);
    }
  }

  lemma SameKeySameClaim(a: Rule, b: Rule, k: GroupId, deny: bool, p: int)
    requires PlainProto(a) && PlainProto(b) && Admissible(a) && Admissible(b)
    requires NormalizeRule(a) == a && NormalizeRule(b) == b && DedupKey(a) == DedupKey(b)
    ensures NormalClaim(a, k, deny, p) <==> NormalClaim(b, k, deny, p)
    ensures SpanOf(a) == SpanOf(b)
  {
    hide NormalizeRule, DedupKey, ParsePortSpec, Lower, NormalizeDomain;
    DedupKeyInjective(a, b);
  }

  /** A rule that claims p has a counterpart in the other list with the same span. */
  ghost predicate Echoed(r: Rule, other: seq<Rule>, k: GroupId, deny: bool, p: int) {
    exists q :: q in other && NormalClaim(q, k, deny, p)
                && SpanOf(NormalizeRule(q)) == SpanOf(NormalizeRule(r))
  }

  lemma EchoesAgree(a: seq<Rule>, b: seq<Rule>, k: GroupId, deny: bool, p: int)
    requires forall r :: r in a && NormalClaim(r, k, deny, p) ==> Echoed(r, b, k, deny, p)
    requires forall r :: r in b && NormalClaim(r, k, deny, p) ==> Echoed(r, a, k, deny, p)
    ensures NormalClaims(a, k, deny, p) <==> NormalClaims(b, k, deny, p)
    ensures NormallySingly(a, k, deny, p) <==> NormallySingly(b, k, deny, p)
  {
    hide NormalClaim, NormalizeRule, SpanOf;
  }

  lemma IngestClaims(rules: seq<Rule>, k: GroupId, deny: bool, p: int)
    requires Plain(rules)
    ensures NormalClaims(Ingest(rules, {}), k, deny, p) <==> NormalClaims(rules, k, deny, p)
    ensures NormallySingly(Ingest(rules, {}), k, deny, p) <==> NormallySingly(rules, k, deny, p)
  {
    hide NormalClaim, Ingest, NormalClaims, NormallySingly, Echoed;
    var out := Ingest(rules, {});
    forall r | r in out && NormalClaim(r, k, deny, p) ensures Echoed(r, rules, k, deny, p) {
      EchoBack(rules, r, k, deny, p);
    }
    forall q | q in rules && NormalClaim(q, k, deny, p) ensures Echoed(q, out, k, deny, p) {
      EchoForward(rules, q, k, deny, p);
    }
    EchoesAgree(out, rules, k, deny, p);
  }

  lemma EchoBack(rules: seq<Rule>, r: Rule, k: GroupId, deny: bool, p: int)
    requires Plain(rules) && r in Ingest(rules, {}) && NormalClaim(r, k, deny, p)
    ensures Echoed(r, rules, k, deny, p)
  {
    hide NormalizeRule, Admissible, Member, SpanOf, Ingest;
    var q := IngestSource(rules, {}, r);
    NormalizeRuleIdempotent(q);
    assert NormalClaim(q, k, deny, p);
  }

  lemma EchoForward(rules: seq<Rule>, q: Rule, k: GroupId, deny: bool, p: int)
    requires Plain(rules) && q in rules && NormalClaim(q, k, deny, p)
    ensures Echoed(q, Ingest(rules, {}), k, deny, p)
  {
    hide NormalizeRule, Admissible, Member, SpanOf, Ingest, DedupKey, PlainProto;
    var n := NormalizeRule(q);
    NormalizeRuleIdempotent(q);
    NormalizeKeepsPlain(q);
    var r := IngestKeeps(rules, {}, q);
    IngestShape(rules, {});
    SameKeySameClaim(r, n, k, deny, p);
  }

  // ---------------------------------------------------------------- the theorem

  lemma CarvedAt(rules: seq<Rule>, k: GroupId, p: int)
    ensures Covers(AllowedSpans(k, rules), p) <==>
            Covers(MergedSpans(k, false, rules), p)
            && (!Covers(MergedSpans(k, true, rules), p)
                || (Span(p, p) in MergedSpans(k, true, rules) && Span(p, p) in MergedSpans(k, false, rules)))
  {
    hide MergedSpans;
    var deny, allow := MergedSpans(k, true, rules), MergedSpans(k, false, rules);
    var carve := CarveSet(deny, allow);
    CarveSetIn(deny, allow);
    SubtractMeaning(allow, carve);
    CarveSetAt(deny, allow, p);
  }

  lemma CarveSetAt(deny: seq<Span>, allow: seq<Span>, p: int)
    requires Ascending(deny)
    ensures Covers(CarveSet(deny, allow), p) <==>
            Covers(deny, p) && !(Span(p, p) in deny && Span(p, p) in allow)
  {
    hide CarveSet;
    CarveSetIn(deny, allow);
    if Covers(deny, p) {
      var s :| s in deny && Holds(s, p);
      assert forall t :: t in deny && Holds(t, p) ==> t == s;
      assert Holds(Span(p, p), p);
      assert SingleClash(s, allow) <==> s == Span(p, p) && s in allow;
    }
  }

  lemma DenyWinsNormally(rules: seq<Rule>, k: GroupId, p: int)
    requires Plain(rules)
    ensures NormalClaims(Canonicalize(rules), k, true, p) <==> NormalClaims(rules, k, true, p)
    ensures NormalClaims(Canonicalize(rules), k, false, p) <==>
            NormalClaims(rules, k, false, p) && (!NormalClaims(rules, k, true, p) || NormalConflict(rules, k, p))
  {
    hide Ingested, NormalClaim, NormallySingly, EmitGroup, MergedSpans, AllowedSpans, InGroup;
    var mid := Ingest(rules, {});
    IngestShape(rules, {});
    IngestClaims(rules, k, true, p);
    IngestClaims(rules, k, false, p);
    ResolveGroup(mid, k);
    ResolveVerbatim(mid);
    GroupClaims(Resolve(mid), EmitGroup(k, mid), k, true, p);
    GroupClaims(Resolve(mid), EmitGroup(k, mid), k, false, p);
    EmittedClaims(mid, k, p);
    CarvedAt(mid, k, p);
    MergedClaims(mid, k, true, p);
    MergedClaims(mid, k, false, p);
  }

  lemma GroupClaims(out: seq<Rule>, emitted: seq<Rule>, k: GroupId, deny: bool, p: int)
    requires forall r :: r in out && InGroup(r, k) <==> r in emitted
    requires forall r :: r in out ==> Settled(r)
    ensures NormalClaims(out, k, deny, p) <==> NormalClaims(emitted, k, deny, p)
  {
    hide Grouped, GroupOf, NormalizeRule, Admissible, SpanOf, IsDeny;
    forall r | r in out && NormalClaim(r, k, deny, p) ensures r in emitted {
      assert Settled(r);
    }
  }

  /** Spans of one action never share a port in the output. */
  lemma SpansStayDisjoint(rules: seq<Rule>, i: nat, j: nat)
    requires Plain(rules)
    requires i < j < |Canonicalize(rules)|
    requires SameGroup(Canonicalize(rules)[i], Canonicalize(rules)[j])
    requires IsDeny(Canonicalize(rules)[i]) == IsDeny(Canonicalize(rules)[j])
    ensures SpanOf(Canonicalize(rules)[i]).hi < SpanOf(Canonicalize(rules)[j]).lo
  {
    CanonicalizeIsCanonical(rules);
    hide Canonicalize, Settled, Grouped, DedupKey, SpanOf, IsDeny;
    assert InOrder(Canonicalize(rules)[i], Canonicalize(rules)[j]);
  }

  // ---------------------------------------------------------------- the rules as written

  /** Normalisation reads an opaque rule as it is written. */
  lemma WrittenIsNormal(r: Rule, k: GroupId, deny: bool, p: int)
    ensures ClaimedBy(r, k, deny, p) <==> NormalClaim(r, k, deny, p)
    ensures ClaimedBy(r, k, deny, p) ==> WrittenSpan(r) == Some(SpanOf(NormalizeRule(r)))
  {
    NormalFields(r);
    DefaultPortsRead();
    hide NormalizeRule, ParsePortSpec, NormalizeDomain, Lower;
  }

  lemma NormalFields(r: Rule)
    ensures var n := NormalizeRule(r);
            && n.dst == r.dst
            && (IsOpaque(r) <==> IsOpaque(n)) && (IsOpaque(r) ==> Lower(n.proto) == Lower(r.proto))
            && (IsDeny(n) <==> Lower(r.action) == "deny")
            && (r.port != "" ==> n.port == r.port)
            && (r.port == "" && IsOpaque(r) ==> n.port == if Lower(r.proto) == "ssh" then "22" else "")
  {
    assert Lower("https") == "https" && Lower("allow") == "allow" && Lower("") == "";
  }

  lemma WrittenClaims(rules: seq<Rule>, k: GroupId, deny: bool, p: int)
    ensures Claims(rules, k, deny, p) <==> NormalClaims(rules, k, deny, p)
    ensures OnlySingly(rules, k, deny, p) <==> NormallySingly(rules, k, deny, p)
  {
    hide ClaimedBy, NormalClaim, WrittenSpan, SpanOf, NormalizeRule;
    forall r ensures ClaimedBy(r, k, deny, p) <==> NormalClaim(r, k, deny, p)
             ensures ClaimedBy(r, k, deny, p) ==> WrittenSpan(r) == Some(SpanOf(NormalizeRule(r)))
    {
      WrittenIsNormal(r, k, deny, p);
    }
  }

  /** Per host and opaque protocol, for the rules as written: every denied port stays denied, and
      a port stays allowed exactly when it was allowed and is not denied, a bare one-port clash
      apart. */
  lemma DenyWinsExactly(rules: seq<Rule>, k: GroupId, p: int)
    requires Plain(rules)
    ensures Claims(Canonicalize(rules), k, true, p) <==> Claims(rules, k, true, p)
    ensures Claims(Canonicalize(rules), k, false, p) <==>
            Claims(rules, k, false, p) && (!Claims(rules, k, true, p) || SingleConflict(rules, k, p))
  {
    hide Canonicalize, Plain, Claims, NormalClaims, OnlySingly, NormallySingly;
    DenyWinsNormally(rules, k, p);
    WrittenClaims(rules, k, true, p);
    WrittenClaims(rules, k, false, p);
    WrittenClaims(Canonicalize(rules), k, true, p);
    WrittenClaims(Canonicalize(rules), k, false, p);
  }

  /** In a settled rule the claim is read off its span. */
  lemma SettledClaim(r: Rule, k: GroupId, deny: bool, p: int)
    requires Settled(r)
    ensures ClaimedBy(r, k, deny, p) <==> Member(r, k, deny) && Holds(SpanOf(r), p)
  {
    hide ClaimedBy, NormalizeRule, Member, SpanOf;
    WrittenIsNormal(r, k, deny, p);
  }
}

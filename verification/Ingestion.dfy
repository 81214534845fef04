/** Which of the rules as given are in the canonical form: the first of each, whole if it is not
    opaque, and as the template of its group's spans if it is. */
module Ingestion {
  import opened Text
  import opened Rules
  import opened Canonical

  /** Rules that differ at most in their paths, TLS check and spelling of the action. */
  predicate SameRule(a: Rule, b: Rule) {
    a.dst == b.dst && a.proto == b.proto && a.port == b.port && (Lower(a.action) == "deny" <==> Lower(b.action) == "deny")
  }

  /** The i-th rule normalises to n, and no earlier admissible rule is the same. */
  ghost predicate FirstGiven(rules: seq<Rule>, i: nat, n: Rule) {
    && i < |rules| && NormalizeRule(rules[i]) == n && Admissible(n)
    && forall j :: 0 <= j < i && Admissible(NormalizeRule(rules[j])) ==> !SameRule(NormalizeRule(rules[j]), n)
  }

  /** The same by key, beside keys seen before. */
  ghost predicate FirstOfKey(rules: seq<Rule>, seen: set<string>, i: nat, n: Rule) {
    && i < |rules| && NormalizeRule(rules[i]) == n && Admissible(n) && DedupKey(n) !in seen
    && forall j :: 0 <= j < i && Admissible(NormalizeRule(rules[j])) ==> DedupKey(NormalizeRule(rules[j])) != DedupKey(n)
  }

  lemma FirstLater(rules: seq<Rule>, seen: set<string>, seen': set<string>, i: nat, n: Rule)
    requires rules != [] && seen <= seen' && FirstOfKey(rules[1..], seen', i, n)
    requires Admissible(NormalizeRule(rules[0])) ==> DedupKey(NormalizeRule(rules[0])) in seen'
    ensures FirstOfKey(rules, seen, i + 1, n)
  {
    hide NormalizeRule, Admissible, DedupKey;
    assert rules[i + 1] == rules[1..][i];
    forall j | 0 <= j < i + 1 && Admissible(NormalizeRule(rules[j])) ensures DedupKey(NormalizeRule(rules[j])) != DedupKey(n) {
      if j > 0 {
        assert rules[1..][j - 1] == rules[j];
      }
    }
  }

  lemma FirstEarlier(rules: seq<Rule>, seen: set<string>, i: nat, n: Rule)
    requires rules != [] && FirstOfKey(rules, seen, i, n) && i > 0
    ensures FirstOfKey(rules[1..], seen, i - 1, n)
    ensures Admissible(NormalizeRule(rules[0])) ==> FirstOfKey(rules[1..], seen + {DedupKey(NormalizeRule(rules[0]))}, i - 1, n)
  {
    hide NormalizeRule, Admissible, DedupKey;
    assert rules[1..][i - 1] == rules[i];
    assert forall j :: 0 <= j < i - 1 ==> rules[1..][j] == rules[j + 1];
  }

  lemma {:induction false} IngestExactly(rules: seq<Rule>, seen: set<string>, n: Rule)
    ensures n in Ingest(rules, seen) <==> exists i: nat :: FirstOfKey(rules, seen, i, n)
  {
    hide NormalizeRule, Admissible, DedupKey, FirstOfKey;
    if rules == [] {
      NothingFirst(seen, n);
    } else {
      var h := NormalizeRule(rules[0]);
      var skip := !Admissible(h) || DedupKey(h) in seen;
      var next := if skip then seen else seen + {DedupKey(h)};
      IngestExactly(rules[1..], next, n);
      if i: nat :| FirstOfKey(rules[1..], next, i, n) {
        FirstLater(rules, seen, next, i, n);
      }
      HeadFirst(rules, seen, n);
      if i: nat :| FirstOfKey(rules, seen, i, n) {
        if i > 0 {
          FirstEarlier(rules, seen, i, n);
        }
      }
    }
  }

  lemma NothingFirst(seen: set<string>, n: Rule)
    ensures forall i: nat :: !FirstOfKey([], seen, i, n)
  {
  }

  lemma HeadFirst(rules: seq<Rule>, seen: set<string>, n: Rule)
    requires rules != []
    ensures var h := NormalizeRule(rules[0]); FirstOfKey(rules, seen, 0, n) <==> n == h && Admissible(h) && DedupKey(h) !in seen
  {
    hide NormalizeRule, Admissible, DedupKey;
  }

  lemma KeyIsSame(a: Rule, b: Rule)
    requires PlainProto(a) && PlainProto(b) && Admissible(a) && Admissible(b)
    ensures DedupKey(a) == DedupKey(b) <==> SameRule(a, b)
  {
    if DedupKey(a) == DedupKey(b) {
      DedupKeyInjective(a, b);
    }
    hide ParsePortSpec, NormalizeDomain, Lower;
  }

  lemma FirstByKey(rules: seq<Rule>, i: nat, n: Rule)
    requires Plain(rules)
    ensures FirstOfKey(rules, {}, i, n) <==> FirstGiven(rules, i, n)
  {
    hide NormalizeRule, Admissible, DedupKey, SameRule, PlainProto;
    if i < |rules| && NormalizeRule(rules[i]) == n && Admissible(n) {
      NormalizeKeepsPlain(rules[i]);
      forall j | 0 <= j < i && Admissible(NormalizeRule(rules[j]))
        ensures DedupKey(NormalizeRule(rules[j])) == DedupKey(n) <==> SameRule(NormalizeRule(rules[j]), n)
      {
        NormalizeKeepsPlain(rules[j]);
        KeyIsSame(NormalizeRule(rules[j]), n);
      }
    }
  }

  /** A rule that no port conflict concerns is in the canonical form exactly when it is the
      normal form of a given rule, admissible, and the first of its kind. */
  lemma KeptExactly(rules: seq<Rule>, n: Rule)
    requires Plain(rules) && !Grouped(n)
    ensures n in Canonicalize(rules) <==> exists i: nat :: FirstGiven(rules, i, n)
  {
    hide Resolve, Ingest, FirstOfKey, FirstGiven, Grouped, Ingested;
    IngestShape(rules, {});
    ResolveVerbatim(Ingest(rules, {}));
    IngestExactly(rules, {}, n);
    forall i: nat ensures FirstOfKey(rules, {}, i, n) <==> FirstGiven(rules, i, n) {
      FirstByKey(rules, i, n);
    }
  }

  // ---------------------------------------------------------------- the template of a group

  predicate Joins(r: Rule, k: GroupId, deny: bool) { Admissible(NormalizeRule(r)) && Member(NormalizeRule(r), k, deny) }

  /** The i-th rule is the first given one of its host, opaque protocol and action. */
  ghost predicate FirstJoining(rules: seq<Rule>, i: nat, k: GroupId, deny: bool) {
    i < |rules| && Joins(rules[i], k, deny) && forall j :: 0 <= j < i ==> !Joins(rules[j], k, deny)
  }

  lemma SameKeyJoins(a: Rule, b: Rule, k: GroupId, deny: bool)
    requires PlainProto(a) && PlainProto(b) && Admissible(a) && Admissible(b) && DedupKey(a) == DedupKey(b)
    ensures Member(a, k, deny) <==> Member(b, k, deny)
  {
    KeyIsSame(a, b);
    hide DedupKey, ParsePortSpec, NormalizeDomain, Lower;
  }

  lemma {:induction false} FirstIsTemplate(rules: seq<Rule>, seen: set<string>, k: GroupId, deny: bool) returns (i: nat)
    requires Plain(rules) && Members(k, deny, Ingest(rules, seen)) != []
    requires forall r :: r in rules && Joins(r, k, deny) ==> DedupKey(NormalizeRule(r)) !in seen
    ensures FirstJoining(rules, i, k, deny) && Members(k, deny, Ingest(rules, seen))[0] == NormalizeRule(rules[i])
  {
    hide NormalizeRule, Admissible, DedupKey, Member, PlainProto;
    i := 0;
    var h, tail := NormalizeRule(rules[0]), rules[1..];
    assert rules[0] in rules && forall r :: r in tail ==> r in rules;
    if !Joins(rules[0], k, deny) {
      var next := if !Admissible(h) || DedupKey(h) in seen then seen else seen + {DedupKey(h)};
      NormalizeKeepsPlain(rules[0]);
      forall r | r in tail && Joins(r, k, deny) ensures DedupKey(NormalizeRule(r)) !in next {
        NormalizeKeepsPlain(r);
        if Admissible(h) && DedupKey(h) == DedupKey(NormalizeRule(r)) {
          SameKeyJoins(h, NormalizeRule(r), k, deny);
        }
      }
      MembersAppend(k, deny, [h], Ingest(tail, seen + {DedupKey(h)}));
      i := FirstIsTemplate(tail, next, k, deny);
      FirstMovesOn(rules, i, k, deny);
      i := i + 1;
    }
  }

  lemma FirstMovesOn(rules: seq<Rule>, i: nat, k: GroupId, deny: bool)
    requires rules != [] && !Joins(rules[0], k, deny) && FirstJoining(rules[1..], i, k, deny)
    ensures FirstJoining(rules, i + 1, k, deny)
  {
    hide Joins;
    assert rules[1..][i] == rules[i + 1];
    forall j | 0 <= j < i + 1 ensures !Joins(rules[j], k, deny) {
      if j > 0 {
        assert rules[1..][j - 1] == rules[j];
      }
    }
  }

  /** Every span of a group is the first given rule of its host, protocol and action, with the
      port replaced. */
  lemma TemplateExactly(rules: seq<Rule>, r: Rule)
    requires Plain(rules) && r in Canonicalize(rules) && Grouped(r)
    ensures exists i: nat :: FirstJoining(rules, i, GroupOf(r), IsDeny(r)) && r == NormalizeRule(rules[i]).(port := r.port)
  {
    hide Resolve, Ingest, Grouped, GroupOf, IsDeny, Ingested, MergedSpans, AllowedSpans, FirstJoining, NormalizeRule, PlainProto, Joins, Settled, SpanOf;
    var k, deny, mid := GroupOf(r), IsDeny(r), Ingest(rules, {});
    IngestShape(rules, {});
    ResolveGroup(mid, k);
    EmitShape(k, mid);
    assert r in EmitGroup(k, mid);
    var i := FirstIsTemplate(rules, {}, k, deny);
  }
}

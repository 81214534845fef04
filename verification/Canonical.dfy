/** The canonical form of a rule list: normalised, without duplicates, and with the port
    conflicts of opaque (tcp/ssh/udp) rules resolved so that deny wins. */
module Canonical {
  import opened Text
  import opened Rules
  import opened Spans

  // ---------------------------------------------------------------- ingestion

  predicate Admissible(r: Rule) {
    NormalizeDomain(r.dst) != [] && !ParsePortSpec(r.port).Malformed?
  }

  /** Normalise every rule, drop the inadmissible ones and all but the first of each key. */
  function Ingest(rules: seq<Rule>, seen: set<string>): seq<Rule> {
    if rules == [] then []
    else
      var r := NormalizeRule(rules[0]);
      if !Admissible(r) || DedupKey(r) in seen then Ingest(rules[1..], seen)
      else [r] + Ingest(rules[1..], seen + {DedupKey(r)})
  }

  // ---------------------------------------------------------------- groups

  /** Opaque rules with a port span are resolved per normalised host and protocol. */
  predicate Grouped(r: Rule)
    ensures Grouped(r) ==> ValidSpan(SpanOf(r))
  {
    IsOpaque(r) && ParsePortSpec(r.port).Ports?
  }

  type GroupId = (string, string)

  function GroupOf(r: Rule): GroupId { (NormalizeDomain(r.dst), Lower(r.proto)) }

  predicate InGroup(r: Rule, k: GroupId) { Grouped(r) && GroupOf(r) == k }

  predicate Member(r: Rule, k: GroupId, deny: bool) { InGroup(r, k) && IsDeny(r) == deny }

  function Members(k: GroupId, deny: bool, rules: seq<Rule>): seq<Rule> {
    if rules == [] then []
    else (if Member(rules[0], k, deny) then [rules[0]] else []) + Members(k, deny, rules[1..])
  }

  function Without(k: GroupId, rules: seq<Rule>): (rest: seq<Rule>)
    ensures |rest| <= |rules|
  {
    if rules == [] then []
    else (if InGroup(rules[0], k) then [] else [rules[0]]) + Without(k, rules[1..])
  }

  lemma {:induction false} MembersIn(k: GroupId, deny: bool, rules: seq<Rule>)
    ensures forall r :: r in Members(k, deny, rules) <==> r in rules && Member(r, k, deny)
  {
    hide Member;
    if rules != [] {
      MembersIn(k, deny, rules[1..]);
      assert rules == [rules[0]] + rules[1..];
    }
  }

  lemma {:induction false} WithoutIn(k: GroupId, rules: seq<Rule>)
    ensures forall r :: r in Without(k, rules) <==> r in rules && !InGroup(r, k)
  {
    hide InGroup;
    if rules != [] {
      WithoutIn(k, rules[1..]);
      assert rules == [rules[0]] + rules[1..];
    }
  }

  lemma {:induction false} MembersAppend(k: GroupId, deny: bool, a: seq<Rule>, b: seq<Rule>)
    ensures Members(k, deny, a + b) == Members(k, deny, a) + Members(k, deny, b)
  {
    hide Member;
    if a == [] {
      assert a + b == b;
    } else {
      MembersAppend(k, deny, a[1..], b);
      assert (a + b)[1..] == a[1..] + b;
    }
  }

  lemma {:induction false} MembersWithout(k: GroupId, deny: bool, k': GroupId, rules: seq<Rule>)
    requires k != k'
    ensures Members(k, deny, Without(k', rules)) == Members(k, deny, rules)
  {
    hide Grouped, GroupOf;
    if rules != [] {
      MembersWithout(k, deny, k', rules[1..]);
      var head := if InGroup(rules[0], k') then [] else [rules[0]];
      MembersAppend(k, deny, head, Without(k', rules[1..]));
      MembersAppend(k, deny, [rules[0]], rules[1..]);
      assert rules == [rules[0]] + rules[1..];
    }
  }

  // ---------------------------------------------------------------- resolving one group

  function SpansOf(rules: seq<Rule>): (spans: seq<Span>)
    ensures |spans| == |rules|
    ensures forall i :: 0 <= i < |rules| ==> spans[i] == SpanOf(rules[i])
  {
    seq(|rules|, i requires 0 <= i < |rules| => SpanOf(rules[i]))
  }

  ghost predicate AllValid(spans: seq<Span>) { forall s :: s in spans ==> ValidSpan(s) }

  /** A one-port deny span that meets a one-port allow span is left for loud rejection. */
  predicate SingleClash(s: Span, allow: seq<Span>) { s.lo == s.hi && s in allow }

  function CarveSet(deny: seq<Span>, allow: seq<Span>): seq<Span> {
    if deny == [] then []
    else (if SingleClash(deny[0], allow) then [] else [deny[0]]) + CarveSet(deny[1..], allow)
  }

  lemma {:induction false} CarveSetIn(deny: seq<Span>, allow: seq<Span>)
    ensures forall s :: s in CarveSet(deny, allow) <==> s in deny && !SingleClash(s, allow)
  {
    hide SingleClash;
    if deny != [] {
      CarveSetIn(deny[1..], allow);
      assert deny == [deny[0]] + deny[1..];
    }
  }

  function MergedSpans(k: GroupId, deny: bool, rules: seq<Rule>): (spans: seq<Span>)
    ensures AllValid(spans) && Ascending(spans)
  {
    var input := SpansOf(Members(k, deny, rules));
    MembersIn(k, deny, rules);
    GroupedSpansValid(Members(k, deny, rules));
    MergeMeaning(input);
    ValidFromPorts(Merge(input), input);
    Merge(input)
  }

  function AllowedSpans(k: GroupId, rules: seq<Rule>): (spans: seq<Span>)
    ensures AllValid(spans) && Ascending(spans)
  {
    var deny, allow := MergedSpans(k, true, rules), MergedSpans(k, false, rules);
    CarveSetIn(deny, allow);
    SubtractMeaning(allow, CarveSet(deny, allow));
    ValidFromPorts(Subtract(allow, CarveSet(deny, allow)), allow);
    Subtract(allow, CarveSet(deny, allow))
  }

  lemma GroupedSpansValid(rules: seq<Rule>)
    requires forall r :: r in rules ==> Grouped(r)
    ensures AllValid(SpansOf(rules))
  {
    hide SpanOf;
    forall i | 0 <= i < |rules| ensures ValidSpan(SpansOf(rules)[i]) {
      assert Grouped(rules[i]);
    }
  }

  lemma ValidFromPorts(out: seq<Span>, input: seq<Span>)
    requires AllValid(input) && Proper(out)
    requires forall p :: Covers(out, p) ==> Covers(input, p)
    ensures AllValid(out)
  {
    forall s | s in out ensures ValidSpan(s) {
      assert Holds(s, s.lo) && Holds(s, s.hi);
      assert Covers(out, s.lo) && Covers(out, s.hi);
    }
  }

  function Stamp(templates: seq<Rule>, spans: seq<Span>): (out: seq<Rule>)
    requires AllValid(spans)
    ensures |out| == if templates == [] then 0 else |spans|
    ensures forall i :: 0 <= i < |out| ==> out[i] == templates[0].(port := FormatSpan(spans[i]))
  {
    if templates == [] then []
    else
      seq(|spans|, i requires 0 <= i < |spans| =>
        (assert spans[i] in spans; templates[0].(port := FormatSpan(spans[i]))))
  }

  /** Deny spans first, then what is left of the allow spans, each on its first rule. */
  function EmitGroup(k: GroupId, rules: seq<Rule>): seq<Rule> {
    Stamp(Members(k, true, rules), MergedSpans(k, true, rules))
    + Stamp(Members(k, false, rules), AllowedSpans(k, rules))
  }

  /** Each group is emitted where its first rule stood; other rules pass through. */
  function Resolve(rules: seq<Rule>): seq<Rule>
    decreases |rules|
  {
    if rules == [] then []
    else if !Grouped(rules[0]) then [rules[0]] + Resolve(rules[1..])
    else EmitGroup(GroupOf(rules[0]), rules) + Resolve(Without(GroupOf(rules[0]), rules[1..]))
  }

  /** NormalizeAndDedup. */
  function Canonicalize(rules: seq<Rule>): seq<Rule> {
    Resolve(Ingest(rules, {}))
  }

  // ---------------------------------------------------------------- canonical lists

  predicate Settled(r: Rule) {
    NormalizeRule(r) == r && Admissible(r) && (Grouped(r) ==> r.port == FormatSpan(SpanOf(r)))
  }

  predicate SameGroup(r: Rule, s: Rule) { Grouped(r) && Grouped(s) && GroupOf(r) == GroupOf(s) }

  predicate Apart(s: Span, t: Span) { s.hi < t.lo || t.hi < s.lo }

  /** What a rule r that comes before a rule s in a canonical list owes to it. */
  predicate InOrder(r: Rule, s: Rule) {
    && DedupKey(r) != DedupKey(s)
    && (SameGroup(r, s) ==>
          if IsDeny(r) == IsDeny(s)
          then s == r.(port := s.port) && SpanOf(r).hi < SpanOf(s).lo
          else IsDeny(r) && (Apart(SpanOf(r), SpanOf(s))
                             || (SpanOf(r) == SpanOf(s) && SpanOf(r).lo == SpanOf(r).hi)))
  }

  ghost predicate IsCanonical(rules: seq<Rule>) {
    && (forall i :: 0 <= i < |rules| ==> Settled(rules[i]))
    && (forall i, j :: 0 <= i < j < |rules| ==> InOrder(rules[i], rules[j]))
    && (forall i, j, k :: 0 <= i < j < k < |rules| && SameGroup(rules[i], rules[k])
                          ==> SameGroup(rules[i], rules[j]))
  }

  ghost predicate Plain(rules: seq<Rule>) { forall r :: r in rules ==> PlainProto(r) }

  // ---------------------------------------------------------------- a canonical list is a fixed point

  lemma {:induction false} IngestFixed(rules: seq<Rule>, seen: set<string>)
    requires forall i :: 0 <= i < |rules| ==>
               NormalizeRule(rules[i]) == rules[i] && Admissible(rules[i]) && DedupKey(rules[i]) !in seen
    requires forall i, j :: 0 <= i < j < |rules| ==> DedupKey(rules[i]) != DedupKey(rules[j])
    ensures Ingest(rules, seen) == rules
  {
    hide NormalizeRule, Admissible, DedupKey;
    if rules != [] {
      IngestFixed(rules[1..], seen + {DedupKey(rules[0])});
    }
  }

  lemma {:induction false} MembersAll(k: GroupId, deny: bool, rules: seq<Rule>)
    requires forall r :: r in rules ==> Member(r, k, deny)
    ensures Members(k, deny, rules) == rules
  {
    hide Member;
    if rules != [] {
      MembersAll(k, deny, rules[1..]);
    }
  }

  lemma {:induction false} MembersNone(k: GroupId, deny: bool, rules: seq<Rule>)
    requires forall r :: r in rules ==> !Member(r, k, deny)
    ensures Members(k, deny, rules) == []
  {
    hide Member;
    if rules != [] {
      MembersNone(k, deny, rules[1..]);
    }
  }

  lemma {:induction false} WithoutNone(k: GroupId, rules: seq<Rule>)
    requires forall r :: r in rules ==> !InGroup(r, k)
    ensures Without(k, rules) == rules
  {
    hide InGroup;
    if rules != [] {
      WithoutNone(k, rules[1..]);
    }
  }

  lemma {:induction false} WithoutAppend(k: GroupId, a: seq<Rule>, b: seq<Rule>)
    requires forall r :: r in a ==> InGroup(r, k)
    ensures Without(k, a + b) == Without(k, b)
  {
    hide InGroup;
    if a == [] {
      assert a + b == b;
    } else {
      WithoutAppend(k, a[1..], b);
      assert (a + b)[1..] == a[1..] + b;
    }
  }

  /** The leading rules that satisfy p. */
  function RunLength(rules: seq<Rule>, p: Rule -> bool): (n: nat)
    ensures n <= |rules|
    ensures forall i :: 0 <= i < n ==> p(rules[i])
    ensures n < |rules| ==> !p(rules[n])
  {
    if rules == [] || !p(rules[0]) then 0 else 1 + RunLength(rules[1..], p)
  }

  /** In a canonical list the group of the first rule is its deny rules, then its allow rules,
      then nothing more of that group. */
  lemma CanonicalRun(rules: seq<Rule>) returns (d: nat, m: nat)
    requires IsCanonical(rules) && rules != [] && Grouped(rules[0])
    ensures d <= m <= |rules| && 0 < m
    ensures forall i :: 0 <= i < d ==> Member(rules[i], GroupOf(rules[0]), true)
    ensures forall i :: d <= i < m ==> Member(rules[i], GroupOf(rules[0]), false)
    ensures forall i :: m <= i < |rules| ==> !InGroup(rules[i], GroupOf(rules[0]))
  {
    hide Grouped, GroupOf, IsDeny, DedupKey, Settled, SpanOf;
    var k := GroupOf(rules[0]);
    d := RunLength(rules, r => Member(r, k, true));
    m := RunLength(rules, r => InGroup(r, k));
    forall i | m <= i < |rules| ensures !InGroup(rules[i], k) {
      assert SameGroup(rules[0], rules[i]) ==> i == m || SameGroup(rules[0], rules[m]);
    }
    forall i | d <= i < m ensures !IsDeny(rules[i]) {
      assert d < i ==> InOrder(rules[d], rules[i]);
    }
  }

  lemma StampFixed(rules: seq<Rule>)
    requires forall i :: 0 <= i < |rules| ==> Settled(rules[i]) && Grouped(rules[i])
    requires forall i :: 0 < i < |rules| ==> rules[i] == rules[0].(port := rules[i].port)
    ensures AllValid(SpansOf(rules)) && Stamp(rules, SpansOf(rules)) == rules
  {
    hide Grouped, NormalizeRule, Admissible, SpanOf, FormatSpan;
    forall i | 0 <= i < |rules| ensures Stamp(rules, SpansOf(rules))[i] == rules[i] {
      assert rules[i] == rules[0].(port := FormatSpan(SpanOf(rules[i])));
    }
  }

  /** The spans of a canonical group survive merging and carving unchanged. */
  lemma CanonicalSpans(deny: seq<Span>, allow: seq<Span>)
    requires Ascending(deny) && Ascending(allow)
    requires forall s, t :: s in deny && t in allow ==> Apart(s, t) || (s == t && s.lo == s.hi)
    ensures Merge(deny) == deny && Merge(allow) == allow
    ensures Subtract(allow, CarveSet(deny, allow)) == allow
  {
    hide Merge, Subtract, CarveSet;
    MergeFixed(deny);
    MergeFixed(allow);
    forall p | Covers(allow, p) ensures !Covers(CarveSet(deny, allow), p) {
      NothingToCarve(deny, allow, p);
    }
    CarveSetIn(deny, allow);
    hide Covers;
    SubtractFixed(allow, CarveSet(deny, allow));
  }

  lemma NothingToCarve(deny: seq<Span>, allow: seq<Span>, p: int)
    requires forall s, t :: s in deny && t in allow ==> Apart(s, t) || (s == t && s.lo == s.hi)
    requires Covers(allow, p)
    ensures !Covers(CarveSet(deny, allow), p)
  {
    hide CarveSet;
    CarveSetIn(deny, allow);
    var t :| t in allow && Holds(t, p);
    assert forall s :: s in deny && Holds(s, p) ==> SingleClash(s, allow);
  }

  /** Rules that all come from one group and one action, as a canonical list holds them. */
  ghost predicate Block(rules: seq<Rule>, k: GroupId, deny: bool) {
    && (forall i :: 0 <= i < |rules| ==> Member(rules[i], k, deny) && Settled(rules[i]))
    && (forall i, j :: 0 <= i < j < |rules| ==>
          rules[j] == rules[i].(port := rules[j].port) && SpanOf(rules[i]).hi < SpanOf(rules[j]).lo)
  }

  lemma BlockAscends(rules: seq<Rule>, k: GroupId, deny: bool)
    requires Block(rules, k, deny)
    ensures Ascending(SpansOf(rules)) && AllValid(SpansOf(rules))
    ensures Stamp(rules, SpansOf(rules)) == rules
  {
    hide Grouped, GroupOf, IsDeny, SpanOf, Settled;
    GroupedSpansValid(rules);
    assert forall i :: 0 <= i < |rules| ==> SpansOf(rules)[i] in SpansOf(rules);
    forall i | 0 <= i < |rules| ensures Settled(rules[i]) && Grouped(rules[i]) {
    }
    StampFixed(rules);
  }

  lemma BlockPair(ds: seq<Rule>, as_: seq<Rule>, rest: seq<Rule>, k: GroupId)
    requires Block(ds, k, true) && Block(as_, k, false)
    requires forall r :: r in rest ==> !InGroup(r, k)
    requires forall r, s :: r in ds && s in as_ ==> InOrder(r, s)
    ensures EmitGroup(k, ds + as_ + rest) == ds + as_
  {
    hide Grouped, GroupOf, IsDeny, DedupKey, Settled, SpanOf;
    MembersSplit(ds, as_, rest, k);
    BlockAscends(ds, k, true);
    BlockAscends(as_, k, false);
    var deny, allow := SpansOf(ds), SpansOf(as_);
    forall s, t | s in deny && t in allow ensures Apart(s, t) || (s == t && s.lo == s.hi) {
      var i :| 0 <= i < |ds| && deny[i] == s;
      var j :| 0 <= j < |as_| && allow[j] == t;
      assert InOrder(ds[i], as_[j]);
    }
    CanonicalSpans(deny, allow);
  }

  lemma MembersSplit(ds: seq<Rule>, as_: seq<Rule>, rest: seq<Rule>, k: GroupId)
    requires forall r :: r in ds ==> Member(r, k, true)
    requires forall r :: r in as_ ==> Member(r, k, false)
    requires forall r :: r in rest ==> !InGroup(r, k)
    ensures Members(k, true, ds + as_ + rest) == ds && Members(k, false, ds + as_ + rest) == as_
  {
    hide Grouped, GroupOf, IsDeny;
    MembersAppend(k, true, ds + as_, rest);
    MembersAppend(k, true, ds, as_);
    MembersAppend(k, false, ds + as_, rest);
    MembersAppend(k, false, ds, as_);
    MembersAll(k, true, ds);
    MembersAll(k, false, as_);
    MembersNone(k, true, as_);
    MembersNone(k, true, rest);
    MembersNone(k, false, ds);
    MembersNone(k, false, rest);
  }

  lemma CanonicalBlock(rules: seq<Rule>, a: nat, b: nat, k: GroupId, deny: bool)
    requires IsCanonical(rules) && a <= b <= |rules|
    requires forall i :: a <= i < b ==> Member(rules[i], k, deny)
    ensures Block(rules[a..b], k, deny)
  {
    hide Grouped, GroupOf, IsDeny, DedupKey, Settled, SpanOf;
    var block := rules[a..b];
    forall i | 0 <= i < |block| ensures Member(block[i], k, deny) && Settled(block[i]) {
      assert block[i] == rules[a + i];
    }
    forall i, j | 0 <= i < j < |block|
      ensures block[j] == block[i].(port := block[j].port) && SpanOf(block[i]).hi < SpanOf(block[j]).lo
    {
      assert Member(rules[a + i], k, deny) && Member(rules[a + j], k, deny);
      assert InOrder(rules[a + i], rules[a + j]);
    }
  }

  lemma CanonicalEmit(rules: seq<Rule>, d: nat, m: nat, k: GroupId)
    requires IsCanonical(rules) && d <= m <= |rules|
    requires forall i :: 0 <= i < d ==> Member(rules[i], k, true)
    requires forall i :: d <= i < m ==> Member(rules[i], k, false)
    requires forall i :: m <= i < |rules| ==> !InGroup(rules[i], k)
    ensures EmitGroup(k, rules) == rules[..m]
  {
    hide Member, InGroup, InOrder, Settled, SameGroup, EmitGroup, Block;
    var ds, as_, rest := rules[..d], rules[d..m], rules[m..];
    CanonicalBlock(rules, 0, d, k, true);
    CanonicalBlock(rules, d, m, k, false);
    forall r, s | r in ds && s in as_ ensures InOrder(r, s) {
      var i :| 0 <= i < d && rules[i] == r;
      var j :| d <= j < m && rules[j] == s;
    }
    BlockPair(ds, as_, rest, k);
    assert rules == ds + as_ + rest && rules[..m] == ds + as_;
  }

  lemma CanonicalSlice(rules: seq<Rule>, n: nat)
    requires IsCanonical(rules) && n <= |rules|
    ensures IsCanonical(rules[n..])
  {
    hide InOrder, Settled, SameGroup;
    var tail := rules[n..];
    assert forall i :: 0 <= i < |tail| ==> tail[i] == rules[n + i];
  }

  lemma {:induction false} ResolveFixed(rules: seq<Rule>)
    requires IsCanonical(rules)
    ensures Resolve(rules) == rules
    decreases |rules|
  {
    hide Grouped, GroupOf, EmitGroup, IsCanonical, InGroup;
    if rules != [] {
      if !Grouped(rules[0]) {
        CanonicalSlice(rules, 1);
        ResolveFixed(rules[1..]);
      } else {
        var m := FirstGroupFixed(rules);
        CanonicalSlice(rules, m);
        ResolveFixed(rules[m..]);
      }
    }
  }

  lemma FirstGroupFixed(rules: seq<Rule>) returns (m: nat)
    requires IsCanonical(rules) && rules != [] && Grouped(rules[0])
    ensures 0 < m <= |rules|
    ensures EmitGroup(GroupOf(rules[0]), rules) == rules[..m]
    ensures Without(GroupOf(rules[0]), rules[1..]) == rules[m..]
  {
    hide Grouped, GroupOf, EmitGroup, IsCanonical, IsDeny;
    var k, d := GroupOf(rules[0]), 0;
    d, m := CanonicalRun(rules);
    CanonicalEmit(rules, d, m, k);
    assert rules[1..] == rules[1..m] + rules[m..];
    forall i | 0 <= i < m ensures InGroup(rules[i], k) {
      assert Member(rules[i], k, i < d);
    }
    WithoutAppend(k, rules[1..m], rules[m..]);
    WithoutNone(k, rules[m..]);
  }

  lemma CanonicalIsFixed(rules: seq<Rule>)
    requires IsCanonical(rules)
    ensures Canonicalize(rules) == rules
  {
    hide Grouped, DedupKey, SpanOf, NormalizeRule, Admissible, Resolve;
    forall i, j | 0 <= i < j < |rules| ensures DedupKey(rules[i]) != DedupKey(rules[j]) {
      assert InOrder(rules[i], rules[j]);
    }
    IngestFixed(rules, {});
    ResolveFixed(rules);
  }

  // ---------------------------------------------------------------- the output is canonical

  /** What ingestion hands to the resolver. */
  ghost predicate Ingested(rules: seq<Rule>) {
    && (forall r :: r in rules ==> NormalizeRule(r) == r && Admissible(r) && PlainProto(r))
    && (forall i, j :: 0 <= i < j < |rules| ==> DedupKey(rules[i]) != DedupKey(rules[j]))
  }

  lemma {:induction false} IngestShape(rules: seq<Rule>, seen: set<string>)
    requires Plain(rules)
    ensures Ingested(Ingest(rules, seen))
    ensures forall r :: r in Ingest(rules, seen) ==> DedupKey(r) !in seen
  {
    hide NormalizeRule, Admissible, DedupKey, PlainProto;
    if rules != [] {
      var r := NormalizeRule(rules[0]);
      assert forall q :: q in rules[1..] ==> q in rules;
      assert PlainProto(rules[0]);
      NormalizeRuleIdempotent(rules[0]);
      NormalizeKeepsPlain(rules[0]);
      if !Admissible(r) || DedupKey(r) in seen {
        IngestShape(rules[1..], seen);
      } else {
        IngestShape(rules[1..], seen + {DedupKey(r)});
        IngestedCons(r, Ingest(rules[1..], seen + {DedupKey(r)}), seen);
      }
    }
  }

  lemma IngestedCons(r: Rule, rest: seq<Rule>, seen: set<string>)
    requires Ingested(rest) && NormalizeRule(r) == r && Admissible(r) && PlainProto(r) && DedupKey(r) !in seen
    requires forall s :: s in rest ==> DedupKey(s) !in seen + {DedupKey(r)}
    ensures Ingested([r] + rest)
    ensures forall s :: s in [r] + rest ==> DedupKey(s) !in seen
  {
    hide NormalizeRule, Admissible, DedupKey, PlainProto;
    assert forall j :: 0 <= j < |rest| ==> rest[j] in rest;
  }

  lemma NormalizeKeepsPlain(r: Rule)
    requires PlainProto(r)
    ensures PlainProto(NormalizeRule(r))
  {
  }

  /** A rule with its port replaced by a rendered span: still normalised, same group. */
  lemma StampedRule(t: Rule, sp: Span)
    requires Grouped(t) && ValidSpan(sp) && NormalizeRule(t) == t && Admissible(t) && PlainProto(t)
    ensures var r := t.(port := FormatSpan(sp));
            && Grouped(r) && SpanOf(r) == sp && GroupOf(r) == GroupOf(t) && IsDeny(r) == IsDeny(t)
            && Settled(r) && PlainProto(r)
  {
    FormatParseRoundTrip(sp);
    assert ParsePortSpec("") == Unset;
  }

  lemma EmitShape(k: GroupId, rules: seq<Rule>)
    requires Ingested(rules)
    ensures forall r :: r in EmitGroup(k, rules) ==> InGroup(r, k) && Settled(r) && PlainProto(r)
    ensures var deny := Stamp(Members(k, true, rules), MergedSpans(k, true, rules));
            var allow := Stamp(Members(k, false, rules), AllowedSpans(k, rules));
            Block(deny, k, true) && Block(allow, k, false)
            && SpansOf(deny) == MergedSpans(k, true, rules)
            && SpansOf(allow) == AllowedSpans(k, rules)
  {
    hide Member, Settled, NormalizeRule, Admissible, DedupKey, MergedSpans, AllowedSpans, PlainProto, InGroup, Grouped;
    StampBlock(k, true, rules, MergedSpans(k, true, rules));
    StampBlock(k, false, rules, AllowedSpans(k, rules));
    NoMembersNoSpans(k, true, rules);
    NoMembersNoSpans(k, false, rules);
  }

  lemma NoMembersNoSpans(k: GroupId, deny: bool, rules: seq<Rule>)
    ensures Members(k, deny, rules) == [] ==> MergedSpans(k, deny, rules) == []
    ensures Members(k, false, rules) == [] ==> AllowedSpans(k, rules) == []
  {
    if Members(k, false, rules) == [] {
      assert MergedSpans(k, false, rules) == [];
      var carve := CarveSet(MergedSpans(k, true, rules), []);
      assert CarveAll([], Sort(carve)) == [];
    }
  }

  lemma StampBlock(k: GroupId, deny: bool, rules: seq<Rule>, spans: seq<Span>)
    requires Ingested(rules) && AllValid(spans) && Ascending(spans)
    ensures var out := Stamp(Members(k, deny, rules), spans);
            && Block(out, k, deny)
            && (forall r :: r in out ==> InGroup(r, k) && Settled(r) && PlainProto(r))
            && (Members(k, deny, rules) != [] ==> SpansOf(out) == spans)
  {
    hide Grouped, GroupOf, IsDeny, Settled, NormalizeRule, Admissible, DedupKey, PlainProto, SpanOf;
    var ms := Members(k, deny, rules);
    MembersIn(k, deny, rules);
    if ms != [] {
      assert ms[0] in ms;
      var out := Stamp(ms, spans);
      forall i | 0 <= i < |out|
        ensures Member(out[i], k, deny) && Settled(out[i]) && PlainProto(out[i]) && SpanOf(out[i]) == spans[i]
      {
        assert spans[i] in spans;
        StampedRule(ms[0], spans[i]);
      }
    }
  }

  lemma EmitCanonical(k: GroupId, rules: seq<Rule>)
    requires Ingested(rules)
    ensures IsCanonical(EmitGroup(k, rules))
  {
    hide Ingested, Block, MergedSpans, AllowedSpans, InGroup, Settled, PlainProto, IsCanonical;
    EmitShape(k, rules);
    CarvedApart(k, rules);
    BlocksCanonical(Stamp(Members(k, true, rules), MergedSpans(k, true, rules)),
                    Stamp(Members(k, false, rules), AllowedSpans(k, rules)), k);
  }

  lemma BlocksCanonical(ds: seq<Rule>, as_: seq<Rule>, k: GroupId)
    requires Block(ds, k, true) && Block(as_, k, false)
    requires forall s, t :: s in SpansOf(ds) && t in SpansOf(as_) ==> Apart(s, t) || (s == t && s.lo == s.hi)
    ensures IsCanonical(ds + as_)
  {
    hide Grouped, GroupOf, IsDeny, Settled, SpanOf, InOrder;
    var all := ds + as_;
    forall i | 0 <= i < |all| ensures Settled(all[i]) && InGroup(all[i], k) {
      assert Member(all[i], k, i < |ds|);
    }
    forall i, j | 0 <= i < j < |all| ensures InOrder(all[i], all[j]) {
      if j < |ds| {
        BlockInOrder(ds, k, true, i, j);
      } else if i >= |ds| {
        BlockInOrder(as_, k, false, i - |ds|, j - |ds|);
      } else {
        assert SpansOf(ds)[i] in SpansOf(ds) && SpansOf(as_)[j - |ds|] in SpansOf(as_);
        assert Member(ds[i], k, true) && Member(as_[j - |ds|], k, false);
        CrossInOrder(ds[i], as_[j - |ds|], k);
      }
    }
  }

  lemma CrossInOrder(r: Rule, s: Rule, k: GroupId)
    requires Member(r, k, true) && Member(s, k, false)
    requires Apart(SpanOf(r), SpanOf(s)) || (SpanOf(r) == SpanOf(s) && SpanOf(r).lo == SpanOf(r).hi)
    ensures InOrder(r, s)
  {
    hide Grouped, GroupOf, SpanOf, IsDeny;
    if DedupKey(r) == DedupKey(s) {
      DedupKeyParts(r, s);
    }
  }

  lemma SameFrontKeys(r: Rule, s: Rule)
    requires s == r.(port := s.port) && DedupKey(r) == DedupKey(s)
    ensures r == s
  {
    DedupKeyParts(r, s);
    var front := r.dst + ":" + r.proto + ":";
    assert RuleKey(r) == front + r.port && RuleKey(s) == front + s.port;
    assert RuleKey(r)[|front|..] == r.port && RuleKey(s)[|front|..] == s.port;
  }

  lemma BlockInOrder(rules: seq<Rule>, k: GroupId, deny: bool, i: nat, j: nat)
    requires Block(rules, k, deny) && i < j < |rules|
    ensures InOrder(rules[i], rules[j])
  {
    hide Grouped, GroupOf, IsDeny, Settled, SpanOf, DedupKey;
    assert Member(rules[i], k, deny) && Member(rules[j], k, deny);
    if DedupKey(rules[i]) == DedupKey(rules[j]) {
      SameFrontKeys(rules[i], rules[j]);
    }
  }

  lemma CarvedApart(k: GroupId, rules: seq<Rule>)
    ensures forall s, t :: s in MergedSpans(k, true, rules) && t in AllowedSpans(k, rules)
              ==> Apart(s, t) || (s == t && s.lo == s.hi)
  {
    var deny, allow := MergedSpans(k, true, rules), MergedSpans(k, false, rules);
    hide MergedSpans;
    var carve := CarveSet(deny, allow);
    CarveSetIn(deny, allow);
    SubtractMeaning(allow, carve);
    forall s, t | s in deny && t in AllowedSpans(k, rules)
      ensures Apart(s, t) || (s == t && s.lo == s.hi)
    {
      if !Apart(s, t) {
        var p := if s.lo > t.lo then s.lo else t.lo;
        assert Holds(s, p) && Holds(t, p);
        assert Covers(AllowedSpans(k, rules), p);
        assert s !in carve;
        SingleInside(allow, AllowedSpans(k, rules), t, p);
      }
    }
  }

  /** A span of the carved list that holds a one-port allow span is that span. */
  lemma SingleInside(allow: seq<Span>, out: seq<Span>, t: Span, p: int)
    requires Ascending(allow) && Proper(out) && Span(p, p) in allow && t in out && Holds(t, p)
    requires forall q :: Links(out, q) ==> Links(allow, q)
    ensures t == Span(p, p)
  {
    var i :| 0 <= i < |allow| && allow[i] == Span(p, p);
    assert forall s :: s in allow && Holds(s, p) ==> s == Span(p, p);
    assert t.lo < p ==> Links(out, p - 1);
    assert p < t.hi ==> Links(out, p);
  }

  // ---------------------------------------------------------------- putting the groups together

  lemma {:induction false} EmptyGroup(k: GroupId, rules: seq<Rule>)
    requires forall r :: r in rules ==> !InGroup(r, k)
    ensures EmitGroup(k, rules) == []
  {
    hide Grouped, GroupOf, IsDeny, MergedSpans, AllowedSpans;
    MembersNone(k, true, rules);
    MembersNone(k, false, rules);
  }

  lemma EmitWithout(k: GroupId, k': GroupId, rules: seq<Rule>)
    requires k != k'
    ensures EmitGroup(k, Without(k', rules)) == EmitGroup(k, rules)
  {
    hide Member, InGroup;
    MembersWithout(k, true, k', rules);
    MembersWithout(k, false, k', rules);
  }

  lemma EmitSkipsHead(k: GroupId, rules: seq<Rule>)
    requires rules != [] && !InGroup(rules[0], k)
    ensures EmitGroup(k, rules[1..]) == EmitGroup(k, rules)
  {
    hide Grouped, GroupOf, IsDeny;
    assert Members(k, true, rules) == Members(k, true, rules[1..]);
    assert Members(k, false, rules) == Members(k, false, rules[1..]);
  }

  lemma IngestedRest(rules: seq<Rule>, k: GroupId)
    requires Ingested(rules) && rules != []
    ensures Ingested(rules[1..]) && Ingested(Without(k, rules[1..]))
  {
    hide NormalizeRule, Admissible, PlainProto, DedupKey, InGroup;
    var tail := rules[1..];
    assert forall i :: 0 <= i < |tail| ==> tail[i] == rules[i + 1];
    IngestedWithout(k, tail);
  }

  lemma {:induction false} IngestedWithout(k: GroupId, rules: seq<Rule>)
    requires Ingested(rules)
    ensures Ingested(Without(k, rules))
  {
    hide NormalizeRule, Admissible, PlainProto, DedupKey, InGroup;
    if rules != [] {
      var tail := rules[1..];
      assert forall i :: 0 <= i < |tail| ==> tail[i] == rules[i + 1];
      assert rules == [rules[0]] + tail;
      IngestedWithout(k, tail);
      var rest := Without(k, tail);
      WithoutIn(k, tail);
      forall j | 0 <= j < |rest| ensures DedupKey(rules[0]) != DedupKey(rest[j]) {
        assert rest[j] in rest;
        var i :| 0 <= i < |tail| && tail[i] == rest[j];
        assert rules[i + 1] == rest[j];
      }
      if !InGroup(rules[0], k) {
        assert Without(k, rules) == [rules[0]] + rest;
      }
    }
  }

  /** The rules of one group in the output are exactly what that group emits. */
  lemma {:induction false} ResolveGroup(rules: seq<Rule>, k: GroupId)
    requires Ingested(rules)
    ensures forall r :: r in Resolve(rules) && InGroup(r, k) <==> r in EmitGroup(k, rules)
    decreases |rules|
  {
    hide Ingested, EmitGroup, Settled, PlainProto, Block;
    if rules == [] {
      EmptyGroup(k, rules);
    } else {
      var head, k0 := rules[0], GroupOf(rules[0]);
      IngestedRest(rules, k0);
      EmitShape(k, rules);
      if !Grouped(head) {
        ResolveGroup(rules[1..], k);
        EmitSkipsHead(k, rules);
      } else {
        hide Grouped, GroupOf;
        EmitShape(k0, rules);
        var rest := Without(k0, rules[1..]);
        ResolveGroup(rest, k);
        WithoutIn(k0, rules[1..]);
        if k == k0 {
          EmptyGroup(k, rest);
        } else {
          EmitWithout(k, k0, rules[1..]);
          EmitSkipsHead(k, rules);
        }
      }
    }
  }

  /** Rules outside every group pass through, and every rule of the output is settled. */
  lemma {:induction false} ResolveVerbatim(rules: seq<Rule>)
    requires Ingested(rules)
    ensures forall r :: !Grouped(r) ==> (r in Resolve(rules) <==> r in rules)
    ensures forall r :: r in Resolve(rules) ==> Settled(r) && PlainProto(r)
    decreases |rules|
  {
    hide Ingested, EmitGroup, Settled, PlainProto, Block, Grouped, GroupOf;
    if rules != [] {
      var k := GroupOf(rules[0]);
      IngestedRest(rules, k);
      assert rules == [rules[0]] + rules[1..];
      if !Grouped(rules[0]) {
        IngestedSettled(rules);
        ResolveVerbatim(rules[1..]);
      } else {
        ResolveVerbatim(Without(k, rules[1..]));
        WithoutIn(k, rules[1..]);
        EmitShape(k, rules);
      }
    }
  }

  lemma IngestedSettled(rules: seq<Rule>)
    requires Ingested(rules)
    ensures forall r :: r in rules && !Grouped(r) ==> Settled(r) && PlainProto(r)
  {
    hide Grouped, NormalizeRule, Admissible, PlainProto, DedupKey;
  }

  lemma CanonicalAppend(a: seq<Rule>, b: seq<Rule>)
    requires IsCanonical(a) && IsCanonical(b)
    requires forall r, s :: r in a && s in b ==> DedupKey(r) != DedupKey(s) && !SameGroup(r, s)
    ensures IsCanonical(a + b)
  {
    hide DedupKey, Settled, SameGroup;
    var all := a + b;
    forall i, j | 0 <= i < j < |all| ensures InOrder(all[i], all[j]) {
      if i < |a| && j >= |a| {
        assert all[i] in a && all[j] in b;
      } else {
        assert j < |a| ==> InOrder(a[i], a[j]);
        assert i >= |a| ==> InOrder(b[i - |a|], b[j - |a|]);
      }
    }
    forall i, j, k | 0 <= i < j < k < |all| && SameGroup(all[i], all[k])
      ensures SameGroup(all[i], all[j])
    {
      assert i < |a| ==> all[i] in a;
      assert k >= |a| ==> all[k] in b;
      assert k < |a| ==> all[i] == a[i] && all[j] == a[j] && all[k] == a[k];
      assert i >= |a| ==> all[i] == b[i - |a|] && all[j] == b[j - |a|] && all[k] == b[k - |a|];
    }
  }

  lemma GroupedKeysDiffer(r: Rule, s: Rule)
    requires PlainProto(r) && PlainProto(s) && Admissible(r) && Admissible(s)
    requires Grouped(r) || Grouped(s)
    requires !SameGroup(r, s)
    ensures DedupKey(r) != DedupKey(s)
  {
    hide RuleKey, DedupKey, Lower;
    if DedupKey(r) == DedupKey(s) {
      DedupKeyInjective(r, s);
    }
  }

  lemma {:induction false} ResolveCanonical(rules: seq<Rule>)
    requires Ingested(rules)
    ensures IsCanonical(Resolve(rules))
    decreases |rules|
  {
    hide EmitGroup, Settled, Block, Grouped, GroupOf, IsCanonical, DedupKey, PlainProto, Admissible, NormalizeRule;
    if rules == [] {
      EmptyIsCanonical();
    } else {
      var head, k := rules[0], GroupOf(rules[0]);
      IngestedRest(rules, k);
      if !Grouped(head) {
        ResolveCanonical(rules[1..]);
        HeadCanonical(rules);
      } else {
        var rest := Without(k, rules[1..]);
        ResolveCanonical(rest);
        EmitCanonical(k, rules);
        WithoutIn(k, rules[1..]);
        GroupCanonical(rules, k, rest);
      }
    }
  }

  lemma EmptyIsCanonical()
    ensures IsCanonical([])
  {
  }

  lemma HeadCanonical(rules: seq<Rule>)
    requires Ingested(rules) && rules != [] && !Grouped(rules[0])
    requires IsCanonical(Resolve(rules[1..]))
    ensures IsCanonical([rules[0]] + Resolve(rules[1..]))
  {
    hide Grouped, GroupOf, DedupKey, PlainProto, NormalizeRule, Admissible, Resolve;
    var head, out := rules[0], Resolve(rules[1..]);
    IngestedRest(rules, GroupOf(head));
    ResolveVerbatim(rules[1..]);
    forall s | s in out ensures DedupKey(head) != DedupKey(s) && !SameGroup(head, s) {
      if Grouped(s) {
        GroupedKeysDiffer(head, s);
      } else {
        var i :| 0 <= i < |rules[1..]| && rules[1..][i] == s;
        assert rules[i + 1] == s;
      }
    }
    assert Settled(head);
    CanonicalAppend([head], out);
  }

  lemma GroupCanonical(rules: seq<Rule>, k: GroupId, rest: seq<Rule>)
    requires Ingested(rules) && Ingested(rest)
    requires IsCanonical(EmitGroup(k, rules)) && IsCanonical(Resolve(rest))
    requires forall r :: r in rest ==> !InGroup(r, k)
    ensures IsCanonical(EmitGroup(k, rules) + Resolve(rest))
  {
    hide Grouped, GroupOf, DedupKey, PlainProto, NormalizeRule, Admissible, Resolve, EmitGroup, IsCanonical, Block, Ingested;
    var a, b := EmitGroup(k, rules), Resolve(rest);
    forall r, s | r in a && s in b ensures DedupKey(r) != DedupKey(s) && !SameGroup(r, s) {
      GroupApart(rules, k, rest, r, s);
    }
    CanonicalAppend(a, b);
  }

  lemma GroupApart(rules: seq<Rule>, k: GroupId, rest: seq<Rule>, r: Rule, s: Rule)
    requires Ingested(rules) && Ingested(rest)
    requires forall q :: q in rest ==> !InGroup(q, k)
    requires r in EmitGroup(k, rules) && s in Resolve(rest)
    ensures DedupKey(r) != DedupKey(s) && !SameGroup(r, s)
  {
    hide Grouped, GroupOf, DedupKey, PlainProto, NormalizeRule, Admissible, Resolve, EmitGroup, IsCanonical, Block, Ingested;
    EmitShape(k, rules);
    ResolveVerbatim(rest);
    ResolveGroup(rest, k);
    EmptyGroup(k, rest);
    assert Settled(r) && Settled(s) && InGroup(r, k) && !InGroup(s, k);
    GroupedKeysDiffer(r, s);
  }

  // ---------------------------------------------------------------- main results

  /** Canonicalising always yields a canonical list. */
  lemma CanonicalizeIsCanonical(rules: seq<Rule>)
    requires Plain(rules)
    ensures IsCanonical(Canonicalize(rules))
  {
    IngestShape(rules, {});
    ResolveCanonical(Ingest(rules, {}));
  }

  /** Running NormalizeAndDedup on its own output changes nothing, not even the order. */
  lemma CanonicalizeIdempotent(rules: seq<Rule>)
    requires Plain(rules)
    ensures Canonicalize(Canonicalize(rules)) == Canonicalize(rules)
  {
    hide Canonicalize, IsCanonical;
    CanonicalizeIsCanonical(rules);
    CanonicalIsFixed(Canonicalize(rules));
  }

  /** The fixed points of NormalizeAndDedup are exactly the canonical lists. */
  lemma FixedPointIffCanonical(rules: seq<Rule>)
    requires Plain(rules)
    ensures Canonicalize(rules) == rules <==> IsCanonical(rules)
  {
    hide Canonicalize, IsCanonical;
    CanonicalizeIsCanonical(rules);
    if IsCanonical(rules) {
      CanonicalIsFixed(rules);
    }
  }
}

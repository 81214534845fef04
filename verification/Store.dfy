/** The rule store and its transactions: batch add, rule removal and path-rule removal. */
module Store {
  import opened Text
  import opened Rules
  import opened Canonical

  // ---------------------------------------------------------------- merging one rule

  /** Last position of a path, or |prs|. */
  function LastPath(prs: seq<PathRule>, path: string): (i: nat)
    ensures i <= |prs|
    ensures i < |prs| ==> prs[i].path == path
    ensures forall j :: 0 <= j < |prs| && (i < |prs| ==> i < j) ==> prs[j].path != path
  {
    if prs == [] then 0
    else if prs[|prs| - 1].path == path then |prs| - 1
    else
      var i := LastPath(prs[..|prs| - 1], path);
      if i == |prs| - 1 then |prs| else i
  }

  function PutPath(prs: seq<PathRule>, p: PathRule): seq<PathRule> {
    var i := LastPath(prs, p.path);
    if i < |prs| then prs[i := p] else prs + [p]
  }

  function MergePathRules(existing: seq<PathRule>, incoming: seq<PathRule>): seq<PathRule>
    decreases |incoming|
  {
    if incoming == [] then existing
    else MergePathRules(PutPath(existing, incoming[0]), incoming[1..])
  }

  function MergeRule(existing: Rule, incoming: Rule): Rule {
    existing.(
    action := incoming.action,
    pathDefault := if incoming.pathDefault != "" then incoming.pathDefault else existing.pathDefault,
    pathRules := MergePathRules(existing.pathRules, incoming.pathRules))
  }

  function Lookup(prs: seq<PathRule>, path: string): Option<PathRule> {
    var i := LastPath(prs, path);
    if i < |prs| then Some(prs[i]) else None
  }

  lemma LookupIs(prs: seq<PathRule>, path: string, i: nat)
    requires i < |prs| && prs[i].path == path
    requires forall j :: i < j < |prs| ==> prs[j].path != path
    ensures Lookup(prs, path) == Some(prs[i])
  {
  }

  lemma LookupNone(prs: seq<PathRule>, path: string)
    ensures Lookup(prs, path) == None <==> forall j :: 0 <= j < |prs| ==> prs[j].path != path
  {
  }

  lemma PutPathLookup(prs: seq<PathRule>, p: PathRule, path: string)
    ensures Lookup(PutPath(prs, p), path) == if path == p.path then Some(p) else Lookup(prs, path)
  {
    var out := PutPath(prs, p);
    var i, j := LastPath(prs, path), LastPath(out, path);
    if path == p.path {
      assert out[if i < |prs| then i else |prs|] == p;
    } else {
      assert forall n :: 0 <= n < |prs| ==> (out[n].path == path <==> prs[n].path == path);
    }
  }

  lemma PutPathPosition(prs: seq<PathRule>, p: PathRule, q: string)
    ensures LastPath(PutPath(prs, p), q) ==
            if q == p.path then (if LastPath(prs, q) < |prs| then LastPath(prs, q) else |prs|)
            else if LastPath(prs, q) < |prs| then LastPath(prs, q) else |PutPath(prs, p)|
  {
    var out := PutPath(prs, p);
    assert forall n :: 0 <= n < |prs| ==> out[n].path == prs[n].path;
  }

  lemma {:induction false} LookupCons(head: PathRule, tail: seq<PathRule>, path: string)
    ensures Lookup([head] + tail, path) ==
            if Lookup(tail, path).Some? then Lookup(tail, path)
            else if head.path == path then Some(head) else None
  {
    var all, i := [head] + tail, LastPath(tail, path);
    assert forall n :: 0 < n < |all| ==> all[n] == tail[n - 1];
    LookupNone(tail, path);
    LookupNone(all, path);
    hide LastPath;
    if i < |tail| {
      LookupIs(tail, path, i);
      LookupIs(all, path, i + 1);
    } else if head.path == path {
      LookupIs(all, path, 0);
    }
  }

  /** Path rules are united by path; on a shared path the caller's last entry wins. */
  lemma {:induction false} MergePathRulesLookup(existing: seq<PathRule>, incoming: seq<PathRule>, path: string)
    ensures Lookup(MergePathRules(existing, incoming), path) ==
            if Lookup(incoming, path).Some? then Lookup(incoming, path) else Lookup(existing, path)
    decreases |incoming|
  {
    hide Lookup, PutPath;
    if incoming != [] {
      MergePathRulesLookup(PutPath(existing, incoming[0]), incoming[1..], path);
      PutPathLookup(existing, incoming[0], path);
      LookupCons(incoming[0], incoming[1..], path);
      assert incoming == [incoming[0]] + incoming[1..];
    } else {
      NoLookup(path);
    }
  }

  lemma NoLookup(path: string)
    ensures Lookup([], path) == None
  {
  }

  // ---------------------------------------------------------------- batch add

  datatype AddStatus = Added | Modified | Unchanged

  predicate AnyChange(statuses: seq<AddStatus>) {
    exists s :: s in statuses && s != Unchanged
  }

  /** Last rule stored under a key, or |rules|. */
  function LastKey(rules: seq<Rule>, key: string): (i: nat)
    ensures i <= |rules|
    ensures i < |rules| ==> RuleKey(rules[i]) == key
    ensures forall j :: 0 <= j < |rules| && (i < |rules| ==> i < j) ==> RuleKey(rules[j]) != key
  {
    if rules == [] then 0
    else if RuleKey(rules[|rules| - 1]) == key then |rules| - 1
    else
      var i := LastKey(rules[..|rules| - 1], key);
      if i == |rules| - 1 then |rules| else i
  }

  lemma MergeRuleKey(existing: Rule, incoming: Rule)
    ensures RuleKey(MergeRule(existing, incoming)) == RuleKey(existing)
  {
    hide MergePathRules;
  }

  lemma KeysKept(rules: seq<Rule>, j: nat, r: Rule)
    requires j < |rules| && RuleKey(r) == RuleKey(rules[j])
    ensures forall k :: LastKey(rules[j := r], k) == LastKey(rules, k)
  {
    hide RuleKey;
    var out := rules[j := r];
    assert forall n :: 0 <= n < |rules| ==> RuleKey(out[n]) == RuleKey(rules[n]);
  }

  lemma KeyAppended(rules: seq<Rule>, r: Rule)
    ensures forall k :: LastKey(rules + [r], k) ==
                        if k == RuleKey(r) then |rules|
                        else if LastKey(rules, k) < |rules| then LastKey(rules, k) else |rules| + 1
  {
    hide RuleKey;
    assert (rules + [r])[..|rules|] == rules;
  }

  datatype Batch = Batch(rules: seq<Rule>, statuses: seq<AddStatus>)

  function MergeOne(b: Batch, r: Rule): Batch {
    var j := LastKey(b.rules, RuleKey(r));
    if j == |b.rules| then Batch(b.rules + [r], b.statuses + [Added])
    else
      var merged := MergeRule(b.rules[j], r);
      if merged == b.rules[j] then Batch(b.rules, b.statuses + [Unchanged])
      else Batch(b.rules[j := merged], b.statuses + [Modified])
  }

  function MergeBatch(existing: seq<Rule>, incoming: seq<Rule>): (b: Batch)
    ensures |b.statuses| == |incoming|
  {
    if incoming == [] then Batch(existing, [])
    else MergeOne(MergeBatch(existing, incoming[..|incoming| - 1]), incoming[|incoming| - 1])
  }

  function NormalizeAll(rules: seq<Rule>): (out: seq<Rule>)
    ensures |out| == |rules|
    ensures forall i :: 0 <= i < |rules| ==> out[i] == NormalizeRule(rules[i])
  {
    seq(|rules|, i requires 0 <= i < |rules| => NormalizeRule(rules[i]))
  }

  function AllUnchanged(n: nat): (s: seq<AddStatus>)
    ensures |s| == n && !AnyChange(s)
  {
    seq(n, _ => Unchanged)
  }

  datatype AddResult = AddResult(statuses: seq<AddStatus>, stored: seq<Rule>, written: bool)

  /** What addRulesToStore does to the stored rules. */
  function AddRules(stored: seq<Rule>, incoming: seq<Rule>): AddResult {
    var before := Canonicalize(stored);
    var batch := MergeBatch(before, NormalizeAll(incoming));
    var after := Canonicalize(batch.rules);
    if multiset(before) == multiset(after) then AddResult(AllUnchanged(|incoming|), stored, false)
    else AddResult(batch.statuses, after, true)
  }

  lemma {:induction false} UnchangedBatch(existing: seq<Rule>, incoming: seq<Rule>)
    requires !AnyChange(MergeBatch(existing, incoming).statuses)
    ensures MergeBatch(existing, incoming).rules == existing
  {
    hide LastKey, MergeRule;
    if incoming != [] {
      var rest := MergeBatch(existing, incoming[..|incoming| - 1]);
      var all := MergeBatch(existing, incoming);
      assert forall s :: s in rest.statuses ==> s in all.statuses;
      assert all.statuses[|all.statuses| - 1] in all.statuses;
      UnchangedBatch(existing, incoming[..|incoming| - 1]);
    }
  }

  lemma {:induction false} BatchPlain(existing: seq<Rule>, incoming: seq<Rule>)
    requires Plain(existing) && Plain(incoming)
    ensures Plain(MergeBatch(existing, incoming).rules)
  {
    hide LastKey, PlainProto, MergePathRules;
    if incoming != [] {
      var front, last := incoming[..|incoming| - 1], incoming[|incoming| - 1];
      assert PlainProto(last);
      BatchPlain(existing, front);
      MergeOnePlain(MergeBatch(existing, front), last);
    }
  }

  lemma MergeOnePlain(b: Batch, r: Rule)
    requires Plain(b.rules) && PlainProto(r)
    ensures Plain(MergeOne(b, r).rules)
  {
    hide RuleKey, MergePathRules;
    forall q | q in MergeOne(b, r).rules ensures PlainProto(q) {
      var i :| 0 <= i < |MergeOne(b, r).rules| && MergeOne(b, r).rules[i] == q;
      assert i < |b.rules| ==> PlainProto(b.rules[i]);
    }
  }

  lemma NormalizeAllPlain(rules: seq<Rule>)
    requires Plain(rules)
    ensures Plain(NormalizeAll(rules))
  {
    hide NormalizeRule, PlainProto;
    forall i | 0 <= i < |rules| ensures PlainProto(NormalizeAll(rules)[i]) {
      assert PlainProto(rules[i]);
      NormalizeKeepsPlain(rules[i]);
    }
  }

  lemma {:induction false} CanonicalizePlain(rules: seq<Rule>)
    requires Plain(rules)
    ensures Plain(Canonicalize(rules))
  {
    hide Ingested, PlainProto, Settled, Resolve;
    IngestShape(rules, {});
    ResolveVerbatim(Ingest(rules, {}));
  }

  lemma AddKeepsPlain(stored: seq<Rule>, incoming: seq<Rule>)
    requires Plain(stored) && Plain(incoming)
    ensures Plain(MergeBatch(Canonicalize(stored), NormalizeAll(incoming)).rules)
    ensures Plain(AddRules(stored, incoming).stored)
  {
    hide PlainProto, Canonicalize, MergeBatch;
    CanonicalizePlain(stored);
    NormalizeAllPlain(incoming);
    BatchPlain(Canonicalize(stored), NormalizeAll(incoming));
    CanonicalizePlain(MergeBatch(Canonicalize(stored), NormalizeAll(incoming)).rules);
  }

  /** Some status reports a change exactly when the canonical rule set, which is what every
      reader sees, did change; and the store is written exactly then, with a canonical list. */
  lemma ChangeGate(stored: seq<Rule>, incoming: seq<Rule>)
    requires Plain(stored) && Plain(incoming)
    ensures var r := AddRules(stored, incoming);
            && |r.statuses| == |incoming|
            && (r.written <==> AnyChange(r.statuses))
            && (r.written <==> multiset(Canonicalize(r.stored)) != multiset(Canonicalize(stored)))
            && (r.written ==> IsCanonical(r.stored))
            && (!r.written ==> r.stored == stored)
  {
    hide PlainProto, IsCanonical, Canonicalize, AnyChange;
    var before := Canonicalize(stored);
    var batch := MergeBatch(before, NormalizeAll(incoming));
    AddKeepsPlain(stored, incoming);
    CanonicalizeIdempotent(stored);
    CanonicalizeIdempotent(batch.rules);
    CanonicalizeIsCanonical(batch.rules);
    if !AnyChange(batch.statuses) {
      UnchangedBatch(before, NormalizeAll(incoming));
    }
  }

  // ---------------------------------------------------------------- comparing rule sets

  ghost predicate KeySorted(rules: seq<Rule>) {
    forall i, j :: 0 <= i < j < |rules| ==> Less(DedupKey(rules[i]), DedupKey(rules[j]))
  }

  ghost predicate DistinctKeys(rules: seq<Rule>) {
    forall i, j :: 0 <= i < j < |rules| ==> DedupKey(rules[i]) != DedupKey(rules[j])
  }

  lemma {:induction false} KeySortedUnique(a: seq<Rule>, b: seq<Rule>)
    requires KeySorted(a) && KeySorted(b) && multiset(a) == multiset(b)
    ensures a == b
  {
    hide DedupKey, Less;
    if a == [] || b == [] {
      assert |multiset(a)| == |a| && |multiset(b)| == |b|;
    } else {
      assert a[0] in multiset(a) && b[0] in multiset(b);
      var i :| 0 <= i < |b| && b[i] == a[0];
      var j :| 0 <= j < |a| && a[j] == b[0];
      LessTotal(DedupKey(a[0]), DedupKey(b[0]));
      assert i == 0;
      DropHead(a);
      DropHead(b);
      KeySortedUnique(a[1..], b[1..]);
    }
  }

  lemma DropHead(a: seq<Rule>)
    requires a != []
    ensures multiset(a[1..]) == multiset(a) - multiset{a[0]}
  {
    assert a == [a[0]] + a[1..];
  }

  /** Insertion into a key-sorted list; stands for one step of sort.Slice. */
  method InsertByKey(sorted: seq<Rule>, r: Rule) returns (out: seq<Rule>)
    requires KeySorted(sorted)
    requires forall s :: s in sorted ==> DedupKey(s) != DedupKey(r)
    ensures KeySorted(out) && multiset(out) == multiset(sorted) + multiset{r}
  {
    hide DedupKey, Less;
    var i := 0;
    while i < |sorted| && Less(DedupKey(sorted[i]), DedupKey(r))
      invariant 0 <= i <= |sorted|
      invariant forall j :: 0 <= j < i ==> Less(DedupKey(sorted[j]), DedupKey(r))
    {
      i := i + 1;
    }
    forall j | i <= j < |sorted| ensures Less(DedupKey(r), DedupKey(sorted[j])) {
      LessTotal(DedupKey(r), DedupKey(sorted[i]));
      if i < j {
        LessTransitive(DedupKey(r), DedupKey(sorted[i]), DedupKey(sorted[j]));
      }
    }
    out := sorted[..i] + [r] + sorted[i..];
    assert sorted == sorted[..i] + sorted[i..];
  }

  method SortByKey(rules: seq<Rule>) returns (out: seq<Rule>)
    requires DistinctKeys(rules)
    ensures KeySorted(out) && multiset(out) == multiset(rules)
  {
    hide DedupKey, Less;
    out := [];
    for i := 0 to |rules|
      invariant KeySorted(out) && multiset(out) == multiset(rules[..i])
    {
      assert rules[..i + 1] == rules[..i] + [rules[i]];
      forall s | s in out ensures DedupKey(s) != DedupKey(rules[i]) {
        assert s in multiset(rules[..i]);
        var j :| 0 <= j < i && rules[j] == s;
      }
      out := InsertByKey(out, rules[i]);
    }
    assert rules[..|rules|] == rules;
  }

  /** Order-independent comparison of two canonical lists. */
  method RulesCanonicalEqual(a: seq<Rule>, b: seq<Rule>) returns (eq: bool)
    requires DistinctKeys(a) && DistinctKeys(b)
    ensures eq <==> multiset(a) == multiset(b)
  {
    if |a| != |b| {
      assert |multiset(a)| == |a| && |multiset(b)| == |b|;
      return false;
    }
    var as_ := SortByKey(a);
    var bs := SortByKey(b);
    if multiset(a) == multiset(b) {
      KeySortedUnique(as_, bs);
    }
    return as_ == bs;
  }
}

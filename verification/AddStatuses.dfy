/** The status an add reports for each rule. */
module AddStatuses {
  import opened Text
  import opened Rules
  import opened Canonical
  import opened Store
  import opened Adding

  /** Merging n would change something of cur. */
  ghost predicate Differs(cur: Rule, n: Rule) {
    || n.action != cur.action || (n.pathDefault != "" && n.pathDefault != cur.pathDefault)
    || exists path :: Lookup(n.pathRules, path).Some? && Lookup(cur.pathRules, path) != Lookup(n.pathRules, path)
  }

  /** cur is under the key after the given rules: their outcome, or the old rule. */
  ghost predicate Stands(cur: Rule, before: seq<Rule>, given: seq<Rule>, key: string) {
    if GivesKey(given, key) then Outcome(cur, Was(before, key), given, key) else Was(before, key) == Some(cur)
  }

  lemma PathPresent(prs: seq<PathRule>, p: PathRule)
    requires p in prs
    ensures Lookup(prs, p.path).Some?
  {
    var i :| 0 <= i < |prs| && prs[i] == p;
    hide LastPath;
  }

  /** What merging leaves at each old position. */
  lemma {:induction false} MergedAt(existing: seq<PathRule>, incoming: seq<PathRule>, i: nat)
    requires i < |existing|
    ensures i < |MergePathRules(existing, incoming)|
    ensures MergePathRules(existing, incoming)[i] ==
            if i == LastPath(existing, existing[i].path) && Lookup(incoming, existing[i].path).Some?
            then Lookup(incoming, existing[i].path).value else existing[i]
    decreases |incoming|
  {
    if incoming == [] {
      NoLookup(existing[i].path);
    } else {
      var put := PutPath(existing, incoming[0]);
      PutAt(existing, incoming[0], i);
      hide LastPath, PutPath, Lookup;
      MergedAt(put, incoming[1..], i);
      LookupCons(incoming[0], incoming[1..], existing[i].path);
      assert incoming == [incoming[0]] + incoming[1..];
      LookupPath(incoming[1..], existing[i].path);
    }
  }

  lemma LookupPath(prs: seq<PathRule>, path: string)
    ensures Lookup(prs, path).Some? ==> Lookup(prs, path).value.path == path
  {
    hide LastPath;
  }

  lemma PutAt(prs: seq<PathRule>, p: PathRule, i: nat)
    requires i < |prs|
    ensures var put := PutPath(prs, p);
            && i < |put| && put[i].path == prs[i].path
            && put[i] == (if i == LastPath(prs, prs[i].path) && p.path == prs[i].path then p else prs[i])
            && (i == LastPath(put, put[i].path) <==> i == LastPath(prs, prs[i].path))
  {
    PutPathPosition(prs, p, prs[i].path);
    hide LastPath;
  }

  lemma {:induction false} MergedLength(existing: seq<PathRule>, incoming: seq<PathRule>)
    requires forall p :: p in incoming ==> Lookup(existing, p.path).Some?
    ensures |MergePathRules(existing, incoming)| == |existing|
    decreases |incoming|
  {
    hide Lookup;
    if incoming != [] {
      var put := PutPath(existing, incoming[0]);
      assert incoming[0] in incoming;
      PutLength(existing, incoming[0]);
      forall p | p in incoming[1..] ensures Lookup(put, p.path).Some? {
        PutPathLookup(existing, incoming[0], p.path);
      }
      MergedLength(put, incoming[1..]);
    }
  }

  lemma PutLength(prs: seq<PathRule>, p: PathRule)
    requires Lookup(prs, p.path).Some?
    ensures |PutPath(prs, p)| == |prs|
  {
    hide LastPath;
  }

  lemma SamePaths(existing: seq<PathRule>, incoming: seq<PathRule>)
    ensures MergePathRules(existing, incoming) == existing <==>
            forall path :: Lookup(incoming, path).Some? ==> Lookup(existing, path) == Lookup(incoming, path)
  {
    hide MergePathRules, LastPath;
    if MergePathRules(existing, incoming) == existing {
      forall path ensures Lookup(incoming, path).Some? ==> Lookup(existing, path) == Lookup(incoming, path) {
        MergePathRulesLookup(existing, incoming, path);
      }
    }
    if forall path :: Lookup(incoming, path).Some? ==> Lookup(existing, path) == Lookup(incoming, path) {
      forall p | p in incoming ensures Lookup(existing, p.path).Some? {
        PathPresent(incoming, p);
      }
      MergedLength(existing, incoming);
      forall i | 0 <= i < |existing| ensures MergePathRules(existing, incoming)[i] == existing[i] {
        MergedAt(existing, incoming, i);
      }
    }
  }

  lemma DiffersIff(cur: Rule, n: Rule)
    ensures MergeRule(cur, n) != cur <==> Differs(cur, n)
  {
    hide MergePathRules, Lookup;
    SamePaths(cur.pathRules, n.pathRules);
  }

  lemma {:induction false} StatusPrefix(before: seq<Rule>, given: seq<Rule>, i: nat)
    requires i < |given|
    ensures MergeBatch(before, given).statuses[i] == MergeBatch(before, given[..i + 1]).statuses[i]
    decreases |given|
  {
    hide LastKey, RuleKey, MergeRule;
    if i + 1 < |given| {
      var front := given[..|given| - 1];
      StatusPrefix(before, front, i);
      assert front[..i + 1] == given[..i + 1];
    } else {
      assert given[..i + 1] == given;
    }
  }

  lemma StatusOne(before: seq<Rule>, front: seq<Rule>, n: Rule)
    ensures var key, status := RuleKey(n), MergeBatch(before, front + [n]).statuses[|front|];
            && (status == Added <==> Was(before, key) == None && !GivesKey(front, key))
            && (status != Added ==> exists cur :: Stands(cur, before, front, key) && (status == Modified <==> Differs(cur, n)))
  {
    hide MergeRule, RuleKey, LastKey, OldKept, NewApart, Outcomes, Outcome, GivesKey, Differs;
    var key, b := RuleKey(n), MergeBatch(before, front);
    BatchSays(before, front);
    assert (front + [n])[..|front|] == front;
    assert MergeBatch(before, front + [n]) == MergeOne(b, n);
    var j := LastKey(b.rules, key);
    if j == |b.rules| {
      AbsentBefore(before, front, b.rules, key);
    } else {
      MergeTarget(before, front, b.rules, key);
      DiffersIff(b.rules[j], n);
      assert Stands(b.rules[j], before, front, key);
    }
  }

  /** When the store is written, a rule is reported as added exactly when nothing was under its
      key, and otherwise as modified exactly when it differs from what was there by then. */
  lemma StatusMeans(stored: seq<Rule>, incoming: seq<Rule>, i: nat)
    requires i < |incoming| && AddRules(stored, incoming).written
    ensures var before, given, status := Canonicalize(stored), NormalizeAll(incoming), AddRules(stored, incoming).statuses[i];
            var key := RuleKey(given[i]);
            && (status == Added <==> Was(before, key) == None && !GivesKey(given[..i], key))
            && (status != Added ==> exists cur :: Stands(cur, before, given[..i], key) && (status == Modified <==> Differs(cur, given[i])))
  {
    hide Canonicalize, MergeBatch, NormalizeRule, RuleKey, Was, GivesKey, Stands, Differs;
    var before, given := Canonicalize(stored), NormalizeAll(incoming);
    StatusPrefix(before, given, i);
    assert given[..i + 1] == given[..i] + [given[i]];
    StatusOne(before, given[..i], given[i]);
  }
}

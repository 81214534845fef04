/** What adding rules does to the rules everyone reads, told from the rules that were there and
    those that were given. */
module Adding {
  import opened Text
  import opened Rules
  import opened Canonical
  import opened Ingestion
  import opened Store

  // ---------------------------------------------------------------- what a batch says about a key

  /** The last given action under a key. */
  function ActionGiven(given: seq<Rule>, key: string): Option<string> {
    if given == [] then None
    else if RuleKey(given[|given| - 1]) == key then Some(given[|given| - 1].action)
    else ActionGiven(given[..|given| - 1], key)
  }

  /** The last path default given under a key, "" if there is none. */
  function DefaultGiven(given: seq<Rule>, key: string): string {
    if given == [] then ""
    else
      var r := given[|given| - 1];
      if RuleKey(r) == key && r.pathDefault != "" then r.pathDefault else DefaultGiven(given[..|given| - 1], key)
  }

  /** The last path rule given for a path under a key. */
  function PathGiven(given: seq<Rule>, key: string, path: string): Option<PathRule> {
    if given == [] then None
    else
      var r := given[|given| - 1];
      if RuleKey(r) == key && Lookup(r.pathRules, path).Some? then Lookup(r.pathRules, path)
      else PathGiven(given[..|given| - 1], key, path)
  }

  /** r is what the given rules make of the rule that was under the key, if there was one: the
      given action, the given path default or the old one, and path by path the given entry or
      the old one. */
  ghost predicate Outcome(r: Rule, was: Option<Rule>, given: seq<Rule>, key: string) {
    && RuleKey(r) == key && ActionGiven(given, key) == Some(r.action)
    && r.pathDefault == (if DefaultGiven(given, key) != "" then DefaultGiven(given, key) else if was.Some? then was.value.pathDefault else "")
    && (forall path :: Lookup(r.pathRules, path) ==
          if PathGiven(given, key, path).Some? then PathGiven(given, key, path)
          else if was.Some? then Lookup(was.value.pathRules, path) else None)
  }

  /** The rule a batch is merged into: the last one stored under the key. */
  function Was(before: seq<Rule>, key: string): Option<Rule> {
    var i := LastKey(before, key);
    if i < |before| then Some(before[i]) else None
  }

  predicate GivesKey(given: seq<Rule>, key: string) { exists r :: r in given && RuleKey(r) == key }

  // ---------------------------------------------------------------- the batch, position by position

  /** Old rules keep their place and their key, and all but those merged into stay as they are. */
  ghost predicate OldKept(before: seq<Rule>, given: seq<Rule>, rules: seq<Rule>) {
    && |before| <= |rules|
    && (forall i :: 0 <= i < |before| ==> RuleKey(rules[i]) == RuleKey(before[i]))
    && (forall i :: 0 <= i < |before| && !(GivesKey(given, RuleKey(before[i])) && i == LastKey(before, RuleKey(before[i]))) ==> rules[i] == before[i])
  }

  /** New rules are under given keys that were not there, one each. */
  ghost predicate NewApart(before: seq<Rule>, given: seq<Rule>, rules: seq<Rule>) {
    && |before| <= |rules|
    && (forall i :: |before| <= i < |rules| ==> GivesKey(given, RuleKey(rules[i])))
    && (forall i, j :: 0 <= i < j < |rules| && |before| <= j ==> RuleKey(rules[i]) != RuleKey(rules[j]))
  }

  ghost predicate Outcomes(before: seq<Rule>, given: seq<Rule>, rules: seq<Rule>) {
    forall key :: GivesKey(given, key) ==>
      LastKey(rules, key) < |rules| && Outcome(rules[LastKey(rules, key)], Was(before, key), given, key)
  }

  lemma GivesMore(given: seq<Rule>, r: Rule, key: string)
    ensures GivesKey(given + [r], key) <==> GivesKey(given, key) || RuleKey(r) == key
  {
    hide RuleKey;
    assert r in given + [r];
  }

  lemma GivenMore(given: seq<Rule>, r: Rule, key: string, path: string)
    ensures RuleKey(r) != key ==>
              ActionGiven(given + [r], key) == ActionGiven(given, key) && DefaultGiven(given + [r], key) == DefaultGiven(given, key)
              && PathGiven(given + [r], key, path) == PathGiven(given, key, path)
    ensures RuleKey(r) == key ==>
              && ActionGiven(given + [r], key) == Some(r.action)
              && DefaultGiven(given + [r], key) == (if r.pathDefault != "" then r.pathDefault else DefaultGiven(given, key))
              && PathGiven(given + [r], key, path) == (if Lookup(r.pathRules, path).Some? then Lookup(r.pathRules, path) else PathGiven(given, key, path))
  {
    hide RuleKey, Lookup;
    assert (given + [r])[..|given|] == given;
  }

  lemma {:induction false} NothingGiven(given: seq<Rule>, key: string, path: string)
    requires !GivesKey(given, key)
    ensures ActionGiven(given, key) == None && DefaultGiven(given, key) == "" && PathGiven(given, key, path) == None
    decreases |given|
  {
    hide RuleKey, Lookup;
    if given != [] {
      assert given[|given| - 1] in given && forall r :: r in given[..|given| - 1] ==> r in given;
      NothingGiven(given[..|given| - 1], key, path);
    }
  }

  /** A rule that is new under its key is its own outcome. */
  lemma NewOutcome(given: seq<Rule>, r: Rule)
    requires !GivesKey(given, RuleKey(r))
    ensures Outcome(r, None, given + [r], RuleKey(r))
  {
    hide RuleKey, Lookup, GivesKey, ActionGiven, DefaultGiven, PathGiven;
    NothingGiven(given, RuleKey(r), "");
    GivenMore(given, r, RuleKey(r), "");
    forall path ensures Lookup(r.pathRules, path) == PathGiven(given + [r], RuleKey(r), path) {
      NothingGiven(given, RuleKey(r), path);
      GivenMore(given, r, RuleKey(r), path);
    }
  }

  /** Merging one more rule of the key into the outcome so far, or into the old rule. */
  lemma MergedOutcome(cur: Rule, was: Option<Rule>, given: seq<Rule>, r: Rule)
    requires RuleKey(cur) == RuleKey(r)
    requires if GivesKey(given, RuleKey(r)) then Outcome(cur, was, given, RuleKey(r)) else was == Some(cur)
    ensures Outcome(MergeRule(cur, r), was, given + [r], RuleKey(r))
  {
    hide Lookup, GivesKey, ActionGiven, DefaultGiven, PathGiven, MergePathRules;
    var key := RuleKey(r);
    if !GivesKey(given, key) {
      NothingGiven(given, key, "");
    }
    GivenMore(given, r, key, "");
    forall path ensures Lookup(MergeRule(cur, r).pathRules, path) ==
          if PathGiven(given + [r], key, path).Some? then PathGiven(given + [r], key, path)
          else if was.Some? then Lookup(was.value.pathRules, path) else None
    {
      MergePathRulesLookup(cur.pathRules, r.pathRules, path);
      GivenMore(given, r, key, path);
      if !GivesKey(given, key) {
        NothingGiven(given, key, path);
      }
    }
    assert RuleKey(MergeRule(cur, r)) == key;
  }

  lemma OutcomeOther(r: Rule, was: Option<Rule>, given: seq<Rule>, more: Rule, key: string)
    requires RuleKey(more) != key && Outcome(r, was, given, key)
    ensures Outcome(r, was, given + [more], key)
  {
    hide Lookup, RuleKey, ActionGiven, DefaultGiven, PathGiven;
    GivenMore(given, more, key, "");
    forall path ensures PathGiven(given + [more], key, path) == PathGiven(given, key, path) {
      GivenMore(given, more, key, path);
    }
  }

  /** A key that was there is found where it was. */
  lemma LastStays(before: seq<Rule>, given: seq<Rule>, rules: seq<Rule>, key: string)
    requires OldKept(before, given, rules) && NewApart(before, given, rules) && LastKey(before, key) < |before|
    ensures LastKey(rules, key) == LastKey(before, key)
  {
    hide RuleKey, LastKey, GivesKey;
    var i := LastKey(before, key);
    assert RuleKey(rules[i]) == key;
    forall j | i < j < |rules| ensures RuleKey(rules[j]) != key {
    }
    assert LastKey(rules, key) == i;
  }

  lemma AbsentBefore(before: seq<Rule>, given: seq<Rule>, rules: seq<Rule>, key: string)
    requires OldKept(before, given, rules) && NewApart(before, given, rules) && Outcomes(before, given, rules)
    requires LastKey(rules, key) == |rules|
    ensures !GivesKey(given, key) && Was(before, key) == None
  {
    hide RuleKey, LastKey, GivesKey, Outcome, OldKept, NewApart;
    if LastKey(before, key) < |before| {
      LastStays(before, given, rules, key);
      OldFits(before, given, rules);
    }
  }

  lemma OldFits(before: seq<Rule>, given: seq<Rule>, rules: seq<Rule>)
    requires OldKept(before, given, rules)
    ensures |before| <= |rules|
  {
    hide RuleKey, LastKey, GivesKey;
  }

  lemma AppendPlaces(before: seq<Rule>, given: seq<Rule>, rules: seq<Rule>, r: Rule)
    requires OldKept(before, given, rules) && NewApart(before, given, rules) && LastKey(rules, RuleKey(r)) == |rules|
    ensures OldKept(before, given + [r], rules + [r]) && NewApart(before, given + [r], rules + [r])
  {
    hide RuleKey, LastKey, GivesKey;
    forall k ensures GivesKey(given + [r], k) <==> GivesKey(given, k) || RuleKey(r) == k {
      GivesMore(given, r, k);
    }
    assert forall j :: 0 <= j < |rules| ==> RuleKey(rules[j]) != RuleKey(r);
  }

  lemma AppendStep(before: seq<Rule>, given: seq<Rule>, rules: seq<Rule>, r: Rule)
    requires OldKept(before, given, rules) && NewApart(before, given, rules) && Outcomes(before, given, rules)
    requires LastKey(rules, RuleKey(r)) == |rules|
    ensures OldKept(before, given + [r], rules + [r]) && NewApart(before, given + [r], rules + [r]) && Outcomes(before, given + [r], rules + [r])
  {
    AppendPlaces(before, given, rules, r);
    AbsentBefore(before, given, rules, RuleKey(r));
    KeyAppended(rules, r);
    hide RuleKey, LastKey, GivesKey, Outcome, OldKept, NewApart, Was;
    var key, all := RuleKey(r), rules + [r];
    forall k | GivesKey(given + [r], k) ensures LastKey(all, k) < |all| && Outcome(all[LastKey(all, k)], Was(before, k), given + [r], k) {
      GivesMore(given, r, k);
      if k == key {
        NewOutcome(given, r);
      } else {
        OutcomeOther(rules[LastKey(rules, k)], Was(before, k), given, r, k);
      }
    }
  }

  lemma MergePlaces(before: seq<Rule>, given: seq<Rule>, rules: seq<Rule>, r: Rule, merged: Rule)
    requires OldKept(before, given, rules) && NewApart(before, given, rules) && LastKey(rules, RuleKey(r)) < |rules| && RuleKey(merged) == RuleKey(r)
    ensures var all := rules[LastKey(rules, RuleKey(r)) := merged];
            OldKept(before, given + [r], all) && NewApart(before, given + [r], all)
  {
    hide RuleKey, LastKey, GivesKey;
    var key, j := RuleKey(r), LastKey(rules, RuleKey(r));
    var all := rules[j := merged];
    forall k ensures GivesKey(given + [r], k) <==> GivesKey(given, k) || key == k {
      GivesMore(given, r, k);
    }
    assert forall n :: 0 <= n < |rules| ==> RuleKey(all[n]) == RuleKey(rules[n]);
    if j < |before| {
      assert RuleKey(before[j]) == key;
      LastStays(before, given, rules, key);
    }
  }

  /** What is merged into is the outcome so far, or the rule that was there. */
  lemma MergeTarget(before: seq<Rule>, given: seq<Rule>, rules: seq<Rule>, key: string)
    requires OldKept(before, given, rules) && NewApart(before, given, rules) && Outcomes(before, given, rules) && LastKey(rules, key) < |rules|
    ensures var cur := rules[LastKey(rules, key)];
            RuleKey(cur) == key && if GivesKey(given, key) then Outcome(cur, Was(before, key), given, key) else Was(before, key) == Some(cur)
  {
    hide RuleKey, LastKey, GivesKey, Outcome;
    var j := LastKey(rules, key);
    if !GivesKey(given, key) {
      assert j < |before| && RuleKey(before[j]) == key;
      LastStays(before, given, rules, key);
    }
  }

  lemma MergeOutcomes(before: seq<Rule>, given: seq<Rule>, rules: seq<Rule>, r: Rule, merged: Rule)
    requires Outcomes(before, given, rules) && LastKey(rules, RuleKey(r)) < |rules| && RuleKey(merged) == RuleKey(r)
    requires Outcome(merged, Was(before, RuleKey(r)), given + [r], RuleKey(r))
    ensures Outcomes(before, given + [r], rules[LastKey(rules, RuleKey(r)) := merged])
  {
    var key, j := RuleKey(r), LastKey(rules, RuleKey(r));
    hide RuleKey, LastKey, GivesKey, Outcome, Was;
    var all := rules[j := merged];
    forall k | GivesKey(given + [r], k) ensures LastKey(all, k) < |all| && Outcome(all[LastKey(all, k)], Was(before, k), given + [r], k) {
      GivesMore(given, r, k);
      SamePlace(rules, j, merged, k);
      if k != key {
        OtherPlace(rules, k, key);
        OutcomeOther(rules[LastKey(rules, k)], Was(before, k), given, r, k);
      }
    }
  }

  lemma MergeStepKeeps(before: seq<Rule>, given: seq<Rule>, rules: seq<Rule>, r: Rule)
    requires OldKept(before, given, rules) && NewApart(before, given, rules) && Outcomes(before, given, rules)
    requires LastKey(rules, RuleKey(r)) < |rules|
    ensures var j := LastKey(rules, RuleKey(r));
            var all := rules[j := MergeRule(rules[j], r)];
            OldKept(before, given + [r], all) && NewApart(before, given + [r], all) && Outcomes(before, given + [r], all)
  {
    hide RuleKey, LastKey, GivesKey, Outcome, MergeRule, OldKept, NewApart, Was, Outcomes;
    var key, j := RuleKey(r), LastKey(rules, RuleKey(r));
    var merged := MergeRule(rules[j], r);
    MergeRuleKey(rules[j], r);
    MergePlaces(before, given, rules, r, merged);
    MergeTarget(before, given, rules, key);
    MergedOutcome(rules[j], Was(before, key), given, r);
    MergeOutcomes(before, given, rules, r, merged);
  }

  lemma SamePlace(rules: seq<Rule>, j: nat, r: Rule, k: string)
    requires j < |rules| && RuleKey(r) == RuleKey(rules[j])
    ensures LastKey(rules[j := r], k) == LastKey(rules, k)
  {
    hide RuleKey, LastKey;
    KeysKept(rules, j, r);
  }

  lemma OtherPlace(rules: seq<Rule>, k: string, key: string)
    requires k != key && LastKey(rules, k) < |rules| && LastKey(rules, key) < |rules|
    ensures LastKey(rules, k) != LastKey(rules, key)
  {
    hide RuleKey, LastKey;
  }

  lemma {:induction false} BatchSays(before: seq<Rule>, given: seq<Rule>)
    ensures var rules := MergeBatch(before, given).rules;
            OldKept(before, given, rules) && NewApart(before, given, rules) && Outcomes(before, given, rules)
    decreases |given|
  {
    hide RuleKey, LastKey, OldKept, NewApart, Outcomes, MergeRule;
    if given == [] {
      NothingSaid(before);
    } else {
      var front, r := given[..|given| - 1], given[|given| - 1];
      BatchSays(before, front);
      var rules := MergeBatch(before, front).rules;
      assert given == front + [r];
      var j := LastKey(rules, RuleKey(r));
      if j == |rules| {
        AppendStep(before, front, rules, r);
      } else {
        MergeStepKeeps(before, front, rules, r);
        assert rules[j := rules[j]] == rules;
      }
    }
  }

  lemma NothingSaid(before: seq<Rule>)
    ensures OldKept(before, [], before) && NewApart(before, [], before) && Outcomes(before, [], before)
  {
    hide RuleKey;
  }

  // ---------------------------------------------------------------- the batch is made of normal rules

  /** Normalised, admissible and with a colon-free protocol, as validation hands rules over. */
  predicate Proper(r: Rule) { NormalizeRule(r) == r && Admissible(r) && PlainProto(r) }

  ghost predicate AllProper(rules: seq<Rule>) { forall r :: r in rules ==> Proper(r) }

  predicate NormalPaths(prs: seq<PathRule>) { forall pr :: pr in prs ==> NormalizeMethods(pr.methods) == pr.methods }

  lemma NormalPathsIff(prs: seq<PathRule>)
    ensures NormalPaths(prs) <==> NormalizePathRules(prs) == prs
  {
    if NormalizePathRules(prs) == prs {
      forall i | 0 <= i < |prs| ensures NormalizeMethods(prs[i].methods) == prs[i].methods {
        assert NormalizePathRules(prs)[i] == prs[i];
      }
    } else {
      var i :| 0 <= i < |prs| && NormalizePathRules(prs)[i] != prs[i];
      assert prs[i] in prs;
    }
  }

  lemma {:induction false} MergedPathsNormal(existing: seq<PathRule>, incoming: seq<PathRule>)
    requires NormalPaths(existing) && NormalPaths(incoming)
    ensures NormalPaths(MergePathRules(existing, incoming))
    decreases |incoming|
  {
    hide LastPath;
    if incoming != [] {
      assert incoming[0] in incoming && forall pr :: pr in incoming[1..] ==> pr in incoming;
      MergedPathsNormal(PutPath(existing, incoming[0]), incoming[1..]);
    }
  }

  lemma MergedProper(cur: Rule, r: Rule)
    requires Proper(cur) && Proper(r)
    ensures Proper(MergeRule(cur, r))
  {
    var m := MergeRule(cur, r);
    NormalPathsIff(cur.pathRules);
    NormalPathsIff(r.pathRules);
    NormalPathsIff(m.pathRules);
    NormalKept(cur);
    NormalKept(r);
    MergedPathsNormal(cur.pathRules, r.pathRules);
    hide MergePathRules, NormalPaths, NormalizePathRules, ParsePortSpec, NormalizeDomain, DefaultPort, Lower;
  }

  lemma NormalKept(r: Rule)
    requires NormalizeRule(r) == r
    ensures NormalizePathRules(r.pathRules) == r.pathRules && r.action != ""
  {
    hide NormalizePathRules;
  }

  lemma {:induction false} BatchProper(before: seq<Rule>, given: seq<Rule>)
    requires AllProper(before) && AllProper(given)
    ensures AllProper(MergeBatch(before, given).rules)
    decreases |given|
  {
    hide Proper, RuleKey, LastKey, MergeRule;
    if given != [] {
      var front, r := given[..|given| - 1], given[|given| - 1];
      assert r in given && forall q :: q in front ==> q in given;
      BatchProper(before, front);
      var rules := MergeBatch(before, front).rules;
      var j := LastKey(rules, RuleKey(r));
      if j < |rules| {
        assert rules[j] in rules;
        MergedProper(rules[j], r);
      }
    }
  }

  lemma SameKeySameText(a: Rule, b: Rule)
    requires Proper(a) && Proper(b)
    ensures RuleKey(a) == RuleKey(b) <==> a.dst == b.dst && a.proto == b.proto && a.port == b.port
  {
    hide NormalizeRule, NormalizeDomain, ParsePortSpec;
    if RuleKey(a) == RuleKey(b) {
      RuleKeyInjective(a, b);
    }
  }

  lemma CanonicalProper(rules: seq<Rule>)
    requires Plain(rules)
    ensures AllProper(Canonicalize(rules)) && IsCanonical(Canonicalize(rules))
  {
    hide Canonicalize, Admissible, NormalizeRule, PlainProto, InOrder, SameGroup, Plain;
    CanonicalizeIsCanonical(rules);
    CanonicalizePlain(rules);
    var out := Canonicalize(rules);
    forall r | r in out ensures Proper(r) {
      var j :| 0 <= j < |out| && out[j] == r;
      assert Settled(out[j]) && Plain(out);
      PlainAt(out, r);
    }
  }

  lemma PlainAt(rules: seq<Rule>, r: Rule)
    requires Plain(rules) && r in rules
    ensures PlainProto(r)
  {
  }

  // ---------------------------------------------------------------- what everyone reads afterwards

  /** The canonical rules after an add. */
  function After(stored: seq<Rule>, incoming: seq<Rule>): seq<Rule> { Canonicalize(AddRules(stored, incoming).stored) }

  lemma AfterReads(stored: seq<Rule>, incoming: seq<Rule>)
    requires Plain(stored) && Plain(incoming)
    ensures forall r :: r in After(stored, incoming) <==> r in Canonicalize(MergeBatch(Canonicalize(stored), NormalizeAll(incoming)).rules)
  {
    hide Canonicalize, Plain, MergeBatch;
    var before := Canonicalize(stored);
    var rules := MergeBatch(before, NormalizeAll(incoming)).rules;
    AddKeepsPlain(stored, incoming);
    CanonicalizeIdempotent(rules);
    if multiset(before) == multiset(Canonicalize(rules)) {
      forall r ensures r in before <==> r in Canonicalize(rules) {
        assert r in before <==> r in multiset(before);
        assert r in Canonicalize(rules) <==> r in multiset(Canonicalize(rules));
      }
    }
  }

  /** What an add is called with: colon-free protocols, and rules that validation let through. */
  ghost predicate Valid(stored: seq<Rule>, incoming: seq<Rule>) {
    Plain(stored) && Plain(incoming) && AllProper(NormalizeAll(incoming))
  }

  lemma BatchFacts(stored: seq<Rule>, incoming: seq<Rule>)
    requires Valid(stored, incoming)
    ensures var before, given := Canonicalize(stored), NormalizeAll(incoming);
            var rules := MergeBatch(before, given).rules;
            && AllProper(before) && AllProper(given) && AllProper(rules) && Plain(rules) && IsCanonical(before)
            && OldKept(before, given, rules) && NewApart(before, given, rules) && Outcomes(before, given, rules)
            && (forall r :: r in After(stored, incoming) <==> r in Canonicalize(rules))
  {
    hide Canonicalize, Plain, MergeBatch, Proper, OldKept, NewApart, Outcomes, IsCanonical, After;
    CanonicalProper(stored);
    BatchProper(Canonicalize(stored), NormalizeAll(incoming));
    BatchSays(Canonicalize(stored), NormalizeAll(incoming));
    AfterReads(stored, incoming);
    AddKeepsPlain(stored, incoming);
  }

  lemma ProperFirst(rules: seq<Rule>, i: nat)
    requires AllProper(rules) && i < |rules| && forall j :: 0 <= j < i ==> !SameRule(rules[j], rules[i])
    ensures FirstGiven(rules, i, rules[i])
  {
    hide NormalizeRule, Admissible, SameRule, PlainProto;
    assert rules[i] in rules;
    forall j | 0 <= j < i ensures NormalizeRule(rules[j]) == rules[j] {
      assert rules[j] in rules;
    }
  }

  lemma FirstProper(rules: seq<Rule>, i: nat, n: Rule)
    requires AllProper(rules) && FirstGiven(rules, i, n)
    ensures i < |rules| && rules[i] == n
  {
    hide NormalizeRule, Admissible, SameRule, PlainProto;
    assert rules[i] in rules;
  }

  /** At most one of these rules is under the key. */
  ghost predicate Alone(rules: seq<Rule>, key: string) {
    forall i, j :: 0 <= i < j < |rules| && RuleKey(rules[i]) == key ==> RuleKey(rules[j]) != key
  }

  lemma AloneAfter(before: seq<Rule>, given: seq<Rule>, rules: seq<Rule>, key: string)
    requires OldKept(before, given, rules) && NewApart(before, given, rules) && Alone(before, key)
    ensures Alone(rules, key)
  {
    hide RuleKey, LastKey, GivesKey;
  }

  lemma NotGrouped(r: Rule, n: Rule)
    requires r.proto == n.proto && !IsOpaque(n)
    ensures !Grouped(r)
  {
    hide ParsePortSpec, Lower;
  }

  /** An added rule that is not opaque is there afterwards, the only one under its key: with the
      last given action, the last given path default or the old one, and path by path the last
      given entry or the old one; provided at most one rule was under the key. */
  lemma AddedIsHeld(stored: seq<Rule>, incoming: seq<Rule>, i: nat)
    requires Valid(stored, incoming) && i < |incoming| && !IsOpaque(NormalizeRule(incoming[i]))
    requires Alone(Canonicalize(stored), RuleKey(NormalizeRule(incoming[i])))
    ensures var key := RuleKey(NormalizeRule(incoming[i]));
            exists r :: && r in After(stored, incoming) && Outcome(r, Was(Canonicalize(stored), key), NormalizeAll(incoming), key)
                        && forall s :: s in After(stored, incoming) && RuleKey(s) == key ==> s == r
  {
    hide Canonicalize, Plain, MergeBatch, Proper, OldKept, NewApart, IsCanonical, Outcome, RuleKey, LastKey, Alone, After, NormalizeRule, IsOpaque, Was, FirstGiven, GivesKey;
    var before, given, n := Canonicalize(stored), NormalizeAll(incoming), NormalizeRule(incoming[i]);
    var rules, key := MergeBatch(before, given).rules, RuleKey(n);
    BatchFacts(stored, incoming);
    assert given[i] == n && n in given;
    KeyGiven(given, n);
    AloneAfter(before, given, rules, key);
    var p := LastKey(rules, key);
    var r := rules[p];
    assert r in rules;
    SameKeySameText(r, n);
    NotGrouped(r, n);
    OnlyAtKey(rules, key, p);
    ProperFirst(rules, p);
    KeptExactly(rules, r);
    forall s | s in After(stored, incoming) && RuleKey(s) == key ensures s == r {
      CanonicalProper(rules);
      SameKeySameText(s, n);
      NotGrouped(s, n);
      KeptExactly(rules, s);
      var j: nat :| FirstGiven(rules, j, s);
      FirstProper(rules, j, s);
      OneAtKey(rules, key, p, j);
    }
  }

  lemma KeyGiven(given: seq<Rule>, n: Rule)
    requires n in given
    ensures GivesKey(given, RuleKey(n))
  {
    hide RuleKey;
  }

  lemma OnlyAtKey(rules: seq<Rule>, key: string, p: nat)
    requires AllProper(rules) && Alone(rules, key) && p < |rules| && RuleKey(rules[p]) == key
    ensures forall j :: 0 <= j < p ==> !SameRule(rules[j], rules[p])
  {
    hide NormalizeRule, Admissible, PlainProto, Lower;
  }

  lemma OneAtKey(rules: seq<Rule>, key: string, p: nat, j: nat)
    requires Alone(rules, key) && p < |rules| && j < |rules| && RuleKey(rules[p]) == key && RuleKey(rules[j]) == key
    ensures j == p
  {
    hide RuleKey;
  }

  /** An old rule other than the one merged into, of the action class the given rules end in. */
  ghost predicate Shadows(before: seq<Rule>, given: seq<Rule>, key: string, j: nat) {
    && j < LastKey(before, key) < |before| && RuleKey(before[j]) == key
    && ActionGiven(given, key).Some? && (Lower(before[j].action) == "deny" <==> Lower(ActionGiven(given, key).value) == "deny")
  }

  lemma ShadowIsSame(q: Rule, r: Rule)
    requires Proper(q) && Proper(r) && RuleKey(q) == RuleKey(r)
    ensures SameRule(q, r) <==> (Lower(q.action) == "deny" <==> Lower(r.action) == "deny")
  {
    SameKeySameText(q, r);
    hide RuleKey, Proper, Lower;
  }

  lemma OldKeysApart(before: seq<Rule>, i: nat, j: nat)
    requires IsCanonical(before) && i < |before| && j < |before| && SameRule(before[i], before[j])
    ensures i == j
  {
    hide Settled, SameGroup;
    SameRuleKeys(before[i], before[j]);
    hide DedupKey, SameRule;
  }

  lemma UnderKey(before: seq<Rule>, given: seq<Rule>, rules: seq<Rule>, key: string, i: nat)
    requires OldKept(before, given, rules) && NewApart(before, given, rules) && i < |rules| && RuleKey(rules[i]) == key && i != LastKey(rules, key)
    ensures i < LastKey(before, key) < |before| && LastKey(rules, key) == LastKey(before, key) && rules[i] == before[i]
  {
    hide RuleKey, LastKey, GivesKey;
    assert i < LastKey(rules, key) < |rules|;
    assert i < |before| && LastKey(before, key) < |before|;
    LastStays(before, given, rules, key);
  }

  /** Where the key already had two rules, one denying and one not: what was given is there
      afterwards exactly when no other old rule of the same class shadows it with something else. */
  lemma HeldIff(stored: seq<Rule>, incoming: seq<Rule>, i: nat)
    requires Valid(stored, incoming) && i < |incoming| && !IsOpaque(NormalizeRule(incoming[i]))
    ensures var before, given, key := Canonicalize(stored), NormalizeAll(incoming), RuleKey(NormalizeRule(incoming[i]));
            (exists r :: r in After(stored, incoming) && Outcome(r, Was(before, key), given, key))
            <==> forall j: nat :: Shadows(before, given, key, j) ==> Outcome(before[j], Was(before, key), given, key)
  {
    hide Canonicalize, Plain, MergeBatch, OldKept, NewApart, IsCanonical, RuleKey, LastKey, After, NormalizeRule, IsOpaque, FirstGiven, GivesKey, SameRule, Admissible, PlainProto, Lower, Outcome, Was;
    var before, given, n := Canonicalize(stored), NormalizeAll(incoming), NormalizeRule(incoming[i]);
    var rules, key := MergeBatch(before, given).rules, RuleKey(n);
    BatchFacts(stored, incoming);
    assert given[i] == n && n in given;
    KeyGiven(given, n);
    OldFits(before, given, rules);
    var p := LastKey(rules, key);
    assert Outcome(rules[p], Was(before, key), given, key);
    OutcomeActs(rules[p], Was(before, key), given, key);
    if r :| r in After(stored, incoming) && Outcome(r, Was(before, key), given, key) {
      HeldUnshadowed(before, given, rules, n, r);
    }
    if forall j: nat :: Shadows(before, given, key, j) ==> Outcome(before[j], Was(before, key), given, key) {
      UnshadowedHeld(before, given, rules, n);
    }
  }

  lemma OutcomeActs(r: Rule, was: Option<Rule>, given: seq<Rule>, key: string)
    requires Outcome(r, was, given, key)
    ensures ActionGiven(given, key) == Some(r.action) && RuleKey(r) == key
  {
    hide RuleKey, ActionGiven, DefaultGiven, PathGiven, Lookup;
  }

  lemma HeldUnshadowed(before: seq<Rule>, given: seq<Rule>, rules: seq<Rule>, n: Rule, r: Rule)
    requires AllProper(before) && AllProper(rules) && Plain(rules) && IsCanonical(before) && OldKept(before, given, rules) && NewApart(before, given, rules)
    requires Proper(n) && !IsOpaque(n) && r in Canonicalize(rules) && Outcome(r, Was(before, RuleKey(n)), given, RuleKey(n))
    ensures forall j: nat :: Shadows(before, given, RuleKey(n), j) ==> Outcome(before[j], Was(before, RuleKey(n)), given, RuleKey(n))
  {
    hide Canonicalize, Plain, OldKept, NewApart, IsCanonical, RuleKey, LastKey, IsOpaque, FirstGiven, GivesKey, SameRule, Proper, Lower, Outcome, Was;
    var key := RuleKey(n);
    OutcomeActs(r, Was(before, key), given, key);
    CanonicalProper(rules);
    SameKeySameText(r, n);
    NotGrouped(r, n);
    KeptExactly(rules, r);
    var f: nat :| FirstGiven(rules, f, r);
    FirstProper(rules, f, r);
    forall j: nat | Shadows(before, given, key, j) ensures Outcome(before[j], Was(before, key), given, key) {
      LastStays(before, given, rules, key);
      OldFits(before, given, rules);
      OldPlace(before, given, rules, key, j);
      assert before[j] in before && rules[j] in rules;
      ShadowIsSame(rules[j], r);
      if f == LastKey(rules, key) {
        FirstHasNoEqual(rules, f, r, j);
      } else {
        UnderKey(before, given, rules, key, f);
        OldKeysApart(before, j, f);
      }
    }
  }

  lemma OldPlace(before: seq<Rule>, given: seq<Rule>, rules: seq<Rule>, key: string, j: nat)
    requires OldKept(before, given, rules) && j < LastKey(before, key) < |before| && RuleKey(before[j]) == key
    ensures j < |rules| && rules[j] == before[j]
  {
    hide RuleKey, LastKey, GivesKey;
  }

  lemma FirstHasNoEqual(rules: seq<Rule>, f: nat, r: Rule, j: nat)
    requires AllProper(rules) && FirstGiven(rules, f, r) && j < f
    ensures !SameRule(rules[j], r)
  {
    hide NormalizeRule, Admissible, SameRule, PlainProto;
    assert rules[j] in rules;
  }

  lemma UnshadowedHeld(before: seq<Rule>, given: seq<Rule>, rules: seq<Rule>, n: Rule)
    requires AllProper(before) && AllProper(rules) && Plain(rules) && IsCanonical(before)
    requires OldKept(before, given, rules) && NewApart(before, given, rules) && Outcomes(before, given, rules)
    requires Proper(n) && !IsOpaque(n) && GivesKey(given, RuleKey(n))
    requires forall j: nat :: Shadows(before, given, RuleKey(n), j) ==> Outcome(before[j], Was(before, RuleKey(n)), given, RuleKey(n))
    ensures exists r :: r in Canonicalize(rules) && Outcome(r, Was(before, RuleKey(n)), given, RuleKey(n))
  {
    hide Canonicalize, Plain, OldKept, NewApart, IsCanonical, RuleKey, LastKey, IsOpaque, FirstGiven, GivesKey, SameRule, Proper, Lower, Outcome, Was;
    var key := RuleKey(n);
    var p := LastKey(rules, key);
    OutcomeActs(rules[p], Was(before, key), given, key);
    assert rules[p] in rules;
    SameKeySameText(rules[p], n);
    NotGrouped(rules[p], n);
    if j: nat :| j < p && SameRule(rules[j], rules[p]) {
      SameRuleKeys(rules[j], rules[p]);
      UnderKey(before, given, rules, key, j);
      assert before[j] in before && rules[j] in rules;
      ShadowIsSame(rules[j], rules[p]);
      assert Shadows(before, given, key, j);
      forall l | 0 <= l < j ensures !SameRule(rules[l], rules[j]) {
        NoneEarlier(before, given, rules, key, j, l);
      }
      ProperFirst(rules, j);
      SameKeySameText(rules[j], n);
      NotGrouped(rules[j], n);
      KeptExactly(rules, rules[j]);
    } else {
      ProperFirst(rules, p);
      KeptExactly(rules, rules[p]);
    }
  }

  lemma NoneEarlier(before: seq<Rule>, given: seq<Rule>, rules: seq<Rule>, key: string, j: nat, l: nat)
    requires IsCanonical(before) && OldKept(before, given, rules) && NewApart(before, given, rules)
    requires l < j < LastKey(before, key) < |before| && RuleKey(rules[j]) == key && rules[j] == before[j]
    ensures !SameRule(rules[l], rules[j])
  {
    hide IsCanonical, RuleKey, LastKey, GivesKey, SameRule;
    if SameRule(rules[l], rules[j]) {
      SameRuleKeys(rules[l], rules[j]);
      OldPlace(before, given, rules, key, l);
      OldKeysApart(before, l, j);
    }
  }

  /** Rules that are not opaque and under keys no one gives are what they were. */
  lemma OthersUnchanged(stored: seq<Rule>, incoming: seq<Rule>, n: Rule)
    requires Valid(stored, incoming) && !Grouped(n) && !GivesKey(NormalizeAll(incoming), RuleKey(n))
    ensures n in After(stored, incoming) <==> n in Canonicalize(stored)
  {
    hide Canonicalize, Plain, MergeBatch, Proper, Outcomes, RuleKey, LastKey, After, Grouped, GivesKey, FirstGiven, SameRule, DedupKey, Settled, SameGroup;
    var before, given := Canonicalize(stored), NormalizeAll(incoming);
    var rules := MergeBatch(before, given).rules;
    BatchFacts(stored, incoming);
    KeptExactly(rules, n);
    if n in before {
      var i :| 0 <= i < |before| && before[i] == n;
      assert rules[i] == n;
      forall j | 0 <= j < i ensures !SameRule(rules[j], n) {
        if SameRule(rules[j], n) {
          SameRuleKeys(rules[j], n);
        }
      }
      ProperFirst(rules, i);
    }
    if n in After(stored, incoming) {
      var i: nat :| FirstGiven(rules, i, n);
      FirstProper(rules, i, n);
      assert i < |before|;
    }
  }

  lemma SameRuleKeys(a: Rule, b: Rule)
    requires SameRule(a, b)
    ensures RuleKey(a) == RuleKey(b) && DedupKey(a) == DedupKey(b)
  {
    hide Lower;
  }
}

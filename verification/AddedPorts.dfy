/** The ports of opaque rules after an add, from the rules that count. */
module AddedPorts {
  import opened Text
  import opened Rules
  import opened Canonical
  import opened DenyWins
  import opened Store
  import opened Adding

  /** The i-th old rule is merged into by a given one. */
  predicate Superseded(before: seq<Rule>, given: seq<Rule>, i: nat)
    requires i < |before|
  {
    GivesKey(given, RuleKey(before[i])) && i == LastKey(before, RuleKey(before[i]))
  }

  predicate LastGiven(given: seq<Rule>, i: nat) { i < |given| && forall j :: i < j < |given| ==> RuleKey(given[j]) != RuleKey(given[i]) }

  /** The rules that count after an add: the old ones nothing was merged into, and the last given
      one of each key. */
  ghost predicate Counts(before: seq<Rule>, given: seq<Rule>, r: Rule) {
    || (exists i :: 0 <= i < |before| && before[i] == r && !Superseded(before, given, i))
    || (exists i: nat :: LastGiven(given, i) && given[i] == r)
  }

  ghost predicate Told(before: seq<Rule>, given: seq<Rule>, k: GroupId, deny: bool, p: int) {
    exists r :: Counts(before, given, r) && ClaimedBy(r, k, deny, p)
  }

  ghost predicate ToldSingly(before: seq<Rule>, given: seq<Rule>, k: GroupId, deny: bool, p: int) {
    && Told(before, given, k, deny, p)
    && forall r :: Counts(before, given, r) && ClaimedBy(r, k, deny, p) ==> WrittenSpan(r) == Some(Span(p, p))
  }

  /** Rules that claim the same ports in the same way. */
  predicate Alike(a: Rule, b: Rule) { a.dst == b.dst && a.proto == b.proto && a.port == b.port && a.action == b.action }

  lemma AlikeClaims(a: Rule, b: Rule, k: GroupId, deny: bool, p: int)
    requires Alike(a, b)
    ensures ClaimedBy(a, k, deny, p) <==> ClaimedBy(b, k, deny, p)
    ensures WrittenSpan(a) == WrittenSpan(b)
  {
    hide Lower, ParsePortSpec, NormalizeDomain;
  }

  lemma {:induction false} LastUnder(given: seq<Rule>, key: string) returns (i: nat)
    requires GivesKey(given, key)
    ensures LastGiven(given, i) && RuleKey(given[i]) == key && ActionGiven(given, key) == Some(given[i].action)
    decreases |given|
  {
    hide RuleKey;
    var front, r := given[..|given| - 1], given[|given| - 1];
    if RuleKey(r) == key {
      i := |given| - 1;
    } else {
      assert given == front + [r];
      GivesMore(front, r, key);
      i := LastUnder(front, key);
    }
  }

  /** What stands under a given key counts like the last given rule of that key. */
  lemma OutcomeCounts(before: seq<Rule>, given: seq<Rule>, rules: seq<Rule>, key: string) returns (i: nat)
    requires AllProper(given) && AllProper(rules) && Outcomes(before, given, rules) && GivesKey(given, key)
    ensures LastGiven(given, i) && RuleKey(given[i]) == key && LastKey(rules, key) < |rules| && Alike(rules[LastKey(rules, key)], given[i])
  {
    hide RuleKey, LastKey, Proper, PathGiven, DefaultGiven, Lookup, ActionGiven, GivesKey;
    i := LastUnder(given, key);
    var r := rules[LastKey(rules, key)];
    assert r in rules && given[i] in given;
    SameKeySameText(r, given[i]);
  }

  /** Every rule of the batch is like one that counts. */
  lemma BatchCounts(before: seq<Rule>, given: seq<Rule>, rules: seq<Rule>, j: nat) returns (r: Rule)
    requires AllProper(given) && AllProper(rules) && j < |rules|
    requires OldKept(before, given, rules) && NewApart(before, given, rules) && Outcomes(before, given, rules)
    ensures Counts(before, given, r) && Alike(rules[j], r)
  {
    hide RuleKey, LastKey, Proper, Outcomes, GivesKey;
    var key := RuleKey(rules[j]);
    if j < |before| && !Superseded(before, given, j) {
      r := before[j];
    } else {
      if j < |before| {
        LastStays(before, given, rules, key);
      }
      assert LastKey(rules, key) == j;
      var i := OutcomeCounts(before, given, rules, key);
      r := given[i];
    }
  }

  /** And every rule that counts is like one of the batch. */
  lemma CountsBatch(before: seq<Rule>, given: seq<Rule>, rules: seq<Rule>, r: Rule) returns (j: nat)
    requires AllProper(given) && AllProper(rules) && Counts(before, given, r)
    requires OldKept(before, given, rules) && NewApart(before, given, rules) && Outcomes(before, given, rules)
    ensures j < |rules| && Alike(rules[j], r)
  {
    hide RuleKey, LastKey, Proper, Outcomes, GivesKey;
    if i :| 0 <= i < |before| && before[i] == r && !Superseded(before, given, i) {
      j := i;
    } else {
      var i: nat :| LastGiven(given, i) && given[i] == r;
      KeyGiven(given, r);
      var l := OutcomeCounts(before, given, rules, RuleKey(r));
      assert l == i;
      j := LastKey(rules, RuleKey(r));
    }
  }

  lemma BatchTold(before: seq<Rule>, given: seq<Rule>, rules: seq<Rule>, k: GroupId, deny: bool, p: int)
    requires AllProper(given) && AllProper(rules)
    requires OldKept(before, given, rules) && NewApart(before, given, rules) && Outcomes(before, given, rules)
    ensures Claims(rules, k, deny, p) <==> Told(before, given, k, deny, p)
    ensures OnlySingly(rules, k, deny, p) <==> ToldSingly(before, given, k, deny, p)
  {
    hide AllProper, OldKept, NewApart, Outcomes, Counts, ClaimedBy, WrittenSpan, Alike;
    forall r | r in rules && ClaimedBy(r, k, deny, p)
      ensures exists q :: Counts(before, given, q) && ClaimedBy(q, k, deny, p) && WrittenSpan(q) == WrittenSpan(r)
    {
      var j :| 0 <= j < |rules| && rules[j] == r;
      var q := BatchCounts(before, given, rules, j);
      AlikeClaims(r, q, k, deny, p);
    }
    forall q | Counts(before, given, q) && ClaimedBy(q, k, deny, p)
      ensures exists r :: r in rules && ClaimedBy(r, k, deny, p) && WrittenSpan(q) == WrittenSpan(r)
    {
      var j := CountsBatch(before, given, rules, q);
      AlikeClaims(rules[j], q, k, deny, p);
      assert rules[j] in rules;
    }
  }

  /** The ports of opaque rules after an add: denied if a rule that counts denies it, allowed if
      one allows it and none denies it, a bare one-port clash apart. */
  lemma PortsAfterAdd(stored: seq<Rule>, incoming: seq<Rule>, k: GroupId, p: int)
    requires Valid(stored, incoming)
    ensures var before, given := Canonicalize(stored), NormalizeAll(incoming);
            && (Claims(After(stored, incoming), k, true, p) <==> Told(before, given, k, true, p))
            && (Claims(After(stored, incoming), k, false, p) <==>
                  Told(before, given, k, false, p)
                  && (!Told(before, given, k, true, p) || (ToldSingly(before, given, k, true, p) && ToldSingly(before, given, k, false, p))))
  {
    hide Canonicalize, Plain, MergeBatch, AllProper, OldKept, NewApart, Outcomes, IsCanonical, After, Told, ToldSingly, ClaimedBy, OnlySingly;
    var before, given := Canonicalize(stored), NormalizeAll(incoming);
    var rules := MergeBatch(before, given).rules;
    BatchFacts(stored, incoming);
    BatchTold(before, given, rules, k, true, p);
    BatchTold(before, given, rules, k, false, p);
    DenyWinsExactly(rules, k, p);
  }
}

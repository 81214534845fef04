/** The rule-store transactions as they run, and what every sequence of them keeps. */
module StoreOps {
  import opened Text
  import opened Rules
  import opened Canonical
  import opened Normalizer
  import opened Store

  // ---------------------------------------------------------------- removals

  /** The rules not stored under this key, in order. */
  function Keep(rules: seq<Rule>, key: string): seq<Rule> {
    if rules == [] then []
    else (if RuleKey(rules[0]) == key then [] else [rules[0]]) + Keep(rules[1..], key)
  }

  predicate HasKey(rules: seq<Rule>, key: string) {
    exists r :: r in rules && RuleKey(r) == key
  }

  datatype Removal = Removal(stored: seq<Rule>, matched: bool)

  function RemoveRule(stored: seq<Rule>, target: Rule): Removal {
    var canonical, key := Canonicalize(stored), RuleKey(NormalizeRule(target));
    if HasKey(canonical, key) then Removal(Keep(canonical, key), true) else Removal(stored, false)
  }

  /** First rule stored under a key, or |rules|. */
  function FirstKey(rules: seq<Rule>, key: string): (i: nat)
    ensures i <= |rules|
    ensures i < |rules| ==> RuleKey(rules[i]) == key
    ensures forall j :: 0 <= j < i ==> RuleKey(rules[j]) != key
  {
    if rules == [] || RuleKey(rules[0]) == key then 0 else 1 + FirstKey(rules[1..], key)
  }

  function DropPath(prs: seq<PathRule>, path: string): (out: seq<PathRule>)
    ensures |out| <= |prs|
  {
    if prs == [] then []
    else (if prs[0].path == path then [] else [prs[0]]) + DropPath(prs[1..], path)
  }

  lemma {:induction false} DropPathIn(prs: seq<PathRule>, path: string)
    ensures forall p :: p in DropPath(prs, path) <==> p in prs && p.path != path
    ensures |DropPath(prs, path)| == |prs| <==> forall p :: p in prs ==> p.path != path
  {
    if prs != [] {
      DropPathIn(prs[1..], path);
      assert prs == [prs[0]] + prs[1..];
    }
  }

  function RemovePath(stored: seq<Rule>, target: Rule, path: string): Removal {
    var canonical, key := Canonicalize(stored), RuleKey(NormalizeRule(target));
    var i := FirstKey(canonical, key);
    if i == |canonical| then Removal(stored, false)
    else
      var kept := DropPath(canonical[i].pathRules, path);
      if |kept| == |canonical[i].pathRules| then Removal(stored, false)
      else Removal(canonical[i := canonical[i].(pathRules := kept)], true)
  }

  // ---------------------------------------------------------------- removing rules keeps the form

  /** out is rules at the ascending positions idx. */
  ghost predicate Picks(out: seq<Rule>, rules: seq<Rule>, idx: seq<nat>) {
    && |idx| == |out|
    && (forall i :: 0 <= i < |idx| ==> idx[i] < |rules| && out[i] == rules[idx[i]])
    && (forall i, j :: 0 <= i < j < |idx| ==> idx[i] < idx[j])
  }

  /** Picks from the tail are picks from the whole list, one position on. */
  lemma PicksShift(out: seq<Rule>, rules: seq<Rule>, idx: seq<nat>) returns (idx': seq<nat>)
    requires rules != [] && Picks(out, rules[1..], idx)
    ensures Picks(out, rules, idx')
    ensures forall i :: 0 <= i < |idx'| ==> 0 < idx'[i]
  {
    idx' := seq(|idx|, i requires 0 <= i < |idx| => idx[i] + 1);
    forall i | 0 <= i < |idx'| ensures idx'[i] < |rules| && out[i] == rules[idx'[i]] {
      assert rules[1..][idx[i]] == rules[idx[i] + 1];
    }
  }

  lemma {:induction false} KeepPicks(rules: seq<Rule>, key: string) returns (idx: seq<nat>)
    ensures Picks(Keep(rules, key), rules, idx)
  {
    hide RuleKey, Picks;
    if rules == [] {
      idx := [];
      assert Picks([], rules, []) by { PicksNothing(rules); }
    } else {
      idx := KeepPicks(rules[1..], key);
      var out := Keep(rules[1..], key);
      idx := PicksShift(out, rules, idx);
      if RuleKey(rules[0]) == key {
        assert Keep(rules, key) == out;
      } else {
        PicksHead(out, rules, idx);
        idx := [0] + idx;
      }
    }
  }

  lemma PicksNothing(rules: seq<Rule>)
    ensures Picks([], rules, [])
  {
  }

  lemma PicksHead(out: seq<Rule>, rules: seq<Rule>, idx: seq<nat>)
    requires rules != [] && Picks(out, rules, idx) && forall i :: 0 <= i < |idx| ==> 0 < idx[i]
    ensures Picks([rules[0]] + out, rules, [0] + idx)
  {
  }

  lemma PicksCanonical(out: seq<Rule>, rules: seq<Rule>, idx: seq<nat>)
    requires IsCanonical(rules) && Picks(out, rules, idx)
    ensures IsCanonical(out)
  {
    hide InOrder, Settled, SameGroup;
    forall i, j | 0 <= i < j < |out| ensures InOrder(out[i], out[j]) {
      assert idx[i] < idx[j];
    }
    forall i, j, k | 0 <= i < j < k < |out| && SameGroup(out[i], out[k]) ensures SameGroup(out[i], out[j]) {
      assert idx[i] < idx[j] < idx[k];
    }
  }

  // ---------------------------------------------------------------- what a removal leaves

  /** idx are the positions of xs that satisfy keep, ascending, and out is what stands there. */
  ghost predicate FilteredBy<T>(out: seq<T>, xs: seq<T>, keep: T -> bool, idx: seq<nat>) {
    && |idx| == |out|
    && (forall i :: 0 <= i < |idx| ==> idx[i] < |xs| && out[i] == xs[idx[i]] && keep(xs[idx[i]]))
    && (forall i, j :: 0 <= i < j < |idx| ==> idx[i] < idx[j])
    && (forall k :: 0 <= k < |xs| && keep(xs[k]) ==> k in idx)
  }

  /** out is xs without the elements that fail keep, in order. */
  ghost predicate Filtered<T>(out: seq<T>, xs: seq<T>, keep: T -> bool) {
    exists idx: seq<nat> :: FilteredBy(out, xs, keep, idx)
  }

  lemma FilteredNothing<T>(keep: T -> bool)
    ensures Filtered([], [], keep)
  {
    assert FilteredBy([], [], keep, []);
  }

  /** The same positions, one on. */
  function Later(idx: seq<nat>): (later: seq<nat>)
    ensures |later| == |idx| && forall i :: 0 <= i < |idx| ==> later[i] == idx[i] + 1
  {
    seq(|idx|, i requires 0 <= i < |idx| => idx[i] + 1)
  }

  lemma LaterIn(idx: seq<nat>, k: nat)
    requires k in idx
    ensures k + 1 in Later(idx)
  {
    var i :| 0 <= i < |idx| && idx[i] == k;
    assert Later(idx)[i] == k + 1;
  }

  lemma FilteredDrop<T>(x: T, out: seq<T>, xs: seq<T>, keep: T -> bool, idx: seq<nat>)
    requires FilteredBy(out, xs, keep, idx) && !keep(x)
    ensures FilteredBy(out, [x] + xs, keep, Later(idx))
  {
    hide Later;
    var all, pos := [x] + xs, Later(idx);
    forall i | 0 <= i < |pos| ensures pos[i] < |all| && out[i] == all[pos[i]] && keep(all[pos[i]]) {
      assert pos[i] == idx[i] + 1 && all[pos[i]] == xs[idx[i]];
    }
    forall i, j | 0 <= i < j < |pos| ensures pos[i] < pos[j] {
      assert pos[i] == idx[i] + 1 && pos[j] == idx[j] + 1;
    }
    forall k | 0 <= k < |all| && keep(all[k]) ensures k in pos {
      assert k > 0 && xs[k - 1] == all[k];
      LaterIn(idx, k - 1);
    }
  }

  lemma FilteredTake<T>(x: T, out: seq<T>, xs: seq<T>, keep: T -> bool, idx: seq<nat>)
    requires FilteredBy(out, xs, keep, idx) && keep(x)
    ensures FilteredBy([x] + out, [x] + xs, keep, [0] + Later(idx))
  {
    hide Later;
    var all, pos, took := [x] + xs, [0] + Later(idx), [x] + out;
    PositionsOn(idx);
    forall i | 0 <= i < |pos| ensures pos[i] < |all| && took[i] == all[pos[i]] && keep(all[pos[i]]) {
      if i > 0 {
        assert pos[i] == idx[i - 1] + 1 && all[pos[i]] == xs[idx[i - 1]];
      }
    }
    forall k | 0 <= k < |all| && keep(all[k]) ensures k in pos {
      if k > 0 {
        assert xs[k - 1] == all[k];
        LaterIn(idx, k - 1);
      }
    }
  }

  lemma PositionsOn(idx: seq<nat>)
    requires forall i, j :: 0 <= i < j < |idx| ==> idx[i] < idx[j]
    ensures var pos := [0] + Later(idx);
            && |pos| == |idx| + 1 && pos[0] == 0 && 0 in pos && (forall k :: k in Later(idx) ==> k in pos)
            && (forall i :: 0 < i < |pos| ==> pos[i] == idx[i - 1] + 1)
            && (forall i, j :: 0 <= i < j < |pos| ==> pos[i] < pos[j])
  {
    hide Later;
    assert ([0] + Later(idx))[0] == 0;
  }

  lemma FilteredCons<T>(x: T, out: seq<T>, xs: seq<T>, keep: T -> bool)
    requires Filtered(out, xs, keep)
    ensures Filtered(if keep(x) then [x] + out else out, [x] + xs, keep)
  {
    hide FilteredBy;
    var idx :| FilteredBy(out, xs, keep, idx);
    if keep(x) {
      FilteredTake(x, out, xs, keep, idx);
    } else {
      FilteredDrop(x, out, xs, keep, idx);
    }
  }

  /** Not under this key; not of this path. */
  function OffKey(key: string): Rule -> bool { (r: Rule) => RuleKey(r) != key }
  function OffPath(path: string): PathRule -> bool { (pr: PathRule) => pr.path != path }

  lemma {:induction false} KeepFilters(rules: seq<Rule>, key: string)
    ensures Filtered(Keep(rules, key), rules, OffKey(key))
  {
    hide RuleKey, Filtered;
    var keep := OffKey(key);
    if rules == [] {
      FilteredNothing(keep);
    } else {
      KeepFilters(rules[1..], key);
      FilteredCons(rules[0], Keep(rules[1..], key), rules[1..], keep);
      assert [] + Keep(rules[1..], key) == Keep(rules[1..], key);
      assert [rules[0]] + rules[1..] == rules;
    }
  }

  lemma {:induction false} DropFilters(prs: seq<PathRule>, path: string)
    ensures Filtered(DropPath(prs, path), prs, OffPath(path))
  {
    hide Filtered;
    var keep := OffPath(path);
    if prs == [] {
      FilteredNothing(keep);
    } else {
      DropFilters(prs[1..], path);
      FilteredCons(prs[0], DropPath(prs[1..], path), prs[1..], keep);
      assert [] + DropPath(prs[1..], path) == DropPath(prs[1..], path);
      assert [prs[0]] + prs[1..] == prs;
    }
  }

  /** A rule removal is reported as done exactly when a canonical rule was under the key, and
      then leaves the canonical rules without those, in order; otherwise nothing changes. */
  lemma RemovalMeans(stored: seq<Rule>, target: Rule)
    ensures var key, before, removal := RuleKey(NormalizeRule(target)), Canonicalize(stored), RemoveRule(stored, target);
            && (removal.matched <==> exists r :: r in before && RuleKey(r) == key)
            && (removal.matched ==> Filtered(removal.stored, before, OffKey(key)))
            && (!removal.matched ==> removal.stored == stored)
  {
    hide Canonicalize, NormalizeRule, RuleKey, Filtered;
    KeepFilters(Canonicalize(stored), RuleKey(NormalizeRule(target)));
  }

  /** A path removal is reported as done exactly when the first canonical rule under the key had
      the path, and then takes its entries off that rule, in order, and touches nothing else. */
  lemma PathRemovalMeans(stored: seq<Rule>, target: Rule, path: string)
    ensures var key, before, removal := RuleKey(NormalizeRule(target)), Canonicalize(stored), RemovePath(stored, target, path);
            && (!removal.matched ==> removal.stored == stored)
            && (removal.matched <==> exists i :: 0 <= i < |before| && FirstUnder(before, key, i) && exists pr :: pr in before[i].pathRules && pr.path == path)
            && (removal.matched ==> forall i :: 0 <= i < |before| && FirstUnder(before, key, i) ==>
                  && |removal.stored| == |before|
                  && (forall j :: 0 <= j < |before| && j != i ==> removal.stored[j] == before[j])
                  && removal.stored[i] == before[i].(pathRules := removal.stored[i].pathRules)
                  && Filtered(removal.stored[i].pathRules, before[i].pathRules, OffPath(path)))
  {
    hide Canonicalize, NormalizeRule, RuleKey, Filtered, DropPath;
    var before := Canonicalize(stored);
    var f := FirstKey(before, RuleKey(NormalizeRule(target)));
    if f < |before| {
      DropPathIn(before[f].pathRules, path);
      DropFilters(before[f].pathRules, path);
      assert FirstUnder(before, RuleKey(NormalizeRule(target)), f);
    }
  }

  predicate FirstUnder(rules: seq<Rule>, key: string, i: nat)
    requires i < |rules|
  {
    RuleKey(rules[i]) == key && forall j :: 0 <= j < i ==> RuleKey(rules[j]) != key
  }

  // ---------------------------------------------------------------- removing path rules

  /** r shares its group and action with another rule of the list. */
  ghost predicate SharesBlock(rules: seq<Rule>, i: nat)
    requires i < |rules|
  {
    exists j :: 0 <= j < |rules| && j != i && SameGroup(rules[i], rules[j]) && IsDeny(rules[i]) == IsDeny(rules[j])
  }

  lemma DropPathSettled(r: Rule, path: string)
    requires Settled(r)
    ensures Settled(r.(pathRules := DropPath(r.pathRules, path)))
  {
    hide DropPath;
    var prs := DropPath(r.pathRules, path);
    DropPathIn(r.pathRules, path);
    forall i | 0 <= i < |prs| ensures NormalizePathRules(prs)[i] == prs[i] {
      assert prs[i] in r.pathRules;
      var j :| 0 <= j < |r.pathRules| && r.pathRules[j] == prs[i];
      assert NormalizePathRules(r.pathRules)[j] == r.pathRules[j];
    }
    assert NormalizePathRules(prs) == prs;
  }

  /** A rule whose path rules alone change looks the same to everything but its own block. */
  lemma PathsAreInvisible(r: Rule, prs: seq<PathRule>)
    ensures var s := r.(pathRules := prs);
            DedupKey(s) == DedupKey(r) && RuleKey(s) == RuleKey(r) && Grouped(s) == Grouped(r)
            && GroupOf(s) == GroupOf(r) && IsDeny(s) == IsDeny(r) && SpanOf(s) == SpanOf(r)
  {
    hide Lower, ParsePortSpec, NormalizeDomain;
    assert IsOpaque(r.(pathRules := prs)) == IsOpaque(r);
  }

  /** Taking a path rule off a canonical list leaves it canonical exactly when the rule has no
      sibling span: siblings must carry identical path rules. */
  lemma PathRemovalIff(rules: seq<Rule>, i: nat, path: string)
    requires IsCanonical(rules) && i < |rules|
    requires |DropPath(rules[i].pathRules, path)| < |rules[i].pathRules|
    ensures IsCanonical(rules[i := rules[i].(pathRules := DropPath(rules[i].pathRules, path))])
            <==> !SharesBlock(rules, i)
  {
    hide Settled, Grouped, GroupOf, DedupKey, IsDeny, SpanOf, DropPath;
    var prs := DropPath(rules[i].pathRules, path);
    var r := rules[i].(pathRules := prs);
    var out := rules[i := r];
    PathsAreInvisible(rules[i], prs);
    DropPathSettled(rules[i], path);
    if SharesBlock(rules, i) {
      var j :| 0 <= j < |rules| && j != i && SameGroup(rules[i], rules[j]) && IsDeny(rules[i]) == IsDeny(rules[j]);
      SiblingBreaks(rules, out, if i < j then i else j, if i < j then j else i);
    } else {
      forall a, b | 0 <= a < b < |out| ensures InOrder(out[a], out[b]) {
        assert InOrder(rules[a], rules[b]);
      }
      forall a, b, c | 0 <= a < b < c < |out| && SameGroup(out[a], out[c]) ensures SameGroup(out[a], out[b]) {
        assert SameGroup(rules[a], rules[c]);
        assert SameGroup(rules[a], rules[b]);
      }
    }
  }

  lemma SiblingBreaks(rules: seq<Rule>, out: seq<Rule>, a: nat, b: nat)
    requires IsCanonical(rules) && |out| == |rules| && a < b < |rules|
    requires SameGroup(rules[a], rules[b]) && IsDeny(rules[a]) == IsDeny(rules[b])
    requires SameGroup(out[a], out[b]) && IsDeny(out[a]) == IsDeny(out[b])
    requires (out[a].pathRules == rules[a].pathRules) != (out[b].pathRules == rules[b].pathRules)
    ensures !IsCanonical(out)
  {
    hide Settled, Grouped, GroupOf, DedupKey, IsDeny, SpanOf;
    assert InOrder(rules[a], rules[b]);
    assert !InOrder(out[a], out[b]);
  }

  // ---------------------------------------------------------------- runs of transactions

  datatype Op = Add(rules: seq<Rule>) | Remove(rule: Rule) | RemoveOnePath(rule: Rule, path: string)

  function Apply(stored: seq<Rule>, op: Op): seq<Rule> {
    match op
    case Add(rules) => AddRules(stored, rules).stored
    case Remove(rule) => RemoveRule(stored, rule).stored
    case RemoveOnePath(rule, path) => RemovePath(stored, rule, path).stored
  }

  /** What a caller must respect: plain protocol tokens, and no path removal on one of several
      spans that one rule was split into. */
  ghost predicate Respects(stored: seq<Rule>, op: Op) {
    match op
    case Add(rules) => Plain(rules)
    case Remove(_) => true
    case RemoveOnePath(rule, _) =>
      var i := FirstKey(Canonicalize(stored), RuleKey(NormalizeRule(rule)));
      i < |Canonicalize(stored)| ==> !SharesBlock(Canonicalize(stored), i)
  }

  ghost predicate Respectful(stored: seq<Rule>, ops: seq<Op>)
    decreases |ops|
  {
    ops != [] ==> Respects(stored, ops[0]) && Respectful(Apply(stored, ops[0]), ops[1..])
  }

  function Run(stored: seq<Rule>, ops: seq<Op>): seq<Rule>
    decreases |ops|
  {
    if ops == [] then stored else Run(Apply(stored, ops[0]), ops[1..])
  }

  lemma {:induction false} KeepPlain(rules: seq<Rule>, key: string)
    requires Plain(rules)
    ensures Plain(Keep(rules, key))
  {
    hide PlainProto, RuleKey;
    if rules != [] {
      KeepPlain(rules[1..], key);
      assert PlainProto(rules[0]);
    }
  }

  lemma ApplyKeeps(stored: seq<Rule>, op: Op)
    requires IsCanonical(stored) && Plain(stored) && Respects(stored, op)
    ensures IsCanonical(Apply(stored, op)) && Plain(Apply(stored, op))
  {
    hide IsCanonical, PlainProto, RuleKey, NormalizeRule, Canonicalize, DropPath;
    CanonicalIsFixed(stored);
    match op {
      case Add(rules) =>
        ChangeGate(stored, rules);
        AddKeepsPlain(stored, rules);
      case Remove(rule) =>
        var key := RuleKey(NormalizeRule(rule));
        var idx := KeepPicks(stored, key);
        PicksCanonical(Keep(stored, key), stored, idx);
        KeepPlain(stored, key);
      case RemoveOnePath(rule, path) =>
        var i := FirstKey(stored, RuleKey(NormalizeRule(rule)));
        if i < |stored| && |DropPath(stored[i].pathRules, path)| < |stored[i].pathRules| {
          PathRemovalIff(stored, i, path);
          ReplacePlain(stored, i, DropPath(stored[i].pathRules, path));
        }
    }
  }

  lemma ReplacePlain(rules: seq<Rule>, i: nat, prs: seq<PathRule>)
    requires Plain(rules) && i < |rules|
    ensures Plain(rules[i := rules[i].(pathRules := prs)])
  {
    var out := rules[i := rules[i].(pathRules := prs)];
    forall r | r in out ensures PlainProto(r) {
      var j :| 0 <= j < |out| && out[j] == r;
      assert PlainProto(rules[j]);
    }
  }

  /** A canonical store is canonical after any run of adds, removals and path removals. */
  lemma {:induction false} RunKeepsCanonical(stored: seq<Rule>, ops: seq<Op>)
    requires IsCanonical(stored) && Plain(stored) && Respectful(stored, ops)
    ensures IsCanonical(Run(stored, ops)) && Canonicalize(Run(stored, ops)) == Run(stored, ops)
    decreases |ops|
  {
    hide IsCanonical, Plain, Apply, Respects, Canonicalize;
    if ops == [] {
      CanonicalIsFixed(stored);
    } else {
      ApplyKeeps(stored, ops[0]);
      RunKeepsCanonical(Apply(stored, ops[0]), ops[1..]);
    }
  }

  // ---------------------------------------------------------------- the store

  /** Where each path was last seen. */
  ghost predicate Indexes(index: map<string, nat>, prs: seq<PathRule>) {
    forall q :: if LastPath(prs, q) < |prs| then q in index && index[q] == LastPath(prs, q) else q !in index
  }

  method IndexPaths(prs: seq<PathRule>) returns (index: map<string, nat>)
    ensures Indexes(index, prs)
  {
    index := map[];
    for i := 0 to |prs|
      invariant Indexes(index, prs[..i])
    {
      assert prs[..i + 1] == prs[..i] + [prs[i]];
      assert prs[..i + 1][..i] == prs[..i];
      index := index[prs[i].path := i];
    }
    assert prs[..|prs|] == prs;
  }

  method MergePaths(existing: seq<PathRule>, incoming: seq<PathRule>) returns (out: seq<PathRule>)
    ensures out == MergePathRules(existing, incoming)
  {
    if |incoming| == 0 {
      return existing;
    }
    out := existing;
    var index := IndexPaths(out);
    for i := 0 to |incoming|
      invariant MergePathRules(out, incoming[i..]) == MergePathRules(existing, incoming)
      invariant Indexes(index, out)
    {
      assert incoming[i..][0] == incoming[i] && incoming[i..][1..] == incoming[i + 1..];
      out, index := PutIndexed(out, index, incoming[i]);
    }
  }

  method PutIndexed(prs: seq<PathRule>, index: map<string, nat>, p: PathRule)
    returns (out: seq<PathRule>, index': map<string, nat>)
    requires Indexes(index, prs)
    ensures out == PutPath(prs, p) && Indexes(index', out)
  {
    assert p.path in index <==> LastPath(prs, p.path) < |prs|;
    if p.path in index {
      out, index' := prs[index[p.path] := p], index;
    } else {
      out, index' := prs + [p], index[p.path := |prs|];
    }
    forall q ensures if LastPath(out, q) < |out| then q in index' && index'[q] == LastPath(out, q) else q !in index' {
      PutPathPosition(prs, p, q);
    }
  }

  class RuleStore {
    var rules: seq<Rule>

    constructor (initial: seq<Rule>)
      ensures rules == initial
    {
      rules := initial;
    }

    method AddRulesToStore(incoming: seq<Rule>) returns (statuses: seq<AddStatus>)
      requires Plain(rules) && Plain(incoming)
      modifies this
      ensures rules == AddRules(old(rules), incoming).stored
      ensures statuses == AddRules(old(rules), incoming).statuses
    {
      hide Canonicalize, MergeBatch, MergeRule, Plain, IsCanonical;
      var before := NormalizeAndDedup(rules);
      var existing: seq<Rule>;
      existing, statuses := MergeIncoming(before, NormalizeAll(incoming));
      var after := NormalizeAndDedup(existing);
      AddKeepsPlain(rules, incoming);
      CanonicalizeIsCanonical(rules);
      CanonicalizeIsCanonical(existing);
      CanonicalKeysDistinct(before);
      CanonicalKeysDistinct(after);
      var same := RulesCanonicalEqual(before, after);
      if same {
        statuses := AllUnchanged(|incoming|);
      } else {
        rules := after;
      }
    }

    method RemoveRuleFromStore(target: Rule) returns (matched: bool)
      modifies this
      ensures rules == RemoveRule(old(rules), target).stored
      ensures matched == RemoveRule(old(rules), target).matched
    {
      hide RuleKey, NormalizeRule, Canonicalize, Keep;
      var key := RuleKey(NormalizeRule(target));
      var normalized := NormalizeAndDedup(rules);
      var filtered: seq<Rule> := [];
      matched := false;
      assert normalized[0..] == normalized && filtered + Keep(normalized, key) == Keep(normalized, key);
      for i := 0 to |normalized|
        invariant filtered + Keep(normalized[i..], key) == Keep(normalized, key)
        invariant matched <==> HasKey(normalized[..i], key)
        invariant rules == old(rules)
      {
        KeepStep(normalized, i, key, filtered);
        assert normalized[..i + 1] == normalized[..i] + [normalized[i]];
        if RuleKey(normalized[i]) == key {
          matched := true;
        } else {
          filtered := filtered + [normalized[i]];
        }
      }
      assert normalized[..|normalized|] == normalized;
      KeepNothing(normalized, key);
      assert filtered + [] == filtered;
      if matched {
        rules := filtered;
      }
    }

    method RemovePathRuleFromStore(target: Rule, path: string) returns (matched: bool)
      modifies this
      ensures rules == RemovePath(old(rules), target, path).stored
      ensures matched == RemovePath(old(rules), target, path).matched
    {
      hide RuleKey, NormalizeRule, Canonicalize;
      var key := RuleKey(NormalizeRule(target));
      var normalized := NormalizeAndDedup(rules);
      var idx := 0;
      while idx < |normalized| && RuleKey(normalized[idx]) != key
        invariant 0 <= idx <= FirstKey(normalized, key)
      {
        idx := idx + 1;
      }
      if idx == |normalized| {
        return false;
      }
      var filtered;
      filtered, matched := FilterPaths(normalized[idx].pathRules, path);
      if matched {
        rules := normalized[idx := normalized[idx].(pathRules := filtered)];
      }
    }
  }

  method FilterPaths(prs: seq<PathRule>, path: string) returns (filtered: seq<PathRule>, matched: bool)
    ensures filtered == DropPath(prs, path)
    ensures matched <==> |filtered| < |prs|
  {
    hide DropPath;
    filtered, matched := [], false;
    assert prs[0..] == prs && filtered + DropPath(prs, path) == DropPath(prs, path);
    for i := 0 to |prs|
      invariant filtered + DropPath(prs[i..], path) == DropPath(prs, path)
      invariant |filtered| <= i && (matched <==> |filtered| < i)
    {
      DropPathStep(prs, i, path, filtered);
      if prs[i].path == path {
        matched := true;
      } else {
        filtered := filtered + [prs[i]];
      }
    }
    DropNothing(prs, path);
    assert filtered + [] == filtered;
  }

  lemma KeepStep(rules: seq<Rule>, i: nat, key: string, filtered: seq<Rule>)
    requires i < |rules|
    ensures filtered + Keep(rules[i..], key) ==
            (if RuleKey(rules[i]) == key then filtered else filtered + [rules[i]]) + Keep(rules[i + 1..], key)
  {
    hide RuleKey;
    assert rules[i..][0] == rules[i] && rules[i..][1..] == rules[i + 1..];
    Assoc(filtered, [rules[i]], Keep(rules[i + 1..], key));
  }

  lemma KeepNothing(rules: seq<Rule>, key: string)
    ensures Keep(rules[|rules|..], key) == []
  {
  }

  lemma DropPathStep(prs: seq<PathRule>, i: nat, path: string, filtered: seq<PathRule>)
    requires i < |prs|
    ensures filtered + DropPath(prs[i..], path) ==
            (if prs[i].path == path then filtered else filtered + [prs[i]]) + DropPath(prs[i + 1..], path)
  {
    assert prs[i..][0] == prs[i] && prs[i..][1..] == prs[i + 1..];
    Assoc(filtered, [prs[i]], DropPath(prs[i + 1..], path));
  }

  lemma DropNothing(prs: seq<PathRule>, path: string)
    ensures DropPath(prs[|prs|..], path) == []
  {
  }

  lemma CanonicalKeysDistinct(rules: seq<Rule>)
    requires IsCanonical(rules)
    ensures DistinctKeys(rules)
  {
    hide Settled, SameGroup, DedupKey;
    forall i, j | 0 <= i < j < |rules| ensures DedupKey(rules[i]) != DedupKey(rules[j]) {
      assert InOrder(rules[i], rules[j]);
    }
  }

  /** Where each key was last stored. */
  ghost predicate KeyIndexes(index: map<string, nat>, rules: seq<Rule>) {
    forall k :: if LastKey(rules, k) < |rules| then k in index && index[k] == LastKey(rules, k) else k !in index
  }

  method IndexKeys(rules: seq<Rule>) returns (index: map<string, nat>)
    ensures KeyIndexes(index, rules)
  {
    hide RuleKey;
    index := map[];
    for i := 0 to |rules|
      invariant KeyIndexes(index, rules[..i])
    {
      assert rules[..i + 1] == rules[..i] + [rules[i]];
      assert rules[..i + 1][..i] == rules[..i];
      index := index[RuleKey(rules[i]) := i];
    }
    assert rules[..|rules|] == rules;
  }

  /** The merge loop of addRulesToStore. */
  method MergeIncoming(before: seq<Rule>, normalized: seq<Rule>)
    returns (existing: seq<Rule>, statuses: seq<AddStatus>)
    ensures Batch(existing, statuses) == MergeBatch(before, normalized)
  {
    hide MergeOne, KeyIndexes;
    existing, statuses := before, [];
    var index: map<string, nat>;
    index := IndexKeys(existing);
    for i := 0 to |normalized|
      invariant Batch(existing, statuses) == MergeBatch(before, normalized[..i])
      invariant KeyIndexes(index, existing)
    {
      assert normalized[..i + 1][..i] == normalized[..i];
      existing, statuses, index := MergeStep(existing, statuses, index, normalized[i]);
    }
    assert normalized[..|normalized|] == normalized;
  }

  method MergeStep(existing: seq<Rule>, statuses: seq<AddStatus>, index: map<string, nat>, r: Rule)
    returns (existing': seq<Rule>, statuses': seq<AddStatus>, index': map<string, nat>)
    requires KeyIndexes(index, existing)
    ensures Batch(existing', statuses') == MergeOne(Batch(existing, statuses), r)
    ensures KeyIndexes(index', existing')
  {
    hide RuleKey, MergeRule;
    existing', index' := existing, index;
    var key := RuleKey(r);
    assert key in index <==> LastKey(existing, key) < |existing|;
    if key in index {
      var j := index[key];
      var merged := MergeRule(existing[j], r);
      MergeRuleKey(existing[j], r);
      if merged == existing[j] {
        statuses' := statuses + [Unchanged];
      } else {
        KeysKept(existing, j, merged);
        existing' := existing[j := merged];
        statuses' := statuses + [Modified];
      }
    } else {
      KeyAppended(existing, r);
      index' := index[key := |existing|];
      existing' := existing + [r];
      statuses' := statuses + [Added];
    }
  }
}

/** NormalizeAndDedup and resolveOpaquePortConflicts as the loops they are: one pass that
    fills a map of groups and an order of emission slots, one pass that emits. */
module Normalizer {
  import opened Text
  import opened Rules
  import opened Spans
  import opened Canonical

  /** Where something is emitted: a rule as it stands, or a whole group. */
  datatype Slot = Verbatim(rule: Rule) | GroupSlot(key: GroupId)

  datatype Group = Group(
    allowTmpl: Option<Rule>, denyTmpl: Option<Rule>,
    allowSpans: seq<Span>, denySpans: seq<Span>)

  function First(rules: seq<Rule>): Option<Rule> {
    if rules == [] then None else Some(rules[0])
  }

  /** What the map holds for a group once these rules have been seen. */
  function Collected(k: GroupId, rules: seq<Rule>): Group {
    var allow, deny := Members(k, false, rules), Members(k, true, rules);
    Group(First(allow), First(deny), SpansOf(allow), SpansOf(deny))
  }

  predicate Seen(k: GroupId, rules: seq<Rule>) { exists r :: r in rules && InGroup(r, k) }

  function Slots(rules: seq<Rule>): seq<Slot>
    decreases |rules|
  {
    if rules == [] then []
    else if !Grouped(rules[0]) then [Verbatim(rules[0])] + Slots(rules[1..])
    else [GroupSlot(GroupOf(rules[0]))] + Slots(Without(GroupOf(rules[0]), rules[1..]))
  }

  function EmitSlot(slot: Slot, rules: seq<Rule>): seq<Rule> {
    match slot
    case Verbatim(r) => [r]
    case GroupSlot(k) => EmitGroup(k, rules)
  }

  function EmitSlots(slots: seq<Slot>, rules: seq<Rule>): seq<Rule> {
    if slots == [] then [] else EmitSlot(slots[0], rules) + EmitSlots(slots[1..], rules)
  }

  function NewSlot(rules: seq<Rule>, r: Rule): seq<Slot> {
    if !Grouped(r) then [Verbatim(r)]
    else if Seen(GroupOf(r), rules) then []
    else [GroupSlot(GroupOf(r))]
  }

  lemma {:induction false} WithoutSnoc(k: GroupId, rules: seq<Rule>, r: Rule)
    ensures Without(k, rules + [r]) == Without(k, rules) + (if InGroup(r, k) then [] else [r])
  {
    hide InGroup;
    if rules == [] {
      assert rules + [r] == [r];
    } else {
      WithoutSnoc(k, rules[1..], r);
      assert (rules + [r])[0] == rules[0] && (rules + [r])[1..] == rules[1..] + [r];
      var head := if InGroup(rules[0], k) then [] else [rules[0]];
      assert Without(k, rules + [r]) == head + Without(k, rules[1..] + [r]);
    }
  }

  lemma SeenCons(k: GroupId, head: Rule, tail: seq<Rule>)
    ensures Seen(k, [head] + tail) <==> InGroup(head, k) || Seen(k, tail)
  {
    hide InGroup;
    assert forall x :: x in [head] + tail <==> x == head || x in tail;
  }

  lemma SeenWithout(k: GroupId, k': GroupId, rules: seq<Rule>)
    requires k != k'
    ensures Seen(k, Without(k', rules)) <==> Seen(k, rules)
  {
    hide Grouped, GroupOf;
    WithoutIn(k', rules);
  }

  /** Seeing one more rule adds at most one slot, at the end. */
  lemma {:induction false} SlotsSnoc(rules: seq<Rule>, r: Rule)
    ensures Slots(rules + [r]) == Slots(rules) + NewSlot(rules, r)
    decreases |rules|
  {
    hide Grouped, GroupOf, Seen;
    if rules == [] {
      assert rules + [r] == [r];
      assert Without(GroupOf(r), []) == [];
      assert !Seen(GroupOf(r), []) by { SeenNothing(GroupOf(r)); }
    } else {
      var head, tail, key := rules[0], rules[1..], GroupOf(r);
      assert (rules + [r])[1..] == tail + [r];
      assert rules == [head] + tail;
      SeenCons(key, head, tail);
      if !Grouped(head) {
        SlotsSnoc(tail, r);
        assert NewSlot(rules, r) == NewSlot(tail, r);
      } else {
        var k := GroupOf(head);
        WithoutSnoc(k, tail, r);
        if InGroup(r, k) {
          assert Without(k, tail + [r]) == Without(k, tail) && NewSlot(rules, r) == [];
        } else {
          SlotsSnoc(Without(k, tail), r);
          if Grouped(r) {
            SeenWithout(key, k, tail);
          }
          assert NewSlot(rules, r) == NewSlot(Without(k, tail), r);
        }
      }
    }
  }

  lemma SeenNothing(k: GroupId)
    ensures !Seen(k, [])
  {
  }

  lemma {:induction false} EmitSlotsResolve(sub: seq<Rule>, all: seq<Rule>)
    requires forall k :: Seen(k, sub) ==> EmitGroup(k, sub) == EmitGroup(k, all)
    ensures EmitSlots(Slots(sub), all) == Resolve(sub)
    decreases |sub|
  {
    hide Grouped, GroupOf, EmitGroup;
    if sub != [] {
      var head, tail := sub[0], sub[1..];
      assert sub == [head] + tail;
      if !Grouped(head) {
        forall k | Seen(k, tail) ensures EmitGroup(k, tail) == EmitGroup(k, all) {
          assert Seen(k, sub);
          EmitSkipsHead(k, sub);
        }
        EmitSlotsResolve(tail, all);
      } else {
        var k0 := GroupOf(head);
        var rest := Without(k0, tail);
        WithoutIn(k0, tail);
        assert InGroup(head, k0);
        assert Seen(k0, sub);
        forall k | Seen(k, rest) ensures EmitGroup(k, rest) == EmitGroup(k, all) {
          assert Seen(k, sub) && k != k0;
          EmitWithout(k, k0, tail);
          EmitSkipsHead(k, sub);
        }
        EmitSlotsResolve(rest, all);
      }
    }
  }

  lemma {:induction false} EmitSlotsSnoc(slots: seq<Slot>, slot: Slot, rules: seq<Rule>)
    ensures EmitSlots(slots + [slot], rules) == EmitSlots(slots, rules) + EmitSlot(slot, rules)
  {
    hide EmitSlot;
    if slots == [] {
      assert slots + [slot] == [slot];
    } else {
      EmitSlotsSnoc(slots[1..], slot, rules);
      assert (slots + [slot])[1..] == slots[1..] + [slot];
    }
  }

  lemma CollectedSnoc(k: GroupId, rules: seq<Rule>, r: Rule)
    ensures Collected(k, rules + [r]) ==
            var g := Collected(k, rules);
            if Member(r, k, true) then
              g.(denyTmpl := if g.denyTmpl.None? then Some(r) else g.denyTmpl, denySpans := g.denySpans + [SpanOf(r)])
            else if Member(r, k, false) then
              g.(allowTmpl := if g.allowTmpl.None? then Some(r) else g.allowTmpl, allowSpans := g.allowSpans + [SpanOf(r)])
            else g
  {
    hide Grouped, GroupOf, IsDeny, SpanOf;
    MembersAppend(k, true, rules, [r]);
    MembersAppend(k, false, rules, [r]);
    assert Members(k, true, [r]) == (if Member(r, k, true) then [r] else []);
    assert Members(k, false, [r]) == (if Member(r, k, false) then [r] else []);
  }

  method EmitSpans(template: Rule, spans: seq<Span>) returns (out: seq<Rule>)
    requires AllValid(spans)
    ensures out == Stamp([template], spans)
  {
    out := [];
    for i := 0 to |spans|
      invariant |out| == i
      invariant forall j :: 0 <= j < i ==> out[j] == template.(port := FormatSpan(spans[j]))
    {
      assert spans[i] in spans;
      out := out + [template.(port := FormatSpan(spans[i]))];
    }
  }

  method SinglePorts(allow: seq<Span>) returns (singles: set<int>)
    ensures forall p :: p in singles <==> Span(p, p) in allow
  {
    singles := {};
    for i := 0 to |allow|
      invariant forall p :: p in singles <==> Span(p, p) in allow[..i]
    {
      assert allow[..i + 1] == allow[..i] + [allow[i]];
      if allow[i].lo == allow[i].hi {
        singles := singles + {allow[i].lo};
      }
    }
    assert allow[..|allow|] == allow;
  }

  /** The one-port deny spans that meet a one-port allow span are not carved. */
  method CarveableSpans(deny: seq<Span>, allow: seq<Span>) returns (carve: seq<Span>)
    ensures carve == CarveSet(deny, allow)
  {
    var allowSingles := SinglePorts(allow);
    hide SingleClash;
    carve := [];
    for i := 0 to |deny|
      invariant carve + CarveSet(deny[i..], allow) == CarveSet(deny, allow)
    {
      var d := deny[i];
      ClashTest(d, allow, allowSingles);
      assert deny[i..][0] == d && deny[i..][1..] == deny[i + 1..];
      if !(d.lo == d.hi && d.lo in allowSingles) {
        carve := carve + [d];
      }
    }
  }

  lemma ClashTest(d: Span, allow: seq<Span>, singles: set<int>)
    requires forall p :: p in singles <==> Span(p, p) in allow
    ensures SingleClash(d, allow) <==> d.lo == d.hi && d.lo in singles
  {
    assert d == Span(d.lo, d.hi);
  }

  /** Merge both actions, then carve: the spans one group ends up with. */
  method ResolveSpans(allowSpans: seq<Span>, denySpans: seq<Span>)
    returns (deny: seq<Span>, allow: seq<Span>)
    requires Proper(allowSpans) && Proper(denySpans)
    ensures deny == Merge(denySpans)
    ensures allow == Subtract(Merge(allowSpans), CarveSet(Merge(denySpans), Merge(allowSpans)))
  {
    deny := MergeOverlappingSpans(denySpans);
    var mergedAllow := MergeOverlappingSpans(allowSpans);
    hide Merge, Subtract, CarveSet;
    var carve := CarveableSpans(deny, mergedAllow);
    MergeMeaning(denySpans);
    CarveSetIn(deny, mergedAllow);
    allow := SubtractSpans(mergedAllow, carve);
  }

  method EmitCollected(g: Group, k: GroupId, ghost rules: seq<Rule>) returns (out: seq<Rule>)
    requires g == Collected(k, rules)
    ensures out == EmitGroup(k, rules)
  {
    CollectedSpans(k, rules);
    hide Member, EmitGroup, FormatSpan, SpansOf, Members, MergedSpans, AllowedSpans;
    var mergedDeny, allowOut := ResolveSpans(g.allowSpans, g.denySpans);
    out := [];
    if g.denyTmpl.Some? {
      out := EmitSpans(g.denyTmpl.value, mergedDeny);
    }
    assert out == Stamp(Members(k, true, rules), MergedSpans(k, true, rules));
    if g.allowTmpl.Some? {
      var rest := EmitSpans(g.allowTmpl.value, allowOut);
      assert rest == Stamp(Members(k, false, rules), AllowedSpans(k, rules));
      out := out + rest;
    }
    EmitGroupParts(k, rules);
  }

  lemma CollectedSpans(k: GroupId, rules: seq<Rule>)
    ensures var g := Collected(k, rules);
            && Proper(g.allowSpans) && Proper(g.denySpans)
            && MergedSpans(k, true, rules) == Merge(g.denySpans)
            && AllowedSpans(k, rules) == Subtract(Merge(g.allowSpans), CarveSet(Merge(g.denySpans), Merge(g.allowSpans)))
  {
    hide Grouped, GroupOf, IsDeny, SpanOf, Merge, Subtract, CarveSet;
    MembersIn(k, true, rules);
    MembersIn(k, false, rules);
    GroupedSpansValid(Members(k, true, rules));
    GroupedSpansValid(Members(k, false, rules));
  }

  lemma EmitGroupParts(k: GroupId, rules: seq<Rule>)
    ensures EmitGroup(k, rules) ==
            Stamp(Members(k, true, rules), MergedSpans(k, true, rules))
            + Stamp(Members(k, false, rules), AllowedSpans(k, rules))
  {
  }

  method ResolveOpaquePortConflicts(rules: seq<Rule>) returns (out: seq<Rule>)
    ensures out == Resolve(rules)
  {
    hide EmitGroup, Collected, Resolve;
    var groups: map<GroupId, Group> := map[];
    var order: seq<Slot> := [];
    for i := 0 to |rules|
      invariant order == Slots(rules[..i])
      invariant forall k :: k in groups <==> Seen(k, rules[..i])
      invariant forall k :: k in groups ==> groups[k] == Collected(k, rules[..i])
    {
      var r := rules[i];
      groups, order := Collect(groups, order, rules[..i], r);
      assert rules[..i + 1] == rules[..i] + [r];
    }
    assert rules[..|rules|] == rules;
    out := [];
    for j := 0 to |order|
      invariant out == EmitSlots(order[..j], rules)
    {
      assert order[..j + 1] == order[..j] + [order[j]];
      EmitSlotsSnoc(order[..j], order[j], rules);
      SlotKnown(rules, order[j]);
      match order[j] {
        case Verbatim(r) => out := out + [r];
        case GroupSlot(k) =>
          var part := EmitCollected(groups[k], k, rules);
          out := out + part;
      }
    }
    assert order[..|order|] == order;
    EmitSlotsResolve(rules, rules);
  }

  lemma {:induction false} SlotKnown(rules: seq<Rule>, slot: Slot)
    requires slot in Slots(rules)
    ensures slot.GroupSlot? ==> Seen(slot.key, rules)
    decreases |rules|
  {
    hide Grouped, GroupOf;
    var head, tail := rules[0], rules[1..];
    assert rules == [head] + tail;
    if !Grouped(head) {
      if slot in Slots(tail) {
        SlotKnown(tail, slot);
      }
    } else {
      var k := GroupOf(head);
      assert InGroup(head, k);
      WithoutIn(k, tail);
      if slot in Slots(Without(k, tail)) {
        SlotKnown(Without(k, tail), slot);
      }
    }
  }

  /** One step of the first pass. */
  method Collect(groups: map<GroupId, Group>, order: seq<Slot>, ghost before: seq<Rule>, r: Rule)
    returns (groups': map<GroupId, Group>, order': seq<Slot>)
    requires order == Slots(before)
    requires forall k :: k in groups <==> Seen(k, before)
    requires forall k :: k in groups ==> groups[k] == Collected(k, before)
    ensures order' == Slots(before + [r])
    ensures forall k :: k in groups' <==> Seen(k, before + [r])
    ensures forall k :: k in groups' ==> groups'[k] == Collected(k, before + [r])
  {
    hide Grouped, GroupOf, Collected, IsDeny, SpanOf;
    SlotsSnoc(before, r);
    forall k ensures Seen(k, before + [r]) <==> Seen(k, before) || InGroup(r, k) {
      SeenSnoc(k, before, r);
    }
    groups', order' := groups, order;
    if !Grouped(r) {
      order' := order + [Verbatim(r)];
    } else {
      var key := GroupOf(r);
      if key !in groups {
        EmptyCollected(key, before);
        groups' := groups[key := Group(None, None, [], [])];
        order' := order + [GroupSlot(key)];
      }
      var g := groups'[key];
      if IsDeny(r) {
        g := g.(denyTmpl := if g.denyTmpl.None? then Some(r) else g.denyTmpl, denySpans := g.denySpans + [SpanOf(r)]);
      } else {
        g := g.(allowTmpl := if g.allowTmpl.None? then Some(r) else g.allowTmpl, allowSpans := g.allowSpans + [SpanOf(r)]);
      }
      groups' := groups'[key := g];
    }
    forall k | k in groups' ensures groups'[k] == Collected(k, before + [r]) {
      CollectedSnoc(k, before, r);
    }
  }

  lemma SeenSnoc(k: GroupId, rules: seq<Rule>, r: Rule)
    ensures Seen(k, rules + [r]) <==> Seen(k, rules) || InGroup(r, k)
  {
    hide InGroup;
    assert forall x :: x in rules + [r] <==> x in rules || x == r;
  }

  lemma EmptyCollected(k: GroupId, rules: seq<Rule>)
    requires !Seen(k, rules)
    ensures Collected(k, rules) == Group(None, None, [], [])
  {
    hide Grouped, GroupOf, IsDeny;
    MembersNone(k, true, rules);
    MembersNone(k, false, rules);
  }

  method NormalizeAndDedup(rules: seq<Rule>) returns (out: seq<Rule>)
    ensures out == Canonicalize(rules)
  {
    hide Admissible, DedupKey, NormalizeRule, Resolve;
    var seen: set<string> := {};
    var kept: seq<Rule> := [];
    for i := 0 to |rules|
      invariant kept + Ingest(rules[i..], seen) == Ingest(rules, {})
    {
      assert rules[i..][1..] == rules[i + 1..];
      var r := NormalizeRule(rules[i]);
      if Admissible(r) && DedupKey(r) !in seen {
        seen := seen + {DedupKey(r)};
        kept := kept + [r];
      }
    }
    assert kept == Ingest(rules, {});
    out := ResolveOpaquePortConflicts(kept);
  }
}

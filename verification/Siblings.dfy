/** An allow range split by a deny: two spans of one rule, and what removing a path rule from
    one of them does. */
module Siblings {
  import opened Text
  import opened Rules
  import opened Spans
  import opened Canonical
  import opened StoreOps

  const PATHS := [PathRule("/a", "allow", [])]
  const WIDE := Rule("h", "tcp", "1-9", "allow", PATHS, "", false)
  const HOLE := Rule("h", "tcp", "5", "deny", [], "", false)
  const LOW := WIDE.(port := "1-4")
  const HIGH := WIDE.(port := "6-9")

  lemma PortTexts()
    ensures FormatSpan(Span(1, 9)) == "1-9" && FormatSpan(Span(1, 4)) == "1-4"
    ensures FormatSpan(Span(6, 9)) == "6-9" && FormatSpan(Span(5, 5)) == "5"
  {
  }

  lemma PortSpans()
    ensures SpanOf(WIDE) == Span(1, 9) && SpanOf(HOLE) == Span(5, 5) && SpanOf(LOW) == Span(1, 4) && SpanOf(HIGH) == Span(6, 9)
    ensures Grouped(WIDE) && Grouped(HOLE) && Grouped(LOW) && Grouped(HIGH)
  {
    PortTexts();
    hide ParsePortSpec, FormatSpan;
    FormatParseRoundTrip(Span(1, 9));
    FormatParseRoundTrip(Span(1, 4));
    FormatParseRoundTrip(Span(6, 9));
    FormatParseRoundTrip(Span(5, 5));
  }

  /** The four rules are stored as written, in one group, one of them a deny. */
  lemma Shape(r: Rule)
    requires r == WIDE || r == HOLE || r == LOW || r == HIGH
    ensures NormalizeRule(r) == r && NormalizeDomain(r.dst) == "h" && PlainProto(r)
    ensures GroupOf(r) == ("h", "tcp") && (IsDeny(r) <==> r == HOLE)
  {
    assert NormalizePathRules(r.pathRules) == r.pathRules;
    assert Lower("tcp") == "tcp" && Lower("allow") == "allow" && Lower("deny") == "deny";
  }

  lemma KeysDiffer()
    ensures DedupKey(WIDE) != DedupKey(HOLE) && DedupKey(HOLE) != DedupKey(LOW) && DedupKey(HOLE) != DedupKey(HIGH) && DedupKey(LOW) != DedupKey(HIGH)
    ensures RuleKey(HOLE) != RuleKey(LOW) && RuleKey(HOLE) != RuleKey(HIGH) && RuleKey(LOW) != RuleKey(HIGH)
  {
    hide IsDeny;
    var w, o, l, h := RuleKey(WIDE), RuleKey(HOLE), RuleKey(LOW), RuleKey(HIGH);
    assert w[6] == '1' && o[6] == '5' && l[6] == '1' && h[6] == '6';
    assert DedupKey(WIDE)[6] == w[6] && DedupKey(HOLE)[6] == o[6] && DedupKey(LOW)[6] == l[6] && DedupKey(HIGH)[6] == h[6];
  }

  lemma Ingested()
    ensures Ingest([WIDE, HOLE], {}) == [WIDE, HOLE]
  {
    hide NormalizeRule, NormalizeDomain, ParsePortSpec, DedupKey, IsDeny;
    Shape(WIDE);
    Shape(HOLE);
    PortSpans();
    KeysDiffer();
    IngestFixed([WIDE, HOLE], {});
  }

  lemma Grouping()
    ensures Members(("h", "tcp"), true, [WIDE, HOLE]) == [HOLE]
    ensures Members(("h", "tcp"), false, [WIDE, HOLE]) == [WIDE]
    ensures Without(("h", "tcp"), [HOLE]) == []
  {
    hide Grouped, GroupOf, IsDeny;
    Shape(WIDE);
    Shape(HOLE);
    PortSpans();
    var k := ("h", "tcp");
    MembersAppend(k, true, [WIDE], [HOLE]);
    MembersAppend(k, false, [WIDE], [HOLE]);
    WithoutAppend(k, [HOLE], []);
    assert [WIDE] + [HOLE] == [WIDE, HOLE] && [HOLE] + [] == [HOLE];
  }

  lemma Carved()
    ensures Merge([Span(5, 5)]) == [Span(5, 5)] && Merge([Span(1, 9)]) == [Span(1, 9)]
    ensures CarveSet([Span(5, 5)], [Span(1, 9)]) == [Span(5, 5)]
    ensures Subtract([Span(1, 9)], [Span(5, 5)]) == [Span(1, 4), Span(6, 9)]
  {
    MergeFixed([Span(5, 5)]);
    MergeFixed([Span(1, 9)]);
    assert CarveOne(6, 9, []) == [Span(6, 9)];
    assert CarveOne(1, 9, [Span(5, 5)]) == [Span(1, 4)] + CarveOne(6, 9, []);
    assert Sort([Span(5, 5)]) == [Span(5, 5)];
  }

  /** What the store holds after the range and the deny were added. */
  lemma SplitByDeny()
    ensures Canonicalize([WIDE, HOLE]) == [HOLE, LOW, HIGH]
  {
    hide Ingest, Merge, Subtract, CarveSet, Members, Without, Grouped, GroupOf, FormatSpan, SpanOf;
    Ingested();
    Grouping();
    Carved();
    PortSpans();
    PortTexts();
    Shape(WIDE);
    var k := ("h", "tcp");
    assert SpansOf([HOLE]) == [Span(5, 5)] && SpansOf([WIDE]) == [Span(1, 9)];
    assert MergedSpans(k, true, [WIDE, HOLE]) == [Span(5, 5)];
    assert AllowedSpans(k, [WIDE, HOLE]) == [Span(1, 4), Span(6, 9)];
    assert EmitGroup(k, [WIDE, HOLE]) == [HOLE] + [LOW, HIGH];
    assert [WIDE, HOLE][1..] == [HOLE];
    assert Resolve([WIDE, HOLE]) == EmitGroup(k, [WIDE, HOLE]) + Resolve([]);
    assert Resolve([]) == [];
  }

  lemma StoredCanonical()
    ensures IsCanonical([HOLE, LOW, HIGH]) && Canonicalize([HOLE, LOW, HIGH]) == [HOLE, LOW, HIGH]
  {
    hide Canonicalize, IsCanonical, NormalizeRule, NormalizeDomain, GroupOf, IsDeny;
    SplitByDeny();
    Shape(WIDE);
    Shape(HOLE);
    CanonicalizeIsCanonical([WIDE, HOLE]);
    CanonicalIsFixed([HOLE, LOW, HIGH]);
  }

  lemma RemovesLow()
    ensures RemovePath([HOLE, LOW, HIGH], LOW, "/a") == Removal([HOLE, LOW.(pathRules := []), HIGH], true)
  {
    hide Canonicalize, RuleKey, NormalizeRule, NormalizeDomain, GroupOf, IsDeny, DropPath;
    var stored := [HOLE, LOW, HIGH];
    StoredCanonical();
    Shape(LOW);
    KeysDiffer();
    Emptied();
    assert FirstKey(stored, RuleKey(LOW)) == 1;
    assert stored[1 := LOW.(pathRules := [])] == [HOLE, LOW.(pathRules := []), HIGH];
  }

  lemma LowHasSibling()
    ensures SharesBlock([HOLE, LOW, HIGH], 1)
  {
    hide NormalizeRule, NormalizeDomain, Grouped, GroupOf, IsDeny;
    Shape(LOW);
    Shape(HIGH);
    PortSpans();
    var stored := [HOLE, LOW, HIGH];
    assert SameGroup(stored[1], stored[2]) && IsDeny(stored[1]) == IsDeny(stored[2]);
  }

  /** Removing the path rule from the lower span is reported as done, and leaves a list that is
      not canonical: the upper span still carries it, so reading the list back changes it again. */
  lemma SiblingRemovalBreaks()
    ensures var stored := Canonicalize([WIDE, HOLE]);
            var removal := RemovePath(stored, LOW, "/a");
            && IsCanonical(stored) && removal.matched
            && removal.stored == [HOLE, LOW.(pathRules := []), HIGH]
            && !IsCanonical(removal.stored) && Canonicalize(removal.stored) != removal.stored
  {
    hide Canonicalize, IsCanonical, SharesBlock, RemovePath, DropPath, NormalizeRule, NormalizeDomain, GroupOf, IsDeny;
    var stored := [HOLE, LOW, HIGH];
    SplitByDeny();
    StoredCanonical();
    RemovesLow();
    LowHasSibling();
    Emptied();
    PathRemovalIff(stored, 1, "/a");
    var left := [HOLE, LOW.(pathRules := []), HIGH];
    assert stored[1 := LOW.(pathRules := [])] == left;
    assert Plain(left);
    FixedPointIffCanonical(left);
  }

  lemma Emptied()
    ensures DropPath(PATHS, "/a") == []
  {
    assert PATHS[1..] == [];
  }
}

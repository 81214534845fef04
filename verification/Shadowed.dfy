/** A deny and an allow of one https host, at a real input: a path rule added to the deny is
    reported as stored and lost. */
module Shadowed {
  import opened Text
  import opened Rules
  import opened Canonical
  import opened Store
  import opened Adding

  const BLOCK := Rule("a", "https", "443", "deny", [], "", false)
  const PASS := Rule("a", "https", "443", "allow", [], "", false)
  const MORE := BLOCK.(pathRules := [PathRule("/x", "allow", [])])

  lemma Texts()
    ensures Lower("https") == "https" && Lower("deny") == "deny" && Lower("allow") == "allow"
  {
  }

  lemma Shape(r: Rule)
    requires r == BLOCK || r == PASS || r == MORE
    ensures Proper(r) && !IsOpaque(r) && !Grouped(r) && Settled(r) && (IsDeny(r) <==> r != PASS)
  {
    hide Lower, ParsePortSpec;
    Texts();
    DefaultPortsRead();
    assert NormalizePathRules(r.pathRules) == r.pathRules;
    assert NormalizeDomain("a") == "a";
    hide NormalizePathRules, NormalizeDomain;
  }

  lemma KeysDiffer()
    ensures RuleKey(BLOCK) == RuleKey(PASS) == RuleKey(MORE) && DedupKey(BLOCK) != DedupKey(PASS)
  {
    Shape(BLOCK);
    Shape(PASS);
    hide IsDeny;
    var key := RuleKey(PASS);
    assert DedupKey(BLOCK)[|key| + 1] == 'd' && DedupKey(PASS)[|key| + 1] == 'a';
  }

  lemma StoredAsGiven()
    ensures Canonicalize([BLOCK, PASS]) == [BLOCK, PASS]
  {
    hide Canonicalize, Settled, Grouped, DedupKey, IsDeny, SpanOf, GroupOf;
    Shape(BLOCK);
    Shape(PASS);
    KeysDiffer();
    CanonicalIsFixed([BLOCK, PASS]);
  }

  lemma Given()
    ensures NormalizeAll([MORE]) == [MORE] && Valid([BLOCK, PASS], [MORE])
  {
    hide Canonicalize;
    Shape(BLOCK);
    Shape(PASS);
    Shape(MORE);
    hide NormalizeRule, Admissible;
  }

  /** The path rule of the given deny is in no rule under its key afterwards: it is merged into
      the allow, which then repeats the deny that was there before it. */
  lemma PathRuleLost()
    ensures Was(Canonicalize([BLOCK, PASS]), RuleKey(MORE)) == Some(PASS) && NormalizeAll([MORE]) == [MORE]
    ensures !exists r :: r in After([BLOCK, PASS], [MORE]) && Outcome(r, Some(PASS), [MORE], RuleKey(MORE))
  {
    hide Canonicalize, RuleKey, After, Valid, NormalizeRule, IsOpaque, IsDeny, Lower, Proper, Settled, Grouped, Outcome;
    StoredAsGiven();
    Given();
    KeysDiffer();
    Texts();
    Shape(MORE);
    var key := RuleKey(MORE);
    assert NormalizeRule(MORE) == MORE by { assert NormalizeAll([MORE])[0] == MORE; }
    assert LastKey([BLOCK, PASS], key) == 1;
    assert Was([BLOCK, PASS], key) == Some(PASS);
    assert ActionGiven([MORE], key) == Some("deny");
    assert Shadows([BLOCK, PASS], [MORE], key, 0);
    NotTheOutcome(key);
    HeldIff([BLOCK, PASS], [MORE], 0);
  }

  lemma NotTheOutcome(key: string)
    requires RuleKey(MORE) == key
    ensures !Outcome(BLOCK, Some(PASS), [MORE], key)
  {
    hide RuleKey;
    assert LastPath(MORE.pathRules, "/x") == 0;
    assert PathGiven([MORE], key, "/x").Some?;
    assert LastPath([], "/x") == 0;
    assert Lookup(BLOCK.pathRules, "/x") == None;
  }
}

/** HTTP route lists: first match over the generated routes is the choice of the longest
    path rule that applies. */
module HttpRoutes {
  import opened Text
  import opened Rules

  // ---------------------------------------------------------------- routes

  datatype PathMatch = Prefix(path: string) | Regex(pattern: string)
  datatype MethodMatch = AnyMethod | Exact(verb: string) | Alternation(pattern: string)
  datatype Verdict = Allow | Deny
  datatype Route = Route(path: PathMatch, verbs: MethodMatch, verdict: Verdict)

  const REGEX_MARKER := '~'

  function PathSpecifier(path: string): PathMatch {
    if path != [] && path[0] == REGEX_MARKER then Regex(path[1..]) else Prefix(path)
  }

  function MethodHeaderMatch(methods: seq<string>): MethodMatch {
    if methods == [] then AnyMethod
    else if |methods| == 1 then Exact(methods[0])
    else Alternation(Join(methods, '|'))
  }

  function ActionVerdict(action: string): Verdict { if Lower(action) == "allow" then Allow else Deny }

  function RouteFor(pr: PathRule): Route {
    Route(PathSpecifier(pr.path), MethodHeaderMatch(pr.methods), ActionVerdict(pr.action))
  }

  /** An explicit default wins; otherwise one allow entry makes the rest denied. */
  function EffectivePathDefault(r: Rule): string {
    if r.pathDefault != "" then r.pathDefault
    else if exists pr :: pr in r.pathRules && Lower(pr.action) == "allow" then "deny"
    else "allow"
  }

  function DefaultVerdict(r: Rule): Verdict { if Lower(EffectivePathDefault(r)) == "deny" then Deny else Allow }

  function DefaultRoute(r: Rule): Route { Route(Prefix("/"), AnyMethod, DefaultVerdict(r)) }

  // ---------------------------------------------------------------- stable sort by path length

  function InsertByLength(pr: PathRule, sorted: seq<PathRule>): seq<PathRule> {
    if sorted == [] || |sorted[0].path| <= |pr.path| then [pr] + sorted
    else [sorted[0]] + InsertByLength(pr, sorted[1..])
  }

  /** Longest path first, equal lengths in their given order. */
  function SortByLength(prs: seq<PathRule>): seq<PathRule> {
    if prs == [] then [] else InsertByLength(prs[0], SortByLength(prs[1..]))
  }

  // ---------------------------------------------------------------- what a route list does

  /** Literal patterns are decided here; a regex path by the engine, a parameter. */
  predicate PathMatches(m: PathMatch, path: string, rx: (string, string) -> bool) {
    match m
    case Prefix(p) => p <= path
    case Regex(re) => rx(re, path)
  }

  predicate VerbMatches(m: MethodMatch, verb: string) {
    match m
    case AnyMethod => true
    case Exact(v) => verb == v
    case Alternation(re) => verb in Split(re, '|')
  }

  predicate RouteMatches(rt: Route, path: string, verb: string, rx: (string, string) -> bool) {
    PathMatches(rt.path, path, rx) && VerbMatches(rt.verbs, verb)
  }

  function FirstMatch(routes: seq<Route>, path: string, verb: string, rx: (string, string) -> bool): Option<Verdict> {
    if routes == [] then None
    else if RouteMatches(routes[0], path, verb, rx) then Some(routes[0].verdict)
    else FirstMatch(routes[1..], path, verb, rx)
  }

  function RoutesFor(prs: seq<PathRule>): (rs: seq<Route>)
    ensures |rs| == |prs| && forall i :: 0 <= i < |prs| ==> rs[i] == RouteFor(prs[i])
  {
    seq(|prs|, i requires 0 <= i < |prs| => RouteFor(prs[i]))
  }

  function RouteList(r: Rule): seq<Route> { RoutesFor(SortByLength(r.pathRules)) + [DefaultRoute(r)] }

  method BuildRoutes(r: Rule) returns (routes: seq<Route>)
    ensures routes == RouteList(r)
  {
    if r.pathRules == [] {
      return [DefaultRoute(r)];
    }
    var prs := SortByLength(r.pathRules);
    routes := [];
    for i := 0 to |prs|
      invariant routes == RoutesFor(prs)[..i]
    {
      routes := routes + [RouteFor(prs[i])];
    }
    routes := routes + [DefaultRoute(r)];
  }

  // ---------------------------------------------------------------- what the rules say

  /** A path rule applies to a request: its path is a prefix of the request's, or, behind a
      tilde, a pattern the engine accepts; and its methods, if any, name the verb. */
  predicate Applies(pr: PathRule, path: string, verb: string, rx: (string, string) -> bool) {
    && (if "~" <= pr.path then rx(pr.path[1..], path) else pr.path <= path)
    && (pr.methods == [] || verb in pr.methods)
  }

  /** What a rule says where no path rule applies: its own default if it gives one, and
      otherwise deny as soon as one path rule allows. */
  predicate DeniesRest(r: Rule) {
    if r.pathDefault != "" then Lower(r.pathDefault) == "deny"
    else exists pr :: pr in r.pathRules && Lower(pr.action) == "allow"
  }

  /** The longest applicable rule; among equals the first given. */
  ghost predicate Best(prs: seq<PathRule>, i: nat, path: string, verb: string, rx: (string, string) -> bool) {
    && i < |prs| && Applies(prs[i], path, verb, rx)
    && forall j :: 0 <= j < |prs| && Applies(prs[j], path, verb, rx) ==>
         |prs[j].path| < |prs[i].path| || (|prs[j].path| == |prs[i].path| && i <= j)
  }

  predicate SafeTokens(prs: seq<PathRule>) {
    forall pr, m :: pr in prs && m in pr.methods ==> '|' !in m
  }

  // ---------------------------------------------------------------- proofs

  lemma VerbsAsListed(pr: PathRule, verb: string)
    requires forall m :: m in pr.methods ==> '|' !in m
    ensures VerbMatches(MethodHeaderMatch(pr.methods), verb) <==> pr.methods == [] || verb in pr.methods
  {
    if |pr.methods| > 1 {
      SplitJoin(pr.methods, '|');
    }
  }

  lemma RouteMatchesIffApplies(pr: PathRule, path: string, verb: string, rx: (string, string) -> bool)
    requires forall m :: m in pr.methods ==> '|' !in m
    ensures RouteMatches(RouteFor(pr), path, verb, rx) <==> Applies(pr, path, verb, rx)
  {
    VerbsAsListed(pr, verb);
  }

  function FirstApplying(prs: seq<PathRule>, path: string, verb: string, rx: (string, string) -> bool): Option<PathRule> {
    if prs == [] then None
    else if Applies(prs[0], path, verb, rx) then Some(prs[0])
    else FirstApplying(prs[1..], path, verb, rx)
  }

  lemma {:induction false} FirstMatchApplies(prs: seq<PathRule>, d: Route, path: string, verb: string, rx: (string, string) -> bool)
    requires SafeTokens(prs)
    ensures FirstMatch(RoutesFor(prs) + [d], path, verb, rx) ==
            match FirstApplying(prs, path, verb, rx)
            case Some(pr) => Some(ActionVerdict(pr.action))
            case None => if RouteMatches(d, path, verb, rx) then Some(d.verdict) else None
  {
    hide RouteMatches, Applies, ActionVerdict;
    var all := RoutesFor(prs) + [d];
    if prs == [] {
      assert all == [d] && all[1..] == [];
    } else {
      assert prs[0] in prs && forall pr :: pr in prs[1..] ==> pr in prs;
      RouteMatchesIffApplies(prs[0], path, verb, rx);
      assert all[1..] == RoutesFor(prs[1..]) + [d];
      FirstMatchApplies(prs[1..], d, path, verb, rx);
    }
  }

  /** Inserting keeps the first applicable rule, unless the new one beats it. */
  lemma {:induction false} FirstApplyingInsert(pr: PathRule, sorted: seq<PathRule>, path: string, verb: string, rx: (string, string) -> bool)
    requires Descending(sorted)
    ensures Descending(InsertByLength(pr, sorted))
    ensures forall x :: x in InsertByLength(pr, sorted) <==> x == pr || x in sorted
    ensures FirstApplying(InsertByLength(pr, sorted), path, verb, rx) ==
            match FirstApplying(sorted, path, verb, rx)
            case None => if Applies(pr, path, verb, rx) then Some(pr) else None
            case Some(x) => if Applies(pr, path, verb, rx) && |pr.path| >= |x.path| then Some(pr) else Some(x)
  {
    hide Applies;
    if sorted == [] || |sorted[0].path| <= |pr.path| {
      assert InsertByLength(pr, sorted)[1..] == sorted;
      FirstApplyingIn(sorted, path, verb, rx);
    } else {
      FirstApplyingInsert(pr, sorted[1..], path, verb, rx);
      assert sorted == [sorted[0]] + sorted[1..];
      var rest := InsertByLength(pr, sorted[1..]);
      assert InsertByLength(pr, sorted)[1..] == rest;
      DescendingCons(sorted[0], rest, pr, sorted[1..]);
    }
  }

  ghost predicate Descending(prs: seq<PathRule>) {
    forall i, j :: 0 <= i < j < |prs| ==> |prs[i].path| >= |prs[j].path|
  }

  lemma DescendingCons(head: PathRule, rest: seq<PathRule>, pr: PathRule, tail: seq<PathRule>)
    requires Descending(rest) && Descending([head] + tail) && |pr.path| < |head.path|
    requires forall x :: x in rest <==> x == pr || x in tail
    ensures Descending([head] + rest)
  {
    forall x | x in rest ensures |x.path| <= |head.path| {
      if x in tail {
        var k :| 0 <= k < |tail| && tail[k] == x;
        assert ([head] + tail)[k + 1] == x && ([head] + tail)[0] == head;
      }
    }
  }

  lemma {:induction false} FirstApplyingIn(prs: seq<PathRule>, path: string, verb: string, rx: (string, string) -> bool)
    ensures FirstApplying(prs, path, verb, rx).Some? ==> FirstApplying(prs, path, verb, rx).value in prs
  {
    if prs != [] {
      FirstApplyingIn(prs[1..], path, verb, rx);
    }
  }

  lemma BestCons(prs: seq<PathRule>, i: nat, path: string, verb: string, rx: (string, string) -> bool)
    requires prs != [] && Best(prs[1..], i, path, verb, rx)
    ensures if Applies(prs[0], path, verb, rx) && |prs[0].path| >= |prs[1..][i].path|
            then Best(prs, 0, path, verb, rx) else Best(prs, i + 1, path, verb, rx)
  {
    hide Applies;
    assert forall j :: 0 < j < |prs| ==> prs[1..][j - 1] == prs[j];
  }

  /** The sorted list's first applicable rule is the best of the given list. */
  lemma {:induction false} SortedFirstIsBest(prs: seq<PathRule>, path: string, verb: string, rx: (string, string) -> bool)
    ensures Descending(SortByLength(prs))
    ensures forall x :: x in SortByLength(prs) <==> x in prs
    ensures match FirstApplying(SortByLength(prs), path, verb, rx)
            case None => forall j :: 0 <= j < |prs| ==> !Applies(prs[j], path, verb, rx)
            case Some(x) => exists i: nat :: Best(prs, i, path, verb, rx) && prs[i] == x
  {
    hide Applies;
    if prs != [] {
      SortedFirstIsBest(prs[1..], path, verb, rx);
      FirstApplyingInsert(prs[0], SortByLength(prs[1..]), path, verb, rx);
      assert prs == [prs[0]] + prs[1..];
      var before := FirstApplying(SortByLength(prs[1..]), path, verb, rx);
      if before.Some? {
        var i: nat :| Best(prs[1..], i, path, verb, rx) && prs[1..][i] == before.value;
        BestCons(prs, i, path, verb, rx);
        assert prs[i + 1] == prs[1..][i];
      } else {
        assert forall j :: 0 < j < |prs| ==> prs[1..][j - 1] == prs[j];
        assert Applies(prs[0], path, verb, rx) ==> Best(prs, 0, path, verb, rx);
      }
    }
  }

  lemma BestUnique(prs: seq<PathRule>, i: nat, j: nat, path: string, verb: string, rx: (string, string) -> bool)
    requires Best(prs, i, path, verb, rx) && Best(prs, j, path, verb, rx)
    ensures i == j
  {
  }

  lemma DefaultIsDeny(r: Rule)
    ensures DefaultVerdict(r) == if DeniesRest(r) then Deny else Allow
  {
    assert Lower("deny") == "deny" && Lower("allow") == "allow";
    hide Lower;
  }

  /** Every request gets the verdict of the longest applicable path rule, and the rule's path
      default when no path rule applies. */
  lemma RoutesRefineLongestRule(r: Rule, path: string, verb: string, rx: (string, string) -> bool)
    requires SafeTokens(r.pathRules)
    ensures forall i: nat :: Best(r.pathRules, i, path, verb, rx) ==>
              FirstMatch(RouteList(r), path, verb, rx) == Some(if Lower(r.pathRules[i].action) == "allow" then Allow else Deny)
    ensures (forall j :: 0 <= j < |r.pathRules| ==> !Applies(r.pathRules[j], path, verb, rx)) ==>
              FirstMatch(RouteList(r), path, verb, rx) == (if "/" <= path then Some(if DeniesRest(r) then Deny else Allow) else None)
    ensures (exists i: nat :: Best(r.pathRules, i, path, verb, rx))
            || forall j :: 0 <= j < |r.pathRules| ==> !Applies(r.pathRules[j], path, verb, rx)
  {
    DefaultIsDeny(r);
    hide Applies, DefaultVerdict, DeniesRest, Lower, FirstMatch, RoutesFor;
    var sorted := SortByLength(r.pathRules);
    SortedFirstIsBest(r.pathRules, path, verb, rx);
    FirstMatchApplies(sorted, DefaultRoute(r), path, verb, rx);
    forall i: nat, j: nat | Best(r.pathRules, i, path, verb, rx) && Best(r.pathRules, j, path, verb, rx) ensures i == j {
      BestUnique(r.pathRules, i, j, path, verb, rx);
    }
  }

  /** For literal path rules with distinct paths the best rule is the one with the longest
      matching prefix, with no ties to break. */
  lemma LongestPrefixWins(r: Rule, i: nat, path: string, verb: string, rx: (string, string) -> bool)
    requires SafeTokens(r.pathRules) && i < |r.pathRules|
    requires forall pr :: pr in r.pathRules ==> !("~" <= pr.path)
    requires forall j, k :: 0 <= j < k < |r.pathRules| ==> r.pathRules[j].path != r.pathRules[k].path
    requires r.pathRules[i].path <= path && (r.pathRules[i].methods == [] || verb in r.pathRules[i].methods)
    requires forall pr :: pr in r.pathRules && pr.path <= path && (pr.methods == [] || verb in pr.methods)
                          ==> |pr.path| <= |r.pathRules[i].path|
    ensures FirstMatch(RouteList(r), path, verb, rx) == Some(if Lower(r.pathRules[i].action) == "allow" then Allow else Deny)
  {
    hide FirstMatch, RouteList, Lower;
    var prs := r.pathRules;
    forall j | 0 <= j < |prs| && Applies(prs[j], path, verb, rx)
      ensures |prs[j].path| < |prs[i].path| || (|prs[j].path| == |prs[i].path| && i <= j)
    {
      assert prs[j] in prs;
      if |prs[j].path| == |prs[i].path| {
        assert prs[j].path == path[..|prs[j].path|] == prs[i].path;
      }
    }
    assert prs[i] in prs;
    assert Best(prs, i, path, verb, rx);
    RoutesRefineLongestRule(r, path, verb, rx);
  }
}

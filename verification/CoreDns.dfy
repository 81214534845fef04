/** The CoreDNS zone file: which zones the rules produce, and that looking a name up in them
    answers exactly as the rules say. */
module CoreDns {
  import opened Text
  import opened Rules
  import opened Dedicated
  import opened ValidateDst

  // ---------------------------------------------------------------- zones

  datatype Upstream = Resolver | DockerDns
  datatype Body = Forward(upstream: Upstream, exactOnly: bool) | Refuse
  datatype Zone = Zone(name: string, body: Body)

  const INTERNAL_HOSTS: seq<string> := ["docker.internal", "otel-collector", "prometheus"]

  predicate Reserved(d: string) { d in INTERNAL_HOSTS }

  predicate DeniesDomain(r: Rule, cls: Classifier) { IsDeny(r) && cls(r.dst) == Fqdn }
  predicate AllowsDomain(r: Rule, cls: Classifier) {
    (Lower(r.action) == "allow" || r.action == "") && cls(r.dst) == Fqdn
  }

  /** The domains the rules deny, allow, and allow with all their subdomains. */
  ghost function Denied(rules: seq<Rule>, cls: Classifier): set<string> {
    set r | r in rules && DeniesDomain(r, cls) && !Reserved(NormalizeDomain(r.dst)) :: NormalizeDomain(r.dst)
  }
  ghost function Allowed(rules: seq<Rule>, cls: Classifier): set<string> {
    set r | r in rules && AllowsDomain(r, cls) && !Reserved(NormalizeDomain(r.dst)) :: NormalizeDomain(r.dst)
  }
  ghost function Wild(rules: seq<Rule>, cls: Classifier): set<string> {
    set r | r in rules && AllowsDomain(r, cls) && IsWildcard(r.dst) && !Reserved(NormalizeDomain(r.dst)) :: NormalizeDomain(r.dst)
  }

  /** The zone a name has, if it has one. */
  ghost function ZoneBody(name: string, rules: seq<Rule>, cls: Classifier): Option<Body> {
    if Reserved(name) then Some(Forward(DockerDns, false))
    else if name in Denied(rules, cls) then Some(Refuse)
    else if name in Allowed(rules, cls) then Some(Forward(Resolver, name !in Wild(rules, cls)))
    else None
  }

  ghost predicate DistinctZones(zones: seq<Zone>) {
    forall i, j :: 0 <= i < j < |zones| ==> zones[i].name != zones[j].name
  }

  /** One zone for each name that has one, and no other. */
  ghost predicate ZonesOf(zones: seq<Zone>, rules: seq<Rule>, cls: Classifier) {
    && DistinctZones(zones)
    && (forall z :: z in zones ==> ZoneBody(z.name, rules, cls) == Some(z.body))
    && (forall name :: ZoneBody(name, rules, cls).Some? ==> exists z :: z in zones && z.name == name)
  }

  // ---------------------------------------------------------------- generation

  ghost predicate Lists(names: seq<string>, members: set<string>) {
    && (forall i, j :: 0 <= i < j < |names| ==> names[i] != names[j])
    && (forall n :: n in names <==> n in members)
  }

  lemma ListsMore(names: seq<string>, members: set<string>, n: string)
    requires Lists(names, members)
    ensures n !in members ==> Lists(names + [n], members + {n})
    ensures n in members ==> members + {n} == members
  {
  }

  lemma SetsMore(rules: seq<Rule>, i: nat, cls: Classifier)
    requires i < |rules|
    ensures var r, d := rules[i], NormalizeDomain(rules[i].dst);
            && Denied(rules[..i + 1], cls) == Denied(rules[..i], cls) + (if DeniesDomain(r, cls) && !Reserved(d) then {d} else {})
            && Allowed(rules[..i + 1], cls) == Allowed(rules[..i], cls) + (if AllowsDomain(r, cls) && !Reserved(d) then {d} else {})
            && Wild(rules[..i + 1], cls) == Wild(rules[..i], cls)
               + (if AllowsDomain(r, cls) && IsWildcard(r.dst) && !Reserved(d) then {d} else {})
  {
    hide NormalizeDomain, DeniesDomain, AllowsDomain, Reserved, IsWildcard;
    assert rules[..i + 1] == rules[..i] + [rules[i]];
  }

  lemma NotBoth(r: Rule, cls: Classifier)
    ensures !(DeniesDomain(r, cls) && AllowsDomain(r, cls))
  {
    assert Lower("") == "";
  }

  /** First pass: denied domains in order of appearance, and the wildcard domains. */
  method FirstPass(rules: seq<Rule>, cls: Classifier) returns (denyDomains: seq<string>, denySeen: set<string>, wildcard: set<string>)
    ensures denySeen == Denied(rules, cls) && wildcard == Wild(rules, cls) && Lists(denyDomains, denySeen)
  {
    hide Denied, Allowed, Wild, NormalizeDomain, Lists, Reserved, IsWildcard, IsDeny;
    denyDomains, denySeen, wildcard := [], {}, {};
    assert rules[..0] == [];
    EmptySets(cls);
    for i := 0 to |rules|
      invariant denySeen == Denied(rules[..i], cls) && wildcard == Wild(rules[..i], cls) && Lists(denyDomains, denySeen)
    {
      var r := rules[i];
      SetsMore(rules, i, cls);
      if cls(r.dst) != Fqdn {
        continue;
      }
      var domain := NormalizeDomain(r.dst);
      if Reserved(domain) {
        continue;
      }
      NotBoth(r, cls);
      if DeniesDomain(r, cls) {
        ListsMore(denyDomains, denySeen, domain);
        if domain !in denySeen {
          denySeen, denyDomains := denySeen + {domain}, denyDomains + [domain];
        }
      } else if AllowsDomain(r, cls) && IsWildcard(r.dst) {
        wildcard := wildcard + {domain};
      }
    }
    assert rules[..|rules|] == rules;
  }

  lemma EmptySets(cls: Classifier)
    ensures Denied([], cls) == {} && Allowed([], cls) == {} && Wild([], cls) == {} && Lists([], {})
  {
  }

  /** Second pass: allowed domains that are not denied. */
  method SecondPass(rules: seq<Rule>, cls: Classifier, denySeen: set<string>) returns (allowDomains: seq<string>)
    ensures Lists(allowDomains, Allowed(rules, cls) - denySeen)
  {
    hide Denied, Allowed, Wild, NormalizeDomain, Lists, Reserved, AllowsDomain, IsWildcard;
    allowDomains := [];
    var emitted: set<string> := {};
    assert rules[..0] == [];
    EmptySets(cls);
    for i := 0 to |rules|
      invariant emitted == Allowed(rules[..i], cls) - denySeen && Lists(allowDomains, emitted)
    {
      var r := rules[i];
      SetsMore(rules, i, cls);
      if !AllowsDomain(r, cls) {
        continue;
      }
      var domain := NormalizeDomain(r.dst);
      ListsMore(allowDomains, emitted, domain);
      if Reserved(domain) || domain in emitted || domain in denySeen {
        continue;
      }
      emitted, allowDomains := emitted + {domain}, allowDomains + [domain];
    }
    assert rules[..|rules|] == rules;
  }

  /** Zones in the order they are written; the catch-all that refuses the rest comes last. */
  method GenerateCorefile(rules: seq<Rule>, cls: Classifier) returns (zones: seq<Zone>)
    ensures ZonesOf(zones, rules, cls)
  {
    hide Denied, Allowed, Wild, Lists;
    var denyDomains, denySeen, wildcard := FirstPass(rules, cls);
    var allowDomains := SecondPass(rules, cls, denySeen);
    var allow := seq(|allowDomains|, i requires 0 <= i < |allowDomains| =>
                     Zone(allowDomains[i], Forward(Resolver, allowDomains[i] !in wildcard)));
    var deny := seq(|denyDomains|, i requires 0 <= i < |denyDomains| => Zone(denyDomains[i], Refuse));
    var internalZones := seq(|INTERNAL_HOSTS|, i requires 0 <= i < |INTERNAL_HOSTS| =>
                             Zone(INTERNAL_HOSTS[i], Forward(DockerDns, false)));
    zones := allow + deny + internalZones;
    Assembled(rules, cls, allowDomains, denyDomains, allow, deny, internalZones);
  }

  ghost predicate NamedBy(zones: seq<Zone>, names: seq<string>) {
    |zones| == |names| && forall i :: 0 <= i < |zones| ==> zones[i].name == names[i]
  }

  lemma NamedDistinct(zones: seq<Zone>, names: seq<string>, members: set<string>)
    requires NamedBy(zones, names) && Lists(names, members)
    ensures DistinctZones(zones) && (forall z :: z in zones ==> z.name in members)
    ensures forall n :: n in members ==> exists z :: z in zones && z.name == n
  {
    forall n | n in members ensures exists z :: z in zones && z.name == n {
      var i :| 0 <= i < |names| && names[i] == n;
      assert zones[i] in zones;
    }
  }

  lemma DistinctZonesAppend(a: seq<Zone>, b: seq<Zone>)
    requires DistinctZones(a) && DistinctZones(b)
    requires forall x, y :: x in a && y in b ==> x.name != y.name
    ensures DistinctZones(a + b)
  {
    forall i, j | 0 <= i < j < |a + b| ensures (a + b)[i].name != (a + b)[j].name {
      assert i < |a| ==> (a + b)[i] in a;
      assert j >= |a| ==> (a + b)[j] in b;
    }
  }

  lemma SetsUnreserved(rules: seq<Rule>, cls: Classifier)
    ensures forall n :: n in Denied(rules, cls) || n in Allowed(rules, cls) ==> !Reserved(n)
  {
  }

  lemma Assembled(rules: seq<Rule>, cls: Classifier, allowDomains: seq<string>, denyDomains: seq<string>,
                  allow: seq<Zone>, deny: seq<Zone>, internalZones: seq<Zone>)
    requires Lists(denyDomains, Denied(rules, cls)) && Lists(allowDomains, Allowed(rules, cls) - Denied(rules, cls))
    requires NamedBy(allow, allowDomains) && NamedBy(deny, denyDomains) && NamedBy(internalZones, INTERNAL_HOSTS)
    requires forall z :: z in allow ==> z.body == Forward(Resolver, z.name !in Wild(rules, cls))
    requires forall z :: z in deny ==> z.body == Refuse
    requires forall z :: z in internalZones ==> z.body == Forward(DockerDns, false)
    ensures ZonesOf(allow + deny + internalZones, rules, cls)
  {
    var hosts := set h | h in INTERNAL_HOSTS;
    assert Lists(INTERNAL_HOSTS, hosts);
    NamedDistinct(allow, allowDomains, Allowed(rules, cls) - Denied(rules, cls));
    NamedDistinct(deny, denyDomains, Denied(rules, cls));
    NamedDistinct(internalZones, INTERNAL_HOSTS, hosts);
    SetsUnreserved(rules, cls);
    hide Denied, Allowed, Wild, Lists, NamedBy, DistinctZones;
    DistinctZonesAppend(allow, deny);
    DistinctZonesAppend(allow + deny, internalZones);
    var zones := allow + deny + internalZones;
    forall name | ZoneBody(name, rules, cls).Some? ensures exists z :: z in zones && z.name == name {
      if Reserved(name) {
        var z :| z in internalZones && z.name == name;
        assert z in zones;
      } else if name in Denied(rules, cls) {
        var z :| z in deny && z.name == name;
        assert z in zones;
      } else {
        assert name in Allowed(rules, cls) - Denied(rules, cls);
        var z :| z in allow && z.name == name;
        assert z in zones;
      }
    }
  }

  // ---------------------------------------------------------------- the subdomain pattern

  /** The pattern language the zones use: literals, "[.]" for a dot, "$" for the end. */
  datatype Tok = Lit(c: char) | End

  function ParsePattern(s: string): seq<Tok> {
    if s == [] then []
    else if |s| >= 3 && s[..3] == "[.]" then [Lit('.')] + ParsePattern(s[3..])
    else if s == "$" then [End]
    else [Lit(s[0])] + ParsePattern(s[1..])
  }

  predicate MatchHere(toks: seq<Tok>, text: string) {
    toks == []
    || (match toks[0]
        case Lit(c) => text != [] && text[0] == c && MatchHere(toks[1..], text[1..])
        case End => text == [] && MatchHere(toks[1..], text))
  }

  /** Patterns are searched for anywhere in the text. */
  ghost predicate Search(pattern: string, text: string) {
    exists i :: 0 <= i <= |text| && MatchHere(ParsePattern(pattern), text[i..])
  }

  /** strings.ReplaceAll(d, ".", "[.]"). */
  function ReplaceDots(d: string): string {
    if d == [] then [] else (if d[0] == '.' then "[.]" else [d[0]]) + ReplaceDots(d[1..])
  }

  function SubdomainRegex(domain: string): string { "[.]" + ReplaceDots(domain) + "[.]$" }

  function Lits(s: string): (t: seq<Tok>)
    ensures |t| == |s|
    ensures forall i :: 0 <= i < |s| ==> t[i] == Lit(s[i])
  {
    seq(|s|, i requires 0 <= i < |s| => Lit(s[i]))
  }

  const METACHARACTERS := "\\+*?()|[]{}^$"

  /** Nothing in the name but its dots, which are bracketed, means more than itself in a pattern. */
  predicate PlainName(d: string) { forall c :: c in d ==> c !in METACHARACTERS }

  lemma LabelsPlain(d: string)
    requires forall c :: c in d ==> LabelChar(c) || c == '.'
    ensures PlainName(d)
  {
  }

  lemma ParseEnd()
    ensures ParsePattern("[.]$") == [Lit('.'), End]
  {
    assert "[.]$"[..3] == "[.]" && "[.]$"[3..] == "$";
  }

  lemma {:induction false} ParseDots(d: string)
    requires PlainName(d)
    ensures ParsePattern(ReplaceDots(d) + "[.]$") == Lits(d) + [Lit('.'), End]
  {
    hide ParsePattern, Lits;
    if d == [] {
      ParseEnd();
      assert ReplaceDots(d) + "[.]$" == "[.]$";
      assert Lits(d) + [Lit('.'), End] == [Lit('.'), End];
    } else {
      assert d[0] in d && forall c :: c in d[1..] ==> c in d;
      ParseDots(d[1..]);
      LitsCons(d, [Lit('.'), End]);
      ParseHead(d[0], ReplaceDots(d[1..]) + "[.]$");
      Assoc(if d[0] == '.' then "[.]" else [d[0]], ReplaceDots(d[1..]), "[.]$");
    }
  }

  lemma LitsCons(d: string, tail: seq<Tok>)
    requires d != []
    ensures Lits(d) + tail == [Lit(d[0])] + (Lits(d[1..]) + tail)
  {
  }

  lemma ParseHead(c: char, rest: string)
    requires c !in METACHARACTERS && rest != []
    ensures ParsePattern((if c == '.' then "[.]" else [c]) + rest) == [Lit(c)] + ParsePattern(rest)
  {
    hide ParsePattern;
    var s := (if c == '.' then "[.]" else [c]) + rest;
    if c == '.' {
      assert s[..3] == "[.]" && s[3..] == rest;
      ParseStep(s);
    } else {
      assert s[0] == c && s[1..] == rest;
      ParseChar(s);
    }
  }

  lemma ParseStep(s: string)
    requires |s| >= 3 && s[..3] == "[.]"
    ensures ParsePattern(s) == [Lit('.')] + ParsePattern(s[3..])
  {
  }

  lemma ParseChar(s: string)
    requires |s| > 1 && s[0] != '['
    ensures ParsePattern(s) == [Lit(s[0])] + ParsePattern(s[1..])
  {
    assert |s| >= 3 ==> s[..3][0] != "[.]"[0];
  }

  lemma ParseRegex(d: string)
    requires PlainName(d)
    ensures ParsePattern(SubdomainRegex(d)) == Lits("." + d + ".") + [End]
  {
    ParseDots(d);
    var s := SubdomainRegex(d);
    assert s[..3] == "[.]" && s[3..] == ReplaceDots(d) + "[.]$";
    assert Lits("." + d + ".") == [Lit('.')] + Lits(d) + [Lit('.')];
    hide ParsePattern;
    assert ParsePattern(s) == [Lit('.')] + ParsePattern(s[3..]) by { ParseStep(s); }
    assert [Lit('.')] + (Lits(d) + [Lit('.'), End]) == Lits("." + d + ".") + [End];
  }

  lemma {:induction false} MatchLits(s: string, text: string)
    ensures MatchHere(Lits(s) + [End], text) <==> text == s
  {
    var toks := Lits(s) + [End];
    if s == [] {
      assert toks == [End] && toks[1..] == [];
    } else {
      assert toks[0] == Lit(s[0]) && toks[1..] == Lits(s[1..]) + [End];
      if text != [] {
        MatchLits(s[1..], text[1..]);
        assert text == [text[0]] + text[1..] && s == [s[0]] + s[1..];
      }
    }
  }

  /** q lies strictly under a. */
  predicate Under(q: string, a: string) {
    |q| > |a| && q[|q| - |a|..] == a && q[|q| - |a| - 1] == '.'
  }

  lemma UnderSuffix(q: string, d: string)
    requires Under(q, d)
    ensures var i := |q| - |d| - 1; (q + ".")[i..] == "." + d + "."
  {
    var i := |q| - |d| - 1;
    assert q[i..] == "." + d;
    assert (q + ".")[i..] == q[i..] + ".";
  }

  lemma SuffixUnder(q: string, d: string, i: nat)
    requires i <= |q| + 1 && (q + ".")[i..] == "." + d + "."
    ensures Under(q, d)
  {
    var want := "." + d + ".";
    assert i == |q| - |d| - 1;
    assert (q + ".")[i..] == q[i..] + ".";
    assert q[i..] == want[..|want| - 1] == "." + d;
    assert q[i] == '.' && q[i + 1..] == q[i..][1..] == d;
  }

  /** The pattern matches the fully qualified name of q exactly when q is a proper subdomain. */
  lemma RegexMatchesSubdomains(d: string, q: string)
    requires PlainName(d)
    ensures Search(SubdomainRegex(d), q + ".") <==> Under(q, d)
  {
    ParseRegex(d);
    hide ParsePattern, SubdomainRegex, MatchHere, PlainName, Under, Lits;
    var text, want := q + ".", "." + d + ".";
    forall i | 0 <= i <= |text| ensures MatchHere(ParsePattern(SubdomainRegex(d)), text[i..]) <==> text[i..] == want {
      MatchLits(want, text[i..]);
    }
    if Under(q, d) {
      UnderSuffix(q, d);
      UnderLonger(q, d);
      assert MatchHere(ParsePattern(SubdomainRegex(d)), text[|q| - |d| - 1..]);
    }
    if Search(SubdomainRegex(d), text) {
      var i :| 0 <= i <= |text| && MatchHere(ParsePattern(SubdomainRegex(d)), text[i..]);
      SuffixUnder(q, d, i);
    }
  }

  lemma UnderLonger(q: string, a: string)
    requires Under(q, a)
    ensures |q| > |a|
  {
  }

  // ---------------------------------------------------------------- lookup

  datatype Answer = NxDomain | NoData | Forwarded(upstream: Upstream)

  predicate AtOrUnder(q: string, a: string) { q == a || Under(q, a) }

  /** What one zone answers. */
  ghost function Ask(z: Zone, q: string, aaaa: bool): Answer {
    match z.body
    case Refuse => NxDomain
    case Forward(up, exactOnly) =>
      if exactOnly && Search(SubdomainRegex(z.name), q + ".") then NxDomain
      else if aaaa then NoData
      else Forwarded(up)
  }

  /** z is the longest zone that q falls in. */
  ghost predicate Longest(zones: seq<Zone>, q: string, z: Zone) {
    z in zones && AtOrUnder(q, z.name) && forall y :: y in zones && AtOrUnder(q, y.name) ==> |y.name| <= |z.name|
  }

  /** The server: the longest matching zone answers, the catch-all refuses. */
  ghost predicate Serves(zones: seq<Zone>, q: string, aaaa: bool, a: Answer) {
    if exists z :: z in zones && AtOrUnder(q, z.name)
    then exists z :: Longest(zones, q, z) && a == Ask(z, q, aaaa)
    else a == NxDomain
  }

  // ---------------------------------------------------------------- what the rules say

  function Parent(q: string): (p: Option<string>)
    ensures p.Some? ==> |p.value| < |q|
  {
    var i := IndexOf(q, '.');
    if i == |q| then None else Some(q[i + 1..])
  }

  /** A rule that denies this domain, one that allows it, and one that allows what lies below it
      too, read off the rules. */
  ghost predicate SaysDeny(rules: seq<Rule>, cls: Classifier, d: string) {
    exists r :: r in rules && cls(r.dst) == Fqdn && NormalizeDomain(r.dst) == d && Lower(r.action) == "deny"
  }
  ghost predicate SaysAllow(rules: seq<Rule>, cls: Classifier, d: string) {
    exists r :: r in rules && cls(r.dst) == Fqdn && NormalizeDomain(r.dst) == d && (r.action == "" || Lower(r.action) == "allow")
  }
  ghost predicate SaysWild(rules: seq<Rule>, cls: Classifier, d: string) {
    exists r :: r in rules && cls(r.dst) == Fqdn && NormalizeDomain(r.dst) == d && (r.action == "" || Lower(r.action) == "allow") && "." <= r.dst
  }

  /** Names of the control plane's own network. */
  predicate Internal(d: string) { d == "docker.internal" || d == "otel-collector" || d == "prometheus" }

  ghost predicate Spoken(d: string, rules: seq<Rule>, cls: Classifier) {
    Internal(d) || SaysDeny(rules, cls, d) || SaysAllow(rules, cls, d)
  }

  /** The nearest ancestor-or-self the rules or the internal names speak about. */
  ghost function Nearest(q: string, rules: seq<Rule>, cls: Classifier): Option<string>
    decreases |q|
  {
    if Spoken(q, rules, cls) then Some(q)
    else
      match Parent(q)
      case None => None
      case Some(p) => Nearest(p, rules, cls)
  }

  /** Internal names forward to Docker; a denied ancestor refuses; an allowed one forwards
      itself, and its subdomains only under a wildcard rule; anything else is refused. */
  ghost function Meaning(q: string, aaaa: bool, rules: seq<Rule>, cls: Classifier): Answer {
    match Nearest(q, rules, cls)
    case None => NxDomain
    case Some(a) =>
      if Internal(a) then (if aaaa then NoData else Forwarded(DockerDns))
      else if SaysDeny(rules, cls, a) then NxDomain
      else if q == a || SaysWild(rules, cls, a) then (if aaaa then NoData else Forwarded(Resolver))
      else NxDomain
  }

  /** The zones are those of the names spoken of, with the bodies the rules say. */
  lemma ZonesSpeak(d: string, rules: seq<Rule>, cls: Classifier)
    ensures Reserved(d) <==> Internal(d)
    ensures !Internal(d) ==> (d in Denied(rules, cls) <==> SaysDeny(rules, cls, d)) && (d in Allowed(rules, cls) <==> SaysAllow(rules, cls, d))
                             && (d in Wild(rules, cls) <==> SaysWild(rules, cls, d))
    ensures ZoneBody(d, rules, cls).Some? <==> Spoken(d, rules, cls)
  {
    hide NormalizeDomain, Lower;
  }

  lemma SpokenHasZone(d: string, rules: seq<Rule>, cls: Classifier)
    ensures ZoneBody(d, rules, cls).Some? <==> Spoken(d, rules, cls)
  {
    hide ZoneBody, Spoken;
    ZonesSpeak(d, rules, cls);
  }

  // ---------------------------------------------------------------- lookup is the meaning

  lemma FirstDot(q: string, k: nat)
    requires k < |q| && q[k] == '.'
    ensures IndexOf(q, '.') <= k
  {
    var i := IndexOf(q, '.');
    assert forall j :: 0 <= j < i ==> q[..i][j] == q[j];
  }

  lemma UnderToParent(q: string, a: string)
    requires Under(q, a)
    ensures Parent(q).Some? && AtOrUnder(Parent(q).value, a)
  {
    var k := |q| - |a| - 1;
    FirstDot(q, k);
    hide IndexOf;
    var i := IndexOf(q, '.');
    var p := q[i + 1..];
    if i == k {
      assert p == a;
    } else {
      assert p[|p| - |a|..] == q[|q| - |a|..];
      assert p[|p| - |a| - 1] == q[k];
    }
  }

  lemma ParentToUnder(q: string, a: string)
    requires Parent(q).Some? && AtOrUnder(Parent(q).value, a)
    ensures Under(q, a)
  {
    hide IndexOf;
    var i := IndexOf(q, '.');
    var p := q[i + 1..];
    assert q[|q| - |a|..] == p[|p| - |a|..];
    assert p == a ==> p[0..] == a;
    assert p != a ==> q[|q| - |a| - 1] == p[|p| - |a| - 1];
  }

  lemma ParentUnder(q: string, a: string)
    requires a != q
    ensures Under(q, a) <==> Parent(q).Some? && AtOrUnder(Parent(q).value, a)
  {
    if Under(q, a) {
      UnderToParent(q, a);
    } else if Parent(q).Some? && AtOrUnder(Parent(q).value, a) {
      ParentToUnder(q, a);
    }
  }

  lemma {:induction false} NearestIsLongest(q: string, rules: seq<Rule>, cls: Classifier)
    ensures match Nearest(q, rules, cls)
            case None => forall a :: AtOrUnder(q, a) ==> ZoneBody(a, rules, cls).None?
            case Some(n) => AtOrUnder(q, n) && ZoneBody(n, rules, cls).Some?
                            && forall a :: AtOrUnder(q, a) && ZoneBody(a, rules, cls).Some? ==> |a| <= |n|
    decreases |q|
  {
    hide ZoneBody, Under, Parent, Spoken;
    UnderShorter(q);
    SpokenHasZone(q, rules, cls);
    if ZoneBody(q, rules, cls).None? {
      forall a | a != q ensures Under(q, a) <==> Parent(q).Some? && AtOrUnder(Parent(q).value, a) {
        ParentUnder(q, a);
      }
      if Parent(q).Some? {
        ParentShorter(q);
        NearestIsLongest(Parent(q).value, rules, cls);
      }
    }
  }

  lemma ParentShorter(q: string)
    ensures Parent(q).Some? ==> |Parent(q).value| < |q|
    ensures Parent(q).Some? ==> !AtOrUnder(Parent(q).value, q)
  {
  }

  lemma UnderShorter(q: string)
    ensures forall a :: Under(q, a) ==> |a| < |q|
  {
  }

  /** Two zones of one length that a name falls in have one name. */
  lemma SameLengthSameName(q: string, a: string, b: string)
    requires AtOrUnder(q, a) && AtOrUnder(q, b) && |a| == |b|
    ensures a == b
  {
    assert q[|q| - |a|..] == (if q == a then q[0..] else a);
    assert q[0..] == q;
  }

  /** Rules whose domain destinations are plain names. */
  predicate Vetted(rules: seq<Rule>, cls: Classifier) {
    forall r :: r in rules && cls(r.dst) == Fqdn ==> PlainName(r.dst)
  }

  /** Addresses and ranges are written with hexadecimal digits, dots, colons and a slash. */
  predicate AddressChar(c: char) {
    IsDigit(c) || 'a' <= c <= 'f' || 'A' <= c <= 'F' || c == '.' || c == ':' || c == '/'
  }

  ghost predicate AddressesPlain(cls: Classifier) {
    forall s :: cls(s) != Fqdn ==> forall c :: c in s ==> AddressChar(c)
  }

  /** Validated rules are vetted, also where an address with a trailing dot reaches the zone
      file as a name; and no zone is the catch-all's. */
  lemma ValidatedIsVetted(rules: seq<Rule>, cls: Classifier)
    requires AddressesPlain(cls) && forall r :: r in rules ==> ValidDst(r.dst, cls)
    ensures Vetted(rules, cls)
    ensures ZoneBody(".", rules, cls).None? && ZoneBody("", rules, cls).None?
  {
    hide NormalizeDomain, GoodLabels, Split, PlainName;
    forall r | r in rules && cls(r.dst) == Fqdn
      ensures PlainName(r.dst) && NormalizeDomain(r.dst) != "." && NormalizeDomain(r.dst) != ""
    {
      DstPlain(r.dst, cls);
      DstNamed(r.dst, cls);
    }
  }

  lemma DstPlain(dst: string, cls: Classifier)
    requires AddressesPlain(cls) && ValidDst(dst, cls)
    ensures PlainName(dst)
  {
    hide GoodLabels, Split;
    if cls(NormalizeDomain(dst)) == Fqdn {
      ValidDomainChars(dst, cls);
    } else {
      var n := NormalizeDomain(dst);
      forall c | c in dst ensures c !in METACHARACTERS {
        assert c in n || c == '.';
        assert c in n ==> AddressChar(c);
      }
    }
  }

  lemma DstNamed(dst: string, cls: Classifier)
    requires ValidDst(dst, cls)
    ensures NormalizeDomain(dst) != "." && NormalizeDomain(dst) != ""
  {
    hide GoodLabels, Split;
    assert !NamesSomething(".");
  }

  /** An address the store accepts can reach the zone file as a name. */
  lemma DottedAddressIsNamed()
    ensures var cls := (s: string) => if s == "::1" then Ipv6 else Fqdn;
            var r := Rule("::1.", "tcp", "80", "allow", [], "", false);
            AddressesPlain(cls) && ValidDst(r.dst, cls) && cls(r.dst) == Fqdn && ZoneBody("::1", [r], cls).Some?
  {
    var cls := (s: string) => if s == "::1" then Ipv6 else Fqdn;
    var r := Rule("::1.", "tcp", "80", "allow", [], "", false);
    assert NormalizeDomain("::1.") == "::1";
    assert Lower("allow") == "allow" && r in [r];
  }

  lemma ZoneNamePlain(name: string, rules: seq<Rule>, cls: Classifier)
    requires Vetted(rules, cls) && ZoneBody(name, rules, cls).Some?
    ensures PlainName(name)
  {
    if !Reserved(name) {
      var r :| r in rules && cls(r.dst) == Fqdn && NormalizeDomain(r.dst) == name;
      assert PlainName(r.dst);
    } else {
      InternalPlain();
    }
  }

  lemma InternalPlain()
    ensures forall h :: h in INTERNAL_HOSTS ==> PlainName(h)
  {
    hide PlainName;
    LabelsPlain("docker.internal");
    LabelsPlain("otel-collector");
    LabelsPlain("prometheus");
  }

  lemma AskIsMeaning(z: Zone, q: string, aaaa: bool, rules: seq<Rule>, cls: Classifier)
    requires Vetted(rules, cls) && ZoneBody(z.name, rules, cls) == Some(z.body) && AtOrUnder(q, z.name)
    requires Nearest(q, rules, cls) == Some(z.name)
    ensures Ask(z, q, aaaa) == Meaning(q, aaaa, rules, cls)
  {
    hide Vetted, Nearest, Search, Denied, Allowed, Wild, Under, Reserved, Internal, SaysDeny, SaysAllow, SaysWild, SubdomainRegex, PlainName, NormalizeDomain;
    ZonesSpeak(z.name, rules, cls);
    ZoneNamePlain(z.name, rules, cls);
    RegexMatchesSubdomains(z.name, q);
    if Under(q, z.name) {
      UnderLonger(q, z.name);
    }
  }

  /** Every query of a generated zone file is answered as the rules mean it. */
  lemma LookupIsMeaning(zones: seq<Zone>, rules: seq<Rule>, cls: Classifier, q: string, aaaa: bool, a: Answer)
    requires Vetted(rules, cls) && ZonesOf(zones, rules, cls)
    ensures Serves(zones, q, aaaa, a) <==> a == Meaning(q, aaaa, rules, cls)
  {
    hide Vetted, ZoneBody, AtOrUnder, Ask, Nearest, DistinctZones;
    NearestIsLongest(q, rules, cls);
    if Nearest(q, rules, cls).Some? {
      var n := Nearest(q, rules, cls).value;
      var z :| z in zones && z.name == n;
      AskIsMeaning(z, q, aaaa, rules, cls);
      assert Longest(zones, q, z);
      forall y | Longest(zones, q, y) ensures Ask(y, q, aaaa) == Ask(z, q, aaaa) {
        SameLengthSameName(q, y.name, n);
      }
    }
  }
}

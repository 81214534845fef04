/** Egress rules: the port field, normalisation, and the key a rule is stored under. */
module Rules {
  import opened Text

  const MAX_PORT := 65535

  datatype PathRule = PathRule(path: string, action: string, methods: seq<string>)

  datatype Rule = Rule(
    dst: string,
    proto: string,
    port: string,
    action: string,
    pathRules: seq<PathRule>,
    pathDefault: string,
    skipTlsVerify: bool)

  // ---------------------------------------------------------------- ports

  /** An inclusive port span. */
  datatype Span = Span(lo: int, hi: int)

  predicate ValidSpan(s: Span) { 1 <= s.lo <= s.hi <= MAX_PORT }

  predicate Holds(s: Span, p: int) { s.lo <= p <= s.hi }

  datatype PortSpec = Unset | Malformed | Ports(span: Span)

  function ParsePortNumber(s: string): (r: Option<int>)
    ensures r.Some? ==> 1 <= r.value <= MAX_PORT
  {
    match Atoi(s)
    case Some(p) => if 1 <= p <= MAX_PORT then Some(p) else None
    case None => None
  }

  /** A range is one dash-separated pair; any other dash is malformed. */
  function ParseRange(left: string, right: string): (r: PortSpec)
    ensures r.Ports? ==> ValidSpan(r.span)
  {
    match (ParsePortNumber(TrimSpace(left)), ParsePortNumber(TrimSpace(right)))
    case (Some(lo), Some(hi)) => if lo <= hi then Ports(Span(lo, hi)) else Malformed
    case _ => Malformed
  }

  function ParseTrimmed(s: string): (r: PortSpec)
    ensures r.Ports? ==> ValidSpan(r.span)
  {
    var dash := IndexOf(s, '-');
    if s == [] then Unset
    else if dash < |s| then ParseRange(s[..dash], s[dash + 1..])
    else
      match ParsePortNumber(s)
      case Some(p) => Ports(Span(p, p))
      case None => Malformed
  }

  function ParsePortSpec(text: string): (r: PortSpec)
    ensures r.Ports? ==> ValidSpan(r.span)
  {
    ParseTrimmed(TrimSpace(text))
  }

  function FormatSpan(s: Span): (text: string)
    requires ValidSpan(s)
  {
    if s.lo == s.hi then Itoa(s.lo) else Itoa(s.lo) + "-" + Itoa(s.hi)
  }

  lemma {:induction false} DigitsAreTrimmed(n: nat)
    ensures TrimSpace(Itoa(n)) == Itoa(n)
    ensures '-' !in Itoa(n) && ':' !in Itoa(n)
  {
    var s := Itoa(n);
    assert IsDigit(s[0]) && IsDigit(s[|s| - 1]);
    TrimSpaceFixed(s);
  }

  lemma {:induction false} PortNumberRoundTrip(n: int)
    requires 1 <= n <= MAX_PORT
    ensures ParsePortNumber(Itoa(n)) == Some(n)
  {
    AtoiItoa(n);
  }

  /** A rendered span reads back as the same span. */
  lemma {:induction false} FormatParseRoundTrip(s: Span)
    requires ValidSpan(s)
    ensures ParsePortSpec(FormatSpan(s)) == Ports(s)
  {
    PortNumberRoundTrip(s.lo);
    DigitsAreTrimmed(s.lo);
    if s.lo == s.hi {
      var text := Itoa(s.lo);
      assert IndexOf(text, '-') == |text|;
    } else {
      PortNumberRoundTrip(s.hi);
      DigitsAreTrimmed(s.hi);
      RangeRoundTrip(Itoa(s.lo), Itoa(s.hi));
      assert FormatSpan(s) == Itoa(s.lo) + ['-'] + Itoa(s.hi);
    }
  }

  lemma {:induction false} RangeRoundTrip(left: string, right: string)
    requires AllDigits(left) && AllDigits(right) && left != [] && right != []
    ensures ParsePortSpec(left + ['-'] + right) == ParseRange(left, right)
  {
    var text := left + ['-'] + right;
    assert IsDigit(left[0]) && IsDigit(right[|right| - 1]);
    assert text[0] == left[0] && text[|text| - 1] == right[|right| - 1];
    TrimSpaceFixed(text);
    ParseTrimmedRange(left, right);
  }

  lemma {:induction false} ParseTrimmedRange(left: string, right: string)
    requires '-' !in left
    ensures ParseTrimmed(left + ['-'] + right) == ParseRange(left, right)
  {
    var text := left + ['-'] + right;
    IndexOfPrefix(left, '-', right);
    assert text[..|left|] == left && text[|left| + 1..] == right;
  }

  /** The text is a decimal port number, with an optional sign. */
  predicate Reads(text: string, p: int) { Atoi(text) == Some(p) && 1 <= p <= 65535 }

  /** s is two numbers around its first dash, blanks around each aside. */
  ghost predicate ReadsRange(s: string, lo: int, hi: int) {
    exists a, b :: '-' !in a && s == a + "-" + b && Reads(TrimSpace(a), lo) && Reads(TrimSpace(b), hi)
  }

  lemma NoDashNoRange(s: string, lo: int, hi: int)
    requires '-' !in s
    ensures !ReadsRange(s, lo, hi)
  {
    hide TrimSpace, Reads;
    forall a, b ensures s != a + "-" + b {
      assert (a + "-" + b)[|a|] == '-';
    }
  }

  lemma DashIsFirst(s: string, lo: int, hi: int)
    requires '-' in s
    ensures var dash := IndexOf(s, '-');
            dash < |s| && (ReadsRange(s, lo, hi) <==> Reads(TrimSpace(s[..dash]), lo) && Reads(TrimSpace(s[dash + 1..]), hi))
  {
    hide TrimSpace, Reads, IndexOf;
    var dash := IndexOf(s, '-');
    AroundDash(s);
    if ReadsRange(s, lo, hi) {
      var a, b :| '-' !in a && s == a + "-" + b && Reads(TrimSpace(a), lo) && Reads(TrimSpace(b), hi);
      FirstDash(s, a, b);
    }
  }

  lemma AroundDash(s: string)
    requires '-' in s
    ensures var dash := IndexOf(s, '-');
            dash < |s| && '-' !in s[..dash] && s == s[..dash] + "-" + s[dash + 1..]
  {
    hide IndexOf;
    var dash := IndexOf(s, '-');
    assert s[..|s|] == s;
    assert [s[dash]] == "-";
    Parts(s, dash);
  }

  lemma Parts(s: string, k: nat)
    requires k < |s|
    ensures s == s[..k] + [s[k]] + s[k + 1..]
  {
  }

  lemma FirstDash(s: string, a: string, b: string)
    requires '-' !in a && s == a + "-" + b
    ensures IndexOf(s, '-') == |a| && a == s[..|a|] && b == s[|a| + 1..]
  {
    IndexOfPrefix(a, '-', b);
    assert a + ['-'] + b == s;
  }

  lemma NumberReads(s: string, p: int)
    ensures ParsePortNumber(s) == Some(p) <==> Reads(s, p)
    ensures s == "" ==> !Reads(s, p)
  {
    assert Atoi("") == None;
    hide Atoi;
  }

  lemma RangeReads(left: string, right: string, lo: int, hi: int)
    ensures ParseRange(left, right) != Unset
    ensures ParseRange(left, right) == Ports(Span(lo, hi)) <==> lo <= hi && Reads(TrimSpace(left), lo) && Reads(TrimSpace(right), hi)
  {
    hide TrimSpace, Reads, ParsePortNumber;
    NumberReads(TrimSpace(left), lo);
    NumberReads(TrimSpace(right), hi);
  }

  lemma TrimmedReads(s: string, lo: int, hi: int)
    ensures ParseTrimmed(s) == Unset <==> s == ""
    ensures ParseTrimmed(s) == Ports(Span(lo, hi)) <==> ('-' !in s && lo == hi && Reads(s, lo)) || (lo <= hi && ReadsRange(s, lo, hi))
  {
    hide TrimSpace, Reads, ReadsRange, ParsePortNumber, ParseRange, IndexOf;
    NumberReads(s, lo);
    if '-' in s {
      AroundDash(s);
      DashIsFirst(s, lo, hi);
      RangeReads(s[..IndexOf(s, '-')], s[IndexOf(s, '-') + 1..], lo, hi);
    } else {
      NoDashNoRange(s, lo, hi);
    }
  }

  /** What a port field says, for every text: nothing if it is blank; the span of a number, or of
      two numbers around the first dash in ascending order, blanks around each of them aside; and
      else it is malformed. */
  lemma PortSpecMeaning(text: string, lo: int, hi: int)
    ensures var s := TrimSpace(text);
            && (ParsePortSpec(text) == Unset <==> s == "")
            && (ParsePortSpec(text) == Ports(Span(lo, hi)) <==>
                  ('-' !in s && lo == hi && Reads(s, lo)) || (lo <= hi && ReadsRange(s, lo, hi)))
  {
    hide TrimSpace, Reads, ReadsRange, ParseTrimmed;
    TrimmedReads(TrimSpace(text), lo, hi);
  }

  /** PortSpan: the span of a set port, 0-0 when there is none. */
  function SpanOf(r: Rule): (s: Span)
    ensures ParsePortSpec(r.port).Ports? ==> ValidSpan(s)
  {
    match ParsePortSpec(r.port)
    case Ports(s) => s
    case _ => Span(0, 0)
  }

  function SinglePort(r: Rule): Option<int> {
    match ParsePortSpec(r.port)
    case Ports(s) => if s.lo == s.hi then Some(s.lo) else None
    case _ => None
  }

  // ---------------------------------------------------------------- destinations

  /** Drops one leading dot (wildcard) and one trailing dot (FQDN). */
  function NormalizeDomain(d: string): string {
    var t := if d != [] && d[0] == '.' then d[1..] else d;
    if t != [] && t[|t| - 1] == '.' then t[..|t| - 1] else t
  }

  /** A host written with or without its two dots is one host. */
  lemma NormalizeDomainMeaning(h: string)
    requires h != "" && h[0] != '.' && h[|h| - 1] != '.'
    ensures NormalizeDomain(h) == h && NormalizeDomain("." + h) == h && NormalizeDomain(h + ".") == h && NormalizeDomain("." + h + ".") == h
    ensures NormalizeDomain("") == "" && NormalizeDomain(".") == "" && NormalizeDomain("..") == ""
  {
    assert ("." + h)[1..] == h && (h + ".")[..|h|] == h && ("." + h + ".")[1..] == h + ".";
    assert "."[1..] == "" && ".."[1..] == ".";
  }

  predicate IsWildcard(d: string) { d != [] && d[0] == '.' }

  // ---------------------------------------------------------------- predicates on rules

  predicate IsDeny(r: Rule) { Lower(r.action) == "deny" }

  predicate IsOpaque(r: Rule) {
    var p := Lower(r.proto);
    p == "tcp" || p == "ssh" || p == "udp"
  }

  // ---------------------------------------------------------------- normalisation

  function InsertMethod(m: string, ms: seq<string>): seq<string> {
    if ms == [] then [m]
    else if m == ms[0] then ms
    else if Less(m, ms[0]) then [m] + ms
    else [ms[0]] + InsertMethod(m, ms[1..])
  }

  /** Upper-cased, trimmed, without empties or repeats, in ascending order. */
  function NormalizeMethods(ms: seq<string>): seq<string> {
    if ms == [] then []
    else
      var m := Upper(TrimSpace(ms[0]));
      var rest := NormalizeMethods(ms[1..]);
      if m == [] then rest else InsertMethod(m, rest)
  }

  ghost predicate StrictlySorted(ms: seq<string>) {
    forall i, j :: 0 <= i < j < |ms| ==> Less(ms[i], ms[j])
  }

  predicate Token(m: string) { m != [] && Upper(TrimSpace(m)) == m }

  ghost predicate Tokens(ms: seq<string>) {
    forall m :: m in ms ==> Token(m)
  }

  lemma {:induction false} InsertMethodSorted(m: string, ms: seq<string>)
    requires StrictlySorted(ms)
    ensures StrictlySorted(InsertMethod(m, ms))
    ensures forall x :: x in InsertMethod(m, ms) <==> x == m || x in ms
  {
    if ms != [] {
      LessTotal(m, ms[0]);
      if m != ms[0] {
        if Less(m, ms[0]) {
          forall j | 0 < j < |ms| ensures Less(m, ms[j]) {
            LessTransitive(m, ms[0], ms[j]);
          }
        } else {
          InsertMethodSorted(m, ms[1..]);
          var tail := InsertMethod(m, ms[1..]);
          assert ms == [ms[0]] + ms[1..];
          forall j | 0 <= j < |tail| ensures Less(ms[0], tail[j]) {
            assert tail[j] in tail;
            if tail[j] != m {
              var k :| 0 <= k < |ms[1..]| && ms[1..][k] == tail[j];
              assert ms[k + 1] == tail[j];
            }
          }
        }
      }
    }
  }

  lemma {:induction false} NormalizeMethodsShape(ms: seq<string>)
    ensures StrictlySorted(NormalizeMethods(ms)) && Tokens(NormalizeMethods(ms))
    ensures forall x :: x in NormalizeMethods(ms) <==> x != [] && Listed(x, ms)
  {
    if ms != [] {
      var m, rest := Upper(TrimSpace(ms[0])), ms[1..];
      NormalizeMethodsShape(rest);
      UpperTrimIdempotent(ms[0]);
      assert ms == [ms[0]] + rest;
      forall x ensures Listed(x, ms) <==> x == m || Listed(x, rest) {
      }
      if m != [] {
        InsertMethodSorted(m, NormalizeMethods(rest));
      }
    }
  }

  /** x is the trimmed, upper-cased form of one of the given methods. */
  ghost predicate Listed(x: string, ms: seq<string>) {
    exists m :: m in ms && x == Upper(TrimSpace(m))
  }

  lemma {:induction false} NormalizeMethodsFixed(ms: seq<string>)
    requires StrictlySorted(ms) && Tokens(ms)
    ensures NormalizeMethods(ms) == ms
  {
    if ms != [] {
      assert ms == [ms[0]] + ms[1..];
      assert Token(ms[0]) && Tokens(ms[1..]);
      NormalizeMethodsFixed(ms[1..]);
      if |ms| > 1 {
        LessTotal(ms[0], ms[1]);
      }
    }
  }

  function NormalizePathRules(prs: seq<PathRule>): (r: seq<PathRule>)
    ensures |r| == |prs|
    ensures forall i :: 0 <= i < |prs| ==> r[i] == prs[i].(methods := NormalizeMethods(prs[i].methods))
  {
    seq(|prs|, i requires 0 <= i < |prs| => prs[i].(methods := NormalizeMethods(prs[i].methods)))
  }

  function DefaultPort(proto: string): string {
    var p := Lower(proto);
    if p == "https" || p == "wss" then "443"
    else if p == "http" || p == "ws" then "80"
    else if p == "ssh" then "22"
    else ""
  }

  function NormalizeRule(r: Rule): Rule {
    var proto := if Lower(r.proto) == "tls" || r.proto == "" then "https" else r.proto;
    r.(proto := proto,
       action := if r.action == "" then "allow" else r.action,
       port := if r.port == "" then DefaultPort(proto) else r.port,
       pathRules := NormalizePathRules(r.pathRules))
  }

  /** The four defaults read as the ports they name. */
  lemma DefaultPortsRead()
    ensures ParsePortSpec("443") == Ports(Span(443, 443)) && ParsePortSpec("80") == Ports(Span(80, 80))
    ensures ParsePortSpec("22") == Ports(Span(22, 22)) && ParsePortSpec("") == Unset
  {
    assert Itoa(443) == "443" && Itoa(80) == "80" && Itoa(22) == "22";
    assert ParsePortSpec("") == Unset;
    hide ParsePortSpec;
    FormatParseRoundTrip(Span(443, 443));
    FormatParseRoundTrip(Span(80, 80));
    FormatParseRoundTrip(Span(22, 22));
  }

  /** What normalisation does to each field: what is given is kept, an action that is not given
      is allow, no protocol and tls mean https, and a port that is not given is the default of
      the protocol, if it has one. */
  lemma NormalizeRuleMeaning(r: Rule)
    ensures var n := NormalizeRule(r);
            && n.dst == r.dst && n.pathDefault == r.pathDefault && n.skipTlsVerify == r.skipTlsVerify
            && |n.pathRules| == |r.pathRules|
            && (forall i :: 0 <= i < |r.pathRules| ==> n.pathRules[i].path == r.pathRules[i].path && n.pathRules[i].action == r.pathRules[i].action)
            && n.action == (if r.action == "" then "allow" else r.action)
            && n.proto == (if r.proto == "" || Lower(r.proto) == "tls" then "https" else r.proto)
            && (r.port != "" ==> n.port == r.port)
            && (r.port == "" && Lower(n.proto) in {"https", "wss"} ==> ParsePortSpec(n.port) == Ports(Span(443, 443)))
            && (r.port == "" && Lower(n.proto) in {"http", "ws"} ==> ParsePortSpec(n.port) == Ports(Span(80, 80)))
            && (r.port == "" && Lower(n.proto) == "ssh" ==> ParsePortSpec(n.port) == Ports(Span(22, 22)))
            && (r.port == "" && Lower(n.proto) !in {"https", "wss", "http", "ws", "ssh"} ==> ParsePortSpec(n.port) == Unset)
  {
    DefaultPortsRead();
    hide ParsePortSpec, Lower;
  }

  lemma NormalizePathRulesIdempotent(prs: seq<PathRule>)
    ensures NormalizePathRules(NormalizePathRules(prs)) == NormalizePathRules(prs)
  {
    forall i | 0 <= i < |prs|
      ensures NormalizePathRules(NormalizePathRules(prs))[i] == NormalizePathRules(prs)[i]
    {
      NormalizeMethodsShape(prs[i].methods);
      NormalizeMethodsFixed(NormalizeMethods(prs[i].methods));
    }
  }

  lemma NormalizeRuleIdempotent(r: Rule)
    ensures NormalizeRule(NormalizeRule(r)) == NormalizeRule(r)
  {
    NormalizePathRulesIdempotent(r.pathRules);
    assert Lower("https") == "https";
  }

  // ---------------------------------------------------------------- keys

  /** The key a rule is stored under: dst:proto:port, each part verbatim. */
  function RuleKey(r: Rule): string {
    r.dst + ":" + r.proto + ":" + r.port
  }

  /** RuleKey with the action class folded in, the key duplicates are removed by. */
  function DedupKey(r: Rule): string {
    RuleKey(r) + "\0" + (if IsDeny(r) then "deny" else "allow")
  }

  /** Proto tokens are free text; the joined key is only unambiguous without ':' in them. */
  predicate PlainProto(r: Rule) { ':' !in r.proto }

  lemma {:induction false} ValidPortHasNoColon(text: string)
    requires !ParsePortSpec(text).Malformed?
    ensures ':' !in text
  {
    TrimmedPartIsSpace(text);
    TrimSpaceEnds(text);
    TrimSpaceFixed(TrimSpace(text));
    TrimmedPortHasNoColon(TrimSpace(text));
  }

  lemma {:induction false} TrimmedPortHasNoColon(s: string)
    requires TrimSpace(s) == s && !ParseTrimmed(s).Malformed?
    ensures ':' !in s
  {
    var dash := IndexOf(s, '-');
    if dash < |s| {
      NumberHasNoColon(s[..dash]);
      NumberHasNoColon(s[dash + 1..]);
      assert s == s[..dash] + [s[dash]] + s[dash + 1..];
    } else if s != [] {
      NumberHasNoColon(s);
    }
  }

  lemma {:induction false} NumberHasNoColon(s: string)
    requires ParsePortNumber(TrimSpace(s)).Some?
    ensures ':' !in s
  {
    var t := TrimSpace(s);
    assert t == [t[0]] + t[1..];
    assert forall c :: c in t ==> c == '+' || c == '-' || IsDigit(c);
    TrimmedPartIsSpace(s);
  }

  /** What trimming removes is white space. */
  lemma {:induction false} TrimmedPartIsSpace(s: string)
    ensures forall c :: c in s ==> IsSpace(c) || c in TrimSpace(s)
  {
    TrimLeftRemovesSpace(s);
    TrimRightRemovesSpace(TrimLeft(s));
  }

  lemma {:induction false} TrimLeftRemovesSpace(s: string)
    ensures forall c :: c in s ==> IsSpace(c) || c in TrimLeft(s)
  {
    if s != [] && IsSpace(s[0]) {
      TrimLeftRemovesSpace(s[1..]);
      assert s == [s[0]] + s[1..];
    }
  }

  lemma {:induction false} TrimRightRemovesSpace(s: string)
    ensures forall c :: c in s ==> IsSpace(c) || c in TrimRight(s)
  {
    if s != [] && IsSpace(s[|s| - 1]) {
      TrimRightRemovesSpace(s[..|s| - 1]);
      assert s == s[..|s| - 1] + [s[|s| - 1]];
    }
  }

  lemma RuleKeyInjective(r: Rule, s: Rule)
    requires PlainProto(r) && PlainProto(s)
    requires !ParsePortSpec(r.port).Malformed? && !ParsePortSpec(s.port).Malformed?
    requires RuleKey(r) == RuleKey(s)
    ensures r.dst == s.dst && r.proto == s.proto && r.port == s.port
  {
    ValidPortHasNoColon(r.port);
    ValidPortHasNoColon(s.port);
    assert RuleKey(r) == (r.dst + ":" + r.proto) + [':'] + r.port;
    assert RuleKey(s) == (s.dst + ":" + s.proto) + [':'] + s.port;
    UniqueLastSplit(r.dst + ":" + r.proto, r.port, s.dst + ":" + s.proto, s.port, ':');
    UniqueLastSplit(r.dst, r.proto, s.dst, s.proto, ':');
  }

  lemma DedupKeyParts(r: Rule, s: Rule)
    requires DedupKey(r) == DedupKey(s)
    ensures RuleKey(r) == RuleKey(s) && IsDeny(r) == IsDeny(s)
  {
    var a := if IsDeny(r) then "deny" else "allow";
    var b := if IsDeny(s) then "deny" else "allow";
    assert DedupKey(r) == RuleKey(r) + ['\0'] + a;
    assert DedupKey(s) == RuleKey(s) + ['\0'] + b;
    UniqueLastSplit(RuleKey(r), a, RuleKey(s), b, '\0');
  }

  lemma DedupKeyInjective(r: Rule, s: Rule)
    requires PlainProto(r) && PlainProto(s)
    requires !ParsePortSpec(r.port).Malformed? && !ParsePortSpec(s.port).Malformed?
    requires DedupKey(r) == DedupKey(s)
    ensures r.dst == s.dst && r.proto == s.proto && r.port == s.port && IsDeny(r) == IsDeny(s)
  {
    DedupKeyParts(r, s);
    RuleKeyInjective(r, s);
  }

  /** Without that restriction two different rules can share a key. */
  lemma ColonInProtoCollides(tail: seq<PathRule>)
    ensures var r := Rule("a", "b:tcp", "1-5", "allow", tail, "", false);
            var s := Rule("a:b", "tcp", "1-5", "allow", tail, "", false);
            r != s && DedupKey(r) == DedupKey(s) && !IsOpaque(r) && IsOpaque(s)
  {
    var r := Rule("a", "b:tcp", "1-5", "allow", tail, "", false);
    var s := Rule("a:b", "tcp", "1-5", "allow", tail, "", false);
    assert RuleKey(r) == RuleKey(s);
    assert |Lower(r.proto)| == 5;
    assert Lower(s.proto) == "tcp";
  }
}

/** From a guarded canonical rule list to lawful permutations, and the lockstep theorem. */
module LockstepRules {
  import opened Text
  import opened Rules
  import opened Canonical
  import opened Dedicated
  import opened EnvoyConfig
  import opened Generator
  import opened Lockstep

  // ---------------------------------------------------------------- the port table

  function SlotKey(s: Slot): string { PortKey(Host(s), s.port) }

  lemma {:induction false} TableAt(slots: seq<Slot>, base: int)
    requires DistinctSlots(slots)
    ensures forall i :: 0 <= i < |slots| ==>
              SlotKey(slots[i]) in PortTable(Assign(slots, base))
              && PortTable(Assign(slots, base))[SlotKey(slots[i])] == base + i
    ensures forall k :: k in PortTable(Assign(slots, base)) ==> exists i :: 0 <= i < |slots| && k == SlotKey(slots[i])
  {
    hide PortKey, Host;
    if slots != [] {
      var n := |slots| - 1;
      var front := slots[..n];
      TableAt(front, base);
      assert Assign(slots, base)[..n] == Assign(front, base);
      forall i | 0 <= i < n ensures SlotKey(slots[i]) != SlotKey(slots[n]) {
        if SlotKey(slots[i]) == SlotKey(slots[n]) {
          PortKeyInjective(Host(slots[i]), slots[i].port, Host(slots[n]), slots[n].port);
        }
      }
      assert forall i :: 0 <= i < n ==> front[i] == slots[i];
    }
  }

  // ---------------------------------------------------------------- the rows of one rule

  ghost predicate RowOf(row: seq<Layer>, fam: Family, r: Rule, s: Slot, gen: Gen) {
    var key := PortKey(NormalizeDomain(r.dst), s.port);
    key in Table(gen, fam) && row == DedicatedLayers(fam, IsDeny(r), Table(gen, fam)[key], s.port)
  }

  ghost predicate Ascend(slots: seq<Slot>) {
    forall i, j :: 0 <= i < j < |slots| ==> slots[i].port < slots[j].port
  }

  predicate Starts(row: seq<Layer>) { row != [] && row[0].DedicatedListener? }

  predicate Spread(rows: seq<seq<Layer>>) {
    forall i, j :: 0 <= i < j < |rows| && Starts(rows[i]) && Starts(rows[j]) ==> rows[i][0].dstPort < rows[j][0].dstPort
  }

  ghost predicate FromSlots(rows: seq<seq<Layer>>, fam: Family, r: Rule, slots: seq<Slot>, gen: Gen) {
    forall row :: row in rows ==> exists s :: s in slots && RowOf(row, fam, r, s, gen)
  }

  ghost predicate ForSlots(rows: seq<seq<Layer>>, fam: Family, r: Rule, slots: seq<Slot>, gen: Gen) {
    forall s: Slot :: s in slots && PortKey(NormalizeDomain(r.dst), s.port) in Table(gen, fam)
                      ==> exists row :: row in rows && RowOf(row, fam, r, s, gen)
  }

  /** One row per slot with a table entry, in port order. */
  lemma {:induction false} RowsShape(fam: Family, r: Rule, slots: seq<Slot>, gen: Gen)
    requires Ascend(slots)
    ensures FromSlots(DedicatedRows(fam, r, slots, gen), fam, r, slots, gen)
    ensures ForSlots(DedicatedRows(fam, r, slots, gen), fam, r, slots, gen)
    ensures Spread(DedicatedRows(fam, r, slots, gen))
  {
    hide PortKey, NormalizeDomain, IsDeny, Table;
    if slots != [] {
      var rest := DedicatedRows(fam, r, slots[1..], gen);
      RowsShape(fam, r, slots[1..], gen);
      assert slots == [slots[0]] + slots[1..];
      var key := PortKey(NormalizeDomain(r.dst), slots[0].port);
      if key in Table(gen, fam) {
        var row := DedicatedLayers(fam, IsDeny(r), Table(gen, fam)[key], slots[0].port);
        assert DedicatedRows(fam, r, slots, gen) == [row] + rest;
        assert RowOf(row, fam, r, slots[0], gen);
        RowsCons(row, rest, fam, r, slots, gen);
      } else {
        assert DedicatedRows(fam, r, slots, gen) == rest;
        assert FromSlots(rest, fam, r, slots, gen);
      }
    }
  }

  lemma RowsCons(row: seq<Layer>, rest: seq<seq<Layer>>, fam: Family, r: Rule, slots: seq<Slot>, gen: Gen)
    requires slots != [] && Ascend(slots) && RowOf(row, fam, r, slots[0], gen)
    requires FromSlots(rest, fam, r, slots[1..], gen) && ForSlots(rest, fam, r, slots[1..], gen) && Spread(rest)
    ensures FromSlots([row] + rest, fam, r, slots, gen)
    ensures ForSlots([row] + rest, fam, r, slots, gen)
    ensures Spread([row] + rest)
  {
    hide RowOf, Spread;
    var rows := [row] + rest;
    assert row in rows && forall x :: x in rest ==> x in rows;
    assert slots == [slots[0]] + slots[1..];
    SpreadCons(row, rest, fam, r, slots, gen);
  }

  lemma RowStarts(row: seq<Layer>, fam: Family, r: Rule, s: Slot, gen: Gen)
    requires RowOf(row, fam, r, s, gen)
    ensures Starts(row) && row[0].dstPort == s.port
  {
    hide PortKey, NormalizeDomain, IsDeny, Table;
  }

  lemma SpreadCons(row: seq<Layer>, rest: seq<seq<Layer>>, fam: Family, r: Rule, slots: seq<Slot>, gen: Gen)
    requires slots != [] && Ascend(slots) && RowOf(row, fam, r, slots[0], gen)
    requires FromSlots(rest, fam, r, slots[1..], gen) && Spread(rest)
    ensures Spread([row] + rest)
  {
    hide RowOf;
    RowStarts(row, fam, r, slots[0], gen);
    forall j | 0 <= j < |rest| && Starts(rest[j]) ensures slots[0].port < rest[j][0].dstPort {
      assert rest[j] in rest;
      var s :| s in slots[1..] && RowOf(rest[j], fam, r, s, gen);
      RowStarts(rest[j], fam, r, s, gen);
    }
  }

  lemma SlotsAscend(r: Rule)
    ensures Ascend(SlotsOf(r))
  {
    hide FanSpan;
  }

  // ---------------------------------------------------------------- permutation keys

  /** Like proto tokens, action tokens must not hold the character permutation keys join on. */
  predicate PlainAction(r: Rule) { ':' !in Lower(r.action) }

  predicate Supported(r: Rule) {
    var p := Lower(r.proto);
    p == "http" || p == "https" || p == "ssh" || p == "tcp" || p == "udp"
  }

  lemma PermKeyInjective(r: Rule, i: nat, s: Rule, j: nat)
    requires Supported(r) && Supported(s) && PlainAction(r) && PlainAction(s)
    requires !ParsePortSpec(r.port).Malformed? && !ParsePortSpec(s.port).Malformed?
    requires PermKey(r, i) == PermKey(s, j)
    ensures r.dst == s.dst && r.port == s.port && Lower(r.action) == Lower(s.action)
    ensures Lower(r.proto) == Lower(s.proto) && i == j
  {
    hide ParsePortSpec, Lower, Itoa;
    ValidPortHasNoColon(r.port);
    ValidPortHasNoColon(s.port);
    assert AllDigits(Itoa(i)) && AllDigits(Itoa(j));
    var a3, b3 := r.dst + ":" + r.port, s.dst + ":" + s.port;
    var a2, b2 := a3 + ":" + Lower(r.action), b3 + ":" + Lower(s.action);
    var a1, b1 := a2 + ":" + Lower(r.proto), b2 + ":" + Lower(s.proto);
    assert PermKey(r, i) == a1 + ['#'] + Itoa(i) && PermKey(s, j) == b1 + ['#'] + Itoa(j);
    UniqueLastSplit(a1, Itoa(i), b1, Itoa(j), '#');
    UniqueLastSplit(a2, Lower(r.proto), b2, Lower(s.proto), ':');
    UniqueLastSplit(a3, Lower(r.action), b3, Lower(s.action), ':');
    UniqueLastSplit(r.dst, r.port, s.dst, s.port, ':');
    ItoaInjective(i, j);
  }

  /** Action tokens are free text too: with a colon in one, two rules share a permutation key. */
  lemma ColonInActionCollides()
    ensures var r, s := Rule("a", "tcp", "1", "x:2:y", [], "", false), Rule("a:1:x", "tcp", "2", "y", [], "", false);
            r.dst != s.dst && Supported(r) && Supported(s) && PermKey(r, 0) == PermKey(s, 0)
  {
    assert Lower("x:2:y") == "x:2:y" && Lower("y") == "y" && Lower("tcp") == "tcp";
    hide Lower, Itoa;
    assert "a" + ":" + "1" + ":" + "x:2:y" == "a:1:x" + ":" + "2" + ":" + "y";
  }

  // ---------------------------------------------------------------- the rows of any rule

  /** A row with a dedicated listener, and what it takes to have one. */
  ghost predicate DedicatedRow(row: seq<Layer>, fam: Family, r: Rule, p: int, gen: Gen) {
    var key := PortKey(NormalizeDomain(r.dst), p);
    && InFamily(fam, r) && Holds(FanSpan(r), p) && key in Table(gen, fam)
    && row == DedicatedLayers(fam, IsDeny(r), Table(gen, fam)[key], p)
  }

  predicate SharedRow(row: seq<Layer>) { forall l :: l in row ==> SharedLayer(l) }

  ghost predicate LawfulRow(row: seq<Layer>, r: Rule, gen: Gen) {
    if Starts(row) then DedicatedRow(row, row[0].fam, r, row[0].dstPort, gen) else SharedRow(row)
  }

  lemma DedicatedRowsLawful(fam: Family, r: Rule, gen: Gen)
    requires InFamily(fam, r)
    ensures forall row :: row in DedicatedRows(fam, r, SlotsOf(r), gen) ==> LawfulRow(row, r, gen)
    ensures Spread(DedicatedRows(fam, r, SlotsOf(r), gen))
  {
    hide PortKey, NormalizeDomain, IsDeny, Table, InFamily, SlotsOf, FanSpan, Lower;
    SlotsAscend(r);
    SlotsIn(r);
    RowsShape(fam, r, SlotsOf(r), gen);
  }

  /** Which transport and upstream an HTTP rule combines. */
  predicate Pairing(a: Layer, b: Layer, r: Rule, net: Net, gen: Gen) {
    && (a.PrefixRange? || a == TcpEgress || a == TlsSni(gen.exact) || a == QuicSni(gen.exact))
    && (a == TcpEgress || a.PrefixRange? <==> Lower(r.proto) == "http")
    && (if net.kind(r.dst) == Cidr then b == HttpOriginalDst || b == HttpsOriginalDst
        else if IsWildcard(r.dst) then b == HttpWildcard || b == HttpsWildcard
        else b == HttpExact || b == HttpsExact)
    && (b == HttpOriginalDst || b == HttpWildcard || b == HttpExact <==> Lower(r.proto) == "http")
    && (a.PrefixRange? ==> net.kind(r.dst) == Cidr)
    && (a == QuicSni(gen.exact) ==> net.kind(r.dst) != Cidr)
  }

  ghost predicate HttpRowOf(row: seq<Layer>, r: Rule, net: Net, gen: Gen) {
    exists a, b :: Pairing(a, b, r, net, gen) && row == HttpRow(OriginKey(r) in gen.wsOrigins, a, b)
  }

  lemma HttpRowsShape(r: Rule, net: Net, gen: Gen)
    requires Lower(r.proto) == "http" || Lower(r.proto) == "https"
    ensures forall row :: row in LayersFor(r, net, gen) ==> HttpRowOf(row, r, net, gen)
  {
    hide Lower, OriginKey, HttpPort, IsWildcard, HttpRow;
    if Lower(r.proto) == "http" {
      var a := if net.kind(r.dst) == Cidr then PrefixRange(HttpPort(r)) else TcpEgress;
      var b := if net.kind(r.dst) == Cidr then HttpOriginalDst else if IsWildcard(r.dst) then HttpWildcard else HttpExact;
      assert Pairing(a, b, r, net, gen);
    } else {
      var b := if net.kind(r.dst) == Cidr then HttpsOriginalDst else if IsWildcard(r.dst) then HttpsWildcard else HttpsExact;
      assert Pairing(TlsSni(gen.exact), b, r, net, gen);
      assert net.kind(r.dst) != Cidr ==> Pairing(QuicSni(gen.exact), b, r, net, gen);
    }
  }

  lemma HttpRowShared(row: seq<Layer>, r: Rule, net: Net, gen: Gen)
    requires HttpRowOf(row, r, net, gen)
    ensures SharedRow(row) && !Starts(row)
  {
    hide Lower, OriginKey, IsWildcard;
  }

  lemma CidrRowsShared(r: Rule)
    ensures forall row :: row in CidrRows(r) ==> SharedRow(row) && !Starts(row)
  {
    hide SlotsOf, IsDeny, FanSpan;
  }

  lemma SharedRowsLawful(r: Rule, net: Net, gen: Gen)
    requires var p := Lower(r.proto); p == "http" || p == "https" || ((p == "ssh" || p == "tcp") && net.kind(r.dst) == Cidr)
    ensures forall row :: row in LayersFor(r, net, gen) ==> SharedRow(row) && !Starts(row)
  {
    hide Lower, HttpRows, HttpsRows, CidrRows, HttpRowOf;
    if Lower(r.proto) == "http" || Lower(r.proto) == "https" {
      HttpRowsShape(r, net, gen);
      hide LayersFor;
      forall row | row in LayersFor(r, net, gen) ensures SharedRow(row) && !Starts(row) {
        HttpRowShared(row, r, net, gen);
      }
    } else {
      CidrRowsShared(r);
    }
  }

  lemma RowsLawful(r: Rule, net: Net, gen: Gen)
    ensures var rows := LayersFor(r, net, gen);
            && (forall row :: row in rows ==> LawfulRow(row, r, gen))
            && Spread(rows)
            && (rows != [] ==> Supported(r))
  {
    hide Lower, HttpRows, HttpsRows, CidrRows, SlotsOf, LawfulRow;
    var p := Lower(r.proto);
    if (p == "ssh" || p == "tcp") && net.kind(r.dst) != Cidr {
      DedicatedRowsLawful(Tcp, r, gen);
    } else if p == "udp" {
      DedicatedRowsLawful(Udp, r, gen);
    } else if p == "http" || p == "https" || p == "ssh" || p == "tcp" {
      SharedRowsLawful(r, net, gen);
      SharedIsLawful(r, gen);
    }
  }

  lemma SharedIsLawful(r: Rule, gen: Gen)
    ensures forall row :: SharedRow(row) && !Starts(row) ==> LawfulRow(row, r, gen)
  {
  }

  // ---------------------------------------------------------------- permutations and the rules they come from

  /** The rule a permutation of r carries: r itself, or its http(s) base if r is ws/wss. */
  predicate StandsFor(e: Rule, r: Rule) {
    e == (if IsWebsocket(r) then r.(proto := BaseProto(r.proto)) else r)
  }

  predicate Made(p: Perm, i: nat, net: Net, gen: Gen) {
    && i < |LayersFor(p.rule, net, gen)|
    && p == Perm(p.rule, LayersFor(p.rule, net, gen)[i], PermKey(p.rule, i))
  }

  ghost predicate From(p: Perm, r: Rule, net: Net, gen: Gen) {
    StandsFor(p.rule, r) && exists i: nat :: Made(p, i, net, gen)
  }

  lemma PermsFrom(e: Rule, r: Rule, net: Net, gen: Gen)
    requires StandsFor(e, r)
    ensures forall p :: p in PermsOf(e, LayersFor(e, net, gen)) ==> From(p, r, net, gen)
  {
    hide LayersFor, PermKey, StandsFor;
    var ps := PermsOf(e, LayersFor(e, net, gen));
    forall p | p in ps ensures From(p, r, net, gen) {
      var i: nat :| i < |ps| && ps[i] == p;
      assert Made(p, i, net, gen);
    }
  }

  lemma {:induction false} DeriveFrom(rules: seq<Rule>, net: Net, gen: Gen, promoted: set<string>)
    ensures forall p :: p in Derive(rules, net, gen, promoted) ==> exists j :: 0 <= j < |rules| && From(p, rules[j], net, gen)
    decreases |rules|
  {
    hide LayersFor, PermsOf, From, IsOpaque, IsDeny, IsWebsocket, BaseProto, OriginKey;
    if rules != [] {
      var next := if Effective(rules[0], gen, promoted).Some? && IsWebsocket(rules[0]) then promoted + {OriginKey(rules[0])} else promoted;
      var rest := Derive(rules[1..], net, gen, next);
      DeriveFrom(rules[1..], net, gen, next);
      forall p | p in rest ensures exists j :: 0 <= j < |rules| && From(p, rules[j], net, gen) {
        var j :| 0 <= j < |rules[1..]| && From(p, rules[1..][j], net, gen);
        assert rules[j + 1] == rules[1..][j];
      }
      if Effective(rules[0], gen, promoted).Some? {
        var e := Effective(rules[0], gen, promoted).value;
        PermsFrom(e, rules[0], net, gen);
        assert Derive(rules, net, gen, promoted) == PermsOf(e, LayersFor(e, net, gen)) + rest;
      } else {
        assert Derive(rules, net, gen, promoted) == rest;
      }
    }
  }

  // ---------------------------------------------------------------- distinct keys and names

  ghost predicate NamesDistinct(rules: seq<Rule>) {
    forall r, s :: r in rules && s in rules && IsOpaque(r) && IsOpaque(s)
                   && Sanitize(NormalizeDomain(r.dst)) == Sanitize(NormalizeDomain(s.dst))
                   ==> NormalizeDomain(r.dst) == NormalizeDomain(s.dst)
  }

  /** What the theorem asks of a rule list: canonical, past the guards, colon-free actions and
      host names that stay distinct when sanitised. */
  ghost predicate Ready(rules: seq<Rule>) {
    && Guarded(rules)
    && (forall r :: r in rules ==> PlainAction(r))
    && NamesDistinct(rules)
  }

  /** A dedicated permutation belongs to an opaque rule, which stands for itself. */
  lemma SlottedFrom(p: Perm, r: Rule, net: Net, gen: Gen)
    requires From(p, r, net, gen) && Slotted(p)
    ensures p.rule == r && DedicatedRow(p.layers, p.layers[0].fam, r, p.layers[0].dstPort, gen)
  {
    hide LayersFor, DedicatedLayers, PermKey, FanSpan, IsDeny, NormalizeDomain;
    RowsLawful(p.rule, net, gen);
    var i: nat :| Made(p, i, net, gen);
    assert p.layers in LayersFor(p.rule, net, gen);
    assert Starts(p.layers);
    OpaqueStandsForItself(p.layers[0].fam, p.rule, r);
  }

  lemma OpaqueStandsForItself(fam: Family, e: Rule, r: Rule)
    requires StandsFor(e, r) && InFamily(fam, e)
    ensures e == r
  {
    BaseIsNotOpaque(r);
  }

  lemma BaseIsNotOpaque(r: Rule)
    ensures IsWebsocket(r) ==> Lower(BaseProto(r.proto)) in {"http", "https"}
  {
    assert Lower("http") == "http" && Lower("https") == "https";
  }

  lemma FromIsPlain(p: Perm, r: Rule, net: Net, gen: Gen)
    requires From(p, r, net, gen) && PlainAction(r) && Admissible(r)
    ensures Supported(p.rule) && PlainAction(p.rule) && !ParsePortSpec(p.rule.port).Malformed?
  {
    hide LayersFor, PermKey, Supported, ParsePortSpec, Lower, NormalizeDomain;
    RowsLawful(p.rule, net, gen);
  }

  lemma SameKeySameSpan(p: Perm, q: Perm, r: Rule, s: Rule, net: Net, gen: Gen)
    requires From(p, r, net, gen) && From(q, s, net, gen)
    requires PlainAction(r) && Admissible(r) && PlainAction(s) && Admissible(s)
    requires p.key == q.key && Slotted(p)
    ensures r.dst == s.dst && FanSpan(r) == FanSpan(s) && InFamily(p.layers[0].fam, r) && InFamily(p.layers[0].fam, s)
  {
    hide LayersFor, PlainAction, Admissible, Supported, ParsePortSpec, DedicatedLayers, IsDeny, NormalizeDomain, Lower;
    FromIsPlain(p, r, net, gen);
    FromIsPlain(q, s, net, gen);
    SlottedFrom(p, r, net, gen);
    var i: nat :| Made(p, i, net, gen);
    var j: nat :| Made(q, j, net, gen);
    PermKeyInjective(p.rule, i, q.rule, j);
    var fam := p.layers[0].fam;
    assert InFamily(fam, q.rule);
    OpaqueStandsForItself(fam, q.rule, s);
  }

  lemma SeparateRules(rules: seq<Rule>, m: nat, n: nat, p: Perm, q: Perm, net: Net, gen: Gen)
    requires Ready(rules) && m < |rules| && n < |rules| && m != n
    requires From(p, rules[m], net, gen) && From(q, rules[n], net, gen)
    ensures Slotted(p) ==> p.key != q.key
    ensures Slotted(p) && Slotted(q) ==> PermName(p) != PermName(q)
  {
    hide Guarded, From, PlainAction, Admissible, FanSpan, NormalizeDomain, Sanitize, SlotName, DedicatedLayers;
    var r, s := rules[m], rules[n];
    assert r in rules && s in rules;
    ReadyAdmissible(rules, m);
    ReadyAdmissible(rules, n);
    if Slotted(p) && p.key == q.key {
      SameKeySameSpan(p, q, r, s, net, gen);
      FanSpanProper(r);
      ApartEither(p.layers[0].fam, rules, m, n, FanSpan(r).lo);
    }
    if Slotted(p) && Slotted(q) && PermName(p) == PermName(q) {
      SameNameSameSlot(rules, p, q, r, s, net, gen);
      ApartEither(p.layers[0].fam, rules, m, n, p.layers[0].dstPort);
    }
  }

  lemma ReadyAdmissible(rules: seq<Rule>, n: nat)
    requires Guarded(rules) && n < |rules|
    ensures Admissible(rules[n])
  {
    hide Admissible;
    assert Settled(rules[n]);
  }

  lemma FanSpanProper(r: Rule)
    ensures Holds(FanSpan(r), FanSpan(r).lo)
  {
    assert |SlotsOf(r)| >= 1;
  }

  lemma ApartEither(fam: Family, rules: seq<Rule>, m: nat, n: nat, p: int)
    requires Guarded(rules) && m < |rules| && n < |rules| && m != n
    requires InFamily(fam, rules[m]) && InFamily(fam, rules[n])
    requires NormalizeDomain(rules[m].dst) == NormalizeDomain(rules[n].dst)
    ensures !(Holds(FanSpan(rules[m]), p) && Holds(FanSpan(rules[n]), p))
  {
    hide Guarded, InFamily, FanSpan, NormalizeDomain;
    if m < n {
      GuardedApart(fam, rules, m, n, p);
    } else {
      GuardedApart(fam, rules, n, m, p);
    }
  }

  lemma SameNameSameSlot(rules: seq<Rule>, p: Perm, q: Perm, r: Rule, s: Rule, net: Net, gen: Gen)
    requires NamesDistinct(rules) && r in rules && s in rules
    requires From(p, r, net, gen) && From(q, s, net, gen)
    requires Slotted(p) && Slotted(q) && PermName(p) == PermName(q)
    ensures var fam, port := p.layers[0].fam, p.layers[0].dstPort;
            && InFamily(fam, r) && InFamily(fam, s) && NormalizeDomain(r.dst) == NormalizeDomain(s.dst)
            && Holds(FanSpan(r), port) && Holds(FanSpan(s), port)
  {
    hide From, NormalizeDomain, Sanitize, SlotName, FanSpan, DedicatedLayers, Lower, InFamily;
    SlottedFrom(p, r, net, gen);
    SlottedFrom(q, s, net, gen);
    SlotNameInjective(p.layers[0].fam, NormalizeDomain(r.dst), p.layers[0].dstPort,
                      q.layers[0].fam, NormalizeDomain(s.dst), q.layers[0].dstPort);
    OpaqueFamily(p.layers[0].fam, r);
    OpaqueFamily(q.layers[0].fam, s);
  }

  lemma SeparateRows(r: Rule, net: Net, gen: Gen)
    requires Supported(r) && PlainAction(r) && !ParsePortSpec(r.port).Malformed?
    ensures var ps := PermsOf(r, LayersFor(r, net, gen));
            forall i, j :: 0 <= i < j < |ps| ==> Separate(ps[i], ps[j])
  {
    hide Supported, PlainAction, ParsePortSpec, PermKey, SlotName, NormalizeDomain, LayersFor;
    RowsLawful(r, net, gen);
    var ps := PermsOf(r, LayersFor(r, net, gen));
    forall i, j | 0 <= i < j < |ps| ensures Separate(ps[i], ps[j]) {
      if PermKey(r, i) == PermKey(r, j) {
        PermKeyInjective(r, i, r, j);
      }
      if Slotted(ps[i]) && Slotted(ps[j]) && PermName(ps[i]) == PermName(ps[j]) {
        var a, b, host := ps[i].layers[0], ps[j].layers[0], NormalizeDomain(r.dst);
        assert Starts(ps[i].layers) && Starts(ps[j].layers);
        SlotNameInjective(a.fam, host, a.dstPort, b.fam, host, b.dstPort);
      }
    }
  }

  lemma FromIsLawful(p: Perm, r: Rule, net: Net, gen: Gen)
    requires From(p, r, net, gen)
    ensures LawfulPerm(p)
  {
    hide LayersFor, PermKey, StandsFor, FanSpan, IsDeny, NormalizeDomain, InFamily, SharedLayer;
    RowsLawful(p.rule, net, gen);
    assert p.layers in LayersFor(p.rule, net, gen);
    assert LawfulRow(p.layers, p.rule, gen);
    assert Starts(p.layers) <==> Slotted(p);
  }

  lemma HeadPermsLawful(e: Rule, r: Rule, net: Net, gen: Gen)
    requires StandsFor(e, r) && PlainAction(r) && Admissible(r)
    ensures LawfulPerms(PermsOf(e, LayersFor(e, net, gen)))
    ensures forall p :: p in PermsOf(e, LayersFor(e, net, gen)) ==> From(p, r, net, gen)
  {
    hide LayersFor, From, Supported, PlainAction, Admissible, ParsePortSpec, StandsFor, Separate, LawfulPerm;
    PermsFrom(e, r, net, gen);
    var ps := PermsOf(e, LayersFor(e, net, gen));
    forall p | p in ps ensures LawfulPerm(p) {
      FromIsLawful(p, r, net, gen);
    }
    if ps != [] {
      assert ps[0] in ps;
      FromIsPlain(ps[0], r, net, gen);
      SeparateRows(e, net, gen);
    }
  }

  lemma {:induction false} DeriveLawful(rules: seq<Rule>, n: nat, net: Net, gen: Gen, promoted: set<string>)
    requires Ready(rules) && n <= |rules|
    ensures LawfulPerms(Derive(rules[n..], net, gen, promoted))
    decreases |rules| - n
  {
    hide Guarded, NamesDistinct, PlainAction, Admissible, LayersFor, PermsOf, From, Separate, LawfulPerm, IsOpaque, IsDeny, IsWebsocket, BaseProto, OriginKey;
    if n < |rules| {
      var r := rules[n];
      assert rules[n..][0] == r && rules[n..][1..] == rules[n + 1..];
      assert r in rules;
      ReadyAdmissible(rules, n);
      var next := if Effective(r, gen, promoted).Some? && IsWebsocket(r) then promoted + {OriginKey(r)} else promoted;
      var rest := Derive(rules[n + 1..], net, gen, next);
      DeriveLawful(rules, n + 1, net, gen, next);
      if Effective(r, gen, promoted).Some? {
        var e := Effective(r, gen, promoted).value;
        HeadPermsLawful(e, r, net, gen);
        LawfulAppend(rules, n, PermsOf(e, LayersFor(e, net, gen)), rest, net, gen, next);
      }
    }
  }

  lemma LawfulAppend(rules: seq<Rule>, n: nat, head: seq<Perm>, rest: seq<Perm>, net: Net, gen: Gen, promoted: set<string>)
    requires Ready(rules) && n < |rules| && LawfulPerms(head) && LawfulPerms(rest)
    requires forall p :: p in head ==> From(p, rules[n], net, gen)
    requires rest == Derive(rules[n + 1..], net, gen, promoted)
    ensures LawfulPerms(head + rest)
  {
    hide Ready, From, LawfulPerm, Derive;
    forall p, q | p in head && q in rest ensures Separate(p, q) {
      DeriveFrom(rules[n + 1..], net, gen, promoted);
      var j :| 0 <= j < |rules[n + 1..]| && From(q, rules[n + 1..][j], net, gen);
      SeparateRules(rules, n, n + 1 + j, p, q, net, gen);
      SeparateRules(rules, n + 1 + j, n, q, p, net, gen);
    }
    SeparateAppend(head, rest);
  }

  lemma SeparateAppend(a: seq<Perm>, b: seq<Perm>)
    requires LawfulPerms(a) && LawfulPerms(b)
    requires forall p, q :: p in a && q in b ==> Separate(p, q)
    ensures LawfulPerms(a + b)
  {
    hide Separate, LawfulPerm;
    forall i, j | 0 <= i < j < |a + b| ensures Separate((a + b)[i], (a + b)[j]) {
      assert i < |a| ==> (a + b)[i] in a;
      assert j >= |a| ==> (a + b)[j] in b;
    }
  }

  // ---------------------------------------------------------------- slots and permutations

  function Base(fam: Family, ports: EnvoyPorts): int { if fam == Tcp then ports.tcpBase else ports.udpBase }

  ghost predicate Serves(p: Perm, fam: Family, s: Slot, envoyPort: int) {
    Slotted(p) && p.rule == s.rule && p.layers[0] == DedicatedListener(fam, envoyPort, s.port)
  }

  lemma {:induction false} DeriveHas(rules: seq<Rule>, net: Net, gen: Gen, promoted: set<string>, r: Rule, row: seq<Layer>)
    requires r in rules && IsOpaque(r) && row in LayersFor(r, net, gen)
    ensures exists p :: p in Derive(rules, net, gen, promoted) && p.rule == r && p.layers == row
    decreases |rules|
  {
    hide LayersFor, IsDeny, OriginKey, BaseProto, PermKey;
    var next := if Effective(rules[0], gen, promoted).Some? && IsWebsocket(rules[0]) then promoted + {OriginKey(rules[0])} else promoted;
    var rest := Derive(rules[1..], net, gen, next);
    assert rules == [rules[0]] + rules[1..];
    if rules[0] == r {
      assert Effective(r, gen, promoted) == Some(r);
      var ps := PermsOf(r, LayersFor(r, net, gen));
      var i :| 0 <= i < |ps| && LayersFor(r, net, gen)[i] == row;
      assert Derive(rules, net, gen, promoted) == ps + rest;
      assert ps[i] in ps + rest && ps[i].layers == row;
    } else {
      DeriveHas(rules[1..], net, gen, next, r, row);
      var p :| p in rest && p.rule == r && p.layers == row;
      assert p in Derive(rules, net, gen, promoted);
    }
  }

  lemma LayersDedicated(fam: Family, r: Rule, net: Net, gen: Gen)
    requires Fans(fam, net.kind, r)
    ensures LayersFor(r, net, gen) == DedicatedRows(fam, r, SlotsOf(r), gen) && IsOpaque(r)
  {
    hide Lower, HttpRows, HttpsRows, CidrRows, DedicatedRows, SlotsOf;
  }

  lemma TableOf(fam: Family, rules: seq<Rule>, net: Net, ports: EnvoyPorts)
    ensures Table(GenFacts(rules, net, ports), fam) == PortTable(Assign(Fanout(fam, net.kind, rules), Base(fam, ports)))
  {
    hide PortTable, Assign, Fanout, NormalizeDomain, OriginKey, Allows, IsWebsocket, IsBase, OwnsApex;
  }

  lemma SlotTable(fam: Family, rules: seq<Rule>, net: Net, ports: EnvoyPorts)
    requires Guarded(rules)
    ensures var slots, table := Fanout(fam, net.kind, rules), Table(GenFacts(rules, net, ports), fam);
            && (forall i :: 0 <= i < |slots| ==> SlotKey(slots[i]) in table && table[SlotKey(slots[i])] == Base(fam, ports) + i)
            && (forall k :: k in table ==> exists i :: 0 <= i < |slots| && k == SlotKey(slots[i]))
  {
    hide Guarded, PortTable, Assign, Fanout, SlotKey, GenFacts, DistinctSlots;
    assert rules[0..] == rules;
    FanoutDistinct(fam, net.kind, rules, 0);
    TableOf(fam, rules, net, ports);
    TableAt(Fanout(fam, net.kind, rules), Base(fam, ports));
  }

  /** Every slot has its permutation, with the listener port its mapping announces. */
  lemma SlotServed(fam: Family, rules: seq<Rule>, net: Net, ports: EnvoyPorts, k: nat)
    requires Guarded(rules) && k < |Fanout(fam, net.kind, rules)|
    ensures exists p :: p in Derive(rules, net, GenFacts(rules, net, ports), {})
                        && Serves(p, fam, Fanout(fam, net.kind, rules)[k], Base(fam, ports) + k)
  {
    hide Guarded, Fanout, Fans, FanSpan, SlotsOf, GenFacts, Derive, LayersFor, DedicatedRows, PortKey, NormalizeDomain, IsOpaque, IsDeny, Table;
    var s, gen := Fanout(fam, net.kind, rules)[k], GenFacts(rules, net, ports);
    FanoutIn(fam, net.kind, rules);
    assert s in Fanout(fam, net.kind, rules);
    SlotTable(fam, rules, net, ports);
    SlotsIn(s.rule);
    SlotsAscend(s.rule);
    RowsShape(fam, s.rule, SlotsOf(s.rule), gen);
    LayersDedicated(fam, s.rule, net, gen);
    var row :| row in DedicatedRows(fam, s.rule, SlotsOf(s.rule), gen) && RowOf(row, fam, s.rule, s, gen);
    DeriveHas(rules, net, gen, {}, s.rule, row);
    var p :| p in Derive(rules, net, gen, {}) && p.rule == s.rule && p.layers == row;
    assert Serves(p, fam, s, Base(fam, ports) + k);
  }

  /** And every dedicated permutation is the permutation of a slot. */
  lemma PermHasSlot(rules: seq<Rule>, net: Net, ports: EnvoyPorts, p: Perm)
    requires Guarded(rules) && p in Derive(rules, net, GenFacts(rules, net, ports), {}) && Slotted(p)
    ensures var fam := p.layers[0].fam;
            exists k :: 0 <= k < |Fanout(fam, net.kind, rules)|
                        && Serves(p, fam, Fanout(fam, net.kind, rules)[k], Base(fam, ports) + k)
  {
    hide Guarded, From, Fanout, Fans, FanSpan, GenFacts, Derive, PortKey, NormalizeDomain, IsDeny, Table, InFamily;
    var gen, fam, port := GenFacts(rules, net, ports), p.layers[0].fam, p.layers[0].dstPort;
    DeriveFrom(rules, net, gen, {});
    var j :| 0 <= j < |rules| && From(p, rules[j], net, gen);
    SlottedFrom(p, rules[j], net, gen);
    SlotTable(fam, rules, net, ports);
    var slots := Fanout(fam, net.kind, rules);
    var k :| 0 <= k < |slots| && PortKey(NormalizeDomain(rules[j].dst), port) == SlotKey(slots[k]);
    PortKeyInjective(NormalizeDomain(rules[j].dst), port, Host(slots[k]), slots[k].port);
    SlotOfRule(fam, rules, net, j, slots[k]);
    assert Serves(p, fam, slots[k], Base(fam, ports) + k);
  }

  lemma SlotOfRule(fam: Family, rules: seq<Rule>, net: Net, j: nat, s: Slot)
    requires Guarded(rules) && j < |rules| && s in Fanout(fam, net.kind, rules)
    requires InFamily(fam, rules[j]) && Host(s) == NormalizeDomain(rules[j].dst) && Holds(FanSpan(rules[j]), s.port)
    ensures s.rule == rules[j]
  {
    hide Guarded, FanSpan, NormalizeDomain, InFamily;
    FanoutIn(fam, net.kind, rules);
    var m :| 0 <= m < |rules| && rules[m] == s.rule;
    if m != j {
      ApartEither(fam, rules, m, j, s.port);
    }
  }

  // ---------------------------------------------------------------- the theorem

  /** The listener of a slot: bound where the slot's mapping says, ending in the pin of that
      very host and port, or in the blackhole. */
  ghost predicate Listens(cfg: Config, fam: Family, s: Slot, envoyPort: int, net: Net) {
    var name, deny := SlotName(fam, Host(s), s.port), IsDeny(s.rule);
    && name in cfg.listeners && cfg.listeners[name] == SlotListener(fam, deny, envoyPort, name)
    && SlotTarget(name, deny) in cfg.clusters
    && cfg.clusters[SlotTarget(name, deny)] == SlotCluster(Host(s), s.port, deny, net)
  }

  ghost predicate SlotNamed(fam: Family, slots: seq<Slot>, name: string) {
    exists k :: 0 <= k < |slots| && name == SlotName(fam, Host(slots[k]), slots[k].port)
  }

  lemma ServesListens(p: Perm, fam: Family, s: Slot, envoyPort: int, net: Net, cfg: Config)
    requires Serves(p, fam, s, envoyPort) && InPlace(p, net, cfg)
    ensures Listens(cfg, fam, s, envoyPort, net) && PermName(p) == SlotName(fam, Host(s), s.port)
  {
    hide SlotName, SlotListener, SlotTarget, SlotCluster, IsDeny, NormalizeDomain;
  }

  lemma DedicatedLockstep(rules: seq<Rule>, net: Net, ports: EnvoyPorts)
    requires Ready(rules) && Generate(rules, net, ports).Some?
    ensures var cfg := Generate(rules, net, ports).value;
            && (forall fam, k :: 0 <= k < |Fanout(fam, net.kind, rules)| ==>
                  Listens(cfg, fam, Fanout(fam, net.kind, rules)[k], Base(fam, ports) + k, net))
            && (forall name :: name in cfg.listeners ==>
                  Common(name) || SlotNamed(Tcp, Fanout(Tcp, net.kind, rules), name)
                  || SlotNamed(Udp, Fanout(Udp, net.kind, rules), name))
  {
    hide Guarded, NamesDistinct, PlainAction, Fanout, GenFacts, Derive, RunPerms, Common, Slotted, InPlace, PermName, LawfulPerms, Host, SlotName, Serves, Listens;
    var ps := Derive(rules, net, GenFacts(rules, net, ports), {});
    assert rules[0..] == rules;
    DeriveLawful(rules, 0, net, GenFacts(rules, net, ports), {});
    RunPermsSlots(ps, net, ports, Config(map[], map[]), {});
    var cfg := Generate(rules, net, ports).value;
    forall fam, k | 0 <= k < |Fanout(fam, net.kind, rules)|
      ensures Listens(cfg, fam, Fanout(fam, net.kind, rules)[k], Base(fam, ports) + k, net)
    {
      SlotServed(fam, rules, net, ports, k);
      var p :| p in ps && Serves(p, fam, Fanout(fam, net.kind, rules)[k], Base(fam, ports) + k);
      ServesIsSlotted(p, fam, Fanout(fam, net.kind, rules)[k], Base(fam, ports) + k);
      ServesListens(p, fam, Fanout(fam, net.kind, rules)[k], Base(fam, ports) + k, net, cfg);
    }
    forall name | name in cfg.listeners && !Common(name)
      ensures SlotNamed(Tcp, Fanout(Tcp, net.kind, rules), name) || SlotNamed(Udp, Fanout(Udp, net.kind, rules), name)
    {
      var p :| p in ps && Slotted(p) && PermName(p) == name;
      NamedSlot(rules, net, ports, p, cfg);
    }
  }

  lemma ServesIsSlotted(p: Perm, fam: Family, s: Slot, envoyPort: int)
    requires Serves(p, fam, s, envoyPort)
    ensures Slotted(p)
  {
  }

  lemma NamedSlot(rules: seq<Rule>, net: Net, ports: EnvoyPorts, p: Perm, cfg: Config)
    requires Guarded(rules) && p in Derive(rules, net, GenFacts(rules, net, ports), {}) && Slotted(p) && InPlace(p, net, cfg)
    ensures SlotNamed(Tcp, Fanout(Tcp, net.kind, rules), PermName(p)) || SlotNamed(Udp, Fanout(Udp, net.kind, rules), PermName(p))
  {
    hide Guarded, Fanout, GenFacts, Derive, InPlace, PermName, Host, SlotName, Serves;
    PermHasSlot(rules, net, ports, p);
    var fam := p.layers[0].fam;
    var slots := Fanout(fam, net.kind, rules);
    var k :| 0 <= k < |slots| && Serves(p, fam, slots[k], Base(fam, ports) + k);
    ServesListens(p, fam, slots[k], Base(fam, ports) + k, net, cfg);
  }
}

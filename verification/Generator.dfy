/** The layered Envoy generator: rules become permutations, each a list of layers, and every
    permutation is run through one context and committed to the accumulator. */
module Generator {
  import opened Text
  import opened Rules
  import opened Dedicated
  import opened EnvoyConfig
  import HttpRoutes

  /** What the network library says about destinations: their kind, and the address range
      a chain match names for them. */
  datatype Net = Net(kind: Classifier, range: string -> string)

  const EGRESS := "egress"
  const QUIC := "egress_quic"
  const DENY := "deny_cluster"

  // ---------------------------------------------------------------- names

  function SanitizeChar(c: char): char {
    if c == '.' || c == '-' || c == ':' || c == '/' then '_' else c
  }

  function Sanitize(s: string): (r: string)
    ensures |r| == |s|
    ensures forall i :: 0 <= i < |s| ==> r[i] == SanitizeChar(s[i])
  {
    seq(|s|, i requires 0 <= i < |s| => SanitizeChar(s[i]))
  }

  function PortText(p: int): string { if p < 0 then "-" + Itoa(-p) else Itoa(p) }

  function NameFor(prefix: string, host: string, port: int): string {
    prefix + Sanitize(host) + "_" + PortText(port)
  }

  /** tcpPinnedName / udpPinnedName: the dedicated listener and its cluster share it. */
  function SlotName(fam: Family, host: string, port: int): string {
    NameFor(if fam == Tcp then "tcp_" else "udp_", host, port)
  }

  // ---------------------------------------------------------------- context and layers

  datatype Ctx = Ctx(
    listener: string, match_: Match, terminal: Option<Terminal>, clusters: seq<(string, Cluster)>,
    port: int, bareHostPort: int, upstream: string, websocket: bool)

  const NEW_CTX := Ctx("", AnyConnection, None, [], 0, 0, "", false)

  datatype Layer =
    | WsEnrich
    | TcpEgress
    | PrefixRange(port: int)
    | TlsSni(exact: set<string>)
    | QuicSni(exact: set<string>)
    | DedicatedListener(fam: Family, envoyPort: int, dstPort: int)
    | HttpExact | HttpWildcard | HttpOriginalDst
    | HttpsExact | HttpsWildcard | HttpsOriginalDst
    | PinnedUpstream(fam: Family)
    | OpaqueCidrUpstream
    | ProxyTerminal(fam: Family)
    | DenyTerminal(fam: Family)
    | HttpApp

  function HttpPort(r: Rule): int {
    match SinglePort(r) case Some(p) => p case None => HTTP_PORT
  }

  function HttpsPort(r: Rule): int {
    match SinglePort(r) case Some(p) => p case None => DEFAULT_DEST_PORT
  }

  /** The SNI entries a chain claims; an exact rule owns its apex alone. */
  function ServerNames(dst: string, exact: set<string>): seq<string> {
    var domain := NormalizeDomain(dst);
    if !IsWildcard(dst) then [domain]
    else if domain in exact then ["*." + domain]
    else ["*." + domain, domain]
  }

  function CryptoMatch(r: Rule, net: Net, exact: set<string>, tcp: bool): Match {
    if net.kind(r.dst) != Fqdn then TlsRange(net.range(r.dst), HttpsPort(r))
    else if tcp then TlsNames(ServerNames(r.dst, exact))
    else QuicNames(ServerNames(r.dst, exact))
  }

  function VirtualHostName(dst: string, port: int): string {
    (if IsWildcard(dst) then "wildcard_" else "") + Sanitize(NormalizeDomain(dst)) + "_" + PortText(port)
  }

  function HttpDomains(dst: string, port: int, barePort: int): seq<string> {
    var d, p, bare := NormalizeDomain(dst), PortText(port), port == barePort;
    if IsWildcard(dst) then
      (if bare then ["*." + d] else []) + ["*." + d + ":" + p] + (if bare then [d] else []) + [d + ":" + p]
    else (if bare then [d] else []) + [d + ":" + p]
  }

  /** The trailing catch-all: any authority no allow virtual host claims is refused. */
  const DENY_ALL := VHost("deny_all", ["*"], "", [HttpRoutes.Route(HttpRoutes.Prefix("/"), HttpRoutes.AnyMethod, HttpRoutes.Deny)])

  function AppVHosts(r: Rule, net: Net, ctx: Ctx): seq<VHost> {
    var name := VirtualHostName(r.dst, ctx.port);
    var routes := HttpRoutes.RouteList(r);
    if net.kind(r.dst) == Cidr then [VHost(name, ["*"], ctx.upstream, routes)]
    else [VHost(name, HttpDomains(r.dst, ctx.port, ctx.bareHostPort), ctx.upstream, routes), DENY_ALL]
  }

  function WithUpstream(ctx: Ctx, name: string, body: Cluster): Ctx {
    ctx.(clusters := ctx.clusters + [(name, body)], upstream := name)
  }

  predicate ListenerLayer(l: Layer) {
    l.TcpEgress? || l.PrefixRange? || l.TlsSni? || l.QuicSni? || l.DedicatedListener?
  }

  predicate TerminalLayer(l: Layer) { l.ProxyTerminal? || l.DenyTerminal? || l.HttpApp? }

  predicate UpstreamLayer(l: Layer) { !ListenerLayer(l) && !TerminalLayer(l) && !l.WsEnrich? }

  /** The cluster an upstream layer brings, by name and body. */
  function Upstream(l: Layer, r: Rule, net: Net, ctx: Ctx): (string, Cluster)
    requires UpstreamLayer(l)
  {
    var host := NormalizeDomain(r.dst);
    var isStatic := net.kind(host) != Fqdn;
    var tls := Reencrypt(r.skipTlsVerify, ctx.websocket);
    match l
    case HttpExact => (NameFor("http_", host, HttpPort(r)), Pinned(host, HttpPort(r), isStatic, Plaintext))
    case HttpWildcard => ("http_dfp", ForwardProxy(Plaintext))
    case HttpOriginalDst => (NameFor("http_origdst_", host, HttpPort(r)), OriginalDst(Plaintext))
    case HttpsExact => (NameFor("tls_", host, HttpsPort(r)), Pinned(host, HttpsPort(r), isStatic, tls))
    case HttpsWildcard => (if ctx.websocket then "wss_dfp" else "https_dfp", ForwardProxy(tls))
    case HttpsOriginalDst => (NameFor("tls_origdst_", host, HttpsPort(r)), OriginalDst(tls))
    case PinnedUpstream(fam) => (SlotName(fam, host, ctx.port), Pinned(host, ctx.port, isStatic, Plaintext))
    case OpaqueCidrUpstream => (NameFor("tcp_origdst_", host, ctx.port), OriginalDst(Plaintext))
  }

  /** One layer: the new context and tree, or None for its error. */
  function RunLayer(l: Layer, r: Rule, net: Net, ports: EnvoyPorts, ctx: Ctx, c: Config): Option<(Ctx, Config)> {
    match l
    case WsEnrich => Some((ctx.(websocket := true), c))
    case TcpEgress =>
      Some((ctx.(listener := EGRESS, match_ := RawBuffer, port := HttpPort(r), bareHostPort := HTTP_PORT),
            EnsureListener(c, EGRESS, ports.egress, false)))
    case PrefixRange(p) =>
      Some((ctx.(listener := EGRESS, match_ := RawRange(net.range(r.dst), p), port := p),
            EnsureListener(c, EGRESS, ports.egress, false)))
    case TlsSni(exact) =>
      Some((ctx.(listener := EGRESS, match_ := CryptoMatch(r, net, exact, true), port := HttpsPort(r), bareHostPort := DEFAULT_DEST_PORT),
            EnsureListener(c, EGRESS, ports.egress, false)))
    case QuicSni(exact) =>
      if net.kind(r.dst) != Fqdn then None
      else
        Some((ctx.(listener := QUIC, match_ := CryptoMatch(r, net, exact, false), port := HttpsPort(r), bareHostPort := DEFAULT_DEST_PORT),
              EnsureListener(c, QUIC, ports.egress, true)))
    case DedicatedListener(fam, envoyPort, dstPort) =>
      var name := SlotName(fam, NormalizeDomain(r.dst), dstPort);
      Some((ctx.(listener := name, match_ := AnyConnection, port := dstPort), EnsureListener(c, name, envoyPort, fam == Udp)))
    case ProxyTerminal(fam) =>
      if ctx.upstream == "" then None
      else if fam == Tcp then Some((ctx.(terminal := Some(Proxy(ctx.upstream))), c))
      else Target(ctx, c, ctx.upstream)
    case DenyTerminal(fam) =>
      var ctx' := ctx.(clusters := ctx.clusters + [(DENY, Blackhole)]);
      if fam == Tcp then Some((ctx'.(terminal := Some(Proxy(DENY))), c)) else Target(ctx', c, DENY)
    case HttpApp =>
      if ctx.listener == "" || ctx.upstream == "" then None
      else Some((ctx.(terminal := Some(Hcm(AppVHosts(r, net, ctx)))), c))
    case _ =>
      var (name, body) := Upstream(l, r, net, ctx);
      Some((WithUpstream(ctx, name, body), c))
  }

  function Target(ctx: Ctx, c: Config, cluster: string): Option<(Ctx, Config)> {
    match SetUdpTarget(c, ctx.listener, cluster)
    case None => None
    case Some(c') => Some((ctx, c'))
  }

  function RunLayers(ls: seq<Layer>, r: Rule, net: Net, ports: EnvoyPorts, ctx: Ctx, c: Config): Option<(Ctx, Config)> {
    if ls == [] then Some((ctx, c))
    else
      match RunLayer(ls[0], r, net, ports, ctx, c)
      case None => None
      case Some((ctx', c')) => RunLayers(ls[1..], r, net, ports, ctx', c')
  }

  function AddClusters(c: Config, clusters: seq<(string, Cluster)>): Option<Config>
    decreases |clusters|
  {
    if clusters == [] then Some(c)
    else
      match AddCluster(c, clusters[0].0, clusters[0].1)
      case None => None
      case Some(c') => AddClusters(c', clusters[1..])
  }

  function Commit(ctx: Ctx, c: Config): Option<Config> {
    match AddClusters(c, ctx.clusters)
    case None => None
    case Some(c') =>
      match ctx.terminal
      case None => Some(c')
      case Some(t) => AddChain(c', ctx.listener, Chain(ctx.match_, t))
  }

  // ---------------------------------------------------------------- permutations

  datatype Perm = Perm(rule: Rule, layers: seq<Layer>, key: string)

  /** Facts no permutation can decide alone. */
  datatype Gen = Gen(
    tcpPorts: map<string, int>, udpPorts: map<string, int>,
    exact: set<string>, wsOrigins: set<string>, baseOrigins: set<string>)

  function BaseProto(proto: string): string {
    var p := Lower(proto);
    if p == "ws" then "http" else if p == "wss" then "https" else p
  }

  function OriginKey(r: Rule): string { r.dst + ":" + PortText(EffectivePort(r)) }

  predicate Allows(r: Rule) { Lower(r.action) == "allow" || r.action == "" }

  function PortKey(host: string, port: int): string { host + ":" + PortText(port) }

  /** The lookup table the generator fills from the mappings; the last of a key wins. */
  function PortTable(ms: seq<Mapping>): map<string, int> {
    if ms == [] then map[]
    else
      var m := ms[|ms| - 1];
      PortTable(ms[..|ms| - 1])[PortKey(m.dst, m.dstPort) := m.envoyPort]
  }

  predicate OwnsApex(r: Rule) { Allows(r) && BaseProto(r.proto) == "https" && !IsWildcard(r.dst) }
  predicate IsWebsocket(r: Rule) { Lower(r.proto) == "ws" || Lower(r.proto) == "wss" }
  predicate IsBase(r: Rule) { Lower(r.proto) == "http" || Lower(r.proto) == "https" }

  function GenFacts(rules: seq<Rule>, net: Net, ports: EnvoyPorts): Gen {
    Gen(PortTable(Mappings(Tcp, net.kind, rules, ports)),
        PortTable(Mappings(Udp, net.kind, rules, ports)),
        set r | r in rules && OwnsApex(r) :: NormalizeDomain(r.dst),
        set r | r in rules && Allows(r) && IsWebsocket(r) :: OriginKey(r),
        set r | r in rules && Allows(r) && IsBase(r) :: OriginKey(r))
  }

  function Table(gen: Gen, fam: Family): map<string, int> {
    if fam == Tcp then gen.tcpPorts else gen.udpPorts
  }

  /** The layers of one dedicated listener. */
  function DedicatedLayers(fam: Family, deny: bool, envoyPort: int, port: int): seq<Layer> {
    [DedicatedListener(fam, envoyPort, port)]
    + (if deny then [DenyTerminal(fam)] else [PinnedUpstream(fam), ProxyTerminal(fam)])
  }

  /** One list per port that has a pre-assigned listener port. */
  function DedicatedRows(fam: Family, r: Rule, slots: seq<Slot>, gen: Gen): seq<seq<Layer>> {
    if slots == [] then []
    else
      var key := PortKey(NormalizeDomain(r.dst), slots[0].port);
      (if key in Table(gen, fam) then [DedicatedLayers(fam, IsDeny(r), Table(gen, fam)[key], slots[0].port)] else [])
      + DedicatedRows(fam, r, slots[1..], gen)
  }

  function CidrRow(r: Rule, port: int): seq<Layer> {
    [PrefixRange(port)]
    + (if IsDeny(r) then [DenyTerminal(Tcp)] else [OpaqueCidrUpstream, ProxyTerminal(Tcp)])
  }

  /** The layers of an HTTP stack: transport, upstream, application, enriched for websockets. */
  function HttpRow(ws: bool, transport: Layer, upstream: Layer): seq<Layer> {
    (if ws then [WsEnrich] else []) + [transport, upstream, HttpApp]
  }

  function HttpRows(r: Rule, net: Net, gen: Gen): seq<seq<Layer>> {
    var ws := OriginKey(r) in gen.wsOrigins;
    if net.kind(r.dst) == Cidr then [HttpRow(ws, PrefixRange(HttpPort(r)), HttpOriginalDst)]
    else if IsWildcard(r.dst) then [HttpRow(ws, TcpEgress, HttpWildcard)]
    else [HttpRow(ws, TcpEgress, HttpExact)]
  }

  function HttpsRows(r: Rule, net: Net, gen: Gen): seq<seq<Layer>> {
    var ws := OriginKey(r) in gen.wsOrigins;
    var tcp, quic := TlsSni(gen.exact), QuicSni(gen.exact);
    if net.kind(r.dst) == Cidr then [HttpRow(ws, tcp, HttpsOriginalDst)]
    else if IsWildcard(r.dst) then [HttpRow(ws, tcp, HttpsWildcard), HttpRow(ws, quic, HttpsWildcard)]
    else if net.kind(r.dst) != Fqdn then [HttpRow(ws, tcp, HttpsExact)]
    else [HttpRow(ws, tcp, HttpsExact), HttpRow(ws, quic, HttpsExact)]
  }

  function CidrRows(r: Rule): seq<seq<Layer>> {
    var slots := SlotsOf(r);
    seq(|slots|, i requires 0 <= i < |slots| => CidrRow(r, slots[i].port))
  }

  /** The table: a rule and its permutations, each a list of layers. */
  function LayersFor(r: Rule, net: Net, gen: Gen): seq<seq<Layer>> {
    var p := Lower(r.proto);
    if p == "http" then HttpRows(r, net, gen)
    else if p == "https" then HttpsRows(r, net, gen)
    else if p == "ssh" || p == "tcp" then
      if net.kind(r.dst) == Cidr then CidrRows(r) else DedicatedRows(Tcp, r, SlotsOf(r), gen)
    else if p == "udp" then DedicatedRows(Udp, r, SlotsOf(r), gen)
    else []
  }

  function PermKey(r: Rule, i: nat): string {
    r.dst + ":" + r.port + ":" + Lower(r.action) + ":" + Lower(r.proto) + "#" + Itoa(i)
  }

  function PermsOf(r: Rule, rows: seq<seq<Layer>>): (ps: seq<Perm>)
    ensures |ps| == |rows|
    ensures forall i :: 0 <= i < |rows| ==> ps[i] == Perm(r, rows[i], PermKey(r, i))
  {
    seq(|rows|, i requires 0 <= i < |rows| => Perm(r, rows[i], PermKey(r, i)))
  }

  /** A ws/wss rule rides an explicit base rule or is promoted once to that base. */
  function Effective(r: Rule, gen: Gen, promoted: set<string>): Option<Rule> {
    if IsDeny(r) && !IsOpaque(r) then None
    else if !IsWebsocket(r) then Some(r)
    else if OriginKey(r) in gen.baseOrigins || OriginKey(r) in promoted then None
    else Some(r.(proto := BaseProto(r.proto)))
  }

  function Derive(rules: seq<Rule>, net: Net, gen: Gen, promoted: set<string>): seq<Perm>
    decreases |rules|
  {
    if rules == [] then []
    else
      match Effective(rules[0], gen, promoted)
      case None => Derive(rules[1..], net, gen, promoted)
      case Some(r) =>
        PermsOf(r, LayersFor(r, net, gen))
        + Derive(rules[1..], net, gen, if IsWebsocket(rules[0]) then promoted + {OriginKey(rules[0])} else promoted)
  }

  function RunPerm(p: Perm, net: Net, ports: EnvoyPorts, c: Config): Option<Config> {
    match RunLayers(p.layers, p.rule, net, ports, NEW_CTX, c)
    case None => None
    case Some((ctx, c')) => Commit(ctx, c')
  }

  /** Every permutation once, in order; the first error ends generation. */
  function RunPerms(ps: seq<Perm>, net: Net, ports: EnvoyPorts, c: Config, seen: set<string>): Option<Config>
    decreases |ps|
  {
    if ps == [] then Some(c)
    else if ps[0].key in seen then RunPerms(ps[1..], net, ports, c, seen)
    else
      match RunPerm(ps[0], net, ports, c)
      case None => None
      case Some(c') => RunPerms(ps[1..], net, ports, c', seen + {ps[0].key})
  }

  /** The tree after every permutation, before the fixed once-per-config listeners. */
  function Generate(rules: seq<Rule>, net: Net, ports: EnvoyPorts): Option<Config> {
    RunPerms(Derive(rules, net, GenFacts(rules, net, ports), {}), net, ports, Config(map[], map[]), {})
  }
}

/** The Envoy accumulator: listeners, filter chains and clusters grow permutation by
    permutation, and a structural violation fails generation. */
module EnvoyConfig {
  import opened Text
  import HttpRoutes

  // ---------------------------------------------------------------- the tree

  /** filter_chain_match; equal values are equal signatures. */
  datatype Match =
    | AnyConnection
    | RawBuffer
    | RawRange(range: string, port: int)
    | TlsNames(names: seq<string>)
    | QuicNames(names: seq<string>)
    | TlsRange(range: string, port: int)

  /** A virtual host: the authorities it claims, the cluster its allow routes forward to, and
      its route list. */
  datatype VHost = VHost(name: string, domains: seq<string>, cluster: string, routes: seq<HttpRoutes.Route>)

  /** What a chain ends in: an opaque proxy to one cluster, or an HTTP manager. */
  datatype Terminal = Proxy(cluster: string) | Hcm(vhosts: seq<VHost>)

  datatype Chain = Chain(match_: Match, terminal: Terminal)

  /** One listener; udpTarget is the cluster of its udp_proxy listener filter. */
  datatype Listener = Listener(bind: int, udp: bool, chains: seq<Chain>, udpTarget: Option<string>)

  /** TLS posture of an upstream: skip verification, HTTP/1.1 only. */
  datatype Tls = Plaintext | Reencrypt(skipVerify: bool, http11: bool)

  datatype Cluster =
    | Pinned(host: string, port: int, isStatic: bool, tls: Tls)
    | Blackhole
    | OriginalDst(tls: Tls)
    | ForwardProxy(tls: Tls)

  datatype Config = Config(listeners: map<string, Listener>, clusters: map<string, Cluster>)

  // ---------------------------------------------------------------- operations on the tree

  function EnsureListener(c: Config, name: string, bind: int, udp: bool): Config {
    if name in c.listeners then c
    else c.(listeners := c.listeners[name := Listener(bind, udp, [], None)])
  }

  /** None is the conflicting-definition error. */
  function AddCluster(c: Config, name: string, body: Cluster): Option<Config> {
    if name == "" || (name in c.clusters && c.clusters[name] != body) then None
    else Some(c.(clusters := c.clusters[name := body]))
  }

  /** First virtual host of each name, in order. */
  function UnionByName(vhosts: seq<VHost>, seen: set<string>): seq<VHost> {
    if vhosts == [] then []
    else if vhosts[0].name in seen then UnionByName(vhosts[1..], seen)
    else [vhosts[0]] + UnionByName(vhosts[1..], seen + {vhosts[0].name})
  }

  /** Position of the chain with this match, or |chains|. */
  function FindChain(chains: seq<Chain>, m: Match): (i: nat)
    ensures i <= |chains|
    ensures i < |chains| ==> chains[i].match_ == m
    ensures forall j :: 0 <= j < i ==> chains[j].match_ != m
  {
    if chains == [] || chains[0].match_ == m then 0 else 1 + FindChain(chains[1..], m)
  }

  /** A chain whose match is already there is merged if both are HTTP managers, else refused. */
  function AddToChains(chains: seq<Chain>, chain: Chain): Option<seq<Chain>> {
    var i := FindChain(chains, chain.match_);
    if i == |chains| then Some(chains + [chain])
    else
      match (chains[i].terminal, chain.terminal)
      case (Hcm(old_), Hcm(new_)) =>
        Some(chains[i := chains[i].(terminal := Hcm(UnionByName(old_ + new_, {})))])
      case _ => None
  }

  function AddChain(c: Config, name: string, chain: Chain): Option<Config> {
    if name !in c.listeners then None
    else
      match AddToChains(c.listeners[name].chains, chain)
      case None => None
      case Some(chains) => Some(c.(listeners := c.listeners[name := c.listeners[name].(chains := chains)]))
  }

  function SetUdpTarget(c: Config, name: string, cluster: string): Option<Config> {
    if name !in c.listeners then None
    else Some(c.(listeners := c.listeners[name := c.listeners[name].(udpTarget := Some(cluster))]))
  }

  // ---------------------------------------------------------------- structural invariants

  predicate UniqueMatches(chains: seq<Chain>) {
    forall i, j :: 0 <= i < j < |chains| ==> chains[i].match_ != chains[j].match_
  }

  /** No two chains of one listener share a match. */
  predicate WellFormed(c: Config) {
    forall name :: name in c.listeners ==> UniqueMatches(c.listeners[name].chains)
  }

  predicate UniqueNames(vhosts: seq<VHost>) {
    forall i, j :: 0 <= i < j < |vhosts| ==> vhosts[i].name != vhosts[j].name
  }

  /** Merging keeps one virtual host per name, the first, and loses no name. */
  lemma {:induction false} UnionByNameShape(vhosts: seq<VHost>, seen: set<string>)
    ensures UniqueNames(UnionByName(vhosts, seen))
    ensures forall v :: v in UnionByName(vhosts, seen) ==> v in vhosts && v.name !in seen
    ensures forall v :: v in vhosts ==> v.name in seen || exists w :: w in UnionByName(vhosts, seen) && w.name == v.name
  {
    if vhosts != [] {
      assert vhosts == [vhosts[0]] + vhosts[1..];
      if vhosts[0].name in seen {
        UnionByNameShape(vhosts[1..], seen);
      } else {
        UnionByNameShape(vhosts[1..], seen + {vhosts[0].name});
        UnionCons(vhosts[0], vhosts[1..], UnionByName(vhosts[1..], seen + {vhosts[0].name}), seen);
      }
    }
  }

  lemma UnionCons(v: VHost, tail: seq<VHost>, rest: seq<VHost>, seen: set<string>)
    requires UniqueNames(rest) && v.name !in seen
    requires forall w :: w in rest ==> w in tail && w.name !in seen + {v.name}
    requires forall w :: w in tail ==> w.name in seen + {v.name} || exists u :: u in rest && u.name == w.name
    ensures UniqueNames([v] + rest)
    ensures forall w :: w in [v] + rest ==> w in [v] + tail && w.name !in seen
    ensures forall w :: w in [v] + tail ==> w.name in seen || exists u :: u in [v] + rest && u.name == w.name
  {
    assert forall i :: 0 <= i < |rest| ==> rest[i] in rest;
    hide UniqueNames;
    forall w | w in [v] + tail && w.name !in seen && w.name != v.name ensures exists u :: u in [v] + rest && u.name == w.name {
      var u :| u in rest && u.name == w.name;
      assert u in [v] + rest;
    }
    assert v in [v] + rest;
  }

  /** One cluster name keeps one body for good. */
  ghost predicate ClustersKept(before: Config, after: Config) {
    forall n :: n in before.clusters ==> n in after.clusters && after.clusters[n] == before.clusters[n]
  }

  lemma AddChainKeeps(c: Config, name: string, chain: Chain)
    requires WellFormed(c) && AddChain(c, name, chain).Some?
    ensures WellFormed(AddChain(c, name, chain).value)
    ensures ClustersKept(c, AddChain(c, name, chain).value)
  {
    var chains := c.listeners[name].chains;
    var out := AddToChains(chains, chain).value;
    assert UniqueMatches(out) by {
      var i := FindChain(chains, chain.match_);
      assert i < |chains| ==> forall j :: 0 <= j < |chains| ==> out[j].match_ == chains[j].match_;
    }
  }

  // ---------------------------------------------------------------- the accumulator object

  /** A listener as the accumulator holds it, with its index of chains by signature. */
  datatype Entry = Entry(listener: Listener, chainBySig: map<Match, nat>)

  predicate Indexed(e: Entry) {
    && UniqueMatches(e.listener.chains)
    && (forall m :: m in e.chainBySig ==> e.chainBySig[m] == FindChain(e.listener.chains, m) < |e.listener.chains|)
    && (forall i :: 0 <= i < |e.listener.chains| ==> e.listener.chains[i].match_ in e.chainBySig)
  }

  ghost function Bare(entries: map<string, Entry>): map<string, Listener> {
    map n | n in entries :: entries[n].listener
  }

  lemma BareUpdate(entries: map<string, Entry>, name: string, e: Entry)
    ensures Bare(entries[name := e]) == Bare(entries)[name := e.listener]
    ensures name in Bare(entries) <==> name in entries
    ensures name in entries ==> Bare(entries)[name] == entries[name].listener
  {
  }

  class Accumulator {
    var listeners: map<string, Entry>
    var clusters: map<string, Cluster>
    var seenPerms: set<string>

    ghost predicate Valid()
      reads this
    {
      forall n :: n in listeners ==> Indexed(listeners[n])
    }

    /** The tree built so far. */
    ghost function Tree(): Config
      reads this
    {
      Config(Bare(listeners), clusters)
    }

    constructor ()
      ensures Valid() && Tree() == Config(map[], map[]) && seenPerms == {}
    {
      listeners, clusters, seenPerms := map[], map[], {};
    }

    method ClaimPermutation(key: string) returns (fresh_: bool)
      requires Valid()
      modifies this`seenPerms
      ensures Valid() && Tree() == old(Tree())
      ensures fresh_ <==> key !in old(seenPerms)
      ensures seenPerms == old(seenPerms) + {key}
    {
      fresh_ := key !in seenPerms;
      seenPerms := seenPerms + {key};
    }

    method EnsureListenerIn(name: string, bind: int, udp: bool)
      requires Valid()
      modifies this`listeners
      ensures Valid() && Tree() == EnsureListener(old(Tree()), name, bind, udp)
    {
      var e := Entry(Listener(bind, udp, [], None), map[]);
      BareUpdate(listeners, name, e);
      hide Bare;
      if name !in listeners {
        listeners := listeners[name := e];
      }
    }

    method AddClusterIn(name: string, body: Cluster) returns (ok: bool)
      requires Valid()
      modifies this`clusters
      ensures Valid()
      ensures ok <==> AddCluster(old(Tree()), name, body).Some?
      ensures Tree() == if ok then AddCluster(old(Tree()), name, body).value else old(Tree())
    {
      if name == "" {
        return false;
      }
      if name in clusters {
        assert clusters[name := clusters[name]] == clusters;
        return clusters[name] == body;
      }
      clusters := clusters[name := body];
      return true;
    }

    method SetUdpTargetIn(name: string, cluster: string) returns (ok: bool)
      requires Valid()
      modifies this`listeners
      ensures Valid()
      ensures ok <==> SetUdpTarget(old(Tree()), name, cluster).Some?
      ensures Tree() == if ok then SetUdpTarget(old(Tree()), name, cluster).value else old(Tree())
    {
      if name !in listeners {
        return false;
      }
      var e := listeners[name];
      e := e.(listener := e.listener.(udpTarget := Some(cluster)));
      BareUpdate(listeners, name, e);
      hide Bare;
      listeners := listeners[name := e];
      return true;
    }

    /** Same match: merge two HTTP managers, refuse anything else. */
    method AddChainIn(name: string, chain: Chain) returns (ok: bool)
      requires Valid()
      modifies this`listeners
      ensures Valid()
      ensures ok <==> AddChain(old(Tree()), name, chain).Some?
      ensures Tree() == if ok then AddChain(old(Tree()), name, chain).value else old(Tree())
    {
      if name !in listeners {
        return false;
      }
      var e;
      ok, e := AddToEntry(listeners[name], chain);
      BareUpdate(listeners, name, e);
      hide Bare, AddToChains, Indexed;
      if ok {
        listeners := listeners[name := e];
      }
    }
  }

  method AddToEntry(e: Entry, chain: Chain) returns (ok: bool, out: Entry)
    requires Indexed(e)
    ensures ok <==> AddToChains(e.listener.chains, chain).Some?
    ensures ok ==> Indexed(out)
                   && out.listener == e.listener.(chains := AddToChains(e.listener.chains, chain).value)
  {
    hide UnionByName;
    var chains := e.listener.chains;
    ok, out := true, e;
    if chain.match_ in e.chainBySig {
      var idx := e.chainBySig[chain.match_];
      if !chains[idx].terminal.Hcm? || !chain.terminal.Hcm? {
        return false, e;
      }
      var merged := MergeVHosts(chains[idx].terminal.vhosts, chain.terminal.vhosts);
      var after := chains[idx := chains[idx].(terminal := Hcm(merged))];
      MergedIndex(e, after);
      out := e.(listener := e.listener.(chains := after));
    } else {
      AppendedIndex(e, chain);
      out := Entry(e.listener.(chains := chains + [chain]), e.chainBySig[chain.match_ := |chains|]);
    }
  }

  lemma {:induction false} FindChainSame(a: seq<Chain>, b: seq<Chain>, m: Match)
    requires |a| == |b| && forall i :: 0 <= i < |a| ==> a[i].match_ == b[i].match_
    ensures FindChain(a, m) == FindChain(b, m)
  {
    var i, j := FindChain(a, m), FindChain(b, m);
    assert i < |a| ==> b[i].match_ == m;
    assert j < |b| ==> a[j].match_ == m;
  }

  lemma MergedIndex(e: Entry, out: seq<Chain>)
    requires Indexed(e) && |out| == |e.listener.chains|
    requires forall i :: 0 <= i < |out| ==> out[i].match_ == e.listener.chains[i].match_
    ensures Indexed(e.(listener := e.listener.(chains := out)))
  {
    forall m | m in e.chainBySig ensures e.chainBySig[m] == FindChain(out, m) {
      FindChainSame(e.listener.chains, out, m);
    }
  }

  lemma FindChainAppend(chains: seq<Chain>, chain: Chain, m: Match)
    ensures FindChain(chains + [chain], m) ==
            if FindChain(chains, m) < |chains| then FindChain(chains, m)
            else if m == chain.match_ then |chains| else |chains| + 1
  {
    var i, out := FindChain(chains, m), chains + [chain];
    assert i < |chains| ==> out[i].match_ == m;
    assert forall j :: 0 <= j < |chains| ==> out[j] == chains[j];
    hide FindChain;
    assert out[|chains|] == chain;
  }

  lemma AppendedIndex(e: Entry, chain: Chain)
    requires Indexed(e) && chain.match_ !in e.chainBySig
    ensures FindChain(e.listener.chains, chain.match_) == |e.listener.chains|
    ensures Indexed(Entry(e.listener.(chains := e.listener.chains + [chain]),
                          e.chainBySig[chain.match_ := |e.listener.chains|]))
  {
    hide FindChain;
    var chains := e.listener.chains;
    var sigs := e.chainBySig[chain.match_ := |chains|];
    forall m | m in sigs ensures sigs[m] == FindChain(chains + [chain], m) {
      FindChainAppend(chains, chain, m);
    }
    assert forall j :: 0 <= j < |chains| ==> (chains + [chain])[j] == chains[j];
  }

  lemma UnionStep(all: seq<VHost>, i: nat, merged: seq<VHost>, seen: set<string>)
    requires i < |all|
    ensures merged + UnionByName(all[i..], seen) ==
            if all[i].name in seen then merged + UnionByName(all[i + 1..], seen)
            else merged + [all[i]] + UnionByName(all[i + 1..], seen + {all[i].name})
  {
    assert all[i..][0] == all[i] && all[i..][1..] == all[i + 1..];
    Assoc(merged, [all[i]], UnionByName(all[i + 1..], seen + {all[i].name}));
  }

  method MergeVHosts(existing: seq<VHost>, incoming: seq<VHost>) returns (merged: seq<VHost>)
    ensures merged == UnionByName(existing + incoming, {})
  {
    var all := existing + incoming;
    var seen: set<string> := {};
    merged := [];
    assert all[0..] == all && all[|all|..] == [] && UnionByName([], {}) == [];
    hide UnionByName;
    assert merged + UnionByName(all, {}) == UnionByName(all, {});
    for i := 0 to |all|
      invariant merged + UnionByName(all[i..], seen) == UnionByName(all, {})
    {
      UnionStep(all, i, merged, seen);
      if all[i].name !in seen {
        seen := seen + {all[i].name};
        merged := merged + [all[i]];
      }
    }
    UnionNothing(seen);
  }

  lemma UnionNothing(seen: set<string>)
    ensures UnionByName([], seen) == []
  {
  }
}

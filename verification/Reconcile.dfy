/** What is deployed: the tree the proxy runs and the routes the kernel holds, each read from
    the store at its own moment, with commits, failures and restarts in between. */
module Reconcile {
  import opened Text
  import opened Rules
  import opened Canonical
  import opened Dedicated
  import opened EnvoyConfig
  import opened Generator
  import opened Guards
  import opened Routes

  // ---------------------------------------------------------------- steps

  /** The network and the ports a deployment is fixed to. */
  datatype Site = Site(net: Net, ports: EnvoyPorts)

  datatype Disk = Fine | FailsBeforeStore | FailsAfterStore
  datatype Outcome = Loads | Keeps | Down

  datatype Event =
    | Commit(rules: seq<Rule>)        // a rule transaction, beside the worker
    | Regenerate(disk: Disk)          // ensureConfigs: read, heal, generate, write
    | Restart(outcome: Outcome)       // the proxy container, by the worker
    | Sync(applied: bool)             // the second read, and the route table
    | Abandon                         // a bring-up that stops before its sync
    | Reboot                          // the container runtime restarts the proxy

  datatype At = Idle | Written | Syncing

  /** A tree or a route table, and the time its rules were read from the store. */
  datatype Tree = Tree(cfg: Config, read: nat)
  datatype Table = Table(routes: seq<Route>, read: nat)

  datatype State = State(store: seq<Rule>, now: nat, at: At, file: Option<Tree>, loaded: Option<Tree>, table: Option<Table>)

  /** A stored list is written back in canonical form when its length, protocols, actions or
      ports differ from it. */
  predicate Heals(stored: seq<Rule>) {
    var rules := Canonicalize(stored);
    |rules| != |stored|
    || exists i :: 0 <= i < |stored|
         && !(stored[i].proto == rules[i].proto && stored[i].action == rules[i].action && stored[i].port == rules[i].port)
  }

  function Healed(stored: seq<Rule>): seq<Rule> { if Heals(stored) then Canonicalize(stored) else stored }

  /** The generator with its guards: a tree, or None for a refusal or a failed layer. */
  ghost function Produce(rules: seq<Rule>, site: Site): Option<Config> {
    if Accepted(site.net.kind, rules, site.ports) then Generate(rules, site.net, site.ports) else None
  }

  ghost function Step(s: State, e: Event, site: Site): Option<State> {
    var t := s.(now := s.now + 1);
    match e
    case Commit(rules) => Some(t.(store := rules))
    case Regenerate(disk) =>
      if s.at != Idle then None
      else if disk == FailsBeforeStore then Some(t.(at := Syncing))
      else
        var tree := Produce(Canonicalize(s.store), site);
        if disk == FailsAfterStore || tree.None? then Some(t.(store := Healed(s.store), at := Syncing))
        else Some(t.(store := Healed(s.store), file := Some(Tree(tree.value, s.now)), at := Written))
    case Restart(outcome) =>
      if s.at != Written then None
      else Some(t.(at := Syncing, loaded := match outcome case Loads => s.file case Keeps => s.loaded case Down => None))
    case Sync(applied) =>
      if s.at != Syncing then None
      else
        var routes := RoutesOf(Canonicalize(s.store), site.net, site.ports);
        Some(t.(at := Idle, table := if applied then Some(Table(routes, s.now)) else None))
    case Abandon => if s.at == Idle then None else Some(t.(at := Idle))
    case Reboot => Some(t.(loaded := s.file))
  }

  function Start(store: seq<Rule>): State { State(store, 0, Idle, None, None, None) }

  ghost function Exec(store: seq<Rule>, es: seq<Event>, site: Site): Option<State> {
    if es == [] then Some(Start(store))
    else
      match Exec(store, es[..|es| - 1], site)
      case None => None
      case Some(s) => Step(s, es[|es| - 1], site)
  }

  // ---------------------------------------------------------------- what every run keeps

  /** The rules last committed in a run. */
  function Committed(store: seq<Rule>, es: seq<Event>): seq<Rule> {
    if es == [] then store
    else if es[|es| - 1].Commit? then es[|es| - 1].rules
    else Committed(store, es[..|es| - 1])
  }

  ghost predicate PlainRun(store: seq<Rule>, es: seq<Event>) {
    Plain(store) && forall e :: e in es && e.Commit? ==> Plain(e.rules)
  }

  /** The canonical rules as they stood before the k-th event. */
  function RulesAt(store: seq<Rule>, es: seq<Event>, k: nat): seq<Rule>
    requires k <= |es|
  {
    Canonicalize(Committed(store, es[..k]))
  }

  ghost predicate TreeSound(t: Option<Tree>, store: seq<Rule>, es: seq<Event>, site: Site) {
    t.Some? ==> t.value.read < |es| && es[t.value.read].Regenerate?
                && Produce(RulesAt(store, es, t.value.read), site) == Some(t.value.cfg)
  }

  ghost predicate TableSound(t: Option<Table>, store: seq<Rule>, es: seq<Event>, site: Site) {
    t.Some? ==> t.value.read < |es| && es[t.value.read] == Sync(true)
                && t.value.routes == RoutesOf(RulesAt(store, es, t.value.read), site.net, site.ports)
  }

  lemma {:induction false} CommittedPlain(store: seq<Rule>, es: seq<Event>)
    requires PlainRun(store, es)
    ensures Plain(Committed(store, es))
  {
    hide Plain;
    if es != [] {
      assert es[|es| - 1] in es && forall e :: e in es[..|es| - 1] ==> e in es;
      CommittedPlain(store, es[..|es| - 1]);
    }
  }

  /** Writing the canonical form back does not change the rules a reader gets. */
  lemma HealedSame(stored: seq<Rule>, was: seq<Rule>)
    requires Plain(was) && (stored == was || stored == Canonicalize(was))
    ensures Canonicalize(stored) == Canonicalize(was)
    ensures Healed(stored) == was || Healed(stored) == Canonicalize(was)
  {
    hide Canonicalize, Plain, Heals;
    CanonicalizeIdempotent(was);
  }

  lemma TreeGrows(t: Option<Tree>, store: seq<Rule>, es: seq<Event>, site: Site)
    requires es != [] && TreeSound(t, store, es[..|es| - 1], site)
    ensures TreeSound(t, store, es, site)
  {
    hide Canonicalize, Committed, Produce;
    if t.Some? {
      assert es[..|es| - 1][..t.value.read] == es[..t.value.read];
    }
  }

  lemma TableGrows(t: Option<Table>, store: seq<Rule>, es: seq<Event>, site: Site)
    requires es != [] && TableSound(t, store, es[..|es| - 1], site)
    ensures TableSound(t, store, es, site)
  {
    hide Canonicalize, Committed, RoutesOf;
    if t.Some? {
      assert es[..|es| - 1][..t.value.read] == es[..t.value.read];
    }
  }

  ghost predicate Sound(s: State, store: seq<Rule>, es: seq<Event>, site: Site) {
    && s.now == |es|
    && (s.store == Committed(store, es) || s.store == Canonicalize(Committed(store, es)))
    && TreeSound(s.file, store, es, site) && TreeSound(s.loaded, store, es, site) && TableSound(s.table, store, es, site)
  }

  lemma StepSound(s: State, store: seq<Rule>, es: seq<Event>, site: Site)
    requires es != [] && PlainRun(store, es) && Sound(s, store, es[..|es| - 1], site)
    requires Step(s, es[|es| - 1], site).Some?
    ensures Sound(Step(s, es[|es| - 1], site).value, store, es, site)
  {
    hide Canonicalize, Plain, Produce, RoutesOf, TreeSound, TableSound, Healed;
    var front := es[..|es| - 1];
    assert PlainRun(store, front) by { assert forall e :: e in front ==> e in es; }
    CommittedPlain(store, front);
    HealedSame(s.store, Committed(store, front));
    TreeGrows(s.file, store, es, site);
    TreeGrows(s.loaded, store, es, site);
    TableGrows(s.table, store, es, site);
    ReadNow(s, store, es, site);
  }

  /** What the last event reads is the rules as they stood before it. */
  lemma ReadNow(s: State, store: seq<Rule>, es: seq<Event>, site: Site)
    requires es != [] && s.now == |es| - 1 && Canonicalize(s.store) == Canonicalize(Committed(store, es[..|es| - 1]))
    ensures es[|es| - 1].Regenerate? && Produce(Canonicalize(s.store), site).Some? ==>
              TreeSound(Some(Tree(Produce(Canonicalize(s.store), site).value, s.now)), store, es, site)
    ensures es[|es| - 1] == Sync(true) ==>
              TableSound(Some(Table(RoutesOf(Canonicalize(s.store), site.net, site.ports), s.now)), store, es, site)
    ensures TreeSound(None, store, es, site) && TableSound(None, store, es, site)
  {
    hide Canonicalize, Committed, Produce, RoutesOf;
  }

  /** In every run the loaded tree was generated from the rules committed before its read, and
      the route table from those committed before its own. */
  lemma {:induction false} RunSound(store: seq<Rule>, es: seq<Event>, site: Site)
    requires PlainRun(store, es) && Exec(store, es, site).Some?
    ensures Sound(Exec(store, es, site).value, store, es, site)
  {
    hide Step, Sound, Plain, Start;
    if es == [] {
      StartSound(store, site);
    } else {
      var front := es[..|es| - 1];
      assert PlainRun(store, front) by { assert forall e :: e in front ==> e in es; }
      RunSound(store, front, site);
      StepSound(Exec(store, front, site).value, store, es, site);
    }
  }

  lemma StartSound(store: seq<Rule>, site: Site)
    ensures Sound(Start(store), store, [], site)
  {
    hide Canonicalize, Produce, RoutesOf;
  }

  // ---------------------------------------------------------------- one snapshot, exactly when

  /** Commits before the k-th event. */
  function Version(es: seq<Event>, k: nat): nat
    requires k <= |es|
  {
    if k == 0 then 0 else Version(es, k - 1) + (if es[k - 1].Commit? then 1 else 0)
  }

  /** Nothing was committed between two moments, whichever came first. */
  predicate NoCommitBetween(es: seq<Event>, i: nat, j: nat)
    requires i <= |es| && j <= |es|
  {
    forall k :: 0 <= k < |es| && (i <= k < j || j <= k < i) ==> !es[k].Commit?
  }

  lemma {:induction false} VersionCounts(es: seq<Event>, i: nat, j: nat)
    requires i <= j <= |es|
    ensures Version(es, i) <= Version(es, j)
    ensures Version(es, i) == Version(es, j) <==> NoCommitBetween(es, i, j)
    decreases j
  {
    if i < j {
      VersionCounts(es, i, j - 1);
      assert NoCommitBetween(es, i, j) <==> NoCommitBetween(es, i, j - 1) && !es[j - 1].Commit?;
    }
  }

  lemma {:induction false} CommittedStays(store: seq<Rule>, es: seq<Event>, i: nat, j: nat)
    requires i <= j <= |es| && NoCommitBetween(es, i, j)
    ensures Committed(store, es[..i]) == Committed(store, es[..j])
    decreases j
  {
    if i < j {
      CommittedStays(store, es, i, j - 1);
      assert es[..j][..j - 1] == es[..j - 1] && es[..j][j - 1] == es[j - 1];
    }
  }

  /** Everything the proxy and the kernel hold comes from one version of the rules exactly when
      nothing was committed between the two reads; and then from the same rules. */
  lemma OneSnapshot(store: seq<Rule>, es: seq<Event>, site: Site)
    requires PlainRun(store, es) && Exec(store, es, site).Some?
    requires var s := Exec(store, es, site).value; s.loaded.Some? && s.table.Some?
    ensures var s := Exec(store, es, site).value;
            var i, j := s.loaded.value.read, s.table.value.read;
            && i < |es| && j < |es|
            && (Version(es, i) == Version(es, j) <==> NoCommitBetween(es, i, j))
            && (NoCommitBetween(es, i, j) ==>
                  && Produce(RulesAt(store, es, i), site) == Some(s.loaded.value.cfg)
                  && s.table.value.routes == RoutesOf(RulesAt(store, es, i), site.net, site.ports))
  {
    hide Exec, Produce, RoutesOf, Version, NoCommitBetween, Canonicalize, Committed;
    RunSound(store, es, site);
    var s := Exec(store, es, site).value;
    var i, j := s.loaded.value.read, s.table.value.read;
    var lo, hi := if i < j then i else j, if i < j then j else i;
    VersionCounts(es, lo, hi);
    BetweenEither(es, i, j);
    if NoCommitBetween(es, i, j) {
      CommittedStays(store, es, lo, hi);
    }
  }

  lemma BetweenEither(es: seq<Event>, i: nat, j: nat)
    requires i <= |es| && j <= |es|
    ensures NoCommitBetween(es, i, j) <==> NoCommitBetween(es, j, i)
  {
  }

  // ---------------------------------------------------------------- which step decided

  /** The k-th event writes the file: its rules are accepted and generate, and the disk is fine. */
  ghost predicate Writes(store: seq<Rule>, es: seq<Event>, site: Site, k: nat) {
    k < |es| && es[k] == Regenerate(Fine) && Produce(RulesAt(store, es, k), site).Some?
  }

  predicate Reloads(e: Event) { e == Restart(Loads) || e == Restart(Down) || e == Reboot }

  ghost predicate LastWrite(store: seq<Rule>, es: seq<Event>, site: Site, k: nat) {
    Writes(store, es, site, k) && forall j: nat :: k < j < |es| ==> !Writes(store, es, site, j)
  }

  predicate LastReload(es: seq<Event>, k: nat) { k < |es| && Reloads(es[k]) && forall j :: k < j < |es| ==> !Reloads(es[j]) }

  predicate LastSync(es: seq<Event>, k: nat) { k < |es| && es[k].Sync? && forall j :: k < j < |es| ==> !es[j].Sync? }

  /** The file is the tree of the last write. */
  ghost predicate FileIs(t: Option<Tree>, store: seq<Rule>, es: seq<Event>, site: Site) {
    && (forall k: nat :: LastWrite(store, es, site, k) ==> t == Some(Tree(Produce(RulesAt(store, es, k), site).value, k)))
    && ((forall k: nat :: !Writes(store, es, site, k)) ==> t == None)
  }

  /** The proxy runs the file as it stood at the last reload, and nothing if that one failed. */
  ghost predicate LoadedIs(t: Option<Tree>, store: seq<Rule>, es: seq<Event>, site: Site) {
    && (forall k: nat :: LastReload(es, k) ==> if es[k] == Restart(Down) then t == None else FileIs(t, store, es[..k], site))
    && ((forall k :: 0 <= k < |es| ==> !Reloads(es[k])) ==> t == None)
  }

  /** The kernel holds the routes of the last sync, and none that can be relied on if it failed. */
  ghost predicate TableIs(t: Option<Table>, store: seq<Rule>, es: seq<Event>, site: Site) {
    && (forall k: nat :: LastSync(es, k) ==>
          t == if es[k].applied then Some(Table(RoutesOf(RulesAt(store, es, k), site.net, site.ports), k)) else None)
    && ((forall k :: 0 <= k < |es| ==> !es[k].Sync?) ==> t == None)
  }

  lemma WritesBefore(store: seq<Rule>, es: seq<Event>, site: Site, k: nat)
    requires k < |es| - 1
    ensures RulesAt(store, es, k) == RulesAt(store, es[..|es| - 1], k)
    ensures Writes(store, es, site, k) <==> Writes(store, es[..|es| - 1], site, k)
  {
    hide Produce, Canonicalize, Committed;
    assert es[..|es| - 1][..k] == es[..k];
  }

  lemma LastWriteBefore(store: seq<Rule>, es: seq<Event>, site: Site, k: nat)
    requires LastWrite(store, es, site, k) && k < |es| - 1
    ensures LastWrite(store, es[..|es| - 1], site, k) && !Writes(store, es, site, |es| - 1)
  {
    hide Produce, RulesAt, Writes;
    var front := es[..|es| - 1];
    WritesBefore(store, es, site, k);
    forall j: nat | k < j < |front| ensures !Writes(store, front, site, j) {
      WritesBefore(store, es, site, j);
    }
  }

  lemma WritesWithin(store: seq<Rule>, es: seq<Event>, site: Site, k: nat)
    requires Writes(store, es, site, k)
    ensures k < |es|
  {
    hide Produce, RulesAt;
  }

  lemma FileNext(t: Option<Tree>, t': Option<Tree>, store: seq<Rule>, es: seq<Event>, site: Site)
    requires es != [] && FileIs(t, store, es[..|es| - 1], site)
    requires t' == if Writes(store, es, site, |es| - 1) then Some(Tree(Produce(RulesAt(store, es, |es| - 1), site).value, |es| - 1)) else t
    ensures FileIs(t', store, es, site)
  {
    hide Produce, RulesAt;
    var n, front := |es| - 1, es[..|es| - 1];
    forall k: nat | LastWrite(store, es, site, k) ensures t' == Some(Tree(Produce(RulesAt(store, es, k), site).value, k)) {
      hide Writes;
      WritesWithin(store, es, site, k);
      if k < n {
        LastWriteBefore(store, es, site, k);
        WritesBefore(store, es, site, k);
      }
    }
    if forall k: nat :: !Writes(store, es, site, k) {
      hide Writes, LastWrite;
      forall k: nat ensures !Writes(store, front, site, k) {
        if Writes(store, front, site, k) {
          WritesWithin(store, front, site, k);
          WritesBefore(store, es, site, k);
        }
      }
    }
  }

  lemma LoadedNext(t: Option<Tree>, file: Option<Tree>, t': Option<Tree>, store: seq<Rule>, es: seq<Event>, site: Site)
    requires es != [] && LoadedIs(t, store, es[..|es| - 1], site) && FileIs(file, store, es[..|es| - 1], site)
    requires t' == if !Reloads(es[|es| - 1]) then t else if es[|es| - 1] == Restart(Down) then None else file
    ensures LoadedIs(t', store, es, site)
  {
    hide FileIs;
    var n, front := |es| - 1, es[..|es| - 1];
    forall k: nat | LastReload(es, k) ensures if es[k] == Restart(Down) then t' == None else FileIs(t', store, es[..k], site) {
      if k < n {
        assert front[k] == es[k] && front[..k] == es[..k] && LastReload(front, k);
      }
    }
  }

  lemma TableNext(t: Option<Table>, t': Option<Table>, store: seq<Rule>, es: seq<Event>, site: Site)
    requires es != [] && TableIs(t, store, es[..|es| - 1], site)
    requires t' == if !es[|es| - 1].Sync? then t
                   else if es[|es| - 1].applied then Some(Table(RoutesOf(RulesAt(store, es, |es| - 1), site.net, site.ports), |es| - 1)) else None
    ensures TableIs(t', store, es, site)
  {
    hide RoutesOf, RulesAt;
    var n, front := |es| - 1, es[..|es| - 1];
    forall k: nat | LastSync(es, k)
      ensures t' == if es[k].applied then Some(Table(RoutesOf(RulesAt(store, es, k), site.net, site.ports), k)) else None
    {
      if k < n {
        assert front[k] == es[k] && LastSync(front, k);
        WritesBefore(store, es, site, k);
      }
    }
  }

  lemma StepDecides(s: State, store: seq<Rule>, es: seq<Event>, site: Site)
    requires es != [] && s.now == |es| - 1 && Canonicalize(s.store) == RulesAt(store, es, |es| - 1)
    requires FileIs(s.file, store, es[..|es| - 1], site) && LoadedIs(s.loaded, store, es[..|es| - 1], site) && TableIs(s.table, store, es[..|es| - 1], site)
    requires Step(s, es[|es| - 1], site).Some?
    ensures var s' := Step(s, es[|es| - 1], site).value;
            FileIs(s'.file, store, es, site) && LoadedIs(s'.loaded, store, es, site) && TableIs(s'.table, store, es, site)
  {
    hide Produce, RoutesOf, RulesAt, FileIs, LoadedIs, TableIs, Canonicalize, Healed;
    var s' := Step(s, es[|es| - 1], site).value;
    FileNext(s.file, s'.file, store, es, site);
    LoadedNext(s.loaded, s.file, s'.loaded, store, es, site);
    TableNext(s.table, s'.table, store, es, site);
  }

  /** In every run the file, the proxy and the kernel hold what the last step that touched each
      of them gave it. */
  lemma {:induction false} RunDecided(store: seq<Rule>, es: seq<Event>, site: Site)
    requires PlainRun(store, es) && Exec(store, es, site).Some?
    ensures var s := Exec(store, es, site).value;
            FileIs(s.file, store, es, site) && LoadedIs(s.loaded, store, es, site) && TableIs(s.table, store, es, site)
  {
    if es == [] {
      NothingDecided(store, site);
    } else {
      hide Step, Plain, FileIs, LoadedIs, TableIs, Produce, RoutesOf, Canonicalize, Committed, TreeSound, TableSound, Start;
      var front := es[..|es| - 1];
      assert PlainRun(store, front) by { assert forall e :: e in front ==> e in es; }
      RunDecided(store, front, site);
      RunSound(store, front, site);
      var s := Exec(store, front, site).value;
      CommittedPlain(store, front);
      CanonicalizeIdempotent(Committed(store, front));
      StepDecides(s, store, es, site);
    }
  }

  lemma NothingDecided(store: seq<Rule>, site: Site)
    ensures FileIs(None, store, [], site) && LoadedIs(None, store, [], site) && TableIs(None, store, [], site)
  {
    hide Produce, RoutesOf, Canonicalize, Committed;
  }

  /** A regeneration that reads the store leaves in it, rule by rule, the protocols, actions and
      ports of its canonical form, and rewrites it, as that form, only if it had others. */
  lemma HealExactly(s: State, disk: Disk, site: Site)
    requires s.at == Idle
    ensures Step(s, Regenerate(disk), site).Some?
    ensures var store', rules := Step(s, Regenerate(disk), site).value.store, Canonicalize(s.store);
            if disk == FailsBeforeStore then store' == s.store
            else
              && |store'| == |rules|
              && (forall i :: 0 <= i < |rules| ==> store'[i].proto == rules[i].proto && store'[i].action == rules[i].action && store'[i].port == rules[i].port)
              && (store' != s.store ==> store' == rules)
              && (|s.store| == |rules| && (forall i :: 0 <= i < |rules| ==>
                    s.store[i].proto == rules[i].proto && s.store[i].action == rules[i].action && s.store[i].port == rules[i].port)
                  ==> store' == s.store)
  {
    hide Produce, Canonicalize;
  }

  // ---------------------------------------------------------------- one more reconcile

  /** A reconcile that goes through brings both to the rules now committed, whatever the run
      before it did. */
  lemma ReconcileHeals(store: seq<Rule>, es: seq<Event>, site: Site)
    requires PlainRun(store, es) && Exec(store, es, site).Some? && Exec(store, es, site).value.at == Idle
    requires Produce(RulesAt(store, es, |es|), site).Some?
    ensures var after := Exec(store, es + [Regenerate(Fine), Restart(Loads), Sync(true)], site);
            && after.Some? && after.value.at == Idle
            && after.value.loaded == Some(Tree(Produce(RulesAt(store, es, |es|), site).value, |es|))
            && after.value.table == Some(Table(RoutesOf(RulesAt(store, es, |es|), site.net, site.ports), |es| + 2))
  {
    hide Produce, RoutesOf, Canonicalize, Committed, Plain, Exec, TreeSound, TableSound, Healed;
    var s := Current(store, es, site);
    HealedTwice(s.store, Committed(store, es));
    ExecOne(store, es, Regenerate(Fine), site);
    ExecOne(store, es + [Regenerate(Fine)], Restart(Loads), site);
    ExecOne(store, es + [Regenerate(Fine)] + [Restart(Loads)], Sync(true), site);
    assert es + [Regenerate(Fine), Restart(Loads), Sync(true)] == es + [Regenerate(Fine)] + [Restart(Loads)] + [Sync(true)];
  }

  /** A refused reload keeps the old tree, but the routes move on. */
  lemma RefusedMovesRoutes(store: seq<Rule>, es: seq<Event>, site: Site)
    requires PlainRun(store, es) && Exec(store, es, site).Some? && Exec(store, es, site).value.at == Idle
    requires Produce(RulesAt(store, es, |es|), site).None?
    ensures var before, after := Exec(store, es, site).value, Exec(store, es + [Regenerate(Fine), Sync(true)], site);
            && after.Some? && after.value.loaded == before.loaded
            && after.value.table == Some(Table(RoutesOf(RulesAt(store, es, |es|), site.net, site.ports), |es| + 1))
  {
    hide Produce, RoutesOf, Canonicalize, Committed, Plain, Exec, TreeSound, TableSound, Healed;
    var s := Current(store, es, site);
    HealedTwice(s.store, Committed(store, es));
    ExecOne(store, es, Regenerate(Fine), site);
    ExecOne(store, es + [Regenerate(Fine)], Sync(true), site);
    assert es + [Regenerate(Fine), Sync(true)] == es + [Regenerate(Fine)] + [Sync(true)];
  }

  lemma ExecOne(store: seq<Rule>, es: seq<Event>, e: Event, site: Site)
    requires Exec(store, es, site).Some?
    ensures Exec(store, es + [e], site) == Step(Exec(store, es, site).value, e, site)
  {
    hide Step;
    assert (es + [e])[..|es|] == es;
  }

  /** The state a run ends in, and the rules a reader of its store gets. */
  lemma Current(store: seq<Rule>, es: seq<Event>, site: Site) returns (s: State)
    requires PlainRun(store, es) && Exec(store, es, site).Some?
    ensures s == Exec(store, es, site).value && s.now == |es|
    ensures Plain(Committed(store, es)) && (s.store == Committed(store, es) || s.store == Canonicalize(Committed(store, es)))
    ensures RulesAt(store, es, |es|) == Canonicalize(Committed(store, es))
  {
    hide Produce, RoutesOf, Canonicalize, Committed, Plain, Exec, TreeSound, TableSound;
    s := Exec(store, es, site).value;
    RunSound(store, es, site);
    CommittedPlain(store, es);
    assert es[..|es|] == es;
  }

  lemma HealedTwice(stored: seq<Rule>, was: seq<Rule>)
    requires Plain(was) && (stored == was || stored == Canonicalize(was))
    ensures Canonicalize(stored) == Canonicalize(was) && Canonicalize(Healed(stored)) == Canonicalize(was)
  {
    hide Canonicalize, Plain, Healed;
    HealedSame(stored, was);
    HealedSame(Healed(stored), was);
  }
}

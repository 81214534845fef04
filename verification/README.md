# A model of the clawker control plane and supervisor

This project states and proves what four parts of clawker are for.

**The egress-rule compiler** (`controlplane/firewall`). Rules are put in canonical form:
spans merged, denied ports carved out of allowed ones, duplicates dropped. `Rules`, `Spans`,
`Canonical`, `DenyWins`, `Ingestion` and `Normalizer` define that form, prove that its fixed
points are exactly the canonical lists, and say which rules and ports survive. `Store` and
`StoreOps` are the rule-store transactions on top of it, and `Adding`, `AddedPorts` and
`AddStatuses` tell what an add leaves and reports. The canonical rules are then compiled
three times over: into Envoy listeners, chains and clusters (`EnvoyConfig`, `Generator`,
`Orchestrator`, `Chains`), into eBPF routes (`Dedicated`, `Guards`, `Routes`, `RouteTable`)
and into CoreDNS zones (`CoreDns`), with per-rule HTTP route lists (`HttpRoutes`) and
destination validation (`ValidateDst`). `Hosting`, `WebRules` and `HttpRequests` say what
every HTTP manager of the tree holds, and carry a path rule to the requests it decides;
`RangeRequests` does so for rules to address ranges, and `DefaultDeny` is what becomes of
all other requests. `Lockstep`, `LockstepRules` and `Routes` prove
that the generator and the route table, which are written independently, agree listener by
listener; `EndToEnd` and, for address ranges, `Ranges` carry that back to the rules as the
user wrote them, `SharedLockstep` does it for the routes that web rules share, and
`Resolvable` sets name lookup beside them. `References` and `CrossRouting` say that the
generated tree is closed and sends no host's traffic to another host's pin. `Reconcile` and
`Deployed` are the deployment itself: commits, reloads, restarts and route syncs in any
order, any of them failing, and when the running tree and the kernel's routes come from the
same rules. `Siblings`, `Shadowed`, `Misrouted` and `Clashing` hold the inputs at which a
stronger property fails.

**The action queue and the bypass timer** (`Queue`, `Bypass`, `Stranded`). Transition systems over
submit, close, pop, execute and reply, and over timers that race them; a queued closure is one
step.

**The PID-1 supervisor** (`Supervisor`, `ReaperLoops`). Steps of the callers of Run, of the
reaper, of the stop watchdog and of main, in any order, driven by arbitrary wait4 results and
timer expiries.

**The plan executor and its projection** (`Executor`, `Worldview`, `Axes`). The trace a run
publishes, and the fold that must end where the run ended.

Code that computes values is modelled by functions; code that loops or mutates is modelled by
methods and classes proved against those functions. Each function is then related to
something that is not its body: an inverse, a fixed point, a reference definition or an
invariant of every run.

Conventions that hold throughout:

- Strings are sequences of characters. Case folding and trimming are those of ASCII.
- What the network library decides about a destination (domain, IPv4, IPv6, range) is a
  parameter, `Classifier` or `Net`, on which nothing is assumed unless a lemma says so.
- The hash of a domain stands for the domain: it is taken to be injective.
- Rule keys join their parts with a colon, so results about canonical form ask for protos
  without a colon (`Rules.PlainProto`); `Rules.ColonInProtoCollides` shows why.
- Where the comment on the projected exec state says that Completed with an error cannot be
  represented, the code can reach it; the model follows the code
  (`Worldview.StrayFailureLeavesError`, `Worldview.CompletedErrorIffStray`).
- Removing a path rule from one of several spans that a single opaque rule was split into
  leaves a list that is not canonical; `StoreOps.PathRemovalIff` gives the exact condition and
  `Siblings.SiblingRemovalBreaks` such a list.
- Things the code does that its documentation does not promise are stated as they are, each
  with an input or a run: a path rule added where a deny and an allow of one host are stored can
  be lost (`Shadowed.PathRuleLost`); an Enable whose bypass clear fails leaves the container bypassed
  (`Bypass.SwallowedClearStrands`); a deferred clean-up forgets a newer timer
  (`Bypass.MapMembershipFails`, `Bypass.ForgottenUndoesDisable`); a refused reload moves the
  routes but not the tree (`Reconcile.RefusedMovesRoutes`, `Misrouted.RefusedReloadMisroutes`);
  a plaintext exact and wildcard rule of one host and port claim one authority
  (`Clashing.TwoHostsClaimApex`), and so do two spellings of one address range
  (`RangeRequests.SameRangeClash`); a plaintext host can lose its virtual host to one that
  sanitises alike (`Clashing.SecondHostUnclaimed`); a rule with an unknown protocol is routed
  but not served (`Clashing.UnknownProtoUnfronted`); and a deny of one port refuses the name for
  all of them (`Resolvable.SplitHostUnresolvable`).

## Model

| member | source | states |
|---|---|---|
| `Rules.FormatParseRoundTrip` | controlplane/firewall/rules_store.go:929-934 | the text written for a valid span is read back by the port parser as that same span |
| `Rules.PortSpecMeaning` | internal/config/egress_port.go:30-80 | for every text: unset iff blank, and a span iff it is one number 1..65535, or two around the first dash in ascending order, blanks around each aside |
| `Rules.NormalizeDomainMeaning` | controlplane/firewall/coredns_config.go:166-169 | a host written with or without a leading and a trailing dot is one host |
| `Rules.NormalizeMethodsShape` | controlplane/firewall/rules_store.go:305-327 | normalised methods are strictly sorted trimmed upper-case tokens, and exactly the trimmed, upper-cased non-empty inputs |
| `Rules.NormalizeMethodsFixed` | controlplane/firewall/rules_store.go:305-327 | a strictly sorted token list is its own normal form |
| `Rules.NormalizeRuleIdempotent` | controlplane/firewall/rules_store.go:268-300 | normalising a normalised rule changes nothing |
| `Rules.NormalizeRuleMeaning` | controlplane/firewall/rules_store.go:268-300 | field by field: what is given is kept, no action means allow, no protocol and tls mean https, and no port reads as 443, 80 or 22 for https/wss, http/ws and ssh and as unset for others |
| `Rules.RuleKeyInjective` | controlplane/firewall/rules_store.go:333-339 | equal keys of colon-free protos and readable ports mean equal dst, proto and port |
| `Rules.DedupKeyInjective` | controlplane/firewall/rules_store.go:577-629 | equal dedup keys mean equal dst, proto, port and action class |
| `Rules.ColonInProtoCollides` | controlplane/firewall/rules_store.go:333-339 | a colon in a proto token makes two different rules share a key, which is why the other results ask for colon-free protos |
| `Spans.AscendingUnique` | controlplane/firewall/rules_store.go:901-925 | an ascending span list is determined by the ports it covers and the neighbouring ports that share a span |
| `Spans.MergeMeaning` | controlplane/firewall/rules_store.go:901-925 | merging gives ascending disjoint spans with exactly the ports and links of the input; touching spans stay apart |
| `Spans.MergeFixed` | controlplane/firewall/rules_store.go:901-925 | merging an ascending list returns it unchanged |
| `Spans.MergeOverlappingSpans` | controlplane/firewall/rules_store.go:901-925 | the in-place loop over the sorted spans computes the merge |
| `Spans.SubtractMeaning` | controlplane/firewall/rules_store.go:779-813 | carving leaves ascending spans that cover exactly the allowed ports that are not denied, and links only what was linked |
| `Spans.SubtractFixed` | controlplane/firewall/rules_store.go:779-813 | carving out ports that are not allowed changes nothing |
| `Spans.CarveSpan` | controlplane/firewall/rules_store.go:779-813 | the cursor loop over one allow span computes its carving |
| `Spans.SubtractSpans` | controlplane/firewall/rules_store.go:779-813 | the outer loop computes the carving of the whole list |
| `Canonical.CanonicalIsFixed` | controlplane/firewall/rules_store.go:577-763 | a canonical list is returned unchanged, same rules in the same order |
| `Canonical.CanonicalizeIsCanonical` | controlplane/firewall/rules_store.go:577-763 | the output is canonical for every input: settled rules, distinct keys, one block per group, deny before allow, ascending disjoint spans of one template, allow and deny apart except a bare one-port clash |
| `Canonical.CanonicalizeIdempotent` | controlplane/firewall/rules_store.go:577-763 | canonicalising twice is canonicalising once, carved spans, templates and surviving clashes included |
| `Canonical.FixedPointIffCanonical` | controlplane/firewall/rules_store.go:577-763 | the fixed points are exactly the canonical lists |
| `Canonical.ResolveGroup` | controlplane/firewall/rules_store.go:654-763 | every group of the input appears in the output exactly as its merged deny and carved allow spans |
| `Canonical.ResolveVerbatim` | controlplane/firewall/rules_store.go:654-763 | a rule outside any group is in the output iff it is in the input, and everything in the output is settled |
| `Ingestion.KeptExactly` | controlplane/firewall/rules_store.go:577-629 | a rule no port conflict concerns is in the canonical form iff it is the normal form of a given admissible rule and no earlier admissible one has its dst, proto, port and action class |
| `Ingestion.TemplateExactly` | controlplane/firewall/rules_store.go:654-763 | every span of a group is the first given rule of its host, protocol and action class with the port replaced |
| `Normalizer.NormalizeAndDedup` | controlplane/firewall/rules_store.go:577-629 | the loop with its seen-set, followed by the resolver, computes the canonical form |
| `Normalizer.ResolveOpaquePortConflicts` | controlplane/firewall/rules_store.go:654-763 | the two passes with their group map and emission order compute the resolved list |
| `Normalizer.ResolveSpans` | controlplane/firewall/rules_store.go:654-763 | merging both actions and carving, with the one-port exception, on span lists |
| `Normalizer.CarveableSpans` | controlplane/firewall/rules_store.go:654-763 | the deny spans to carve with are all but the one-port spans that are also one-port allow spans |
| `DenyWins.DenyWinsExactly` | controlplane/firewall/rules_store.go:654-763 | on the fields as written (deny iff the action reads deny, 22 for ssh without a port): per host and opaque proto every denied port stays denied, and a port stays allowed iff it was allowed and is not denied, or both claims name that port alone |
| `DenyWins.SpansStayDisjoint` | controlplane/firewall/rules_store.go:654-763 | spans of one group and action share no port in the output |
| `Guards.GuardFindsTheException` | controlplane/firewall/envoy_config.go:733-773 | on canonical rules an allow/deny conflict exists iff the input had a bare one-port clash |
| `Guards.CheckOpaquePortActionConflicts` | controlplane/firewall/envoy_config.go:733-773 | errs iff an allow and a deny of one host and proto share a port, and names the lowest such port of that host |
| `Guards.CheckProtoCollisions` | controlplane/firewall/envoy_config.go:646-699 | errs iff two stacks claim one host and port, and names such a host and port |
| `Guards.ValidateProtoDstSupport` | controlplane/firewall/envoy_config.go:855-865 | errs iff an allow rule sends raw udp to an address range, and names the first such destination |
| `Guards.CheckRules` | controlplane/firewall/envoy_config.go:20-45 | the guards in order: passes iff every one of them does, and says which failed first |
| `Dedicated.LowestSpanOverlap` | controlplane/firewall/envoy_config.go:703-724 | the lowest port in both span lists, none iff they share none |
| `Store.MergePathRulesLookup` | controlplane/firewall/rules_store.go:352-360 | after a merge each path looks up to the last incoming entry for it, else to the existing one |
| `Store.ChangeGate` | controlplane/firewall/handler.go:1362-1424 | some status is Added or Modified iff the canonical rule set changed; the store is written exactly then, with a canonical list |
| `Adding.AddedIsHeld` | controlplane/firewall/handler.go:1362-1424 | after an add a given rule that is not opaque is there, alone under its key, with the last given action, the last given path default or the old one, and path by path the last given entry or the old one, if at most one rule was under the key |
| `Adding.HeldIff` | controlplane/firewall/handler.go:1362-1424 | where the key had more than one rule that outcome is there iff no other old rule of the same action class shadows it with something else |
| `Adding.OthersUnchanged` | controlplane/firewall/handler.go:1362-1424 | rules that are not opaque and under keys no one gives are what they were |
| `Shadowed.PathRuleLost` | controlplane/firewall/handler.go:1383-1397 | with a deny and an allow of one https host stored, a path rule added to the deny is merged into the allow and then lost as a duplicate |
| `AddedPorts.PortsAfterAdd` | controlplane/firewall/handler.go:1362-1424 | after an add a port of an opaque rule is denied iff a rule that counts denies it, and allowed iff one allows it and none denies it, bare one-port clashes apart; those that count are the old rules nothing was merged into and the last given one of each key |
| `AddStatuses.StatusMeans` | controlplane/firewall/handler.go:1383-1402 | when the store is written status i is Added iff nothing was under the key, and otherwise Modified iff action, given path default or a given path entry differs from what was there by then |
| `Store.RulesCanonicalEqual` | controlplane/firewall/rules_store.go:843-859 | for lists with distinct keys, which canonical lists have, sorting by key and comparing decides equality as multisets |
| `StoreOps.PathRemovalIff` | controlplane/firewall/handler.go:1467-1507 | taking a path rule off a canonical list leaves it canonical iff the rule has no sibling span |
| `Siblings.SplitByDeny` | controlplane/firewall/rules_store.go:654-763 | an allow of ports 1-9 with a path rule and a deny of port 5 are stored as the deny and the allow spans 1-4 and 6-9 |
| `Siblings.SiblingRemovalBreaks` | controlplane/firewall/handler.go:1467-1507 | on that list, which is canonical, removing the path rule from one span is reported as done and leaves a list that is not canonical and that canonicalising changes again |
| `StoreOps.RunKeepsCanonical` | controlplane/firewall/handler.go:1362-1507 | any sequence of batch adds, rule removals and path removals on rules without sibling spans keeps the store canonical |
| `StoreOps.MergePaths` | controlplane/firewall/rules_store.go:352-360 | the loop with its path index computes the merged path rules |
| `StoreOps.RuleStore.AddRulesToStore` | controlplane/firewall/handler.go:1362-1424 | new stored rules and statuses are those of the batch-add specification |
| `StoreOps.RemovalMeans` | controlplane/firewall/handler.go:1430-1457 | a removal is reported iff a canonical rule was under the key, and leaves exactly the canonical rules not under it, in order; otherwise nothing changes |
| `StoreOps.PathRemovalMeans` | controlplane/firewall/handler.go:1467-1507 | a path removal is reported iff the first canonical rule under the key had the path, and takes exactly its entries off that rule, in order, and touches nothing else |
| `StoreOps.RuleStore.RemoveRuleFromStore` | controlplane/firewall/handler.go:1430-1457 | the loop computes the removal of the specification and writes only on a match |
| `StoreOps.RuleStore.RemovePathRuleFromStore` | controlplane/firewall/handler.go:1467-1507 | drops the path from the first rule with the key, reports whether it was there, writes only then |
| `Dedicated.DedicatedMappings` | controlplane/firewall/envoy_types.go:125-155 | the running index assigns base+i to the i-th slot of the fan-out |
| `Dedicated.PortArithmetic` | controlplane/firewall/envoy_config.go:784-845 | with valid ports and a fitting layout every assigned port is 1..65535, survives the 16-bit cast, is used once across both bands and is none of the fixed ports |
| `Dedicated.LayoutExactly` | controlplane/firewall/envoy_config.go:784-845 | for valid ports the layout is accepted iff every slot of both bands has a port 1..65535 of its own that is none of the fixed ports |
| `Dedicated.PortDefaults` | controlplane/firewall/envoy_config.go:870-884 | a single named port counts; else 22 for ssh, 80 for http and ws in the collision check, and 443 |
| `Dedicated.StackExactly` | controlplane/firewall/envoy_config.go:656-672 | every rule competes for its host but a deny that is not opaque, on the ports it names, or on 80, 22 or 443 by protocol where none can be read |
| `Dedicated.StackTokens` | controlplane/firewall/envoy_config.go:886-902 | https, wss, tls and no protocol are one stack, http and ws another, every other token its own |
| `Dedicated.FanoutDistinct` | controlplane/firewall/envoy_types.go:125-174 | the slots of guarded rules are pairwise distinct host-port pairs |
| `Dedicated.GuardedApart` | controlplane/firewall/envoy_config.go:646-773 | two guarded rules of one family never claim the same port of the same host |
| `EnvoyConfig.AddChainKeeps` | controlplane/firewall/envoy_types.go:407-425 | adding a chain keeps one chain per match and redefines no cluster |
| `EnvoyConfig.UnionByNameShape` | controlplane/firewall/envoy_types.go:554-575 | merging virtual hosts keeps one per name, the first, and loses no name |
| `EnvoyConfig.MergeVHosts` | controlplane/firewall/envoy_types.go:554-575 | the loop with its seen-set computes the union by name |
| `EnvoyConfig.Accumulator.ClaimPermutation` | controlplane/firewall/envoy_types.go:467-473 | true iff the key is new; it is remembered; the tree is unchanged |
| `EnvoyConfig.Accumulator.EnsureListenerIn` | controlplane/firewall/envoy_types.go:334-347 | the listener exists afterwards, created only if it was missing; the index stays exact |
| `EnvoyConfig.Accumulator.AddClusterIn` | controlplane/firewall/envoy_types.go:429-442 | refused iff the name is empty or bound to another body; otherwise the tree gains that cluster |
| `EnvoyConfig.Accumulator.AddChainIn` | controlplane/firewall/envoy_types.go:407-425 | appended when the match is new, merged when both are HTTP managers, refused otherwise; the signature index stays exact |
| `EnvoyConfig.Accumulator.SetUdpTargetIn` | controlplane/firewall/envoy_types.go:377-390 | sets the proxied cluster of an existing listener, refused when there is none |
| `Orchestrator.DeriveGenFacts` | controlplane/firewall/envoy_config.go:211-248 | the loops collect exactly the facts of the specification: port tables, exact apexes, websocket and base origins |
| `Orchestrator.DerivePermutations` | controlplane/firewall/envoy_config.go:111-170 | the loop with its promoted-set derives the permutations of the specification in order |
| `Orchestrator.GenerateTree` | controlplane/firewall/envoy_config.go:20-92 | running every permutation once on the accumulator gives the tree of the specification, and fails iff it does |
| `Orchestrator.GenerateEnvoyConfig` | controlplane/firewall/envoy_config.go:20-65 | a tree comes out iff every guard passes and every layer succeeds, and then it is the tree of the specification |
| `Lockstep.PortKeyInjective` | controlplane/firewall/envoy_types.go:182-184 | the lookup key of a host and port names one host and port |
| `Lockstep.SlotNameInjective` | controlplane/firewall/envoy_upstream.go:177-183 | equal listener names mean equal family, sanitised host and port |
| `Lockstep.SlottedPermStep` | controlplane/firewall/envoy_config.go:361-408 | the layers of one dedicated listener leave it bound to its port and ending in its pin or the blackhole, and touch nothing else |
| `Lockstep.RunPermsSlots` | controlplane/firewall/envoy_config.go:20-92 | after any lawful run every dedicated listener still stands as its own layers left it |
| `LockstepRules.TableAt` | controlplane/firewall/envoy_config.go:241-246 | the port table maps each slot to base+index and has no other key |
| `LockstepRules.PermKeyInjective` | controlplane/firewall/envoy_config.go:157-167 | permutation keys of readable rules identify dst, port, action, proto and row |
| `LockstepRules.ColonInActionCollides` | controlplane/firewall/envoy_config.go:157-167 | a colon in an action token makes two different rules share a permutation key, the reason for asking colon-free actions |
| `LockstepRules.DeriveLawful` | controlplane/firewall/envoy_config.go:111-170 | guarded rules derive permutations whose dedicated ones share neither key nor listener name with any other |
| `LockstepRules.DedicatedLockstep` | controlplane/firewall/envoy_config.go:319-408 | for guarded rules with colon-free actions and distinct sanitised hosts the i-th slot has its listener at base+i ending in the pin of that host and port (allow) or the deny cluster (deny), and there is no other dedicated listener |
| `Routes.RoutesFromRules` | controlplane/firewall/rules_store.go:407-532 | the three passes with their seen-sets compute the route list of the specification |
| `Routes.LockstepBijection` | controlplane/firewall/rules_store.go:407-457 | dedicated routes and dedicated listeners are in bijection: matching port and terminal, every listener has its route, ports and listeners pairwise distinct, and a route port is bound by exactly that listener |
| `RouteTable.RoutesOnePerEntry` | controlplane/firewall/rules_store.go:407-532 | no two routes of guarded rules, dedicated or shared, write the same route_map entry |
| `RouteTable.SharedShape` | controlplane/firewall/rules_store.go:480-530 | every shared route comes from an allowed domain rule with one port and goes to the egress port, over UDP only for https and wss |
| `RouteTable.SharedRoutesExactly` | controlplane/firewall/rules_store.go:480-530 | a TCP route to the egress port exists for a host and port iff an allowed, not opaque domain rule names that single port; a QUIC route only for https and wss and where no raw udp rule has the port, and surely if all such rules are |
| `SharedLockstep.SharedRoutesFronted` | controlplane/firewall/rules_store.go:480-530 | every shared route of web rules past the collision guard leads to a listener bound to its port, TCP or QUIC, whose chain alone carries the server names and has a virtual host that claims the host and port |
| `SharedLockstep.TlsNoNameClash` | controlplane/firewall/envoy_http.go:169-175 | over TLS no other rule of a chain gives its virtual host the same name for another host or port |
| `Clashing.SecondHostUnclaimed` | controlplane/firewall/envoy_types.go:554-575 | two plaintext wildcard hosts that sanitise alike generate, and no virtual host claims the authority of the second |
| `Clashing.UnclaimedIsRouted` | controlplane/firewall/rules_store.go:480-530 | the route table sends that host and port to the egress listener all the same |
| `Clashing.UnknownProtoUnfronted` | controlplane/firewall/rules_store.go:480-530 | a rule with an unknown protocol is routed to the egress listener while the generated tree is empty |
| `RouteTable.SeedDomainsFromRules` | controlplane/firewall/rules_store.go:547-567 | the loop reports each literal IPv4 destination of a dedicated mapping once, in order |
| `RouteTable.SeedsMatchRoutes` | controlplane/firewall/rules_store.go:534-567 | the reported addresses are exactly those the route table seeds |
| `Chains.RunKeepsStructure` | controlplane/firewall/envoy_types.go:407-442 | after any sequence of permutations no two chains of a listener share a match and no cluster name was redefined |
| `Chains.SharedEntrySameClaim` | controlplane/firewall/envoy_tls.go:112-121 | two server-name claims that share an entry are the same claim, exact and wildcard rules of one apex included |
| `Chains.ServerNamesExactly` | controlplane/firewall/envoy_tls.go:112-121 | the server names of a rule are its host and, for a wildcard, what lies below it, the host then only if no exact rule owns it |
| `Chains.ChainsUnique` | controlplane/firewall/envoy_tls.go:112-156 | for validated rules no two chains of one listener share a match or a server name |
| `Chains.LiteralStarClashes` | controlplane/firewall/envoy_tls.go:112-121 | a literal star in a destination would share an entry with a wildcard: the reason validation must exclude it |
| `References.RunGrounds` | controlplane/firewall/envoy_types.go:407-442 | after any sequence of permutations every cluster that a chain, a virtual host or a UDP listener names is defined |
| `CrossRouting.NoCrossRouting` | controlplane/firewall/envoy_http.go:48-112 | for every rule list each virtual host that forwards to a pinned host and port claims only host:port, and the bare host on a default port |
| `EndToEnd.WrittenRulesEnforced` | controlplane/firewall/envoy_config.go:20-92 | with the canonical form of any written rules deployed, a denied opaque port of a host that is no range is redirected to a listener that refuses it, and a port allowed and not denied to one that pins that host and port |
| `EndToEnd.EnforcedWasWritten` | controlplane/firewall/rules_store.go:407-457 | every dedicated redirect comes from a written rule with that host, port and verdict, and a denied port is never pinned |
| `EndToEnd.AcceptedDeploys` | controlplane/firewall/envoy_config.go:20-45 | for a canonical form that generates, with explicit opaque ports, colon-free actions and distinct sanitised names, passing the guards of the generator is what the two results above ask for, plus no raw udp to a range |
| `Ranges.RangeEnforced` | controlplane/firewall/envoy_config.go:341-360 | in every generated tree each port of a tcp or ssh rule to an address range has one chain on the shared listener, which ends in the deny cluster if the rule denies and in an original-destination cluster if not |
| `Ranges.WrittenRangesEnforced` | controlplane/firewall/envoy_config.go:341-360 | port by port as the rules were written, a denied port of a range is refused and a port allowed and not denied is let through to its original destination |
| `Resolvable.AllowedLooksUp` | controlplane/firewall/coredns_config.go:60-100 | the lookup of an allowed domain is forwarded unless a rule denies the domain, on whatever port, and the name is not reserved |
| `Resolvable.PinnedResolvesIff` | controlplane/firewall/coredns_config.go:177-181 | a written port of a named host that is allowed and not denied is pinned, and its name is looked up with success iff the name is reserved or no rule denies the domain |
| `Resolvable.SplitHostUnresolvable` | controlplane/firewall/coredns_config.go:177-181 | for an allow of ports 1-9 around a deny of port 5, port 1 is allowed and routed and yet the name is refused |
| `Reconcile.RunSound` | controlplane/firewall/stack.go:427-483 | in every run of commits, regenerations, restarts, reboots and route syncs, with any of them failing, the loaded tree is the one generated from the rules committed before its read, and the route table the one projected from those committed before its own; healing the stored list changes neither |
| `Reconcile.RunDecided` | controlplane/firewall/handler.go:1072-1120 | in every run the file is the tree of the last regeneration that went through, the proxy runs the file as it stood at the last reload and nothing if that one failed, and the kernel holds the routes of the last sync if it was applied |
| `Reconcile.HealExactly` | controlplane/firewall/stack.go:442-481 | a regeneration that reads the store leaves in it the protocols, actions and ports of the canonical form rule by rule, and rewrites it, as that form, only if it had others |
| `Reconcile.OneSnapshot` | controlplane/firewall/handler.go:1072-1120 | tree and routes come from one version of the rules iff nothing was committed between the two reads, and then from the same rules |
| `Deployed.DeployedInStep` | controlplane/firewall/handler.go:1072-1120 | in every run without a commit between the two reads, what is deployed is in step: each dedicated route has its listener, alone on its port, with the right pin or refusal, and every dedicated listener its route |
| `Reconcile.ReconcileHeals` | controlplane/firewall/handler.go:1072-1101 | a reconcile that goes through brings tree and routes to the rules now committed, whatever the run before it did |
| `Reconcile.RefusedMovesRoutes` | controlplane/firewall/handler.go:1086-1097 | a reload refused by the generator keeps the loaded tree while the routes are still moved to the new rules |
| `Deployed.StaleTreeServes` | controlplane/firewall/stack.go:214-253 | with routes newer than the tree every new slot, whatever its position, is routed to base plus its position modulo 2^16, and is served as its rule says iff an old slot of its family stands at that port with one listener name and verdict and, if pinned, one host |
| `Deployed.RefusedServes` | controlplane/firewall/handler.go:1086-1097 | in every run, after a refused reload every slot of the new rules is routed to the tree still loaded by its own position, and is served as its rule says iff the old slot of that port, if any, is the same service |
| `Misrouted.RefusedReloadMisroutes` | controlplane/firewall/handler.go:1086-1097 | a run in which the commit of g:5 over tcp and udp is refused for a collision, and g:5 is then routed to a port that only the listener pinned to h:5 binds |
| `ValidateDst.ScanDomain` | controlplane/firewall/rules_store.go:85-130 | the one-pass scan accepts iff every dot-separated label is good and the name is not all digits and dots |
| `ValidateDst.Validate` | controlplane/firewall/rules_store.go:56-130 | accepts iff the stripped destination is a domain name of 1-253 characters with good labels, or an address without a leading dot |
| `ValidateDst.ValidDomainChars` | controlplane/firewall/rules_store.go:56-130 | a valid domain destination has only label characters and dots, so no star, no colon and no upper case |
| `CoreDns.GenerateCorefile` | controlplane/firewall/coredns_config.go:30-129 | one zone for each reserved, denied or allowed name with the body the rules give it, pairwise distinct names, and no other zone |
| `CoreDns.RegexMatchesSubdomains` | controlplane/firewall/coredns_config.go:190-192 | the generated pattern, searched in the fully qualified name, matches exactly the proper subdomains |
| `CoreDns.NearestIsLongest` | controlplane/firewall/coredns_config.go:30-129 | the nearest ancestor-or-self with a zone is the longest zone a name falls in |
| `CoreDns.LookupIsMeaning` | controlplane/firewall/coredns_config.go:30-248 | for every query the longest-suffix lookup answers as the rules say, read off their fields: nearest internal, denied or allowed ancestor decides, subdomains forwarded only under a wildcard, otherwise NXDOMAIN |
| `CoreDns.ValidatedIsVetted` | controlplane/firewall/coredns_config.go:30-129 | validated rules give zone names without pattern metacharacters, addresses with a trailing dot included, and none of them the catch-all |
| `CoreDns.DottedAddressIsNamed` | controlplane/firewall/coredns_config.go:60-70 | an address with a trailing dot passes validation and still gets a zone of its own |
| `HttpRoutes.BuildRoutes` | controlplane/firewall/envoy_http.go:265-290 | the sorted loop builds the route list of the specification |
| `HttpRoutes.SortedFirstIsBest` | controlplane/firewall/envoy_http.go:275-276 | in the stably sorted list the first applicable rule is the longest one of the given list, ties by position |
| `HttpRoutes.RoutesRefineLongestRule` | controlplane/firewall/envoy_http.go:265-373 | for every path and method first match allows iff the longest applicable path rule reads allow; with none applicable it denies iff the given path default reads deny, or none is given and some path rule allows |
| `HttpRoutes.LongestPrefixWins` | controlplane/firewall/envoy_http.go:265-290 | for literal rules with distinct paths that is the longest matching prefix whose methods are empty or name the method |
| `HttpRoutes.VerbsAsListed` | controlplane/firewall/envoy_http.go:357-373 | no matcher, exact matcher and alternation accept exactly the listed methods |
| `Hosting.ChainHosts` | controlplane/firewall/envoy_types.go:554-575 | for every rule list, listener and match the virtual hosts of the chain are exactly the first of each name among those its permutations bring, with no name twice |
| `WebRules.RuleHosted` | controlplane/firewall/envoy_http.go:48-112 | the virtual host of an allowed http(s) rule that no earlier rule rivals is in its chain, over TCP and QUIC, with its own route list, and its upstream is defined as its own |
| `WebRules.WebPortMeaning` | controlplane/firewall/envoy_tls.go:174-179 | the port of a web rule is the single one it names, and else 443 for https and wss and 80 for http and ws |
| `WebRules.HostsAsked` | controlplane/firewall/envoy_http.go:48-112 | every virtual host of the tree but the catch-all is one that a rule of that chain asks for |
| `HttpRequests.ExactAuthority` | controlplane/firewall/envoy_http.go:184-203 | host:port, and the bare host on the default port, of an exact rule is claimed outright by the virtual host of that rule and by no other of the chain |
| `HttpRequests.RequestDecided` | controlplane/firewall/envoy_http.go:265-290 | whatever path and method a request to an exact host and port has, the one virtual host that claims it allows iff the longest applicable path rule reads allow, or with none applicable iff the path default does not read deny and, if not given, no path rule allows; and it forwards to that host and port, in the clear for http and over TLS for https, verified unless the rule says otherwise |
| `HttpRequests.TlsRequestDecided` | controlplane/firewall/envoy_tls.go:112-156 | over TLS and QUIC the same holds with no condition on wildcards, and one chain alone carries the server name |
| `HttpRequests.WildcardAuthority` | controlplane/firewall/envoy_http.go:184-203 | over TLS and QUIC every authority a wildcard rule reaches, its host or anything below it with the port or on the default port without, is claimed within the chain by the virtual host of that rule alone |
| `HttpRequests.WildcardRequestDecided` | controlplane/firewall/envoy_http.go:265-290 | and a request there gets the verdict of the longest path rule of that rule, forwarded by the dynamic proxy |
| `DefaultDeny.UnreachedIsDenied` | controlplane/firewall/envoy_http.go:250-258 | in every generated tree, in an HTTP chain no range rule built, some virtual host is selected for every authority, and for one that no rule of the chain reaches every path and method is denied |
| `WebRules.FactsExactly` | controlplane/firewall/envoy_config.go:211-248 | an origin takes websockets iff an allowed ws or wss rule names the same destination and port, and a host is owned as an apex iff an allowed https or wss rule names it exactly |
| `RangeRequests.AddressedMatch` | controlplane/firewall/envoy_tls.go:143-150 | a web rule to addresses is matched on its range and its port, over TLS for https and in the clear for http |
| `RangeRequests.RangeRequestDecided` | controlplane/firewall/envoy_http.go:59-66 | the chain of a web rule to a range holds the virtual host of that rule alone, which takes every authority, gives every path and method the verdict of the longest path rule, and forwards to the original destination, unless another destination of the list names the same range and port |
| `RangeRequests.SameRangeClash` | controlplane/firewall/envoy_http.go:59-66 | two rules that write one range in two ways give two virtual hosts that claim every authority of one chain, which is why the result excludes that pair |
| `HttpRequests.ApexClash` | controlplane/firewall/envoy_http.go:184-203 | in plaintext an exact and a wildcard rule of one host and port give two virtual hosts that claim one authority, which is why the plaintext result excludes that pair |
| `Clashing.TwoHostsClaimApex` | controlplane/firewall/envoy_http.go:184-203 | the rules a and .a on plaintext port 80 generate, and two virtual hosts claim a:80 |
| `Queue.ActionQueue.Submit` | controlplane/firewall/queue.go:134-152 | accepted iff the closure is not nil and the queue is open; appended at the end |
| `Queue.ActionQueue.Next` | controlplane/firewall/queue.go:200-218 | takes the head and, if it coalesces, the whole run of its kind behind it |
| `Queue.GroupExactly` | controlplane/firewall/queue.go:200-218 | a reconcile at the front is taken with every reconcile right behind it, anything else alone |
| `Queue.ActionQueue.Serve` | controlplane/firewall/queue.go:182-218 | beside open submissions, whatever arrives between takes, the groups taken so far followed by the buffer are the arrivals in order, each group lawful |
| `Queue.ActionQueue.Drain` | controlplane/firewall/queue.go:182-195 | after Close the worker runs exactly what was accepted, in order, in lawful groups |
| `Queue.QueueCorrect` | controlplane/firewall/queue.go:134-257 | in every run groups concatenate to the accepted items in FIFO order, each a singleton or all reconciles; every call is refused or accepted, never both; answers follow acceptance order, one each; an exited worker has answered all |
| `Queue.RefusedExactly` | controlplane/firewall/queue.go:134-152 | in every run a call is refused iff it brings no closure or comes after Close, for that very reason, and is otherwise accepted with its kind and commit |
| `Queue.ClosedForGood` | controlplane/firewall/queue.go:134-177 | whatever happens after Close, nothing more is accepted |
| `Queue.CoalescedShareResult` | controlplane/firewall/queue.go:182-195 | in every run the answers are one result per group, handed to each of its submitters |
| `Queue.ReadYourWrites` | controlplane/firewall/handler.go:1072-1120 | an answer that reports a restart synced routes from a store snapshot no older than its own caller committed, coalesced or not |
| `Bypass.ResolveUnchanged` | controlplane/firewall/drift.go:31-78 | a live lookup gives the live cgroup, drift or not; every other branch the stored one; no branch skips the restore |
| `Bypass.BypassTimers.Arm` | controlplane/firewall/handler.go:699-707 | stops the remembered timer, arms a new one and remembers it |
| `Bypass.BypassTimers.Cancel` | controlplane/firewall/handler.go:1317-1324 | stops and forgets the remembered timer of the container, if any |
| `Bypass.BypassTimers.CancelEvery` | controlplane/firewall/handler.go:1144-1156 | stops every remembered timer, forgets all, and counts them |
| `Bypass.DeadManHolds` | controlplane/firewall/handler.go:656-716 | in every run a container whose flag was last written by a bypass has its timer armed or firing, its restore queued, or that call about to arm, unless its restore was given up since |
| `Bypass.LostExactly` | controlplane/firewall/handler.go:1222-1282 | a restore is given up exactly when it fails or is refused by a closed queue, when an Enable cancels the timer although its own clear failed, when a flush leaves the flag behind, or when shutdown cancels the timers; another timer may still watch the container |
| `Stranded.StepWatch` | controlplane/firewall/handler.go:1222-1282 | a step that does not write the flag of a bypassed container leaves it watched iff it was watched and the step does not give up the last restore: no call about to arm, no other restore queued, no other armed or firing timer |
| `Stranded.DeadManExactly` | controlplane/firewall/handler.go:656-716 | in every run a container is bypassed with nothing on its way to restore it iff some step gave up its last restore and its flag was not written since |
| `Bypass.SwallowedClearStrands` | controlplane/firewall/ebpf/manager.go:605-620 | a run in which every call succeeds and the queue is open, yet the container stays bypassed with nothing to restore it: Install hides the failure of its clear and Enable then cancels the timer |
| `Bypass.SmoothLosesNothing` | controlplane/firewall/handler.go:1222-1282 | without a failed eBPF call, a flag left behind or a closed queue no restore is ever lost |
| `Bypass.QuietMeansEnforced` | controlplane/firewall/handler.go:1222-1282 | once nothing is queued, arming, armed or firing, no container is left bypassed |
| `Bypass.MapMembershipFails` | controlplane/firewall/handler.go:1240-1244 | a run without any failure in which a bypassed container has no map entry: the firing timer deletes by container id |
| `Bypass.RememberedExactly` | controlplane/firewall/handler.go:1240-1244 | in every run an armed timer is the one its container entry names iff no other timer of that container was cleaned up since it was armed |
| `Bypass.SettledBypassStaysRemembered` | controlplane/firewall/handler.go:699-707 | a bypass that arms while every other timer of its container is spent, or armed and remembered, stays remembered until it is cancelled, replaced or fires |
| `Bypass.ForgottenTimerErases` | controlplane/firewall/handler.go:1240-1244 | that no timer is firing or waiting is not enough: a forgotten armed timer erases the new entry when it is cleaned up |
| `Bypass.EnableStopsIffRemembered` | controlplane/firewall/handler.go:577-585 | an Enable stops an armed timer of its container iff the map remembers it |
| `Bypass.ForgottenUndoesDisable` | controlplane/firewall/handler.go:603-650 | a forgotten timer outlives an Enable, and when it fires it clears the flag a later Disable set |
| `Supervisor.SupervisorSafe` | clawkerd/spawn_unix.go:639-916 | in every run Done closed implies MainExited and the drain gate closed and a status or error recorded; no wait4(-1) before the drain gate; SIGTERM then SIGKILL at most once each; ended by the third expiry |
| `Supervisor.SingleSpawn` | clawkerd/spawn_unix.go:215-240 | over every interleaving of callers runOnce executes at most once, Done{0} is replied only for an installed child, and all replies agree, with the original error if it failed |
| `Supervisor.RunGrows` | clawkerd/spawn_unix.go:461-482 | closed gates stay closed, and a recorded status, spawn error or first reaper error is never replaced |
| `Supervisor.ExitCodeSurvives` | clawkerd/spawn_unix.go:385-397 | once the main child was reaped, 128 plus its signal or its exit code is what Wait returns, whatever happens after |
| `Supervisor.WaitReturns` | clawkerd/spawn_unix.go:934-942 | in every run Wait blocks iff a child was installed and Done is open, and returns 128 plus the signal or the exit code that wait4 first reported for the main child, and 1 if it reported neither or nothing was spawned |
| `Supervisor.BailsExactly` | clawkerd/spawn_unix.go:667-834 | the reaper gives up exactly when it panics, the main child is gone, 32 wait4 errors came in a row or the grace after SIGKILL has passed; no gate moves with that step and the first cause stays on record |
| `ReaperLoops.SpawnState.ReapMain` | clawkerd/spawn_unix.go:667-738 | phase 1 ends at the first answer that is the child, is ECHILD, or completes 32 unexpected errors in a row; only the last two close all gates |
| `ReaperLoops.SpawnState.DrainAll` | clawkerd/spawn_unix.go:743-834 | phase 2 ends all-reaped in the first round that finds no child, aborted at the 32nd failed round in a row, given up at the third expiry, and not before; it sends a prefix of SIGTERM, SIGKILL, one per expiry; only the last two record an error; Done closes last |
| `ReaperLoops.SpawnState.DrainOrphans` | clawkerd/spawn_unix.go:869-895 | drained iff the first answer that is neither an interrupt nor an orphan is ECHILD, failed iff it is another error |
| `ReaperLoops.SpawnState.CloseAllGates` | clawkerd/spawn_unix.go:912-916 | the gates still open are closed once each in the order MainExited, drain gate, Done |
| `Executor.CaptureCapped` | controlplane/agent/exec.go:540-551 | however output is cut into chunks, the buffer is its first 4096 characters and the counter the rest |
| `Executor.AwaitStepResult` | controlplane/agent/exec.go:711-795 | the first read that breaks the stream or ends this command decides, with the capped output of this command before it |
| `Executor.SuccessIsDoneZero` | controlplane/agent/exec.go:748-795 | a step succeeds iff it ends in its Done frame with code 0; a transport error iff the stream broke; the exit code is that of the Done frame, else -1 |
| `Executor.ErrorReasons` | controlplane/agent/exec.go:797-816 | each error code and the one reason it is classified as |
| `Executor.RunPlan` | controlplane/agent/exec.go:337-398 | the loop publishes the trace of the specification and succeeds iff every step does |
| `Worldview.AlwaysInRange` | controlplane/agent/event_state.go:57-117 | for any messages and time stamps the step index is in range and a finished phase does not end before it started |
| `Worldview.TraceReaches` | controlplane/agent/repository.go:160-176 | folding the events of a run, from any earlier state, ends in the state the run reached, with the failing step name, index and detail |
| `Worldview.CompletedIffAllSucceed` | controlplane/agent/repository.go:160-176 | Completed with an empty error iff every step succeeded |
| `Worldview.StrayFailureLeavesError` | controlplane/agent/event_state.go:88-105 | a step failure after completion gives Completed with an error, which the type comment calls impossible |
| `Worldview.CompletedErrorIffStray` | controlplane/agent/event_state.go:88-105 | the error of a completed phase is exactly the detail of the last step failure since the completion, empty if there was none |
| `Worldview.AgentStore.Project` | controlplane/agent/repository.go:102-130 | the new map is the old one with this one event applied; an empty container id changes nothing |
| `Worldview.AgentStore.Evict` | controlplane/agent/repository.go:74-78 | only that container is dropped |
| `Worldview.ExecAxisIsolated` | controlplane/agent/repository.go:102-198 | however events of all containers and axes interleave, a container exec state is the fold of its own exec messages since its last eviction |
| `Axes.EntryShowsEvents` | controlplane/agent/repository.go:102-198 | however events interleave a container has an entry iff it was observed since its last eviction, and its session status, error, address, attempts, peer, registration, trust, name, project and time are those of the last event that says something about each |
| `Axes.PhaseShown` | controlplane/agent/repository.go:160-176 | for any messages the exec phase shows its last boundary, its last error, its last step clamped into the step count, and when it began and ended |
| `Worldview.RunVisibleInStore` | controlplane/agent/repository.go:102-176 | a run whose events all arrive leaves its container entry as the run ended |

## Left out

- Warning and error texts and log lines: only whether a step fails, which guard refuses first, and which port or host it names, is modelled.
- TLS certificates, tokens, Hydra and the gRPC listeners: cryptography and network clients over libraries that are not part of this model.
- Docker calls, container configuration, YAML and protojson output, access-log fields and the health, OTel and admin listeners: static data with no property of their own.
- The dynamic-forward-proxy flag of the shared plaintext chain and the alt-svc header: they change no listener, chain match, cluster name or virtual-host name.
- HttpRequests.RequestDecided: asks for rules as validation leaves them (known actions, readable ports, no star), method tokens without a bar, no host spelled like another authority, and on the plaintext chain no wildcard rule of the same host and port. It covers http and https rules for one host, and RangeRequests those for a range; requests under a plaintext wildcard, and the path rules of a ws or wss rule that stands alone, are left out.
- Equality of the resolvable-domain list with the zone names: it fails when one domain is both allowed and denied.
- Regular-expression engines: a regex path rule is decided by a parameter of `HttpRoutes`; the one pattern shape CoreDNS needs has its own matcher in `CoreDns`.
- Nil and empty slices are one value, so results that differ only in that are equal here.
- LockstepRules.DedicatedLockstep: asks for explicit ports on opaque rules, colon-free actions, distinct sanitised host names and a successful generation; with an unset port two rules can fall on one slot, with a colon in an action two rules can share a permutation key, and two hosts such as a-b and a.b share a listener name.
- CoreDns.ValidatedIsVetted: takes from the network library that what it calls an address or a range is written with hexadecimal digits, dots, colons and a slash.
- Bypass.DeadManHolds: assumes a container keeps its cgroup id; a changed id is a step the model does not take. Panics inside a queued closure or a firing timer are not modelled.
- Supervisor.SupervisorSafe: a panic inside runOnce is not modelled; panics of the reaper and of the stop watchdog are. The signal forwarder and the pgroup signals of Stop are left out, since no gate depends on them.
- Executor.RunPlan: a panic between two steps, which publishes only the run failure, is not modelled; a panic within a step is. Killing the container after a failed step is left out.
- Worldview.RunVisibleInStore: assumes that no event of the run is dropped by the topic.
- Queue.ReadYourWrites: a queued closure is one step there; the two store reads of a reconcile, and commits between them, are steps of their own in Reconcile.
- Reconcile.RunSound: a half-written route table after a failed sync is left unspecified; what Docker does when it stops or recreates a container is reduced to whether the proxy runs the new file, the old one or nothing.
- Shell pipelines, their pipes and their terminal frames: more than one terminal frame per command is possible, so no single-response claim is made.
- Orchestrator.GenerateEnvoyConfig: the deny floor, the OTel cluster, the health listener and the bootstrap validation that follow the permutations, and can fail too, are not modelled.
- EndToEnd.WrittenRulesEnforced: asks that no rule of the host is an address range; those are covered by Ranges. Raw udp to a range has no listener, and an allow of it is refused by a guard.
- SharedLockstep.SharedRoutesFronted: asks that web rules name one port, that sharing rules have a protocol the generator knows, and in plaintext that no two hosts share a virtual-host name; Clashing shows that the last two are needed.
- Adding.AddedIsHeld: asks that given rules are admissible, as validation upstream of the store leaves them; a malformed one could share the key of another.
- DefaultDeny.UnreachedIsDenied: speaks of connections that some HTTP chain matches; what no chain matches meets the deny floor, which is not part of this model. In a chain built by a rule to an address range every authority is that rule's, and RangeRequests decides it.
- RangeRequests.RangeRequestDecided: asks that no other destination of the list is matched on the same range and port under another virtual-host name; RangeRequests.SameRangeClash shows what happens then.

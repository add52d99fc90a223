# Model of the proxy core

A Dafny 4.11 model of the parts of this VPN client whose logic is hard to see by reading:
the checks on the configuration graph, rule matching with rematch and group unwrapping, the
DNS client and reply caches, five small concurrent protocols, and admission of connections
by memory headroom. `dafny verify dfyconfig.toml` checks the whole project.

Code that updates things step by step is a method or a class and is proved against a
specification. Concurrent code is a state machine: every critical section, channel
operation or atomic access is one step, enabled for any participant at any time, and the
theorems speak of every finite run. Where the same code is also given as a class, that class
is one participant nobody interferes with.

| file | what it models |
|---|---|
| Common.dfy | an option type, and elements and distinctness of sequences |
| Digraph.dfy | reachability, cycles, and two ways to find or to exclude them |
| ProxyGroups.dfy, ProxyGroupLoops.dfy | the in-place topological sort of proxy groups and its loop locator |
| GroupBuild.dfy | the loop that builds the groups from the sorted array, with the providers they register and use |
| DialerProxies.dfy, SubRules.dfy | the two depth-first checks |
| RuleMatch.dfy | rule matching, rematch, unwrapping, the PASS-RULE check |
| DnsClients.dfy | sharing raw transports between name servers |
| DnsTtl.dfy | TTLs of cached replies, on 32-bit unsigned arithmetic |
| DotPool.dfy | the DNS-over-TLS connection pool |
| DhcpRefresh.dfy | the shared DHCP query |
| MasqueStart.dfy | the start lock of a MASQUE tunnel and its hand-off |
| TunHandler.dfy | the TUN handler's permits and callbacks, and its worker |
| PacketSender.dfy | the UDP packet sender and its NAT maps |
| Admission.dfy | the sliding window of charged connections |

Map iteration order is an arbitrary choice everywhere (`:|`), so nothing depends on it.

## Where the code does less than one might expect

- **Group sort.** After a failed sort the array is not restored: its end holds the groups no
  cycle leads to, in dependency order, and what precedes keeps its old content
  (`PartlySorted`). It is still a permutation exactly if no such group stood before one a cycle
  leads to (`PermutationExactly`); otherwise a group is there twice and another is gone
  (`GroupCanAppearTwice`). The caller gives up in that case.
- **Loop report.** It names what lies between two cycles too, not only what is on one
  (`Entangled`, `BetweenLoopsIsReported`).
- **Groups as providers.** A group with members is registered as a provider under its own name,
  but `use` refuses such providers. So using another group's name fails in every order of the
  groups: before that group the provider is unknown, after it it is refused
  (`UsingGroupNeverBuilds`). Which of the two messages appears is all that the order decides.
- **Transport sharing.** `transportEqual` catches the panic of comparing proxy adapters and then
  answers false, so it is an equivalence exactly on adapters that can be compared. This is
  defensive: the outbounds that put an adapter into a name server put a pointer there.
- **Reply cache.** The stores keep whole seconds, so an entry goes stale up to a second before
  its TTL is over, never after (`FreshTiming`).
- **Server failures in the reply cache.** They are kept for five seconds whatever their TTLs
  are, so raising a small TTL to the remaining time is cut off, and a TTL so large that the sum
  passes 2^32 falls to the remainder. A served TTL lies between 1 and its original exactly when
  the original is positive.
- **DHCP.** An address that appears while a query runs is recorded without being queried: what
  the running query says stands for it until the hour is over or a look finds yet another
  address (`MissedAddress`, with the run that leads there, and `NoQueryBeforeDeadline`). And an
  interface that fails once after a good answer makes every caller get that error until then,
  with the servers known and the interface back: an error stands exactly if a look failed since
  the last query ended (`ErrorStands`, `FailedLookStays`).
- **MASQUE.** The teardown of a tunnel clears the flag before it closes the connections, so a
  caller can have a second tunnel in use while the first is still closing
  (`SecondBesideClosing`). Two are never in use together (`OneInUse`).
- **TUN hooks.** The hook is in place before the listener is open. A call that has fetched it
  finds no handler if opening then fails (`HookedCallMayFindNone`); `HookedCallFindsHandler`
  says exactly when it does find one.
- **TUN callbacks.** A start without a descriptor neither keeps nor releases its callback
  (`ProxyOnlyNeverKeeps`), and a start whose drain timed out leaves the replaced handler's
  callback behind for good (`LateDrainLeavesBehind`, `FateIsFinalInRuns`).
  `EveryCallbackHasOneFate` says that these, a panic before the handler is made, a release and
  the current handler are all there is.
- **UDP sender.** A Send that has looked at the context before Close can put its packet after
  dropAll has emptied the queue, and then nobody drops it (`EntersAfterClose`,
  `PacketStrands`, `StrandedStays`). Two origins with one target get replies in the
  name of the first (`ProcessedRepliesRestored`, `RunRepliesRestored`).
- **Admission.** The headroom law can fail where `available - floor` leaves 64 bits
  (`LawHoldsExactly`); for a floor and a headroom that are not negative it does not. The window
  is charged exactly as long as the readings fit (`WindowExactly`): a reading that goes back
  can make the list charge too little (`SteadyClockNeeded`). The caller reads the clock before
  `admit` takes the lock (core/lib_ios.go:133), so two callers can enter in the opposite order
  of their readings.

## Model

| member | source | states |
|---|---|---|
| ProxyGroups.BuildGraph | core/Clash.Meta/config/utils.go:34-59 | reports a duplicate exactly if names repeat, and then the first repeated one; otherwise every name has a node whose indegree counts the references to it with multiplicity |
| ProxyGroups.ReleaseMembers | core/Clash.Meta/config/utils.go:82-88 | taking away one group's references lowers each count by its multiplicity, finds every child live, and queues exactly the nodes that reach zero, once each |
| ProxyGroups.MembersAreLive | core/Clash.Meta/config/utils.go:82-84 | every name a live group lists has a live node whose count covers all its references from that group, so no lookup fails and no count goes below zero |
| ProxyGroups.CountsFollow | core/Clash.Meta/config/utils.go:71-91 | after a node is removed each remaining indegree again equals the references from remaining groups |
| ProxyGroups.WriteGroup | core/Clash.Meta/config/utils.go:74-76 | the group removed next lists no group written before it, and fewer groups were written than there are, so the write from the back stays in bounds |
| ProxyGroups.SortTurn | core/Clash.Meta/config/utils.go:71-91 | one turn of the queue keeps: counts, closure of what is left, ranks of what is gone, groups written in order; and the looked-up nodes exist |
| ProxyGroups.SortGroups | core/Clash.Meta/config/utils.go:60-91 | for any order of the initial queue the phase ends with no removable node left and the array written from the back with the removed groups |
| ProxyGroupLoops.LeftoversAreBehindCycles | core/Clash.Meta/config/utils.go:93-96 | what the sort leaves is exactly what some cycle leads to; nothing is left exactly if the references are acyclic |
| ProxyGroupLoops.RebuildGraph | core/Clash.Meta/config/utils.go:99-117 | every outdegree is the number of listed names and every from list names each referring group as often as it refers |
| ProxyGroupLoops.DropSources | core/Clash.Meta/config/utils.go:130-135 | lowers the outdegree of each source by its multiplicity and queues exactly those that reach zero, once each |
| ProxyGroupLoops.SourceIsLive | core/Clash.Meta/config/utils.go:130-132 | every source of a live node is live and its outdegree covers all its references to the node |
| ProxyGroupLoops.OutdegreesFollow | core/Clash.Meta/config/utils.go:127-137 | after a node is stripped each remaining outdegree again counts the references into what remains |
| ProxyGroupLoops.StripTails | core/Clash.Meta/config/utils.go:118-137 | for any order the phase ends with only nodes that refer to a remaining node |
| ProxyGroupLoops.RemainderIsEntangled | core/Clash.Meta/config/utils.go:118-144 | what is then left is exactly what some cycle leads to and what leads to some cycle, and all of it is groups |
| ProxyGroupLoops.SomethingEntangled | core/Clash.Meta/config/utils.go:138-144 | if there is a cycle the report is not empty |
| ProxyGroupLoops.LocateLoops | core/Clash.Meta/config/utils.go:98-144 | the report lists, each once, exactly the names between cycles; it is not empty and names no plain proxy |
| ProxyGroupLoops.SortedWhenEmpty | core/Clash.Meta/config/utils.go:74-96 | when nothing is left the array is a permutation of the input in dependency order |
| ProxyGroupLoops.PartlySortedWhenLooping | core/Clash.Meta/config/utils.go:74-76 | when something is left the end of the array is a permutation of the groups no cycle leads to, in dependency order, and everything before it is untouched |
| ProxyGroupLoops.PermutationExactly | core/Clash.Meta/config/utils.go:74-76 | then the array is a permutation of the input if and only if no group free of cycles stood before one a cycle leads to |
| ProxyGroupLoops.GroupCanAppearTwice | core/Clash.Meta/config/utils.go:74-76 | a configuration of two groups that a failed sort leaves with the first twice and without the second |
| ProxyGroupLoops.BetweenLoopsIsReported | core/Clash.Meta/config/utils.go:118-144 | a configuration with a group on no cycle that is reported |
| ProxyGroupLoops.LoopsTold | core/Clash.Meta/config/utils.go:18-145 | the graph of references is what the groups list: it is acyclic exactly if no walk through listed groups returns, and the same for being before and behind a loop |
| ProxyGroupLoops.ProxyGroupsDagSort | core/Clash.Meta/config/utils.go:18-145 | duplicate exactly if names repeat; otherwise success exactly if no group leads back to itself by what groups list, with a permutation in dependency order; otherwise the exact report, of each name that a loop leads to and that leads to a loop, and the partly sorted array |
| GroupBuild.GetProxies | core/Clash.Meta/adapter/outboundgroup/parser.go:226-236 | succeeds exactly if every listed name is known, with the proxies in order; else names an unknown one |
| GroupBuild.ListedOnly | core/Clash.Meta/adapter/outboundgroup/parser.go:87-115 | whatever include-all adds, a group gets the names in the file, plain proxies and its fallback, and nothing else |
| GroupBuild.ListedTold | core/Clash.Meta/adapter/outboundgroup/parser.go:87-118 | the listed names, both ways: the names of the file and, with include-all-proxies, every plain name that some filter matches, or every one without filters; the fallback exactly if that finds nothing to list or use |
| GroupBuild.NodeTold | core/Clash.Meta/adapter/outboundgroup/parser.go:138-224 | a proxy is a member of the group exactly if a listed name, a used provider or, but for smart groups, the fallback brings it in |
| GroupBuild.GetProviders | core/Clash.Meta/adapter/outboundgroup/parser.go:238-252 | succeeds exactly if every used name is a known provider that does not stand for a group, with all their proxies in order; else names one that is unknown or refused |
| GroupBuild.AcceptsIsBuildable | core/Clash.Meta/adapter/outboundgroup/parser.go:48-224 | where all earlier groups were built, a group is accepted under a free name exactly if it uses configured providers only, falls back to a plain proxy, lists plain proxies and earlier groups, and is sensible in itself |
| GroupBuild.ParseGroups | core/Clash.Meta/config/config.go:978-991 | succeeds exactly if each group is sensible, has a free name and lists plain proxies and earlier groups only, and else stops at the first that does not, with a reason that holds; of what is built every group holds the proxies of exactly its listed names, its providers and its fallback, its own list first and in order, and is Smart exactly if its type says so |
| GroupBuild.BuiltIsTold | core/Clash.Meta/config/config.go:978-991 | all that is built is told by the configuration: the names, the plain proxies under theirs, and each group with exactly its members |
| GroupBuild.BuildableIsTold | core/Clash.Meta/adapter/outboundgroup/parser.go:48-184 | whether a group can be built where it stands, told by the configuration: name, type, fallback, providers, something to list, and every listed name plain or earlier |
| GroupBuild.SortedBuilds | core/Clash.Meta/config/config.go:978-991 | in dependency order building succeeds exactly if everything the groups ask for is defined somewhere |
| GroupBuild.SortedIsBest | core/Clash.Meta/config/config.go:954-991 | if any order of the groups builds, every dependency order of them does |
| GroupBuild.UsingGroupNeverBuilds | core/Clash.Meta/adapter/outboundgroup/parser.go:132-184 | a group that uses as provider a name that is not configured, another group's included, builds in no order |
| GroupBuild.SortAndBuild | core/Clash.Meta/config/config.go:954-991 | sorting then building: on distinct groups without a loop this succeeds exactly if everything they ask for is defined, and exactly if some order of them builds; what it leaves is sorted and built as configured |
| DialerProxies.HasCycle | core/Clash.Meta/config/utils.go:178-203 | the search from a name, with visited equal to the path, is true exactly if the chain from it runs into a cycle |
| DialerProxies.EndsOrCircles | core/Clash.Meta/config/utils.go:178-203 | a chain ends within the number of links not yet on the path or runs into a cycle |
| DialerProxies.EndsExactlyWithoutCycle | core/Clash.Meta/config/utils.go:166-173 | following the links from a proxy ends within the number of links exactly if no cycle lies ahead |
| DialerProxies.EndingIsAcyclic | core/Clash.Meta/config/utils.go:166-175 | all chains end exactly if the links have no cycle |
| DialerProxies.CirclesTold | core/Clash.Meta/config/utils.go:166-203 | a chain comes back to a proxy it passed exactly if it does not end within the number of links |
| DialerProxies.CollectLinks | core/Clash.Meta/config/utils.go:149-164 | collects exactly the configured links, or reports one whose target is no proxy |
| DialerProxies.ValidateDialerProxies | core/Clash.Meta/config/utils.go:148-176 | accepts exactly if every dialer-proxy exists and no chain of them comes back to a proxy it passed; each error names a real fault |
| SubRules.VerifyCircularReferences | core/Clash.Meta/config/config.go:1095-1122 | with the distinct known names on the way, accepts exactly if nothing is missing and no cycle lies ahead of the list; ends because the path cannot outgrow the lists; a reported circle is a real walk that returns |
| SubRules.SoundFromMembers | core/Clash.Meta/config/config.go:1106-1120 | a list whose references all exist and are sound is sound |
| SubRules.SoundEverywhere | core/Clash.Meta/config/config.go:1085-1093 | every list being sound is the same as every reference resolving and no cycle anywhere |
| SubRules.WellReferredIsSound | core/Clash.Meta/config/config.go:1085-1122 | that no walk along the SUB-RULEs of the lists returns is acyclicity of the sub-rule graph |
| SubRules.VerifySubRule | core/Clash.Meta/config/config.go:1085-1093 | accepts exactly if every SUB-RULE names a configured list and no walk along SUB-RULEs returns to the list it began at; a reported circle is such a walk |
| RuleMatch.FollowChain | core/Clash.Meta/tunnel/tunnel.go:685-703 | terminates on the tree of members; yields the first Pass or Rematch on the chain, whichever comes first, and whether a Smart group came before |
| RuleMatch.OneVerdict | core/Clash.Meta/tunnel/tunnel.go:692-720 | a rule can restart the search through one proxy only, and never both restart it and be accepted |
| RuleMatch.PassDecidesOnce | core/Clash.Meta/tunnel/tunnel.go:671-722 | the first-match description of a pass determines how the pass ends |
| RuleMatch.TryRule | core/Clash.Meta/tunnel/tunnel.go:672-721 | one rule is used exactly if it hits an existing adapter whose chain has neither Pass nor Rematch and that carries UDP if needed; restarts at a Rematch met before any Pass; is skipped otherwise, with the Smart marks it leaves |
| RuleMatch.TryRules | core/Clash.Meta/tunnel/tunnel.go:671-722 | one pass ends at the first rule that is not skipped, on the metadata the skipped ones left |
| RuleMatch.PassIsFirstMatch | core/Clash.Meta/tunnel/tunnel.go:671-722 | if nothing looks at the Smart marks, a pass ends at the first rule that is not skipped under the metadata it started with |
| RuleMatch.RestartNamesAreDistinct | core/Clash.Meta/tunnel/tunnel.go:723-738 | the passes that restart a search carry pairwise distinct names of Rematch proxies |
| RuleMatch.PassesBounded | core/Clash.Meta/tunnel/tunnel.go:666-741 | whatever dialling a Rematch proxy does to the metadata, a search makes at most one pass per Rematch name and one more |
| RuleMatch.ResolvesOnce | core/Clash.Meta/tunnel/tunnel.go:662-742 | configuration and starting metadata determine all passes, the result and the final metadata |
| RuleMatch.OnePass | core/Clash.Meta/tunnel/tunnel.go:667-741 | one turn of the outer loop either finishes (usable adapter, repeated or failing Rematch, or DIRECT) or restarts with the new name and the updated metadata |
| RuleMatch.Match | core/Clash.Meta/tunnel/tunnel.go:662-742 | terminates and refines the declarative search: first-match passes, each restart on the rule list selected by the updated metadata |
| RuleMatch.ResultIsUsable | core/Clash.Meta/tunnel/tunnel.go:715-740 | without a rule the result is the proxy DIRECT; with one it was chosen by that rule: as its usable adapter or as the Rematch on its chain |
| RuleMatch.RuleIsTold | core/Clash.Meta/tunnel/tunnel.go:672-721 | trying a rule, told by what it matches and how its adapter unwraps: Rematch, Pass or use, and exactly the smartTarget and smartBlock that are left |
| RuleMatch.PassIsTold | core/Clash.Meta/tunnel/tunnel.go:671-722 | a pass tries the rules in order, each under what the skipped one before it left, and ends at the first that is not skipped |
| RuleMatch.RestartsAreTold | core/Clash.Meta/tunnel/tunnel.go:723-752 | every pass that restarts the search goes over the configured sub-rule its metadata name, and over the default rules if there is none of that name; it ends at a Rematch whose dial succeeds |
| RuleMatch.StartsAreTold | core/Clash.Meta/tunnel/tunnel.go:667-738 | the first pass starts with the metadata given, each other with what the dial of the one before left |
| RuleMatch.RestartsDiffer | core/Clash.Meta/tunnel/tunnel.go:723-728 | no two restarts go through Rematch proxies of one name |
| RuleMatch.AnswerIsTold | core/Clash.Meta/tunnel/tunnel.go:662-752 | the returned rule stands where the last pass ended, in the configured sub-rule its metadata name or else in the default rules; without a rule the proxy is DIRECT; a Rematch is returned exactly if it was tried before or its dial fails; and the final metadata |
| RuleMatch.SubRuleReplacesDefault | core/Clash.Meta/tunnel/tunnel.go:744-752 | a configuration with a sub-rule in which metadata naming it get its rule and proxy, and all others the default one |
| RuleMatch.UnwrapsOnce | core/Clash.Meta/tunnel/tunnel.go:686 | how an adapter unwraps under given metadata is determined |
| RuleMatch.CheckPassRule | core/Clash.Meta/tunnel/tunnel.go:382-393 | true exactly if the adapter exists and a PASS-RULE proxy is on its unwrap chain; terminates on the member tree |
| RuleMatch.UnwrapDescends | core/Clash.Meta/config/utils.go:71-91 | unwrapping the proxy of a sorted group leads to the proxy of a group the sort placed earlier, or to one that is no group |
| RuleMatch.ChainDescends | core/Clash.Meta/tunnel/tunnel.go:686-703 | every unwrap chain passes groups in strictly descending order of the sort and then at most one proxy that is no group |
| RuleMatch.ChainsAreShort | core/Clash.Meta/tunnel/tunnel.go:387-391 | so a chain is at most one longer than there are groups, two from the GLOBAL selector |
| DnsClients.ParamsEqualBothWays | core/Clash.Meta/dns/resolver.go:445-462 | the two one-sided comparisons together are equality of everything the transport sees |
| DnsClients.TransportEqualIsEquivalence | core/Clash.Meta/dns/resolver.go:438-463 | symmetric and transitive; reflexive exactly on comparable adapters |
| DnsClients.EqualIsFiner | core/Clash.Meta/dns/resolver.go:422-463 | Equal holds exactly of identical servers that are transportEqual |
| DnsClients.TransportKeysAreNotWrapperOnly | core/Clash.Meta/dns/dot.go:173-179 | no param that a constructor reads is for the wrappers only |
| DnsClients.WrapperParamsStayOutside | core/Clash.Meta/dns/util.go:119-139 | the constructors get all params; without the wrapper-only ones they build the same transport |
| DnsClients.TransportEqualBuildsTheSame | core/Clash.Meta/dns/util.go:119-139 | transportEqual servers select the same constructor with the same settings |
| DnsClients.RewrapClient | core/Clash.Meta/dns/util.go:146-160 | peels to the raw transport and wraps by the parameters |
| DnsClients.PeelRewrap | core/Clash.Meta/dns/util.go:149-160 | rewrapping keeps the raw transport |
| DnsClients.RewrapForgets | core/Clash.Meta/dns/util.go:146-160 | rewrapping after rewrapping equals the last rewrapping alone |
| DnsClients.ClientFactory.Scan | core/Clash.Meta/dns/resolver.go:540-549 | an equal server is found wherever it stands; otherwise the first transportEqual one; nothing found means there is none |
| DnsClients.ClientFactory.ClientFor | core/Clash.Meta/dns/resolver.go:539-563 | an equal server's very client if there is one, the cache unchanged; else one rewrapped on the transport of a transportEqual server, else a new one; a transport is built exactly if no cached server is transportEqual |
| DnsClients.ClientFactory.CacheTransform | core/Clash.Meta/dns/resolver.go:537-566 | one client per server, in order, appended to all earlier answers: the kind of transport its scheme selects, with its address, adapter and settings, under the layers its params ask for; two of them share a transport exactly if their servers differ in nothing but wrapper params; kept over any sequence of calls |
| DnsClients.AnswersAreTold | core/Clash.Meta/dns/resolver.go:533-566 | the same of any answers given, whatever was asked before |
| DnsClients.TransportIsTold | core/Clash.Meta/dns/util.go:114-139 | which scheme selects which constructor, and which address, adapter and settings it takes |
| DnsClients.TransformIsTold | core/Clash.Meta/dns/util.go:114-160 | a raw transport, above it a subnet layer exactly if an ecs is given that parses, with its prefix and override, and above that one that drops exactly the types asked for, if any |
| DnsClients.DroppedTold | core/Clash.Meta/dns/util.go:216-242 | type 1 is dropped for disable-ipv4, 28 for disable-ipv6, and every type for a disable-qtype key that parses to it; no other |
| DnsClients.TransportEqualTold | core/Clash.Meta/dns/resolver.go:438-463 | transportEqual servers are those that differ in nothing but the ecs, disable-ipv and disable-qtype params and have an adapter that can be compared |
| DnsClients.SharingIsInvisible | core/Clash.Meta/dns/resolver.go:533-566 | over all calls: each client equals, layer by layer, what transform builds for its server alone; two share a raw transport exactly if their servers are transportEqual; one transport is built per class |
| DnsClients.NonComparableNeverShares | core/Clash.Meta/dns/resolver.go:441-444 | a server with a non-comparable adapter shares with none |
| DnsTtl.MinimalTTL | core/Clash.Meta/dns/util.go:28-36 | the loop computes the section minimum that LowIsLeast characterises, 0 on an empty section |
| DnsTtl.LowIsLeast | core/Clash.Meta/dns/util.go:28-36 | that minimum is a lower bound and is attained |
| DnsTtl.UpdateTTL | core/Clash.Meta/dns/util.go:38-46 | in place, every TTL is lowered by the one wrapping delta and clamped between 1 and itself |
| DnsTtl.SetTTL | core/Clash.Meta/dns/util.go:89-104 | in place, every TTL is set, except those of OPT records in the additional section |
| DnsTtl.LoweredExact | core/Clash.Meta/dns/util.go:42-45 | the exact new TTL in every case of the wrapping subtraction: target below the minimum, above it, and far enough above to pass 2^32 |
| DnsTtl.SectionAges | core/Clash.Meta/dns/util.go:38-46 | without wrap-around one common amount is taken from all records of a section, at least the elapsed time, and never below 1 |
| DnsTtl.AgedMeans | core/Clash.Meta/dns/util.go:38-46 | an aged section has every TTL between 1 and max(1, original minus elapsed), its minimum is max(1, remaining), and gaps are kept while time remains |
| DnsTtl.PassedOrOneMore | core/Clash.Meta/common/lru/lrucache.go:124-188 | with whole-second expiries the cache counts the seconds elapsed, rounded up, or one more |
| DnsTtl.FreshTiming | core/Clash.Meta/dns/util.go:80-86 | the seconds left when served are the stored TTL less those counted; the entry is fresh exactly while that is not negative, and goes stale up to a second before its TTL is over, never after |
| DnsTtl.FreshReply | core/Clash.Meta/dns/resolver.go:167-180 | storing then serving before the stored expiry: every section of a reply that is no server failure has aged by the seconds counted, which are at least those elapsed, and no OPT record is served |
| DnsTtl.ServerFailureExact | core/Clash.Meta/dns/util.go:75-79 | the served TTL of a server failure in all three cases of the wrapping delta |
| DnsTtl.ServerFailureBounds | core/Clash.Meta/dns/util.go:38-46 | a served TTL lies between 1 and its original exactly if the original is at least 1 |
| DnsTtl.ServerFailureReply | core/Clash.Meta/dns/resolver.go:167-180 | storing then serving a server failure before its expiry: the same records in the same order but for their TTLs, and in every section a served TTL lies between 1 and its original exactly if the original is at least 1, wrap-around included |
| DnsTtl.StaleReply | core/Clash.Meta/dns/resolver.go:173-175 | after expiry the reply is served as stored, section by section and record by record, every TTL being 1 |
| DnsTtl.Cache.Put | core/Clash.Meta/dns/util.go:60-87 | stores nothing for ACME challenges or a zero minimum, else the reply without OPT records with its expiry in whole seconds, over any earlier entry; nothing else changes |
| DnsTtl.StoredTold | core/Clash.Meta/dns/util.go:60-87 | nothing is stored exactly for TXT questions of ACME challenges and for replies, no server failures, whose least TTL is 0 or missing; else all but the OPT records is, for five seconds or the least TTL from the second it is put in |
| DnsTtl.OnlyOptRemoved | core/Clash.Meta/dns/util.go:68-71 | exactly the OPT records are taken out, the others stay in order |
| DnsTtl.Cache.Serve | core/Clash.Meta/dns/resolver.go:167-180 | a miss answers nothing; a hit answers the stored reply aged to now and asks for a refetch exactly after expiry; the store is untouched |
| DotPool.StepKeepsInv | core/Clash.Meta/dns/dot.go:54-110 | every step of every exchange, reset or closer keeps each connection in one place and the pool within eight |
| DotPool.EveryRunIsSafe | core/Clash.Meta/dns/dot.go:41-157 | in every run each dialled connection is pooled, owned by one exchange, being closed, or closed, exactly one of them; the pool holds at most eight, each once |
| DotPool.ClosedStaysClosed | core/Clash.Meta/dns/dot.go:90-107 | a connection closed or handed to a closer is never pooled or used again |
| DotPool.AttemptsBounded | core/Clash.Meta/dns/dot.go:54-110 | in every run an exchange makes at most one attempt per pooled connection, one per connection others return meanwhile, and one more |
| DotPool.NewestAreKept | core/Clash.Meta/dns/dot.go:99-105 | however many connections are returned, the pool keeps the newest eight |
| DotPool.PoolIsNewestFirst | core/Clash.Meta/dns/dot.go:63-105 | every step of every run treats the pool as a stack of the newest eight: taken from the end, and the oldest driven out and closed when full |
| DotPool.EndsOnlyBy | core/Clash.Meta/dns/dot.go:54-110 | an exchange ends exactly by its context, a failed dial, an answer or a failure on a connection it dialled; a failure on a reused one sends it round again |
| DotPool.ExchangeCanMove | core/Clash.Meta/dns/dot.go:54-110 | until it ends an exchange always has a step to take |
| DotPool.DnsOverTLS.Take | core/Clash.Meta/dns/dot.go:63-69 | takes the newest connection, exactly if reuse is on and there is one |
| DotPool.DnsOverTLS.Keep | core/Clash.Meta/dns/dot.go:99-105 | keeps the newest eight connections, closing the oldest of a full pool |
| DotPool.DnsOverTLS.ResetConnection | core/Clash.Meta/dns/dot.go:148-157 | empties the pool and closes exactly what was in it, or does nothing without reuse |
| DotPool.PooledOrClosed | core/Clash.Meta/dns/dot.go:54-110 | an undisturbed exchange loses no connection: what was pooled and what was dialled is pooled or closed afterwards |
| DotPool.DnsOverTLS.Attempt | core/Clash.Meta/dns/dot.go:54-110 | one turn of the retry loop: when it is not tried, when it is tried again, and what it leaves pooled and closed |
| DotPool.DnsOverTLS.ExchangeContext | core/Clash.Meta/dns/dot.go:50-111 | undisturbed: at most pool size plus one attempts, old connections newest first, all but the last of them failed; it fails only on its context, on dialling or on the fresh connection; on success and failure exactly which of the old connections are pooled and which are closed |
| DhcpRefresh.FirstSectionPrimes | core/Clash.Meta/dns/dhcp.go:63-103 | after a first section there is something to return or a query to wait for, and a query starts only if none runs |
| DhcpRefresh.StepKeepsInv | core/Clash.Meta/dns/dhcp.go:62-125 | every step keeps: one query, channels accounted for, nobody without something to wait for |
| DhcpRefresh.EveryRunIsSafe | core/Clash.Meta/dns/dhcp.go:62-125 | in every run at most one query is outstanding, each channel is closed at most once, no caller waits on a nil channel, and who returns has clients or an error |
| DhcpRefresh.WokenReturns | core/Clash.Meta/dns/dhcp.go:105-124 | a waiter whose channel was closed returns at its next look, whatever happens in between |
| DhcpRefresh.LookRecords | core/Clash.Meta/dns/dhcp.go:127-152 | a look is due again twenty seconds after the last; when the interface is found its address is recorded, with an hour from now as deadline unless the one recorded for it lies ahead; a failed look leaves its error; no look touches what is known about servers |
| DhcpRefresh.QueryStartsExactly | core/Clash.Meta/dns/dhcp.go:127-152 | a query starts exactly if the interface is looked up again and found, no query runs, and the answer is out of date or for another address |
| DhcpRefresh.NoQueryBeforeDeadline | core/Clash.Meta/dns/dhcp.go:144-151 | over any run: once an address is recorded no query starts before its deadline as long as looks find that address or fail |
| DhcpRefresh.MissedAddress | core/Clash.Meta/dns/dhcp.go:62-151 | a run in which an address first seen during a query is recorded with an answer asked for under the address before; from there no run queries it within the hour unless a look finds another |
| DhcpRefresh.ErrorStands | core/Clash.Meta/dns/dhcp.go:65-67 | over any run with no query running, up to the deadline: the servers stay, and there is an error at the end if and only if there was one or a look failed since |
| DhcpRefresh.FailedLookStays | core/Clash.Meta/dns/dhcp.go:62-125 | a run in which the servers are known and the interface is back, and a caller is given the error of an earlier look |
| DhcpRefresh.LastAnswerCounts | core/Clash.Meta/dns/dhcp.go:72-124 | over any run after a query ended in which no look fails, callers get what the last query to end found: servers without an error, or an error without servers |
| MasqueStart.PermitFollows | core/Clash.Meta/adapter/outbound/masque.go:290-327 | each step keeps the permit in the semaphore or with one thread: acquiring takes it, the hand-off passes it to the goroutine, one release gives it back |
| MasqueStart.FlagFollows | core/Clash.Meta/adapter/outbound/masque.go:365-375 | each step keeps: running is set exactly while a tunnel is in use or about to be registered, only the last can be in use, and none is while another is started |
| MasqueStart.EveryRunIsSafe | core/Clash.Meta/adapter/outbound/masque.go:279-331 | in every run permits acquired and released differ by the one that is out, one thread has it, so one startLocked is under way; the device is started at most once |
| MasqueStart.TeardownIsOwn | core/Clash.Meta/adapter/outbound/masque.go:365-375 | in every run a generation about to be torn down is the last, the flag is its own, and no other is being started |
| MasqueStart.ClearFlagMeansUnused | core/Clash.Meta/adapter/outbound/masque.go:300-308 | in every run a clear flag means that no tunnel is in use |
| MasqueStart.OneInUse | core/Clash.Meta/adapter/outbound/masque.go:333-375 | in every run at most one tunnel is in use |
| MasqueStart.OneTunnelPerConnect | core/Clash.Meta/adapter/outbound/masque.go:333-375 | in every run there have been as many tunnels as connections that came up, but for one still being registered |
| MasqueStart.DeviceBeforeTunnel | core/Clash.Meta/adapter/outbound/masque.go:333-363 | in every run nobody connects before the device was started, and no tunnel is there without it |
| MasqueStart.LooksSeeTunnel | core/Clash.Meta/adapter/outbound/masque.go:279-308 | in every run a look at the flag sends a caller away exactly if a tunnel is in use or about to be registered, the second one also after Close |
| MasqueStart.NothingStartsAfterClose | core/Clash.Meta/adapter/outbound/masque.go:305-307 | over any run after Close no call begins a start; one that is under way may still bring up its tunnel, and no other comes up |
| MasqueStart.SecondBesideClosing | core/Clash.Meta/adapter/outbound/masque.go:366-372 | a run in which a second tunnel is in use while the first is still closing its connections |
| MasqueStart.HolderCanMove | core/Clash.Meta/adapter/outbound/masque.go:290-331 | whoever has the permit can always take a step |
| MasqueStart.PermitComesBack | core/Clash.Meta/adapter/outbound/masque.go:290-331 | each step of the holder brings the release nearer, on success and failure alike, and nobody else's step moves it away |
| MasqueStart.Masque.StartLocked | core/Clash.Meta/adapter/outbound/masque.go:333-375 | succeeds exactly if the device is or gets started and connecting works; the flag and one generation follow success only |
| MasqueStart.Masque.Run | core/Clash.Meta/adapter/outbound/masque.go:279-331 | an undisturbed call leaves the permit free on every path, sets the flag exactly if the start went through, and reports success only with the flag set |
| TunHandler.MoveKeepsPermits | core/lib_android.go:64-94 | each move of a hook call keeps a handler's permits at four in all |
| TunHandler.DrainedIsQuiet | core/lib_android.go:37-62 | while close has all permits no call is in the JVM with that handler |
| TunHandler.StepKeepsInv | core/lib_android.go:37-212 | every step of every hook call and of the worker, panics included, keeps permits, references and callbacks consistent |
| TunHandler.PermitsConserved | core/lib_android.go:43-47 | in every run the four permits of every handler are free, with one call each, or all with close; at most sixteen operations wait |
| TunHandler.EveryRunIsSafe | core/lib_android.go:37-94 | in every run no callback is released twice, and no call in the JVM uses a released callback, drain timeouts and failed starts included |
| TunHandler.OneStatusPerStart | core/lib_android.go:161-212 | as many statuses were sent as starts were carried out |
| TunHandler.StatusTold | core/lib_android.go:161-212 | a start adds Ready if it is running in the end and otherwise Error; a stop adds nothing |
| TunHandler.SessionsAreTrue | core/lib_android.go:119-212 | in every run, when the worker is idle: operations were done in order, one status per start and none per stop, and runTime is set exactly if the last was a start that neither failed nor panicked, without a descriptor or with its listener open |
| TunHandler.NoHookWithoutListener | core/lib_android.go:37-62 | in every run, when the worker is idle after a stop, a start without a descriptor or one that failed to listen, no hook is installed |
| TunHandler.MakeHandlerKeepsDisposed | core/lib_android.go:161-183 | a start replaces a handler that still has its callback only if its own drain timed out |
| TunHandler.EveryCallbackHasOneFate | core/lib_android.go:37-212 | in every run the callback of each start carried out is exactly one of released, held by the current handler, never kept, left behind by a drain that timed out; starts without a descriptor never keep theirs, and only they and panics do not |
| TunHandler.FateIsFinalInRuns | core/lib_android.go:37-212 | from any point of any run: a callback left behind, never kept or released stays so for good |
| TunHandler.LateDrainLeavesBehind | core/lib_android.go:43-61 | a run in which a drain times out and the next handler leaves the callback behind |
| TunHandler.ProxyOnlyNeverKeeps | core/lib_android.go:172-178 | a run in which a start without a descriptor never keeps its callback |
| TunHandler.HookedCallFindsHandler | core/lib_android.go:221-237 | a call that fetched the hook finds a handler exactly if no failed start follows the last handler made |
| TunHandler.HookedCallMayFindNone | core/lib_android.go:184-200 | a run in which it finds none |
| TunHandler.Worker.Close | core/lib_android.go:37-62 | removes the hook; releases the callback and drops both references exactly if all permits came in and closing the listener did not panic |
| TunHandler.Worker.HandleStopTun | core/lib_android.go:152-159 | clears runTime first, then closes the handler if there is one |
| TunHandler.Worker.HandleStartTun | core/lib_android.go:161-212 | runTime, hook, handler, status and released callbacks for every outcome of the old listener's close and the new one's start |
| TunHandler.Worker.Perform | core/lib_android.go:119-150 | with the recovery of common.go: runTime is set exactly for a good start, and a start sends one status whether it panics or not |
| PacketSender.FirstMappingWins | core/Clash.Meta/tunnel/connection.go:42-63 | after any mappings a key goes to its first valid target and a reply seems to come from the first valid origin of its target, or from itself |
| PacketSender.RepliesRestored | core/Clash.Meta/tunnel/connection.go:42-63 | replies get back the origin their packets were sent to exactly if no two valid origins share a target |
| PacketSender.StepConserves | core/Clash.Meta/tunnel/connection.go:65-150 | every step keeps each packet in one place |
| PacketSender.StepKeepsFifo | core/Clash.Meta/tunnel/connection.go:104-145 | what left the queue followed by what is in it is what entered it |
| PacketSender.ValidStays | core/Clash.Meta/tunnel/connection.go:48-53 | in every run a valid NAT entry never changes |
| PacketSender.EveryRunIsSafe | core/Clash.Meta/tunnel/connection.go:42-150 | in every run each packet is with its caller, queued, in processing or dropped, exactly one of them, Drop is called at most once for it, packets are processed in a subsequence of the order of acceptance, one key has one target, and at most 128 are queued |
| PacketSender.ReceivedAreSent | core/Clash.Meta/tunnel/connection.go:65-116 | in every run packets are sent in the order in which they were received, and each received is in processing, was sent, or could not be resolved |
| PacketSender.RunRepliesRestored | core/Clash.Meta/tunnel/connection.go:42-98 | over any run the maps hold the mappings of the dialler and, for each packet resolved, its key and own destination; so replies are given back their destinations exactly if no two valid ones were mapped to one address |
| PacketSender.EntersAfterClose | core/Clash.Meta/tunnel/connection.go:129-150 | after Close has emptied the queue a packet can still enter it exactly if some Send looked at the context before |
| PacketSender.StrandedStays | core/Clash.Meta/tunnel/connection.go:104-150 | over any run after the processor has gone, or the dial has failed, and dropAll is done: what is queued then stays queued, unprocessed and undropped, until another Close |
| PacketSender.PacketStrands | core/Clash.Meta/tunnel/connection.go:129-150 | a run that leaves a packet there |
| PacketSender.PacketStrandsUndialled | core/Clash.Meta/tunnel/tunnel.go:496-502 | a run in which the dial fails and a packet is left there |
| PacketSender.Sender.AddMapping | core/Clash.Meta/tunnel/connection.go:42-54 | adds the mapping where no valid entry stands |
| PacketSender.Sender.RestoreReadFrom | core/Clash.Meta/tunnel/connection.go:56-63 | the valid origin of the address, or the address |
| PacketSender.Sender.ProcessPacket | core/Clash.Meta/tunnel/connection.go:65-102 | drops the packet once on every path; it goes to the mapped target, else to the resolved one; then its key is mapped to that, and the address back to the destination the packet had unless one is mapped already |
| PacketSender.EverySendableIsWritten | core/Clash.Meta/tunnel/connection.go:65-116 | no packet is forgotten: one with a mapped or a resolved target is written in its turn, and no others are |
| PacketSender.WrittenWhereMapped | core/Clash.Meta/tunnel/connection.go:65-102 | each key is written to one target, the one it is mapped to ever after |
| PacketSender.ProcessRecords | core/Clash.Meta/tunnel/connection.go:65-102 | what processing maps: for the first packet of each key without a target that can be resolved, its key and own destination to the resolved address, and nothing else |
| PacketSender.ProcessedRepliesRestored | core/Clash.Meta/tunnel/connection.go:56-98 | a new sender gives every reply back the destination its packets had exactly if no two packets with different valid destinations are resolved to one address |
| PacketSender.Sender.Process | core/Clash.Meta/tunnel/connection.go:104-116 | takes packets in order, all of them unless the context ends, drops each, leaves the writes that processing them one by one leaves, and adds to the maps, for the first packet of each unmapped key that can be resolved, its destination and address |
| PacketSender.Sender.DropAll | core/Clash.Meta/tunnel/connection.go:118-127 | drops exactly what is queued, in order |
| PacketSender.Sender.Send | core/Clash.Meta/tunnel/connection.go:129-145 | queues the packet if the sender is open and has room, else drops it |
| Admission.QuotientCovers | core/admission.go:29 | a count is below the truncated quotient exactly if one more cost fits, for negative headroom too |
| Admission.AdmitsExactlyIfCovered | core/admission.go:29-31 | without overflow a connection is admitted exactly if floor + cost * (charged + 1) <= available; none at or below the floor |
| Admission.LawHoldsExactly | core/admission.go:29 | for all 64-bit values, the exact condition under which wrap-around leaves that law true at every count |
| Admission.LoopFilters | core/admission.go:24-28 | the expiry loop never drops a young entry, and leaves exactly the young ones if and only if the expired ones come first |
| Admission.ChargesExactlyTheWindow | core/admission.go:21-34 | over all calls with a clock that never goes back: the list is the admissions younger than the window, in order, with the new one if admitted; admission is exactly the headroom law on their number |
| Admission.ChargesTold | core/admission.go:21-34 | the same in differences of clock readings, for every window but the least int64: the list loses exactly the admissions at least a window old, and a connection is admitted exactly if the headroom covers the others and itself |
| Admission.WindowExactly | core/admission.go:21-34 | for any clock: at every call the list is the admissions younger than the window if and only if at every reading the expired admissions come first and none that an earlier reading found expired is young again |
| Admission.SteadyFits | core/admission.go:21-34 | readings that never go back are among these |
| Admission.RecentIsSuffix | core/admission.go:28-32 | with any clock the list is the end of the admissions, in order |
| Admission.SteadyClockNeeded | core/admission.go:25 | a clock that goes back can make the list miss a young admission |
| Admission.ConnectionAdmission.Compact | core/admission.go:28 | the in-place move keeps what follows the expired entries |
| Admission.ConnectionAdmission.Admit | core/admission.go:21-34 | verdict and new list for every call, in place, with Go's wrapping subtraction and truncating division |

## Left out

- Sockets, TLS, QUIC, HTTP, DNS packing, YAML: an exchange, a dial or a decoding is an arbitrary outcome; groups start as a name and a list of names, so a decoding error of proxyGroupsDagSort is not modelled.
- The sort's nodes are values in a map that methods reassign, not pointers; the topo field, which is never read, is dropped.
- GroupBuild.ParseGroups: whether the status ranges and the options of the group type decode is a given flag; filters are the sets of names they match; a configured provider's proxies are given and are no groups. Health checks and test addresses are dropped. The GLOBAL selector added afterwards appears in RuleMatch.ChainsAreShort only.
- RuleMatch.Match: rule.Match, Unwrap and dialling a Rematch proxy are arbitrary functions of the proxy or rule and the metadata; unwrapping is assumed to yield a member of the group; RuleMatch.ChainDescends is about the members GroupBuild builds. Locks and log lines are dropped. The other modes of resolveMetadata are easy.
- DnsClients.ClientFactory.CacheTransform: the clients' network behaviour is not modelled; a client is its wrapper layers, settings and the identity of its raw transport. exchangeWithoutCache, policies and fallback are left out.
- DnsTtl.Cache.Serve: one clock reading serves both the expiry test and the remaining time; float rounding in Seconds() is exact truncation; eviction is not modelled; copying a message gives it headers of its own.
- DotPool.DnsOverTLS.ExchangeContext: a connection handed to a closing goroutine counts as closed here; in the state machine the closing is a step of its own. The caller that stops waiting when its context ends does not disturb the exchange and is not a step.
- DhcpRefresh.EveryRunIsSafe: readings of the clock are non-negative; one reading serves a whole locked section.
- Waiting queues of semaphores: any waiter may be served next, which allows more runs than the code.
- MasqueStart.Masque.Run: the goroutine's start runs to its end before the caller looks; the state machine has all interleavings. Packet forwarding of a tunnel is not modelled beyond its ending at any time.
- TunHandler: the two hooks are one; each start brings a callback of its own; releasing and forgetting a callback is one step; foreign calls do not panic. In the class Worker the handler is a value field.
- PacketSender: AddMapping is called by the dialling goroutine only before it starts processing, as in tunnel.go; resolving is an arbitrary outcome; the write-back proxy is not modelled. That every queued packet is dropped in the end is false, see above.
- Admission.ConnectionAdmission.Admit: a zero cost, which makes the division panic, is excluded; the caller's own admission at zero available memory and its forced collection are left out.
- Options, enumerations, listeners, geodata, the Dart and cgo bridges, platform runners: easy members or foreign code.

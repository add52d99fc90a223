/** Building the proxy groups from the sorted configuration (config/config.go, the loop
    that consumes what proxyGroupsDagSort leaves; ParseProxyGroup, getProxies and getProviders
    in adapter/outboundgroup/parser.go). A group holds the proxies it lists, which must be
    built before it, so every proxy is a finite tree. */
module GroupBuild {
  import opened Common
  import opened Digraph
  import opened ProxyGroups
  import opened ProxyGroupLoops

  datatype Kind = Plain | Pass | PassRule | Rematch | Group | Smart

  datatype Proxy = Proxy(name: Name, kind: Kind, members: seq<Proxy>)

  /** A provider of proxies; a compatible one stands for the members of a group. */
  datatype Provider = Provider(proxies: seq<Proxy>, compatible: bool)

  /** What parseProxies knows before it builds groups. */
  datatype Setting = Setting(
    plain: map<Name, Proxy>, allProxies: seq<Name>,
    configured: map<Name, Provider>, allProviders: seq<Name>)

  datatype GroupError =
    | BadFormat
    | NoFallback(name: Name)
    | NothingListed
    | ProviderNotFound(name: Name)
    | ProviderIsGroup(name: Name)
    | MemberNotFound(name: Name)
    | DuplicateProvider
    | BadOptions

  datatype BuildResult =
    | Built(proxies: map<Name, Proxy>)
    | Rejected(index: nat, error: GroupError)
    | NameTaken(index: nat)

  const COMPATIBLE: Name := "COMPATIBLE"
  const GROUP_TYPES: set<string> := {"url-test", "select", "fallback", "load-balance", "smart"}

  predicate IsGroup(p: Proxy) {
    p.kind.Group? || p.kind.Smart?
  }

  /** Neither a group nor anything that could be unwrapped. */
  predicate Leaf(p: Proxy) {
    !IsGroup(p) && p.members == []
  }

  ghost predicate WellFormed(c: Setting) {
    && (forall n :: n in c.plain ==> Leaf(c.plain[n]))
    && (forall n :: n in c.allProxies ==> n in c.plain)
    && (forall n :: n in c.configured ==>
         !c.configured[n].compatible && forall p :: p in c.configured[n].proxies ==> Leaf(p))
    && (forall n :: n in c.allProviders <==> n in c.configured)
  }

  // ----- what a group asks for -----

  function FallbackOf(g: ProxyGroups.Group): Name {
    if g.option.emptyFallback == "" then COMPATIBLE else g.option.emptyFallback
  }

  function UseOf(c: Setting, g: ProxyGroups.Group): seq<Name> {
    if g.option.includeAllProviders then c.allProviders else g.option.use
  }

  /** One copy of the name for each filter that matches it. */
  function Matches(name: Name, filters: seq<set<Name>>): seq<Name> {
    if filters == [] then []
    else Matches(name, filters[..|filters| - 1]) + if name in filters[|filters| - 1] then [name] else []
  }

  function Matching(names: seq<Name>, filters: seq<set<Name>>): seq<Name> {
    if names == [] then []
    else Matching(names[..|names| - 1], filters) + Matches(names[|names| - 1], filters)
  }

  function Included(c: Setting, g: ProxyGroups.Group): seq<Name> {
    if !g.option.includeAllProxies then []
    else if g.option.filters == [] then c.allProxies
    else Matching(c.allProxies, g.option.filters)
  }

  /** The names whose proxies become members. */
  function Listed(c: Setting, g: ProxyGroups.Group): seq<Name> {
    var ps := g.proxies + Included(c, g);
    if g.option.includeAllProxies && ps == [] && UseOf(c, g) == [] then [FallbackOf(g)] else ps
  }

  lemma {:induction false} MatchesOnly(name: Name, filters: seq<set<Name>>)
    ensures forall m :: m in Matches(name, filters) ==> m == name
  {
    if filters != [] {
      MatchesOnly(name, filters[..|filters| - 1]);
    }
  }

  lemma {:induction false} MatchingOnly(names: seq<Name>, filters: seq<set<Name>>)
    ensures forall m :: m in Matching(names, filters) ==> m in names
  {
    if names != [] {
      MatchingOnly(names[..|names| - 1], filters);
      MatchesOnly(names[|names| - 1], filters);
      assert forall m :: m in names[..|names| - 1] ==> m in names;
    }
  }

  /** Beyond the names in the file a group gets plain proxies and its fallback only. */
  lemma ListedOnly(c: Setting, g: ProxyGroups.Group)
    requires WellFormed(c)
    ensures forall m :: m in Listed(c, g) ==> m in g.proxies || m in c.plain || m == FallbackOf(g)
    ensures forall m :: m in g.proxies ==> m in Listed(c, g)
  {
    MatchingOnly(c.allProxies, g.option.filters);
  }

  ghost function Lookup(proxies: map<Name, Proxy>, names: seq<Name>): seq<Proxy>
    requires forall m :: m in names ==> m in proxies
  {
    seq(|names|, i requires 0 <= i < |names| => proxies[names[i]])
  }

  ghost function Provided(providers: map<Name, Provider>, use: seq<Name>): seq<Proxy>
    requires forall u :: u in use ==> u in providers
  {
    if use == [] then []
    else
      assert forall u :: u in use[..|use| - 1] ==> u in use;
      Provided(providers, use[..|use| - 1]) + providers[use[|use| - 1]].proxies
  }

  lemma {:induction false} ProvidedAgrees(ps: map<Name, Provider>, qs: map<Name, Provider>, use: seq<Name>)
    requires forall u :: u in use ==> u in ps && u in qs && ps[u] == qs[u]
    ensures Provided(ps, use) == Provided(qs, use)
  {
    if use != [] {
      assert forall u :: u in use[..|use| - 1] ==> u in use;
      ProvidedAgrees(ps, qs, use[..|use| - 1]);
    }
  }

  /** Everything the group asks for can be looked up. */
  ghost predicate Found(c: Setting, g: ProxyGroups.Group, proxies: map<Name, Proxy>, providers: map<Name, Provider>) {
    && FallbackOf(g) in proxies
    && (forall m :: m in Listed(c, g) ==> m in proxies)
    && (forall u :: u in UseOf(c, g) ==> u in providers)
  }

  /** The node of a group: what it lists, what its providers have, and its fallback. */
  ghost function NodeOf(c: Setting, g: ProxyGroups.Group, proxies: map<Name, Proxy>,
                        providers: map<Name, Provider>): Proxy
    requires Found(c, g, proxies, providers)
  {
    var members := Lookup(proxies, Listed(c, g)) + Provided(providers, UseOf(c, g));
    if g.option.groupType == "smart" then Proxy(g.name, Kind.Smart, members)
    else Proxy(g.name, Kind.Group, members + [proxies[FallbackOf(g)]])
  }

  /** The providers once the group has been built. */
  ghost function Registered(c: Setting, g: ProxyGroups.Group, proxies: map<Name, Proxy>, providers: map<Name, Provider>)
    : map<Name, Provider>
    requires Found(c, g, proxies, providers)
  {
    if Listed(c, g) == [] then providers else providers[g.name := Provider(Lookup(proxies, Listed(c, g)), true)]
  }

  // ----- the code -----

  /** When ParseProxyGroup accepts a group, given what was built before it. */
  ghost predicate Accepts(c: Setting, g: ProxyGroups.Group, proxies: map<Name, Proxy>, providers: map<Name, Provider>) {
    && Found(c, g, proxies, providers) && !IsGroup(proxies[FallbackOf(g)])
    && (forall u :: u in UseOf(c, g) ==> !providers[u].compatible)
    && (Listed(c, g) != [] ==> g.name !in providers)
    && (Listed(c, g) != [] || UseOf(c, g) != [])
    && g.name != "" && g.option.groupType in GROUP_TYPES && g.option.decodes
  }

  /** What each error of ParseProxyGroup means. */
  ghost predicate Explains(c: Setting, g: ProxyGroups.Group, proxies: map<Name, Proxy>,
                           providers: map<Name, Provider>, error: GroupError) {
    match error
    case BadFormat => g.name == "" || g.option.groupType == ""
    case NoFallback(n) => n == FallbackOf(g) && (n !in proxies || IsGroup(proxies[n]))
    case NothingListed => Listed(c, g) == [] && UseOf(c, g) == []
    case ProviderNotFound(u) => u in UseOf(c, g) && u !in providers
    case ProviderIsGroup(u) => u in UseOf(c, g) && u in providers && providers[u].compatible
    case MemberNotFound(m) => m in Listed(c, g) && m !in proxies
    case DuplicateProvider => Listed(c, g) != [] && g.name in providers
    case BadOptions => g.option.groupType !in GROUP_TYPES || !g.option.decodes
  }

  method GetProxies(mapping: map<Name, Proxy>, list: seq<Name>) returns (missing: Option<Name>, ps: seq<Proxy>)
    ensures missing.None? <==> forall m :: m in list ==> m in mapping
    ensures missing.None? ==> ps == Lookup(mapping, list)
    ensures missing.Some? ==> missing.value in list && missing.value !in mapping
  {
    ps := [];
    for i := 0 to |list|
      invariant forall m :: m in list[..i] ==> m in mapping
      invariant ps == Lookup(mapping, list[..i])
    {
      assert list[..i + 1] == list[..i] + [list[i]];
      if list[i] !in mapping {
        return Some(list[i]), ps;
      }
      ps := ps + [mapping[list[i]]];
    }
    assert list[..|list|] == list;
    return None, ps;
  }

  /** A provider that stands for a group cannot be used. */
  method GetProviders(mapping: map<Name, Provider>, list: seq<Name>) returns (error: Option<GroupError>, ps: seq<Proxy>)
    ensures error.None? <==> forall u :: u in list ==> u in mapping && !mapping[u].compatible
    ensures error.None? ==> ps == Provided(mapping, list)
    ensures error.Some? ==>
      || (error.value.ProviderNotFound? && error.value.name in list && error.value.name !in mapping)
      || (error.value.ProviderIsGroup? && error.value.name in list && error.value.name in mapping
          && mapping[error.value.name].compatible)
  {
    ps := [];
    for i := 0 to |list|
      invariant forall u :: u in list[..i] ==> u in mapping && !mapping[u].compatible
      invariant ps == Provided(mapping, list[..i])
    {
      assert list[..i + 1] == list[..i] + [list[i]] && list[..i + 1][..i] == list[..i];
      if list[i] !in mapping {
        return Some(ProviderNotFound(list[i])), ps;
      }
      if mapping[list[i]].compatible {
        return Some(ProviderIsGroup(list[i])), ps;
      }
      ps := ps + mapping[list[i]].proxies;
    }
    assert list[..|list|] == list;
    return None, ps;
  }

  /** The two maps that grow while groups are built. */
  class Registry {
    var proxies: map<Name, Proxy>
    var providers: map<Name, Provider>

    constructor (c: Setting)
      ensures proxies == c.plain && providers == c.configured
    {
      proxies, providers := c.plain, c.configured;
    }

    /** One group: its node, and its members as a provider of its own name. */
    method ParseProxyGroup(c: Setting, g: ProxyGroups.Group) returns (error: Option<GroupError>, p: Proxy)
      modifies this`providers
      ensures error.None? <==> Accepts(c, g, proxies, old(providers))
      ensures error.None? ==> p == NodeOf(c, g, proxies, old(providers))
      ensures error.None? ==> providers == Registered(c, g, proxies, old(providers))
      ensures error.Some? ==> Explains(c, g, proxies, old(providers), error.value)
      ensures error.Some? && error.value.MemberNotFound? ==> FallbackOf(g) in proxies
    {
      p := Proxy(g.name, Kind.Group, []);
      if g.option.groupType == "" || g.name == "" {
        return Some(BadFormat), p;
      }
      var fallback := FallbackOf(g);
      if fallback !in proxies || IsGroup(proxies[fallback]) {
        return Some(NoFallback(fallback)), p;
      }
      var use, listed := UseOf(c, g), Listed(c, g);
      if listed == [] && use == [] {
        return Some(NothingListed), p;
      }
      var failed, fromProviders := GetProviders(providers, use);
      if failed.Some? {
        return failed, p;
      }
      var missing, ps := GetProxies(proxies, listed);
      if missing.Some? {
        return Some(MemberNotFound(missing.value)), p;
      }
      if listed != [] {
        if g.name in providers {
          return Some(DuplicateProvider), p;
        }
        providers := providers[g.name := Provider(ps, true)];
      }
      if g.option.groupType !in GROUP_TYPES || !g.option.decodes {
        return Some(BadOptions), p;
      }
      if g.option.groupType == "smart" {
        return None, Proxy(g.name, Kind.Smart, ps + fromProviders);
      }
      return None, Proxy(g.name, Kind.Group, ps + fromProviders + [proxies[fallback]]);
    }
  }

  // ----- building all groups -----

  /** The names usable by the group at position i: plain proxies and earlier groups. */
  ghost predicate Visible(gs: seq<ProxyGroups.Group>, c: Setting, i: nat, name: Name)
    requires i <= |gs|
  {
    name in c.plain || name in GroupNames(gs[..i])
  }

  /** What the group needs apart from its members, wherever it stands. */
  ghost predicate Sensible(c: Setting, g: ProxyGroups.Group) {
    && FallbackOf(g) in c.plain
    && (forall u :: u in UseOf(c, g) ==> u in c.configured)
    && (Listed(c, g) != [] ==> g.name !in c.configured)
    && (Listed(c, g) != [] || UseOf(c, g) != [])
    && g.name != "" && g.option.groupType in GROUP_TYPES && g.option.decodes
  }

  ghost predicate Buildable(gs: seq<ProxyGroups.Group>, c: Setting, i: nat)
    requires i < |gs|
  {
    && Sensible(c, gs[i])
    && (forall m :: m in Listed(c, gs[i]) ==> Visible(gs, c, i, m))
    && !Visible(gs, c, i, gs[i].name)
  }

  ghost predicate Builds(gs: seq<ProxyGroups.Group>, c: Setting) {
    forall i :: 0 <= i < |gs| ==> Buildable(gs, c, i)
  }

  ghost predicate Node(c: Setting, g: ProxyGroups.Group, proxies: map<Name, Proxy>) {
    && Found(c, g, proxies, c.configured) && g.name in proxies
    && proxies[g.name] == NodeOf(c, g, proxies, c.configured)
  }

  /** The names in use, and the plain proxies under theirs. */
  ghost predicate Named(gs: seq<ProxyGroups.Group>, c: Setting, proxies: map<Name, Proxy>) {
    && (forall n :: n in proxies <==> n in c.plain || n in GroupNames(gs))
    && (forall n :: n in c.plain ==> n in proxies && proxies[n] == c.plain[n])
  }

  ghost predicate AllNodes(gs: seq<ProxyGroups.Group>, c: Setting, proxies: map<Name, Proxy>) {
    forall g :: g in gs ==> Node(c, g, proxies)
  }

  /** proxies holds the plain proxies and, for each group, its node. */
  ghost predicate Represents(gs: seq<ProxyGroups.Group>, c: Setting, proxies: map<Name, Proxy>) {
    Named(gs, c, proxies) && AllNodes(gs, c, proxies)
  }

  /** providers holds the configured ones and, for each group with members, a compatible one. */
  ghost predicate Offers(gs: seq<ProxyGroups.Group>, c: Setting, providers: map<Name, Provider>) {
    && (forall n :: n in c.configured ==> n in providers && providers[n] == c.configured[n])
    && (forall n :: n in providers && n !in c.configured ==> providers[n].compatible && n in GroupNames(gs))
  }

  /** The names of groups are the names of proxies that are groups. */
  lemma PlainOrGroup(gs: seq<ProxyGroups.Group>, c: Setting, proxies: map<Name, Proxy>, n: Name)
    requires WellFormed(c) && Represents(gs, c, proxies)
    ensures n in proxies && !IsGroup(proxies[n]) <==> n in c.plain
  {
    if n in GroupNames(gs) && n !in c.plain {
      var h :| h in gs && h.name == n;
      assert Node(c, h, proxies);
    }
  }

  lemma UsableIsConfigured(gs: seq<ProxyGroups.Group>, c: Setting, providers: map<Name, Provider>, u: Name)
    requires WellFormed(c) && Offers(gs, c, providers)
    ensures u in providers && !providers[u].compatible <==> u in c.configured
  {
  }

  lemma AllUsable(gs: seq<ProxyGroups.Group>, c: Setting, providers: map<Name, Provider>, use: seq<Name>)
    requires WellFormed(c) && Offers(gs, c, providers)
    ensures (forall u :: u in use ==> u in providers && !providers[u].compatible) <==>
      forall u :: u in use ==> u in c.configured
  {
    forall u ensures (u in providers && !providers[u].compatible) <==> u in c.configured {
      UsableIsConfigured(gs, c, providers, u);
    }
  }

  /** A name is free for a provider exactly if it is not configured and no group before has it. */
  lemma ProviderIsNamed(gs: seq<ProxyGroups.Group>, c: Setting, proxies: map<Name, Proxy>,
                        providers: map<Name, Provider>, n: Name)
    requires Named(gs, c, proxies) && Offers(gs, c, providers) && n !in proxies
    ensures n in providers <==> n in c.configured
  {
  }

  lemma AllVisible(gs: seq<ProxyGroups.Group>, c: Setting, i: nat, proxies: map<Name, Proxy>, names: seq<Name>)
    requires i <= |gs| && Named(gs[..i], c, proxies)
    ensures (forall m :: m in names ==> m in proxies) <==> forall m :: m in names ==> Visible(gs, c, i, m)
  {
    assert forall m :: m in proxies <==> Visible(gs, c, i, m);
  }

  /** Where all earlier groups were built, being accepted under a free name is being buildable. */
  lemma AcceptsIsBuildable(gs: seq<ProxyGroups.Group>, c: Setting, i: nat, proxies: map<Name, Proxy>,
                           providers: map<Name, Provider>)
    requires WellFormed(c) && i < |gs| && Represents(gs[..i], c, proxies) && Offers(gs[..i], c, providers)
    ensures Accepts(c, gs[i], proxies, providers) && gs[i].name !in proxies <==> Buildable(gs, c, i)
  {
    var g, before := gs[i], gs[..i];
    PlainOrGroup(before, c, proxies, FallbackOf(g));
    AllUsable(before, c, providers, UseOf(c, g));
    AllVisible(gs, c, i, proxies, Listed(c, g));
    AllVisible(gs, c, i, proxies, [g.name]);
    assert g.name in [g.name];
    if g.name !in proxies {
      ProviderIsNamed(before, c, proxies, providers, g.name);
    }
  }

  lemma NodeOfExtends(c: Setting, h: ProxyGroups.Group, proxies: map<Name, Proxy>, name: Name, p: Proxy)
    requires Found(c, h, proxies, c.configured) && name !in proxies
    ensures Found(c, h, proxies[name := p], c.configured)
    ensures NodeOf(c, h, proxies[name := p], c.configured) == NodeOf(c, h, proxies, c.configured)
  {
    assert Lookup(proxies[name := p], Listed(c, h)) == Lookup(proxies, Listed(c, h));
  }

  lemma NodesSurvive(gs: seq<ProxyGroups.Group>, c: Setting, proxies: map<Name, Proxy>, g: ProxyGroups.Group, p: Proxy)
    requires AllNodes(gs, c, proxies) && g.name !in proxies
    requires Found(c, g, proxies, c.configured) && p == NodeOf(c, g, proxies, c.configured)
    ensures AllNodes(gs + [g], c, proxies[g.name := p])
  {
    NodeOfExtends(c, g, proxies, g.name, p);
    forall h | h in gs ensures Node(c, h, proxies[g.name := p]) {
      assert Node(c, h, proxies);
      NodeOfExtends(c, h, proxies, g.name, p);
    }
  }

  lemma GroupNamesGrow(gs: seq<ProxyGroups.Group>, g: ProxyGroups.Group)
    ensures GroupNames(gs + [g]) == GroupNames(gs) + {g.name}
  {
  }

  lemma NamesSurvive(gs: seq<ProxyGroups.Group>, c: Setting, proxies: map<Name, Proxy>, g: ProxyGroups.Group, p: Proxy)
    requires Named(gs, c, proxies) && g.name !in proxies
    ensures Named(gs + [g], c, proxies[g.name := p])
  {
    GroupNamesGrow(gs, g);
  }

  lemma OffersMore(gs: seq<ProxyGroups.Group>, c: Setting, proxies: map<Name, Proxy>,
                   providers: map<Name, Provider>, g: ProxyGroups.Group)
    requires Offers(gs, c, providers) && Accepts(c, g, proxies, providers)
    ensures Offers(gs + [g], c, Registered(c, g, proxies, providers))
  {
    GroupNamesGrow(gs, g);
  }

  lemma NodeAmongConfigured(gs: seq<ProxyGroups.Group>, c: Setting, proxies: map<Name, Proxy>,
                            providers: map<Name, Provider>, g: ProxyGroups.Group)
    requires Offers(gs, c, providers) && Accepts(c, g, proxies, providers)
    ensures Found(c, g, proxies, c.configured)
    ensures NodeOf(c, g, proxies, c.configured) == NodeOf(c, g, proxies, providers)
  {
    ProvidedAgrees(providers, c.configured, UseOf(c, g));
  }

  ghost predicate BuildsUpTo(gs: seq<ProxyGroups.Group>, c: Setting, i: nat)
    requires i <= |gs|
  {
    forall j :: 0 <= j < i ==> Buildable(gs, c, j)
  }

  /** The groups before i are built, and the maps say so. */
  ghost predicate Progress(gs: seq<ProxyGroups.Group>, c: Setting, i: nat, proxies: map<Name, Proxy>,
                           providers: map<Name, Provider>)
    requires i <= |gs|
  {
    && Represents(gs[..i], c, proxies) && Offers(gs[..i], c, providers)
    && BuildsUpTo(gs, c, i)
  }

  lemma NothingBuilt(gs: seq<ProxyGroups.Group>, c: Setting)
    ensures Progress(gs, c, 0, c.plain, c.configured)
  {
    assert gs[..0] == [];
  }

  lemma MapsFollow(gs: seq<ProxyGroups.Group>, hs: seq<ProxyGroups.Group>, c: Setting, g: ProxyGroups.Group,
                   proxies: map<Name, Proxy>, providers: map<Name, Provider>)
    requires hs == gs + [g] && Represents(gs, c, proxies) && Offers(gs, c, providers)
    requires Accepts(c, g, proxies, providers) && g.name !in proxies
    ensures Represents(hs, c, proxies[g.name := NodeOf(c, g, proxies, providers)])
    ensures Offers(hs, c, Registered(c, g, proxies, providers))
  {
    NodeAmongConfigured(gs, c, proxies, providers, g);
    NodesSurvive(gs, c, proxies, g, NodeOf(c, g, proxies, providers));
    NamesSurvive(gs, c, proxies, g, NodeOf(c, g, proxies, providers));
    OffersMore(gs, c, proxies, providers, g);
  }

  lemma OneMoreBuilds(gs: seq<ProxyGroups.Group>, c: Setting, i: nat)
    requires i < |gs| && BuildsUpTo(gs, c, i) && Buildable(gs, c, i)
    ensures BuildsUpTo(gs, c, i + 1)
  {
  }

  lemma Prefix(gs: seq<ProxyGroups.Group>, i: nat)
    requires i < |gs|
    ensures gs[..i + 1] == gs[..i] + [gs[i]]
  {
  }

  /** One accepted group later, both maps still say what they should. */
  lemma BuildStep(gs: seq<ProxyGroups.Group>, c: Setting, i: nat, proxies: map<Name, Proxy>,
                  providers: map<Name, Provider>)
    requires WellFormed(c) && i < |gs| && Progress(gs, c, i, proxies, providers)
    requires Accepts(c, gs[i], proxies, providers) && gs[i].name !in proxies
    ensures Progress(gs, c, i + 1, proxies[gs[i].name := NodeOf(c, gs[i], proxies, providers)],
                     Registered(c, gs[i], proxies, providers))
  {
    assert Buildable(gs, c, i) by { AcceptsIsBuildable(gs, c, i, proxies, providers); }
    OneMoreBuilds(gs, c, i);
    Prefix(gs, i);
    MapsFollow(gs[..i], gs[..i + 1], c, gs[i], proxies, providers);
  }

  ghost predicate FirstUnbuildable(gs: seq<ProxyGroups.Group>, c: Setting, i: nat) {
    i < |gs| && !Buildable(gs, c, i) && BuildsUpTo(gs, c, i)
  }

  lemma StopsHere(gs: seq<ProxyGroups.Group>, c: Setting, i: nat, proxies: map<Name, Proxy>,
                  providers: map<Name, Provider>)
    requires WellFormed(c) && i < |gs| && Progress(gs, c, i, proxies, providers)
    requires !Accepts(c, gs[i], proxies, providers) || gs[i].name in proxies
    ensures FirstUnbuildable(gs, c, i) && !Builds(gs, c)
  {
    AcceptsIsBuildable(gs, c, i, proxies, providers);
  }

  // ----- what was built, told from the configuration -----

  /** A name the group lists: in its own list, or with include-all-proxies any name of the file
      that one of its filters matches, if it has filters. */
  ghost predicate Lists(c: Setting, g: ProxyGroups.Group, m: Name) {
    || m in g.proxies
    || (g.option.includeAllProxies && m in c.allProxies
        && (g.option.filters == [] || exists f :: f in g.option.filters && m in f))
  }

  ghost predicate Uses(c: Setting, g: ProxyGroups.Group, u: Name) {
    if g.option.includeAllProviders then u in c.allProviders else u in g.option.use
  }

  /** With include-all-proxies nothing was found to list or to use: the fallback is listed. */
  ghost predicate Bare(c: Setting, g: ProxyGroups.Group) {
    g.option.includeAllProxies && (forall m :: !Lists(c, g, m)) && forall u :: !Uses(c, g, u)
  }

  /** q stands in the group: by a listed name, through a used provider, or as its fallback,
      which a smart group does not add. */
  ghost predicate Belongs(c: Setting, g: ProxyGroups.Group, built: map<Name, Proxy>, q: Proxy) {
    var fallback := if g.option.emptyFallback == "" then "COMPATIBLE" else g.option.emptyFallback;
    || (exists m :: Lists(c, g, m) && m in built && q == built[m])
    || (exists u :: Uses(c, g, u) && u in c.configured && q in c.configured[u].proxies)
    || (fallback in built && q == built[fallback] && (g.option.groupType != "smart" || Bare(c, g)))
  }

  /** The proxy of a group: exactly its members, its own list first and in order; Smart exactly
      if its type says so. */
  ghost predicate GroupTold(c: Setting, g: ProxyGroups.Group, built: map<Name, Proxy>) {
    && g.name in built && built[g.name].name == g.name
    && (built[g.name].kind.Smart? <==> g.option.groupType == "smart")
    && (built[g.name].kind.Group? <==> g.option.groupType != "smart")
    && (forall q :: q in built[g.name].members <==> Belongs(c, g, built, q))
    && |g.proxies| <= |built[g.name].members|
    && forall i :: 0 <= i < |g.proxies| ==> g.proxies[i] in built && built[g.name].members[i] == built[g.proxies[i]]
  }

  /** The plain proxies under their names, every group under its own, and no other name. */
  ghost predicate BuiltTold(gs: seq<ProxyGroups.Group>, c: Setting, built: map<Name, Proxy>) {
    && (forall n :: n in built <==> n in c.plain || exists g :: g in gs && g.name == n)
    && (forall n :: n in c.plain ==> n in built && built[n] == c.plain[n])
    && (forall g :: g in gs ==> GroupTold(c, g, built))
  }

  /** What a group needs wherever it stands: a name, a known type, a plain fallback, configured
      providers, and something to list or use. */
  ghost predicate SensibleTold(c: Setting, g: ProxyGroups.Group) {
    && g.name != "" && g.option.decodes
    && g.option.groupType in ["url-test", "select", "fallback", "load-balance", "smart"]
    && (if g.option.emptyFallback == "" then "COMPATIBLE" else g.option.emptyFallback) in c.plain
    && (forall u :: Uses(c, g, u) ==> u in c.configured)
    && ((exists m :: Lists(c, g, m)) || Bare(c, g) || exists u :: Uses(c, g, u))
    && ((exists m :: Lists(c, g, m)) || Bare(c, g) ==> g.name !in c.configured)
  }

  ghost predicate Earlier(gs: seq<ProxyGroups.Group>, i: nat, n: Name)
    requires i <= |gs|
  {
    exists j :: 0 <= j < i && gs[j].name == n
  }

  /** At position i it also needs a free name, and every listed name plain or an earlier group's. */
  ghost predicate BuildableTold(gs: seq<ProxyGroups.Group>, c: Setting, i: nat)
    requires i < |gs|
  {
    && SensibleTold(c, gs[i])
    && (forall m :: Lists(c, gs[i], m) ==> m in c.plain || Earlier(gs, i, m))
    && gs[i].name !in c.plain && !Earlier(gs, i, gs[i].name)
  }

  /** In some order it needs a name that is not a plain proxy's, and every name of its list plain
      or some group's. */
  ghost predicate DefinedTold(gs: seq<ProxyGroups.Group>, c: Setting, g: ProxyGroups.Group) {
    && SensibleTold(c, g) && g.name !in c.plain
    && (forall m :: m in g.proxies ==> m in c.plain || exists h :: h in gs && h.name == m)
  }

  /** The reason given for rejecting the group at position i is one. */
  ghost predicate ErrorTold(gs: seq<ProxyGroups.Group>, c: Setting, i: nat, error: GroupError)
    requires i < |gs|
  {
    var g := gs[i];
    match error
    case BadFormat => g.name == "" || g.option.groupType == ""
    case NoFallback(n) =>
      n == (if g.option.emptyFallback == "" then "COMPATIBLE" else g.option.emptyFallback) && n !in c.plain
    case NothingListed => (forall m :: !Lists(c, g, m)) && (forall u :: !Uses(c, g, u)) && !Bare(c, g)
    case ProviderNotFound(u) => Uses(c, g, u) && u !in c.configured
    case ProviderIsGroup(u) => Uses(c, g, u) && u !in c.configured && Earlier(gs, i, u)
    case MemberNotFound(m) => Lists(c, g, m) && m !in c.plain && !Earlier(gs, i, m)
    case DuplicateProvider => g.name in c.configured || Earlier(gs, i, g.name)
    case BadOptions =>
      !g.option.decodes || g.option.groupType !in ["url-test", "select", "fallback", "load-balance", "smart"]
  }

  lemma {:induction false} MatchesTold(name: Name, filters: seq<set<Name>>)
    ensures name in Matches(name, filters) <==> exists f :: f in filters && name in f
  {
    if filters != [] {
      var init, last := filters[..|filters| - 1], filters[|filters| - 1];
      assert filters == init + [last];
      MatchesTold(name, init);
    }
  }

  lemma {:induction false} MatchingTold(names: seq<Name>, filters: seq<set<Name>>, m: Name)
    ensures m in Matching(names, filters) <==> m in names && exists f :: f in filters && m in f
  {
    if names != [] {
      var init, last := names[..|names| - 1], names[|names| - 1];
      assert names == init + [last];
      MatchingTold(init, filters, m);
      MatchesOnly(last, filters);
      MatchesTold(m, filters);
    }
  }

  lemma IncludedTold(c: Setting, g: ProxyGroups.Group, m: Name)
    ensures m in g.proxies + Included(c, g) <==> Lists(c, g, m)
  {
    MatchingTold(c.allProxies, g.option.filters, m);
  }

  lemma UseTold(c: Setting, g: ProxyGroups.Group)
    ensures forall u :: u in UseOf(c, g) <==> Uses(c, g, u)
    ensures UseOf(c, g) == [] <==> forall u :: !Uses(c, g, u)
  {
    if UseOf(c, g) != [] {
      assert UseOf(c, g)[0] in UseOf(c, g);
    }
  }

  /** The names whose proxies become members, told both ways. */
  lemma ListedTold(c: Setting, g: ProxyGroups.Group)
    ensures forall m :: m in Listed(c, g) <==> Lists(c, g, m) || (Bare(c, g) && m == FallbackOf(g))
    ensures Listed(c, g) != [] <==> (exists m :: Lists(c, g, m)) || Bare(c, g)
  {
    var ps := g.proxies + Included(c, g);
    forall m ensures m in ps <==> Lists(c, g, m) {
      IncludedTold(c, g, m);
    }
    UseTold(c, g);
    assert ps != [] ==> ps[0] in ps;
  }

  lemma {:induction false} ProvidedTold(providers: map<Name, Provider>, use: seq<Name>, q: Proxy)
    requires forall u :: u in use ==> u in providers
    ensures q in Provided(providers, use) <==> exists u :: u in use && q in providers[u].proxies
  {
    if use != [] {
      var init, last := use[..|use| - 1], use[|use| - 1];
      assert use == init + [last];
      ProvidedTold(providers, init, q);
    }
  }

  lemma LookupTold(proxies: map<Name, Proxy>, names: seq<Name>, q: Proxy)
    requires forall m :: m in names ==> m in proxies
    ensures q in Lookup(proxies, names) <==> exists m :: m in names && q == proxies[m]
  {
    var ps := Lookup(proxies, names);
    if q in ps {
      var i :| 0 <= i < |ps| && ps[i] == q;
      assert names[i] in names;
    }
    if exists m :: m in names && q == proxies[m] {
      var m :| m in names && q == proxies[m];
      var i :| 0 <= i < |names| && names[i] == m;
      assert ps[i] == q;
    }
  }

  lemma NodeTold(c: Setting, g: ProxyGroups.Group, built: map<Name, Proxy>, q: Proxy)
    requires Found(c, g, built, c.configured)
    ensures q in NodeOf(c, g, built, c.configured).members <==> Belongs(c, g, built, q)
  {
    ListedTold(c, g);
    UseTold(c, g);
    LookupTold(built, Listed(c, g), q);
    ProvidedTold(c.configured, UseOf(c, g), q);
  }

  lemma NodeIsTold(c: Setting, g: ProxyGroups.Group, built: map<Name, Proxy>)
    requires Node(c, g, built)
    ensures GroupTold(c, g, built)
  {
    forall q ensures q in built[g.name].members <==> Belongs(c, g, built, q) {
      NodeTold(c, g, built, q);
    }
    var listed := Listed(c, g);
    assert |g.proxies| <= |listed| && listed[..|g.proxies|] == g.proxies;
    forall i | 0 <= i < |g.proxies| ensures g.proxies[i] in built && built[g.name].members[i] == built[g.proxies[i]] {
      assert listed[i] == g.proxies[i] && listed[i] in listed;
      assert Lookup(built, listed)[i] == built[listed[i]];
    }
  }

  /** What was built is told by the configuration. */
  lemma BuiltIsTold(gs: seq<ProxyGroups.Group>, c: Setting, built: map<Name, Proxy>)
    requires Represents(gs, c, built)
    ensures BuiltTold(gs, c, built)
  {
    forall g | g in gs ensures GroupTold(c, g, built) {
      assert Node(c, g, built);
      NodeIsTold(c, g, built);
    }
  }

  lemma NamesBefore(gs: seq<ProxyGroups.Group>, i: nat, n: Name)
    requires i <= |gs|
    ensures n in GroupNames(gs[..i]) <==> Earlier(gs, i, n)
  {
    if n in GroupNames(gs[..i]) {
      var g :| g in gs[..i] && g.name == n;
      var j :| 0 <= j < i && gs[..i][j] == g;
      assert gs[j].name == n;
    }
    if Earlier(gs, i, n) {
      var j :| 0 <= j < i && gs[j].name == n;
      assert gs[..i][j] in gs[..i];
    }
  }

  lemma SensibleIsTold(c: Setting, g: ProxyGroups.Group)
    ensures Sensible(c, g) <==> SensibleTold(c, g)
  {
    ListedTold(c, g);
    UseTold(c, g);
    assert UseOf(c, g) != [] ==> UseOf(c, g)[0] in UseOf(c, g);
  }

  /** So is whether a group can be built. */
  lemma BuildableIsTold(gs: seq<ProxyGroups.Group>, c: Setting, i: nat)
    requires i < |gs|
    ensures Buildable(gs, c, i) <==> BuildableTold(gs, c, i)
  {
    SensibleIsTold(c, gs[i]);
    ListedTold(c, gs[i]);
    forall n ensures n in GroupNames(gs[..i]) <==> Earlier(gs, i, n) {
      NamesBefore(gs, i, n);
    }
  }

  /** The first n groups can be built where they stand. */
  ghost predicate AllBuildable(gs: seq<ProxyGroups.Group>, c: Setting, n: nat)
    requires n <= |gs|
  {
    forall i :: 0 <= i < n ==> BuildableTold(gs, c, i)
  }

  lemma BuildsTold(gs: seq<ProxyGroups.Group>, c: Setting)
    ensures Builds(gs, c) <==> AllBuildable(gs, c, |gs|)
  {
    forall i: nat | i < |gs| ensures Buildable(gs, c, i) <==> BuildableTold(gs, c, i) {
      BuildableIsTold(gs, c, i);
    }
  }

  lemma FirstTold(gs: seq<ProxyGroups.Group>, c: Setting, i: nat)
    requires FirstUnbuildable(gs, c, i)
    ensures !BuildableTold(gs, c, i) && AllBuildable(gs, c, i)
  {
    forall j: nat | j <= i ensures Buildable(gs, c, j) <==> BuildableTold(gs, c, j) {
      BuildableIsTold(gs, c, j);
    }
  }

  /** And why a group was not. */
  lemma ErrorIsTold(gs: seq<ProxyGroups.Group>, c: Setting, i: nat, proxies: map<Name, Proxy>,
                    providers: map<Name, Provider>, error: GroupError)
    requires WellFormed(c) && i < |gs| && Represents(gs[..i], c, proxies) && Offers(gs[..i], c, providers)
    requires Explains(c, gs[i], proxies, providers, error)
    requires error.MemberNotFound? ==> FallbackOf(gs[i]) in proxies
    ensures ErrorTold(gs, c, i, error)
  {
    ListedTold(c, gs[i]);
    UseTold(c, gs[i]);
    forall n ensures n in GroupNames(gs[..i]) <==> Earlier(gs, i, n) {
      NamesBefore(gs, i, n);
    }
  }

  /** Builds every group, or stops at the first that is rejected or takes a name in use. */
  method ParseGroups(groupsConfig: seq<ProxyGroups.Group>, c: Setting) returns (r: BuildResult)
    requires WellFormed(c)
    ensures r.Built? <==> Builds(groupsConfig, c)
    ensures r.Built? ==> Represents(groupsConfig, c, r.proxies)
    ensures !r.Built? ==> FirstUnbuildable(groupsConfig, c, r.index)
    ensures r.Built? <==> AllBuildable(groupsConfig, c, |groupsConfig|)
    ensures r.Built? ==> BuiltTold(groupsConfig, c, r.proxies)
    ensures !r.Built? ==>
      && r.index < |groupsConfig| && !BuildableTold(groupsConfig, c, r.index)
      && AllBuildable(groupsConfig, c, r.index)
    ensures r.Rejected? ==> ErrorTold(groupsConfig, c, r.index, r.error)
    ensures r.NameTaken? ==>
      groupsConfig[r.index].name in c.plain || Earlier(groupsConfig, r.index, groupsConfig[r.index].name)
  {
    var registry := new Registry(c);
    NothingBuilt(groupsConfig, c);
    BuildsTold(groupsConfig, c);
    for idx := 0 to |groupsConfig|
      invariant Progress(groupsConfig, c, idx, registry.proxies, registry.providers)
    {
      var mapping := groupsConfig[idx];
      ghost var before := registry.providers;
      var error, group := registry.ParseProxyGroup(c, mapping);
      if error.Some? {
        StopsHere(groupsConfig, c, idx, registry.proxies, before);
        ErrorIsTold(groupsConfig, c, idx, registry.proxies, before, error.value);
        FirstTold(groupsConfig, c, idx);
        return Rejected(idx, error.value);
      }
      if mapping.name in registry.proxies {
        StopsHere(groupsConfig, c, idx, registry.proxies, before);
        NamesBefore(groupsConfig, idx, mapping.name);
        FirstTold(groupsConfig, c, idx);
        return NameTaken(idx);
      }
      BuildStep(groupsConfig, c, idx, registry.proxies, before);
      registry.proxies := registry.proxies[mapping.name := group];
    }
    assert groupsConfig[..|groupsConfig|] == groupsConfig;
    BuiltIsTold(groupsConfig, c, registry.proxies);
    return Built(registry.proxies);
  }

  // ----- the order of the groups -----

  /** The group could be built in some order: all it lists is a plain proxy or some group. */
  ghost predicate Defined(c: Setting, g: ProxyGroups.Group, names: set<Name>) {
    && Sensible(c, g) && g.name !in c.plain
    && (forall m :: m in g.proxies ==> m in c.plain || m in names)
  }

  ghost predicate AllDefined(gs: seq<ProxyGroups.Group>, c: Setting) {
    forall g :: g in gs ==> Defined(c, g, GroupNames(gs))
  }

  /** Groups that build in the order given have distinct names and are defined. */
  lemma BuildsOnlyDefined(gs: seq<ProxyGroups.Group>, c: Setting)
    requires WellFormed(c) && Builds(gs, c)
    ensures AllDefined(gs, c) && DistinctNames(gs)
  {
    forall g | g in gs ensures Defined(c, g, GroupNames(gs)) {
      var i: nat :| i < |gs| && gs[i] == g;
      assert Buildable(gs, c, i);
      ListedOnly(c, g);
      assert forall h :: h in gs[..i] ==> h in gs;
    }
    forall i, j | 0 <= i < j < |gs| ensures gs[i].name != gs[j].name {
      assert Buildable(gs, c, j);
      assert gs[..j][i] == gs[i] && gs[i] in gs[..j];
    }
  }

  lemma EarlierInOrder(gs: seq<ProxyGroups.Group>, i: nat, m: Name)
    requires DependencyOrdered(gs) && i < |gs| && m in gs[i].proxies && m in GroupNames(gs)
    ensures m in GroupNames(gs[..i])
  {
    var h :| h in gs && h.name == m;
    var j :| 0 <= j < |gs| && gs[j] == h;
    assert j < i;
    assert gs[..i][j] == h;
  }

  lemma DefinedInOrder(gs: seq<ProxyGroups.Group>, c: Setting, i: nat)
    requires WellFormed(c) && DistinctNames(gs) && DependencyOrdered(gs)
    requires i < |gs| && Defined(c, gs[i], GroupNames(gs))
    ensures Buildable(gs, c, i)
  {
    ListedOnly(c, gs[i]);
    forall m | m in gs[i].proxies && m !in c.plain ensures m in GroupNames(gs[..i]) {
      EarlierInOrder(gs, i, m);
    }
    assert forall h :: h in gs[..i] ==> h.name != gs[i].name;
  }

  /** In dependency order nothing is used before it is built. */
  lemma SortedBuilds(gs: seq<ProxyGroups.Group>, c: Setting)
    requires WellFormed(c) && DistinctNames(gs) && DependencyOrdered(gs)
    ensures Builds(gs, c) <==> AllDefined(gs, c)
  {
    if Builds(gs, c) {
      BuildsOnlyDefined(gs, c);
    }
    if AllDefined(gs, c) {
      forall i: nat | i < |gs| ensures Buildable(gs, c, i) {
        assert Defined(c, gs[i], GroupNames(gs));
        DefinedInOrder(gs, c, i);
      }
    }
  }

  /** The order of the groups does not matter for what is defined. */
  lemma SameGroupsSameNames(gs: seq<ProxyGroups.Group>, hs: seq<ProxyGroups.Group>)
    requires multiset(gs) == multiset(hs)
    ensures forall g :: g in gs <==> g in hs
    ensures GroupNames(gs) == GroupNames(hs)
  {
    forall g ensures g in gs <==> g in hs {
      assert g in gs <==> g in multiset(gs);
      assert g in hs <==> g in multiset(hs);
    }
  }

  lemma DistinctExtends(init: seq<ProxyGroups.Group>, last: ProxyGroups.Group)
    ensures DistinctNames(init + [last]) <==> DistinctNames(init) && last.name !in GroupNames(init)
  {
    var gs := init + [last];
    if last.name in GroupNames(init) {
      var h :| h in init && h.name == last.name;
      var i :| 0 <= i < |init| && init[i] == h;
      assert gs[i].name == gs[|init|].name;
    } else {
      forall i | 0 <= i < |init| ensures init[i].name != last.name {
        assert init[i] in init;
      }
    }
    assert forall i :: 0 <= i < |init| ==> gs[i] == init[i];
  }

  /** Names are distinct exactly when there are as many as there are groups. */
  lemma {:induction false} DistinctByCount(gs: seq<ProxyGroups.Group>)
    ensures |GroupNames(gs)| <= |gs|
    ensures DistinctNames(gs) <==> |GroupNames(gs)| == |gs|
  {
    if gs != [] {
      var init, last := gs[..|gs| - 1], gs[|gs| - 1];
      assert gs == init + [last];
      DistinctByCount(init);
      DistinctExtends(init, last);
      assert GroupNames(gs) == GroupNames(init) + {last.name};
    }
  }

  lemma SamePermutation(gs: seq<ProxyGroups.Group>, hs: seq<ProxyGroups.Group>)
    requires multiset(gs) == multiset(hs)
    ensures DistinctNames(gs) <==> DistinctNames(hs)
    ensures GroupNames(gs) == GroupNames(hs) && forall g :: g in gs <==> g in hs
  {
    SameGroupsSameNames(gs, hs);
    DistinctByCount(gs);
    DistinctByCount(hs);
    assert |multiset(gs)| == |multiset(hs)|;
  }

  /** If any order of the groups builds, every dependency order does: what fails in one could
      not have been avoided by another. */
  lemma SortedIsBest(gs: seq<ProxyGroups.Group>, hs: seq<ProxyGroups.Group>, c: Setting)
    requires WellFormed(c) && multiset(gs) == multiset(hs) && Builds(gs, c) && DependencyOrdered(hs)
    ensures Builds(hs, c)
  {
    BuildsOnlyDefined(gs, c);
    SamePermutation(gs, hs);
    SortedBuilds(hs, c);
  }

  /** A group that uses another group's name as a provider builds in no order: before that
      group the provider is unknown, and after it, being compatible, it is refused. */
  lemma UsingGroupNeverBuilds(gs: seq<ProxyGroups.Group>, c: Setting, g: ProxyGroups.Group, u: Name)
    requires WellFormed(c) && g in gs && u in UseOf(c, g) && u !in c.configured
    ensures !Builds(gs, c)
  {
    if Builds(gs, c) {
      BuildsOnlyDefined(gs, c);
    }
  }

  lemma DefinedIsTold(gs: seq<ProxyGroups.Group>, c: Setting)
    ensures AllDefined(gs, c) <==> forall g :: g in gs ==> DefinedTold(gs, c, g)
  {
    forall g | g in gs ensures Defined(c, g, GroupNames(gs)) <==> DefinedTold(gs, c, g) {
      SensibleIsTold(c, g);
    }
  }

  /** The groups hs were sorted, and built is what was made of them. */
  ghost predicate SortedAndBuilt(hs: seq<ProxyGroups.Group>, c: Setting, built: map<Name, Proxy>) {
    WellFormed(c) && DependencyOrdered(hs) && AllDefined(hs, c) && Represents(hs, c, built)
  }

  /** Sorting, then building: on acyclic groups with distinct names this succeeds exactly if
      everything they ask for is defined, which is exactly if some order of them builds. */
  method SortAndBuild(groupsConfig: array<ProxyGroups.Group>, c: Setting)
    returns (sorted: SortResult, built: BuildResult)
    requires WellFormed(c)
    modifies groupsConfig
    ensures var gs := old(groupsConfig[..]);
      && (sorted.Sorted? <==> DistinctNames(gs) && Acyclic(References(gs)))
      && (sorted.Sorted? <==> DistinctNames(gs) && NoLoop(gs))
    ensures sorted.Sorted? ==>
      multiset(groupsConfig[..]) == multiset(old(groupsConfig[..])) && DependencyOrdered(groupsConfig[..])
    ensures var gs := old(groupsConfig[..]);
      sorted.Sorted? ==>
        && (built.Built? <==> forall g :: g in gs ==> DefinedTold(gs, c, g))
        && (built.Built? <==> exists hs :: multiset(hs) == multiset(gs) && Builds(hs, c))
        && (built.Built? ==> BuiltTold(gs, c, built.proxies))
    ensures sorted.Sorted? && built.Built? ==> SortedAndBuilt(groupsConfig[..], c, built.proxies)
  {
    ghost var gs := groupsConfig[..];
    built := Built(c.plain);
    sorted := ProxyGroupsDagSort(groupsConfig);
    if sorted.Sorted? {
      ghost var hs := groupsConfig[..];
      SamePermutation(gs, hs);
      SortedBuilds(hs, c);
      built := ParseGroups(groupsConfig[..], c);
      DefinedIsTold(gs, c);
      forall os | multiset(os) == multiset(gs) && Builds(os, c) ensures Builds(hs, c) {
        SortedIsBest(os, hs, c);
      }
    }
  }
}

/** Dependency sorting of proxy groups (config/utils.go): an in-place Kahn sort that
    fills the configuration from the back, and, when groups are left over, the locator
    that strips everything which is not caught between cycles. */
module ProxyGroups {
  import opened Common
  import opened Digraph

  /** What the sort does not look at: the type, providers and empty fallback of a group, what
      it includes (a filter is the set of names it matches), and whether its other options
      can be decoded. */
  datatype GroupOption = GroupOption(
    groupType: string, use: seq<Name>, emptyFallback: Name,
    includeAllProviders: bool, includeAllProxies: bool, filters: seq<set<Name>>, decodes: bool)

  /** A decoded entry of `proxy-groups`: its name and the names it lists. */
  datatype Group = Group(name: Name, proxies: seq<Name>, option: GroupOption)

  /** A node of the work graph; a plain proxy has no group. */
  datatype Node = Node(indegree: int, group: Option<Group>, outdegree: int, from: seq<Name>) {
    function Members(): seq<Name> {
      if group.Some? then group.value.proxies else []
    }
  }

  type Graph = map<Name, Node>

  datatype SortResult = Sorted | Duplicate(name: Name) | Loop(elements: seq<Name>)

  // ----- what the configuration says -----

  ghost function GroupNames(gs: seq<Group>): set<Name> {
    set g | g in gs :: g.name
  }

  ghost function AllNames(gs: seq<Group>): set<Name> {
    GroupNames(gs) + set g, c | g in gs && c in g.proxies :: c
  }

  /** One edge from every group to every name it lists. */
  ghost function References(gs: seq<Group>): Edges {
    set g, c | g in gs && c in g.proxies :: (g.name, c)
  }

  ghost predicate DistinctNames(gs: seq<Group>) {
    forall i, j :: 0 <= i < j < |gs| ==> gs[i].name != gs[j].name
  }

  /** Every group stands after every group it lists. */
  ghost predicate DependencyOrdered(gs: seq<Group>) {
    forall i, j :: 0 <= i <= j < |gs| ==> gs[j].name !in gs[i].proxies
  }

  // ----- counting references -----

  /** How often x is listed, with multiplicity, by the groups whose names are live. */
  ghost function RefCount(gs: seq<Group>, live: set<Name>, x: Name): nat {
    if gs == [] then 0
    else
      var g := gs[|gs| - 1];
      RefCount(gs[..|gs| - 1], live, x) + if g.name in live then multiset(g.proxies)[x] else 0
  }

  lemma {:induction false} RefCountPositive(gs: seq<Group>, live: set<Name>, x: Name)
    ensures RefCount(gs, live, x) > 0 <==> exists g :: g in gs && g.name in live && x in g.proxies
  {
    if gs != [] {
      var last := gs[|gs| - 1];
      assert gs == gs[..|gs| - 1] + [last];
      RefCountPositive(gs[..|gs| - 1], live, x);
    }
  }

  lemma {:induction false} RefCountDead(gs: seq<Group>, live: set<Name>, name: Name, x: Name)
    requires name !in GroupNames(gs)
    ensures RefCount(gs, live - {name}, x) == RefCount(gs, live, x)
  {
    if gs != [] {
      var last := gs[|gs| - 1];
      assert gs == gs[..|gs| - 1] + [last];
      assert last in gs;
      RefCountDead(gs[..|gs| - 1], live, name, x);
    }
  }

  lemma {:induction false} RefCountRemove(gs: seq<Group>, live: set<Name>, g: Group, x: Name)
    requires DistinctNames(gs) && g in gs && g.name in live
    ensures RefCount(gs, live, x) == RefCount(gs, live - {g.name}, x) + multiset(g.proxies)[x]
  {
    var last := gs[|gs| - 1];
    assert gs == gs[..|gs| - 1] + [last];
    if last == g {
      forall h | h in gs[..|gs| - 1] ensures h.name != g.name { }
      RefCountDead(gs[..|gs| - 1], live, g.name, x);
    } else {
      assert last.name != g.name;
      RefCountRemove(gs[..|gs| - 1], live, g, x);
    }
  }

  /** How many entries of ps are live. */
  ghost function CountIn(ps: seq<Name>, live: set<Name>): nat {
    if ps == [] then 0
    else CountIn(ps[..|ps| - 1], live) + if ps[|ps| - 1] in live then 1 else 0
  }

  lemma {:induction false} CountInRemove(ps: seq<Name>, live: set<Name>, c: Name)
    requires c in live
    ensures CountIn(ps, live) == CountIn(ps, live - {c}) + multiset(ps)[c]
  {
    if ps != [] {
      assert ps == ps[..|ps| - 1] + [ps[|ps| - 1]];
      CountInRemove(ps[..|ps| - 1], live, c);
    }
  }

  lemma {:induction false} CountInBounds(ps: seq<Name>, live: set<Name>)
    ensures CountIn(ps, live) > 0 <==> exists c :: c in ps && c in live
    ensures (forall c :: c in ps ==> c in live) ==> CountIn(ps, live) == |ps|
  {
    if ps != [] {
      assert ps == ps[..|ps| - 1] + [ps[|ps| - 1]];
      CountInBounds(ps[..|ps| - 1], live);
    }
  }

  // ----- the groups still in the graph -----

  ghost function Live(gs: seq<Group>, live: set<Name>): seq<Group> {
    if gs == [] then []
    else
      var g := gs[|gs| - 1];
      Live(gs[..|gs| - 1], live) + if g.name in live then [g] else []
  }

  lemma {:induction false} LiveDead(gs: seq<Group>, live: set<Name>, name: Name)
    requires name !in GroupNames(gs)
    ensures Live(gs, live - {name}) == Live(gs, live)
  {
    if gs != [] {
      var last := gs[|gs| - 1];
      assert gs == gs[..|gs| - 1] + [last];
      assert last in gs;
      LiveDead(gs[..|gs| - 1], live, name);
    }
  }

  lemma LiveOfMore(init: seq<Group>, last: Group, live: set<Name>)
    ensures Live(init + [last], live) == Live(init, live) + if last.name in live then [last] else []
  {
    assert (init + [last])[..|init|] == init;
  }

  lemma LiveRemoveLast(init: seq<Group>, live: set<Name>, g: Group)
    requires g.name !in GroupNames(init) && g.name in live
    ensures multiset(Live(init + [g], live)) == multiset(Live(init + [g], live - {g.name})) + multiset{g}
  {
    LiveOfMore(init, g, live);
    LiveOfMore(init, g, live - {g.name});
    LiveDead(init, live, g.name);
  }

  lemma LiveKeepsLast(init: seq<Group>, live: set<Name>, g: Group, last: Group)
    requires multiset(Live(init, live)) == multiset(Live(init, live - {g.name})) + multiset{g} && last.name != g.name
    ensures multiset(Live(init + [last], live)) == multiset(Live(init + [last], live - {g.name})) + multiset{g}
  {
    LiveOfMore(init, last, live);
    LiveOfMore(init, last, live - {g.name});
  }

  lemma {:induction false} LiveRemove(gs: seq<Group>, live: set<Name>, g: Group)
    requires DistinctNames(gs) && g in gs && g.name in live
    ensures multiset(Live(gs, live)) == multiset(Live(gs, live - {g.name})) + multiset{g}
  {
    var init, last := gs[..|gs| - 1], gs[|gs| - 1];
    assert gs == init + [last];
    if last == g {
      forall h | h in init ensures h.name != g.name { }
      LiveRemoveLast(init, live, g);
    } else {
      assert g in init && DistinctNames(init) && last.name != g.name;
      LiveRemove(init, live, g);
      LiveKeepsLast(init, live, g, last);
    }
  }

  lemma {:induction false} LiveAll(gs: seq<Group>, live: set<Name>)
    ensures GroupNames(gs) <= live ==> Live(gs, live) == gs
    ensures live == {} ==> Live(gs, live) == []
  {
    if gs != [] {
      var last := gs[|gs| - 1];
      assert gs == gs[..|gs| - 1] + [last];
      assert last in gs;
      LiveAll(gs[..|gs| - 1], live);
      assert GroupNames(gs[..|gs| - 1]) <= GroupNames(gs);
    }
  }

  // ----- step 1.1: build the graph -----

  /** Every node carries the group of its name, or none if the name is a plain proxy. */
  ghost predicate Describes(gs: seq<Group>, graph: Graph) {
    && (forall x :: x in graph && graph[x].group.Some? ==> graph[x].group.value in gs && graph[x].group.value.name == x)
    && (forall g :: g in gs && g.name in graph ==> graph[g.name].group == Some(g))
  }

  ghost predicate Unlinked(graph: Graph) {
    forall x :: x in graph ==> graph[x].outdegree == 0 && graph[x].from == []
  }

  /** What the graph says after the groups gs have been read. */
  ghost predicate Built(gs: seq<Group>, graph: Graph, all: set<Name>) {
    && graph.Keys == AllNames(gs)
    && Describes(gs, graph) && Unlinked(graph)
    && (forall x :: x in graph ==> graph[x].indegree == RefCount(gs, all, x))
  }

  const FRESH_NODE := Node(0, None, 0, [])

  /** graph0 after the node of g has been filled in. */
  ghost function Filled(graph0: Graph, g: Group): Graph {
    graph0[g.name := (if g.name in graph0 then graph0[g.name] else FRESH_NODE).(group := Some(g))]
  }

  lemma NamesGrow(gs: seq<Group>, g: Group)
    ensures AllNames(gs + [g]) == AllNames(gs) + {g.name} + (set c | c in g.proxies)
    ensures GroupNames(gs + [g]) == GroupNames(gs) + {g.name}
  {
  }

  lemma DistinctGrow(gs: seq<Group>, g: Group)
    requires DistinctNames(gs) && g.name !in GroupNames(gs)
    ensures DistinctNames(gs + [g])
  {
    forall i | 0 <= i < |gs| ensures gs[i].name != g.name {
      assert gs[i] in gs;
    }
  }

  lemma NotListed(gs: seq<Group>, live: set<Name>, x: Name)
    requires x !in AllNames(gs)
    ensures RefCount(gs, live, x) == 0
  {
    RefCountPositive(gs, live, x);
  }

  /** graph is graph0 with one more reference for every entry of ps. */
  ghost predicate Counted(graph0: Graph, graph: Graph, ps: seq<Name>) {
    && (forall x :: x in graph <==> x in graph0 || x in ps)
    && (forall x :: x in graph ==>
          var node := if x in graph0 then graph0[x] else FRESH_NODE;
          graph[x] == node.(indegree := node.indegree + multiset(ps)[x]))
  }

  lemma CountsGrow(gs: seq<Group>, graph0: Graph, graph: Graph, all: set<Name>, g: Group)
    requires Built(gs, graph0, all) && g.name in all
    requires Counted(Filled(graph0, g), graph, g.proxies)
    ensures forall x :: x in graph ==> graph[x].indegree == RefCount(gs + [g], all, x)
  {
    assert (gs + [g])[..|gs|] == gs;
    forall x | x in graph ensures graph[x].indegree == RefCount(gs + [g], all, x) {
      if x !in graph0 {
        NotListed(gs, all, x);
      }
    }
  }

  lemma DescriptionGrows(gs: seq<Group>, graph0: Graph, graph: Graph, g: Group)
    requires Describes(gs, graph0) && Unlinked(graph0) && graph0.Keys == AllNames(gs) && g.name !in GroupNames(gs)
    requires Counted(Filled(graph0, g), graph, g.proxies)
    ensures Describes(gs + [g], graph) && Unlinked(graph)
  {
    forall h | h in gs + [g] && h.name in graph ensures graph[h.name].group == Some(h) {
      if h in gs {
        assert h.name in GroupNames(gs);
      }
    }
    forall x | x in graph && graph[x].group.Some?
      ensures graph[x].group.value in gs + [g] && graph[x].group.value.name == x
    {
      if x != g.name {
        assert x in graph0;
      }
    }
  }

  lemma BuildOne(gs: seq<Group>, graph0: Graph, graph: Graph, all: set<Name>, g: Group)
    requires DistinctNames(gs) && Built(gs, graph0, all) && g.name in all
    requires g.name in graph0 ==> graph0[g.name].group.None?
    requires Counted(Filled(graph0, g), graph, g.proxies)
    ensures DistinctNames(gs + [g]) && Built(gs + [g], graph, all)
  {
    assert g.name !in GroupNames(gs);
    DistinctGrow(gs, g);
    CountsGrow(gs, graph0, graph, all, g);
    DescriptionGrows(gs, graph0, graph, g);
    NamesGrow(gs, g);
    assert graph.Keys == AllNames(gs + [g]);
  }

  lemma SameName(gs: seq<Group>, i: nat, g: Group)
    requires i < |gs| && g in gs[..i] && g.name == gs[i].name
    ensures !DistinctNames(gs) && gs[i].name in GroupNames(gs[..i])
  {
    var k :| 0 <= k < i && gs[..i][k] == g;
    assert gs[k].name == gs[i].name;
  }

  lemma CountOne(graph0: Graph, graph: Graph, ps: seq<Name>, p: Name)
    requires Counted(graph0, graph, ps)
    ensures var node := if p in graph then graph[p] else FRESH_NODE;
      Counted(graph0, graph[p := node.(indegree := node.indegree + 1)], ps + [p])
  {
    if p !in graph {
      assert multiset(ps)[p] == 0;
    }
  }

  lemma NextName(names: seq<Name>, j: nat)
    requires j < |names|
    ensures names[..j + 1] == names[..j] + [names[j]]
  {
  }

  lemma CountNext(graph0: Graph, graph: Graph, ps: seq<Name>, j: nat)
    requires j < |ps| && Counted(graph0, graph, ps[..j])
    ensures var node := if ps[j] in graph then graph[ps[j]] else FRESH_NODE;
      Counted(graph0, graph[ps[j] := node.(indegree := node.indegree + 1)], ps[..j + 1])
  {
    NextName(ps, j);
    CountOne(graph0, graph, ps[..j], ps[j]);
  }

  lemma CountStart(graph: Graph, ps: seq<Name>)
    ensures Counted(graph, graph, ps[..0])
  {
  }

  /** The inner loop of step 1.1: one more reference for each listed name. */
  method CountMembers(graph0: Graph, proxies: seq<Name>) returns (graph: Graph)
    ensures Counted(graph0, graph, proxies)
  {
    graph := graph0;
    CountStart(graph0, proxies);
    for j := 0 to |proxies|
      invariant Counted(graph0, graph, proxies[..j])
    {
      var proxy := proxies[j];
      CountNext(graph0, graph, proxies, j);
      if proxy in graph {
        graph := graph[proxy := graph[proxy].(indegree := graph[proxy].indegree + 1)];
      } else {
        graph := graph[proxy := Node(1, None, 0, [])];
      }
    }
    assert proxies[..|proxies|] == proxies;
  }

  method BuildGraph(groupsConfig: array<Group>) returns (duplicate: Option<Name>, graph: Graph)
    ensures duplicate.None? <==> DistinctNames(groupsConfig[..])
    ensures duplicate.Some? ==> exists i ::
      0 <= i < groupsConfig.Length && groupsConfig[i].name == duplicate.value
      && DistinctNames(groupsConfig[..i]) && duplicate.value in GroupNames(groupsConfig[..i])
    ensures duplicate.None? ==> Built(groupsConfig[..], graph, AllNames(groupsConfig[..]))
  {
    ghost var gs := groupsConfig[..];
    ghost var all := AllNames(gs);
    graph := map[];
    for i := 0 to groupsConfig.Length
      invariant DistinctNames(gs[..i]) && Built(gs[..i], graph, all)
    {
      var mapping := groupsConfig[i];
      var name := mapping.name;
      assert gs[..i + 1] == gs[..i] + [mapping];
      assert mapping in gs && name in all;
      ghost var graph0 := graph;
      if name in graph {
        if graph[name].group.Some? {
          SameName(gs, i, graph[name].group.value);
          return Some(name), graph;
        }
        graph := graph[name := graph[name].(group := Some(mapping))];
      } else {
        graph := graph[name := Node(0, Some(mapping), 0, [])];
      }
      graph := CountMembers(graph, mapping.proxies);
      BuildOne(gs[..i], graph0, graph, all, mapping);
    }
    assert gs[..groupsConfig.Length] == gs;
    return None, graph;
  }

  // ----- step 1.2: topological sort -----

  /** Names listed by a live group are live. */
  ghost predicate Closed(gs: seq<Group>, live: set<Name>) {
    forall g, c :: g in gs && g.name in live && c in g.proxies ==> c in live
  }

  /** The queue holds exactly the live nodes nobody live refers to, each once. */
  ghost predicate Waiting(graph: Graph, queue: seq<Name>) {
    && Distinct(queue)
    && (forall x :: x in queue ==> x in graph)
    && (forall x :: x in graph ==> (x in queue <==> graph[x].indegree == 0))
  }

  ghost predicate IndegreesCount(gs: seq<Group>, graph: Graph) {
    forall x :: x in graph ==> graph[x].indegree == RefCount(gs, graph.Keys, x)
  }

  /** Removed nodes are ranked so that every reference to one comes from an earlier one. */
  ghost predicate Removed(gs: seq<Group>, keys: set<Name>, rank: map<Name, nat>) {
    && (forall x :: x in AllNames(gs) <==> x in keys || x in rank)
    && (forall x :: x in rank ==> x !in keys)
    && (forall x :: x in rank ==> rank[x] < |rank|)
    && RanksBackward(References(gs), rank)
  }

  /** The groups written so far, latest first in the array, none listing an earlier one. */
  ghost predicate Written(gs: seq<Group>, live: set<Name>, done: seq<Group>) {
    && multiset(done) + multiset(Live(gs, live)) == multiset(gs)
    && (forall g :: g in done ==> g.name !in live)
    && (forall k, m :: 0 <= m <= k < |done| ==> done[m].name !in done[k].proxies)
  }

  /** graph is graph0 with one reference less for every entry of ps. */
  ghost predicate Released(graph0: Graph, graph: Graph, ps: seq<Name>) {
    && graph.Keys == graph0.Keys
    && (forall x :: x in graph ==> graph[x] == graph0[x].(indegree := graph0[x].indegree - multiset(ps)[x]))
  }

  lemma ReleaseOne(graph0: Graph, graph: Graph, queue: seq<Name>, ps: seq<Name>, p: Name)
    requires Released(graph0, graph, ps) && Waiting(graph, queue)
    requires p in graph0 && multiset(ps)[p] < graph0[p].indegree
    ensures var child := graph[p].(indegree := graph[p].indegree - 1);
      && Released(graph0, graph[p := child], ps + [p])
      && Waiting(graph[p := child], if child.indegree == 0 then queue + [p] else queue)
  {
    var graph' := graph[p := graph[p].(indegree := graph[p].indegree - 1)];
    assert graph'.Keys == graph0.Keys;
    assert p !in queue;
    assert forall x :: x in graph ==> multiset(ps + [p])[x] == multiset(ps)[x] + if x == p then 1 else 0;
  }

  lemma PrefixCount(ps: seq<Name>, j: nat)
    requires j < |ps|
    ensures multiset(ps[..j])[ps[j]] < multiset(ps)[ps[j]]
  {
    assert ps == ps[..j] + [ps[j]] + ps[j + 1..];
  }

  /** Every name listed has a node whose indegree covers it as often as it is listed. */
  ghost predicate Covers(graph: Graph, ps: seq<Name>) {
    forall c :: c in ps ==> c in graph && multiset(ps)[c] <= graph[c].indegree
  }

  lemma CoversNext(graph: Graph, ps: seq<Name>, j: nat)
    requires Covers(graph, ps) && j < |ps|
    ensures ps[j] in graph && multiset(ps[..j])[ps[j]] < graph[ps[j]].indegree
  {
    PrefixCount(ps, j);
    assert ps[j] in ps;
  }

  /** The first j references are taken away. */
  ghost predicate Releasing(graph0: Graph, graph: Graph, queue0: seq<Name>, queue: seq<Name>, ps: seq<Name>, j: nat) {
    j <= |ps| && Released(graph0, graph, ps[..j]) && Waiting(graph, queue) && queue0 <= queue
  }

  lemma NextIsThere(graph0: Graph, graph: Graph, queue0: seq<Name>, queue: seq<Name>, ps: seq<Name>, j: nat)
    requires Releasing(graph0, graph, queue0, queue, ps, j) && Covers(graph0, ps) && j < |ps|
    ensures ps[j] in graph
  {
    CoversNext(graph0, ps, j);
  }

  lemma ReleaseTurn(graph0: Graph, graph: Graph, queue0: seq<Name>, queue: seq<Name>, ps: seq<Name>, j: nat,
                    graph': Graph, queue': seq<Name>)
    requires Releasing(graph0, graph, queue0, queue, ps, j) && Covers(graph0, ps) && j < |ps| && ps[j] in graph
    requires graph' == graph[ps[j] := graph[ps[j]].(indegree := graph[ps[j]].indegree - 1)]
    requires queue' == if graph'[ps[j]].indegree == 0 then queue + [ps[j]] else queue
    ensures Releasing(graph0, graph', queue0, queue', ps, j + 1)
  {
    CoversNext(graph0, ps, j);
    NextName(ps, j);
    ReleaseOne(graph0, graph, queue, ps[..j], ps[j]);
  }

  lemma ReleaseStart(graph: Graph, queue: seq<Name>, ps: seq<Name>)
    requires Waiting(graph, queue)
    ensures Releasing(graph, graph, queue, queue, ps, 0)
  {
  }

  lemma ReleaseEnd(graph0: Graph, graph: Graph, queue0: seq<Name>, queue: seq<Name>, ps: seq<Name>)
    requires Releasing(graph0, graph, queue0, queue, ps, |ps|)
    ensures Released(graph0, graph, ps) && Waiting(graph, queue) && queue0 <= queue
  {
    assert ps[..|ps|] == ps;
  }

  /** The inner loop of step 1.2: take away the references of one group. */
  method ReleaseMembers(graph0: Graph, queue0: seq<Name>, proxies: seq<Name>) returns (graph: Graph, queue: seq<Name>)
    requires Waiting(graph0, queue0)
    requires forall c :: c in proxies ==> c in graph0 && multiset(proxies)[c] <= graph0[c].indegree
    ensures Released(graph0, graph, proxies)
    ensures Waiting(graph, queue) && queue0 <= queue
  {
    graph, queue := graph0, queue0;
    assert Covers(graph0, proxies);
    ReleaseStart(graph, queue, proxies);
    for j := 0 to |proxies|
      invariant Releasing(graph0, graph, queue0, queue, proxies, j)
    {
      var proxy := proxies[j];
      ghost var before, queueBefore := graph, queue;
      NextIsThere(graph0, graph, queue0, queue, proxies, j);
      var child := graph[proxy].(indegree := graph[proxy].indegree - 1);
      graph := graph[proxy := child];
      if child.indegree == 0 {
        queue := queue + [proxy];
      }
      ReleaseTurn(graph0, before, queue0, queueBefore, proxies, j, graph, queue);
    }
    ReleaseEnd(graph0, graph, queue0, queue, proxies);
  }

  lemma MembersAreLive(gs: seq<Group>, graph: Graph, g: Group)
    requires DistinctNames(gs) && g in gs && g.name in graph
    requires Closed(gs, graph.Keys) && IndegreesCount(gs, graph)
    ensures forall c :: c in g.proxies ==> c in graph && multiset(g.proxies)[c] <= graph[c].indegree
  {
    forall c | c in g.proxies ensures c in graph && multiset(g.proxies)[c] <= graph[c].indegree {
      RefCountRemove(gs, graph.Keys, g, c);
    }
  }

  /** Giving the next rank to a new name keeps all ranks below the number of names. */
  lemma ExtendRank(rank: map<Name, nat>, name: Name)
    requires name !in rank && forall x :: x in rank ==> rank[x] < |rank|
    ensures var rank' := rank[name := |rank|];
      rank'.Keys == rank.Keys + {name} && forall x :: x in rank' ==> rank'[x] < |rank'|
  {
    var rank' := rank[name := |rank|];
    assert rank'.Keys == rank.Keys + {name};
    assert |rank'.Keys| == |rank.Keys| + 1;
    assert |rank'| == |rank| + 1;
  }

  lemma RankNext(g: Edges, rank: map<Name, nat>, name: Name)
    requires RanksBackward(g, rank) && name !in rank && forall x :: x in rank ==> rank[x] < |rank|
    requires forall a :: (a, name) in g ==> a in rank
    ensures var rank' := rank[name := |rank|];
      && RanksBackward(g, rank') && rank'.Keys == rank.Keys + {name}
      && forall x :: x in rank' ==> rank'[x] < |rank'|
  {
    ExtendRank(rank, name);
  }

  lemma OnlyDeadReferences(gs: seq<Group>, keys: set<Name>, rank: map<Name, nat>, name: Name)
    requires forall x :: x in AllNames(gs) <==> x in keys || x in rank
    requires RefCount(gs, keys, name) == 0
    ensures forall a :: (a, name) in References(gs) ==> a in rank
  {
    RefCountPositive(gs, keys, name);
    forall a | (a, name) in References(gs) ensures a in rank {
      var g :| g in gs && g.name == a && name in g.proxies;
      assert a in AllNames(gs);
    }
  }

  lemma ClosedFollows(gs: seq<Group>, keys: set<Name>, name: Name)
    requires Closed(gs, keys) && RefCount(gs, keys, name) == 0
    ensures Closed(gs, keys - {name})
  {
    RefCountPositive(gs, keys, name);
  }

  /** A live node with no live references can go: what is left is closed, and the node
      gets the next rank. */
  lemma RemoveNode(gs: seq<Group>, keys: set<Name>, rank: map<Name, nat>, name: Name)
    requires Closed(gs, keys) && Removed(gs, keys, rank)
    requires name in keys && RefCount(gs, keys, name) == 0
    ensures Closed(gs, keys - {name})
    ensures Removed(gs, keys - {name}, rank[name := |rank|])
  {
    OnlyDeadReferences(gs, keys, rank, name);
    RankNext(References(gs), rank, name);
    ClosedFollows(gs, keys, name);
  }

  /** While a group is live there is room in the array. */
  lemma RoomLeft(gs: seq<Group>, live: set<Name>, done: seq<Group>, g: Group)
    requires DistinctNames(gs) && g in gs && g.name in live && Written(gs, live, done)
    ensures |done| < |gs|
  {
    LiveRemove(gs, live, g);
    assert |multiset(done)| + |multiset(Live(gs, live))| == |multiset(gs)|;
    assert |multiset(Live(gs, live))| >= 1;
  }

  lemma DoneGrows(done: seq<Group>, g: Group, live: multiset<Group>, live': multiset<Group>, all: multiset<Group>)
    requires multiset(done) + live == all && live == live' + multiset{g}
    ensures multiset(done + [g]) + live' == all
  {
  }

  /** A live group that lists only live names, and not itself, lists no group that is done. */
  lemma ListsNothingDone(live: set<Name>, done: seq<Group>, g: Group)
    requires (forall h :: h in done ==> h.name !in live) && g.name !in g.proxies
    requires forall c :: c in g.proxies ==> c in live
    requires forall k, m :: 0 <= m <= k < |done| ==> done[m].name !in done[k].proxies
    ensures forall k, m :: 0 <= m <= k < |done + [g]| ==> (done + [g])[m].name !in (done + [g])[k].proxies
  {
    forall m | 0 <= m < |done| ensures done[m].name !in g.proxies {
      assert done[m] in done;
    }
  }

  lemma WriteGroup(gs: seq<Group>, graph: Graph, done: seq<Group>, g: Group)
    requires DistinctNames(gs) && g in gs && g.name in graph
    requires Closed(gs, graph.Keys) && Written(gs, graph.Keys, done)
    requires RefCount(gs, graph.Keys, g.name) == 0
    ensures Written(gs, graph.Keys - {g.name}, done + [g])
    ensures |done| < |gs|
  {
    LiveRemove(gs, graph.Keys, g);
    DoneGrows(done, g, multiset(Live(gs, graph.Keys)), multiset(Live(gs, graph.Keys - {g.name})), multiset(gs));
    RefCountPositive(gs, graph.Keys, g.name);
    ListsNothingDone(graph.Keys, done, g);
    RoomLeft(gs, graph.Keys, done, g);
  }

  ghost predicate Placed(a: seq<Group>, gs: seq<Group>, done: seq<Group>) {
    && |a| == |gs| && |done| <= |gs|
    && (forall k :: 0 <= k < |done| ==> a[|a| - 1 - k] == done[k])
    && (forall i :: 0 <= i < |gs| - |done| ==> a[i] == gs[i])
  }

  /** Store the index-th removed group at its place from the back. */
  method Place(groupsConfig: array<Group>, index: nat, g: Group, ghost gs: seq<Group>, ghost done: seq<Group>)
    requires Placed(groupsConfig[..], gs, done) && index == |done| + 1 <= |gs|
    modifies groupsConfig
    ensures Placed(groupsConfig[..], gs, done + [g])
  {
    groupsConfig[groupsConfig.Length - index] := g;
  }

  method InitialQueue(graph: Graph) returns (queue: seq<Name>)
    ensures Distinct(queue)
    ensures forall x :: x in queue <==> x in graph && graph[x].indegree == 0
  {
    queue := [];
    var todo := graph.Keys;
    while todo != {}
      invariant todo <= graph.Keys
      invariant Distinct(queue)
      invariant forall x :: x in queue <==> x in graph && x !in todo && graph[x].indegree == 0
    {
      var name :| name in todo;
      todo := todo - {name};
      if graph[name].indegree == 0 {
        queue := queue + [name];
      }
    }
  }

  /** Removing a node lowers each count by what its own group lists. */
  lemma CountsFollow(gs: seq<Group>, graph: Graph, graph': Graph, name: Name)
    requires DistinctNames(gs) && Describes(gs, graph) && IndegreesCount(gs, graph) && name in graph
    requires Released(graph, graph', graph[name].Members())
    ensures IndegreesCount(gs, graph' - {name})
  {
    var after := graph' - {name};
    assert after.Keys == graph.Keys - {name};
    forall x | x in after ensures after[x].indegree == RefCount(gs, after.Keys, x) {
      if graph[name].group.Some? {
        RefCountRemove(gs, graph.Keys, graph[name].group.value, x);
      } else {
        RefCountDead(gs, graph.Keys, name, x);
      }
    }
  }

  lemma QueueFollows(graph: Graph, queue: seq<Name>)
    requires Waiting(graph, queue) && queue != []
    ensures Waiting(graph - {queue[0]}, queue[1..])
  {
    forall x | x in queue && x != queue[0] ensures x in queue[1..] {
      var i :| 0 <= i < |queue| && queue[i] == x;
      assert queue[1..][i - 1] == x;
    }
    assert queue[0] !in queue[1..];
  }

  /** The rest of the node data survives both the release and the removal. */
  lemma DescriptionFollows(gs: seq<Group>, graph: Graph, graph': Graph, name: Name)
    requires Describes(gs, graph) && Unlinked(graph)
    requires graph'.Keys == graph.Keys
    requires forall x :: x in graph ==> graph'[x] == graph[x].(indegree := graph'[x].indegree)
    ensures Describes(gs, graph' - {name}) && Unlinked(graph' - {name})
  {
  }

  ghost predicate SortState(gs: seq<Group>, graph: Graph, rank: map<Name, nat>, done: seq<Group>) {
    && Removed(gs, graph.Keys, rank) && Closed(gs, graph.Keys)
    && Describes(gs, graph) && Unlinked(graph)
    && IndegreesCount(gs, graph)
    && Written(gs, graph.Keys, done)
  }

  ghost function WithGroup(done: seq<Group>, node: Node): seq<Group> {
    if node.group.Some? then done + [node.group.value] else done
  }

  lemma WrittenFollows(gs: seq<Group>, graph: Graph, done: seq<Group>, name: Name)
    requires DistinctNames(gs) && Describes(gs, graph) && Closed(gs, graph.Keys) && Written(gs, graph.Keys, done)
    requires name in graph && RefCount(gs, graph.Keys, name) == 0
    ensures Written(gs, graph.Keys - {name}, WithGroup(done, graph[name]))
    ensures graph[name].group.Some? ==> |done| < |gs|
  {
    if graph[name].group.Some? {
      WriteGroup(gs, graph, done, graph[name].group.value);
    } else {
      LiveDead(gs, graph.Keys, name);
    }
  }

  /** One turn of the queue keeps the whole state. */
  lemma SortStep(gs: seq<Group>, graph: Graph, graph': Graph, rank: map<Name, nat>, done: seq<Group>, name: Name)
    requires DistinctNames(gs) && SortState(gs, graph, rank, done)
    requires name in graph && graph[name].indegree == 0
    requires Released(graph, graph', graph[name].Members())
    ensures SortState(gs, graph' - {name}, rank[name := |rank|], WithGroup(done, graph[name]))
  {
    var after := graph' - {name};
    assert after.Keys == graph.Keys - {name};
    RemoveNode(gs, graph.Keys, rank, name);
    CountsFollow(gs, graph, graph', name);
    DescriptionFollows(gs, graph, graph', name);
    WrittenFollows(gs, graph, done, name);
  }

  lemma SortTurn(gs: seq<Group>, graph: Graph, queue: seq<Name>, rank: map<Name, nat>, done: seq<Group>)
    requires DistinctNames(gs) && SortState(gs, graph, rank, done) && Waiting(graph, queue) && queue != []
    ensures var name := queue[0];
      && name in graph && graph[name].indegree == 0
      && (graph[name].group.Some? ==> |done| < |gs|)
      && (forall c :: c in graph[name].Members() ==>
           c in graph && multiset(graph[name].Members())[c] <= graph[c].indegree)
  {
    var name := queue[0];
    WrittenFollows(gs, graph, done, name);
    if graph[name].group.Some? {
      MembersAreLive(gs, graph, graph[name].group.value);
    }
  }

  lemma SortStart(gs: seq<Group>, graph: Graph)
    requires DistinctNames(gs) && Built(gs, graph, AllNames(gs))
    ensures SortState(gs, graph, map[], [])
  {
    LiveAll(gs, graph.Keys);
  }

  /** Step 1.2. Returns what could not be removed, the removal order, and the groups written. */
  method SortGroups(groupsConfig: array<Group>, graph0: Graph)
    returns (graph: Graph, ghost rank: map<Name, nat>, ghost done: seq<Group>)
    requires DistinctNames(groupsConfig[..]) && Built(groupsConfig[..], graph0, AllNames(groupsConfig[..]))
    modifies groupsConfig
    ensures SortState(old(groupsConfig[..]), graph, rank, done)
    ensures Placed(groupsConfig[..], old(groupsConfig[..]), done)
    ensures forall x :: x in graph ==> graph[x].indegree != 0
  {
    ghost var gs := groupsConfig[..];
    graph, rank, done := graph0, map[], [];
    var index := 0;
    var queue := InitialQueue(graph);
    SortStart(gs, graph);
    while queue != []
      invariant SortState(gs, graph, rank, done) && Waiting(graph, queue)
      invariant Placed(groupsConfig[..], gs, done) && index == |done|
      decreases |graph|
    {
      var name := queue[0];
      var node := graph[name];
      SortTurn(gs, graph, queue, rank, done);
      if node.group.Some? {
        index := index + 1;
        Place(groupsConfig, index, node.group.value, gs, done);
      }
      var released, queue' := ReleaseMembers(graph, queue, node.Members());
      SortStep(gs, graph, released, rank, done, name);
      QueueFollows(released, queue');
      done := WithGroup(done, node);
      rank := rank[name := |rank|];
      assert |released - {name}| < |graph|;
      graph, queue := released - {name}, queue'[1..];
    }
  }
}

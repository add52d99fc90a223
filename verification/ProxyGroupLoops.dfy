/** The second half of the group check (config/utils.go): locating the loops among the
    groups the sort could not remove, and the whole of proxyGroupsDagSort. */
module ProxyGroupLoops {
  import opened Common
  import opened Digraph
  import opened ProxyGroups

  // ----- step 2.1: fill outdegree and from -----

  ghost function Repeat(name: Name, n: nat): seq<Name> {
    if n == 0 then [] else Repeat(name, n - 1) + [name]
  }

  lemma {:induction false} RepeatCount(name: Name, n: nat, f: Name)
    ensures multiset(Repeat(name, n))[f] == if f == name then n else 0
  {
    if n > 0 {
      RepeatCount(name, n - 1, f);
    }
  }

  /** graph is graph0 with the references ps of the group called name recorded at both ends. */
  ghost predicate Linked(graph0: Graph, graph: Graph, name: Name, ps: seq<Name>) {
    && graph.Keys == graph0.Keys
    && (forall x :: x in graph ==>
          graph[x] == graph0[x].(outdegree := graph0[x].outdegree + if x == name then |ps| else 0,
                                 from := graph0[x].from + Repeat(name, multiset(ps)[x])))
  }

  /** One reference recorded: an outgoing one at name, an incoming one at p. */
  function LinkEdge(graph: Graph, name: Name, p: Name): Graph
    requires name in graph && p in graph
  {
    var counted := graph[name := graph[name].(outdegree := graph[name].outdegree + 1)];
    counted[p := counted[p].(from := counted[p].from + [name])]
  }

  lemma LinkEdgeAt(graph: Graph, name: Name, p: Name)
    requires name in graph && p in graph
    ensures LinkEdge(graph, name, p).Keys == graph.Keys
    ensures forall x :: x in graph ==>
      LinkEdge(graph, name, p)[x] == graph[x].(outdegree := graph[x].outdegree + if x == name then 1 else 0,
                                               from := graph[x].from + if x == p then [name] else [])
  {
    assert forall x :: x in graph ==> graph[x].from + [] == graph[x].from;
  }

  lemma RepeatMore(from: seq<Name>, name: Name, n: nat)
    ensures from + Repeat(name, n + 1) == from + Repeat(name, n) + [name]
    ensures from + Repeat(name, n) + [] == from + Repeat(name, n)
  {
  }

  lemma LinkOne(graph0: Graph, graph: Graph, name: Name, ps: seq<Name>, p: Name)
    requires Linked(graph0, graph, name, ps) && name in graph && p in graph
    ensures Linked(graph0, LinkEdge(graph, name, p), name, ps + [p])
  {
    LinkEdgeAt(graph, name, p);
    var linked := LinkEdge(graph, name, p);
    forall x | x in linked
      ensures linked[x] == graph0[x].(outdegree := graph0[x].outdegree + if x == name then |ps + [p]| else 0,
                                      from := graph0[x].from + Repeat(name, multiset(ps + [p])[x]))
    {
      assert multiset(ps + [p])[x] == multiset(ps)[x] + if x == p then 1 else 0;
      RepeatMore(graph0[x].from, name, multiset(ps)[x]);
    }
  }

  lemma LinkNone(graph: Graph, name: Name)
    ensures Linked(graph, graph, name, [])
  {
    forall x | x in graph ensures graph[x].from + Repeat(name, 0) == graph[x].from { }
  }

  ghost function LinkAll(graph: Graph, name: Name, ps: seq<Name>): (linked: Graph)
    requires name in graph && forall c :: c in ps ==> c in graph
    ensures linked.Keys == graph.Keys
  {
    if ps == [] then graph else LinkEdge(LinkAll(graph, name, ps[..|ps| - 1]), name, ps[|ps| - 1])
  }

  lemma {:induction false} LinkAllLinks(graph: Graph, name: Name, ps: seq<Name>)
    requires name in graph && forall c :: c in ps ==> c in graph
    ensures Linked(graph, LinkAll(graph, name, ps), name, ps)
  {
    if ps == [] {
      LinkNone(graph, name);
    } else {
      var init := ps[..|ps| - 1];
      assert ps == init + [ps[|ps| - 1]];
      LinkAllLinks(graph, name, init);
      LinkOne(graph, LinkAll(graph, name, init), name, init, ps[|ps| - 1]);
    }
  }

  method LinkMembers(graph0: Graph, name: Name, proxies: seq<Name>) returns (graph: Graph)
    requires name in graph0 && forall c :: c in proxies ==> c in graph0
    ensures Linked(graph0, graph, name, proxies)
  {
    graph := graph0;
    for j := 0 to |proxies|
      invariant graph == LinkAll(graph0, name, proxies[..j])
    {
      assert proxies[..j + 1][..j] == proxies[..j];
      graph := LinkEdge(graph, name, proxies[j]);
    }
    assert proxies[..|proxies|] == proxies;
    LinkAllLinks(graph0, name, proxies);
  }

  ghost predicate MembersInside(graph: Graph) {
    forall x, c :: x in graph && c in graph[x].Members() ==> c in graph
  }

  /** How often the node f of graph0 refers to c. */
  ghost function Refers(graph0: Graph, f: Name, c: Name): nat {
    if f in graph0 then multiset(graph0[f].Members())[c] else 0
  }

  /** from lists every node of part as often as it refers to c. */
  ghost predicate Sources(graph0: Graph, part: set<Name>, c: Name, from: seq<Name>) {
    forall f :: multiset(from)[f] == if f in part then Refers(graph0, f, c) else 0
  }

  ghost predicate OwnEnds(graph0: Graph, graph: Graph, part: set<Name>)
    requires graph.Keys == graph0.Keys
  {
    forall x :: x in graph ==>
      graph[x].group == graph0[x].group && graph[x].outdegree == if x in part then |graph0[x].Members()| else 0
  }

  /** Both ends know every reference made by the nodes in part. */
  ghost predicate Rebuilt(graph0: Graph, graph: Graph, part: set<Name>) {
    && graph.Keys == graph0.Keys
    && OwnEnds(graph0, graph, part)
    && (forall c :: c in graph ==> Sources(graph0, part, c, graph[c].from))
  }

  lemma SourcesGrow(graph0: Graph, part: set<Name>, c: Name, from: seq<Name>, name: Name)
    requires name in graph0 && name !in part && Sources(graph0, part, c, from)
    ensures Sources(graph0, part + {name}, c, from + Repeat(name, multiset(graph0[name].Members())[c]))
  {
    var more := Repeat(name, multiset(graph0[name].Members())[c]);
    forall f ensures multiset(from + more)[f] == if f in part + {name} then Refers(graph0, f, c) else 0 {
      RepeatCount(name, multiset(graph0[name].Members())[c], f);
      assert multiset(from + more) == multiset(from) + multiset(more);
    }
  }

  lemma OwnEndsGrow(graph0: Graph, graph: Graph, graph': Graph, part: set<Name>, name: Name)
    requires graph.Keys == graph0.Keys && OwnEnds(graph0, graph, part) && name in graph && name !in part
    requires Linked(graph, graph', name, graph0[name].Members())
    ensures OwnEnds(graph0, graph', part + {name})
  {
  }

  lemma RebuildOne(graph0: Graph, graph: Graph, graph': Graph, part: set<Name>, name: Name)
    requires Rebuilt(graph0, graph, part) && name in graph && name !in part
    requires Linked(graph, graph', name, graph0[name].Members())
    ensures Rebuilt(graph0, graph', part + {name})
  {
    OwnEndsGrow(graph0, graph, graph', part, name);
    forall c | c in graph' ensures Sources(graph0, part + {name}, c, graph'[c].from) {
      SourcesGrow(graph0, part, c, graph[c].from, name);
    }
  }

  lemma NothingLinked(graph: Graph)
    requires Unlinked(graph)
    ensures Rebuilt(graph, graph, {})
  {
  }

  method RebuildGraph(graph0: Graph) returns (graph: Graph)
    requires Unlinked(graph0) && MembersInside(graph0)
    ensures Rebuilt(graph0, graph, graph0.Keys)
  {
    graph := graph0;
    NothingLinked(graph0);
    var todo := graph0.Keys;
    ghost var part: set<Name> := {};
    while todo != {}
      invariant todo <= graph0.Keys && forall x :: x in part <==> x in graph0 && x !in todo
      invariant Rebuilt(graph0, graph, part)
    {
      var name :| name in todo;
      todo := todo - {name};
      var before := graph;
      graph := LinkMembers(graph, name, graph0[name].Members());
      RebuildOne(graph0, before, graph, part, name);
      part := part + {name};
    }
    assert part == graph0.Keys;
  }

  // ----- step 2.2: strip what no loop lies ahead of -----

  /** The queue holds exactly the live nodes that refer to nothing live, each once. */
  ghost predicate Idle(graph: Graph, queue: seq<Name>) {
    && Distinct(queue)
    && (forall x :: x in queue ==> x in graph)
    && (forall x :: x in graph ==> (x in queue <==> graph[x].outdegree == 0))
  }

  /** graph is graph0 with one outgoing reference less for every entry of fs. */
  ghost predicate Dropped(graph0: Graph, graph: Graph, fs: seq<Name>) {
    && graph.Keys == graph0.Keys
    && (forall x :: x in graph ==> graph[x] == graph0[x].(outdegree := graph0[x].outdegree - multiset(fs)[x]))
  }

  lemma DropOne(graph0: Graph, graph: Graph, queue: seq<Name>, fs: seq<Name>, f: Name)
    requires Dropped(graph0, graph, fs) && Idle(graph, queue)
    requires f in graph0 && multiset(fs)[f] < graph0[f].outdegree
    ensures var source := graph[f].(outdegree := graph[f].outdegree - 1);
      && Dropped(graph0, graph[f := source], fs + [f])
      && Idle(graph[f := source], if source.outdegree == 0 then queue + [f] else queue)
  {
    var graph' := graph[f := graph[f].(outdegree := graph[f].outdegree - 1)];
    assert graph'.Keys == graph0.Keys;
    assert f !in queue;
    assert forall x :: x in graph ==> multiset(fs + [f])[x] == multiset(fs)[x] + if x == f then 1 else 0;
  }

  /** Every source has a node whose outdegree covers it as often as it occurs. */
  ghost predicate CoversSources(graph: Graph, fs: seq<Name>) {
    forall f :: f in fs ==> f in graph && multiset(fs)[f] <= graph[f].outdegree
  }

  lemma CoversNextSource(graph: Graph, fs: seq<Name>, j: nat)
    requires CoversSources(graph, fs) && j < |fs|
    ensures fs[j] in graph && multiset(fs[..j])[fs[j]] < graph[fs[j]].outdegree
  {
    PrefixCount(fs, j);
    assert fs[j] in fs;
  }

  /** The first j references are dropped. */
  ghost predicate Dropping(graph0: Graph, graph: Graph, queue0: seq<Name>, queue: seq<Name>, fs: seq<Name>, j: nat) {
    j <= |fs| && Dropped(graph0, graph, fs[..j]) && Idle(graph, queue) && queue0 <= queue
  }

  lemma NextSourceIsThere(graph0: Graph, graph: Graph, queue0: seq<Name>, queue: seq<Name>, fs: seq<Name>, j: nat)
    requires Dropping(graph0, graph, queue0, queue, fs, j) && CoversSources(graph0, fs) && j < |fs|
    ensures fs[j] in graph
  {
    CoversNextSource(graph0, fs, j);
  }

  lemma DropTurn(graph0: Graph, graph: Graph, queue0: seq<Name>, queue: seq<Name>, fs: seq<Name>, j: nat,
                 graph': Graph, queue': seq<Name>)
    requires Dropping(graph0, graph, queue0, queue, fs, j) && CoversSources(graph0, fs) && j < |fs| && fs[j] in graph
    requires graph' == graph[fs[j] := graph[fs[j]].(outdegree := graph[fs[j]].outdegree - 1)]
    requires queue' == if graph'[fs[j]].outdegree == 0 then queue + [fs[j]] else queue
    ensures Dropping(graph0, graph', queue0, queue', fs, j + 1)
  {
    CoversNextSource(graph0, fs, j);
    NextName(fs, j);
    DropOne(graph0, graph, queue, fs[..j], fs[j]);
  }

  lemma DropStart(graph: Graph, queue: seq<Name>, fs: seq<Name>)
    requires Idle(graph, queue)
    ensures Dropping(graph, graph, queue, queue, fs, 0)
  {
  }

  lemma DropEnd(graph0: Graph, graph: Graph, queue0: seq<Name>, queue: seq<Name>, fs: seq<Name>)
    requires Dropping(graph0, graph, queue0, queue, fs, |fs|)
    ensures Dropped(graph0, graph, fs) && Idle(graph, queue) && queue0 <= queue
  {
    assert fs[..|fs|] == fs;
  }

  method DropSources(graph0: Graph, queue0: seq<Name>, from: seq<Name>) returns (graph: Graph, queue: seq<Name>)
    requires Idle(graph0, queue0)
    requires forall f :: f in from ==> f in graph0 && multiset(from)[f] <= graph0[f].outdegree
    ensures Dropped(graph0, graph, from)
    ensures Idle(graph, queue) && queue0 <= queue
  {
    graph, queue := graph0, queue0;
    assert CoversSources(graph0, from);
    DropStart(graph, queue, from);
    for j := 0 to |from|
      invariant Dropping(graph0, graph, queue0, queue, from, j)
    {
      var f := from[j];
      ghost var before, queueBefore := graph, queue;
      NextSourceIsThere(graph0, graph, queue0, queue, from, j);
      var source := graph[f].(outdegree := graph[f].outdegree - 1);
      graph := graph[f := source];
      if source.outdegree == 0 {
        queue := queue + [f];
      }
      DropTurn(graph0, before, queue0, queueBefore, from, j, graph, queue);
    }
    DropEnd(graph0, graph, queue0, queue, from);
  }

  ghost predicate RankedBelow(ps: seq<Name>, rank: map<Name, nat>, limit: nat) {
    forall c :: c in ps ==> c in rank && rank[c] < limit
  }

  /** Stripped nodes are ranked so that they refer only to nodes stripped earlier. */
  ghost predicate Stripped(graph0: Graph, keys: set<Name>, rank: map<Name, nat>) {
    && (forall x :: x in graph0 <==> x in keys || x in rank)
    && (forall x :: x in rank ==> x !in keys)
    && (forall x :: x in rank ==> rank[x] < |rank|)
    && (forall x :: x in rank ==> RankedBelow(graph0[x].Members(), rank, rank[x]))
  }

  ghost predicate OutdegreesCount(graph0: Graph, graph: Graph) {
    forall x :: x in graph ==> x in graph0 && graph[x].outdegree == CountIn(graph0[x].Members(), graph.Keys)
  }

  ghost predicate SourcesKnown(graph0: Graph, graph: Graph) {
    forall c :: c in graph ==> Sources(graph0, graph0.Keys, c, graph[c].from)
  }

  ghost predicate StripState(graph0: Graph, graph: Graph, rank: map<Name, nat>) {
    Stripped(graph0, graph.Keys, rank) && OutdegreesCount(graph0, graph) && SourcesKnown(graph0, graph)
  }

  lemma StripStart(graph0: Graph, graph: Graph)
    requires MembersInside(graph0) && Rebuilt(graph0, graph, graph0.Keys)
    ensures StripState(graph0, graph, map[])
  {
    forall x | x in graph ensures graph[x].outdegree == CountIn(graph0[x].Members(), graph.Keys) {
      CountInBounds(graph0[x].Members(), graph.Keys);
    }
  }

  lemma SourceIsLive(graph0: Graph, graph: Graph, rank: map<Name, nat>, name: Name, f: Name)
    requires StripState(graph0, graph, rank)
    requires name in graph && f in graph[name].from
    ensures f in graph && multiset(graph[name].from)[f] <= graph[f].outdegree
  {
    assert Sources(graph0, graph0.Keys, name, graph[name].from);
    assert Refers(graph0, f, name) > 0;
    assert name in graph0[f].Members() && name !in rank;
    assert f in rank ==> RankedBelow(graph0[f].Members(), rank, rank[f]);
    CountInRemove(graph0[f].Members(), graph.Keys, name);
  }

  lemma StripTurn(graph0: Graph, graph: Graph, rank: map<Name, nat>, name: Name)
    requires StripState(graph0, graph, rank) && name in graph
    ensures forall f :: f in graph[name].from ==> f in graph && multiset(graph[name].from)[f] <= graph[f].outdegree
  {
    forall f | f in graph[name].from ensures f in graph && multiset(graph[name].from)[f] <= graph[f].outdegree {
      SourceIsLive(graph0, graph, rank, name, f);
    }
  }

  lemma RankedBelowFollows(graph0: Graph, rank: map<Name, nat>, name: Name)
    requires MembersInside(graph0) && name in graph0 && name !in rank
    requires forall x :: x in rank ==>
      x in graph0 && rank[x] < |rank| && RankedBelow(graph0[x].Members(), rank, rank[x])
    requires forall c :: c in graph0[name].Members() ==> c in rank
    ensures var rank' := rank[name := |rank|];
      forall x :: x in rank' ==> RankedBelow(graph0[x].Members(), rank', rank'[x])
  {
    var rank' := rank[name := |rank|];
    forall x | x in rank' ensures RankedBelow(graph0[x].Members(), rank', rank'[x]) {
      assert x != name ==> RankedBelow(graph0[x].Members(), rank, rank[x]);
    }
  }

  /** The name goes from the keys into the ranking. */
  lemma NameMoves(all: set<Name>, keys: set<Name>, rank: map<Name, nat>, name: Name)
    requires name in keys && (forall x :: x in all <==> x in keys || x in rank)
    requires forall x :: x in rank ==> x !in keys
    ensures var rank' := rank[name := |rank|];
      && (forall x :: x in all <==> x in keys - {name} || x in rank')
      && (forall x :: x in rank' ==> x !in keys - {name})
  {
  }

  lemma StrippedFollows(graph0: Graph, keys: set<Name>, rank: map<Name, nat>, name: Name)
    requires MembersInside(graph0) && Stripped(graph0, keys, rank)
    requires name in keys && CountIn(graph0[name].Members(), keys) == 0
    ensures Stripped(graph0, keys - {name}, rank[name := |rank|])
  {
    CountInBounds(graph0[name].Members(), keys);
    ExtendRank(rank, name);
    RankedBelowFollows(graph0, rank, name);
    NameMoves(graph0.Keys, keys, rank, name);
  }

  lemma OutdegreeFollows(graph0: Graph, keys: set<Name>, name: Name, from: seq<Name>, x: Name)
    requires x in graph0 && name in keys && Sources(graph0, graph0.Keys, name, from)
    ensures CountIn(graph0[x].Members(), keys) - multiset(from)[x] == CountIn(graph0[x].Members(), keys - {name})
  {
    CountInRemove(graph0[x].Members(), keys, name);
  }

  lemma OutdegreesFollow(graph0: Graph, graph: Graph, graph': Graph, name: Name)
    requires OutdegreesCount(graph0, graph) && name in graph
    requires Sources(graph0, graph0.Keys, name, graph[name].from)
    requires Dropped(graph, graph', graph[name].from)
    ensures OutdegreesCount(graph0, graph' - {name})
  {
    var after := graph' - {name};
    assert after.Keys == graph.Keys - {name};
    forall x | x in after ensures after[x].outdegree == CountIn(graph0[x].Members(), after.Keys) {
      OutdegreeFollows(graph0, graph.Keys, name, graph[name].from, x);
    }
  }

  lemma StripStep(graph0: Graph, graph: Graph, graph': Graph, rank: map<Name, nat>, name: Name)
    requires MembersInside(graph0) && StripState(graph0, graph, rank)
    requires name in graph && graph[name].outdegree == 0
    requires Dropped(graph, graph', graph[name].from)
    ensures StripState(graph0, graph' - {name}, rank[name := |rank|])
  {
    assert (graph' - {name}).Keys == graph.Keys - {name};
    StrippedFollows(graph0, graph.Keys, rank, name);
    OutdegreesFollow(graph0, graph, graph', name);
    assert SourcesKnown(graph0, graph' - {name});
  }

  lemma IdleFollows(graph: Graph, queue: seq<Name>)
    requires Idle(graph, queue) && queue != []
    ensures Idle(graph - {queue[0]}, queue[1..])
  {
    forall x | x in queue && x != queue[0] ensures x in queue[1..] {
      var i :| 0 <= i < |queue| && queue[i] == x;
      assert queue[1..][i - 1] == x;
    }
    assert queue[0] !in queue[1..];
  }

  method IdleQueue(graph: Graph) returns (queue: seq<Name>)
    ensures Idle(graph, queue)
  {
    queue := [];
    var todo := graph.Keys;
    while todo != {}
      invariant todo <= graph.Keys
      invariant Distinct(queue)
      invariant forall x :: x in queue <==> x in graph && x !in todo && graph[x].outdegree == 0
    {
      var name :| name in todo;
      todo := todo - {name};
      if graph[name].outdegree == 0 {
        queue := queue + [name];
      }
    }
  }

  method StripTails(ghost origin: Graph, graph0: Graph) returns (graph: Graph, ghost rank: map<Name, nat>)
    requires MembersInside(origin) && Rebuilt(origin, graph0, origin.Keys)
    ensures StripState(origin, graph, rank)
    ensures forall x :: x in graph ==> graph[x].outdegree != 0
  {
    graph, rank := graph0, map[];
    StripStart(origin, graph0);
    var queue := IdleQueue(graph);
    while queue != []
      invariant StripState(origin, graph, rank) && Idle(graph, queue)
      decreases |graph|
    {
      var name := queue[0];
      StripTurn(origin, graph, rank, name);
      var dropped, queue' := DropSources(graph, queue, graph[name].from);
      StripStep(origin, graph, dropped, rank, name);
      IdleFollows(dropped, queue');
      rank := rank[name := |rank|];
      assert |dropped - {name}| < |graph|;
      graph, queue := dropped - {name}, queue'[1..];
    }
  }

  // ----- step 2.3 and the whole function -----

  method Report(graph: Graph) returns (loopElements: seq<Name>)
    ensures Distinct(loopElements)
    ensures forall x :: x in loopElements <==> x in graph
  {
    loopElements := [];
    var todo := graph.Keys;
    while todo != {}
      invariant todo <= graph.Keys && Distinct(loopElements)
      invariant forall x :: x in loopElements <==> x in graph && x !in todo
    {
      var name :| name in todo;
      loopElements := loopElements + [name];
      todo := todo - {name};
    }
  }

  /** Caught between cycles: some cycle leads to x and x leads to some cycle. */
  ghost predicate Entangled(g: Edges, x: Name) {
    BehindIsCycle(g, x) && AheadIsCycle(g, x)
  }

  lemma LiveHasPredecessor(gs: seq<Group>, graph: Graph, x: Name)
    requires IndegreesCount(gs, graph) && x in graph && graph[x].indegree != 0
    ensures HasPredecessorIn(References(gs), graph.Keys, x)
  {
    RefCountPositive(gs, graph.Keys, x);
    var h :| h in gs && h.name in graph.Keys && x in h.proxies;
    assert (h.name, x) in References(gs);
  }

  lemma CycleIsBehindItself(gs: seq<Group>, x: Name)
    ensures OnCycle(References(gs), x) ==> x in AllNames(gs) && BehindIsCycle(References(gs), x)
  {
    if OnCycle(References(gs), x) {
      CycleHasEdges(References(gs), x);
      ReachesRefl(References(gs), x);
    }
  }

  lemma LeftoversExactly(gs: seq<Group>, graph: Graph, rank: map<Name, nat>)
    requires Removed(gs, graph.Keys, rank) && IndegreesCount(gs, graph)
    requires forall x :: x in graph ==> graph[x].indegree != 0
    ensures forall x :: x in AllNames(gs) ==> (x in graph <==> BehindIsCycle(References(gs), x))
  {
    var g := References(gs);
    forall x | x in graph ensures HasPredecessorIn(g, graph.Keys, x) {
      LiveHasPredecessor(gs, graph, x);
    }
    PredecessorClosedBehind(g, graph.Keys);
    forall x | x in rank ensures !BehindIsCycle(g, x) {
      RankedNotBehind(g, rank, x);
    }
  }

  /** What the sort leaves behind is exactly what some cycle leads to. */
  lemma LeftoversAreBehindCycles(gs: seq<Group>, graph: Graph, rank: map<Name, nat>, done: seq<Group>)
    requires DistinctNames(gs) && SortState(gs, graph, rank, done)
    requires forall x :: x in graph ==> graph[x].indegree != 0
    ensures forall x :: x in AllNames(gs) ==> (x in graph <==> BehindIsCycle(References(gs), x))
    ensures graph.Keys == {} <==> Acyclic(References(gs))
  {
    LeftoversExactly(gs, graph, rank);
    forall x ensures OnCycle(References(gs), x) ==> x in graph {
      CycleIsBehindItself(gs, x);
    }
    if x :| x in graph {
      assert x in AllNames(gs) && BehindIsCycle(References(gs), x);
    }
  }

  lemma MembersStayInside(gs: seq<Group>, graph: Graph)
    requires Describes(gs, graph) && Closed(gs, graph.Keys)
    ensures MembersInside(graph)
  {
  }

  lemma RemainderReachesOn(gs: seq<Group>, origin: Graph, keys: set<Name>, x: Name)
    requires Describes(gs, origin) && keys <= origin.Keys && x in keys
    requires CountIn(origin[x].Members(), keys) > 0
    ensures HasSuccessorIn(References(gs), keys, x) && x in GroupNames(gs)
  {
    CountInBounds(origin[x].Members(), keys);
    var c :| c in origin[x].Members() && c in keys;
    assert (x, c) in References(gs);
  }

  lemma RemainderIsAhead(gs: seq<Group>, origin: Graph, keys: set<Name>)
    requires Describes(gs, origin) && keys <= origin.Keys
    requires forall x :: x in keys ==> CountIn(origin[x].Members(), keys) > 0
    ensures forall x :: x in keys ==> AheadIsCycle(References(gs), x)
    ensures keys <= GroupNames(gs)
  {
    forall x | x in keys ensures HasSuccessorIn(References(gs), keys, x) && x in GroupNames(gs) {
      RemainderReachesOn(gs, origin, keys, x);
    }
    SuccessorClosedAhead(References(gs), keys);
  }

  lemma RanksForwardFollows(gs: seq<Group>, origin: Graph, keys: set<Name>, rank: map<Name, nat>)
    requires Describes(gs, origin) && Stripped(origin, keys, rank)
    ensures RanksForward(References(gs), rank)
  {
    forall a, b | (a, b) in References(gs) && a in rank ensures b in rank && rank[b] < rank[a] {
      var h :| h in gs && h.name == a && b in h.proxies;
      assert a in origin;
      assert origin[h.name].group == Some(h);
    }
  }

  /** Of those, stripping keeps exactly the ones that lead to a cycle. */
  lemma RemainderIsEntangled(gs: seq<Group>, origin: Graph, graph: Graph, rank: map<Name, nat>)
    requires Describes(gs, origin) && origin.Keys <= AllNames(gs)
    requires forall x :: x in AllNames(gs) ==> (x in origin <==> BehindIsCycle(References(gs), x))
    requires StripState(origin, graph, rank) && forall x :: x in graph ==> graph[x].outdegree != 0
    ensures forall x :: x in graph <==> Entangled(References(gs), x)
    ensures graph.Keys <= GroupNames(gs)
  {
    RemainderIsAhead(gs, origin, graph.Keys);
    RanksForwardFollows(gs, origin, graph.Keys, rank);
    forall x | Entangled(References(gs), x) ensures x in graph {
      AheadHasEdge(References(gs), x);
      if x in rank {
        RankedNotAhead(References(gs), rank, x);
      }
    }
  }

  /** A cycle makes the report non-empty. */
  lemma SomethingEntangled(g: Edges)
    requires !Acyclic(g)
    ensures exists x :: Entangled(g, x)
  {
    var x :| OnCycle(g, x);
    ReachesRefl(g, x);
    assert Entangled(g, x);
  }

  // ----- what a failed sort leaves in the array -----

  /** The groups no cycle leads to, in the order given. */
  ghost function Free(gs: seq<Group>, g: Edges): (free: seq<Group>)
    ensures |free| <= |gs|
  {
    if gs == [] then []
    else Free(gs[..|gs| - 1], g) + if BehindIsCycle(g, gs[|gs| - 1].name) then [] else [gs[|gs| - 1]]
  }

  /** The end of the array holds exactly the groups no cycle leads to, each as often as it was
      there, in dependency order; everything before them is untouched. */
  ghost predicate PartlySorted(a: seq<Group>, gs: seq<Group>) {
    var free := Free(gs, References(gs));
    var k := |gs| - |free|;
    && |a| == |gs| && a[..k] == gs[..k]
    && multiset(a[k..]) == multiset(free) && DependencyOrdered(a[k..])
  }

  lemma {:induction false} FreeAndLive(gs: seq<Group>, g: Edges, live: set<Name>)
    requires forall h :: h in gs ==> (h.name in live <==> BehindIsCycle(g, h.name))
    ensures multiset(Free(gs, g)) + multiset(Live(gs, live)) == multiset(gs)
  {
    if gs != [] {
      var init := gs[..|gs| - 1];
      assert gs == init + [gs[|gs| - 1]];
      FreeAndLive(init, g, live);
    }
  }

  lemma {:induction false} LiveMembers(gs: seq<Group>, live: set<Name>)
    ensures forall g :: g in Live(gs, live) <==> g in gs && g.name in live
  {
    if gs != [] {
      assert gs == gs[..|gs| - 1] + [gs[|gs| - 1]];
      LiveMembers(gs[..|gs| - 1], live);
    }
  }

  lemma TailIsOrdered(a: seq<Group>, gs: seq<Group>, live: set<Name>, done: seq<Group>)
    requires Placed(a, gs, done) && Written(gs, live, done)
    ensures DependencyOrdered(a[|gs| - |done|..])
    ensures forall g :: g in a[|gs| - |done|..] <==> g in done
  {
    var tail := a[|gs| - |done|..];
    forall i | 0 <= i < |tail| ensures tail[i] == done[|done| - 1 - i] {
      assert tail[i] == a[|a| - 1 - (|done| - 1 - i)];
    }
    forall k | 0 <= k < |done| ensures done[k] in tail {
      assert tail[|done| - 1 - k] == done[k];
    }
  }

  lemma DoneMembers(gs: seq<Group>, live: set<Name>, done: seq<Group>)
    requires Written(gs, live, done)
    ensures forall g :: g in done <==> g in gs && g.name !in live
  {
    LiveMembers(gs, live);
    forall g ensures g in done <==> g in gs && g.name !in live {
      assert g in gs <==> g in multiset(gs);
      assert g in done <==> g in multiset(done);
      assert g in Live(gs, live) <==> g in multiset(Live(gs, live));
    }
  }

  lemma ReversedMultiset(a: seq<Group>, done: seq<Group>)
    requires |a| == |done| && forall k :: 0 <= k < |done| ==> a[|a| - 1 - k] == done[k]
    ensures multiset(a) == multiset(done)
  {
    if a != [] {
      var n := |a| - 1;
      assert a == a[..n] + [a[n]] && done == [done[0]] + done[1..];
      forall k | 0 <= k < n ensures a[..n][n - 1 - k] == done[1..][k] {
        assert a[|a| - 1 - (k + 1)] == done[k + 1];
      }
      assert a[n] == done[0] by { assert a[|a| - 1 - 0] == done[0]; }
      ReversedMultiset(a[..n], done[1..]);
    }
  }

  lemma SortedWhenEmpty(a: seq<Group>, gs: seq<Group>, done: seq<Group>)
    requires Placed(a, gs, done) && Written(gs, {}, done)
    ensures multiset(a) == multiset(gs) && DependencyOrdered(a)
  {
    LiveAll(gs, {});
    assert |multiset(done)| == |multiset(gs)|;
    ReversedMultiset(a, done);
    TailIsOrdered(a, gs, {}, done);
    assert a[0..] == a;
  }

  lemma DoneIsFree(gs: seq<Group>, live: set<Name>, done: seq<Group>)
    requires Written(gs, live, done)
    requires forall x :: x in AllNames(gs) ==> (x in live <==> BehindIsCycle(References(gs), x))
    ensures multiset(done) == multiset(Free(gs, References(gs))) && |done| == |Free(gs, References(gs))|
  {
    forall h | h in gs ensures h.name in live <==> BehindIsCycle(References(gs), h.name) {
      assert h.name in AllNames(gs);
    }
    FreeAndLive(gs, References(gs), live);
    MultisetCancels(multiset(done), multiset(Free(gs, References(gs))), multiset(Live(gs, live)));
    assert |multiset(done)| == |multiset(Free(gs, References(gs)))|;
  }

  /** The end of the array is what was done, backwards. */
  lemma EndIsDone(a: seq<Group>, gs: seq<Group>, done: seq<Group>)
    requires Placed(a, gs, done)
    ensures var k := |gs| - |done|; a[..k] == gs[..k] && multiset(a[k..]) == multiset(done)
  {
    var end := a[|gs| - |done|..];
    forall i | 0 <= i < |done| ensures end[|end| - 1 - i] == done[i] {
      assert a[|a| - 1 - i] == done[i];
    }
    ReversedMultiset(end, done);
  }

  lemma SortedFrom(a: seq<Group>, gs: seq<Group>, done: seq<Group>, k: nat)
    requires |done| == |Free(gs, References(gs))| && multiset(done) == multiset(Free(gs, References(gs)))
    requires |a| == |gs| == k + |done|
    requires a[..k] == gs[..k] && multiset(a[k..]) == multiset(done) && DependencyOrdered(a[k..])
    ensures PartlySorted(a, gs)
  {
    assert k == |gs| - |Free(gs, References(gs))|;
  }

  lemma PartlySortedWhenLooping(a: seq<Group>, gs: seq<Group>, live: set<Name>, done: seq<Group>)
    requires Written(gs, live, done) && Placed(a, gs, done)
    requires forall x :: x in AllNames(gs) ==> (x in live <==> BehindIsCycle(References(gs), x))
    ensures PartlySorted(a, gs)
  {
    assert DependencyOrdered(a[|gs| - |done|..]) by { TailIsOrdered(a, gs, live, done); }
    EndIsDone(a, gs, done);
    DoneIsFree(gs, live, done);
    SortedFrom(a, gs, done, |gs| - |done|);
  }

  lemma {:induction false} FreeOfMore(gs: seq<Group>, hs: seq<Group>, g: Edges)
    ensures Free(gs + hs, g) == Free(gs, g) + Free(hs, g)
  {
    if hs == [] {
      assert gs + hs == gs;
    } else {
      assert (gs + hs)[..|gs + hs| - 1] == gs + hs[..|hs| - 1];
      FreeOfMore(gs, hs[..|hs| - 1], g);
    }
  }

  ghost predicate AllFree(gs: seq<Group>, g: Edges) {
    forall i :: 0 <= i < |gs| ==> !BehindIsCycle(g, gs[i].name)
  }

  ghost predicate NoneFree(gs: seq<Group>, g: Edges) {
    forall i :: 0 <= i < |gs| ==> BehindIsCycle(g, gs[i].name)
  }

  lemma {:induction false} FreeIsAll(gs: seq<Group>, g: Edges)
    ensures |Free(gs, g)| == |gs| <==> AllFree(gs, g)
    ensures AllFree(gs, g) ==> Free(gs, g) == gs
  {
    if gs != [] {
      var init, last := gs[..|gs| - 1], gs[|gs| - 1];
      FreeIsAll(init, g);
      assert gs == init + [last];
      if BehindIsCycle(g, last.name) {
        assert !AllFree(gs, g) && |Free(gs, g)| <= |init|;
      } else {
        assert AllFree(gs, g) <==> AllFree(init, g);
      }
    }
  }

  lemma {:induction false} FreeIsNone(gs: seq<Group>, g: Edges)
    ensures Free(gs, g) == [] <==> NoneFree(gs, g)
  {
    if gs != [] {
      var init, last := gs[..|gs| - 1], gs[|gs| - 1];
      FreeIsNone(init, g);
      if BehindIsCycle(g, last.name) {
        assert NoneFree(gs, g) <==> NoneFree(init, g);
      }
    }
  }

  lemma {:induction false} FreeAreFree(gs: seq<Group>, g: Edges)
    ensures AllFree(Free(gs, g), g)
  {
    if gs != [] {
      FreeAreFree(gs[..|gs| - 1], g);
    }
  }

  /** No group free of cycles stands before one that a cycle leads to. */
  ghost predicate FreeLast(gs: seq<Group>) {
    forall i, j :: 0 <= i < j < |gs| && BehindIsCycle(References(gs), gs[j].name) ==>
      BehindIsCycle(References(gs), gs[i].name)
  }

  /** How many groups stand before the first free one. */
  ghost function LedPrefix(gs: seq<Group>, g: Edges): (n: nat)
    ensures n <= |gs| && NoneFree(gs[..n], g) && (n < |gs| ==> !BehindIsCycle(g, gs[n].name))
  {
    if gs == [] || !BehindIsCycle(g, gs[0].name) then 0
    else
      var n := LedPrefix(gs[1..], g);
      assert forall i :: 1 <= i < n + 1 ==> gs[i] == gs[1..][..n][i - 1];
      n + 1
  }

  /** A split of the groups: free ones from position k on, and none before. */
  lemma SplitIsFree(gs: seq<Group>, g: Edges, k: nat)
    requires k <= |gs|
    ensures NoneFree(gs[..k], g) && AllFree(gs[k..], g) ==> Free(gs, g) == gs[k..]
    ensures k == |gs| - |Free(gs, g)| && AllFree(gs[k..], g) ==> NoneFree(gs[..k], g)
  {
    assert gs == gs[..k] + gs[k..];
    FreeOfMore(gs[..k], gs[k..], g);
    FreeIsNone(gs[..k], g);
    FreeIsAll(gs[k..], g);
  }

  lemma SameMultisetAllFree(gs: seq<Group>, hs: seq<Group>, g: Edges)
    requires multiset(gs) == multiset(hs) && AllFree(hs, g)
    ensures AllFree(gs, g)
  {
    forall i | 0 <= i < |gs| ensures !BehindIsCycle(g, gs[i].name) {
      assert gs[i] in multiset(gs) && gs[i] in hs;
    }
  }

  lemma FreeLastFromSplit(gs: seq<Group>, k: nat)
    requires k <= |gs| && NoneFree(gs[..k], References(gs)) && AllFree(gs[k..], References(gs))
    ensures FreeLast(gs)
  {
    var g := References(gs);
    forall i | 0 <= i < |gs| ensures BehindIsCycle(g, gs[i].name) <==> i < k {
      if i < k {
        assert gs[..k][i] == gs[i];
      } else {
        assert gs[k..][i - k] == gs[i];
      }
    }
  }

  lemma FreeLastSplits(gs: seq<Group>)
    requires FreeLast(gs)
    ensures var k := |gs| - |Free(gs, References(gs))|; gs[k..] == Free(gs, References(gs))
  {
    var g := References(gs);
    var n := LedPrefix(gs, g);
    forall i | 0 <= i < |gs[n..]| ensures !BehindIsCycle(g, gs[n..][i].name) {
      assert gs[n..][i] == gs[n + i];
    }
    SplitIsFree(gs, g, n);
  }

  lemma PermutationNeedsFreeLast(gs: seq<Group>, free: seq<Group>, k: nat)
    requires free == Free(gs, References(gs)) && k == |gs| - |free| && multiset(gs[k..]) == multiset(free)
    ensures FreeLast(gs)
  {
    FreeAreFree(gs, References(gs));
    SameMultisetAllFree(gs[k..], free, References(gs));
    SplitIsFree(gs, References(gs), k);
    FreeLastFromSplit(gs, k);
  }

  /** A failed sort leaves a permutation of the groups exactly if the free ones stood last;
      otherwise some group is there twice and another is gone. */
  lemma PermutationExactly(a: seq<Group>, gs: seq<Group>)
    requires PartlySorted(a, gs)
    ensures multiset(a) == multiset(gs) <==> FreeLast(gs)
  {
    var free := Free(gs, References(gs));
    var k := |gs| - |free|;
    SameFrontSameEnd(a, gs, k);
    if multiset(gs[k..]) == multiset(free) {
      PermutationNeedsFreeLast(gs, free, k);
    }
    if FreeLast(gs) {
      FreeLastSplits(gs);
    }
  }

  // ----- two small configurations -----

  lemma OnlySecondLoops(first: Group, second: Group)
    requires first.name == "A" && first.proxies == ["DIRECT"] && second.name == "B" && second.proxies == ["B"]
    ensures var g := References([first, second]); OnCycle(g, "B") && BehindIsCycle(g, "B") && !BehindIsCycle(g, "A")
  {
    var gs := [first, second];
    var g := References(gs);
    assert second in gs && "B" in second.proxies;
    ReachesRefl(g, "B");
    EdgeAndBack(g, "B", "B");
    RankedNotBehind(g, map["A" := 0], "A");
  }

  lemma OnlyFirstIsFree(first: Group, second: Group, g: Edges)
    requires !BehindIsCycle(g, first.name) && BehindIsCycle(g, second.name)
    ensures Free([first, second], g) == [first]
  {
    assert [first, second][..1] == [first] && [first][..0] == [];
    assert Free([first], g) == [first];
  }

  /** A group that only lists a plain proxy, before one that lists itself: the failed sort
      leaves the first twice and the second nowhere. */
  lemma GroupCanAppearTwice(a: seq<Group>, first: Group, second: Group)
    requires first.name == "A" && first.proxies == ["DIRECT"] && second.name == "B" && second.proxies == ["B"]
    ensures DistinctNames([first, second]) && !Acyclic(References([first, second]))
    ensures PartlySorted(a, [first, second]) ==> a == [first, first]
  {
    OnlySecondLoops(first, second);
    OnlyFirstIsFree(first, second, References([first, second]));
    if PartlySorted(a, [first, second]) {
      assert a[1] in multiset(a[1..]);
      assert a[0] == a[..1][0];
    }
  }

  lemma {:induction false} OnlyItself(g: Edges, c: Name, x: Name, n: nat)
    requires (forall y :: (c, y) in g ==> y == c) && ReachIn(g, c, x, n)
    ensures x == c
  {
    if n > 0 {
      var y :| (c, y) in g && ReachIn(g, y, x, n - 1);
      OnlyItself(g, c, x, n - 1);
    }
  }

  lemma NoWayBack(g: Edges, b: Name, c: Name)
    requires b != c && (forall y :: (b, y) in g ==> y == c) && (forall y :: (c, y) in g ==> y == c)
    ensures !OnCycle(g, b)
  {
    if OnCycle(g, b) {
      CycleHasEdges(g, b);
      var y :| (b, y) in g && Reaches(g, y, b);
      var n: nat :| ReachIn(g, y, b, n);
      OnlyItself(g, c, b, n);
    }
  }

  lemma BetweenIsEntangled(g: Edges, a: Name, b: Name, c: Name)
    requires (a, a) in g && (a, b) in g && (b, c) in g && (c, c) in g
    ensures Entangled(g, b)
  {
    ReachesRefl(g, a);
    ReachesRefl(g, c);
    EdgeAndBack(g, a, a);
    EdgeAndBack(g, c, c);
    ReachesEdge(g, a, b);
    ReachesEdge(g, b, c);
  }

  /** A way between two loops is reported too: B is on no cycle, but one leads to it and it
      leads to another. */
  lemma BetweenLoopsIsReported(first: Group, middle: Group, last: Group)
    requires first.name == "A" && first.proxies == ["A", "B"]
    requires middle.name == "B" && middle.proxies == ["C"] && last.name == "C" && last.proxies == ["C"]
    ensures var g := References([first, middle, last]); Entangled(g, "B") && !OnCycle(g, "B")
  {
    var gs := [first, middle, last];
    var g := References(gs);
    assert first in gs && middle in gs && last in gs;
    assert "A" in first.proxies && "B" in first.proxies && "C" in middle.proxies && "C" in last.proxies;
    BetweenIsEntangled(g, "A", "B", "C");
    NoWayBack(g, "B", "C");
  }

  /** Steps 2.1 to 2.3 on what the sort left in the graph. */
  method LocateLoops(ghost gs: seq<Group>, graph: Graph, ghost rank: map<Name, nat>) returns (loopElements: seq<Name>)
    requires Describes(gs, graph) && Closed(gs, graph.Keys) && Unlinked(graph)
    requires graph.Keys <= AllNames(gs) && !Acyclic(References(gs))
    requires forall x :: x in AllNames(gs) ==> (x in graph <==> BehindIsCycle(References(gs), x))
    ensures Distinct(loopElements) && loopElements != []
    ensures forall x :: x in loopElements <==> Entangled(References(gs), x)
    ensures forall x :: x in loopElements ==> x in GroupNames(gs)
  {
    MembersStayInside(gs, graph);
    var rebuilt := RebuildGraph(graph);
    ghost var rank';
    var rest;
    rest, rank' := StripTails(graph, rebuilt);
    RemainderIsEntangled(gs, graph, rest, rank');
    SomethingEntangled(References(gs));
    loopElements := Report(rest);
  }

  // ----- in terms of the configuration -----

  ghost predicate ListsAt(gs: seq<Group>, path: seq<Name>, i: int)
    requires 0 <= i < |path| - 1
  {
    exists h :: h in gs && h.name == path[i] && path[i + 1] in h.proxies
  }

  /** Each name on the path is a group's that lists the next. */
  ghost predicate LeadsOn(gs: seq<Group>, path: seq<Name>) {
    forall i :: 0 <= i < |path| - 1 ==> ListsAt(gs, path, i)
  }

  /** Groups on the way from a circle of groups, passing its first name twice, to x. */
  ghost predicate LedToByLoop(gs: seq<Group>, x: Name) {
    exists path :: |path| > 1 && LeadsOn(gs, path) && path[|path| - 1] == x && path[0] in path[1..]
  }

  /** Groups on the way from x to a circle, ending with a name passed before. */
  ghost predicate LeadsToLoop(gs: seq<Group>, x: Name) {
    exists path :: |path| > 1 && LeadsOn(gs, path) && path[0] == x && path[|path| - 1] in path[..|path| - 1]
  }

  /** No group leads back to itself. */
  ghost predicate NoLoop(gs: seq<Group>) {
    forall path :: |path| > 1 && LeadsOn(gs, path) ==> path[0] != path[|path| - 1]
  }

  lemma ListingIsStep(gs: seq<Group>, path: seq<Name>)
    ensures LeadsOn(gs, path) <==> Walk(References(gs), path)
  {
    var g := References(gs);
    forall i | 0 <= i < |path| - 1 ensures ListsAt(gs, path, i) <==> Step(g, path, i) {
      var a, b := path[i], path[i + 1];
      assert (a, b) in g <==> exists h, c :: h in gs && c in h.proxies && (h.name, c) == (a, b);
    }
  }

  lemma AllListingsAreSteps(gs: seq<Group>)
    ensures forall path: seq<Name> :: LeadsOn(gs, path) <==> Walk(References(gs), path)
  {
    forall path: seq<Name> ensures LeadsOn(gs, path) <==> Walk(References(gs), path) {
      ListingIsStep(gs, path);
    }
  }

  /** The graph says what the groups list. */
  lemma LoopsTold(gs: seq<Group>)
    ensures Acyclic(References(gs)) <==> NoLoop(gs)
    ensures forall x :: BehindIsCycle(References(gs), x) <==> LedToByLoop(gs, x)
    ensures forall x :: AheadIsCycle(References(gs), x) <==> LeadsToLoop(gs, x)
  {
    var g := References(gs);
    AllListingsAreSteps(gs);
    AcyclicHasNoCircle(g);
    assert forall path :: Circle(g, path) <==> |path| > 1 && path[0] == path[|path| - 1] && LeadsOn(gs, path);
    forall x ensures BehindIsCycle(g, x) <==> LedToByLoop(gs, x) {
      BehindIsWalk(g, x);
    }
    forall x ensures AheadIsCycle(g, x) <==> LeadsToLoop(gs, x) {
      AheadIsWalk(g, x);
    }
  }

  /** Sorts the groups in place, each after the groups it lists, or says why it cannot:
      the first repeated name, or all names caught between loops. */
  method ProxyGroupsDagSort(groupsConfig: array<Group>) returns (r: SortResult)
    modifies groupsConfig
    ensures r.Duplicate? <==> !DistinctNames(old(groupsConfig[..]))
    ensures r.Duplicate? ==> groupsConfig[..] == old(groupsConfig[..]) && exists i ::
      0 <= i < groupsConfig.Length && groupsConfig[i].name == r.name
      && DistinctNames(groupsConfig[..i]) && r.name in GroupNames(groupsConfig[..i])
    ensures !r.Duplicate? ==> (r.Sorted? <==> Acyclic(References(old(groupsConfig[..]))))
    ensures !r.Duplicate? ==> (r.Sorted? <==> NoLoop(old(groupsConfig[..])))
    ensures r.Sorted? ==>
      multiset(groupsConfig[..]) == multiset(old(groupsConfig[..])) && DependencyOrdered(groupsConfig[..])
    ensures r.Loop? ==>
      && Distinct(r.elements) && r.elements != []
      && (forall x :: x in r.elements <==>
           LedToByLoop(old(groupsConfig[..]), x) && LeadsToLoop(old(groupsConfig[..]), x))
      && (forall x :: x in r.elements ==> x in GroupNames(old(groupsConfig[..])))
      && PartlySorted(groupsConfig[..], old(groupsConfig[..]))
  {
    ghost var gs := groupsConfig[..];
    LoopsTold(gs);
    var duplicate, graph := BuildGraph(groupsConfig);
    if duplicate.Some? {
      return Duplicate(duplicate.value);
    }
    ghost var rank, done;
    graph, rank, done := SortGroups(groupsConfig, graph);
    LeftoversAreBehindCycles(gs, graph, rank, done);
    if graph == map[] {
      SortedWhenEmpty(groupsConfig[..], gs, done);
      return Sorted;
    }
    PartlySortedWhenLooping(groupsConfig[..], gs, graph.Keys, done);
    var loopElements := LocateLoops(gs, graph, rank);
    return Loop(loopElements);
  }
}

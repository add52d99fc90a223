/** The dialer-proxy check (config/utils.go): every referenced proxy exists and no chain
    of dialer-proxy links runs in a circle. */
module DialerProxies {
  import opened Common
  import opened Digraph

  datatype DialerResult = Valid | NotFound(proxy: Name, dialer: Name) | Circular(proxy: Name)

  /** The `visited` map shared by all frames of one search. */
  class Visited {
    var names: set<Name>

    constructor ()
      ensures names == {}
    {
      names := {};
    }
  }

  /** proxy name -> dialer-proxy name, for the proxies that configure one. */
  ghost function Links(proxies: map<Name, Name>): map<Name, Name> {
    map n | n in proxies && proxies[n] != "" :: proxies[n]
  }

  ghost function LinkEdges(links: map<Name, Name>): Edges {
    set n | n in links :: (n, links[n])
  }

  /** Following links from x stops at a proxy without one after at most n links. */
  ghost predicate EndsWithin(links: map<Name, Name>, x: Name, n: nat)
    decreases n
  {
    x !in links || (n > 0 && EndsWithin(links, links[x], n - 1))
  }

  ghost predicate AllExist(proxies: map<Name, Name>) {
    forall n :: n in proxies && proxies[n] != "" ==> proxies[n] in proxies
  }

  /** path is the way the search came: every entry leads to current, over at least one link. */
  ghost predicate LeadsTo(links: map<Name, Name>, path: seq<Name>, current: Name) {
    forall p :: p in path ==> p in links && Reaches(LinkEdges(links), links[p], current)
  }

  lemma AheadMovesOn(links: map<Name, Name>, x: Name)
    requires x in links && AheadIsCycle(LinkEdges(links), x)
    ensures AheadIsCycle(LinkEdges(links), links[x])
  {
    var g := LinkEdges(links);
    var c :| OnCycle(g, c) && Reaches(g, x, c);
    ReachesSplit(g, x, c);
    if x == c {
      CycleHasEdges(g, x);
    }
    assert Reaches(g, links[x], c);
  }

  lemma AheadMovesBack(links: map<Name, Name>, x: Name)
    requires x in links && AheadIsCycle(LinkEdges(links), links[x])
    ensures AheadIsCycle(LinkEdges(links), x)
  {
    var g := LinkEdges(links);
    var c :| OnCycle(g, c) && Reaches(g, links[x], c);
    ReachesEdge(g, x, links[x]);
    ReachesTrans(g, x, links[x], c);
  }

  /** A chain that ends never meets a cycle. */
  lemma {:induction false} EndingMeetsNoCycle(links: map<Name, Name>, x: Name, n: nat)
    requires EndsWithin(links, x, n)
    ensures !AheadIsCycle(LinkEdges(links), x)
    decreases n
  {
    if AheadIsCycle(LinkEdges(links), x) {
      AheadHasEdge(LinkEdges(links), x);
      AheadMovesOn(links, x);
      EndingMeetsNoCycle(links, links[x], n - 1);
    }
  }

  /** A search that comes back to a name on its own path has found a cycle. */
  lemma RevisitIsCycle(links: map<Name, Name>, path: seq<Name>, current: Name)
    requires LeadsTo(links, path, current) && current in path
    ensures AheadIsCycle(LinkEdges(links), current)
  {
    assert (current, links[current]) in LinkEdges(links);
    EdgeAndBack(LinkEdges(links), current, links[current]);
    ReachesRefl(LinkEdges(links), current);
  }

  lemma PathGrows(links: map<Name, Name>, path: seq<Name>, current: Name)
    requires LeadsTo(links, path, current) && current in links
    ensures LeadsTo(links, path + [current], links[current])
  {
    var g := LinkEdges(links);
    ReachesEdge(g, current, links[current]);
    ReachesRefl(g, links[current]);
    forall p | p in path + [current] ensures Reaches(g, links[p], links[current]) {
      if p in path {
        ReachesTrans(g, links[p], current, links[current]);
      }
    }
  }

  lemma NoLinkNoCycle(links: map<Name, Name>, x: Name)
    requires x !in links
    ensures !AheadIsCycle(LinkEdges(links), x)
  {
    if AheadIsCycle(LinkEdges(links), x) {
      AheadHasEdge(LinkEdges(links), x);
    }
  }

  /** Every chain either ends within the number of links or runs into a cycle. */
  lemma {:induction false} EndsOrCircles(links: map<Name, Name>, x: Name, path: seq<Name>)
    requires LeadsTo(links, path, x)
    ensures EndsWithin(links, x, |links.Keys - Elements(path)|) || AheadIsCycle(LinkEdges(links), x)
    decreases |links.Keys - Elements(path)|
  {
    if x in path {
      RevisitIsCycle(links, path, x);
    } else if x in links {
      PathGrows(links, path, x);
      assert links.Keys - Elements(path) == (links.Keys - Elements(path + [x])) + {x};
      EndsOrCircles(links, links[x], path + [x]);
      if AheadIsCycle(LinkEdges(links), links[x]) {
        AheadMovesBack(links, x);
      }
    }
  }

  /** Depth-first search from current. The names visited are always those on the path, so
      the early return for visited names is never taken; the search reports a cycle exactly
      when the chain from current runs into one. */
  method HasCycle(current: Name, graph: map<Name, Name>, visited: Visited, path: seq<Name>) returns (found: bool)
    requires LeadsTo(graph, path, current) && visited.names == Elements(path)
    modifies visited
    ensures found <==> AheadIsCycle(LinkEdges(graph), current)
    decreases |graph.Keys - visited.names|
  {
    for i := 0 to |path|
      invariant current !in path[..i]
    {
      if path[i] == current {
        RevisitIsCycle(graph, path, current);
        return true;
      }
    }
    assert path[..|path|] == path;
    assert current !in visited.names;
    if current in visited.names {
      return false;
    }
    ghost var before := visited.names;
    if current !in graph {
      NoLinkNoCycle(graph, current);
    } else if AheadIsCycle(LinkEdges(graph), current) {
      AheadMovesOn(graph, current);
    }
    visited.names := visited.names + {current};
    if current in graph {
      PathGrows(graph, path, current);
      assert graph.Keys - before == (graph.Keys - visited.names) + {current};
      found := HasCycle(graph[current], graph, visited, path + [current]);
      if found {
        AheadMovesBack(graph, current);
        return true;
      }
    }
    return false;
  }

  lemma EndsExactlyWithoutCycle(links: map<Name, Name>, x: Name)
    ensures EndsWithin(links, x, |links|) <==> !AheadIsCycle(LinkEdges(links), x)
  {
    assert links.Keys - Elements([]) == links.Keys;
    EndsOrCircles(links, x, []);
    if EndsWithin(links, x, |links|) {
      EndingMeetsNoCycle(links, x, |links|);
    }
  }

  ghost predicate DialsAt(proxies: map<Name, Name>, path: seq<Name>, i: int)
    requires 0 <= i < |path| - 1
  {
    path[i] in proxies && proxies[path[i]] != "" && proxies[path[i]] == path[i + 1]
  }

  /** Each proxy on the path dials through the next. */
  ghost predicate Dials(proxies: map<Name, Name>, path: seq<Name>) {
    forall i :: 0 <= i < |path| - 1 ==> DialsAt(proxies, path, i)
  }

  /** The chain from n comes back to a proxy it has passed. */
  ghost predicate RunsInCircle(proxies: map<Name, Name>, n: Name) {
    exists path :: |path| > 1 && Dials(proxies, path) && path[0] == n && path[|path| - 1] in path[..|path| - 1]
  }

  lemma LinkTold(proxies: map<Name, Name>, a: Name, b: Name)
    ensures (a, b) in LinkEdges(Links(proxies)) <==> a in proxies && proxies[a] != "" && proxies[a] == b
  {
    assert a in Links(proxies) <==> a in proxies && proxies[a] != "";
  }

  lemma DialsIsWalk(proxies: map<Name, Name>, path: seq<Name>)
    ensures Dials(proxies, path) <==> Walk(LinkEdges(Links(proxies)), path)
  {
    var g := LinkEdges(Links(proxies));
    forall i | 0 <= i < |path| - 1 ensures DialsAt(proxies, path, i) <==> Step(g, path, i) {
      LinkTold(proxies, path[i], path[i + 1]);
    }
  }

  /** The check in terms of the configuration: a chain runs in a circle exactly if it does not
      end within the number of links. */
  lemma CirclesTold(proxies: map<Name, Name>, n: Name)
    ensures RunsInCircle(proxies, n) <==> !EndsWithin(Links(proxies), n, |Links(proxies)|)
  {
    var g := LinkEdges(Links(proxies));
    EndsExactlyWithoutCycle(Links(proxies), n);
    AheadIsWalk(g, n);
    forall path: seq<Name> ensures Dials(proxies, path) <==> Walk(g, path) {
      DialsIsWalk(proxies, path);
    }
  }

  /** Collect the links, or stop at one that names no proxy. */
  method CollectLinks(proxies: map<Name, Name>) returns (missing: DialerResult, graph: map<Name, Name>)
    ensures missing.Valid? || missing.NotFound?
    ensures missing.Valid? ==> AllExist(proxies) && graph == Links(proxies)
    ensures missing.NotFound? ==>
      missing.proxy in proxies && proxies[missing.proxy] == missing.dialer != "" && missing.dialer !in proxies
  {
    graph := map[];
    var todo := proxies.Keys;
    while todo != {}
      invariant todo <= proxies.Keys
      invariant forall n :: n in graph <==> n in proxies && n !in todo && proxies[n] != ""
      invariant forall n :: n in graph ==> graph[n] == proxies[n] && proxies[n] in proxies
    {
      var name :| name in todo;
      todo := todo - {name};
      var dialerProxy := proxies[name];
      if dialerProxy != "" {
        if dialerProxy !in proxies {
          return NotFound(name, dialerProxy), graph;
        }
        graph := graph[name := dialerProxy];
      }
    }
    return Valid, graph;
  }

  method ValidateDialerProxies(proxies: map<Name, Name>) returns (r: DialerResult)
    ensures r.Valid? <==>
      && (forall n :: n in proxies && proxies[n] != "" ==> proxies[n] in proxies)
      && (forall n :: n in proxies ==> !RunsInCircle(proxies, n))
    ensures r.NotFound? <==> exists n :: n in proxies && proxies[n] != "" && proxies[n] !in proxies
    ensures r.NotFound? ==> r.proxy in proxies && proxies[r.proxy] == r.dialer != "" && r.dialer !in proxies
    ensures r.Circular? ==> r.proxy in proxies && RunsInCircle(proxies, r.proxy)
  {
    forall n ensures RunsInCircle(proxies, n) <==> !EndsWithin(Links(proxies), n, |Links(proxies)|) {
      CirclesTold(proxies, n);
    }
    var graph;
    r, graph := CollectLinks(proxies);
    if r.NotFound? {
      return;
    }
    var todo := graph.Keys;
    while todo != {}
      invariant todo <= graph.Keys
      invariant forall n :: n in graph && n !in todo ==> EndsWithin(graph, n, |graph|)
    {
      var name :| name in todo;
      todo := todo - {name};
      var visited := new Visited();
      var circular := HasCycle(name, graph, visited, []);
      EndsExactlyWithoutCycle(graph, name);
      if circular {
        return Circular(name);
      }
    }
    return Valid;
  }

  /** In graph terms: all chains end exactly when the links are acyclic. */
  lemma EndingIsAcyclic(links: map<Name, Name>)
    ensures (forall n :: n in links ==> EndsWithin(links, n, |links|)) <==> Acyclic(LinkEdges(links))
  {
    var g := LinkEdges(links);
    forall n ensures EndsWithin(links, n, |links|) <==> !AheadIsCycle(g, n) {
      EndsExactlyWithoutCycle(links, n);
    }
    forall x | OnCycle(g, x) ensures x in links && AheadIsCycle(g, x) {
      CycleHasEdges(g, x);
      ReachesRefl(g, x);
    }
  }
}

/** Finite directed graphs over names: reachability, cycles, and the two ways the
    configuration checks recognise them. A set in which every node has a predecessor
    (successor) hides a cycle behind (ahead of) every node; a ranking that every edge
    climbs rules cycles out. */
module Digraph {

  type Name = string

  type Edges = set<(Name, Name)>

  /** b is n edges away from a. */
  ghost predicate ReachIn(g: Edges, a: Name, b: Name, n: nat)
    decreases n
  {
    if n == 0 then a == b
    else exists c :: (a, c) in g && ReachIn(g, c, b, n - 1)
  }

  ghost predicate Reaches(g: Edges, a: Name, b: Name) {
    exists n: nat :: ReachIn(g, a, b, n)
  }

  /** x comes back to itself along at least one edge. */
  ghost predicate OnCycle(g: Edges, x: Name) {
    exists n: nat :: n > 0 && ReachIn(g, x, x, n)
  }

  ghost predicate Acyclic(g: Edges) {
    forall x :: !OnCycle(g, x)
  }

  ghost predicate BehindIsCycle(g: Edges, x: Name) {
    exists c :: OnCycle(g, c) && Reaches(g, c, x)
  }

  ghost predicate AheadIsCycle(g: Edges, x: Name) {
    exists c :: OnCycle(g, c) && Reaches(g, x, c)
  }

  lemma {:induction false} ReachInConcat(g: Edges, a: Name, b: Name, c: Name, m: nat, n: nat)
    requires ReachIn(g, a, b, m) && ReachIn(g, b, c, n)
    ensures ReachIn(g, a, c, m + n)
    decreases m
  {
    if m > 0 {
      var d :| (a, d) in g && ReachIn(g, d, b, m - 1);
      ReachInConcat(g, d, b, c, m - 1, n);
    }
  }

  lemma ReachesRefl(g: Edges, a: Name)
    ensures Reaches(g, a, a)
  {
    assert ReachIn(g, a, a, 0);
  }

  lemma ReachesEdge(g: Edges, a: Name, b: Name)
    requires (a, b) in g
    ensures ReachIn(g, a, b, 1) && Reaches(g, a, b)
  {
    assert ReachIn(g, b, b, 0);
  }

  lemma ReachesTrans(g: Edges, a: Name, b: Name, c: Name)
    requires Reaches(g, a, b) && Reaches(g, b, c)
    ensures Reaches(g, a, c)
  {
    var m: nat :| ReachIn(g, a, b, m);
    var n: nat :| ReachIn(g, b, c, n);
    ReachInConcat(g, a, b, c, m, n);
  }

  /** An edge closed by a way back is a cycle through both its ends. */
  lemma EdgeAndBack(g: Edges, a: Name, b: Name)
    requires (a, b) in g && Reaches(g, b, a)
    ensures OnCycle(g, a) && OnCycle(g, b)
  {
    var n: nat :| ReachIn(g, b, a, n);
    assert ReachIn(g, a, a, n + 1);
    ReachesEdge(g, a, b);
    ReachInConcat(g, b, a, b, n, 1);
  }

  lemma CycleHasEdges(g: Edges, x: Name)
    requires OnCycle(g, x)
    ensures exists y :: (x, y) in g && Reaches(g, y, x)
  {
    var n: nat :| n > 0 && ReachIn(g, x, x, n);
    var y :| (x, y) in g && ReachIn(g, y, x, n - 1);
    assert Reaches(g, y, x);
  }

  /** A way of at least one step begins with an edge. */
  lemma ReachesSplit(g: Edges, a: Name, b: Name)
    requires Reaches(g, a, b)
    ensures a == b || exists c :: (a, c) in g && Reaches(g, c, b)
  {
    var n: nat :| ReachIn(g, a, b, n);
    if n > 0 {
      var c :| (a, c) in g && ReachIn(g, c, b, n - 1);
      assert Reaches(g, c, b);
    }
  }

  lemma {:induction false} LastEdge(g: Edges, a: Name, b: Name, n: nat)
    requires n > 0 && ReachIn(g, a, b, n)
    ensures exists c :: (c, b) in g
    decreases n
  {
    var c :| (a, c) in g && ReachIn(g, c, b, n - 1);
    if n > 1 {
      LastEdge(g, c, b, n - 1);
    }
  }

  // ----- walks -----

  ghost predicate Step(g: Edges, path: seq<Name>, i: int)
    requires 0 <= i < |path| - 1
  {
    (path[i], path[i + 1]) in g
  }

  /** Each entry refers to the next. */
  ghost predicate Walk(g: Edges, path: seq<Name>) {
    forall i :: 0 <= i < |path| - 1 ==> Step(g, path, i)
  }

  lemma {:induction false} WalkReaches(g: Edges, path: seq<Name>, i: nat)
    requires Walk(g, path) && i < |path|
    ensures Reaches(g, path[i], path[|path| - 1])
    decreases |path| - i
  {
    if i == |path| - 1 {
      ReachesRefl(g, path[i]);
    } else {
      assert Step(g, path, i);
      ReachesEdge(g, path[i], path[i + 1]);
      WalkReaches(g, path, i + 1);
      ReachesTrans(g, path[i], path[i + 1], path[|path| - 1]);
    }
  }

  lemma WalkGrows(g: Edges, path: seq<Name>, n: Name)
    requires Walk(g, path) && (path != [] ==> (path[|path| - 1], n) in g)
    ensures Walk(g, path + [n])
  {
    forall i | 0 <= i < |path + [n]| - 1 ensures Step(g, path + [n], i) {
      if i < |path| - 1 {
        assert Step(g, path, i);
      }
    }
  }

  /** A walk that comes back to where it began. */
  ghost predicate Circle(g: Edges, path: seq<Name>) {
    |path| > 1 && path[0] == path[|path| - 1] && Walk(g, path)
  }

  lemma {:induction false} WalkOf(g: Edges, a: Name, b: Name, n: nat) returns (path: seq<Name>)
    requires ReachIn(g, a, b, n)
    ensures |path| == n + 1 && path[0] == a && path[n] == b && Walk(g, path)
    decreases n
  {
    path := [a];
    if n > 0 {
      var c :| (a, c) in g && ReachIn(g, c, b, n - 1);
      var rest := WalkOf(g, c, b, n - 1);
      path := [a] + rest;
      forall i | 0 <= i < |path| - 1 ensures Step(g, path, i) {
        assert i > 0 ==> Step(g, rest, i - 1);
      }
    }
  }

  lemma {:induction false} WalkReachIn(g: Edges, path: seq<Name>)
    requires |path| > 0 && Walk(g, path)
    ensures ReachIn(g, path[0], path[|path| - 1], |path| - 1)
    decreases |path|
  {
    if |path| > 1 {
      var rest := path[1..];
      assert Step(g, path, 0);
      forall i | 0 <= i < |rest| - 1 ensures Step(g, rest, i) {
        assert Step(g, path, i + 1);
      }
      WalkReachIn(g, rest);
    }
  }

  /** A graph is acyclic exactly if no walk in it is a circle. */
  lemma AcyclicHasNoCircle(g: Edges)
    ensures Acyclic(g) <==> forall path :: !Circle(g, path)
  {
    if x :| OnCycle(g, x) {
      var n: nat :| n > 0 && ReachIn(g, x, x, n);
      var path := WalkOf(g, x, x, n);
      assert Circle(g, path);
    }
    if path :| Circle(g, path) {
      WalkReachIn(g, path);
      assert OnCycle(g, path[0]);
    }
  }

  /** A walk from x comes back to a node it has passed. */
  ghost predicate RunsIntoCircle(g: Edges, x: Name) {
    exists path :: |path| > 1 && Walk(g, path) && path[0] == x && path[|path| - 1] in path[..|path| - 1]
  }

  /** A walk to x passes its first node again. */
  ghost predicate ComesFromCircle(g: Edges, x: Name) {
    exists path :: |path| > 1 && Walk(g, path) && path[|path| - 1] == x && path[0] in path[1..]
  }

  lemma WalkPart(g: Edges, path: seq<Name>, i: nat, j: nat)
    requires Walk(g, path) && i <= j < |path|
    ensures ReachIn(g, path[i], path[j], j - i)
  {
    var part := path[i..j + 1];
    forall k | 0 <= k < |part| - 1 ensures Step(g, part, k) {
      assert Step(g, path, i + k);
    }
    WalkReachIn(g, part);
  }

  lemma WalksJoin(g: Edges, a: seq<Name>, b: seq<Name>)
    requires Walk(g, a) && Walk(g, b) && |a| > 0 && |b| > 0 && a[|a| - 1] == b[0]
    ensures Walk(g, a + b[1..])
  {
    var path := a + b[1..];
    forall i | 0 <= i < |path| - 1 ensures Step(g, path, i) {
      if i < |a| - 1 {
        assert Step(g, a, i);
      } else {
        assert Step(g, b, i - (|a| - 1));
      }
    }
  }

  lemma AheadIsWalk(g: Edges, x: Name)
    ensures AheadIsCycle(g, x) <==> RunsIntoCircle(g, x)
  {
    if AheadIsCycle(g, x) {
      var c :| OnCycle(g, c) && Reaches(g, x, c);
      var k: nat :| ReachIn(g, x, c, k);
      var l: nat :| l > 0 && ReachIn(g, c, c, l);
      var to := WalkOf(g, x, c, k);
      var round := WalkOf(g, c, c, l);
      WalksJoin(g, to, round);
      var path := to + round[1..];
      assert path[..|path| - 1][k] == c;
    }
    if RunsIntoCircle(g, x) {
      var path :| |path| > 1 && Walk(g, path) && path[0] == x && path[|path| - 1] in path[..|path| - 1];
      var i :| 0 <= i < |path| - 1 && path[i] == path[|path| - 1];
      WalkPart(g, path, i, |path| - 1);
      WalkPart(g, path, 0, i);
      assert OnCycle(g, path[i]) && Reaches(g, x, path[i]);
    }
  }

  lemma BehindIsWalk(g: Edges, x: Name)
    ensures BehindIsCycle(g, x) <==> ComesFromCircle(g, x)
  {
    if BehindIsCycle(g, x) {
      var c :| OnCycle(g, c) && Reaches(g, c, x);
      var k: nat :| ReachIn(g, c, x, k);
      var l: nat :| l > 0 && ReachIn(g, c, c, l);
      var round := WalkOf(g, c, c, l);
      var from := WalkOf(g, c, x, k);
      WalksJoin(g, round, from);
      var path := round + from[1..];
      assert path[1..][l - 1] == c;
    }
    if ComesFromCircle(g, x) {
      var path :| |path| > 1 && Walk(g, path) && path[|path| - 1] == x && path[0] in path[1..];
      var i :| 0 <= i < |path| - 1 && path[1..][i] == path[0];
      WalkPart(g, path, 0, i + 1);
      WalkPart(g, path, i + 1, |path| - 1);
      assert OnCycle(g, path[i + 1]) && Reaches(g, path[i + 1], x);
    }
  }

  ghost predicate HasPredecessorIn(g: Edges, s: set<Name>, x: Name) {
    exists y :: y in s && (y, x) in g
  }

  ghost predicate HasSuccessorIn(g: Edges, s: set<Name>, x: Name) {
    exists y :: y in s && (x, y) in g
  }

  ghost predicate PredecessorClosed(g: Edges, s: set<Name>) {
    forall x {:trigger HasPredecessorIn(g, s, x)} :: x in s ==> HasPredecessorIn(g, s, x)
  }

  ghost predicate SuccessorClosed(g: Edges, s: set<Name>) {
    forall x {:trigger HasSuccessorIn(g, s, x)} :: x in s ==> HasSuccessorIn(g, s, x)
  }

  /** Walking backwards inside a finite predecessor-closed set must come around. */
  lemma {:induction false} CycleBehind(g: Edges, s: set<Name>, seen: set<Name>, cur: Name, x: Name)
    requires PredecessorClosed(g, s)
    requires cur in seen && seen <= s
    requires forall z :: z in seen ==> Reaches(g, cur, z)
    requires Reaches(g, cur, x)
    ensures exists c :: c in s && OnCycle(g, c) && Reaches(g, c, x)
    decreases |s - seen|
  {
    assert HasPredecessorIn(g, s, cur);
    var y :| y in s && (y, cur) in g;
    ReachesEdge(g, y, cur);
    ReachesTrans(g, y, cur, x);
    if y in seen {
      EdgeAndBack(g, y, cur);
    } else {
      forall z | z in seen + {y} ensures Reaches(g, y, z) {
        if z == y { ReachesRefl(g, y); } else { ReachesTrans(g, y, cur, z); }
      }
      assert s - seen == (s - (seen + {y})) + {y};
      CycleBehind(g, s, seen + {y}, y, x);
    }
  }

  lemma {:induction false} CycleAhead(g: Edges, s: set<Name>, seen: set<Name>, cur: Name, x: Name)
    requires SuccessorClosed(g, s)
    requires cur in seen && seen <= s
    requires forall z :: z in seen ==> Reaches(g, z, cur)
    requires Reaches(g, x, cur)
    ensures exists c :: c in s && OnCycle(g, c) && Reaches(g, x, c)
    decreases |s - seen|
  {
    assert HasSuccessorIn(g, s, cur);
    var y :| y in s && (cur, y) in g;
    ReachesEdge(g, cur, y);
    ReachesTrans(g, x, cur, y);
    if y in seen {
      EdgeAndBack(g, cur, y);
    } else {
      forall z | z in seen + {y} ensures Reaches(g, z, y) {
        if z == y { ReachesRefl(g, y); } else { ReachesTrans(g, z, cur, y); }
      }
      assert s - seen == (s - (seen + {y})) + {y};
      CycleAhead(g, s, seen + {y}, y, x);
    }
  }

  /** Every node of a predecessor-closed set is reached from a cycle inside it. */
  lemma PredecessorClosedBehind(g: Edges, s: set<Name>)
    requires PredecessorClosed(g, s)
    ensures forall x :: x in s ==> BehindIsCycle(g, x)
    ensures s != {} ==> !Acyclic(g)
  {
    forall x | x in s ensures BehindIsCycle(g, x) {
      ReachesRefl(g, x);
      CycleBehind(g, s, {x}, x, x);
    }
    if s != {} {
      var x :| x in s;
      assert BehindIsCycle(g, x);
    }
  }

  lemma SuccessorClosedAhead(g: Edges, s: set<Name>)
    requires SuccessorClosed(g, s)
    ensures forall x :: x in s ==> AheadIsCycle(g, x)
    ensures s != {} ==> !Acyclic(g)
  {
    forall x | x in s ensures AheadIsCycle(g, x) {
      ReachesRefl(g, x);
      CycleAhead(g, s, {x}, x, x);
    }
    if s != {} {
      var x :| x in s;
      assert AheadIsCycle(g, x);
    }
  }

  /** Every edge into a ranked node leaves a ranked node of smaller rank. */
  ghost predicate RanksBackward(g: Edges, rank: map<Name, nat>) {
    forall a, b :: (a, b) in g && b in rank ==> a in rank && rank[a] < rank[b]
  }

  /** Every edge out of a ranked node enters a ranked node of smaller rank. */
  ghost predicate RanksForward(g: Edges, rank: map<Name, nat>) {
    forall a, b :: (a, b) in g && a in rank ==> b in rank && rank[b] < rank[a]
  }

  lemma {:induction false} BackwardRankDrops(g: Edges, rank: map<Name, nat>, a: Name, b: Name, n: nat)
    requires RanksBackward(g, rank) && b in rank && ReachIn(g, a, b, n)
    ensures a in rank && rank[a] + n <= rank[b]
    decreases n
  {
    if n > 0 {
      var c :| (a, c) in g && ReachIn(g, c, b, n - 1);
      BackwardRankDrops(g, rank, c, b, n - 1);
    }
  }

  lemma {:induction false} ForwardRankDrops(g: Edges, rank: map<Name, nat>, a: Name, b: Name, n: nat)
    requires RanksForward(g, rank) && a in rank && ReachIn(g, a, b, n)
    ensures b in rank && rank[b] + n <= rank[a]
    decreases n
  {
    if n > 0 {
      var c :| (a, c) in g && ReachIn(g, c, b, n - 1);
      ForwardRankDrops(g, rank, c, b, n - 1);
    }
  }

  /** No cycle leads to a node that is ranked from behind. */
  lemma RankedNotBehind(g: Edges, rank: map<Name, nat>, x: Name)
    requires RanksBackward(g, rank) && x in rank
    ensures !BehindIsCycle(g, x)
  {
    if BehindIsCycle(g, x) {
      var c :| OnCycle(g, c) && Reaches(g, c, x);
      var m: nat :| ReachIn(g, c, x, m);
      BackwardRankDrops(g, rank, c, x, m);
      var n: nat :| n > 0 && ReachIn(g, c, c, n);
      BackwardRankDrops(g, rank, c, c, n);
    }
  }

  lemma RankedNotAhead(g: Edges, rank: map<Name, nat>, x: Name)
    requires RanksForward(g, rank) && x in rank
    ensures !AheadIsCycle(g, x)
  {
    if AheadIsCycle(g, x) {
      var c :| OnCycle(g, c) && Reaches(g, x, c);
      var m: nat :| ReachIn(g, x, c, m);
      ForwardRankDrops(g, rank, x, c, m);
      var n: nat :| n > 0 && ReachIn(g, c, c, n);
      ForwardRankDrops(g, rank, c, c, n);
    }
  }

  /** A node on a cycle, or between cycles, is the source of an edge. */
  lemma AheadHasEdge(g: Edges, x: Name)
    requires AheadIsCycle(g, x)
    ensures exists y :: (x, y) in g
  {
    var c :| OnCycle(g, c) && Reaches(g, x, c);
    ReachesSplit(g, x, c);
    if x == c {
      CycleHasEdges(g, c);
    }
  }
}

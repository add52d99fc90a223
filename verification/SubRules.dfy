/** The sub-rule check (config/config.go): every SUB-RULE reference names a configured
    rule list and no rule list leads back to itself. */
module SubRules {
  import opened Common
  import opened Digraph

  /** A rule as the check sees it: whether it is of type SUB-RULE, and its adapter. */
  datatype Rule = Rule(isSubRule: bool, adapter: Name)

  type RuleLists = map<Name, seq<Rule>>

  datatype Verdict =
    | Accepted
    | Missing(list: Name, index: nat, target: Name)
    | Circular(path: seq<Name>)

  ghost function SubRuleEdges(subRules: RuleLists): Edges {
    set n, rule | n in subRules && rule in subRules[n] && rule.isSubRule :: (n, rule.adapter)
  }

  ghost predicate AllResolve(subRules: RuleLists) {
    forall a, b :: (a, b) in SubRuleEdges(subRules) ==> b in subRules
  }

  /** Nothing missing and no cycle anywhere ahead of n. */
  ghost predicate Sound(subRules: RuleLists, n: Name) {
    && (forall m :: Reaches(SubRuleEdges(subRules), n, m) ==> m in subRules)
    && !AheadIsCycle(SubRuleEdges(subRules), n)
  }

  lemma AheadThroughEdge(g: Edges, n: Name)
    requires AheadIsCycle(g, n)
    ensures exists b :: (n, b) in g && AheadIsCycle(g, b)
  {
    var c :| OnCycle(g, c) && Reaches(g, n, c);
    ReachesSplit(g, n, c);
    if n == c {
      CycleHasEdges(g, n);
    }
  }

  /** A list is sound when it has no direct fault and everything it refers to is sound. */
  lemma SoundFromMembers(subRules: RuleLists, n: Name)
    requires n in subRules
    requires forall b :: (n, b) in SubRuleEdges(subRules) ==> b in subRules && Sound(subRules, b)
    ensures Sound(subRules, n)
  {
    var g := SubRuleEdges(subRules);
    forall m | Reaches(g, n, m) ensures m in subRules {
      ReachesSplit(g, n, m);
    }
    if AheadIsCycle(g, n) {
      AheadThroughEdge(g, n);
    }
  }

  lemma UnsoundFromMember(subRules: RuleLists, n: Name, b: Name)
    requires (n, b) in SubRuleEdges(subRules) && (b !in subRules || !Sound(subRules, b))
    ensures !Sound(subRules, n)
  {
    var g := SubRuleEdges(subRules);
    ReachesEdge(g, n, b);
    if b in subRules {
      if AheadIsCycle(g, b) {
        var c :| OnCycle(g, c) && Reaches(g, b, c);
        ReachesTrans(g, n, b, c);
      } else {
        var m :| Reaches(g, b, m) && m !in subRules;
        ReachesTrans(g, n, b, m);
      }
    }
  }

  lemma UnsoundFromReturn(subRules: RuleLists, path: seq<Name>, n: Name, b: Name)
    requires Walk(SubRuleEdges(subRules), path) && path != [] && path[|path| - 1] == n
    requires (n, b) in SubRuleEdges(subRules) && b in path
    ensures !Sound(subRules, n)
  {
    var g := SubRuleEdges(subRules);
    var i :| 0 <= i < |path| && path[i] == b;
    WalkReaches(g, path, i);
    EdgeAndBack(g, n, b);
    ReachesRefl(g, n);
  }

  ghost predicate RefersAt(subRules: RuleLists, path: seq<Name>, i: int)
    requires 0 <= i < |path| - 1
  {
    path[i] in subRules && Rule(true, path[i + 1]) in subRules[path[i]]
  }

  /** Each list on the path has a SUB-RULE that names the next. */
  ghost predicate Refers(subRules: RuleLists, path: seq<Name>) {
    forall i :: 0 <= i < |path| - 1 ==> RefersAt(subRules, path, i)
  }

  /** Every SUB-RULE names a list, and no list leads back to itself. */
  ghost predicate WellReferred(subRules: RuleLists) {
    && (forall n, rule :: n in subRules && rule in subRules[n] && rule.isSubRule ==> rule.adapter in subRules)
    && (forall path :: |path| > 1 && Refers(subRules, path) ==> path[0] != path[|path| - 1])
  }

  lemma RefersIsWalk(subRules: RuleLists, path: seq<Name>)
    ensures Refers(subRules, path) <==> Walk(SubRuleEdges(subRules), path)
  {
    var g := SubRuleEdges(subRules);
    forall i | 0 <= i < |path| - 1 ensures RefersAt(subRules, path, i) <==> Step(g, path, i) {
      assert (path[i], path[i + 1]) in g <==> exists n, rule ::
        n in subRules && rule in subRules[n] && rule.isSubRule && (n, rule.adapter) == (path[i], path[i + 1]);
    }
  }

  lemma WellReferredIsSound(subRules: RuleLists)
    ensures WellReferred(subRules) <==> AllResolve(subRules) && Acyclic(SubRuleEdges(subRules))
  {
    var g := SubRuleEdges(subRules);
    AcyclicHasNoCircle(g);
    forall path: seq<Name> ensures Refers(subRules, path) <==> Walk(g, path) {
      RefersIsWalk(subRules, path);
    }
    forall n, rule | n in subRules && rule in subRules[n] && rule.isSubRule ensures (n, rule.adapter) in g { }
    assert WellReferred(subRules) ==> AllResolve(subRules);
    assert forall path :: Circle(g, path) ==> |path| > 1 && Refers(subRules, path);
    assert forall path :: |path| > 1 && Refers(subRules, path) && path[0] == path[|path| - 1] ==> Circle(g, path);
  }

  /** A reported circle is a real one: a walk over existing references whose last name
      stands in it before. A reported gap is a reference to an unknown list. */
  ghost predicate Justified(subRules: RuleLists, r: Verdict) {
    match r
    case Accepted => true
    case Missing(list, index, target) =>
      && list in subRules && index < |subRules[list]|
      && subRules[list][index] == Rule(true, target) && target !in subRules
    case Circular(path) =>
      |path| > 1 && Refers(subRules, path) && path[|path| - 1] in path[..|path| - 1]
  }

  lemma ReturnIsCircle(subRules: RuleLists, path: seq<Name>, b: Name)
    requires Walk(SubRuleEdges(subRules), path) && path != []
    requires (path[|path| - 1], b) in SubRuleEdges(subRules) && b in path
    ensures Justified(subRules, Circular(path + [b])) && !Sound(subRules, path[|path| - 1])
  {
    WalkGrows(SubRuleEdges(subRules), path, b);
    UnsoundFromReturn(subRules, path, path[|path| - 1], b);
    assert (path + [b])[..|path|] == path;
    RefersIsWalk(subRules, path + [b]);
  }

  method IsInArray(v: Name, array_: seq<Name>) returns (found: bool)
    ensures found <==> v in array_
  {
    for i := 0 to |array_|
      invariant v !in array_[..i]
    {
      if v == array_[i] {
        return true;
      }
    }
    return false;
  }

  /** Depth-first walk from n; arr holds the distinct lists on the way to n. */
  method VerifyCircularReferences(n: Name, subRules: RuleLists, arr: seq<Name>) returns (r: Verdict)
    requires n in subRules && n !in arr && Elements(arr) <= subRules.Keys
    requires Walk(SubRuleEdges(subRules), arr + [n])
    ensures r.Accepted? <==> Sound(subRules, n)
    ensures Justified(subRules, r)
    decreases |subRules.Keys - Elements(arr)|
  {
    var path := arr + [n];
    assert subRules.Keys - Elements(arr) == (subRules.Keys - Elements(path)) + {n};
    var rules := subRules[n];
    for i := 0 to |rules|
      invariant forall k :: 0 <= k < i && rules[k].isSubRule ==>
        rules[k].adapter in subRules && Sound(subRules, rules[k].adapter)
    {
      var rule := rules[i];
      if rule.isSubRule {
        assert (n, rule.adapter) in SubRuleEdges(subRules);
        if rule.adapter !in subRules {
          UnsoundFromMember(subRules, n, rule.adapter);
          return Missing(n, i, rule.adapter);
        }
        var again := IsInArray(rule.adapter, path);
        if again {
          ReturnIsCircle(subRules, path, rule.adapter);
          return Circular(path + [rule.adapter]);
        }
        WalkGrows(SubRuleEdges(subRules), path, rule.adapter);
        r := VerifyCircularReferences(rule.adapter, subRules, path);
        if !r.Accepted? {
          UnsoundFromMember(subRules, n, rule.adapter);
          return;
        }
      }
    }
    SoundFromMembers(subRules, n);
    return Accepted;
  }

  lemma SoundEverywhere(subRules: RuleLists)
    ensures (forall n :: n in subRules ==> Sound(subRules, n)) <==>
      AllResolve(subRules) && Acyclic(SubRuleEdges(subRules))
  {
    var g := SubRuleEdges(subRules);
    if forall n :: n in subRules ==> Sound(subRules, n) {
      forall a, b | (a, b) in g ensures b in subRules {
        ReachesEdge(g, a, b);
        assert Sound(subRules, a);
      }
      forall x | OnCycle(g, x) ensures x in subRules && AheadIsCycle(g, x) {
        CycleHasEdges(g, x);
        ReachesRefl(g, x);
      }
    }
    if AllResolve(subRules) && Acyclic(g) {
      forall n, m | n in subRules && Reaches(g, n, m) ensures m in subRules {
        var k: nat :| ReachIn(g, n, m, k);
        if k > 0 {
          LastEdge(g, n, m, k);
        }
      }
    }
  }

  method VerifySubRule(subRules: RuleLists) returns (r: Verdict)
    ensures r.Accepted? <==> WellReferred(subRules)
    ensures Justified(subRules, r)
  {
    SoundEverywhere(subRules);
    WellReferredIsSound(subRules);
    var todo := subRules.Keys;
    while todo != {}
      invariant todo <= subRules.Keys
      invariant forall n :: n in subRules && n !in todo ==> Sound(subRules, n)
    {
      var name :| name in todo;
      todo := todo - {name};
      r := VerifyCircularReferences(name, subRules, []);
      if !r.Accepted? {
        return;
      }
    }
    return Accepted;
  }
}

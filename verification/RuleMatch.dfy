/** Rule matching (tunnel/tunnel.go, `match`, `getRules`, `CheckPassRule`): the first rule
    whose adapter is usable wins; a Rematch proxy met on the way restarts the search under
    changed metadata. */
module RuleMatch {
  import opened Common
  import opened Digraph
  import opened ProxyGroups
  import opened GroupBuild

  /** The part of the connection metadata that matching reads or writes; everything else
      a rule may look at or fill in (addresses, process, ...) is `rest`. */
  datatype Meta = Meta(udp: bool, specialRules: Name, smartTarget: string, smartBlock: string, rest: int)

  /** A rule; smartTarget is the text recorded for Smart groups, if its type records one. */
  datatype Rule = Rule(id: int, smartTarget: Option<string>)

  datatype RuleHit = RuleHit(matched: bool, adapter: Name, meta: Meta)

  datatype Dialed = Dialed(failed: bool, meta: Meta)

  /** Configuration and the behaviour of the parts that are not modelled. */
  datatype World = World(
    proxies: map<Name, Proxy>,
    rules: seq<Rule>,
    subRules: map<Name, seq<Rule>>,
    matches: (Rule, Meta) -> RuleHit,
    unwrap: (Proxy, Meta) -> Option<Proxy>,
    supportsUdp: Proxy -> bool,
    dial: (Proxy, Meta) -> Dialed)

  /** Unwrapping yields a member of the group. */
  ghost predicate Sane(w: World) {
    forall p, m :: w.unwrap(p, m).Some? ==> w.unwrap(p, m).value in p.members
  }

  datatype Outcome = Outcome(proxy: Option<Proxy>, rule: Option<Rule>)

  // ----- unwrapping -----

  /** The adapter and everything it unwraps to under fixed metadata. */
  ghost function Chain(w: World, p: Proxy, m: Meta): (c: seq<Proxy>)
    requires Sane(w)
    ensures |c| > 0 && c[0] == p
    decreases p
  {
    match w.unwrap(p, m)
    case None => [p]
    case Some(q) =>
      assert q in p.members;
      [p] + Chain(w, q, m)
  }

  ghost predicate Stops(p: Proxy) {
    p.kind.Pass? || p.kind.Rematch?
  }

  /** k is where following the chain stops. */
  ghost predicate FirstStop(chain: seq<Proxy>, k: nat) {
    k < |chain| && Stops(chain[k]) && forall j :: 0 <= j < k ==> !Stops(chain[j])
  }

  ghost predicate NoStop(chain: seq<Proxy>) {
    forall j :: 0 <= j < |chain| ==> !Stops(chain[j])
  }

  ghost predicate PassesOn(chain: seq<Proxy>) {
    exists k: nat :: FirstStop(chain, k) && chain[k].kind.Pass?
  }

  ghost predicate RematchesAt(chain: seq<Proxy>, p: Proxy) {
    exists k: nat :: FirstStop(chain, k) && chain[k] == p && p.kind.Rematch?
  }

  /** Some Smart group is met before the chain stops. */
  ghost predicate MeetsSmart(chain: seq<Proxy>) {
    exists k :: 0 <= k < |chain| && chain[k].kind.Smart? && forall j :: 0 <= j < k ==> !Stops(chain[j])
  }

  // ----- one rule -----

  /** The metadata with which the adapter of a hit is unwrapped. */
  ghost function Targeted(rule: Rule, m: Meta): Meta {
    if rule.smartTarget.Some? then m.(smartTarget := rule.smartTarget.value) else m
  }

  ghost function Settled(chain: seq<Proxy>, m: Meta): Meta {
    if MeetsSmart(chain) then m.(smartBlock := "normal") else m.(smartTarget := "")
  }

  ghost predicate Hits(w: World, rule: Rule, m: Meta) {
    w.matches(rule, m).matched && w.matches(rule, m).adapter in w.proxies
  }

  ghost function Adapter(w: World, rule: Rule, m: Meta): Proxy
    requires Hits(w, rule, m)
  {
    w.proxies[w.matches(rule, m).adapter]
  }

  ghost function HitMeta(w: World, rule: Rule, m: Meta): Meta {
    Targeted(rule, w.matches(rule, m).meta)
  }

  ghost function HitChain(w: World, rule: Rule, m: Meta): seq<Proxy>
    requires Sane(w) && Hits(w, rule, m)
  {
    Chain(w, Adapter(w, rule, m), HitMeta(w, rule, m))
  }

  /** The rule matches an existing adapter with no Pass or Rematch on its chain that can
      carry the traffic. */
  ghost predicate Accepts(w: World, rule: Rule, m: Meta)
    requires Sane(w)
  {
    && Hits(w, rule, m) && NoStop(HitChain(w, rule, m))
    && (HitMeta(w, rule, m).udp ==> w.supportsUdp(Adapter(w, rule, m)))
  }

  ghost predicate Rematches(w: World, rule: Rule, m: Meta, p: Proxy)
    requires Sane(w)
  {
    Hits(w, rule, m) && RematchesAt(HitChain(w, rule, m), p)
  }

  ghost predicate Skips(w: World, rule: Rule, m: Meta)
    requires Sane(w)
  {
    !Accepts(w, rule, m) && forall p :: !Rematches(w, rule, m, p)
  }

  /** The metadata left behind by a rule that is tried and not a Rematch. */
  ghost function After(w: World, rule: Rule, m: Meta): Meta
    requires Sane(w)
  {
    if Hits(w, rule, m) then Settled(HitChain(w, rule, m), HitMeta(w, rule, m)) else w.matches(rule, m).meta
  }

  // ----- one pass over a rule list -----

  /** The metadata when rule i is tried, all earlier rules having been skipped. */
  ghost function MetaAt(w: World, rules: seq<Rule>, m: Meta, i: nat): Meta
    requires Sane(w) && i <= |rules|
  {
    if i == 0 then m else After(w, rules[i - 1], MetaAt(w, rules, m, i - 1))
  }

  datatype PassEnd =
    | Accepted(index: nat, adapter: Proxy, meta: Meta)
    | Restart(index: nat, via: Proxy, meta: Meta)
    | Exhausted(meta: Meta)

  ghost predicate SkippedBefore(w: World, rules: seq<Rule>, m: Meta, i: nat)
    requires Sane(w) && i <= |rules|
  {
    forall j :: 0 <= j < i ==> Skips(w, rules[j], MetaAt(w, rules, m, j))
  }

  /** How a pass over rules under m ends: at the first rule that is not skipped. */
  ghost predicate PassDecides(w: World, rules: seq<Rule>, m: Meta, e: PassEnd)
    requires Sane(w)
  {
    match e
    case Accepted(i, p, m') =>
      && i < |rules| && SkippedBefore(w, rules, m, i)
      && Accepts(w, rules[i], MetaAt(w, rules, m, i)) && p == Adapter(w, rules[i], MetaAt(w, rules, m, i))
      && m' == MetaAt(w, rules, m, i + 1)
    case Restart(i, p, m') =>
      && i < |rules| && SkippedBefore(w, rules, m, i)
      && Rematches(w, rules[i], MetaAt(w, rules, m, i), p) && m' == HitMeta(w, rules[i], MetaAt(w, rules, m, i))
    case Exhausted(m') =>
      SkippedBefore(w, rules, m, |rules|) && m' == MetaAt(w, rules, m, |rules|)
  }

  lemma FirstStopUnique(chain: seq<Proxy>, j: nat, k: nat)
    requires FirstStop(chain, j) && FirstStop(chain, k)
    ensures j == k
  {
  }

  lemma OneStopOnly(chain: seq<Proxy>, p: Proxy)
    requires RematchesAt(chain, p)
    ensures forall q :: RematchesAt(chain, q) ==> q == p
    ensures !NoStop(chain) && !PassesOn(chain)
  {
    var k: nat :| FirstStop(chain, k) && chain[k] == p;
    forall j: nat | FirstStop(chain, j) ensures j == k {
      FirstStopUnique(chain, j, k);
    }
  }

  /** A rule restarts the search in at most one way, and then it is not accepted. */
  lemma OneVerdict(w: World, rule: Rule, m: Meta)
    requires Sane(w)
    ensures forall p, q :: Rematches(w, rule, m, p) && Rematches(w, rule, m, q) ==> p == q
    ensures forall p :: Rematches(w, rule, m, p) ==> !Accepts(w, rule, m)
  {
    forall p | Rematches(w, rule, m, p)
      ensures (forall q :: Rematches(w, rule, m, q) ==> q == p) && !Accepts(w, rule, m)
    {
      OneStopOnly(HitChain(w, rule, m), p);
    }
  }

  ghost function EndIndex(rules: seq<Rule>, e: PassEnd): nat {
    if e.Exhausted? then |rules| else e.index
  }

  lemma SameEndIndex(w: World, rules: seq<Rule>, m: Meta, e: PassEnd, f: PassEnd)
    requires Sane(w) && PassDecides(w, rules, m, e) && PassDecides(w, rules, m, f)
    ensures EndIndex(rules, f) <= EndIndex(rules, e)
  {
    var i := EndIndex(rules, e);
    assert i < |rules| ==> !Skips(w, rules[i], MetaAt(w, rules, m, i));
    assert forall j: nat :: j < EndIndex(rules, f) ==> Skips(w, rules[j], MetaAt(w, rules, m, j));
  }

  /** A pass ends in one way only. */
  lemma PassDecidesOnce(w: World, rules: seq<Rule>, m: Meta, e: PassEnd, f: PassEnd)
    requires Sane(w) && PassDecides(w, rules, m, e) && PassDecides(w, rules, m, f)
    ensures e == f
  {
    SameEndIndex(w, rules, m, e, f);
    SameEndIndex(w, rules, m, f, e);
    if EndIndex(rules, e) < |rules| {
      OneVerdict(w, rules[EndIndex(rules, e)], MetaAt(w, rules, m, EndIndex(rules, e)));
    }
  }

  // ----- the whole search -----

  function RulesFor(w: World, m: Meta): seq<Rule> {
    if m.specialRules in w.subRules then w.subRules[m.specialRules] else w.rules
  }

  function Direct(w: World): Option<Proxy> {
    if "DIRECT" in w.proxies then Some(w.proxies["DIRECT"]) else None
  }

  /** One pass over the rules: the metadata it starts with and how it ends. */
  datatype Round = Round(start: Meta, end: PassEnd)

  ghost function RestartName(p: Round): Name {
    if p.end.Restart? then p.end.via.name else ""
  }

  ghost function Names(ps: seq<Round>): seq<Name> {
    if ps == [] then [] else Names(ps[..|ps| - 1]) + [RestartName(ps[|ps| - 1])]
  }

  /** The metadata after the passes ps: as dialling the last Rematch proxy left it. */
  ghost function StartAfter(w: World, m: Meta, ps: seq<Round>): Meta {
    if ps == [] || !ps[|ps| - 1].end.Restart? then m
    else w.dial(ps[|ps| - 1].end.via, ps[|ps| - 1].end.meta).meta
  }

  /** This pass restarts the search: it meets a Rematch proxy not tried before, whose dial succeeds. */
  ghost predicate Restarts(w: World, tried: seq<Name>, p: Round)
    requires Sane(w)
  {
    && PassDecides(w, RulesFor(w, p.start), p.start, p.end)
    && p.end.Restart? && p.end.via.name !in tried && !w.dial(p.end.via, p.end.meta).failed
  }

  /** Starting from m, the search makes the passes ps and is restarted by each of them. */
  ghost predicate Restarting(w: World, m: Meta, ps: seq<Round>)
    requires Sane(w)
  {
    ps == [] ||
    var init, last := ps[..|ps| - 1], ps[|ps| - 1];
    Restarting(w, m, init) && last.start == StartAfter(w, m, init) && Restarts(w, Names(init), last)
  }

  /** This pass ends the search: a usable adapter, no rule left, or a Rematch proxy that was
      tried before or fails to update the metadata. */
  ghost predicate Finishes(w: World, tried: seq<Name>, p: Round, out: Outcome, final: Meta)
    requires Sane(w)
  {
    var rules := RulesFor(w, p.start);
    && PassDecides(w, rules, p.start, p.end)
    && match p.end
       case Accepted(i, adapter, m') =>
         final == m' && out == Outcome(Some(adapter), Some(rules[i]))
       case Exhausted(m') =>
         final == m' && out == Outcome(Direct(w), None)
       case Restart(i, via, m') =>
         && out == Outcome(Some(via), Some(rules[i]))
         && if via.name in tried then final == m'
            else w.dial(via, m').failed && final == w.dial(via, m').meta
  }

  /** The search from m makes the passes ps, each restarting it, and ends with `last`. */
  ghost predicate Resolves(w: World, m: Meta, ps: seq<Round>, last: Round, out: Outcome, final: Meta)
    requires Sane(w)
  {
    Restarting(w, m, ps) && last.start == StartAfter(w, m, ps) && Finishes(w, Names(ps), last, out, final)
  }

  // ----- termination: only so many proxies can restart the search -----

  ghost function Subtree(p: Proxy): set<Proxy>
    decreases p
  {
    {p} + set m, q | m in p.members && q in Subtree(m) :: q
  }

  ghost function RematchNames(w: World): set<Name> {
    set n, q | n in w.proxies && q in Subtree(w.proxies[n]) && q.kind.Rematch? :: q.name
  }

  lemma {:induction false} ChainStaysInside(w: World, p: Proxy, m: Meta)
    requires Sane(w)
    ensures forall q :: q in Chain(w, p, m) ==> q in Subtree(p)
    decreases p
  {
    var next := w.unwrap(p, m);
    if next.Some? {
      assert next.value in p.members;
      ChainStaysInside(w, next.value, m);
    }
  }

  lemma RestartNameIsKnown(w: World, rule: Rule, m: Meta, p: Proxy)
    requires Sane(w) && Rematches(w, rule, m, p)
    ensures p.name in RematchNames(w)
  {
    var n := w.matches(rule, m).adapter;
    ChainStaysInside(w, w.proxies[n], HitMeta(w, rule, m));
    assert p in Subtree(w.proxies[n]);
  }

  ghost predicate DistinctIn(names: seq<Name>, all: set<Name>) {
    && (forall i :: 0 <= i < |names| ==> names[i] in all)
    && (forall i, j :: 0 <= i < j < |names| ==> names[i] != names[j])
  }

  lemma {:induction false} DistinctFits(names: seq<Name>, all: set<Name>)
    requires DistinctIn(names, all)
    ensures |names| <= |all|
    decreases |names|
  {
    if names != [] {
      var n := |names| - 1;
      assert DistinctIn(names[..n], all - {names[n]});
      DistinctFits(names[..n], all - {names[n]});
    }
  }

  /** The restarts of a search carry distinct names of Rematch proxies. */
  lemma {:induction false} RestartNamesAreDistinct(w: World, m: Meta, ps: seq<Round>)
    requires Sane(w) && Restarting(w, m, ps)
    ensures |Names(ps)| == |ps| && DistinctIn(Names(ps), RematchNames(w))
  {
    if ps != [] {
      var init, last := ps[..|ps| - 1], ps[|ps| - 1];
      RestartNamesAreDistinct(w, m, init);
      RestartNameIsKnown(w, RulesFor(w, last.start)[last.end.index],
                         MetaAt(w, RulesFor(w, last.start), last.start, last.end.index), last.end.via);
    }
  }

  /** A search makes at most one pass per Rematch name and one more. */
  lemma PassesBounded(w: World, m: Meta, ps: seq<Round>, last: Round, out: Outcome, final: Meta)
    requires Sane(w) && Resolves(w, m, ps, last, out, final)
    ensures |ps| + 1 <= |RematchNames(w)| + 1
  {
    RestartNamesAreDistinct(w, m, ps);
    DistinctFits(Names(ps), RematchNames(w));
  }

  lemma {:induction false} RestartingAt(w: World, m: Meta, ps: seq<Round>, n: nat)
    requires Sane(w) && Restarting(w, m, ps) && n < |ps|
    ensures ps[n].start == StartAfter(w, m, ps[..n]) && Restarts(w, Names(ps[..n]), ps[n])
  {
    if n < |ps| - 1 {
      RestartingAt(w, m, ps[..|ps| - 1], n);
      assert ps[..|ps| - 1][..n] == ps[..n];
    }
  }

  /** The start of a pass determines it, whether it restarts the search or ends it. */
  lemma PassIsUnique(w: World, p: Round, q: Round)
    requires Sane(w) && p.start == q.start
    requires PassDecides(w, RulesFor(w, p.start), p.start, p.end)
    requires PassDecides(w, RulesFor(w, q.start), q.start, q.end)
    ensures p == q
  {
    PassDecidesOnce(w, RulesFor(w, p.start), p.start, p.end, q.end);
  }

  lemma NextRestartIsUnique(w: World, m: Meta, ps: seq<Round>, qs: seq<Round>, n: nat)
    requires Sane(w) && Restarting(w, m, ps) && Restarting(w, m, qs)
    requires n < |ps| && n < |qs| && ps[..n] == qs[..n]
    ensures ps[n] == qs[n]
  {
    RestartingAt(w, m, ps, n);
    RestartingAt(w, m, qs, n);
    PassIsUnique(w, ps[n], qs[n]);
  }

  lemma SlicesGrow(ps: seq<Round>, qs: seq<Round>, n: nat)
    requires 0 < n <= |ps| && n <= |qs| && ps[..n - 1] == qs[..n - 1] && ps[n - 1] == qs[n - 1]
    ensures ps[..n] == qs[..n]
  {
    assert ps[..n] == ps[..n - 1] + [ps[n - 1]] && qs[..n] == qs[..n - 1] + [qs[n - 1]];
  }

  /** Two searches from the same start agree as long as both go on. */
  lemma {:induction false} CommonPrefix(w: World, m: Meta, ps: seq<Round>, qs: seq<Round>, n: nat)
    requires Sane(w) && Restarting(w, m, ps) && Restarting(w, m, qs)
    requires n <= |ps| && n <= |qs|
    ensures ps[..n] == qs[..n]
  {
    if n > 0 {
      CommonPrefix(w, m, ps, qs, n - 1);
      NextRestartIsUnique(w, m, ps, qs, n - 1);
      SlicesGrow(ps, qs, n);
    }
  }

  /** A search that has ended elsewhere cannot go on here. */
  lemma EndsNoLater(w: World, m: Meta, ps: seq<Round>, p: Round, out: Outcome, final: Meta, qs: seq<Round>)
    requires Sane(w) && Resolves(w, m, ps, p, out, final) && Restarting(w, m, qs)
    ensures |qs| <= |ps|
  {
    if |ps| < |qs| {
      CommonPrefix(w, m, ps, qs, |ps|);
      assert ps[..|ps|] == ps;
      RestartingAt(w, m, qs, |ps|);
      PassIsUnique(w, p, qs[|ps|]);
    }
  }

  /** The configuration and the starting metadata determine the whole search. */
  lemma ResolvesOnce(w: World, m: Meta, ps: seq<Round>, p: Round, out: Outcome, final: Meta,
                     qs: seq<Round>, q: Round, out': Outcome, final': Meta)
    requires Sane(w) && Resolves(w, m, ps, p, out, final) && Resolves(w, m, qs, q, out', final')
    ensures ps == qs && p == q && out == out' && final == final'
  {
    EndsNoLater(w, m, ps, p, out, final, qs);
    EndsNoLater(w, m, qs, q, out', final', ps);
    CommonPrefix(w, m, ps, qs, |ps|);
    assert ps[..|ps|] == ps && qs[..|ps|] == qs;
    PassIsUnique(w, p, q);
  }

  // ----- the code -----

  /** Connection metadata, updated in place while rules are tried. */
  class Metadata {
    var udp: bool
    var specialRules: Name
    var smartTarget: string
    var smartBlock: string
    var rest: int

    function Snapshot(): Meta
      reads this
    {
      Meta(udp, specialRules, smartTarget, smartBlock, rest)
    }

    method Load(m: Meta)
      modifies this
      ensures Snapshot() == m
    {
      udp, specialRules, smartTarget, smartBlock, rest := m.udp, m.specialRules, m.smartTarget, m.smartBlock, m.rest;
    }
  }

  /** The unwrapping loop of one hit. */
  method FollowChain(w: World, adapter: Proxy, m: Meta) returns (passed: bool, rematch: Option<Proxy>, smart: bool)
    requires Sane(w)
    ensures rematch.Some? ==> RematchesAt(Chain(w, adapter, m), rematch.value)
    ensures rematch.None? ==> forall p :: !RematchesAt(Chain(w, adapter, m), p)
    ensures rematch.None? ==> (passed <==> PassesOn(Chain(w, adapter, m)))
    ensures rematch.None? ==> (passed <==> !NoStop(Chain(w, adapter, m)))
    ensures rematch.None? ==> (smart <==> MeetsSmart(Chain(w, adapter, m)))
  {
    ghost var chain := Chain(w, adapter, m);
    ghost var k := 0;
    passed, rematch, smart := false, None, false;
    var cur, more := adapter, true;
    while more
      invariant k <= |chain|
      invariant if more then k < |chain| && chain[k..] == Chain(w, cur, m) else k == |chain|
      invariant forall j :: 0 <= j < k ==> !Stops(chain[j])
      invariant smart <==> exists j :: 0 <= j < k && chain[j].kind.Smart?
      decreases more, cur
    {
      assert chain[k] == cur;
      if cur.kind.Smart? {
        smart := true;
      }
      if cur.kind.Pass? {
        assert FirstStop(chain, k);
        passed := true;
        return;
      }
      if cur.kind.Rematch? {
        assert FirstStop(chain, k);
        rematch := Some(cur);
        return;
      }
      var next := w.unwrap(cur, m);
      assert chain[k + 1..] == chain[k..][1..];
      k := k + 1;
      if next.Some? {
        assert next.value in cur.members;
        assert chain[k..] == Chain(w, next.value, m);
        cur := next.value;
      } else {
        more := false;
      }
    }
  }

  /** What following the chain of a hit says about the rule. */
  lemma Verdict(w: World, rule: Rule, m: Meta, passed: bool, rematch: Option<Proxy>)
    requires Sane(w) && Hits(w, rule, m)
    requires rematch.Some? ==> RematchesAt(HitChain(w, rule, m), rematch.value)
    requires rematch.None? ==> forall p :: !RematchesAt(HitChain(w, rule, m), p)
    requires rematch.None? ==> (passed <==> !NoStop(HitChain(w, rule, m)))
    ensures rematch.Some? ==> Rematches(w, rule, m, rematch.value)
    ensures rematch.None? ==>
      if !passed && (HitMeta(w, rule, m).udp ==> w.supportsUdp(Adapter(w, rule, m))) then Accepts(w, rule, m)
      else Skips(w, rule, m)
  {
  }

  datatype RuleVerdict = Skip | Use(adapter: Proxy) | Again(via: Proxy)

  /** What trying one rule under m came to, and the metadata it left. */
  ghost predicate RuleDecides(w: World, rule: Rule, m: Meta, v: RuleVerdict, m': Meta)
    requires Sane(w)
  {
    match v
    case Skip => Skips(w, rule, m) && m' == After(w, rule, m)
    case Use(p) => Accepts(w, rule, m) && p == Adapter(w, rule, m) && m' == After(w, rule, m)
    case Again(p) => Rematches(w, rule, m, p) && m' == HitMeta(w, rule, m)
  }

  lemma PassStep(w: World, rules: seq<Rule>, m: Meta, i: nat, v: RuleVerdict, m': Meta)
    requires Sane(w) && i < |rules| && SkippedBefore(w, rules, m, i)
    requires RuleDecides(w, rules[i], MetaAt(w, rules, m, i), v, m')
    ensures v.Skip? ==> SkippedBefore(w, rules, m, i + 1) && m' == MetaAt(w, rules, m, i + 1)
    ensures v.Use? ==> PassDecides(w, rules, m, Accepted(i, v.adapter, m'))
    ensures v.Again? ==> PassDecides(w, rules, m, Restart(i, v.via, m'))
  {
  }

  /** The body of the rule loop: try one rule, unwrapping its adapter. */
  method TryRule(w: World, rule: Rule, metadata: Metadata) returns (v: RuleVerdict)
    requires Sane(w)
    modifies metadata
    ensures RuleDecides(w, rule, old(metadata.Snapshot()), v, metadata.Snapshot())
  {
    ghost var m := metadata.Snapshot();
    var hit := w.matches(rule, metadata.Snapshot());
    metadata.Load(hit.meta);
    if !hit.matched || hit.adapter !in w.proxies {
      return Skip;
    }
    var adapter := w.proxies[hit.adapter];
    if rule.smartTarget.Some? {
      metadata.smartTarget := rule.smartTarget.value;
    }
    assert metadata.Snapshot() == HitMeta(w, rule, m);
    var passed, rematch, smart := FollowChain(w, adapter, metadata.Snapshot());
    Verdict(w, rule, m, passed, rematch);
    if rematch.Some? {
      return Again(rematch.value);
    }
    if smart {
      metadata.smartBlock := "normal";
    } else {
      metadata.smartTarget := "";
    }
    if passed || (metadata.udp && !w.supportsUdp(adapter)) {
      return Skip;
    }
    return Use(adapter);
  }

  /** One pass: the loop over the selected rule list. */
  method TryRules(w: World, rules: seq<Rule>, metadata: Metadata) returns (e: PassEnd)
    requires Sane(w)
    modifies metadata
    ensures PassDecides(w, rules, old(metadata.Snapshot()), e)
    ensures metadata.Snapshot() == e.meta
  {
    ghost var m0 := metadata.Snapshot();
    for i := 0 to |rules|
      invariant SkippedBefore(w, rules, m0, i)
      invariant metadata.Snapshot() == MetaAt(w, rules, m0, i)
    {
      var verdict := TryRule(w, rules[i], metadata);
      PassStep(w, rules, m0, i, verdict, metadata.Snapshot());
      match verdict
      case Skip =>
      case Use(adapter) => return Accepted(i, adapter, metadata.Snapshot());
      case Again(via) => return Restart(i, via, metadata.Snapshot());
    }
    return Exhausted(metadata.Snapshot());
  }

  lemma RestartsOnce(w: World, m: Meta, ps: seq<Round>, p: Round)
    requires Sane(w) && Restarting(w, m, ps) && p.start == StartAfter(w, m, ps) && Restarts(w, Names(ps), p)
    ensures Restarting(w, m, ps + [p])
    ensures Names(ps + [p]) == Names(ps) + [p.end.via.name]
    ensures |ps| < |RematchNames(w)|
  {
    var ps' := ps + [p];
    assert ps'[..|ps|] == ps;
    RestartNamesAreDistinct(w, m, ps');
    DistinctFits(Names(ps'), RematchNames(w));
  }

  /** The body of the outer loop: one pass and, if it met a Rematch proxy, the dial that
      updates the metadata. */
  method OnePass(w: World, metadata: Metadata,
                 rematchChain: seq<Name>) returns (again: Option<Name>, out: Outcome, ghost p: Round)
    requires Sane(w)
    modifies metadata
    ensures p.start == old(metadata.Snapshot())
    ensures again.None? ==> Finishes(w, rematchChain, p, out, metadata.Snapshot())
    ensures again.Some? ==>
      && Restarts(w, rematchChain, p) && again.value == p.end.via.name
      && metadata.Snapshot() == w.dial(p.end.via, p.end.meta).meta
  {
    ghost var m := metadata.Snapshot();
    var rules := RulesFor(w, metadata.Snapshot());
    var e := TryRules(w, rules, metadata);
    p := Round(m, e);
    if e.Accepted? {
      return None, Outcome(Some(e.adapter), Some(rules[e.index])), p;
    }
    if e.Exhausted? {
      return None, Outcome(Direct(w), None), p;
    }
    out := Outcome(Some(e.via), Some(rules[e.index]));
    if e.via.name in rematchChain {
      return None, out, p;
    }
    var dialed := w.dial(e.via, metadata.Snapshot());
    metadata.Load(dialed.meta);
    if dialed.failed {
      return None, out, p;
    }
    return Some(e.via.name), out, p;
  }

  /** The rule search of a connection. */
  method Match(w: World, metadata: Metadata)
    returns (proxy: Option<Proxy>, rule: Option<Rule>, ghost restarts: seq<Round>, ghost last: Round)
    requires Sane(w)
    modifies metadata
    ensures Resolves(w, old(metadata.Snapshot()), restarts, last, Outcome(proxy, rule), metadata.Snapshot())
  {
    ghost var m0 := metadata.Snapshot();
    var rematchChain: seq<Name> := [];
    restarts := [];
    while true
      invariant Restarting(w, m0, restarts) && rematchChain == Names(restarts)
      invariant metadata.Snapshot() == StartAfter(w, m0, restarts)
      decreases |RematchNames(w)| - |restarts|
    {
      var again, out;
      again, out, last := OnePass(w, metadata, rematchChain);
      if again.None? {
        return out.proxy, out.rule, restarts, last;
      }
      RestartsOnce(w, m0, restarts, last);
      rematchChain, restarts := rematchChain + [again.value], restarts + [last];
    }
  }

  // ----- what the result means -----

  /** The rule yields this proxy: as its usable adapter, or as the Rematch on its chain. */
  ghost predicate Chooses(w: World, rule: Rule, m: Meta, p: Proxy)
    requires Sane(w)
  {
    (Accepts(w, rule, m) && p == Adapter(w, rule, m)) || Rematches(w, rule, m, p)
  }

  /** A search never returns a proxy that passes on, nor a rule that was not hit. */
  lemma ResultIsUsable(w: World, m: Meta, ps: seq<Round>, last: Round, out: Outcome, final: Meta)
    requires Sane(w) && Resolves(w, m, ps, last, out, final)
    ensures out.rule.None? ==> out.proxy == (if "DIRECT" in w.proxies then Some(w.proxies["DIRECT"]) else None)
    ensures out.rule.Some? ==> out.proxy.Some? && exists m' :: Chooses(w, out.rule.value, m', out.proxy.value)
  {
    if !last.end.Exhausted? {
      assert Chooses(w, out.rule.value, MetaAt(w, RulesFor(w, last.start), last.start, last.end.index),
             out.proxy.value);
    }
  }

  // ----- the search told from the configuration alone -----

  /** c is what unwrapping c[0] again and again under m goes through, to the end. */
  ghost predicate Unwraps(w: World, m: Meta, c: seq<Proxy>) {
    && |c| > 0 && w.unwrap(c[|c| - 1], m).None?
    && forall k :: 0 <= k < |c| - 1 ==> w.unwrap(c[k], m) == Some(c[k + 1])
  }

  lemma {:induction false} ChainUnwraps(w: World, p: Proxy, m: Meta)
    requires Sane(w)
    ensures Unwraps(w, m, Chain(w, p, m)) && Chain(w, p, m)[0] == p
    decreases p
  {
    var next := w.unwrap(p, m);
    if next.Some? {
      assert next.value in p.members;
      ChainUnwraps(w, next.value, m);
      var rest := Chain(w, next.value, m);
      assert Chain(w, p, m) == [p] + rest;
      forall k | 0 <= k < |rest| ensures w.unwrap(([p] + rest)[k], m) == Some(([p] + rest)[k + 1]) || k == |rest| {
        assert k > 0 ==> ([p] + rest)[k] == rest[k - 1];
      }
    }
  }

  /** The chain is the only way to unwrap: the relation determines it. */
  lemma {:induction false} UnwrapsOnce(w: World, m: Meta, c: seq<Proxy>, d: seq<Proxy>)
    requires Unwraps(w, m, c) && Unwraps(w, m, d) && c[0] == d[0]
    ensures c == d
    decreases |c|
  {
    assert |c| > 1 ==> w.unwrap(c[0], m) == Some(c[0 + 1]);
    assert |d| > 1 ==> w.unwrap(d[0], m) == Some(d[0 + 1]);
    if |c| > 1 {
      UnwrapsOnce(w, m, c[1..], d[1..]);
      assert c == [c[0]] + c[1..] && d == [d[0]] + d[1..];
    }
  }

  /** Nothing before position k is a Pass or a Rematch. */
  ghost predicate ClearBefore(c: seq<Proxy>, k: nat) {
    forall j :: 0 <= j < k && j < |c| ==> !c[j].kind.Pass? && !c[j].kind.Rematch?
  }

  /** A Smart group stands on the chain before any Pass or Rematch. */
  ghost predicate SmartOn(c: seq<Proxy>) {
    exists k: nat :: k < |c| && c[k].kind.Smart? && ClearBefore(c, k)
  }

  /** A hit whose adapter unwraps along c: a Rematch before any Pass restarts; a Pass before it,
      or UDP the adapter cannot carry, skips; anything else uses the adapter. The rule's text
      is the Smart target while unwrapping, stays only if a Smart group was met, and then the
      block is marked normal. */
  ghost predicate HitTold(w: World, rule: Rule, hit: RuleHit, c: seq<Proxy>, v: RuleVerdict, m': Meta) {
    var target := if rule.smartTarget.Some? then rule.smartTarget.value else hit.meta.smartTarget;
    && hit.adapter in w.proxies && Unwraps(w, hit.meta.(smartTarget := target), c) && c[0] == w.proxies[hit.adapter]
    && (v.Again? <==> exists k: nat :: k < |c| && c[k].kind.Rematch? && ClearBefore(c, k))
    && (v.Again? ==>
         && (exists k: nat :: k < |c| && c[k] == v.via && v.via.kind.Rematch? && ClearBefore(c, k))
         && m' == hit.meta.(smartTarget := target))
    && (v.Use? <==> ClearBefore(c, |c|) && (hit.meta.udp ==> w.supportsUdp(c[0])))
    && (v.Use? ==> v.adapter == c[0])
    && (!v.Again? ==>
         && m'.smartTarget == (if SmartOn(c) then target else "")
         && m'.smartBlock == (if SmartOn(c) then "normal" else hit.meta.smartBlock)
         && m' == hit.meta.(smartTarget := m'.smartTarget, smartBlock := m'.smartBlock))
  }

  /** What one rule comes to when it is tried under m and leaves m'. */
  ghost predicate RuleTold(w: World, rule: Rule, m: Meta, v: RuleVerdict, m': Meta) {
    var hit := w.matches(rule, m);
    if hit.matched && hit.adapter in w.proxies then exists c :: HitTold(w, rule, hit, c, v, m')
    else v == Skip && m' == hit.meta
  }

  lemma StopsTold(c: seq<Proxy>)
    ensures NoStop(c) <==> ClearBefore(c, |c|)
    ensures forall k: nat :: k < |c| ==> (FirstStop(c, k) <==> Stops(c[k]) && ClearBefore(c, k))
    ensures MeetsSmart(c) <==> SmartOn(c)
  {
    if MeetsSmart(c) {
      var k :| 0 <= k < |c| && c[k].kind.Smart? && forall j :: 0 <= j < k ==> !Stops(c[j]);
      assert ClearBefore(c, k);
    }
    if SmartOn(c) {
      var k: nat :| k < |c| && c[k].kind.Smart? && ClearBefore(c, k);
      assert forall j :: 0 <= j < k ==> !Stops(c[j]);
    }
  }

  /** Trying a rule does what the configuration says. */
  lemma RuleIsTold(w: World, rule: Rule, m: Meta, v: RuleVerdict, m': Meta)
    requires Sane(w) && RuleDecides(w, rule, m, v, m')
    ensures RuleTold(w, rule, m, v, m')
  {
    if Hits(w, rule, m) {
      var c := HitChain(w, rule, m);
      ChainUnwraps(w, Adapter(w, rule, m), HitMeta(w, rule, m));
      StopsTold(c);
      if v.Again? {
        var k: nat :| FirstStop(c, k) && c[k] == v.via;
        assert k < |c| && c[k].kind.Rematch? && ClearBefore(c, k);
      } else {
        forall k: nat | k < |c| && c[k].kind.Rematch? && ClearBefore(c, k) ensures Rematches(w, rule, m, c[k]) {
          assert FirstStop(c, k);
        }
      }
      assert HitTold(w, rule, w.matches(rule, m), c, v, m');
    }
  }

  /** A pass from m over these rules that ends as e: the rules before the end are skipped,
      each tried under what the one before it left, ms[j], and the rule at the end decides. */
  ghost predicate PassThrough(w: World, rules: seq<Rule>, m: Meta, e: PassEnd, ms: seq<Meta>) {
    && |ms| > 0 && ms[0] == m && |ms| - 1 <= |rules|
    && (forall j :: 0 <= j < |ms| - 1 ==> RuleTold(w, rules[j], ms[j], Skip, ms[j + 1]))
    && match e
       case Accepted(i, p, m') => i == |ms| - 1 < |rules| && RuleTold(w, rules[i], ms[i], Use(p), m')
       case Restart(i, p, m') => i == |ms| - 1 < |rules| && RuleTold(w, rules[i], ms[i], Again(p), m')
       case Exhausted(m') => |ms| - 1 == |rules| && m' == ms[|rules|]
  }

  ghost predicate PassTold(w: World, rules: seq<Rule>, m: Meta, e: PassEnd) {
    exists ms :: PassThrough(w, rules, m, e, ms)
  }

  /** The metadata under which the first n rules and the one after them are tried. */
  ghost function Marks(w: World, rules: seq<Rule>, m: Meta, n: nat): (ms: seq<Meta>)
    requires Sane(w) && n <= |rules|
    ensures |ms| == n + 1 && forall j :: 0 <= j <= n ==> ms[j] == MetaAt(w, rules, m, j)
  {
    seq(n + 1, j requires 0 <= j < n + 1 => MetaAt(w, rules, m, j))
  }

  lemma SkippedTold(w: World, rules: seq<Rule>, m: Meta, j: nat)
    requires Sane(w) && j < |rules| && Skips(w, rules[j], MetaAt(w, rules, m, j))
    ensures RuleTold(w, rules[j], MetaAt(w, rules, m, j), Skip, MetaAt(w, rules, m, j + 1))
  {
    RuleIsTold(w, rules[j], MetaAt(w, rules, m, j), Skip, MetaAt(w, rules, m, j + 1));
  }

  lemma EndTold(w: World, rules: seq<Rule>, m: Meta, e: PassEnd)
    requires Sane(w) && PassDecides(w, rules, m, e) && !e.Exhausted?
    ensures e.Accepted? ==> RuleTold(w, rules[e.index], MetaAt(w, rules, m, e.index), Use(e.adapter), e.meta)
    ensures e.Restart? ==> RuleTold(w, rules[e.index], MetaAt(w, rules, m, e.index), Again(e.via), e.meta)
  {
    var v := if e.Accepted? then Use(e.adapter) else Again(e.via);
    RuleIsTold(w, rules[e.index], MetaAt(w, rules, m, e.index), v, e.meta);
  }

  /** Every pass is such a pass. */
  lemma PassIsTold(w: World, rules: seq<Rule>, m: Meta, e: PassEnd)
    requires Sane(w) && PassDecides(w, rules, m, e)
    ensures PassTold(w, rules, m, e)
  {
    var n := EndIndex(rules, e);
    var ms := Marks(w, rules, m, n);
    forall j: nat | j < n ensures RuleTold(w, rules[j], ms[j], Skip, ms[j + 1]) {
      SkippedTold(w, rules, m, j);
    }
    if !e.Exhausted? {
      EndTold(w, rules, m, e);
    }
    assert PassThrough(w, rules, m, e, ms);
  }

  /** The passes that restart the search: each under the sub-rule its metadata name, if that is
      configured, and under the default rules if not. */
  lemma RestartsAreTold(w: World, m: Meta, ps: seq<Round>, j: nat)
    requires Sane(w) && Restarting(w, m, ps) && j < |ps|
    ensures ps[j].end.Restart? && !w.dial(ps[j].end.via, ps[j].end.meta).failed
    ensures var n := ps[j].start.specialRules;
      PassTold(w, if n in w.subRules then w.subRules[n] else w.rules, ps[j].start, ps[j].end)
  {
    RestartingAt(w, m, ps, j);
    PassIsTold(w, RulesFor(w, ps[j].start), ps[j].start, ps[j].end);
  }

  /** The first pass starts with m, each other one with what the dial before it left. */
  lemma StartsAreTold(w: World, m: Meta, ps: seq<Round>, j: nat)
    requires Sane(w) && Restarting(w, m, ps) && j < |ps|
    ensures j == 0 ==> ps[j].start == m
    ensures j > 0 ==>
      ps[j - 1].end.Restart? && ps[j].start == w.dial(ps[j - 1].end.via, ps[j - 1].end.meta).meta
  {
    RestartingAt(w, m, ps, j);
    if j > 0 {
      RestartingAt(w, m, ps, j - 1);
      assert ps[..j][j - 1] == ps[j - 1];
    }
  }

  lemma {:induction false} NamesAt(ps: seq<Round>, j: nat)
    requires j < |ps|
    ensures |Names(ps)| == |ps| && Names(ps)[j] == RestartName(ps[j])
  {
    if j < |ps| - 1 {
      NamesAt(ps[..|ps| - 1], j);
    } else if j > 0 {
      NamesAt(ps[..|ps| - 1], 0);
    }
  }

  /** No two passes restart the search by way of proxies of one name. */
  lemma RestartsDiffer(w: World, m: Meta, ps: seq<Round>, i: nat, j: nat)
    requires Sane(w) && Restarting(w, m, ps) && i < j < |ps|
    ensures ps[i].end.Restart? && ps[j].end.Restart? && ps[i].end.via.name != ps[j].end.via.name
  {
    RestartingAt(w, m, ps, i);
    RestartingAt(w, m, ps, j);
    NamesAt(ps, i);
    NamesAt(ps, j);
    RestartNamesAreDistinct(w, m, ps);
  }

  lemma TriedExactly(w: World, m: Meta, ps: seq<Round>, n: Name)
    requires Sane(w) && Restarting(w, m, ps)
    ensures n in Names(ps) <==> exists j :: 0 <= j < |ps| && ps[j].end.Restart? && ps[j].end.via.name == n
  {
    forall j: nat | j < |ps|
      ensures |Names(ps)| == |ps| && Names(ps)[j] == RestartName(ps[j]) && ps[j].end.Restart?
    {
      NamesAt(ps, j);
      RestartingAt(w, m, ps, j);
    }
    if n in Names(ps) {
      RestartNamesAreDistinct(w, m, ps);
      var j: nat :| j < |Names(ps)| && Names(ps)[j] == n;
      assert ps[j].end.Restart? && ps[j].end.via.name == n;
    }
  }

  /** The last pass likewise, and what the search answers: the rule at which the last pass ended
      and its adapter, or the Rematch that was tried before or whose dial failed, or without a
      rule the proxy DIRECT. */
  lemma AnswerIsTold(w: World, m: Meta, ps: seq<Round>, last: Round, out: Outcome, final: Meta)
    requires Sane(w) && Resolves(w, m, ps, last, out, final)
    ensures var rules := if last.start.specialRules in w.subRules then w.subRules[last.start.specialRules] else w.rules;
      && PassTold(w, rules, last.start, last.end)
      && match last.end
         case Accepted(i, p, m') => i < |rules| && out == Outcome(Some(p), Some(rules[i])) && final == m'
         case Exhausted(m') =>
           final == m' && out == Outcome(if "DIRECT" in w.proxies then Some(w.proxies["DIRECT"]) else None, None)
         case Restart(i, p, m') =>
           && i < |rules| && out == Outcome(Some(p), Some(rules[i]))
           && if exists j :: 0 <= j < |ps| && ps[j].end.Restart? && ps[j].end.via.name == p.name then final == m'
              else w.dial(p, m').failed && final == w.dial(p, m').meta
    ensures last.start ==
      if |ps| > 0 && ps[|ps| - 1].end.Restart? then w.dial(ps[|ps| - 1].end.via, ps[|ps| - 1].end.meta).meta else m
  {
    PassIsTold(w, RulesFor(w, last.start), last.start, last.end);
    if last.end.Restart? {
      TriedExactly(w, m, ps, last.end.via.name);
    }
  }

  // ----- two rule lists -----

  const DEFAULT_RULE := Rule(0, None)
  const SUB_RULE := Rule(1, None)
  const DIRECT := Proxy("DIRECT", Plain, [])
  const PROXY := Proxy("PROXY", Plain, [])

  /** Two plain proxies; the default rules lead to DIRECT, the sub-rule s to PROXY. */
  ghost function TwoLists(): (w: World)
    ensures Sane(w)
  {
    World(map["DIRECT" := DIRECT, "PROXY" := PROXY], [DEFAULT_RULE], map["s" := [SUB_RULE]],
          (r: Rule, m) => RuleHit(true, if r == SUB_RULE then "PROXY" else "DIRECT", m),
          (p, m) => None, p => true, (p, m) => Dialed(false, m))
  }

  /** The sub-rule takes the place of the default rules exactly where the metadata name it. */
  lemma SubRuleReplacesDefault(m: Meta)
    ensures var final := m.(smartTarget := "");
      var (p, r) := if m.specialRules == "s" then (PROXY, SUB_RULE) else (DIRECT, DEFAULT_RULE);
      Resolves(TwoLists(), m, [], Round(m, Accepted(0, p, final)), Outcome(Some(p), Some(r)), final)
  {
    var w := TwoLists();
    var (p, r) := if m.specialRules == "s" then (PROXY, SUB_RULE) else (DIRECT, DEFAULT_RULE);
    assert Hits(w, r, m) && HitChain(w, r, m) == [p];
    assert MetaAt(w, [r], m, 1) == After(w, r, MetaAt(w, [r], m, 0));
    assert PassDecides(w, RulesFor(w, m), m, Accepted(0, p, m.(smartTarget := "")));
  }

  ghost function Core(m: Meta): Meta {
    m.(smartTarget := "", smartBlock := "")
  }

  /** Nothing looks at the Smart fields, and matching only looks. */
  ghost predicate IgnoresSmart(w: World) {
    && (forall rule, m :: w.matches(rule, m).meta == m)
    && (forall rule, m, m' :: Core(m) == Core(m') ==> w.matches(rule, m).matched == w.matches(rule, m').matched)
    && (forall rule, m, m' :: Core(m) == Core(m') ==> w.matches(rule, m).adapter == w.matches(rule, m').adapter)
    && (forall p, m, m' :: Core(m) == Core(m') ==> w.unwrap(p, m) == w.unwrap(p, m'))
  }

  lemma {:induction false} ChainIgnoresSmart(w: World, p: Proxy, m: Meta, m': Meta)
    requires Sane(w) && IgnoresSmart(w) && Core(m) == Core(m')
    ensures Chain(w, p, m) == Chain(w, p, m')
    decreases p
  {
    assert w.unwrap(p, m) == w.unwrap(p, m');
    if w.unwrap(p, m).Some? {
      assert w.unwrap(p, m).value in p.members;
      ChainIgnoresSmart(w, w.unwrap(p, m).value, m, m');
    }
  }

  lemma VerdictIgnoresSmart(w: World, rule: Rule, m: Meta, m': Meta)
    requires Sane(w) && IgnoresSmart(w) && Core(m) == Core(m')
    ensures Accepts(w, rule, m) <==> Accepts(w, rule, m')
    ensures forall p :: Rematches(w, rule, m, p) <==> Rematches(w, rule, m', p)
    ensures Core(After(w, rule, m)) == Core(m)
  {
    assert w.matches(rule, m).adapter == w.matches(rule, m').adapter;
    if Hits(w, rule, m) {
      ChainIgnoresSmart(w, Adapter(w, rule, m), HitMeta(w, rule, m), HitMeta(w, rule, m'));
    }
  }

  lemma {:induction false} MetaAtIgnoresSmart(w: World, rules: seq<Rule>, m: Meta, i: nat)
    requires Sane(w) && IgnoresSmart(w) && i <= |rules|
    ensures Core(MetaAt(w, rules, m, i)) == Core(m)
  {
    if i > 0 {
      MetaAtIgnoresSmart(w, rules, m, i - 1);
      VerdictIgnoresSmart(w, rules[i - 1], MetaAt(w, rules, m, i - 1), m);
    }
  }

  /** Then the marks left by skipped rules do not influence the choice: a pass ends at the
      first rule that is not skipped under the metadata it started with. */
  lemma PassIsFirstMatch(w: World, rules: seq<Rule>, m: Meta, e: PassEnd)
    requires Sane(w) && IgnoresSmart(w) && PassDecides(w, rules, m, e)
    ensures forall j :: 0 <= j < EndIndex(rules, e) ==> Skips(w, rules[j], m)
    ensures e.Accepted? ==> Accepts(w, rules[e.index], m)
    ensures e.Restart? ==> Rematches(w, rules[e.index], m, e.via)
  {
    forall j: nat | j < |rules| ensures Skips(w, rules[j], m) <==> Skips(w, rules[j], MetaAt(w, rules, m, j)) {
      MetaAtIgnoresSmart(w, rules, m, j);
      VerdictIgnoresSmart(w, rules[j], m, MetaAt(w, rules, m, j));
    }
    if !e.Exhausted? {
      MetaAtIgnoresSmart(w, rules, m, e.index);
      VerdictIgnoresSmart(w, rules[e.index], m, MetaAt(w, rules, m, e.index));
    }
  }

  // ----- CheckPassRule -----

  /** Does the named adapter unwrap to a PASS-RULE proxy? */
  method CheckPassRule(w: World, adapterName: Name, m: Meta) returns (r: bool)
    requires Sane(w)
    ensures r <==>
      && adapterName in w.proxies
      && exists p :: p in Chain(w, w.proxies[adapterName], m) && p.kind.PassRule?
  {
    if adapterName !in w.proxies {
      return false;
    }
    ghost var chain := Chain(w, w.proxies[adapterName], m);
    ghost var k := 0;
    var cur, more := w.proxies[adapterName], true;
    while more
      invariant k <= |chain|
      invariant if more then k < |chain| && chain[k..] == Chain(w, cur, m) else k == |chain|
      invariant forall j :: 0 <= j < k ==> !chain[j].kind.PassRule?
      decreases more, cur
    {
      assert chain[k] == cur;
      if cur.kind.PassRule? {
        return true;
      }
      var next := w.unwrap(cur, m);
      assert chain[k + 1..] == chain[k..][1..];
      k := k + 1;
      if next.Some? {
        assert next.value in cur.members;
        assert chain[k..] == Chain(w, next.value, m);
        cur := next.value;
      } else {
        more := false;
      }
    }
    return false;
  }

  // ----- chains follow the order of the sorted groups -----

  ghost predicate IsProxyOf(hs: seq<ProxyGroups.Group>, built: map<Name, Proxy>, p: Proxy, j: nat) {
    j < |hs| && hs[j].name in built && p == built[hs[j].name]
  }

  /** Nothing to unwrap, or the proxy of one of the first n groups. */
  ghost predicate Ranked(hs: seq<ProxyGroups.Group>, built: map<Name, Proxy>, p: Proxy, n: nat) {
    Leaf(p) || exists j: nat :: IsProxyOf(hs, built, p, j) && j < n
  }

  lemma {:induction false} ProvidedAreLeaves(c: Setting, use: seq<Name>)
    requires WellFormed(c) && forall u :: u in use ==> u in c.configured
    ensures forall p :: p in Provided(c.configured, use) ==> Leaf(p)
  {
    if use != [] {
      assert forall u :: u in use[..|use| - 1] ==> u in use;
      ProvidedAreLeaves(c, use[..|use| - 1]);
    }
  }

  lemma EarlierRanks(hs: seq<ProxyGroups.Group>, built: map<Name, Proxy>, i: nat, m: Name)
    requires DependencyOrdered(hs) && i < |hs| && m in hs[i].proxies && m in GroupNames(hs) && m in built
    ensures Ranked(hs, built, built[m], i)
  {
    EarlierInOrder(hs, i, m);
    var g :| g in hs[..i] && g.name == m;
    var j: nat :| j < i && hs[..i][j] == g;
    assert IsProxyOf(hs, built, built[m], j);
  }

  lemma ListedRanks(hs: seq<ProxyGroups.Group>, c: Setting, built: map<Name, Proxy>, i: nat, m: Name)
    requires WellFormed(c) && DependencyOrdered(hs) && Named(hs, c, built)
    requires i < |hs| && Defined(c, hs[i], GroupNames(hs)) && m in Listed(c, hs[i])
    ensures m in built && Ranked(hs, built, built[m], i)
  {
    ListedOnly(c, hs[i]);
    if m !in c.plain {
      EarlierRanks(hs, built, i, m);
    }
  }

  lemma NodeMembers(c: Setting, g: ProxyGroups.Group, built: map<Name, Proxy>, q: Proxy)
    requires WellFormed(c) && Found(c, g, built, c.configured) && q in NodeOf(c, g, built, c.configured).members
    ensures Leaf(q) || q == built[FallbackOf(g)] || exists m :: m in Listed(c, g) && q == built[m]
  {
    ProvidedAreLeaves(c, UseOf(c, g));
    var lookup := Lookup(built, Listed(c, g));
    if q in lookup {
      var k :| 0 <= k < |lookup| && lookup[k] == q;
      assert Listed(c, g)[k] in Listed(c, g);
    }
  }

  /** Every member of a group's node is a leaf or the node of an earlier group. */
  lemma MemberRanks(hs: seq<ProxyGroups.Group>, c: Setting, built: map<Name, Proxy>, i: nat, q: Proxy)
    requires SortedAndBuilt(hs, c, built) && i < |hs| && hs[i].name in built && q in built[hs[i].name].members
    ensures Ranked(hs, built, q, i)
  {
    var g := hs[i];
    assert g in hs && GroupBuild.Node(c, g, built) && Defined(c, g, GroupNames(hs));
    NodeMembers(c, g, built, q);
    if !Leaf(q) && q != built[FallbackOf(g)] {
      var m :| m in Listed(c, g) && q == built[m];
      ListedRanks(hs, c, built, i, m);
    }
  }

  /** Unwrapping the proxy of the group at position i leaves the groups or leads to the proxy
      of a group that the sort placed earlier. */
  lemma UnwrapDescends(w: World, hs: seq<ProxyGroups.Group>, c: Setting, built: map<Name, Proxy>, i: nat, m: Meta)
    requires Sane(w) && SortedAndBuilt(hs, c, built) && i < |hs| && hs[i].name in built
    requires w.unwrap(built[hs[i].name], m).Some?
    ensures Ranked(hs, built, w.unwrap(built[hs[i].name], m).value, i)
  {
    MemberRanks(hs, c, built, i, w.unwrap(built[hs[i].name], m).value);
  }

  ghost predicate StrictlyDown(ps: seq<nat>, n: nat) {
    && (forall k :: 0 <= k < |ps| ==> ps[k] < n)
    && (forall k, l :: 0 <= k < l < |ps| ==> ps[l] < ps[k])
  }

  lemma {:induction false} DownIsShort(ps: seq<nat>, n: nat)
    requires StrictlyDown(ps, n)
    ensures |ps| <= n
    decreases |ps|
  {
    if ps != [] {
      DownIsShort(ps[1..], ps[0]);
    }
  }

  /** The chain visits groups at the positions ps, and nothing after them but one leaf. */
  ghost predicate Visits(hs: seq<ProxyGroups.Group>, built: map<Name, Proxy>, chain: seq<Proxy>, ps: seq<nat>) {
    && |ps| <= |chain| <= |ps| + 1
    && (forall k :: 0 <= k < |ps| ==> IsProxyOf(hs, built, chain[k], ps[k]))
    && (|chain| == |ps| + 1 ==> Leaf(chain[|ps|]))
  }

  lemma VisitsMore(hs: seq<ProxyGroups.Group>, built: map<Name, Proxy>, chain: seq<Proxy>, ps: seq<nat>,
                   p: Proxy, j: nat, n: nat)
    requires Visits(hs, built, chain, ps) && StrictlyDown(ps, j) && IsProxyOf(hs, built, p, j) && j < n
    ensures Visits(hs, built, [p] + chain, [j] + ps) && StrictlyDown([j] + ps, n)
  {
  }

  ghost predicate Descends(w: World, hs: seq<ProxyGroups.Group>, built: map<Name, Proxy>, m: Meta) {
    forall i: nat :: i < |hs| && hs[i].name in built && w.unwrap(built[hs[i].name], m).Some? ==>
      Ranked(hs, built, w.unwrap(built[hs[i].name], m).value, i)
  }

  lemma {:induction false} PositionsOfChain(w: World, hs: seq<ProxyGroups.Group>, built: map<Name, Proxy>,
                                            p: Proxy, m: Meta, n: nat)
    returns (ps: seq<nat>)
    requires Sane(w) && Descends(w, hs, built, m) && Ranked(hs, built, p, n)
    ensures Visits(hs, built, Chain(w, p, m), ps) && StrictlyDown(ps, n)
    decreases p
  {
    var next := w.unwrap(p, m);
    if Leaf(p) {
      ps := [];
    } else {
      var j: nat :| IsProxyOf(hs, built, p, j) && j < n;
      if next.Some? {
        assert next.value in p.members;
        var rest := PositionsOfChain(w, hs, built, next.value, m, j);
        VisitsMore(hs, built, Chain(w, next.value, m), rest, p, j, n);
        ps := [j] + rest;
      } else {
        ps := [j];
      }
    }
  }

  /** Every unwrap chain, of a rule's adapter or in the PASS-RULE check, passes groups in
      strictly descending order of the sort and then at most one proxy that is no group. */
  lemma ChainDescends(w: World, hs: seq<ProxyGroups.Group>, c: Setting, built: map<Name, Proxy>, p: Proxy,
                      m: Meta, n: nat)
    returns (ps: seq<nat>)
    requires Sane(w) && SortedAndBuilt(hs, c, built) && Ranked(hs, built, p, n)
    ensures Visits(hs, built, Chain(w, p, m), ps) && StrictlyDown(ps, n)
    ensures |Chain(w, p, m)| <= n + 1
  {
    assert Descends(w, hs, built, m) by {
      forall i: nat | i < |hs| && hs[i].name in built && w.unwrap(built[hs[i].name], m).Some?
        ensures Ranked(hs, built, w.unwrap(built[hs[i].name], m).value, i)
      {
        UnwrapDescends(w, hs, c, built, i, m);
      }
    }
    ps := PositionsOfChain(w, hs, built, p, m, n);
    DownIsShort(ps, n);
  }

  lemma BuiltRanks(hs: seq<ProxyGroups.Group>, c: Setting, built: map<Name, Proxy>, n: Name)
    requires SortedAndBuilt(hs, c, built) && n in built
    ensures Ranked(hs, built, built[n], |hs|)
  {
    if n !in c.plain {
      var g :| g in hs && g.name == n;
      var j: nat :| j < |hs| && hs[j] == g;
      assert IsProxyOf(hs, built, built[n], j);
    }
  }

  /** So a chain that starts at a configured name, or at the GLOBAL selector over all of
      them, is at most as long as there are groups, and one or two more. */
  lemma ChainsAreShort(w: World, hs: seq<ProxyGroups.Group>, c: Setting, built: map<Name, Proxy>, global: Proxy,
                       m: Meta)
    requires Sane(w) && SortedAndBuilt(hs, c, built)
    requires forall q :: q in global.members ==> exists n :: n in built && q == built[n]
    ensures forall n :: n in built ==> |Chain(w, built[n], m)| <= |hs| + 1
    ensures |Chain(w, global, m)| <= |hs| + 2
  {
    forall n | n in built ensures |Chain(w, built[n], m)| <= |hs| + 1 {
      BuiltRanks(hs, c, built, n);
      var _ := ChainDescends(w, hs, c, built, built[n], m, |hs|);
    }
  }
}

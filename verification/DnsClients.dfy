/** Sharing raw DNS transports between name servers (dns/resolver.go, cacheTransform and
    the two equalities; dns/util.go, transform, rewrapClient and the wrap functions). */
module DnsClients {
  import opened Common

  type Params = map<string, string>

  /** A proxy adapter value. Comparing two adapters of one non-comparable dynamic type
      panics; the equalities below catch the panic and answer false. */
  datatype Adapter = NoAdapter | Comparable(id: int) | NonComparable(kind: int, id: int)

  datatype NameServer = NameServer(net: string, addr: string, adapter: Adapter, proxyName: string,
                                   params: Params, preferH3: bool)

  // ----- params that only concern the wrappers -----

  predicate HasPrefix(s: string, prefix: string) {
    prefix <= s
  }

  predicate IsDisableTypesParam(key: string) {
    key == "disable-ipv4" || key == "disable-ipv6" || HasPrefix(key, "disable-qtype-")
  }

  predicate IsEdns0SubnetParam(key: string) {
    key == "ecs" || key == "ecs-override"
  }

  predicate IsWrapperOnlyParam(key: string) {
    IsDisableTypesParam(key) || IsEdns0SubnetParam(key)
  }

  /** What is left for the transport. */
  function TransportParams(params: Params): Params {
    map k | k in params && !IsWrapperOnlyParam(k) :: params[k]
  }

  // ----- the two equalities -----

  predicate SameAdapter(a: Adapter, b: Adapter) {
    a == b && !a.NonComparable?
  }

  predicate Equal(a: NameServer, b: NameServer) {
    && a.net == b.net && a.addr == b.addr && SameAdapter(a.adapter, b.adapter)
    && a.proxyName == b.proxyName && a.params == b.params && a.preferH3 == b.preferH3
  }

  predicate ParamsIncluded(a: Params, b: Params) {
    forall k :: k in a && !IsWrapperOnlyParam(k) ==> k in b && b[k] == a[k]
  }

  predicate TransportEqual(a: NameServer, b: NameServer) {
    && a.net == b.net && a.addr == b.addr && SameAdapter(a.adapter, b.adapter)
    && a.proxyName == b.proxyName && a.preferH3 == b.preferH3
    && ParamsIncluded(a.params, b.params) && ParamsIncluded(b.params, a.params)
  }

  // ----- clients -----

  datatype Prefix = Prefix(addr: int, bits: nat)

  datatype HttpVersions = DefaultVersions | DefaultAndH3 | OnlyH3

  /** The constructor transform selects, with the settings it makes of the whole server. */
  datatype Transport =
    | DoT(addr: string, skipCertVerify: bool, nameCertVerify: string, disableReuse: bool,
          adapter: Adapter, proxyName: string)
    | DoH(addr: string, versions: HttpVersions, skipCertVerify: bool,
          nameCertVerify: string, adapter: Adapter, proxyName: string)
    | Dhcp(addr: string)
    | System
    | Tailscale(addr: string)
    | EasyTier(addr: string)
    | RCode(addr: string)
    | DoQ(addr: string, skipCertVerify: bool, nameCertVerify: string, adapter: Adapter, proxyName: string)
    | Classic(addr: string, tcp: bool, adapter: Adapter, proxyName: string)

  function Get(params: Params, key: string): string {
    if key in params then params[key] else ""
  }

  const H3 := "h3"
  const SKIP_CERT_VERIFY := "skip-cert-verify"
  const NAME_CERT_VERIFY := "name-cert-verify"
  const DISABLE_REUSE := "disable-reuse"

  function TransportOf(s: NameServer): Transport {
    var skip, name := Get(s.params, SKIP_CERT_VERIFY) == "true", Get(s.params, NAME_CERT_VERIFY);
    if s.net == "tls" then DoT(s.addr, skip, name, Get(s.params, DISABLE_REUSE) == "true", s.adapter, s.proxyName)
    else if s.net == "https" then
      var versions :=
        if Get(s.params, H3) == "true" then OnlyH3 else if s.preferH3 then DefaultAndH3 else DefaultVersions;
      DoH(s.addr, versions, skip, name, s.adapter, s.proxyName)
    else if s.net == "dhcp" then Dhcp(s.addr)
    else if s.net == "system" then System
    else if s.net == "tailscale" then Tailscale(s.addr)
    else if s.net == "easytier" then EasyTier(s.addr)
    else if s.net == "rcode" then RCode(s.addr)
    else if s.net == "quic" then DoQ(s.addr, skip, name, s.adapter, s.proxyName)
    else Classic(s.addr, HasPrefix(s.net, "tcp"), s.adapter, s.proxyName)
  }

  /** A raw transport client (id tells the built objects apart) under wrapper layers. */
  datatype Client =
    | Raw(id: nat, transport: Transport)
    | WithEdns0Subnet(inner: Client, prefix: Prefix, overrides: bool)
    | WithDisableTypes(inner: Client, types: set<nat>)

  /** The parsers the wrappers use: an ecs value as an address prefix, and the rest of a
      disable-qtype- key as a known record type. */
  datatype Parsers = Parsers(ecs: string -> Option<Prefix>, qType: string -> Option<nat>)

  const TYPE_A: nat := 1
  const TYPE_AAAA: nat := 28
  const QTYPE_PREFIX := "disable-qtype-"

  function EcsPrefix(ps: Parsers, params: Params): Option<Prefix> {
    if Get(params, "ecs") != "" then ps.ecs(Get(params, "ecs")) else None
  }

  function WrapEdns0Subnet(ps: Parsers, c: Client, params: Params): Client {
    match EcsPrefix(ps, params)
    case Some(prefix) => WithEdns0Subnet(c, prefix, Get(params, "ecs-override") == "true")
    case None => c
  }

  function DisabledTypes(ps: Parsers, params: Params): set<nat> {
    (if Get(params, "disable-ipv4") == "true" then {TYPE_A} else {})
    + (if Get(params, "disable-ipv6") == "true" then {TYPE_AAAA} else {})
    + set key | key in params && HasPrefix(key, QTYPE_PREFIX) && params[key] == "true"
                && ps.qType(key[|QTYPE_PREFIX|..]).Some? :: ps.qType(key[|QTYPE_PREFIX|..]).value
  }

  function WrapDisableTypes(ps: Parsers, c: Client, params: Params): Client {
    var types := DisabledTypes(ps, params);
    if types != {} then WithDisableTypes(c, types) else c
  }

  function Peel(c: Client): Client {
    if c.Raw? then c else Peel(c.inner)
  }

  function Rewrap(ps: Parsers, c: Client, params: Params): Client {
    WrapDisableTypes(ps, WrapEdns0Subnet(ps, Peel(c), params), params)
  }

  /** The peeling loop of rewrapClient. */
  method RewrapClient(ps: Parsers, c: Client, params: Params) returns (r: Client)
    ensures r == Rewrap(ps, c, params)
  {
    var raw := c;
    while !raw.Raw?
      invariant Peel(raw) == Peel(c)
      decreases raw
    {
      raw := raw.inner;
    }
    return WrapDisableTypes(ps, WrapEdns0Subnet(ps, raw, params), params);
  }

  /** What transform builds for one server. */
  function Transform(ps: Parsers, s: NameServer, id: nat): Client {
    Rewrap(ps, Raw(id, TransportOf(s)), s.params)
  }

  // ----- what the equalities mean -----

  /** Inclusion both ways is equality of everything the transport sees. */
  lemma ParamsEqualBothWays(a: Params, b: Params)
    ensures ParamsIncluded(a, b) && ParamsIncluded(b, a) <==> TransportParams(a) == TransportParams(b)
  {
    var x, y := TransportParams(a), TransportParams(b);
    if x == y {
      forall k | k in a && !IsWrapperOnlyParam(k) ensures k in b && b[k] == a[k] { assert k in x; }
      forall k | k in b && !IsWrapperOnlyParam(k) ensures k in a && b[k] == a[k] { assert k in y; }
    }
    if ParamsIncluded(a, b) && ParamsIncluded(b, a) {
      assert forall k :: k in x <==> k in y;
    }
  }

  /** transportEqual is symmetric and transitive; it is reflexive exactly on comparable adapters. */
  lemma TransportEqualIsEquivalence(a: NameServer, b: NameServer, c: NameServer)
    ensures TransportEqual(a, b) ==> TransportEqual(b, a)
    ensures TransportEqual(a, b) && TransportEqual(b, c) ==> TransportEqual(a, c)
    ensures TransportEqual(a, a) <==> !a.adapter.NonComparable?
  {
    ParamsEqualBothWays(a.params, b.params);
    ParamsEqualBothWays(b.params, c.params);
    ParamsEqualBothWays(a.params, c.params);
  }

  /** No constructor reads a param that is for the wrappers only. */
  lemma TransportKeysAreNotWrapperOnly(key: string)
    requires key == H3 || key == SKIP_CERT_VERIFY || key == NAME_CERT_VERIFY || key == DISABLE_REUSE
    ensures !IsWrapperOnlyParam(key)
  {
    assert QTYPE_PREFIX[0] == 'd' && |QTYPE_PREFIX| == 14 && |DISABLE_REUSE| == 13;
    assert key == DISABLE_REUSE || key[0] != 'd';
  }

  lemma GetTransportParam(params: Params, key: string)
    requires !IsWrapperOnlyParam(key)
    ensures Get(TransportParams(params), key) == Get(params, key)
  {
  }

  /** Wrapper params do not reach the transport: without them the same one is built. */
  lemma WrapperParamsStayOutside(s: NameServer)
    ensures TransportOf(s.(params := TransportParams(s.params))) == TransportOf(s)
  {
    forall key | key == H3 || key == SKIP_CERT_VERIFY || key == NAME_CERT_VERIFY || key == DISABLE_REUSE
      ensures Get(TransportParams(s.params), key) == Get(s.params, key)
    {
      TransportKeysAreNotWrapperOnly(key);
      GetTransportParam(s.params, key);
    }
  }

  /** Servers that may share a transport would be given the same one. */
  lemma TransportEqualBuildsTheSame(a: NameServer, b: NameServer)
    requires TransportEqual(a, b)
    ensures TransportOf(a) == TransportOf(b)
  {
    ParamsEqualBothWays(a.params, b.params);
    WrapperParamsStayOutside(a);
    WrapperParamsStayOutside(b);
  }

  lemma EqualIsFiner(a: NameServer, b: NameServer)
    ensures Equal(a, b) <==> a == b && TransportEqual(a, b)
  {
  }

  lemma {:induction false} PeelIsRaw(c: Client)
    ensures Peel(c).Raw? && Peel(Peel(c)) == Peel(c)
  {
    if !c.Raw? {
      PeelIsRaw(c.inner);
    }
  }

  lemma PeelRewrap(ps: Parsers, c: Client, params: Params)
    ensures Peel(Rewrap(ps, c, params)) == Peel(c)
  {
    PeelIsRaw(c);
  }

  /** Rewrapping twice is rewrapping once. */
  lemma RewrapForgets(ps: Parsers, c: Client, p: Params, q: Params)
    ensures Rewrap(ps, Rewrap(ps, c, p), q) == Rewrap(ps, c, q)
  {
    PeelRewrap(ps, c, p);
  }

  // ----- clients and sharing told from the params -----

  ghost predicate Says(params: Params, key: string, value: string) {
    key in params && params[key] == value
  }

  /** The kind of transport a scheme selects, and which settings of the server it takes. */
  ghost predicate TransportTold(s: NameServer, t: Transport) {
    && (t.DoT? <==> s.net == "tls") && (t.DoH? <==> s.net == "https") && (t.DoQ? <==> s.net == "quic")
    && (t.Dhcp? <==> s.net == "dhcp") && (t.System? <==> s.net == "system") && (t.RCode? <==> s.net == "rcode")
    && (t.Tailscale? <==> s.net == "tailscale") && (t.EasyTier? <==> s.net == "easytier")
    && (!t.System? ==> t.addr == s.addr)
    && (t.DoT? || t.DoH? || t.DoQ? || t.Classic? ==> t.adapter == s.adapter && t.proxyName == s.proxyName)
    && (t.DoT? || t.DoH? || t.DoQ? ==>
         && (t.skipCertVerify <==> Says(s.params, "skip-cert-verify", "true"))
         && t.nameCertVerify == (if "name-cert-verify" in s.params then s.params["name-cert-verify"] else ""))
    && (t.DoT? ==> (t.disableReuse <==> Says(s.params, "disable-reuse", "true")))
    && (t.DoH? ==>
         && (t.versions.OnlyH3? <==> Says(s.params, "h3", "true"))
         && (t.versions.DefaultAndH3? <==> s.preferH3 && !Says(s.params, "h3", "true")))
    && (t.Classic? ==> (t.tcp <==> "tcp" <= s.net))
  }

  /** The params have records of type t dropped. */
  ghost predicate Drops(ps: Parsers, params: Params, t: nat) {
    || (t == 1 && Says(params, "disable-ipv4", "true"))
    || (t == 28 && Says(params, "disable-ipv6", "true"))
    || exists key :: Says(params, key, "true") && "disable-qtype-" <= key && ps.qType(key[14..]) == Some(t)
  }

  ghost predicate AsksForSubnet(ps: Parsers, params: Params) {
    "ecs" in params && params["ecs"] != "" && ps.ecs(params["ecs"]).Some?
  }

  /** A raw transport; above it the subnet layer if an ecs is given that parses; above that
      the layer that drops record types, if there are any to drop. */
  ghost predicate ClientTold(ps: Parsers, s: NameServer, c: Client) {
    var below := if c.WithDisableTypes? then c.inner else c;
    var raw := if below.WithEdns0Subnet? then below.inner else below;
    && raw.Raw? && TransportTold(s, raw.transport)
    && (forall t: nat :: Drops(ps, s.params, t) <==> c.WithDisableTypes? && t in c.types)
    && (c.WithDisableTypes? ==> c.types != {})
    && (below.WithEdns0Subnet? <==> AsksForSubnet(ps, s.params))
    && (below.WithEdns0Subnet? ==>
         && ps.ecs(s.params["ecs"]) == Some(below.prefix)
         && (below.overrides <==> Says(s.params, "ecs-override", "true")))
  }

  /** Two servers that differ in nothing but what the wrappers read. */
  ghost predicate MayShare(a: NameServer, b: NameServer) {
    && a.net == b.net && a.addr == b.addr && a.proxyName == b.proxyName && a.preferH3 == b.preferH3
    && a.adapter == b.adapter && !a.adapter.NonComparable?
    && forall k :: (k in a.params || k in b.params)
                   && k != "ecs" && k != "ecs-override" && k != "disable-ipv4" && k != "disable-ipv6"
                   && !("disable-qtype-" <= k) ==>
      k in a.params && k in b.params && a.params[k] == b.params[k]
  }

  lemma TransportIsTold(s: NameServer)
    ensures TransportTold(s, TransportOf(s))
  {
  }

  lemma DroppedTold(ps: Parsers, params: Params, t: nat)
    ensures t in DisabledTypes(ps, params) <==> Drops(ps, params, t)
  {
    assert |QTYPE_PREFIX| == 14;
    if exists key :: Says(params, key, "true") && "disable-qtype-" <= key && ps.qType(key[14..]) == Some(t) {
      var key :| Says(params, key, "true") && "disable-qtype-" <= key && ps.qType(key[14..]) == Some(t);
      assert HasPrefix(key, QTYPE_PREFIX);
    }
  }

  /** What transform builds is told by the server. */
  lemma TransformIsTold(ps: Parsers, s: NameServer, id: nat)
    ensures ClientTold(ps, s, Transform(ps, s, id))
  {
    TransportIsTold(s);
    forall t: nat ensures t in DisabledTypes(ps, s.params) <==> Drops(ps, s.params, t) {
      DroppedTold(ps, s.params, t);
    }
  }

  lemma TransportEqualTold(a: NameServer, b: NameServer)
    ensures TransportEqual(a, b) <==> MayShare(a, b)
  {
  }

  // ----- the cache -----

  datatype Entry = Entry(server: NameServer, client: Client)

  ghost function RawOf(e: Entry): Client {
    Peel(e.client)
  }

  /** The entry's client is, up to which object carries it, what transform would have built
      for its server alone. */
  ghost predicate BuiltAsAlone(ps: Parsers, e: Entry, built: nat) {
    && RawOf(e).Raw? && RawOf(e).id < built
    && e.client == Transform(ps, e.server, RawOf(e).id)
  }

  ghost predicate NewClass(es: seq<Entry>, s: NameServer) {
    forall i :: 0 <= i < |es| ==> !TransportEqual(es[i].server, s)
  }

  /** How many servers were not transportEqual to any server before them. */
  ghost function Classes(es: seq<Entry>): nat {
    if es == [] then 0
    else Classes(es[..|es| - 1]) + if NewClass(es[..|es| - 1], es[|es| - 1].server) then 1 else 0
  }

  /** Two answers share their raw transport exactly when their servers are transportEqual. */
  ghost predicate SharedExactly(es: seq<Entry>) {
    forall i, j :: 0 <= i < j < |es| ==>
      (RawOf(es[i]).Raw? && RawOf(es[j]).Raw? && RawOf(es[i]).id == RawOf(es[j]).id
       <==> TransportEqual(es[i].server, es[j].server))
  }

  ghost predicate Sound(ps: Parsers, es: seq<Entry>, built: nat) {
    && (forall i :: 0 <= i < |es| ==> BuiltAsAlone(ps, es[i], built))
    && SharedExactly(es)
    && built == Classes(es)
  }

  ghost predicate Shares(e: Entry, f: Entry) {
    RawOf(e).Raw? && RawOf(f).Raw? && RawOf(e).id == RawOf(f).id
  }

  lemma Extend(ps: Parsers, es: seq<Entry>, built: nat, e: Entry)
    requires Sound(ps, es, built)
    requires BuiltAsAlone(ps, e, if NewClass(es, e.server) then built + 1 else built)
    requires forall i :: 0 <= i < |es| ==> (Shares(es[i], e) <==> TransportEqual(es[i].server, e.server))
    ensures Sound(ps, es + [e], if NewClass(es, e.server) then built + 1 else built)
  {
    var es' := es + [e];
    assert es'[..|es|] == es;
    forall i | 0 <= i < |es'| ensures BuiltAsAlone(ps, es'[i], if NewClass(es, e.server) then built + 1 else built) {
      if i < |es| {
        assert BuiltAsAlone(ps, es[i], built);
      }
    }
    forall i, j | 0 <= i < j < |es'| ensures Shares(es'[i], es'[j]) <==> TransportEqual(es'[i].server, es'[j].server) {
      if j < |es| {
        assert es'[i] == es[i] && es'[j] == es[j];
      }
    }
  }

  /** Rewrapping an answer for a transportEqual server gives what transform would build on
      the same raw transport. */
  lemma ReuseBuildsAsAlone(ps: Parsers, e: Entry, built: nat, s: NameServer)
    requires BuiltAsAlone(ps, e, built) && TransportEqual(e.server, s)
    ensures Rewrap(ps, e.client, s.params) == Transform(ps, s, RawOf(e).id)
    ensures Peel(Rewrap(ps, e.client, s.params)) == RawOf(e)
  {
    var raw := Raw(RawOf(e).id, TransportOf(s));
    TransportEqualBuildsTheSame(e.server, s);
    RewrapForgets(ps, raw, e.server.params, s.params);
    PeelRewrap(ps, e.client, s.params);
  }

  lemma SharingCarriesOver(ps: Parsers, es: seq<Entry>, built: nat, k: nat, i: nat, s: NameServer)
    requires Sound(ps, es, built) && k < |es| && i < |es| && TransportEqual(es[k].server, s)
    ensures Shares(es[i], es[k]) <==> TransportEqual(es[i].server, s)
  {
    TransportEqualIsEquivalence(es[i].server, es[k].server, s);
    TransportEqualIsEquivalence(es[k].server, s, es[i].server);
    TransportEqualIsEquivalence(s, es[i].server, es[k].server);
    TransportEqualIsEquivalence(es[i].server, s, es[k].server);
    if i < k {
      assert Shares(es[i], es[k]) <==> TransportEqual(es[i].server, es[k].server);
    } else if k < i {
      assert Shares(es[k], es[i]) <==> TransportEqual(es[k].server, es[i].server);
    } else {
      assert BuiltAsAlone(ps, es[k], built);
    }
  }

  /** Reusing the transport of an earlier answer for a transportEqual server. */
  lemma ReuseKeeps(ps: Parsers, es: seq<Entry>, built: nat, k: nat, s: NameServer)
    requires Sound(ps, es, built) && k < |es| && TransportEqual(es[k].server, s)
    ensures Sound(ps, es + [Entry(s, Rewrap(ps, es[k].client, s.params))], built)
  {
    var e := Entry(s, Rewrap(ps, es[k].client, s.params));
    assert BuiltAsAlone(ps, es[k], built);
    ReuseBuildsAsAlone(ps, es[k], built, s);
    forall i: nat | i < |es| ensures Shares(es[i], e) <==> TransportEqual(es[i].server, s) {
      SharingCarriesOver(ps, es, built, k, i, s);
    }
    Extend(ps, es, built, e);
  }

  /** For an equal server the reused client is the earlier one itself. */
  lemma ExactKeeps(ps: Parsers, es: seq<Entry>, built: nat, k: nat, s: NameServer)
    requires Sound(ps, es, built) && k < |es| && Equal(es[k].server, s)
    ensures Sound(ps, es + [Entry(s, es[k].client)], built)
  {
    EqualIsFiner(es[k].server, s);
    assert BuiltAsAlone(ps, es[k], built);
    ReuseBuildsAsAlone(ps, es[k], built, s);
    ReuseKeeps(ps, es, built, k, s);
  }

  lemma BuildKeeps(ps: Parsers, es: seq<Entry>, built: nat, s: NameServer)
    requires Sound(ps, es, built) && NewClass(es, s)
    ensures Sound(ps, es + [Entry(s, Transform(ps, s, built))], built + 1)
  {
    var e := Entry(s, Transform(ps, s, built));
    PeelRewrap(ps, Raw(built, TransportOf(s)), s.params);
    forall i | 0 <= i < |es| ensures !Shares(es[i], e) {
      assert BuiltAsAlone(ps, es[i], built);
    }
    Extend(ps, es, built, e);
  }

  ghost predicate SameEntries(es: seq<Entry>, fs: seq<Entry>) {
    forall e :: e in es <==> e in fs
  }

  ghost function Pair(servers: seq<NameServer>, clients: seq<Client>): seq<Entry>
    requires |servers| == |clients|
  {
    seq(|servers|, i requires 0 <= i < |servers| => Entry(servers[i], clients[i]))
  }

  lemma PairGrows(before: seq<Entry>, servers: seq<NameServer>, clients: seq<Client>, i: nat, c: Client)
    requires i < |servers| && |clients| == i
    ensures before + Pair(servers[..i + 1], clients + [c]) ==
      before + Pair(servers[..i], clients) + [Entry(servers[i], c)]
  {
    assert Pair(servers[..i + 1], clients + [c]) == Pair(servers[..i], clients) + [Entry(servers[i], c)];
  }

  /** What the cache must tell: every answer given so far, and nothing else. */
  ghost predicate Remembers(ps: Parsers, cache: seq<Entry>, answers: seq<Entry>, built: nat) {
    Sound(ps, answers, built) && SameEntries(cache, answers)
  }

  ghost predicate HasEqual(cache: seq<Entry>, ns: NameServer, c: Client) {
    exists e :: e in cache && e.client == c && Equal(e.server, ns)
  }

  ghost predicate HasTransport(cache: seq<Entry>, ns: NameServer, c: Client) {
    exists e :: e in cache && e.client == c && TransportEqual(e.server, ns)
  }

  ghost predicate HasNoTransport(cache: seq<Entry>, ns: NameServer) {
    forall e :: e in cache ==> !TransportEqual(e.server, ns)
  }

  ghost predicate TransportAt(cache: seq<Entry>, ns: NameServer, c: Client, k: nat) {
    k < |cache| && cache[k].client == c && TransportEqual(cache[k].server, ns) && HasNoTransport(cache[..k], ns)
  }

  ghost predicate FirstTransport(cache: seq<Entry>, ns: NameServer, c: Client) {
    exists k :: TransportAt(cache, ns, c, k)
  }

  ghost predicate HasNoEqual(cache: seq<Entry>, ns: NameServer) {
    forall e :: e in cache ==> !Equal(e.server, ns)
  }

  lemma ExactAnswer(ps: Parsers, cache: seq<Entry>, answers: seq<Entry>, built: nat, ns: NameServer, c: Client)
    requires Remembers(ps, cache, answers, built) && HasEqual(cache, ns, c)
    ensures Remembers(ps, cache, answers + [Entry(ns, c)], built)
  {
    var e :| e in cache && e.client == c && Equal(e.server, ns);
    var k :| 0 <= k < |answers| && answers[k] == e;
    ExactKeeps(ps, answers, built, k, ns);
    EqualIsFiner(e.server, ns);
    assert e == Entry(ns, c);
  }

  lemma EqualHasTransport(cache: seq<Entry>, ns: NameServer, c: Client)
    requires HasEqual(cache, ns, c)
    ensures !HasNoEqual(cache, ns) && !HasNoTransport(cache, ns)
  {
    var e :| e in cache && e.client == c && Equal(e.server, ns);
    EqualIsFiner(e.server, ns);
  }

  lemma ReusedAnswer(ps: Parsers, cache: seq<Entry>, answers: seq<Entry>, built: nat, ns: NameServer, dc: Client)
    requires Remembers(ps, cache, answers, built) && HasTransport(cache, ns, dc)
    ensures var e := Entry(ns, Rewrap(ps, dc, ns.params));
      Remembers(ps, cache + [e], answers + [e], built)
  {
    var e :| e in cache && e.client == dc && TransportEqual(e.server, ns);
    var k :| 0 <= k < |answers| && answers[k] == e;
    ReuseKeeps(ps, answers, built, k, ns);
  }

  lemma BuiltAnswer(ps: Parsers, cache: seq<Entry>, answers: seq<Entry>, built: nat, ns: NameServer)
    requires Remembers(ps, cache, answers, built) && HasNoTransport(cache, ns)
    ensures var e := Entry(ns, Transform(ps, ns, built));
      Remembers(ps, cache + [e], answers + [e], built + 1)
  {
    forall i | 0 <= i < |answers| ensures !TransportEqual(answers[i].server, ns) {
      assert answers[i] in answers;
    }
    BuildKeeps(ps, answers, built, ns);
  }

  // ----- what a caller gets -----

  /** The client without the identity of its raw transport. */
  ghost function Anonymous(c: Client): Client {
    match c
    case Raw(_, t) => Raw(0, t)
    case WithEdns0Subnet(inner, p, o) => WithEdns0Subnet(Anonymous(inner), p, o)
    case WithDisableTypes(inner, ts) => WithDisableTypes(Anonymous(inner), ts)
  }

  lemma AnonymousTransform(ps: Parsers, s: NameServer, i: nat, j: nat)
    ensures Anonymous(Transform(ps, s, i)) == Anonymous(Transform(ps, s, j))
  {
    var a := WrapEdns0Subnet(ps, Raw(i, TransportOf(s)), s.params);
    var b := WrapEdns0Subnet(ps, Raw(j, TransportOf(s)), s.params);
    assert Anonymous(a) == Anonymous(b);
    assert Anonymous(WrapDisableTypes(ps, a, s.params)) == Anonymous(WrapDisableTypes(ps, b, s.params));
  }

  lemma RawTransport(ps: Parsers, e: Entry, built: nat)
    requires BuiltAsAlone(ps, e, built)
    ensures RawOf(e) == Raw(RawOf(e).id, TransportOf(e.server))
  {
    PeelRewrap(ps, Raw(RawOf(e).id, TransportOf(e.server)), e.server.params);
  }

  /** Whatever was asked before: every answer is, layer by layer and setting by setting,
      the client transform builds for that server alone; two answers sit on one raw
      transport exactly when their servers are transportEqual; and no transport was built
      beyond one per class of transportEqual servers. */
  lemma SharingIsInvisible(ps: Parsers, answers: seq<Entry>, built: nat)
    requires Sound(ps, answers, built)
    ensures forall i :: 0 <= i < |answers| ==>
      Anonymous(answers[i].client) == Anonymous(Transform(ps, answers[i].server, 0))
    ensures forall i, j :: 0 <= i < j < |answers| ==>
      (Peel(answers[i].client) == Peel(answers[j].client) <==> TransportEqual(answers[i].server, answers[j].server))
    ensures built == Classes(answers)
  {
    forall i | 0 <= i < |answers|
      ensures Anonymous(answers[i].client) == Anonymous(Transform(ps, answers[i].server, 0))
    {
      assert BuiltAsAlone(ps, answers[i], built);
      AnonymousTransform(ps, answers[i].server, RawOf(answers[i]).id, 0);
    }
    forall i, j | 0 <= i < j < |answers|
      ensures Peel(answers[i].client) == Peel(answers[j].client) <==>
        TransportEqual(answers[i].server, answers[j].server)
    {
      assert BuiltAsAlone(ps, answers[i], built) && BuiltAsAlone(ps, answers[j], built);
      assert Shares(answers[i], answers[j]) <==> TransportEqual(answers[i].server, answers[j].server);
      RawTransport(ps, answers[i], built);
      RawTransport(ps, answers[j], built);
      if TransportEqual(answers[i].server, answers[j].server) {
        TransportEqualBuildsTheSame(answers[i].server, answers[j].server);
      }
    }
  }

  /** A server whose adapter cannot be compared never shares, not even with itself. */
  lemma NonComparableNeverShares(ps: Parsers, answers: seq<Entry>, built: nat, i: nat, j: nat)
    requires Sound(ps, answers, built) && i < j < |answers|
    requires answers[i].server.adapter.NonComparable? || answers[j].server.adapter.NonComparable?
    ensures Peel(answers[i].client) != Peel(answers[j].client)
  {
    SharingIsInvisible(ps, answers, built);
  }

  lemma AnswerIsTold(ps: Parsers, e: Entry, built: nat)
    requires BuiltAsAlone(ps, e, built)
    ensures ClientTold(ps, e.server, e.client)
    ensures Peel(e.client).Raw? && TransportTold(e.server, Peel(e.client).transport)
  {
    TransformIsTold(ps, e.server, RawOf(e).id);
    RawTransport(ps, e, built);
    TransportIsTold(e.server);
  }

  /** Every client handed out is told by the params of its server, whatever was asked before;
      two of them sit on one raw transport exactly when their servers differ in nothing but
      what the wrappers read. */
  lemma AnswersAreTold(ps: Parsers, before: seq<Entry>, servers: seq<NameServer>, clients: seq<Client>, built: nat)
    requires |servers| == |clients| && Sound(ps, before + Pair(servers, clients), built)
    ensures forall i :: 0 <= i < |clients| ==> ClientTold(ps, servers[i], clients[i])
    ensures forall i :: 0 <= i < |clients| ==>
      Peel(clients[i]).Raw? && TransportTold(servers[i], Peel(clients[i]).transport)
    ensures forall i, j :: 0 <= i < j < |clients| ==>
      (Peel(clients[i]) == Peel(clients[j]) <==> MayShare(servers[i], servers[j]))
  {
    var answers := before + Pair(servers, clients);
    forall i | 0 <= i < |clients|
      ensures answers[|before| + i] == Entry(servers[i], clients[i])
      ensures ClientTold(ps, servers[i], clients[i])
      ensures Peel(clients[i]).Raw? && TransportTold(servers[i], Peel(clients[i]).transport)
    {
      AnswerIsTold(ps, answers[|before| + i], built);
    }
    SharingIsInvisible(ps, answers, built);
    forall i, j | 0 <= i < j < |clients|
      ensures Peel(clients[i]) == Peel(clients[j]) <==> MayShare(servers[i], servers[j])
    {
      assert answers[|before| + i] == Entry(servers[i], clients[i]);
      assert answers[|before| + j] == Entry(servers[j], clients[j]);
      TransportEqualTold(servers[i], servers[j]);
    }
  }

  // ----- the code -----

  /** cacheTransform with the cache it captures. */
  class ClientFactory {
    const parsers: Parsers
    var cache: seq<Entry>
    var built: nat              // raw transports constructed so far
    ghost var answers: seq<Entry>  // every server asked for, with the client handed out

    ghost predicate Valid()
      reads this
    {
      Remembers(parsers, cache, answers, built)
    }

    constructor (parsers: Parsers)
      ensures Valid() && answers == [] && built == 0
    {
      this.parsers := parsers;
      cache, built, answers := [], 0, [];
    }

    /** The scan of the cache: an equal server wins wherever it stands, otherwise the first
        transportEqual one. */
    method Scan(ns: NameServer) returns (exact: Option<Client>, dc: Option<Client>)
      ensures exact.Some? ==> HasEqual(cache, ns, exact.value)
      ensures exact.None? ==> HasNoEqual(cache, ns)
      ensures exact.None? && dc.Some? ==> FirstTransport(cache, ns, dc.value)
      ensures exact.None? && dc.None? ==> HasNoTransport(cache, ns)
    {
      dc := None;
      for i := 0 to |cache|
        invariant forall j :: 0 <= j < i ==> !Equal(cache[j].server, ns)
        invariant dc.Some? ==> FirstTransport(cache, ns, dc.value)
        invariant dc.None? ==> HasNoTransport(cache[..i], ns)
      {
        var nsc := cache[i];
        assert cache[..i + 1] == cache[..i] + [nsc];
        if Equal(nsc.server, ns) {
          assert nsc in cache;
          return Some(nsc.client), dc;
        }
        if dc.None? && TransportEqual(nsc.server, ns) {
          dc := Some(nsc.client);
          assert TransportAt(cache, ns, nsc.client, i);
        }
      }
      assert cache[..|cache|] == cache;
      return None, dc;
    }

    /** One server: the very client of an equal server if there is one; otherwise rewrapped on
        the transport of a transportEqual one, or built. */
    method ClientFor(ns: NameServer) returns (c: Client)
      requires Valid()
      modifies this
      ensures Valid() && answers == old(answers) + [Entry(ns, c)]
      ensures HasEqual(old(cache), ns, c) || HasNoEqual(old(cache), ns)
      ensures !HasNoEqual(old(cache), ns) ==> cache == old(cache)
      ensures built == old(built) + if HasNoTransport(old(cache), ns) then 1 else 0
    {
      var exact, dc := Scan(ns);
      if exact.Some? {
        c := exact.value;
        ExactAnswer(parsers, cache, answers, built, ns, c);
        EqualHasTransport(cache, ns, c);
        answers := answers + [Entry(ns, c)];
        return;
      }
      if dc.Some? {
        assert HasTransport(cache, ns, dc.value);
        ReusedAnswer(parsers, cache, answers, built, ns, dc.value);
        c := RewrapClient(parsers, dc.value, ns.params);
      } else {
        BuiltAnswer(parsers, cache, answers, built, ns);
        c := RewrapClient(parsers, Raw(built, TransportOf(ns)), ns.params);
        built := built + 1;
      }
      cache := cache + [Entry(ns, c)];
      answers := answers + [Entry(ns, c)];
    }

    /** One client per name server, in order. */
    method CacheTransform(nameserver: seq<NameServer>) returns (result: seq<Client>)
      requires Valid()
      modifies this
      ensures Valid() && |result| == |nameserver|
      ensures answers == old(answers) + Pair(nameserver, result)
      ensures forall i :: 0 <= i < |result| ==> ClientTold(parsers, nameserver[i], result[i])
      ensures forall i :: 0 <= i < |result| ==>
        Peel(result[i]).Raw? && TransportTold(nameserver[i], Peel(result[i]).transport)
      ensures forall i, j :: 0 <= i < j < |result| ==>
        (Peel(result[i]) == Peel(result[j]) <==> MayShare(nameserver[i], nameserver[j]))
    {
      result := [];
      for i := 0 to |nameserver|
        invariant Valid() && |result| == i
        invariant answers == old(answers) + Pair(nameserver[..i], result)
      {
        var c := ClientFor(nameserver[i]);
        PairGrows(old(answers), nameserver, result, i, c);
        result := result + [c];
      }
      assert nameserver[..|nameserver|] == nameserver;
      AnswersAreTold(parsers, old(answers), nameserver, result, built);
    }
  }
}

/** TTLs of cached DNS replies (dns/util.go, minimalTTL, updateTTL, setMsgTTL, putMsgToCache;
    dns/resolver.go, the cache-hit path): uint32 arithmetic with wrap-around and clamping. */
module DnsTtl {
  import opened Common

  const TWO32: int := 0x1_0000_0000

  newtype uint32 = x: int | 0 <= x < TWO32

  const TYPE_TXT: nat := 16
  const TYPE_OPT: nat := 41
  const SERVER_FAILURE: nat := 2
  const SERVER_FAILURE_CACHE_TTL: uint32 := 5
  const SECOND: int := 1_000_000_000
  const ACME_PREFIX := "_acme-challenge."

  /** A resource record header; `data` is everything TTL handling leaves alone. */
  datatype Record = Record(rrtype: nat, ttl: uint32, data: int)

  datatype Message = Message(rcode: nat, answer: seq<Record>, ns: seq<Record>, extra: seq<Record>)

  datatype Question = Question(name: string, qtype: nat)

  /** A cached reply and the instant (in nanoseconds) at which it expires; both stores keep
      whole seconds only. */
  datatype Cached = Cached(msg: Message, expire: int)

  /** Subtraction on uint32 wraps around. */
  function Sub(a: uint32, b: uint32): uint32 {
    ((a as int - b as int) % TWO32) as uint32
  }

  /** lo.Clamp: the lower bound is tested first. */
  function Clamp(value: uint32, low: uint32, high: uint32): uint32 {
    if value < low then low else if value > high then high else value
  }

  function Max(a: int, b: int): int {
    if a < b then b else a
  }

  // ----- minimalTTL -----

  /** The least TTL of the records, 0 if there are none. */
  ghost function Low(records: seq<Record>): uint32 {
    if records == [] then 0
    else if |records| == 1 then records[0].ttl
    else
      var t := Low(records[..|records| - 1]);
      if records[|records| - 1].ttl < t then records[|records| - 1].ttl else t
  }

  lemma {:induction false} LowIsLeast(records: seq<Record>)
    ensures forall i :: 0 <= i < |records| ==> Low(records) <= records[i].ttl
    ensures records != [] ==> exists i :: 0 <= i < |records| && records[i].ttl == Low(records)
  {
    if |records| > 1 {
      var init := records[..|records| - 1];
      LowIsLeast(init);
      forall i | 0 <= i < |records| ensures Low(records) <= records[i].ttl {
        if i < |init| { assert init[i] == records[i]; }
      }
      var k :| 0 <= k < |init| && init[k].ttl == Low(init);
      assert records[if records[|records| - 1].ttl < Low(init) then |records| - 1 else k].ttl == Low(records);
    } else if |records| == 1 {
      assert records[0].ttl == Low(records);
    }
  }

  lemma LowUnique(records: seq<Record>, t: uint32, k: nat)
    requires k < |records| && records[k].ttl == t
    requires forall i :: 0 <= i < |records| ==> t <= records[i].ttl
    ensures Low(records) == t
  {
    LowIsLeast(records);
  }

  method MinimalTTL(records: seq<Record>) returns (t: uint32)
    ensures t == Low(records)
  {
    if records == [] {
      return 0;
    }
    t := records[0].ttl;
    for i := 1 to |records|
      invariant t == Low(records[..i])
    {
      assert records[..i + 1][..i] == records[..i];
      if records[i].ttl < t {
        t := records[i].ttl;
      }
    }
    assert records[..|records|] == records;
  }

  // ----- updateTTL and setMsgTTL -----

  ghost function Lowered(r: Record, delta: uint32): Record {
    r.(ttl := Clamp(Sub(r.ttl, delta), 1, r.ttl))
  }

  /** What updateTTL makes of a section. */
  ghost function UpdateSection(records: seq<Record>, ttl: uint32): seq<Record> {
    seq(|records|, i requires 0 <= i < |records| => Lowered(records[i], Sub(Low(records), ttl)))
  }

  /** Lower all TTLs, in place, by the amount that brings the least one to ttl. */
  method UpdateTTL(records: array<Record>, ttl: uint32)
    modifies records
    ensures records[..] == UpdateSection(old(records[..]), ttl)
  {
    if records.Length == 0 {
      return;
    }
    var low := MinimalTTL(records[..]);
    var delta := Sub(low, ttl);
    for i := 0 to records.Length
      invariant forall j :: 0 <= j < i ==> records[j] == Lowered(old(records[j]), delta)
      invariant forall j :: i <= j < records.Length ==> records[j] == old(records[j])
    {
      var r := records[i];
      records[i] := r.(ttl := Clamp(Sub(r.ttl, delta), 1, r.ttl));
    }
  }

  ghost function SetSection(records: seq<Record>, ttl: uint32, skipOpt: bool): seq<Record> {
    seq(|records|, i requires 0 <= i < |records| =>
      if skipOpt && records[i].rrtype == TYPE_OPT then records[i] else records[i].(ttl := ttl))
  }

  /** One loop of setMsgTTL; in the additional section OPT records are left alone, since
      their TTL field is not a TTL (section 6.1.1 of RFC 6891). */
  method SetTTL(records: array<Record>, ttl: uint32, skipOpt: bool)
    modifies records
    ensures records[..] == SetSection(old(records[..]), ttl, skipOpt)
  {
    for i := 0 to records.Length
      invariant forall j :: 0 <= j < i ==> records[j] == SetSection(old(records[..]), ttl, skipOpt)[j]
      invariant forall j :: i <= j < records.Length ==> records[j] == old(records[j])
    {
      if !(skipOpt && records[i].rrtype == TYPE_OPT) {
        records[i] := records[i].(ttl := ttl);
      }
    }
  }

  // ----- putting and serving -----

  ghost function WithoutOpt(records: seq<Record>): seq<Record> {
    if records == [] then []
    else
      var r := records[|records| - 1];
      WithoutOpt(records[..|records| - 1]) + if r.rrtype != TYPE_OPT then [r] else []
  }

  predicate IsAcmeChallenge(q: Question) {
    q.qtype == TYPE_TXT && ACME_PREFIX <= q.name
  }

  ghost function Storable(msg: Message): Message {
    msg.(extra := WithoutOpt(msg.extra))
  }

  ghost function StoredTTL(msg: Message): uint32 {
    if msg.rcode == SERVER_FAILURE then SERVER_FAILURE_CACHE_TTL
    else Low(Storable(msg).answer + Storable(msg).ns + Storable(msg).extra)
  }

  /** What time.Unix makes of Time.Unix: the instant without its fraction of a second. */
  function WholeSeconds(instant: int): int {
    instant / SECOND * SECOND
  }

  /** What putMsgToCache stores for msg at time now, if anything. */
  ghost function ToCache(q: Question, msg: Message, now: int): Option<Cached> {
    if IsAcmeChallenge(q) || StoredTTL(msg) == 0 then None
    else Some(Cached(Storable(msg), WholeSeconds(now + StoredTTL(msg) as int * SECOND)))
  }

  /** Whole seconds until the entry expires. */
  function Remaining(c: Cached, now: int): int {
    (c.expire - now) / SECOND
  }

  /** What a cache hit answers at time now. */
  ghost function FromCache(c: Cached, now: int): Message
    requires Remaining(c, now) < TWO32
  {
    if c.expire < now then
      Message(c.msg.rcode, SetSection(c.msg.answer, 1, false), SetSection(c.msg.ns, 1, false),
              SetSection(c.msg.extra, 1, true))
    else
      var ttl := Remaining(c, now) as uint32;
      Message(c.msg.rcode, UpdateSection(c.msg.answer, ttl), UpdateSection(c.msg.ns, ttl),
              UpdateSection(c.msg.extra, ttl))
  }

  method FilterOpt(records: seq<Record>) returns (kept: seq<Record>)
    ensures kept == WithoutOpt(records)
  {
    kept := [];
    for i := 0 to |records|
      invariant kept == WithoutOpt(records[..i])
    {
      assert records[..i + 1][..i] == records[..i];
      if records[i].rrtype != TYPE_OPT {
        kept := kept + [records[i]];
      }
    }
    assert records[..|records|] == records;
  }

  method Mutable(records: seq<Record>) returns (a: array<Record>)
    ensures fresh(a) && a[..] == records
  {
    a := new Record[|records|](i requires 0 <= i < |records| => records[i]);
  }

  /** The reply cache. The clock never runs backwards. */
  class Cache {
    var entries: map<Question, Cached>
    var clock: int

    ghost predicate Valid()
      reads this
    {
      forall q :: q in entries ==> entries[q].expire <= clock + (TWO32 - 1) * SECOND
    }

    constructor (now: int)
      ensures Valid() && entries == map[] && clock == now
    {
      entries, clock := map[], now;
    }

    method Put(q: Question, msg: Message, now: int)
      requires Valid() && clock <= now
      modifies this
      ensures Valid() && clock == now
      ensures entries == match ToCache(q, msg, now)
                         case Some(c) => old(entries)[q := c]
                         case None => old(entries)
    {
      clock := now;
      if IsAcmeChallenge(q) {
        return;
      }
      var extra := FilterOpt(msg.extra);
      var ttl: uint32;
      if msg.rcode == SERVER_FAILURE {
        ttl := SERVER_FAILURE_CACHE_TTL;
      } else {
        ttl := MinimalTTL(msg.answer + msg.ns + extra);
      }
      if ttl == 0 {
        return;
      }
      entries := entries[q := Cached(msg.(extra := extra), WholeSeconds(now + ttl as int * SECOND))];
    }

    /** A hit: the reply with its TTLs adjusted, and whether a background refresh starts. */
    method Serve(q: Question, now: int) returns (reply: Option<Message>, continueFetch: bool)
      requires Valid() && clock <= now
      modifies this`clock
      ensures Valid() && clock == now
      ensures q !in entries ==> reply.None?
      ensures q in entries ==> Remaining(entries[q], now) < TWO32 && reply == Some(FromCache(entries[q], now))
      ensures continueFetch <==> q in entries && entries[q].expire < now
    {
      clock := now;
      if q !in entries {
        return None, false;
      }
      var c := entries[q];
      var answer := Mutable(c.msg.answer);
      var ns := Mutable(c.msg.ns);
      var extra := Mutable(c.msg.extra);
      if c.expire < now {
        SetTTL(answer, 1, false);
        SetTTL(ns, 1, false);
        SetTTL(extra, 1, true);
        continueFetch := true;
      } else {
        var ttl := ((c.expire - now) / SECOND) as uint32;
        UpdateTTL(answer, ttl);
        UpdateTTL(ns, ttl);
        UpdateTTL(extra, ttl);
        continueFetch := false;
      }
      reply := Some(Message(c.msg.rcode, answer[..], ns[..], extra[..]));
    }
  }

  // ----- what a client sees -----

  ghost predicate AgedRecord(original: Record, served: Record, drop: int) {
    && served == original.(ttl := served.ttl)
    && served.ttl as int == Max(1, original.ttl as int - drop)
  }

  /** Served is original with every TTL lowered by one common amount, at least `elapsed`
      seconds, down to 1, such that the section's least TTL becomes `remaining`. */
  ghost predicate Aged(original: seq<Record>, served: seq<Record>, elapsed: int, remaining: int) {
    && |served| == |original|
    && (original != [] ==> elapsed <= Low(original) as int - remaining)
    && forall i :: 0 <= i < |original| ==> AgedRecord(original[i], served[i], Low(original) as int - remaining)
  }

  lemma SubWraps(a: uint32, b: uint32)
    ensures Sub(a, b) as int == if a >= b then a as int - b as int else a as int - b as int + TWO32
  {
  }

  /** The new TTL of one record, by how far the target lies from the section's least TTL. */
  lemma LoweredExact(ttl: uint32, low: uint32, target: uint32)
    requires low <= ttl
    ensures
      Clamp(Sub(ttl, Sub(low, target)), 1, ttl) as int ==
        if ttl == 0 then (if target == 0 then 1 else 0)
        else if target <= low then Max(1, ttl as int - (low as int - target as int))
        else if ttl as int + (target as int - low as int) < TWO32 then ttl as int
        else Max(1, ttl as int + (target as int - low as int) - TWO32)
  {
    SubWraps(low, target);
    SubWraps(ttl, Sub(low, target));
  }

  /** No wrap-around happens as long as the target does not exceed the section's least TTL. */
  lemma LoweredBy(records: seq<Record>, ttl: uint32, i: nat)
    requires i < |records| && ttl <= Low(records) && records[i].ttl >= 1
    ensures UpdateSection(records, ttl)[i].ttl as int
      == Max(1, records[i].ttl as int - (Low(records) as int - ttl as int))
  {
    LowIsLeast(records);
    LoweredExact(records[i].ttl, Low(records), ttl);
  }

  lemma SectionAges(records: seq<Record>, total: uint32, remaining: uint32)
    requires remaining <= total && total >= 1
    requires forall i :: 0 <= i < |records| ==> total <= records[i].ttl
    ensures Aged(records, UpdateSection(records, remaining), total as int - remaining as int, remaining as int)
  {
    LowIsLeast(records);
    forall i: nat | i < |records|
      ensures AgedRecord(records[i], UpdateSection(records, remaining)[i], Low(records) as int - remaining as int)
    {
      LoweredBy(records, remaining, i);
    }
  }

  /** What ageing means to a client: TTLs stay positive and have dropped by the elapsed time,
      the least is the time left (at least 1), and distances inside the section are kept
      while there is time left. */
  lemma AgedMeans(original: seq<Record>, served: seq<Record>, elapsed: int, remaining: int)
    requires Aged(original, served, elapsed, remaining)
    ensures forall i :: 0 <= i < |original| ==>
      1 <= served[i].ttl as int <= Max(1, original[i].ttl as int - elapsed)
    ensures original != [] ==> Low(served) as int == Max(1, remaining)
    ensures remaining >= 1 ==> forall i, j :: 0 <= i < |original| && 0 <= j < |original| ==>
      served[i].ttl as int - served[j].ttl as int == original[i].ttl as int - original[j].ttl as int
  {
    var drop := Low(original) as int - remaining;
    LowIsLeast(original);
    assert forall i :: 0 <= i < |original| ==> AgedRecord(original[i], served[i], drop);
    if original != [] {
      var k :| 0 <= k < |original| && original[k].ttl == Low(original);
      assert AgedRecord(original[k], served[k], drop);
      LowUnique(served, served[k].ttl, k);
    }
  }

  lemma LowOfParts(a: seq<Record>, b: seq<Record>, c: seq<Record>)
    ensures forall r :: r in a || r in b || r in c ==> Low(a + b + c) <= r.ttl
  {
    LowIsLeast(a + b + c);
    forall r | r in a || r in b || r in c ensures Low(a + b + c) <= r.ttl {
      assert r in a + b + c;
    }
  }

  lemma {:induction false} WithoutOptHasNone(records: seq<Record>)
    ensures forall r :: r in WithoutOpt(records) <==> r in records && r.rrtype != TYPE_OPT
  {
    if records != [] {
      assert records == records[..|records| - 1] + [records[|records| - 1]];
      WithoutOptHasNone(records[..|records| - 1]);
    }
  }

  /** The places of the records that are kept: exactly those of other types, in order. */
  ghost predicate KeptAt(records: seq<Record>, kept: seq<Record>, at: seq<nat>) {
    && |at| == |kept|
    && (forall k :: 0 <= k < |at| ==> at[k] < |records| && kept[k] == records[at[k]])
    && (forall k, l :: 0 <= k < l < |at| ==> at[k] < at[l])
    && (forall i: nat :: i in at <==> i < |records| && records[i].rrtype != 41)
  }

  lemma OneKept(records: seq<Record>, kept: seq<Record>, at: seq<nat>, r: Record)
    requires KeptAt(records, kept, at) && r.rrtype != 41
    ensures KeptAt(records + [r], kept + [r], at + [|records|])
  {
    var n := |records|;
    forall i: nat ensures i in at + [n] <==> i in at || i == n { }
    forall k | 0 <= k < |at| ensures at[k] < n { assert at[k] in at; }
  }

  lemma OneRemoved(records: seq<Record>, kept: seq<Record>, at: seq<nat>, r: Record)
    requires KeptAt(records, kept, at) && r.rrtype == 41
    ensures KeptAt(records + [r], kept, at)
  {
  }

  /** Nothing but the OPT records is taken out. */
  lemma {:induction false} OnlyOptRemoved(records: seq<Record>) returns (at: seq<nat>)
    ensures KeptAt(records, WithoutOpt(records), at)
  {
    at := [];
    if records != [] {
      var init, r := records[..|records| - 1], records[|records| - 1];
      at := OnlyOptRemoved(init);
      assert records == init + [r];
      if r.rrtype != TYPE_OPT {
        OneKept(init, WithoutOpt(init), at, r);
        at := at + [|init|];
      } else {
        OneRemoved(init, WithoutOpt(init), at, r);
        assert WithoutOpt(records) == WithoutOpt(init);
      }
    }
  }

  /** A record that a reply keeps in the cache, whose TTL therefore counts. */
  ghost predicate Counts(msg: Message, r: Record) {
    r in msg.answer || r in msg.ns || (r in msg.extra && r.rrtype != 41)
  }

  ghost predicate LeastTTL(msg: Message, ttl: uint32) {
    (exists r :: Counts(msg, r) && r.ttl == ttl) && forall r :: Counts(msg, r) ==> ttl <= r.ttl
  }

  /** A server failure is kept five seconds, another reply for its least TTL, counted from the
      second that now falls in. */
  ghost predicate StoredFor(msg: Message, now: int, expire: int) {
    if msg.rcode == 2 then expire == (now / 1_000_000_000 + 5) * 1_000_000_000
    else exists ttl: uint32 :: LeastTTL(msg, ttl) && expire == (now / 1_000_000_000 + ttl as int) * 1_000_000_000
  }

  lemma StoredLeast(msg: Message)
    requires msg.rcode != SERVER_FAILURE
    ensures StoredTTL(msg) != 0 ==> LeastTTL(msg, StoredTTL(msg))
    ensures StoredTTL(msg) == 0 <==> (forall r :: !Counts(msg, r)) || exists r :: Counts(msg, r) && r.ttl == 0
  {
    var records := msg.answer + msg.ns + WithoutOpt(msg.extra);
    WithoutOptHasNone(msg.extra);
    assert forall r :: r in records <==> Counts(msg, r);
    LowIsLeast(records);
    assert records != [] ==> Counts(msg, records[0]);
  }

  lemma WholeTTL(now: int, ttl: int)
    ensures WholeSeconds(now + ttl * SECOND) == (now / SECOND + ttl) * SECOND
  {
  }

  /** What is put into the cache: no challenge record and no reply without a positive least TTL;
      of every other reply all but the OPT records. */
  lemma StoredTold(q: Question, msg: Message, now: int)
    ensures ToCache(q, msg, now).None? <==>
      || (q.qtype == 16 && "_acme-challenge." <= q.name)
      || (msg.rcode != 2 && ((forall r :: !Counts(msg, r)) || exists r :: Counts(msg, r) && r.ttl == 0))
    ensures ToCache(q, msg, now).Some? ==>
      var c := ToCache(q, msg, now).value;
      c.msg == msg.(extra := WithoutOpt(msg.extra)) && StoredFor(msg, now, c.expire)
  {
    WholeTTL(now, StoredTTL(msg) as int);
    if msg.rcode != SERVER_FAILURE {
      StoredLeast(msg);
    }
  }

  lemma SectionsAge(a: seq<Record>, b: seq<Record>, c: seq<Record>, remaining: uint32)
    requires Low(a + b + c) >= 1 && remaining <= Low(a + b + c)
    ensures var elapsed := Low(a + b + c) as int - remaining as int;
      && Aged(a, UpdateSection(a, remaining), elapsed, remaining as int)
      && Aged(b, UpdateSection(b, remaining), elapsed, remaining as int)
      && Aged(c, UpdateSection(c, remaining), elapsed, remaining as int)
  {
    LowOfParts(a, b, c);
    SectionAges(a, Low(a + b + c), remaining);
    SectionAges(b, Low(a + b + c), remaining);
    SectionAges(c, Low(a + b + c), remaining);
  }

  /** Seconds from t0 to t1, rounded up. */
  ghost function Elapsed(t0: int, t1: int): int {
    (t1 - t0 + SECOND - 1) / SECOND
  }

  /** What the cache takes for them: from the second t0 falls in to the next full one at t1. */
  ghost function Passed(t0: int, t1: int): int {
    (t1 + SECOND - 1) / SECOND - t0 / SECOND
  }

  /** The cache counts the seconds elapsed or one more. */
  lemma PassedOrOneMore(t0: int, t1: int)
    ensures Elapsed(t0, t1) <= Passed(t0, t1) <= Elapsed(t0, t1) + 1
  {
    var a, r := t0 / SECOND, t0 % SECOND;
    assert t1 - t0 + SECOND - 1 == (t1 + SECOND - 1) - a * SECOND - r;
  }

  lemma WholeRemaining(whole: int, t1: int)
    ensures (whole * SECOND - t1) / SECOND == whole - (t1 + SECOND - 1) / SECOND
  {
  }

  /** The seconds left are those stored less those that passed: the entry goes stale up to a
      second before its TTL is over, and never after. */
  lemma FreshTiming(q: Question, msg: Message, t0: int, t1: int)
    requires ToCache(q, msg, t0).Some? && t0 <= t1
    ensures
      var c := ToCache(q, msg, t0).value;
      var ttl := StoredTTL(msg) as int;
      && Remaining(c, t1) == ttl - Passed(t0, t1)
      && ttl - Elapsed(t0, t1) - 1 <= Remaining(c, t1) <= ttl - Elapsed(t0, t1)
      && (t1 <= c.expire <==> Passed(t0, t1) <= ttl)
      && Remaining(c, t1) * 1_000_000_000 <= c.expire - t1 < (Remaining(c, t1) + 1) * 1_000_000_000
      && t0 + ttl * SECOND - SECOND < c.expire <= t0 + ttl * SECOND
  {
    var ttl := StoredTTL(msg) as int;
    WholeTTL(t0, ttl);
    WholeRemaining(t0 / SECOND + ttl, t1);
    PassedOrOneMore(t0, t1);
  }

  lemma NoOptServed(records: seq<Record>, ttl: uint32)
    ensures forall r :: r in UpdateSection(WithoutOpt(records), ttl) ==> r.rrtype != TYPE_OPT
  {
    WithoutOptHasNone(records);
    var kept := WithoutOpt(records);
    assert forall i :: 0 <= i < |kept| ==> kept[i] in kept;
  }

  /** A reply other than a server failure, stored at t0 and served at t1 before it expires:
      every section has aged by the seconds that passed, and no OPT record is left. */
  lemma FreshReply(q: Question, msg: Message, t0: int, t1: int)
    requires ToCache(q, msg, t0).Some? && msg.rcode != SERVER_FAILURE
    requires t0 <= t1 <= ToCache(q, msg, t0).value.expire
    ensures
      var c := ToCache(q, msg, t0).value;
      && 0 <= Remaining(c, t1) == StoredTTL(msg) as int - Passed(t0, t1) < TWO32
      && var reply := FromCache(c, t1);
      && reply.rcode == msg.rcode
      && Aged(msg.answer, reply.answer, Passed(t0, t1), Remaining(c, t1))
      && Aged(msg.ns, reply.ns, Passed(t0, t1), Remaining(c, t1))
      && Aged(WithoutOpt(msg.extra), reply.extra, Passed(t0, t1), Remaining(c, t1))
      && forall r :: r in reply.extra ==> r.rrtype != TYPE_OPT
  {
    FreshTiming(q, msg, t0, t1);
    var remaining := Remaining(ToCache(q, msg, t0).value, t1) as uint32;
    SectionsAge(msg.answer, msg.ns, WithoutOpt(msg.extra), remaining);
    NoOptServed(msg.extra, remaining);
  }

  /** A server failure is kept five seconds whatever its TTLs, so the target may exceed a
      section's least TTL and the difference wraps. Then TTLs stay as they are, except those
      so large that raising them passes 2^32: they fall to the remainder. */
  lemma ServerFailureExact(records: seq<Record>, remaining: uint32, i: nat)
    requires i < |records|
    ensures
      var original := records[i].ttl as int;
      var low := Low(records) as int;
      var served := UpdateSection(records, remaining)[i].ttl as int;
      served ==
        if original == 0 then (if remaining == 0 then 1 else 0)
        else if remaining as int <= low then Max(1, original - (low - remaining as int))
        else if original + (remaining as int - low) < TWO32 then original
        else Max(1, original + (remaining as int - low) - TWO32)
  {
    assert UpdateSection(records, remaining)[i].ttl
        == Clamp(Sub(records[i].ttl, Sub(Low(records), remaining)), 1, records[i].ttl);
    LowIsLeast(records);
    LoweredExact(records[i].ttl, Low(records), remaining);
  }

  /** A served TTL lies between 1 and its original exactly when the original is positive. */
  lemma ServerFailureBounds(records: seq<Record>, remaining: uint32, i: nat)
    requires i < |records| && remaining <= SERVER_FAILURE_CACHE_TTL
    ensures 1 <= UpdateSection(records, remaining)[i].ttl <= records[i].ttl <==> records[i].ttl >= 1
  {
    ServerFailureExact(records, remaining, i);
  }

  /** The same records in the same order but for their TTLs: each lies between 1 and the one
      its record came with, if that was positive; otherwise it does not. */
  ghost predicate NeverRaised(original: seq<Record>, served: seq<Record>) {
    && |served| == |original|
    && (forall i :: 0 <= i < |original| ==> served[i] == original[i].(ttl := served[i].ttl))
    && forall i :: 0 <= i < |original| ==> (1 <= served[i].ttl <= original[i].ttl <==> original[i].ttl >= 1)
  }

  lemma SectionNeverRaised(records: seq<Record>, remaining: uint32)
    requires remaining <= SERVER_FAILURE_CACHE_TTL
    ensures NeverRaised(records, UpdateSection(records, remaining))
  {
    forall i: nat | i < |records|
      ensures 1 <= UpdateSection(records, remaining)[i].ttl <= records[i].ttl <==> records[i].ttl >= 1
    {
      ServerFailureBounds(records, remaining, i);
    }
  }

  /** A server failure stored at t0 and served at t1 before it expires: the records come back,
      without OPT records, no TTL is raised, and positive ones stay positive. */
  lemma ServerFailureReply(q: Question, msg: Message, t0: int, t1: int)
    requires ToCache(q, msg, t0).Some? && msg.rcode == SERVER_FAILURE
    requires t0 <= t1 <= ToCache(q, msg, t0).value.expire
    ensures
      var c := ToCache(q, msg, t0).value;
      && 0 <= Remaining(c, t1) <= SERVER_FAILURE_CACHE_TTL as int
      && var reply := FromCache(c, t1);
      && reply.rcode == msg.rcode
      && NeverRaised(msg.answer, reply.answer) && NeverRaised(msg.ns, reply.ns)
      && NeverRaised(WithoutOpt(msg.extra), reply.extra)
  {
    FreshTiming(q, msg, t0, t1);
    var remaining := Remaining(ToCache(q, msg, t0).value, t1) as uint32;
    SectionNeverRaised(msg.answer, remaining);
    SectionNeverRaised(msg.ns, remaining);
    SectionNeverRaised(WithoutOpt(msg.extra), remaining);
  }

  /** The same records in the same order, all with one second left. */
  ghost predicate OneSecondLeft(original: seq<Record>, served: seq<Record>) {
    |served| == |original| && forall i :: 0 <= i < |original| ==> served[i] == original[i].(ttl := 1)
  }

  /** After expiry the reply is served section by section as it was stored, every TTL one second. */
  lemma StaleReply(q: Question, msg: Message, t0: int, t1: int)
    requires ToCache(q, msg, t0).Some? && t1 > ToCache(q, msg, t0).value.expire
    ensures
      var c := ToCache(q, msg, t0).value;
      && Remaining(c, t1) < TWO32
      && var reply := FromCache(c, t1);
      && reply.rcode == msg.rcode
      && OneSecondLeft(msg.answer, reply.answer) && OneSecondLeft(msg.ns, reply.ns)
      && OneSecondLeft(WithoutOpt(msg.extra), reply.extra)
  {
    WithoutOptHasNone(msg.extra);
    var c := ToCache(q, msg, t0).value;
    assert forall i :: 0 <= i < |c.msg.extra| ==> c.msg.extra[i] in c.msg.extra;
  }
}

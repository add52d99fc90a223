/** Pacing connections by memory headroom (core/admission.go): every admitted connection is
    charged its cost for a window; a new one is admitted only while the headroom above the
    floor covers all charged connections and itself. */
module Admission {
  const TWO_63: int := 0x8000_0000_0000_0000
  const TWO_64: int := 0x1_0000_0000_0000_0000

  type int64 = x: int | -TWO_63 <= x < TWO_63

  /** A reading of the clock, in nanoseconds. */
  type Time = int

  predicate Fits(x: int) {
    -TWO_63 <= x < TWO_63
  }

  // ----- Go's arithmetic -----

  function Wrap(x: int): (r: int64)
    ensures Fits(x) ==> r == x
    ensures exists k: int :: r == x + k * TWO_64
  {
    var m := x % TWO_64;
    assert m == x + (-(x / TWO_64)) * TWO_64;
    assert m - TWO_64 == x + (-(x / TWO_64) - 1) * TWO_64;
    if m < TWO_63 then m else m - TWO_64
  }

  function Magnitude(x: int): nat {
    if x < 0 then -x else x
  }

  /** Division truncates toward zero, and wraps for the one quotient that does not fit. */
  function Quotient(a: int64, b: int64): int64
    requires b != 0
  {
    var q := Magnitude(a) / Magnitude(b);
    Wrap(if (a < 0) == (b < 0) then q else -q)
  }

  /** time.Time.Sub saturates. */
  function Sub(a: Time, b: Time): int64 {
    if a - b < -TWO_63 then -TWO_63 else if a - b >= TWO_63 then TWO_63 - 1 else a - b
  }

  // ----- one call -----

  predicate Expired(window: int64, now: Time, t: Time) {
    Sub(now, t) >= window
  }

  /** The list without its leading expired entries. */
  function Survivors(recent: seq<Time>, window: int64, now: Time): seq<Time> {
    if recent != [] && Expired(window, now, recent[0]) then Survivors(recent[1..], window, now) else recent
  }

  predicate Admits(floor: int64, cost: int64, available: int64, charged: nat)
    requires cost != 0
  {
    charged < Quotient(Wrap(available - floor), cost)
  }

  class ConnectionAdmission {
    const floor: int64
    const cost: int64
    const window: int64
    var recent: array<Time>
    var count: nat             // the slice is recent[..count]

    ghost predicate Valid()
      reads this
    {
      count <= recent.Length
    }

    function Charged(): seq<Time>
      reads this, recent
      requires Valid()
    {
      recent[..count]
    }

    constructor (floor: int64, cost: int64, window: int64)
      ensures Valid() && Charged() == [] && fresh(recent)
      ensures this.floor == floor && this.cost == cost && this.window == window
    {
      this.floor, this.cost, this.window := floor, cost, window;
      recent, count := new Time[0], 0;
    }

    /** Moves what follows the first n entries to the front, in place. */
    method Compact(n: nat)
      requires Valid() && n <= count
      modifies recent, this`count
      ensures Valid() && count == old(count) - n
      ensures Charged() == old(Charged())[n..]
    {
      forall i | 0 <= i < count - n {
        recent[i] := recent[n + i];
      }
      count := count - n;
    }

    /** Adds an entry behind the others, in a longer array if this one is full. */
    method Append(t: Time)
      requires Valid()
      modifies this, recent
      ensures Valid() && Charged() == old(Charged()) + [t]
      ensures recent == old(recent) || fresh(recent)
    {
      if count == recent.Length {
        var grown := new Time[2 * count + 1];
        forall i | 0 <= i < count {
          grown[i] := recent[i];
        }
        recent := grown;
      }
      recent[count] := t;
      count := count + 1;
    }

    method Admit(available: int64, now: Time) returns (ok: bool)
      requires Valid() && cost != 0
      modifies this, recent
      ensures Valid() && (recent == old(recent) || fresh(recent))
      ensures ok == Admits(floor, cost, available, |Survivors(old(Charged()), window, now)|)
      ensures Charged() == Survivors(old(Charged()), window, now) + if ok then [now] else []
    {
      var expired := 0;
      ghost var before := Charged();
      while expired < count && Sub(now, recent[expired]) >= window
        invariant expired <= count && Charged() == before
        invariant Survivors(before, window, now) == Survivors(before[expired..], window, now)
      {
        assert before[expired] == recent[expired] && before[expired..][1..] == before[expired + 1..];
        expired := expired + 1;
      }
      assert before[expired..] != [] ==> before[expired..][0] == recent[expired];
      Compact(expired);
      if count >= Quotient(Wrap(available - floor), cost) {
        return false;
      }
      Append(now);
      return true;
    }
  }

  // ----- the headroom law -----

  /** The headroom above the floor covers what is charged and one more. */
  predicate Covered(floor: int64, cost: int64, available: int64, charged: nat) {
    floor + cost * (charged + 1) <= available
  }

  lemma MulAtLeast(x: int, y: int, b: int)
    requires x >= y && b >= 0
    ensures b * x >= b * y
  {
  }

  lemma DivCovers(a: nat, b: nat, n: nat)
    requires b > 0
    ensures n < a / b <==> b * (n + 1) <= a
    ensures a / b <= a
  {
    var q, r := a / b, a % b;
    assert a == b * q + r && 0 <= r < b;
    MulAtLeast(b, 1, q);
    if n < q { MulAtLeast(q, n + 1, b); } else { MulAtLeast(n, q, b); }
  }

  /** Truncated quotients compare like exact ones, also below zero. */
  lemma QuotientCovers(a: int64, b: int64, n: nat)
    requires b > 0
    ensures n < Quotient(a, b) <==> b * (n + 1) <= a
  {
    DivCovers(Magnitude(a), b, n);
    MulAtLeast(n + 1, 1, b);
    var q := Magnitude(a) / b;
    assert Fits(-q);
  }

  /** Without overflow of available - floor, a connection is admitted exactly if it is
      covered; below the floor none is. */
  lemma AdmitsExactlyIfCovered(floor: int64, cost: int64, available: int64, charged: nat)
    requires cost > 0 && Fits(available - floor)
    ensures Admits(floor, cost, available, charged) <==> Covered(floor, cost, available, charged)
    ensures available <= floor ==> !Admits(floor, cost, available, charged)
  {
    QuotientCovers(Wrap(available - floor), cost, charged);
    if available <= floor {
      MulAtLeast(charged + 1, 1, cost);
    }
  }

  /** The code agrees with the law at every number of charged connections. */
  ghost predicate FollowsLaw(floor: int64, cost: int64, available: int64)
    requires cost != 0
  {
    forall n: nat :: Admits(floor, cost, available, n) == Covered(floor, cost, available, n)
  }

  lemma WrapValue(d: int)
    requires -TWO_64 < d < TWO_64
    ensures Wrap(d) == if d < -TWO_63 then d + TWO_64 else if d < TWO_63 then d else d - TWO_64
  {
  }

  /** It does exactly if the difference fits in 64 bits, or wraps from below zero to less
      than one cost. */
  lemma LawHoldsExactly(floor: int64, cost: int64, available: int64)
    requires cost > 0
    ensures FollowsLaw(floor, cost, available) <==>
      Fits(available - floor) || available - floor < cost - TWO_64
  {
    var d := available - floor;
    WrapValue(d);
    if Fits(d) || d < cost - TWO_64 {
      forall n: nat ensures Admits(floor, cost, available, n) == Covered(floor, cost, available, n) {
        QuotientCovers(Wrap(d), cost, n);
        MulAtLeast(n + 1, 1, cost);
      }
    } else {
      QuotientCovers(Wrap(d), cost, 0);
      assert Admits(floor, cost, available, 0) != Covered(floor, cost, available, 0);
    }
  }

  // ----- all calls -----

  datatype Call = Call(available: int64, now: Time)

  datatype Settings = Settings(floor: int64, cost: int64, window: int64)

  /** The list after the calls and the times of all connections admitted so far. */
  datatype History = History(recent: seq<Time>, admitted: seq<Time>)

  function After(s: Settings, h: History, c: Call): History
    requires s.cost != 0
  {
    var left := Survivors(h.recent, s.window, c.now);
    if Admits(s.floor, s.cost, c.available, |left|) then History(left + [c.now], h.admitted + [c.now])
    else h.(recent := left)
  }

  function Replay(s: Settings, calls: seq<Call>): History
    requires s.cost != 0
  {
    if calls == [] then History([], []) else After(s, Replay(s, calls[..|calls| - 1]), calls[|calls| - 1])
  }

  /** The clock never goes back from one call to the next. */
  ghost predicate Steady(calls: seq<Call>) {
    forall i, j :: 0 <= i < j < |calls| ==> calls[i].now <= calls[j].now
  }

  /** The entries younger than the window. */
  function Younger(ts: seq<Time>, window: int64, now: Time): seq<Time> {
    if ts == [] then []
    else Younger(ts[..|ts| - 1], window, now) + if Expired(window, now, ts[|ts| - 1]) then [] else [ts[|ts| - 1]]
  }

  lemma {:induction false} YoungerOfFront(t: Time, ts: seq<Time>, window: int64, now: Time)
    ensures Younger([t] + ts, window, now) == (if Expired(window, now, t) then [] else [t]) + Younger(ts, window, now)
  {
    if ts == [] {
      assert [t] + ts == [t] && [t][..0] == [];
    } else {
      assert ([t] + ts)[..|ts|] == [t] + ts[..|ts| - 1];
      YoungerOfFront(t, ts[..|ts| - 1], window, now);
    }
  }

  ghost predicate NoneExpired(ts: seq<Time>, window: int64, now: Time) {
    forall i :: 0 <= i < |ts| ==> !Expired(window, now, ts[i])
  }

  lemma {:induction false} YoungerAtMost(ts: seq<Time>, window: int64, now: Time)
    ensures |Younger(ts, window, now)| <= |ts|
    ensures |Younger(ts, window, now)| == |ts| <==> NoneExpired(ts, window, now)
    ensures NoneExpired(ts, window, now) ==> Younger(ts, window, now) == ts
  {
    if ts != [] {
      var init, last := ts[..|ts| - 1], ts[|ts| - 1];
      YoungerAtMost(init, window, now);
      assert ts == init + [last];
      if Expired(window, now, last) {
        assert !NoneExpired(ts, window, now);
      } else {
        assert NoneExpired(ts, window, now) <==> NoneExpired(init, window, now);
      }
    }
  }

  /** No expired entry stands behind one that is not. */
  ghost predicate ExpiredFirst(ts: seq<Time>, window: int64, now: Time) {
    forall i, j :: 0 <= i < j < |ts| && Expired(window, now, ts[j]) ==> Expired(window, now, ts[i])
  }

  /** A list that begins with a young entry is its young entries exactly if it has no others. */
  lemma YoungHead(ts: seq<Time>, window: int64, now: Time)
    requires ts != [] ==> !Expired(window, now, ts[0])
    ensures ts == Younger(ts, window, now) <==> ExpiredFirst(ts, window, now)
  {
    YoungerAtMost(ts, window, now);
    if ExpiredFirst(ts, window, now) {
      forall i | 0 <= i < |ts| ensures !Expired(window, now, ts[i]) { }
      assert NoneExpired(ts, window, now);
    }
  }

  lemma ExpiredHead(ts: seq<Time>, window: int64, now: Time)
    requires ts != [] && Expired(window, now, ts[0])
    ensures ExpiredFirst(ts, window, now) <==> ExpiredFirst(ts[1..], window, now)
  {
    var rest := ts[1..];
    if ExpiredFirst(ts, window, now) {
      forall i, j | 0 <= i < j < |rest| && Expired(window, now, rest[j]) ensures Expired(window, now, rest[i]) {
        assert rest[i] == ts[i + 1] && rest[j] == ts[j + 1];
      }
    }
    if ExpiredFirst(rest, window, now) {
      forall i, j | 0 <= i < j < |ts| && Expired(window, now, ts[j]) ensures Expired(window, now, ts[i]) {
        assert rest[j - 1] == ts[j] && (i > 0 ==> rest[i - 1] == ts[i]);
      }
    }
  }

  /** The loop stops at the first entry that is not expired. It never drops a younger one, and
      leaves exactly the younger ones if and only if the expired entries come first. */
  lemma {:induction false} LoopFilters(ts: seq<Time>, window: int64, now: Time)
    ensures Younger(Survivors(ts, window, now), window, now) == Younger(ts, window, now)
    ensures Survivors(ts, window, now) == Younger(ts, window, now) <==> ExpiredFirst(ts, window, now)
  {
    if ts != [] && Expired(window, now, ts[0]) {
      LoopFilters(ts[1..], window, now);
      assert ts == [ts[0]] + ts[1..];
      YoungerOfFront(ts[0], ts[1..], window, now);
      ExpiredHead(ts, window, now);
    } else {
      YoungHead(ts, window, now);
    }
  }

  lemma {:induction false} YoungerLater(ts: seq<Time>, window: int64, now: Time, later: Time)
    requires now <= later
    ensures Younger(Younger(ts, window, now), window, later) == Younger(ts, window, later)
  {
    if ts != [] {
      YoungerLater(ts[..|ts| - 1], window, now, later);
      var y, t := Younger(ts[..|ts| - 1], window, now), ts[|ts| - 1];
      assert (y + [t])[..|y|] == y && y + [] == y;
    }
  }

  ghost predicate Ascending(ts: seq<Time>) {
    forall i, j :: 0 <= i < j < |ts| ==> ts[i] <= ts[j]
  }

  lemma {:induction false} YoungerOfMore(ts: seq<Time>, us: seq<Time>, window: int64, now: Time)
    ensures Younger(ts + us, window, now) == Younger(ts, window, now) + Younger(us, window, now)
  {
    if us == [] {
      assert ts + us == ts;
    } else {
      assert (ts + us)[..|ts + us| - 1] == ts + us[..|us| - 1];
      YoungerOfMore(ts, us[..|us| - 1], window, now);
    }
  }

  lemma {:induction false} SurvivorsAscend(ts: seq<Time>, window: int64, now: Time)
    requires Ascending(ts)
    ensures Ascending(Survivors(ts, window, now))
    ensures forall t :: t in Survivors(ts, window, now) ==> t in ts
  {
    if ts != [] {
      SurvivorsAscend(ts[1..], window, now);
    }
  }

  ghost predicate AllBefore(ts: seq<Time>, now: Time) {
    forall i :: 0 <= i < |ts| ==> ts[i] <= now
  }

  lemma {:induction false} RecentAscends(s: Settings, calls: seq<Call>, now: Time)
    requires s.cost != 0 && Steady(calls) && (|calls| > 0 ==> calls[|calls| - 1].now <= now)
    ensures Ascending(Replay(s, calls).recent) && AllBefore(Replay(s, calls).recent, now)
  {
    if calls != [] {
      var init, c := calls[..|calls| - 1], calls[|calls| - 1];
      RecentAscends(s, init, c.now);
      SurvivorsAscend(Replay(s, init).recent, s.window, c.now);
      var left := Survivors(Replay(s, init).recent, s.window, c.now);
      forall i | 0 <= i < |left| ensures left[i] <= c.now {
        assert left[i] in left;
      }
    }
  }

  /** At any later reading the list and the whole history hold the same young entries. */
  lemma {:induction false} RecentMatches(s: Settings, calls: seq<Call>, later: Time)
    requires s.cost != 0 && Steady(calls) && (|calls| > 0 ==> calls[|calls| - 1].now <= later)
    ensures Younger(Replay(s, calls).recent, s.window, later) == Younger(Replay(s, calls).admitted, s.window, later)
  {
    if calls != [] {
      var init, c := calls[..|calls| - 1], calls[|calls| - 1];
      var h := Replay(s, init);
      RecentMatches(s, init, later);
      var left := Survivors(h.recent, s.window, c.now);
      LoopFilters(h.recent, s.window, c.now);
      YoungerLater(left, s.window, c.now, later);
      YoungerLater(h.recent, s.window, c.now, later);
      YoungerOfMore(left, [c.now], s.window, later);
      YoungerOfMore(h.admitted, [c.now], s.window, later);
    }
  }

  lemma AscendingFilters(ts: seq<Time>, window: int64, now: Time)
    requires Ascending(ts)
    ensures Survivors(ts, window, now) == Younger(ts, window, now)
  {
    LoopFilters(ts, window, now);
    forall i, j | 0 <= i < j < |ts| && Expired(window, now, ts[j]) ensures Expired(window, now, ts[i]) {
      assert Sub(now, ts[i]) >= Sub(now, ts[j]);
    }
  }

  /** With a clock that never goes back, a call leaves exactly the connections admitted before
      that are younger than the window, in order, and its own if it was admitted; and without
      overflow it is admitted exactly if the headroom covers those and itself. */
  lemma ChargesExactlyTheWindow(s: Settings, calls: seq<Call>)
    requires s.cost > 0 && Steady(calls) && |calls| > 0
    ensures var last := calls[|calls| - 1];
      var before := Replay(s, calls[..|calls| - 1]).admitted;
      var charged := Younger(before, s.window, last.now);
      var ok := Admits(s.floor, s.cost, last.available, |charged|);
      && Replay(s, calls).recent == charged + (if ok then [last.now] else [])
      && Replay(s, calls).admitted == before + (if ok then [last.now] else [])
      && (Fits(last.available - s.floor) ==>
           (ok <==> Covered(s.floor, s.cost, last.available, |charged|)))
  {
    var init, last := calls[..|calls| - 1], calls[|calls| - 1];
    var h := Replay(s, init);
    RecentAscends(s, init, last.now);
    AscendingFilters(h.recent, s.window, last.now);
    RecentMatches(s, init, last.now);
    assert Replay(s, calls) == After(s, h, last);
    if Fits(last.available - s.floor) {
      AdmitsExactlyIfCovered(s.floor, s.cost, last.available, |Younger(h.admitted, s.window, last.now)|);
    }
  }

  lemma {:induction false} LeadingExpired(ts: seq<Time>, window: int64, now: Time) returns (d: nat)
    ensures d <= |ts| && Survivors(ts, window, now) == ts[d..]
    ensures forall i :: 0 <= i < d ==> Expired(window, now, ts[i])
    ensures d < |ts| ==> !Expired(window, now, ts[d])
  {
    if ts != [] && Expired(window, now, ts[0]) {
      d := LeadingExpired(ts[1..], window, now);
      assert forall i :: 0 < i <= d ==> ts[i] == ts[1..][i - 1];
      d := d + 1;
    } else {
      d := 0;
    }
  }

  /** With any clock: the list is a run at the end of the admissions, in order. */
  lemma {:induction false} RecentIsSuffix(s: Settings, calls: seq<Call>) returns (k: nat)
    requires s.cost != 0
    ensures k <= |Replay(s, calls).admitted| && Replay(s, calls).recent == Replay(s, calls).admitted[k..]
  {
    if calls == [] {
      k := 0;
    } else {
      var init, c := calls[..|calls| - 1], calls[|calls| - 1];
      var h := Replay(s, init);
      var k0 := RecentIsSuffix(s, init);
      var d := LeadingExpired(h.recent, s.window, c.now);
      k := k0 + d;
      assert h.admitted[k0..][d..] == h.admitted[k..];
      assert (h.admitted + [c.now])[k..] == h.admitted[k..] + [c.now];
    }
  }

  // ----- any clock -----

  /** At call k the list, without what the loop drops, is what the window demands. */
  ghost predicate RightAt(s: Settings, calls: seq<Call>, k: nat)
    requires s.cost != 0 && k < |calls|
  {
    var h := Replay(s, calls[..k]);
    Survivors(h.recent, s.window, calls[k].now) == Younger(h.admitted, s.window, calls[k].now)
  }

  ghost predicate AlwaysRight(s: Settings, calls: seq<Call>)
    requires s.cost != 0
  {
    forall k: nat :: k < |calls| ==> RightAt(s, calls, k)
  }

  /** How many connections were admitted before call k. */
  ghost function AdmittedBefore(s: Settings, calls: seq<Call>, k: nat): nat
    requires s.cost != 0 && k <= |calls|
  {
    |Replay(s, calls[..k]).admitted|
  }

  /** Reading j, before call k, found the i-th admission expired. */
  ghost predicate ExpiredAt(s: Settings, calls: seq<Call>, j: nat, k: nat, i: nat, t: Time)
    requires s.cost != 0 && k <= |calls|
  {
    j < k && i < AdmittedBefore(s, calls, j) && Expired(s.window, calls[j].now, t)
  }

  /** At reading k the expired admissions come first, and none that was expired at an earlier
      reading is young again. */
  ghost predicate ClockFits(s: Settings, calls: seq<Call>, k: nat)
    requires s.cost != 0 && k < |calls|
  {
    var a := Replay(s, calls[..k]).admitted;
    && ExpiredFirst(a, s.window, calls[k].now)
    && forall j: nat, i: nat :: i < |a| && ExpiredAt(s, calls, j, k, i, a[i]) ==> Expired(s.window, calls[k].now, a[i])
  }

  ghost predicate ClockAlwaysFits(s: Settings, calls: seq<Call>)
    requires s.cost != 0
  {
    forall k: nat :: k < |calls| ==> ClockFits(s, calls, k)
  }

  /** The first d entries are expired, and the rest is not. */
  ghost predicate SplitsAt(ts: seq<Time>, window: int64, now: Time, d: int) {
    && 0 <= d <= |ts|
    && (forall i :: 0 <= i < d ==> Expired(window, now, ts[i]))
    && (forall i :: d <= i < |ts| ==> !Expired(window, now, ts[i]))
  }

  lemma {:induction false} AllExpired(ts: seq<Time>, window: int64, now: Time)
    ensures Younger(ts, window, now) == [] <==> forall i :: 0 <= i < |ts| ==> Expired(window, now, ts[i])
  {
    if ts != [] {
      AllExpired(ts[..|ts| - 1], window, now);
      assert ts == ts[..|ts| - 1] + [ts[|ts| - 1]];
    }
  }

  lemma {:induction false} YoungerAreYoung(ts: seq<Time>, window: int64, now: Time)
    ensures forall t :: t in Younger(ts, window, now) ==> !Expired(window, now, t)
  {
    if ts != [] {
      YoungerAreYoung(ts[..|ts| - 1], window, now);
    }
  }

  lemma SplitIsSuffix(ts: seq<Time>, window: int64, now: Time, d: nat)
    requires SplitsAt(ts, window, now, d)
    ensures Younger(ts, window, now) == ts[d..]
  {
    assert ts == ts[..d] + ts[d..];
    YoungerOfMore(ts[..d], ts[d..], window, now);
    AllExpired(ts[..d], window, now);
    YoungerAtMost(ts[d..], window, now);
  }

  lemma YoungAreKept(ts: seq<Time>, window: int64, now: Time)
    requires forall t :: t in ts ==> !Expired(window, now, t)
    ensures Younger(ts, window, now) == ts
  {
    YoungerAtMost(ts, window, now);
  }

  lemma FrontIsGone(front: seq<Time>, back: seq<Time>, window: int64, now: Time, ts: seq<Time>)
    requires ts == front + back && Younger(ts, window, now) == back && Younger(back, window, now) == back
    ensures forall i :: 0 <= i < |front| ==> Expired(window, now, front[i])
  {
    YoungerOfMore(front, back, window, now);
    assert |Younger(front, window, now)| == 0;
    AllExpired(front, window, now);
  }

  lemma SuffixIsSplit(ts: seq<Time>, window: int64, now: Time, d: nat)
    requires d <= |ts| && Younger(ts, window, now) == ts[d..]
    ensures SplitsAt(ts, window, now, d)
  {
    var front, back := ts[..d], ts[d..];
    YoungerAreYoung(ts, window, now);
    YoungAreKept(back, window, now);
    FrontIsGone(front, back, window, now, ts);
    forall i | 0 <= i < |ts| ensures if i < d then Expired(window, now, ts[i]) else !Expired(window, now, ts[i]) {
      if i < d {
        assert front[i] == ts[i];
      } else {
        assert back[i - d] == ts[i] && back[i - d] in back;
      }
    }
  }

  /** The young entries are the end of the list exactly where the list splits. */
  lemma SuffixIsYounger(ts: seq<Time>, window: int64, now: Time, d: nat)
    requires d <= |ts|
    ensures Younger(ts, window, now) == ts[d..] <==> SplitsAt(ts, window, now, d)
  {
    if SplitsAt(ts, window, now, d) {
      SplitIsSuffix(ts, window, now, d);
    }
    if Younger(ts, window, now) == ts[d..] {
      SuffixIsSplit(ts, window, now, d);
    }
  }

  /** How much of the history the list has lost. */
  ghost function Lost(h: History): int {
    |h.admitted| - |h.recent|
  }

  ghost predicate IsSuffix(h: History) {
    0 <= Lost(h) && h.recent == h.admitted[Lost(h)..]
  }

  lemma ListIsSuffix(s: Settings, calls: seq<Call>)
    requires s.cost != 0
    ensures IsSuffix(Replay(s, calls))
  {
    var k := RecentIsSuffix(s, calls);
  }

  /** One call: the loop drops leading expired entries only, the history grows by at most
      its own reading. */
  lemma CallDrops(s: Settings, calls: seq<Call>, k: nat)
    requires s.cost != 0 && k < |calls|
    ensures var h := Replay(s, calls[..k]);
      var n := Replay(s, calls[..k + 1]);
      var left := Survivors(h.recent, s.window, calls[k].now);
      && IsSuffix(h) && IsSuffix(n) && h.admitted <= n.admitted
      && Lost(h) <= Lost(n) == |h.admitted| - |left| <= |h.admitted|
      && left == h.admitted[Lost(n)..]
      && (forall i :: Lost(h) <= i < Lost(n) ==> Expired(s.window, calls[k].now, h.admitted[i]))
  {
    var h := Replay(s, calls[..k]);
    ListIsSuffix(s, calls[..k]);
    ListIsSuffix(s, calls[..k + 1]);
    assert calls[..k + 1][..k] == calls[..k];
    var d := LeadingExpired(h.recent, s.window, calls[k].now);
  }

  lemma {:induction false} HistoryGrows(s: Settings, calls: seq<Call>, j: nat, k: nat)
    requires s.cost != 0 && j <= k <= |calls|
    ensures Replay(s, calls[..j]).admitted <= Replay(s, calls[..k]).admitted
    ensures Lost(Replay(s, calls[..j])) <= Lost(Replay(s, calls[..k]))
    decreases k - j
  {
    if j < k {
      CallDrops(s, calls, k - 1);
      HistoryGrows(s, calls, j, k - 1);
    }
  }

  /** Right at call k: the history splits where the list then begins. */
  lemma RightMeansSplit(s: Settings, calls: seq<Call>, k: nat)
    requires s.cost != 0 && k < |calls|
    ensures RightAt(s, calls, k) <==>
      SplitsAt(Replay(s, calls[..k]).admitted, s.window, calls[k].now, Lost(Replay(s, calls[..k + 1])))
  {
    CallDrops(s, calls, k);
    SuffixIsYounger(Replay(s, calls[..k]).admitted, s.window, calls[k].now, Lost(Replay(s, calls[..k + 1])));
  }

  lemma SplitMeansFirst(ts: seq<Time>, window: int64, now: Time, d: int)
    requires SplitsAt(ts, window, now, d)
    ensures ExpiredFirst(ts, window, now)
  {
  }

  lemma SplitCovers(ts: seq<Time>, us: seq<Time>, window: int64, now: Time, later: Time, d: int, e: int, i: nat)
    requires ts <= us && SplitsAt(ts, window, now, d) && SplitsAt(us, window, later, e) && d <= e
    requires i < |ts| && Expired(window, now, us[i])
    ensures Expired(window, later, us[i])
  {
  }

  /** Between two calls the history and what the list has lost of it only grow. */
  lemma BothGrow(s: Settings, calls: seq<Call>, j: nat, k: nat)
    requires s.cost != 0 && j <= k < |calls|
    ensures Replay(s, calls[..j]).admitted <= Replay(s, calls[..k]).admitted
    ensures Lost(Replay(s, calls[..j + 1])) <= Lost(Replay(s, calls[..k + 1]))
  {
    HistoryGrows(s, calls, j, k);
    HistoryGrows(s, calls, j + 1, k + 1);
  }

  lemma RightIsSplit(s: Settings, calls: seq<Call>, k: nat, a: seq<Time>, d: int)
    requires s.cost != 0 && k < |calls| && RightAt(s, calls, k)
    requires a == Replay(s, calls[..k]).admitted && d == Lost(Replay(s, calls[..k + 1]))
    ensures SplitsAt(a, s.window, calls[k].now, d)
  {
    RightMeansSplit(s, calls, k);
  }

  /** What was expired at an earlier call lies before the split then, hence before the one now. */
  lemma ExpiredStays(s: Settings, calls: seq<Call>, j: nat, k: nat, i: nat)
    requires s.cost != 0 && k < |calls| && j < k && RightAt(s, calls, j) && RightAt(s, calls, k)
    requires i < AdmittedBefore(s, calls, j) && i < AdmittedBefore(s, calls, k)
    requires Expired(s.window, calls[j].now, Replay(s, calls[..k]).admitted[i])
    ensures Expired(s.window, calls[k].now, Replay(s, calls[..k]).admitted[i])
  {
    var ts, us := Replay(s, calls[..j]).admitted, Replay(s, calls[..k]).admitted;
    var d, e := Lost(Replay(s, calls[..j + 1])), Lost(Replay(s, calls[..k + 1]));
    BothGrow(s, calls, j, k);
    RightIsSplit(s, calls, j, ts, d);
    RightIsSplit(s, calls, k, us, e);
    SplitCovers(ts, us, s.window, calls[j].now, calls[k].now, d, e, i);
  }

  /** If the list is right at all calls, the clock fits. */
  lemma RightNeedsClock(s: Settings, calls: seq<Call>, k: nat)
    requires s.cost != 0 && k < |calls| && AlwaysRight(s, calls)
    ensures ClockFits(s, calls, k)
  {
    assert RightAt(s, calls, k);
    RightMeansSplit(s, calls, k);
    var a, now := Replay(s, calls[..k]).admitted, calls[k].now;
    SplitMeansFirst(a, s.window, now, Lost(Replay(s, calls[..k + 1])));
    forall j: nat, i: nat | i < |a| && ExpiredAt(s, calls, j, k, i, a[i]) ensures Expired(s.window, now, a[i]) {
      assert RightAt(s, calls, j);
      ExpiredStays(s, calls, j, k, i);
    }
  }

  /** What the list has lost before call k was expired at some reading before. */
  lemma {:induction false} LostWasExpired(s: Settings, calls: seq<Call>, k: nat, i: nat)
    requires s.cost != 0 && k <= |calls| && i < Lost(Replay(s, calls[..k]))
    ensures i < |Replay(s, calls[..k]).admitted|
    ensures exists j: nat :: ExpiredAt(s, calls, j, k, i, Replay(s, calls[..k]).admitted[i])
  {
    ListIsSuffix(s, calls[..k]);
    if k > 0 {
      CallDrops(s, calls, k - 1);
      var t := Replay(s, calls[..k]).admitted[i];
      if i < Lost(Replay(s, calls[..k - 1])) {
        LostWasExpired(s, calls, k - 1, i);
        var j: nat :| ExpiredAt(s, calls, j, k - 1, i, t);
        assert ExpiredAt(s, calls, j, k, i, t);
      } else {
        assert ExpiredAt(s, calls, k - 1, k, i, t);
      }
    }
  }

  lemma ClockMakesRight(s: Settings, calls: seq<Call>, k: nat)
    requires s.cost != 0 && k < |calls| && ClockFits(s, calls, k)
    ensures RightAt(s, calls, k)
  {
    var h := Replay(s, calls[..k]);
    CallDrops(s, calls, k);
    var d := LeadingExpired(h.recent, s.window, calls[k].now);
    forall i: nat | i < Lost(h) ensures Expired(s.window, calls[k].now, h.admitted[i]) {
      LostWasExpired(s, calls, k, i);
    }
    var split := Lost(Replay(s, calls[..k + 1]));
    assert h.recent[d..] == h.admitted[split..] && d == split - Lost(h);
    if split < |h.admitted| {
      assert h.recent[d] == h.admitted[split];
    }
    RightMeansSplit(s, calls, k);
  }

  lemma ExpiredTold(window: int64, now: Time, t: Time)
    requires window > -TWO_63
    ensures Expired(window, now, t) <==> now - t >= window
  {
  }

  /** The first d of the times are those at least a window old. */
  ghost predicate OldestFirst(ts: seq<Time>, window: int, now: Time, d: nat) {
    d <= |ts| && forall i :: 0 <= i < |ts| ==> (i < d <==> now - ts[i] >= window)
  }

  lemma SplitTold(ts: seq<Time>, window: int64, now: Time, d: nat)
    requires window > -TWO_63 && SplitsAt(ts, window, now, d)
    ensures OldestFirst(ts, window, now, d)
  {
    forall i | 0 <= i < |ts| ensures i < d <==> now - ts[i] >= window {
      ExpiredTold(window, now, ts[i]);
    }
  }

  lemma LeftTold(s: Settings, calls: seq<Call>, now: Time) returns (d: nat)
    requires s.cost > 0 && s.window > -TWO_63 && Steady(calls)
    requires forall i :: 0 <= i < |calls| ==> calls[i].now <= now
    ensures var h := Replay(s, calls);
      && OldestFirst(h.admitted, s.window, now, d)
      && Survivors(h.recent, s.window, now) == h.admitted[d..] == Younger(h.admitted, s.window, now)
  {
    var h := Replay(s, calls);
    var k := RecentIsSuffix(s, calls);
    var e := LeadingExpired(h.recent, s.window, now);
    d := k + e;
    assert h.admitted[k..][e..] == h.admitted[d..];
    RecentAscends(s, calls, now);
    AscendingFilters(h.recent, s.window, now);
    RecentMatches(s, calls, now);
    SuffixIsYounger(h.admitted, s.window, now, d);
    SplitTold(h.admitted, s.window, now, d);
  }

  /** The same told in differences of clock readings, for every window but the least int64: the
      first d admissions are those at least a window old, the list keeps the others, and a new
      connection is admitted exactly if what is available covers the floor, them and itself. */
  lemma ChargesTold(s: Settings, calls: seq<Call>) returns (d: nat)
    requires s.cost > 0 && s.window > -TWO_63 && Steady(calls) && |calls| > 0
    ensures var last := calls[|calls| - 1];
      var before, after := Replay(s, calls[..|calls| - 1]).admitted, Replay(s, calls);
      && OldestFirst(before, s.window, last.now, d)
      && (|| (after.admitted == before && after.recent == before[d..])
          || (after.admitted == before + [last.now] && after.recent == before[d..] + [last.now]))
      && (Fits(last.available - s.floor) ==>
           (after.admitted != before <==> s.floor + s.cost * (|before| - d + 1) <= last.available))
  {
    var init, last := calls[..|calls| - 1], calls[|calls| - 1];
    d := LeftTold(s, init, last.now);
    ChargesExactlyTheWindow(s, calls);
    var before := Replay(s, init).admitted;
    assert |before[d..]| == |before| - d && before + [] == before && before[d..] + [] == before[d..];
    assert |before + [last.now]| != |before|;
  }

  /** For any clock and any availability: at every call the charged connections are exactly the
      admissions younger than the window if and only if at every reading the expired
      admissions come first and none that an earlier reading found expired is young again. */
  lemma WindowExactly(s: Settings, calls: seq<Call>)
    requires s.cost != 0
    ensures AlwaysRight(s, calls) <==> ClockAlwaysFits(s, calls)
  {
    forall k: nat | k < |calls| ensures AlwaysRight(s, calls) ==> ClockFits(s, calls, k) {
      if AlwaysRight(s, calls) {
        RightNeedsClock(s, calls, k);
      }
    }
    forall k: nat | k < |calls| ensures ClockFits(s, calls, k) ==> RightAt(s, calls, k) {
      if ClockFits(s, calls, k) {
        ClockMakesRight(s, calls, k);
      }
    }
  }

  /** A clock that never goes back fits. */
  lemma SteadyFits(s: Settings, calls: seq<Call>)
    requires s.cost != 0 && Steady(calls)
    ensures ClockAlwaysFits(s, calls)
  {
    forall k: nat | k < |calls| ensures RightAt(s, calls, k) {
      RecentAscends(s, calls[..k], calls[k].now);
      AscendingFilters(Replay(s, calls[..k]).recent, s.window, calls[k].now);
      RecentMatches(s, calls[..k], calls[k].now);
    }
    WindowExactly(s, calls);
  }

  /** A clock that goes back can make the list charge too little: after calls at 0 and 10 in a
      window of 10, a call at 5 no longer sees the admission at 0, which is 5 old. */
  lemma SteadyClockNeeded()
    ensures var s := Settings(0, 1, 10);
      var h := Replay(s, [Call(1, 0), Call(0, 10), Call(0, 5)]);
      h.recent == [] && Younger(h.admitted, s.window, 5) == [0]
  {
    var s := Settings(0, 1, 10);
    QuotientCovers(1, 1, 0);
    QuotientCovers(0, 1, 0);
    var calls := [Call(1, 0), Call(0, 10), Call(0, 5)];
    assert calls[..2] == [Call(1, 0), Call(0, 10)] && calls[..2][..1] == [Call(1, 0)] && calls[..2][..1][..0] == [];
    assert Replay(s, calls[..2][..1]) == History([0], [0]);
    assert Replay(s, calls[..2]) == History([], [0]);
  }
}

/** Refreshing name servers learnt by DHCP (dns/dhcp.go): callers share one query at a time
    and wait for it only while nothing is known yet. Each locked section is one step. */
module DhcpRefresh {
  import opened Common

  type Channel = nat
  type Id = nat
  type Address = int
  type Server = int
  type Error = int

  const SECOND: int := 1_000_000_000
  const IFACE_TTL: int := 20 * SECOND
  const DHCP_TTL: int := 3600 * SECOND

  /** Looking up the interface and its IPv4 address. */
  datatype Interface = Up(addr: Address) | Failed(err: Error)

  /** The outcome of a DHCP query. */
  datatype Answer = Servers(servers: seq<Server>) | QueryError(err: Error)

  /** The fields guarded by the lock. */
  datatype Fields = Fields(
    ifaceInvalidate: int, dnsInvalidate: int, ifaceAddr: Option<Address>,
    done: Option<Channel>, clients: Option<seq<Server>>, err: Option<Error>)

  const NEW_CLIENT := Fields(0, 0, None, None, None, None)

  // ----- the locked sections as functions -----

  datatype Verdict = Verdict(fields: Fields, query: bool, err: Option<Error>)

  /** Does anything have to be refreshed at time now? */
  function Invalidated(f: Fields, now: int, iface: Interface): Verdict {
    if now < f.ifaceInvalidate then Verdict(f, false, None)
    else
      var f1 := f.(ifaceInvalidate := now + IFACE_TTL);
      match iface
      case Failed(err) => Verdict(f1, false, Some(err))
      case Up(addr) =>
        if now < f.dnsInvalidate && f.ifaceAddr == Some(addr) then Verdict(f1, false, None)
        else Verdict(f1.(dnsInvalidate := now + DHCP_TTL, ifaceAddr := Some(addr)), f.done.None?, None)
  }

  /** The first locked section of resolve; `channel` is the one a query would signal on. */
  function FirstSection(f: Fields, now: int, iface: Interface, channel: Channel): Fields {
    var v := Invalidated(f, now, iface);
    if v.err.Some? then v.fields.(err := v.err)
    else if v.query then v.fields.(done := Some(channel))
    else v.fields
  }

  function StartsQuery(f: Fields, now: int, iface: Interface): bool {
    Invalidated(f, now, iface).query
  }

  /** The locked section at the end of a query. */
  function LastSection(f: Fields, answer: Answer): Fields {
    match answer
    case Servers(ss) => f.(done := None, clients := Some(ss), err := None)
    case QueryError(err) => f.(done := None, clients := None, err := Some(err))
  }

  /** Something to return, good or bad. */
  predicate Settled(f: Fields) {
    f.clients.Some? || f.err.Some?
  }

  class DhcpClient {
    var ifaceInvalidate: int
    var dnsInvalidate: int
    var ifaceAddr: Option<Address>
    var done: Option<Channel>
    var clients: Option<seq<Server>>
    var err: Option<Error>

    function Snapshot(): Fields
      reads this
    {
      Fields(ifaceInvalidate, dnsInvalidate, ifaceAddr, done, clients, err)
    }

    constructor ()
      ensures Snapshot() == NEW_CLIENT
    {
      ifaceInvalidate, dnsInvalidate, ifaceAddr, done, clients, err := 0, 0, None, None, None, None;
    }

    method Invalidate(now: int, iface: Interface) returns (query: bool, e: Option<Error>)
      modifies this
      ensures Verdict(Snapshot(), query, e) == Invalidated(old(Snapshot()), now, iface)
    {
      if now < ifaceInvalidate {
        return false, None;
      }
      ifaceInvalidate := now + IFACE_TTL;
      if iface.Failed? {
        return false, Some(iface.err);
      }
      if now < dnsInvalidate && ifaceAddr == Some(iface.addr) {
        return false, None;
      }
      dnsInvalidate := now + DHCP_TTL;
      ifaceAddr := Some(iface.addr);
      return done.None?, None;
    }

    method BeginResolve(now: int, iface: Interface, channel: Channel) returns (started: bool)
      modifies this
      ensures Snapshot() == FirstSection(old(Snapshot()), now, iface, channel)
      ensures started == StartsQuery(old(Snapshot()), now, iface)
    {
      var invalidated, e := Invalidate(now, iface);
      started := false;
      if e.Some? {
        err := e;
      } else if invalidated {
        done := Some(channel);
        started := true;
      }
    }

    method EndQuery(answer: Answer)
      modifies this
      ensures Snapshot() == LastSection(old(Snapshot()), answer)
    {
      done := None;
      if answer.Servers? {
        clients, err := Some(answer.servers), None;
      } else {
        clients, err := None, Some(answer.err);
      }
    }
  }

  // ----- all callers and queries together -----

  datatype Phase =
    | Entering                               // before the first locked section
    | Looking                                // about to read clients, err and done
    | Waiting(done: Option<Channel>)         // in the select
    | Woken                                  // its channel was closed, about to read again
    | Returned(clients: Option<seq<Server>>, err: Option<Error>)
    | Cancelled

  datatype State = State(
    fields: Fields,
    callers: map<Id, Phase>,
    outstanding: set<Channel>,               // queries still running, by their channel
    closed: seq<Channel>,                    // channels in the order they were closed
    channels: nat)                           // channels 0 .. channels - 1 have been made

  datatype Step =
    | Call(e: Id)
    | EnterSection(e: Id, now: int, iface: Interface)
    | Look(e: Id)
    | Wake(e: Id)
    | Cancel(e: Id)
    | QueryEnds(c: Channel, answer: Answer)

  predicate Enabled(s: State, step: Step) {
    match step
    case Call(e) => e !in s.callers
    case EnterSection(e, now, _) => e in s.callers && s.callers[e].Entering? && now >= 0
    case Look(e) => e in s.callers && (s.callers[e].Looking? || s.callers[e].Woken?)
    case Wake(e) =>
      e in s.callers && s.callers[e].Waiting? && s.callers[e].done.Some? && s.callers[e].done.value in s.closed
    case Cancel(e) => e in s.callers && s.callers[e].Waiting?
    case QueryEnds(c, _) => c in s.outstanding
  }

  function To(s: State, e: Id, p: Phase): State {
    s.(callers := s.callers[e := p])
  }

  function After(s: State, step: Step): State
    requires Enabled(s, step)
  {
    match step
    case Call(e) => To(s, e, Entering)
    case EnterSection(e, now, iface) =>
      var t := To(s, e, Looking).(fields := FirstSection(s.fields, now, iface, s.channels));
      if StartsQuery(s.fields, now, iface) then
        t.(outstanding := s.outstanding + {s.channels}, channels := s.channels + 1)
      else t
    case Look(e) =>
      To(s, e, if Settled(s.fields) then Returned(s.fields.clients, s.fields.err) else Waiting(s.fields.done))
    case Wake(e) => To(s, e, Woken)
    case Cancel(e) => To(s, e, Cancelled)
    case QueryEnds(c, answer) =>
      s.(fields := LastSection(s.fields, answer), outstanding := s.outstanding - {c}, closed := s.closed + [c])
  }

  const START := State(NEW_CLIENT, map[], {}, [], 0)

  ghost predicate Run(s: State, steps: seq<Step>, t: State)
    decreases |steps|
  {
    if steps == [] then s == t
    else Enabled(s, steps[0]) && Run(After(s, steps[0]), steps[1..], t)
  }

  /** The query whose channel is in `done` is the only one running. */
  ghost predicate OneQuery(s: State) {
    && (forall c :: c in s.outstanding <==> s.fields.done == Some(c))
    && (forall c :: c in s.outstanding ==> c < s.channels && c !in s.closed)
  }

  /** Every channel ever made is running or closed, and closed only once. */
  ghost predicate ChannelsAccounted(s: State) {
    && (forall c: Channel :: c < s.channels <==> c in s.outstanding || c in s.closed)
    && (forall i, j :: 0 <= i < j < |s.closed| ==> s.closed[i] != s.closed[j])
  }

  /** Nobody who has passed the first section is left without something to wait for. */
  ghost predicate NobodyStuck(s: State) {
    forall e :: e in s.callers ==>
      match s.callers[e]
      case Entering => true
      case Looking => Settled(s.fields) || s.fields.done.Some?
      case Waiting(done) => done.Some? && done.value < s.channels && (done.value in s.closed ==> Settled(s.fields))
      case Woken => Settled(s.fields)
      case Returned(clients, err) => clients.Some? || err.Some?
      case Cancelled => true
  }

  /** Except on a new client, nothing to return means a query is running. */
  ghost predicate Primed(f: Fields) {
    f == NEW_CLIENT || Settled(f) || f.done.Some?
  }

  ghost predicate Inv(s: State) {
    OneQuery(s) && ChannelsAccounted(s) && NobodyStuck(s) && Primed(s.fields)
  }

  /** After a first section there is something to return or to wait for. */
  lemma FirstSectionPrimes(f: Fields, now: int, iface: Interface, channel: Channel)
    requires Primed(f) && now >= 0
    ensures var f' := FirstSection(f, now, iface, channel);
      && (Settled(f') || f'.done.Some?)
      && (Settled(f) ==> Settled(f'))
      && f'.done == (if StartsQuery(f, now, iface) then Some(channel) else f.done)
      && (StartsQuery(f, now, iface) ==> f.done.None?)
  {
  }

  lemma EnterKeeps(s: State, e: Id, now: int, iface: Interface)
    requires Inv(s) && Enabled(s, EnterSection(e, now, iface))
    ensures Inv(After(s, EnterSection(e, now, iface)))
  {
    FirstSectionPrimes(s.fields, now, iface, s.channels);
    var t := After(s, EnterSection(e, now, iface));
    assert s.channels !in s.closed && s.channels !in s.outstanding;
  }

  lemma EndKeeps(s: State, c: Channel, answer: Answer)
    requires Inv(s) && Enabled(s, QueryEnds(c, answer))
    ensures Inv(After(s, QueryEnds(c, answer)))
  {
    assert s.fields.done == Some(c);
  }

  lemma CallerKeeps(s: State, step: Step)
    requires Inv(s) && Enabled(s, step) && (step.Call? || step.Look? || step.Wake? || step.Cancel?)
    ensures Inv(After(s, step))
  {
    if step.Look? && !Settled(s.fields) {
      assert s.fields.done.Some?;
      assert s.fields.done.value in s.outstanding;
    }
  }

  lemma StepKeepsInv(s: State, step: Step)
    requires Inv(s) && Enabled(s, step)
    ensures Inv(After(s, step))
  {
    match step
    case EnterSection(e, now, iface) => EnterKeeps(s, e, now, iface);
    case QueryEnds(c, answer) => EndKeeps(s, c, answer);
    case _ => CallerKeeps(s, step);
  }

  lemma {:induction false} RunKeepsInv(s: State, steps: seq<Step>, t: State)
    requires Inv(s) && Run(s, steps, t)
    ensures Inv(t)
    decreases |steps|
  {
    if steps != [] {
      StepKeepsInv(s, steps[0]);
      RunKeepsInv(After(s, steps[0]), steps[1..], t);
    }
  }

  /** In every interleaving of callers and queries: at most one query runs, each channel is
      closed at most once, and no caller that passed its first section waits on nothing. */
  lemma EveryRunIsSafe(steps: seq<Step>, t: State)
    requires Run(START, steps, t)
    ensures forall c, d :: c in t.outstanding && d in t.outstanding ==> c == d
    ensures forall i, j :: 0 <= i < j < |t.closed| ==> t.closed[i] != t.closed[j]
    ensures forall e :: e in t.callers && t.callers[e].Waiting? ==>
      t.callers[e].done.Some? && (t.callers[e].done.value in t.outstanding || t.callers[e].done.value in t.closed)
    ensures forall e :: e in t.callers && t.callers[e].Returned? ==>
      t.callers[e].clients.Some? || t.callers[e].err.Some?
  {
    RunKeepsInv(START, steps, t);
    forall e | e in t.callers && t.callers[e].Waiting?
      ensures t.callers[e].done.Some? &&
        (t.callers[e].done.value in t.outstanding || t.callers[e].done.value in t.closed)
    {
      assert t.callers[e].done.Some? && t.callers[e].done.value < t.channels;
    }
  }

  lemma {:induction false} RunKeepsSettled(s: State, steps: seq<Step>, t: State)
    requires Inv(s) && Settled(s.fields) && Run(s, steps, t)
    ensures Settled(t.fields)
    decreases |steps|
  {
    if steps != [] {
      StepKeepsInv(s, steps[0]);
      if steps[0].EnterSection? {
        FirstSectionPrimes(s.fields, steps[0].now, steps[0].iface, s.channels);
      }
      RunKeepsSettled(After(s, steps[0]), steps[1..], t);
    }
  }

  /** A caller whose channel was closed returns at its next look, whatever happens in between. */
  lemma {:induction false} WokenReturns(s: State, steps: seq<Step>, t: State, e: Id)
    requires Inv(s) && e in s.callers && s.callers[e].Waiting? && s.callers[e].done.Some?
    requires s.callers[e].done.value in s.closed
    requires Run(s, steps, t) && e in t.callers && Enabled(t, Look(e))
    ensures Settled(t.fields) && After(t, Look(e)).callers[e].Returned?
  {
    RunKeepsSettled(s, steps, t);
  }

  // ----- when queries start -----

  /** A query starts exactly if the interface is looked up again and is there, the answer is
      out of date or for another address, and no query is running. */
  lemma QueryStartsExactly(f: Fields, now: int, iface: Interface)
    ensures StartsQuery(f, now, iface) <==>
      && now >= f.ifaceInvalidate && iface.Up? && f.done.None?
      && (now >= f.dnsInvalidate || f.ifaceAddr != Some(iface.addr))
  {
  }

  /** When the interface is looked up again, the next look is due twenty seconds later; when it
      is there, its address is the recorded one from then on, with an hour from now as its
      deadline unless the one recorded for it lies ahead; otherwise both stay. A failed look
      leaves its error. What was known about servers is never touched by a look. */
  lemma LookRecords(f: Fields, now: int, iface: Interface, channel: Channel)
    ensures var f' := FirstSection(f, now, iface, channel);
      && (now >= f.ifaceInvalidate && iface.Up? ==> f'.ifaceAddr == Some(iface.addr) && f'.dnsInvalidate > now)
      && (now < f.ifaceInvalidate || iface.Failed? ==>
           f'.ifaceAddr == f.ifaceAddr && f'.dnsInvalidate == f.dnsInvalidate)
      && f'.ifaceInvalidate > now && f'.clients == f.clients
      && f'.ifaceInvalidate == (if now < f.ifaceInvalidate then f.ifaceInvalidate else now + 20_000_000_000)
      && (f'.dnsInvalidate == f.dnsInvalidate || f'.dnsInvalidate == now + 3600_000_000_000)
      && (now >= f.ifaceInvalidate && iface.Up? && f.ifaceAddr == f'.ifaceAddr && now < f.dnsInvalidate ==>
           f'.dnsInvalidate == f.dnsInvalidate)
      && f'.err == (if now >= f.ifaceInvalidate && iface.Failed? then Some(iface.err) else f.err)
  {
  }

  /** Every look in the steps comes before the deadline, and finds the address or nothing. */
  ghost predicate SeesOnly(steps: seq<Step>, addr: Address, deadline: int) {
    forall i :: 0 <= i < |steps| && steps[i].EnterSection? ==>
      steps[i].now < deadline && (steps[i].iface.Failed? || steps[i].iface == Up(addr))
  }

  /** A look that finds the recorded address before the deadline starts nothing. */
  lemma LookKeepsDeadline(s: State, step: Step, addr: Address)
    requires Enabled(s, step) && s.fields.ifaceAddr == Some(addr)
    requires step.EnterSection? ==> step.now < s.fields.dnsInvalidate && (step.iface.Failed? || step.iface == Up(addr))
    ensures var t := After(s, step);
      t.fields.ifaceAddr == Some(addr) && t.fields.dnsInvalidate == s.fields.dnsInvalidate && t.channels == s.channels
  {
  }

  /** Over any run: once an address is recorded, no query starts before its deadline as long as
      looks find that address or fail; whatever query was running then is the last. */
  lemma {:induction false} NoQueryBeforeDeadline(s: State, steps: seq<Step>, t: State, addr: Address)
    requires Run(s, steps, t) && s.fields.ifaceAddr == Some(addr) && SeesOnly(steps, addr, s.fields.dnsInvalidate)
    ensures t.channels == s.channels
    ensures t.fields.ifaceAddr == Some(addr) && t.fields.dnsInvalidate == s.fields.dnsInvalidate
    decreases |steps|
  {
    if steps != [] {
      LookKeepsDeadline(s, steps[0], addr);
      assert forall i :: 0 <= i < |steps[1..]| ==> steps[1..][i] == steps[i + 1];
      NoQueryBeforeDeadline(After(s, steps[0]), steps[1..], t, addr);
    }
  }

  // ----- an address nobody asks about -----

  const OLD: Address := 1
  const NEW: Address := 2
  const ANSWER := Servers([53])

  /** A query begins at one address; a second caller finds another while it runs. */
  const MOVED: seq<Step> := [
    Call(0), EnterSection(0, 0, Up(OLD)), Call(1), EnterSection(1, IFACE_TTL, Up(NEW)), QueryEnds(0, ANSWER)]

  /** The address is recorded, its deadline an hour ahead, and the only answer was asked for
      under the address before. */
  ghost predicate Missed(s: State) {
    && s.fields.ifaceAddr == Some(NEW) && s.fields.dnsInvalidate == IFACE_TTL + DHCP_TTL
    && s.fields.done.None? && s.fields.clients == Some(ANSWER.servers) && s.channels == 1
  }

  lemma RunOne(s: State, steps: seq<Step>, k: nat, t: State)
    requires k < |steps| && Enabled(s, steps[k]) && Run(After(s, steps[k]), steps[k + 1..], t)
    ensures Run(s, steps[k..], t)
    ensures k == 0 ==> Run(s, steps, t)
  {
    assert steps[k..][0] == steps[k] && steps[k..][1..] == steps[k + 1..];
    assert k == 0 ==> steps[k..] == steps;
  }

  lemma MovedRuns()
    ensures exists s :: Run(START, MOVED, s) && Missed(s)
  {
    var s1 := After(START, MOVED[0]);
    var s2 := After(s1, MOVED[1]);
    var s3 := After(s2, MOVED[2]);
    var s4 := After(s3, MOVED[3]);
    var s := After(s4, MOVED[4]);
    RunOne(s4, MOVED, 4, s);
    RunOne(s3, MOVED, 3, s);
    RunOne(s2, MOVED, 2, s);
    RunOne(s1, MOVED, 1, s);
    RunOne(START, MOVED, 0, s);
    assert Run(START, MOVED, s) && Missed(s);
  }

  /** It happens; and from there, whatever callers do, the address is not queried before its
      hour is over unless a look finds yet another one. */
  lemma MissedAddress()
    ensures exists s :: Run(START, MOVED, s) && Missed(s)
    ensures forall s, steps, t :: Missed(s) && Run(s, steps, t) && SeesOnly(steps, NEW, IFACE_TTL + DHCP_TTL) ==>
      t.channels == 1
  {
    MovedRuns();
    forall s, steps, t | Missed(s) && Run(s, steps, t) && SeesOnly(steps, NEW, IFACE_TTL + DHCP_TTL)
      ensures t.channels == 1
    {
      NoQueryBeforeDeadline(s, steps, t, NEW);
    }
  }

  // ----- a failed look outlives the answer -----

  predicate DueAndFailed(f: Fields, step: Step) {
    step.EnterSection? && step.now >= f.ifaceInvalidate && step.iface.Failed?
  }

  /** Some look in the run is due and fails. */
  ghost predicate LookFails(s: State, steps: seq<Step>, t: State)
    requires Run(s, steps, t)
    decreases |steps|
  {
    steps != [] &&
    (DueAndFailed(s.fields, steps[0]) || LookFails(After(s, steps[0]), steps[1..], t))
  }

  lemma IdleStepLeavesAnswer(s: State, step: Step, addr: Address)
    requires OneQuery(s) && Enabled(s, step) && s.fields.done.None? && s.fields.ifaceAddr == Some(addr)
    requires step.EnterSection? ==> step.now < s.fields.dnsInvalidate && (step.iface.Failed? || step.iface == Up(addr))
    ensures var f := After(s, step).fields;
      && f.done.None? && f.clients == s.fields.clients
      && (f.err.Some? <==> s.fields.err.Some? || DueAndFailed(s.fields, step))
  {
  }

  /** Over any run with no query running, up to the deadline of the recorded address: what is
      known about servers stays, and there is an error at the end exactly if there was one or a
      look failed since, although the interface may be back and its address the same. */
  lemma {:induction false} ErrorStands(s: State, steps: seq<Step>, t: State, addr: Address)
    requires Inv(s) && Run(s, steps, t) && s.fields.done.None? && s.fields.ifaceAddr == Some(addr)
    requires SeesOnly(steps, addr, s.fields.dnsInvalidate)
    ensures t.fields.done.None? && t.fields.clients == s.fields.clients
    ensures t.fields.err.Some? <==> s.fields.err.Some? || LookFails(s, steps, t)
    decreases |steps|
  {
    if steps != [] {
      StepKeepsInv(s, steps[0]);
      LookKeepsDeadline(s, steps[0], addr);
      IdleStepLeavesAnswer(s, steps[0], addr);
      assert forall i :: 0 <= i < |steps[1..]| ==> steps[1..][i] == steps[i + 1];
      ErrorStands(After(s, steps[0]), steps[1..], t, addr);
    }
  }

  /** How the last query of the steps ended, or as given if none ends in them. */
  ghost function LastAnswer(answer: Answer, steps: seq<Step>): Answer
    decreases |steps|
  {
    if steps == [] then answer
    else LastAnswer(if steps[0].QueryEnds? then steps[0].answer else answer, steps[1..])
  }

  /** The answer stands: its servers without an error, or its error without servers. */
  ghost predicate Holds(f: Fields, answer: Answer) {
    match answer
    case Servers(ss) => f.clients == Some(ss) && f.err.None?
    case QueryError(err) => f.clients.None? && f.err == Some(err)
  }

  lemma {:induction false} AnswerHolds(s: State, answer: Answer, steps: seq<Step>, t: State)
    requires Holds(s.fields, answer) && Run(s, steps, t) && !LookFails(s, steps, t)
    ensures Holds(t.fields, LastAnswer(answer, steps))
    decreases |steps|
  {
    if steps != [] {
      AnswerHolds(After(s, steps[0]), if steps[0].QueryEnds? then steps[0].answer else answer, steps[1..], t);
    }
  }

  /** Over any run after a query has ended in which no look fails: what callers get is what the
      last query to end has found, servers without an error or an error without servers. */
  lemma LastAnswerCounts(s: State, c: Channel, answer: Answer, steps: seq<Step>, t: State)
    requires Enabled(s, QueryEnds(c, answer)) && Run(After(s, QueryEnds(c, answer)), steps, t)
    requires !LookFails(After(s, QueryEnds(c, answer)), steps, t)
    ensures forall e :: Enabled(t, Look(e)) ==>
      After(t, Look(e)).callers[e] ==
        match LastAnswer(answer, steps)
        case Servers(ss) => Returned(Some(ss), None)
        case QueryError(err) => Returned(None, Some(err))
  {
    AnswerHolds(After(s, QueryEnds(c, answer)), answer, steps, t);
  }

  const NO_INTERFACE: Error := 7

  /** A good answer, then a look that fails, then one that succeeds. */
  const BLINKED: seq<Step> := [
    Call(0), EnterSection(0, 0, Up(OLD)), QueryEnds(0, ANSWER), Call(1),
    EnterSection(1, IFACE_TTL, Failed(NO_INTERFACE)),
    Call(2), EnterSection(2, 2 * IFACE_TTL, Up(OLD)), Look(2)]

  /** The interface is back and the servers are known, and the caller gets the error. */
  ghost predicate Blinked(s: State) {
    && s.fields.ifaceAddr == Some(OLD) && s.fields.done.None?
    && 2 in s.callers && s.callers[2] == Returned(Some(ANSWER.servers), Some(NO_INTERFACE))
  }

  const ANSWERED := State(
    Fields(IFACE_TTL, DHCP_TTL, Some(OLD), None, Some(ANSWER.servers), None), map[0 := Looking], {}, [0], 1)

  lemma UpToAnswered(t: State)
    requires Run(ANSWERED, BLINKED[3..], t)
    ensures Run(START, BLINKED, t)
  {
    var s1 := After(START, BLINKED[0]);
    var s2 := After(s1, BLINKED[1]);
    assert After(s2, BLINKED[2]) == ANSWERED;
    RunOne(s2, BLINKED, 2, t);
    RunOne(s1, BLINKED, 1, t);
    RunOne(START, BLINKED, 0, t);
  }

  /** A second caller's look has failed. */
  const BLINKING := ANSWERED.(
    fields := ANSWERED.fields.(ifaceInvalidate := 2 * IFACE_TTL, err := Some(NO_INTERFACE)),
    callers := map[0 := Looking, 1 := Looking])

  lemma UpToBlinking(t: State)
    requires Run(BLINKING, BLINKED[5..], t)
    ensures Run(START, BLINKED, t)
  {
    var s4 := After(ANSWERED, BLINKED[3]);
    assert After(s4, BLINKED[4]) == BLINKING;
    RunOne(s4, BLINKED, 4, t);
    RunOne(ANSWERED, BLINKED, 3, t);
    UpToAnswered(t);
  }

  lemma FailedLookStays()
    ensures exists s :: Run(START, BLINKED, s) && Blinked(s)
  {
    var s6 := After(BLINKING, BLINKED[5]);
    var s7 := After(s6, BLINKED[6]);
    var s := After(s7, BLINKED[7]);
    RunOne(s7, BLINKED, 7, s);
    RunOne(s6, BLINKED, 6, s);
    RunOne(BLINKING, BLINKED, 5, s);
    UpToBlinking(s);
    assert Run(START, BLINKED, s) && Blinked(s);
  }
}

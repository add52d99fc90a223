/** The connection pool of a DNS-over-TLS client (dns/dot.go): concurrent exchanges take
    connections from it, return them, and retry when an old one has died; resets empty it.
    Every critical section and every network operation is one step. */
module DotPool {
  import opened Common

  const MAX_OLD_CONNS := 8

  type Conn = nat
  type Id = nat

  /** Where an exchange stands in its retry loop. */
  datatype Phase =
    | Checking                         // about to look at its context
    | Popping                          // about to ask the pool
    | Dialing
    | Talking(conn: Conn, isOld: bool)
    | Returning(conn: Conn)            // has its answer, about to hand the connection back
    | Done

  datatype State = State(
    disableReuse: bool,
    pool: seq<Conn>,
    exchanges: map<Id, Phase>,
    closing: set<Conn>,                // handed to a goroutine that will close them
    closed: set<Conn>,
    dialed: nat)                       // connections 0 .. dialed - 1 have been dialled

  datatype Step =
    | Begin(e: Id)
    | ContextDone(e: Id)
    | ContextOk(e: Id)
    | Pop(e: Id)
    | DialFails(e: Id)
    | DialSucceeds(e: Id)
    | TalkFails(e: Id)
    | TalkSucceeds(e: Id)
    | GiveBack(e: Id)
    | Reset
    | CloserRuns(c: Conn)

  // ----- the critical sections as functions of the deque -----

  function PushBack(pool: seq<Conn>, c: Conn): seq<Conn> {
    (if |pool| >= MAX_OLD_CONNS then pool[1..] else pool) + [c]
  }

  function Evicted(pool: seq<Conn>): set<Conn> {
    if |pool| >= MAX_OLD_CONNS then {pool[0]} else {}
  }

  predicate Enabled(s: State, step: Step) {
    match step
    case Begin(e) => e !in s.exchanges
    case ContextDone(e) => e in s.exchanges && s.exchanges[e].Checking?
    case ContextOk(e) => e in s.exchanges && s.exchanges[e].Checking?
    case Pop(e) => e in s.exchanges && s.exchanges[e].Popping?
    case DialFails(e) => e in s.exchanges && s.exchanges[e].Dialing?
    case DialSucceeds(e) => e in s.exchanges && s.exchanges[e].Dialing?
    case TalkFails(e) => e in s.exchanges && s.exchanges[e].Talking?
    case TalkSucceeds(e) => e in s.exchanges && s.exchanges[e].Talking?
    case GiveBack(e) => e in s.exchanges && s.exchanges[e].Returning?
    case Reset => true
    case CloserRuns(c) => c in s.closing
  }

  function To(s: State, e: Id, p: Phase): State {
    s.(exchanges := s.exchanges[e := p])
  }

  function After(s: State, step: Step): State
    requires Enabled(s, step)
  {
    match step
    case Begin(e) => To(s, e, Checking)
    case ContextDone(e) => To(s, e, Done)
    case ContextOk(e) => To(s, e, Popping)
    case Pop(e) =>
      if !s.disableReuse && |s.pool| > 0 then
        To(s, e, Talking(s.pool[|s.pool| - 1], true)).(pool := s.pool[..|s.pool| - 1])
      else To(s, e, Dialing)
    case DialFails(e) => To(s, e, Done)
    case DialSucceeds(e) => To(s, e, Talking(s.dialed, false)).(dialed := s.dialed + 1)
    case TalkFails(e) =>
      To(s, e, if s.exchanges[e].isOld then Checking else Done).(closed := s.closed + {s.exchanges[e].conn})
    case TalkSucceeds(e) => To(s, e, Returning(s.exchanges[e].conn))
    case GiveBack(e) =>
      var conn := s.exchanges[e].conn;
      if s.disableReuse then To(s, e, Done).(closed := s.closed + {conn})
      else To(s, e, Done).(pool := PushBack(s.pool, conn), closing := s.closing + Evicted(s.pool))
    case Reset =>
      if s.disableReuse then s
      else s.(pool := [], closing := s.closing + Elements(s.pool))
    case CloserRuns(c) => s.(closing := s.closing - {c}, closed := s.closed + {c})
  }

  function Initial(disableReuse: bool): State {
    State(disableReuse, [], map[], {}, {}, 0)
  }

  /** The steps can be taken one after the other from s and lead to t. */
  ghost predicate Run(s: State, steps: seq<Step>, t: State)
    decreases |steps|
  {
    if steps == [] then s == t
    else Enabled(s, steps[0]) && Run(After(s, steps[0]), steps[1..], t)
  }

  // ----- each connection is in exactly one place -----

  datatype Place = Pooled | OwnedBy(e: Id) | BeingClosed | Closed

  ghost predicate Holds(s: State, e: Id, c: Conn) {
    && e in s.exchanges && (s.exchanges[e].Talking? || s.exchanges[e].Returning?)
    && s.exchanges[e].conn == c
  }

  /** The ledger gives every dialled connection one place, and the state agrees. */
  ghost predicate Agrees(s: State, ledger: map<Conn, Place>) {
    && (forall c: Conn :: c in ledger <==> c < s.dialed)
    && (forall c :: c in s.pool <==> c in ledger && ledger[c] == Pooled)
    && (forall e, c :: Holds(s, e, c) <==> c in ledger && ledger[c] == OwnedBy(e))
    && (forall c :: c in s.closing <==> c in ledger && ledger[c] == BeingClosed)
    && (forall c :: c in s.closed <==> c in ledger && ledger[c] == Closed)
  }

  ghost predicate Inv(s: State) {
    && Distinct(s.pool) && |s.pool| <= MAX_OLD_CONNS
    && (s.disableReuse ==> s.pool == [])
    && exists ledger :: Agrees(s, ledger)
  }

  lemma PopElements(pool: seq<Conn>)
    requires Distinct(pool) && |pool| > 0
    ensures forall c :: c in pool[..|pool| - 1] <==> c in pool && c != pool[|pool| - 1]
    ensures Distinct(pool[..|pool| - 1])
  {
    var init, last := pool[..|pool| - 1], pool[|pool| - 1];
    assert pool == init + [last];
  }

  lemma PushElements(pool: seq<Conn>, x: Conn)
    requires Distinct(pool) && x !in pool && |pool| <= MAX_OLD_CONNS
    ensures forall c :: c in PushBack(pool, x) <==> c == x || (c in pool && c !in Evicted(pool))
    ensures Distinct(PushBack(pool, x)) && |PushBack(pool, x)| <= MAX_OLD_CONNS
  {
    if |pool| >= MAX_OLD_CONNS {
      assert pool == [pool[0]] + pool[1..];
    }
  }

  /** The last of them, eight at most. */
  ghost function NewestEight(conns: seq<Conn>): seq<Conn> {
    conns[if |conns| > 8 then |conns| - 8 else 0..]
  }

  ghost function PushAll(pool: seq<Conn>, conns: seq<Conn>): seq<Conn> {
    if conns == [] then pool else PushBack(PushAll(pool, conns[..|conns| - 1]), conns[|conns| - 1])
  }

  lemma PushOneMore(conns: seq<Conn>, c: Conn)
    ensures PushBack(NewestEight(conns), c) == NewestEight(conns + [c])
  {
    var n := |conns|;
    if n >= 8 {
      assert conns[n - 8..][1..] == conns[n - 7..];
      assert (conns + [c])[n - 7..] == conns[n - 7..] + [c];
    }
  }

  /** However many are pushed, the pool keeps the newest. */
  lemma {:induction false} NewestAreKept(pool: seq<Conn>, conns: seq<Conn>)
    requires |pool| <= MAX_OLD_CONNS
    ensures PushAll(pool, conns) == NewestEight(pool + conns)
  {
    if conns == [] {
      assert pool + conns == pool;
    } else {
      var init, last := conns[..|conns| - 1], conns[|conns| - 1];
      NewestAreKept(pool, init);
      assert pool + conns == (pool + init) + [last];
      PushOneMore(pool + init, last);
    }
  }

  ghost function LedgerAfter(s: State, step: Step, ledger: map<Conn, Place>): map<Conn, Place>
    requires Enabled(s, step)
  {
    match step
    case Pop(e) =>
      if !s.disableReuse && |s.pool| > 0 then ledger[s.pool[|s.pool| - 1] := OwnedBy(e)] else ledger
    case DialSucceeds(e) => ledger[s.dialed := OwnedBy(e)]
    case TalkFails(e) => ledger[s.exchanges[e].conn := Closed]
    case GiveBack(e) =>
      if s.disableReuse then ledger[s.exchanges[e].conn := Closed]
      else (map c | c in ledger ::
              if c == s.exchanges[e].conn then Pooled else if c in Evicted(s.pool) then BeingClosed else ledger[c])
    case Reset => map c | c in ledger :: if ledger[c] == Pooled then BeingClosed else ledger[c]
    case CloserRuns(x) => ledger[x := Closed]
    case _ => ledger
  }

  /** Moving on without touching a connection. */
  lemma IdleStepAgrees(s: State, step: Step, ledger: map<Conn, Place>)
    requires Agrees(s, ledger) && Enabled(s, step)
    requires step.Begin? || step.ContextDone? || step.ContextOk? || step.DialFails? || step.TalkSucceeds?
             || (step.Pop? && (s.disableReuse || s.pool == []))
    ensures Agrees(After(s, step), LedgerAfter(s, step, ledger))
  {
    var t := After(s, step);
    forall e, c ensures Holds(t, e, c) <==> Holds(s, e, c) { }
  }

  lemma PopAgrees(s: State, e: Id, ledger: map<Conn, Place>)
    requires Agrees(s, ledger) && Distinct(s.pool) && Enabled(s, Pop(e)) && !s.disableReuse && |s.pool| > 0
    ensures Agrees(After(s, Pop(e)), LedgerAfter(s, Pop(e), ledger))
  {
    var t, x := After(s, Pop(e)), s.pool[|s.pool| - 1];
    PopElements(s.pool);
    assert x in s.pool;
    forall f, c ensures Holds(t, f, c) <==> if f == e then c == x else Holds(s, f, c) { }
    assert forall c :: !Holds(s, e, c);
  }

  lemma DialAgrees(s: State, e: Id, ledger: map<Conn, Place>)
    requires Agrees(s, ledger) && Enabled(s, DialSucceeds(e))
    ensures Agrees(After(s, DialSucceeds(e)), LedgerAfter(s, DialSucceeds(e), ledger))
  {
    var t := After(s, DialSucceeds(e));
    forall f, c ensures Holds(t, f, c) <==> if f == e then c == s.dialed else Holds(s, f, c) { }
    assert forall c :: !Holds(s, e, c);
    assert s.dialed !in ledger;
  }

  /** The exchange lets go of its connection, which is closed. */
  lemma ReleaseAgrees(s: State, step: Step, e: Id, ledger: map<Conn, Place>)
    requires Agrees(s, ledger) && Enabled(s, step)
    requires step == TalkFails(e) || (step == GiveBack(e) && s.disableReuse)
    ensures Agrees(After(s, step), LedgerAfter(s, step, ledger))
  {
    var t, x := After(s, step), s.exchanges[e].conn;
    assert Holds(s, e, x);
    forall f, c ensures Holds(t, f, c) <==> f != e && Holds(s, f, c) { }
  }

  lemma GiveBackAgrees(s: State, e: Id, ledger: map<Conn, Place>)
    requires Agrees(s, ledger) && Distinct(s.pool) && |s.pool| <= MAX_OLD_CONNS
    requires Enabled(s, GiveBack(e)) && !s.disableReuse
    ensures Agrees(After(s, GiveBack(e)), LedgerAfter(s, GiveBack(e), ledger))
  {
    var t, x := After(s, GiveBack(e)), s.exchanges[e].conn;
    assert Holds(s, e, x);
    assert x !in s.pool;
    PushElements(s.pool, x);
    forall f, c ensures Holds(t, f, c) <==> f != e && Holds(s, f, c) { }
  }

  lemma ResetAgrees(s: State, ledger: map<Conn, Place>)
    requires Agrees(s, ledger) && (s.disableReuse ==> s.pool == [])
    ensures Agrees(After(s, Reset), LedgerAfter(s, Reset, ledger))
  {
    var t := After(s, Reset);
    forall e, c ensures Holds(t, e, c) <==> Holds(s, e, c) { }
  }

  lemma CloserAgrees(s: State, x: Conn, ledger: map<Conn, Place>)
    requires Agrees(s, ledger) && Enabled(s, CloserRuns(x))
    ensures Agrees(After(s, CloserRuns(x)), LedgerAfter(s, CloserRuns(x), ledger))
  {
    var t := After(s, CloserRuns(x));
    forall e, c ensures Holds(t, e, c) <==> Holds(s, e, c) { }
  }

  lemma PoolStaysBounded(s: State, step: Step)
    requires Inv(s) && Enabled(s, step)
    ensures var t := After(s, step);
      Distinct(t.pool) && |t.pool| <= MAX_OLD_CONNS && (t.disableReuse ==> t.pool == [])
  {
    if step.Pop? && |s.pool| > 0 {
      PopElements(s.pool);
    } else if step.GiveBack? {
      var ledger :| Agrees(s, ledger);
      assert Holds(s, step.e, s.exchanges[step.e].conn);
      PushElements(s.pool, s.exchanges[step.e].conn);
    }
  }

  /** Every step of every participant keeps the invariant. */
  lemma StepKeepsInv(s: State, step: Step)
    requires Inv(s) && Enabled(s, step)
    ensures Inv(After(s, step))
  {
    PoolStaysBounded(s, step);
    var ledger :| Agrees(s, ledger);
    match step
    case Pop(e) =>
      if !s.disableReuse && |s.pool| > 0 { PopAgrees(s, e, ledger); } else { IdleStepAgrees(s, step, ledger); }
    case DialSucceeds(e) => DialAgrees(s, e, ledger);
    case TalkFails(e) => ReleaseAgrees(s, step, e, ledger);
    case GiveBack(e) =>
      if s.disableReuse { ReleaseAgrees(s, step, e, ledger); } else { GiveBackAgrees(s, e, ledger); }
    case Reset => ResetAgrees(s, ledger);
    case CloserRuns(x) => CloserAgrees(s, x, ledger);
    case _ => IdleStepAgrees(s, step, ledger);
  }

  /** The pool is a stack of the newest eight: an exchange takes the connection returned last, and
      one returned to a full pool drives out the oldest, which is then closed. */
  lemma PoolIsNewestFirst(s: State, step: Step)
    requires Inv(s) && Enabled(s, step) && !s.disableReuse
    ensures var t := After(s, step);
      && (step.Pop? && |s.pool| > 0 ==>
           t.exchanges[step.e].Talking? && t.exchanges[step.e].isOld && s.pool == t.pool + [t.exchanges[step.e].conn])
      && (step.GiveBack? ==>
           && t.pool == NewestEight(s.pool + [s.exchanges[step.e].conn])
           && t.closing == s.closing + if |s.pool| == 8 then {s.pool[0]} else {})
      && (step.Reset? ==> t.pool == [] && forall c :: c in t.closing <==> c in s.closing || c in s.pool)
      && (!step.Pop? && !step.GiveBack? && !step.Reset? ==> t.pool == s.pool)
  {
    if step.GiveBack? {
      PushOneMore(s.pool, s.exchanges[step.e].conn);
      assert NewestEight(s.pool) == s.pool;
    }
  }

  lemma {:induction false} RunKeepsInv(s: State, steps: seq<Step>, t: State)
    requires Inv(s) && Run(s, steps, t)
    ensures Inv(t)
    decreases |steps|
  {
    if steps != [] {
      StepKeepsInv(s, steps[0]);
      RunKeepsInv(After(s, steps[0]), steps[1..], t);
    }
  }

  /** In every interleaving, from the start: each dialled connection is in exactly one place
      and the pool holds at most eight, each once. */
  lemma EveryRunIsSafe(disableReuse: bool, steps: seq<Step>, t: State)
    requires Run(Initial(disableReuse), steps, t)
    ensures |t.pool| <= MAX_OLD_CONNS && Distinct(t.pool)
    ensures exists ledger :: Agrees(t, ledger)
  {
    assert Agrees(Initial(disableReuse), map[]);
    RunKeepsInv(Initial(disableReuse), steps, t);
  }

  /** A connection once closed, or on its way to be, never comes back. */
  lemma {:induction false} ClosedStaysClosed(s: State, steps: seq<Step>, t: State)
    requires Inv(s) && Run(s, steps, t)
    ensures s.closed <= t.closed
    ensures s.closing <= t.closing + t.closed
    ensures forall c :: c in s.closed || c in s.closing ==> c !in t.pool && forall e :: !Holds(t, e, c)
    decreases |steps|
  {
    if steps != [] {
      StepKeepsInv(s, steps[0]);
      ClosedStaysClosed(After(s, steps[0]), steps[1..], t);
    }
    RunKeepsInv(s, steps, t);
    var ledger :| Agrees(t, ledger);
    forall c | c in s.closed || c in s.closing ensures c !in t.pool && forall e :: !Holds(t, e, c) {
      assert c in t.closed || c in t.closing;
    }
  }

  // ----- how often an exchange tries -----

  ghost predicate IsAttempt(step: Step, e: Id) {
    step == TalkFails(e) || step == TalkSucceeds(e)
  }

  ghost function Attempts(steps: seq<Step>, e: Id): nat {
    if steps == [] then 0 else (if IsAttempt(steps[0], e) then 1 else 0) + Attempts(steps[1..], e)
  }

  /** Connections the other exchanges put into the pool meanwhile. */
  ghost function OthersGiveBack(steps: seq<Step>, e: Id): nat {
    if steps == [] then 0
    else (if steps[0].GiveBack? && steps[0].e != e then 1 else 0) + OthersGiveBack(steps[1..], e)
  }

  /** How many attempts e can still make if nobody else returns a connection. */
  ghost function Budget(s: State, e: Id): nat {
    if e !in s.exchanges then |s.pool| + 1
    else match s.exchanges[e]
      case Checking => |s.pool| + 1
      case Popping => |s.pool| + 1
      case Dialing => 1
      case Talking(_, isOld) => if isOld then |s.pool| + 2 else 1
      case Returning(_) => 0
      case Done => 0
  }

  lemma StepSpendsBudget(s: State, step: Step, e: Id)
    requires Enabled(s, step)
    ensures Budget(After(s, step), e) + (if IsAttempt(step, e) then 1 else 0)
      <= Budget(s, e) + if step.GiveBack? && step.e != e then 1 else 0
  {
  }

  /** An exchange makes at most one attempt per connection pooled when it starts, one per
      connection others return meanwhile, and one more on a connection of its own. */
  lemma {:induction false} AttemptsBounded(s: State, steps: seq<Step>, t: State, e: Id)
    requires Run(s, steps, t)
    ensures Attempts(steps, e) + Budget(t, e) <= Budget(s, e) + OthersGiveBack(steps, e)
    decreases |steps|
  {
    if steps != [] {
      StepSpendsBudget(s, steps[0], e);
      AttemptsBounded(After(s, steps[0]), steps[1..], t, e);
    }
  }

  // ----- why an exchange ends -----

  /** The step is one of this exchange. */
  predicate IsOf(step: Step, e: Id) {
    !step.Reset? && !step.CloserRuns? && step.e == e
  }

  /** An exchange ends with its context, a failed dial, an answer, or a failure on a connection
      it dialled itself; a failure on a reused one sends it round the loop again. */
  lemma EndsOnlyBy(s: State, step: Step, e: Id)
    requires Enabled(s, step) && e in s.exchanges && !s.exchanges[e].Done?
    ensures After(s, step).exchanges[e].Done? <==>
      || step == ContextDone(e) || step == DialFails(e) || step == GiveBack(e)
      || (step == TalkFails(e) && !s.exchanges[e].isOld)
    ensures step == TalkFails(e) && s.exchanges[e].isOld ==> After(s, step).exchanges[e] == Checking
    ensures step == Pop(e) && After(s, step).exchanges[e].Talking? ==> After(s, step).exchanges[e].isOld
    ensures step == DialSucceeds(e) ==> After(s, step).exchanges[e] == Talking(s.dialed, false)
  {
  }

  /** Until it ends it always has a step to take. */
  lemma ExchangeCanMove(s: State, e: Id) returns (step: Step)
    requires e in s.exchanges && !s.exchanges[e].Done?
    ensures Enabled(s, step) && IsOf(step, e)
  {
    match s.exchanges[e]
    case Checking => step := ContextOk(e);
    case Popping => step := Pop(e);
    case Dialing => step := DialSucceeds(e);
    case Talking(_, _) => step := TalkSucceeds(e);
    case Returning(_) => step := GiveBack(e);
  }

  // ----- the code of one client -----

  /** What the network does to one exchange, attempt by attempt. */
  datatype Network = Network(contextOk: nat -> bool, dialOk: nat -> bool, talkOk: nat -> bool)

  /** What is pooled after an undisturbed exchange that made so many attempts, the last on the
      connection `fresh` if the pool was used up. */
  ghost function PoolAfter(pool: seq<Conn>, reuse: bool, attempts: nat, ok: bool, dialled: Conn): seq<Conn> {
    if !reuse then pool
    else if attempts <= |pool| then
      (if ok && attempts > 0 then pool[..|pool| - attempts + 1] else pool[..|pool| - attempts])
    else if ok then [dialled]
    else []
  }

  /** What it has closed: each connection that failed, and any where nothing is reused. */
  ghost function ClosedAfter(pool: seq<Conn>, reuse: bool, attempts: nat, ok: bool, dialled: Conn): set<Conn> {
    if !reuse then (if attempts > 0 then {dialled} else {})
    else if attempts <= |pool| then
      (if ok && attempts > 0 then Elements(pool[|pool| - attempts + 1..]) else Elements(pool[|pool| - attempts..]))
    else Elements(pool) + if ok then {} else {dialled}
  }

  /** How one turn of the retry loop ends. */
  datatype Turn = NotTried | Again | Failed | Answered

  /** How many pooled connections an exchange can fall back on. */
  function Reusable(pool: seq<Conn>, reuse: bool): nat {
    if reuse then |pool| else 0
  }

  lemma PoolStaysSmall(pool: seq<Conn>, reuse: bool, attempts: nat, ok: bool, dialled: Conn)
    requires |pool| <= MAX_OLD_CONNS
    ensures |PoolAfter(pool, reuse, attempts, ok, dialled)| <= MAX_OLD_CONNS
  {
  }

  /** Nothing is lost: what was pooled, and the fresh connection, is pooled or closed. */
  lemma PooledOrClosed(pool: seq<Conn>, attempts: nat, ok: bool, dialled: Conn)
    requires ok ==> attempts > 0
    ensures Elements(PoolAfter(pool, true, attempts, ok, dialled)) + ClosedAfter(pool, true, attempts, ok, dialled)
      == Elements(pool) + if attempts > |pool| then {dialled} else {}
  {
    if attempts <= |pool| {
      var k := if ok then |pool| - attempts + 1 else |pool| - attempts;
      assert pool == pool[..k] + pool[k..];
    }
  }

  lemma OldConnFails(pool: seq<Conn>, attempts: nat, dialled: Conn)
    requires attempts < |pool|
    ensures ClosedAfter(pool, true, attempts + 1, false, dialled)
      == ClosedAfter(pool, true, attempts, false, dialled) + {pool[|pool| - attempts - 1]}
  {
    assert pool[|pool| - attempts - 1..] == [pool[|pool| - attempts - 1]] + pool[|pool| - attempts..];
  }

  lemma TakenFrom(pool: seq<Conn>, n: nat, rest: seq<Conn>, conn: Conn)
    requires n <= |pool| && pool[..n] == rest + [conn]
    ensures n > 0 && rest == pool[..n - 1] && conn == pool[n - 1]
  {
    assert |rest| == n - 1 && conn == (rest + [conn])[n - 1];
    assert rest == (rest + [conn])[..n - 1];
  }

  /** The attempt after so many failed ones is on the newest old connection or on a new one. */
  ghost predicate NextConn(pool: seq<Conn>, reuse: bool, attempts: nat, isOld: bool, rest: seq<Conn>,
                           conn: Conn, dialled: Conn) {
    if isOld then
      reuse && attempts < |pool| && rest == pool[..|pool| - attempts - 1] && conn == pool[|pool| - attempts - 1]
    else conn == dialled && if reuse then attempts == |pool| && rest == [] else attempts == 0 && rest == pool
  }

  lemma AnsweredIsKept(pool: seq<Conn>, attempts: nat, isOld: bool, rest: seq<Conn>, conn: Conn, dialled: Conn)
    requires |pool| <= MAX_OLD_CONNS && NextConn(pool, true, attempts, isOld, rest, conn, dialled)
    ensures PushBack(rest, conn) == PoolAfter(pool, true, attempts + 1, true, dialled) && Evicted(rest) == {}
    ensures ClosedAfter(pool, true, attempts + 1, true, dialled) == ClosedAfter(pool, true, attempts, false, dialled)
  {
    if isOld {
      var k := |pool| - attempts - 1;
      assert pool[..k + 1] == pool[..k] + [pool[k]];
    } else {
      assert pool[0..] == pool;
    }
  }

  lemma FailedIsClosed(pool: seq<Conn>, reuse: bool, attempts: nat, isOld: bool, rest: seq<Conn>, conn: Conn,
                       dialled: Conn)
    requires NextConn(pool, reuse, attempts, isOld, rest, conn, dialled)
    ensures rest == PoolAfter(pool, reuse, attempts + 1, false, dialled)
    ensures ClosedAfter(pool, reuse, attempts + 1, false, dialled) ==
      ClosedAfter(pool, reuse, attempts, false, dialled) + {conn}
  {
    if isOld {
      OldConnFails(pool, attempts, dialled);
    } else if reuse {
      assert pool[0..] == pool;
    }
  }

  lemma CloseOneMore(before: set<Conn>, failed: set<Conn>, conn: Conn)
    ensures before + failed + {conn} == before + (failed + {conn})
  {
  }

  lemma UnpooledIsClosed(pool: seq<Conn>, ok: bool, dialled: Conn)
    ensures ClosedAfter(pool, false, 1, ok, dialled) == {dialled} && PoolAfter(pool, false, 1, ok, dialled) == pool
  {
  }

  /** Nothing was tried yet. */
  lemma NothingClosed(pool: seq<Conn>, reuse: bool, dialled: Conn)
    ensures ClosedAfter(pool, reuse, 0, false, dialled) == {} && PoolAfter(pool, reuse, 0, false, dialled) == pool
  {
  }

  /** Each attempt was made under a live context, and only the last may have had an answer. */
  ghost predicate Tried(net: Network, attempts: nat, ok: bool) {
    forall i: nat :: i < attempts ==> net.contextOk(i) && (net.talkOk(i) <==> ok && i == attempts - 1)
  }

  lemma TriedOnce(net: Network, k: nat, ok: bool)
    requires Tried(net, k, false) && net.contextOk(k) && (net.talkOk(k) <==> ok)
    ensures Tried(net, k + 1, ok)
  {
  }

  class DnsOverTLS {
    const disableReuse: bool
    var connections: seq<Conn>   // LIFO
    var dialed: nat
    ghost var closed: set<Conn>

    ghost predicate Valid()
      reads this
    {
      |connections| <= MAX_OLD_CONNS
    }

    constructor (disableReuse: bool)
      ensures Valid()
      ensures this.disableReuse == disableReuse && connections == [] && dialed == 0 && closed == {}
    {
      this.disableReuse := disableReuse;
      connections, dialed, closed := [], 0, {};
    }

    /** The locked section that takes a connection for reuse, newest first. */
    method Take() returns (conn: Conn, found: bool)
      requires Valid()
      modifies this`connections
      ensures Valid()
      ensures found <==> !disableReuse && |old(connections)| > 0
      ensures found ==> old(connections) == connections + [conn]
      ensures !found ==> connections == old(connections)
    {
      conn, found := 0, false;
      if !disableReuse && |connections| > 0 {
        conn, found := connections[|connections| - 1], true;
        connections := connections[..|connections| - 1];
      }
    }

    /** The locked section that keeps a connection for reuse, dropping the oldest of eight. */
    method Keep(conn: Conn)
      requires Valid()
      modifies this`connections, this`closed
      ensures Valid()
      ensures connections == PushBack(old(connections), conn)
      ensures closed == old(closed) + Evicted(old(connections))
      ensures connections == NewestEight(old(connections) + [conn])
    {
      PushOneMore(connections, conn);
      assert NewestEight(connections) == connections;
      if |connections| >= MAX_OLD_CONNS {
        closed := closed + {connections[0]};
        connections := connections[1..];
      }
      connections := connections + [conn];
    }

    method ResetConnection()
      modifies this`connections, this`closed
      ensures if disableReuse then connections == old(connections) && closed == old(closed)
              else connections == [] && closed == old(closed) + Elements(old(connections))
    {
      if !disableReuse {
        while |connections| > 0
          invariant closed + Elements(connections) == old(closed) + Elements(old(connections))
          decreases |connections|
        {
          assert connections == [connections[0]] + connections[1..];
          closed := closed + {connections[0]};
          connections := connections[1..];
        }
      }
    }

    /** Where an undisturbed exchange stands that began with this pool and these closed. */
    ghost predicate Stands(pool: seq<Conn>, closedBefore: set<Conn>, first: Conn, attempts: nat, ok: bool)
      reads this
    {
      && connections == PoolAfter(pool, !disableReuse, attempts, ok, first)
      && closed == closedBefore + ClosedAfter(pool, !disableReuse, attempts, ok, first)
      && dialed == first + if attempts > Reusable(pool, !disableReuse) then 1 else 0
    }

    /** One turn of the retry loop, after k failed ones. */
    method Attempt(net: Network, k: nat, ghost pool: seq<Conn>, ghost closedBefore: set<Conn>, ghost first: Conn)
      returns (r: Turn)
      requires |pool| <= MAX_OLD_CONNS && k <= Reusable(pool, !disableReuse)
      requires Stands(pool, closedBefore, first, k, false)
      modifies this
      ensures Valid()
      ensures r.NotTried? ==>
        Stands(pool, closedBefore, first, k, false)
        && (!net.contextOk(k) || (k == Reusable(pool, !disableReuse) && !net.dialOk(k)))
      ensures !r.NotTried? ==>
        Stands(pool, closedBefore, first, k + 1, r.Answered?) && net.contextOk(k) && (net.talkOk(k) <==> r.Answered?)
      ensures r.Again? ==> k < Reusable(pool, !disableReuse)
      ensures r.Failed? ==> k == Reusable(pool, !disableReuse)
    {
      PoolStaysSmall(pool, !disableReuse, k, false, first);
      PoolStaysSmall(pool, !disableReuse, k + 1, true, first);
      PoolStaysSmall(pool, !disableReuse, k + 1, false, first);
      if !net.contextOk(k) {
        return NotTried;
      }
      var conn, isOld := Take();
      if isOld {
        TakenFrom(pool, |pool| - k, connections, conn);
      } else {
        if !net.dialOk(k) {
          return NotTried;
        }
        conn := dialed;
        dialed := dialed + 1;
      }
      if !net.talkOk(k) {
        FailedIsClosed(pool, !disableReuse, k, isOld, connections, conn, first);
        CloseOneMore(closedBefore, ClosedAfter(pool, !disableReuse, k, false, first), conn);
        closed := closed + {conn};
        return if isOld then Again else Failed;
      }
      if !disableReuse {
        AnsweredIsKept(pool, k, isOld, connections, conn, first);
        Keep(conn);
      } else {
        UnpooledIsClosed(pool, true, first);
        closed := closed + {conn};
      }
      return Answered;
    }

    /** One exchange that nobody disturbs: old connections are tried newest first until one
        answers, then one fresh connection; each that fails is closed. It fails only on its
        context, on dialling, or on the fresh connection. */
    method ExchangeContext(net: Network) returns (ok: bool, attempts: nat)
      requires Valid()
      modifies this
      ensures Valid()
      ensures attempts <= Reusable(old(connections), !disableReuse) + 1 && (ok ==> attempts > 0)
      ensures Tried(net, attempts, ok)
      ensures !ok && attempts <= Reusable(old(connections), !disableReuse) ==>
        !net.contextOk(attempts) || (attempts == Reusable(old(connections), !disableReuse) && !net.dialOk(attempts))
      ensures Stands(old(connections), old(closed), old(dialed), attempts, ok)
      ensures !disableReuse && attempts <= |old(connections)| ==>
        var kept := |old(connections)| - attempts + if ok then 1 else 0;
        && connections == old(connections)[..kept] && dialed == old(dialed)
        && closed == old(closed) + Elements(old(connections)[kept..])
      ensures !disableReuse && attempts > |old(connections)| ==>
        && connections == (if ok then [old(dialed)] else []) && dialed == old(dialed) + 1
        && closed == old(closed) + Elements(old(connections)) + if ok then {} else {old(dialed)}
      ensures disableReuse ==>
        && connections == old(connections) && dialed == old(dialed) + attempts
        && closed == old(closed) + if attempts > 0 then {old(dialed)} else {}
    {
      attempts := 0;
      ghost var pool, closedBefore, first := connections, closed, dialed;
      NothingClosed(pool, !disableReuse, first);
      while true
        invariant attempts <= Reusable(pool, !disableReuse)
        invariant Stands(pool, closedBefore, first, attempts, false)
        invariant Valid() && Tried(net, attempts, false)
        decreases |pool| - attempts
      {
        var r := Attempt(net, attempts, pool, closedBefore, first);
        if r.NotTried? {
          return false, attempts;
        }
        TriedOnce(net, attempts, r.Answered?);
        attempts := attempts + 1;
        if !r.Again? {
          return r.Answered?, attempts;
        }
      }
    }
  }
}

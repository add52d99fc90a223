/** The TUN handler of the Android build (core/lib_android.go): hook calls from any thread
    share four permits while they are inside the JVM, and one worker carries out start and
    stop operations in order. Every action another thread can see is one step. */
module TunHandler {
  import opened Common

  const PERMITS := 4
  const QUEUE_CAPACITY := 16

  type Callback = nat
  type Id = nat

  /** `born` is the callback the handler was made with; `callback` is nil once dropped. */
  datatype Handler = Handler(born: Callback, callback: Option<Callback>, listener: bool, free: nat)

  datatype Op = Stop | Start(fd: int, callback: Callback)

  /** Where the worker is in an operation; a start stops first. */
  datatype At =
    | Stopping                   // entered handleStopTun
    | Draining                   // close is waiting for all permits
    | Closing(drained: bool)     // about to remove the hook
    | Unhooked(drained: bool)    // closing the listener
    | Returning                  // references dropped, permits about to go back
    | Stopped
    | Marked                     // no descriptor: session marked, status not sent yet
    | Making                     // session marked, about to make the handler
    | Hooking                    // handler made
    | Listening                  // hook installed, opening the listener
    | Failed                     // cleaned up after a failure, status not sent yet
    | Opened                     // listener stored, status not sent yet

  datatype Work = Idle | Busy(op: Op, at: At)

  /** A call through one of the hooks. */
  datatype Call =
    | Hooked                     // has fetched the hook
    | NilHandler                 // found no handler: a nil dereference
    | Asking(h: nat)
    | Inside(h: nat)             // has a permit, about to look at the listener
    | Checked(h: nat)            // saw a listener
    | Calling(h: nat, callback: Option<Callback>)
    | Leaving(h: nat)
    | Gone

  datatype Status = Ready | Error

  datatype End = StopDone | ProxyOnly | Running | ListenFailed | Panicked

  datatype Outcome = Outcome(op: Op, end: End)

  datatype State = State(
    handlers: seq<Handler>,      // every handler made, oldest first
    current: Option<nat>,        // the global tunHandler
    hook: bool,
    runTime: bool,
    queue: seq<Op>,
    work: Work,
    calls: map<Id, Call>,
    made: nat,                   // callbacks 0 .. made - 1 have been passed to starts
    released: seq<Callback>,
    messages: seq<Status>,
    enqueued: seq<Op>,
    log: seq<Outcome>,
    timedOut: bool,              // the drain of the operation at work gave up
    replaced: set<nat>)          // handlers a start replaced after its drain gave up

  /** What a call through a hook does next. */
  datatype Move = FetchHook | FindHandler | Acquire | Look | EnterJvm | LeaveJvm | Release

  /** The worker in handleStopTun and close. */
  datatype Closing = BeginStop | Drain | DrainTimesOut | RemoveHook | DropReferences | ReturnPermits | FinishStop

  /** The worker in the rest of handleStartTun. */
  datatype Starting =
    | BeginStart | AnnounceProxyOnly | MakeHandler | InstallHook
    | ListenOk | ListenFails | AnnounceFailure | AnnounceReady

  datatype Step =
    | ByCall(e: Id, move: Move)
    | Enqueue(op: Op)
    | TakeOp
    | ByClose(closing: Closing)
    | ByStart(starting: Starting)
    | Panic

  predicate WorkerAt(s: State, at: At) {
    s.work.Busy? && s.work.at == at
  }

  predicate CallIs(s: State, e: Id, c: Call) {
    e in s.calls && s.calls[e] == c
  }

  /** Nothing panics before handleStopTun has cleared runTime, nor after the references are
      dropped. */
  predicate MayPanic(w: Work) {
    w.Busy? && w.at != Stopping && w.at != Returning
  }

  predicate MayMove(s: State, e: Id, move: Move) {
    match move
    case FetchHook => s.hook && e !in s.calls
    case FindHandler => e in s.calls && s.calls[e].Hooked?
    case Acquire =>
      e in s.calls && s.calls[e].Asking? && s.calls[e].h < |s.handlers| && s.handlers[s.calls[e].h].free > 0
    case Look => e in s.calls && s.calls[e].Inside? && s.calls[e].h < |s.handlers|
    case EnterJvm => e in s.calls && s.calls[e].Checked? && s.calls[e].h < |s.handlers|
    case LeaveJvm => e in s.calls && s.calls[e].Calling?
    case Release => e in s.calls && s.calls[e].Leaving? && s.calls[e].h < |s.handlers|
  }

  predicate HasCurrent(s: State) {
    s.current.Some? && s.current.value < |s.handlers|
  }

  predicate MayClose(s: State, closing: Closing) {
    match closing
    case BeginStop => WorkerAt(s, Stopping)
    case Drain => WorkerAt(s, Draining) && HasCurrent(s) && s.handlers[s.current.value].free == PERMITS
    case DrainTimesOut => WorkerAt(s, Draining)
    case RemoveHook => s.work.Busy? && s.work.at.Closing?
    case DropReferences => s.work.Busy? && s.work.at.Unhooked? && HasCurrent(s)
    case ReturnPermits => WorkerAt(s, Returning) && HasCurrent(s)
    case FinishStop => WorkerAt(s, Stopped) && s.work.op.Stop?
  }

  predicate MayStart(s: State, starting: Starting) {
    match starting
    case BeginStart => WorkerAt(s, Stopped) && s.work.op.Start?
    case AnnounceProxyOnly => WorkerAt(s, Marked)
    case MakeHandler => WorkerAt(s, Making) && s.work.op.Start?
    case InstallHook => WorkerAt(s, Hooking)
    case ListenOk => WorkerAt(s, Listening) && HasCurrent(s)
    case ListenFails => WorkerAt(s, Listening) && HasCurrent(s) && s.handlers[s.current.value].callback.Some?
    case AnnounceFailure => WorkerAt(s, Failed)
    case AnnounceReady => WorkerAt(s, Opened)
  }

  /** close has all the permits of the current handler. */
  predicate HoldsPermits(w: Work) {
    w.Busy? && (w.at == Closing(true) || w.at == Unhooked(true) || w.at == Returning)
  }

  predicate Enabled(s: State, step: Step) {
    match step
    case ByCall(e, move) => MayMove(s, e, move)
    case Enqueue(op) => |s.queue| < QUEUE_CAPACITY && (op.Start? ==> op.callback == s.made)
    case TakeOp => s.work.Idle? && |s.queue| > 0
    case ByClose(closing) => MayClose(s, closing)
    case ByStart(starting) => MayStart(s, starting)
    case Panic => MayPanic(s.work) && (HoldsPermits(s.work) ==> HasCurrent(s))
  }

  // ----- effects -----

  function To(s: State, e: Id, c: Call): State {
    s.(calls := s.calls[e := c])
  }

  function Go(s: State, at: At): State
    requires s.work.Busy?
  {
    s.(work := Busy(s.work.op, at))
  }

  function SetHandler(s: State, h: nat, v: Handler): State
    requires h < |s.handlers|
  {
    s.(handlers := s.handlers[h := v])
  }

  function AddFree(s: State, h: nat, n: int): State
    requires h < |s.handlers| && s.handlers[h].free + n >= 0
  {
    SetHandler(s, h, s.handlers[h].(free := s.handlers[h].free + n))
  }

  /** The operation ends, sending `m` if there is one. */
  function Finish(s: State, end: End, m: seq<Status>): State
    requires s.work.Busy?
  {
    s.(work := Idle, log := s.log + [Outcome(s.work.op, end)], messages := s.messages + m)
  }

  function AfterMove(s: State, e: Id, move: Move): State
    requires MayMove(s, e, move)
  {
    match move
    case FetchHook => To(s, e, Hooked)
    case FindHandler => To(s, e, if s.current.Some? then Asking(s.current.value) else NilHandler)
    case Acquire => AddFree(To(s, e, Inside(s.calls[e].h)), s.calls[e].h, -1)
    case Look => To(s, e, if s.handlers[s.calls[e].h].listener then Checked(s.calls[e].h) else Leaving(s.calls[e].h))
    case EnterJvm => To(s, e, Calling(s.calls[e].h, s.handlers[s.calls[e].h].callback))
    case LeaveJvm => To(s, e, Leaving(s.calls[e].h))
    case Release => AddFree(To(s, e, Gone), s.calls[e].h, 1)
  }

  function Dropped(s: State, h: nat): State
    requires h < |s.handlers|
  {
    SetHandler(s, h, s.handlers[h].(callback := None, listener := false))
      .(released := s.released + if s.handlers[h].callback.Some? then [s.handlers[h].callback.value] else [])
  }

  /** A panic runs the deferred release of the permits, then the repair if it was a start. */
  function AfterPanic(s: State): State
    requires Enabled(s, Panic)
  {
    var s1 := if HoldsPermits(s.work) then AddFree(s, s.current.value, PERMITS) else s;
    if s.work.op.Start? then Finish(s1.(runTime := false), Panicked, [Error])
    else Finish(s1, Panicked, [])
  }

  function AfterClosing(s: State, closing: Closing): State
    requires MayClose(s, closing)
  {
    match closing
    case BeginStop => Go(s.(runTime := false), if s.current.Some? then Draining else Stopped)
    case Drain => Go(AddFree(s, s.current.value, -PERMITS), Closing(true))
    case DrainTimesOut => Go(s.(timedOut := true), Closing(false))
    case RemoveHook => Go(s.(hook := false), Unhooked(s.work.at.drained))
    case DropReferences => if s.work.at.drained then Go(Dropped(s, s.current.value), Returning) else Go(s, Stopped)
    case ReturnPermits => Go(AddFree(s, s.current.value, PERMITS), Stopped)
    case FinishStop => Finish(s, StopDone, [])
  }

  function AfterStarting(s: State, starting: Starting): State
    requires MayStart(s, starting)
  {
    match starting
    case BeginStart => Go(s.(runTime := true), if s.work.op.fd <= 0 then Marked else Making)
    case AnnounceProxyOnly => Finish(s, ProxyOnly, [Error])
    case MakeHandler =>
      Go(s.(handlers := s.handlers + [Handler(s.work.op.callback, Some(s.work.op.callback), false, PERMITS)],
            current := Some(|s.handlers|),
            replaced := s.replaced + if s.timedOut && s.current.Some? then {s.current.value} else {}), Hooking)
    case InstallHook => Go(s.(hook := true), Listening)
    case ListenOk => Go(SetHandler(s, s.current.value, s.handlers[s.current.value].(listener := true)), Opened)
    case ListenFails =>
      Go(s.(runTime := false, hook := false, current := None,
            released := s.released + [s.handlers[s.current.value].callback.value]), Failed)
    case AnnounceFailure => Finish(s, ListenFailed, [Error])
    case AnnounceReady => Finish(s, Running, [Ready])
  }

  function After(s: State, step: Step): State
    requires Enabled(s, step)
  {
    match step
    case ByCall(e, move) => AfterMove(s, e, move)
    case Enqueue(op) =>
      s.(queue := s.queue + [op], enqueued := s.enqueued + [op], made := s.made + if op.Start? then 1 else 0)
    case TakeOp => s.(work := Busy(s.queue[0], Stopping), queue := s.queue[1..], timedOut := false)
    case ByClose(closing) => AfterClosing(s, closing)
    case ByStart(starting) => AfterStarting(s, starting)
    case Panic => AfterPanic(s)
  }

  const START_STATE := State([], None, false, false, [], Idle, map[], 0, [], [], [], [], false, {})

  ghost predicate Run(s: State, steps: seq<Step>, t: State)
    decreases |steps|
  {
    if steps == [] then s == t
    else Enabled(s, steps[0]) && Run(After(s, steps[0]), steps[1..], t)
  }

  // ----- permits -----

  predicate HasPermit(c: Call, h: nat) {
    (c.Inside? || c.Checked? || c.Calling? || c.Leaving?) && c.h == h
  }

  function Holders(s: State, h: nat): set<Id> {
    set e | e in s.calls && HasPermit(s.calls[e], h)
  }

  function WorkerHas(s: State, h: nat): nat {
    if HoldsPermits(s.work) && s.current == Some(h) then PERMITS else 0
  }

  /** Every handler's four permits are free, with one call each, or all with close. */
  ghost predicate PermitsAddUp(s: State) {
    forall h: nat :: h < |s.handlers| ==> s.handlers[h].free + |Holders(s, h)| + WorkerHas(s, h) == PERMITS
  }

  // ----- who may use a callback -----

  predicate InJvm(c: Call) {
    c.Checked? || c.Calling?
  }

  ghost predicate HandlersSound(s: State) {
    && (forall h: nat :: h < |s.handlers| ==>
         && (s.handlers[h].callback.Some? ==> s.handlers[h].callback.value == s.handlers[h].born)
         && (s.handlers[h].listener ==> s.handlers[h].callback.Some?))
    && (s.current.Some? ==> s.current.value < |s.handlers|)
    && (s.hook ==> s.current.Some?)
  }

  predicate JustMade(s: State) {
    HasCurrent(s) && s.handlers[s.current.value].callback.Some? && !s.handlers[s.current.value].listener
  }

  predicate Listens(s: State) {
    HasCurrent(s) && s.handlers[s.current.value].listener && s.hook
  }

  /** What the worker relies on at each point. */
  ghost predicate WorkerSound(s: State) {
    s.work.Busy? ==>
      match s.work.at
      case Stopping => true
      case Draining => s.current.Some?
      case Closing(_) => s.current.Some?
      case Unhooked(_) => s.current.Some?
      case Returning => s.current.Some?
      case Stopped => true
      case Marked => s.work.op.Start? && s.work.op.fd <= 0
      case Making => s.work.op.Start? && s.work.op.fd > 0
      case Hooking => s.work.op.Start? && s.work.op.fd > 0 && JustMade(s)
      case Listening => s.work.op.Start? && s.work.op.fd > 0 && JustMade(s) && s.hook
      case Failed => s.work.op.Start? && s.work.op.fd > 0
      case Opened => s.work.op.Start? && s.work.op.fd > 0 && Listens(s)
  }

  /** A call inside the JVM, or about to be, uses the callback of a handler that listens. */
  ghost predicate CallsSound(s: State) {
    forall e :: e in s.calls && InJvm(s.calls[e]) ==>
      var c := s.calls[e];
      && c.h < |s.handlers| && s.handlers[c.h].listener
      && (c.Calling? ==> c.callback == Some(s.handlers[c.h].born))
  }

  predicate KnowsHandler(c: Call) {
    c.Asking? || c.Inside? || c.Checked? || c.Calling? || c.Leaving?
  }

  ghost predicate CallsInRange(s: State) {
    forall e :: e in s.calls && KnowsHandler(s.calls[e]) ==> s.calls[e].h < |s.handlers|
  }

  // ----- callbacks -----

  /** Has not made its handler yet. */
  predicate Early(at: At) {
    !at.Hooking? && !at.Listening? && !at.Failed? && !at.Opened?
  }

  /** Callbacks are handed out in order: handlers, then the operation at work, then the queue. */
  ghost predicate InOrder(s: State) {
    && (forall g: nat, h: nat :: g < h < |s.handlers| ==> s.handlers[g].born < s.handlers[h].born)
    && (forall i: nat, j: nat :: i < j < |s.queue| && s.queue[i].Start? && s.queue[j].Start? ==>
         s.queue[i].callback < s.queue[j].callback)
    && (forall i: nat :: i < |s.queue| && s.queue[i].Start? ==> s.queue[i].callback < s.made)
    && (forall h: nat :: h < |s.handlers| ==> s.handlers[h].born < s.made)
    && (forall h: nat, i: nat :: h < |s.handlers| && i < |s.queue| && s.queue[i].Start? ==>
         s.handlers[h].born < s.queue[i].callback)
    && (s.work.Busy? && s.work.op.Start? ==>
         && s.work.op.callback < s.made
         && (forall i: nat :: i < |s.queue| && s.queue[i].Start? ==> s.work.op.callback < s.queue[i].callback)
         && (Early(s.work.at) ==> forall h: nat :: h < |s.handlers| ==> s.handlers[h].born < s.work.op.callback))
  }

  /** Nobody will use this handler's callback again. */
  predicate Spent(s: State, h: nat) {
    h < |s.handlers| && !s.handlers[h].listener && (s.handlers[h].callback.None? || s.current != Some(h))
  }

  ghost predicate ReleasedSound(s: State) {
    && (forall i, j :: 0 <= i < j < |s.released| ==> s.released[i] != s.released[j])
    && (forall c :: c in s.released ==> exists h: nat :: Spent(s, h) && s.handlers[h].born == c)
  }

  ghost predicate Sound(s: State) {
    HandlersSound(s) && WorkerSound(s) && CallsInRange(s) && CallsSound(s)
  }

  ghost predicate Inv(s: State) {
    Sound(s) && PermitsAddUp(s) && InOrder(s) && ReleasedSound(s)
  }

  // ----- every step keeps it -----

  lemma HoldersAfterCall(s: State, e: Id, c: Call, h: nat)
    requires e in s.calls
    ensures var t := To(s, e, c);
      |Holders(t, h)| == |Holders(s, h)| + (if HasPermit(c, h) then 1 else 0) -
        (if HasPermit(s.calls[e], h) then 1 else 0)
  {
    var t := To(s, e, c);
    if HasPermit(c, h) {
      assert Holders(t, h) == Holders(s, h) + {e};
    } else {
      assert Holders(t, h) == Holders(s, h) - {e};
    }
  }

  lemma MoveKeepsPermits(s: State, e: Id, move: Move)
    requires PermitsAddUp(s) && MayMove(s, e, move)
    ensures PermitsAddUp(AfterMove(s, e, move))
  {
    var t := AfterMove(s, e, move);
    forall h: nat | h < |t.handlers| ensures t.handlers[h].free + |Holders(t, h)| + WorkerHas(t, h) == PERMITS {
      if move.FetchHook? {
        assert Holders(t, h) == Holders(s, h);
      } else {
        HoldersAfterCall(s, e, t.calls[e], h);
        assert Holders(t, h) == Holders(To(s, e, t.calls[e]), h);
      }
    }
  }

  /** No call moved, and what each handler lost or gained the worker gained or lost. */
  ghost predicate Trades(s: State, t: State) {
    && t.calls == s.calls && |t.handlers| >= |s.handlers|
    && (forall h: nat :: h < |s.handlers| ==>
         t.handlers[h].free + WorkerHas(t, h) == s.handlers[h].free + WorkerHas(s, h))
    && (forall h: nat :: |s.handlers| <= h < |t.handlers| ==> t.handlers[h].free == PERMITS && WorkerHas(t, h) == 0)
  }

  lemma WorkerTrades(s: State, t: State)
    requires PermitsAddUp(s) && CallsInRange(s) && Trades(s, t)
    ensures PermitsAddUp(t)
  {
    forall h: nat | h < |t.handlers| ensures t.handlers[h].free + |Holders(t, h)| + WorkerHas(t, h) == PERMITS {
      assert Holders(t, h) == Holders(s, h);
      if h >= |s.handlers| {
        assert Holders(t, h) == {};
      }
    }
  }

  /** close takes the permits, or gives them back. */
  lemma PermitsChangeHands(s: State, closing: Closing)
    requires WorkerSound(s) && MayClose(s, closing) && (closing.Drain? || closing.ReturnPermits?)
    ensures Trades(s, AfterClosing(s, closing))
  {
  }

  lemma PermitsStayPut(s: State, closing: Closing)
    requires WorkerSound(s) && MayClose(s, closing) && !closing.Drain? && !closing.ReturnPermits?
    ensures Trades(s, AfterClosing(s, closing))
  {
    var t := AfterClosing(s, closing);
    assert |t.handlers| == |s.handlers| && HoldsPermits(t.work) == HoldsPermits(s.work) && t.current == s.current;
    assert forall h: nat :: h < |s.handlers| ==> t.handlers[h].free == s.handlers[h].free;
  }

  lemma ClosingTrades(s: State, closing: Closing)
    requires WorkerSound(s) && MayClose(s, closing)
    ensures Trades(s, AfterClosing(s, closing))
  {
    if closing.Drain? || closing.ReturnPermits? {
      PermitsChangeHands(s, closing);
    } else {
      PermitsStayPut(s, closing);
    }
  }

  lemma StartingTrades(s: State, starting: Starting)
    requires WorkerSound(s) && MayStart(s, starting)
    ensures Trades(s, AfterStarting(s, starting))
  {
  }

  lemma PanicTrades(s: State)
    requires WorkerSound(s) && Enabled(s, Panic)
    ensures Trades(s, AfterPanic(s))
  {
  }

  /** While close has all permits of the current handler, no call is in the JVM with it. */
  lemma DrainedIsQuiet(s: State, e: Id)
    requires PermitsAddUp(s) && HandlersSound(s) && CallsSound(s) && HoldsPermits(s.work) && s.current.Some?
    requires e in s.calls && InJvm(s.calls[e])
    ensures s.calls[e].h != s.current.value
  {
    assert e in Holders(s, s.calls[e].h);
  }

  /** Handlers are the same except for their free counts. */
  ghost predicate SameHandlers(s: State, t: State) {
    && |t.handlers| == |s.handlers|
    && forall h: nat :: h < |s.handlers| ==> t.handlers[h] == s.handlers[h].(free := t.handlers[h].free)
  }

  lemma MoveFrame(s: State, e: Id, move: Move)
    requires MayMove(s, e, move)
    ensures var t := AfterMove(s, e, move);
      && SameHandlers(s, t) && t.calls == s.calls[e := t.calls[e]]
      && t == s.(handlers := t.handlers, calls := t.calls)
  {
  }

  lemma MoveKeepsHandlers(s: State, e: Id, move: Move)
    requires HandlersSound(s) && WorkerSound(s) && MayMove(s, e, move)
    ensures HandlersSound(AfterMove(s, e, move)) && WorkerSound(AfterMove(s, e, move))
  {
    MoveFrame(s, e, move);
  }

  predicate CallInRange(s: State, c: Call) {
    KnowsHandler(c) ==> c.h < |s.handlers|
  }

  predicate CallSound(s: State, c: Call) {
    InJvm(c) ==>
      c.h < |s.handlers| && s.handlers[c.h].listener && (c.Calling? ==> c.callback == Some(s.handlers[c.h].born))
  }

  /** The call that moves has a handler, and uses its callback only while it listens. */
  lemma MovedCallSound(s: State, e: Id, move: Move)
    requires HandlersSound(s) && CallsInRange(s) && CallsSound(s) && MayMove(s, e, move)
    ensures e in AfterMove(s, e, move).calls
    ensures CallInRange(s, AfterMove(s, e, move).calls[e]) && CallSound(s, AfterMove(s, e, move).calls[e])
  {
  }

  lemma CallsFollow(s: State, t: State, e: Id)
    requires CallsInRange(s) && CallsSound(s) && SameHandlers(s, t)
    requires e in t.calls && t.calls == s.calls[e := t.calls[e]] && CallInRange(s, t.calls[e])
    requires CallSound(s, t.calls[e])
    ensures CallsInRange(t) && CallsSound(t)
  {
  }

  lemma MoveKeepsCalls(s: State, e: Id, move: Move)
    requires HandlersSound(s) && CallsInRange(s) && CallsSound(s) && MayMove(s, e, move)
    ensures CallsInRange(AfterMove(s, e, move)) && CallsSound(AfterMove(s, e, move))
  {
    MoveFrame(s, e, move);
    MovedCallSound(s, e, move);
    CallsFollow(s, AfterMove(s, e, move), e);
  }

  lemma ClosingKeepsPermits(s: State, closing: Closing)
    requires Sound(s) && PermitsAddUp(s) && MayClose(s, closing)
    ensures PermitsAddUp(AfterClosing(s, closing))
  {
    ClosingTrades(s, closing);
    WorkerTrades(s, AfterClosing(s, closing));
  }

  lemma ClosingKeepsSound(s: State, closing: Closing)
    requires Sound(s) && PermitsAddUp(s) && MayClose(s, closing)
    ensures Sound(AfterClosing(s, closing))
  {
    if closing.DropReferences? && s.work.at.drained {
      forall e | e in s.calls && InJvm(s.calls[e]) ensures s.calls[e].h != s.current.value {
        DrainedIsQuiet(s, e);
      }
    }
  }

  lemma StartingKeepsPermits(s: State, starting: Starting)
    requires Sound(s) && PermitsAddUp(s) && MayStart(s, starting)
    ensures PermitsAddUp(AfterStarting(s, starting))
  {
    StartingTrades(s, starting);
    WorkerTrades(s, AfterStarting(s, starting));
  }

  lemma StartingKeepsSound(s: State, starting: Starting)
    requires Sound(s) && MayStart(s, starting)
    ensures Sound(AfterStarting(s, starting))
  {
  }

  lemma PanicKeepsPermits(s: State)
    requires Sound(s) && PermitsAddUp(s) && Enabled(s, Panic)
    ensures PermitsAddUp(AfterPanic(s))
  {
    PanicTrades(s);
    WorkerTrades(s, AfterPanic(s));
  }

  lemma PanicKeepsSound(s: State)
    requires Sound(s) && Enabled(s, Panic)
    ensures Sound(AfterPanic(s))
  {
    assert SameHandlers(s, AfterPanic(s));
  }

  lemma EnqueueKeepsOrder(s: State, op: Op)
    requires InOrder(s) && Enabled(s, Enqueue(op))
    ensures InOrder(After(s, Enqueue(op)))
  {
    var t := After(s, Enqueue(op));
    forall i: nat | i < |t.queue| && t.queue[i].Start?
      ensures t.queue[i].callback < t.made && (i < |s.queue| || t.queue[i].callback == s.made)
    {
      assert i < |s.queue| ==> t.queue[i] == s.queue[i];
    }
    forall i: nat, j: nat | i < j < |t.queue| && t.queue[i].Start? && t.queue[j].Start?
      ensures t.queue[i].callback < t.queue[j].callback
    {
      assert t.queue[i] == s.queue[i];
    }
  }

  lemma TakeOpKeepsOrder(s: State)
    requires InOrder(s) && Enabled(s, TakeOp)
    ensures InOrder(After(s, TakeOp))
  {
  }

  lemma MakeHandlerKeepsOrder(s: State)
    requires InOrder(s) && MayStart(s, MakeHandler)
    ensures InOrder(AfterStarting(s, MakeHandler))
  {
    var t := AfterStarting(s, MakeHandler);
    assert t.handlers[|s.handlers|].born == s.work.op.callback;
  }

  /** Handlers, queue and the operation at work as far as the order of callbacks goes. */
  ghost predicate SameOrder(s: State, t: State) {
    && t.queue == s.queue && t.made == s.made && |t.handlers| == |s.handlers|
    && (forall h: nat :: h < |s.handlers| ==> t.handlers[h].born == s.handlers[h].born)
    && (t.work.Busy? ==> s.work.Busy? && t.work.op == s.work.op && (Early(t.work.at) ==> Early(s.work.at)))
  }

  lemma ClosingSameOrder(s: State, closing: Closing)
    requires MayClose(s, closing)
    ensures SameOrder(s, AfterClosing(s, closing))
  {
  }

  lemma StartingSameOrder(s: State, starting: Starting)
    requires MayStart(s, starting) && !starting.MakeHandler?
    ensures SameOrder(s, AfterStarting(s, starting))
  {
  }

  lemma SameOrderKeeps(s: State, t: State)
    requires InOrder(s) && SameOrder(s, t)
    ensures InOrder(t)
  {
  }

  lemma StepKeepsOrder(s: State, step: Step)
    requires InOrder(s) && Enabled(s, step)
    ensures InOrder(After(s, step))
  {
    match step
    case Enqueue(op) => EnqueueKeepsOrder(s, op);
    case TakeOp => TakeOpKeepsOrder(s);
    case ByCall(e, move) => MoveFrame(s, e, move); SameOrderKeeps(s, After(s, step));
    case ByClose(closing) => ClosingSameOrder(s, closing); SameOrderKeeps(s, After(s, step));
    case ByStart(starting) =>
      if starting.MakeHandler? {
        MakeHandlerKeepsOrder(s);
      } else {
        StartingSameOrder(s, starting);
        SameOrderKeeps(s, After(s, step));
      }
    case Panic => SameOrderKeeps(s, After(s, step));
  }

  ghost predicate SpentStays(s: State, t: State) {
    forall h: nat :: Spent(s, h) ==> Spent(t, h) && t.handlers[h].born == s.handlers[h].born
  }

  lemma ClosingKeepsSpent(s: State, closing: Closing)
    requires MayClose(s, closing)
    ensures SpentStays(s, AfterClosing(s, closing))
  {
  }

  lemma StartingKeepsSpent(s: State, starting: Starting)
    requires WorkerSound(s) && MayStart(s, starting)
    ensures SpentStays(s, AfterStarting(s, starting))
  {
  }

  lemma StepKeepsSpent(s: State, step: Step)
    requires WorkerSound(s) && Enabled(s, step)
    ensures SpentStays(s, After(s, step))
  {
    match step
    case ByCall(e, move) => MoveFrame(s, e, move);
    case ByClose(closing) => ClosingKeepsSpent(s, closing);
    case ByStart(starting) => StartingKeepsSpent(s, starting);
    case _ => {}
  }

  /** What a step releases is the callback of the current handler, spent from then on. */
  ghost predicate ReleasesCurrent(s: State, t: State) {
    t.released == s.released ||
    (HasCurrent(s) && !Spent(s, s.current.value) && Spent(t, s.current.value)
     && t.handlers[s.current.value].born == s.handlers[s.current.value].born
     && t.released == s.released + [s.handlers[s.current.value].born])
  }

  lemma ClosingReleases(s: State, closing: Closing)
    requires HandlersSound(s) && MayClose(s, closing)
    ensures ReleasesCurrent(s, AfterClosing(s, closing))
  {
  }

  lemma StartingReleases(s: State, starting: Starting)
    requires HandlersSound(s) && WorkerSound(s) && MayStart(s, starting)
    ensures ReleasesCurrent(s, AfterStarting(s, starting))
  {
  }

  lemma StepReleases(s: State, step: Step)
    requires HandlersSound(s) && WorkerSound(s) && Enabled(s, step)
    ensures ReleasesCurrent(s, After(s, step))
  {
    match step
    case ByCall(e, move) => MoveFrame(s, e, move);
    case ByClose(closing) => ClosingReleases(s, closing);
    case ByStart(starting) => StartingReleases(s, starting);
    case _ => assert After(s, step).released == s.released;
  }

  lemma ReleasedFollows(s: State, t: State)
    requires InOrder(s) && ReleasedSound(s) && SpentStays(s, t) && ReleasesCurrent(s, t)
    ensures ReleasedSound(t)
  {
    forall c | c in s.released ensures exists h: nat :: Spent(t, h) && t.handlers[h].born == c {
      var h: nat :| Spent(s, h) && s.handlers[h].born == c;
      assert Spent(t, h);
    }
    if t.released != s.released {
      var h, c := s.current.value, s.handlers[s.current.value].born;
      assert Spent(t, h) && t.handlers[h].born == c;
      assert c !in s.released;
    }
  }

  lemma StepKeepsReleased(s: State, step: Step)
    requires HandlersSound(s) && WorkerSound(s) && InOrder(s) && ReleasedSound(s) && Enabled(s, step)
    ensures ReleasedSound(After(s, step))
  {
    StepKeepsSpent(s, step);
    StepReleases(s, step);
    ReleasedFollows(s, After(s, step));
  }

  lemma StepKeepsInv(s: State, step: Step)
    requires Inv(s) && Enabled(s, step)
    ensures Inv(After(s, step))
  {
    StepKeepsOrder(s, step);
    StepKeepsReleased(s, step);
    match step
    case ByCall(e, move) => MoveKeepsPermits(s, e, move); MoveKeepsHandlers(s, e, move); MoveKeepsCalls(s, e, move);
    case ByClose(closing) => ClosingKeepsPermits(s, closing); ClosingKeepsSound(s, closing);
    case ByStart(starting) => StartingKeepsPermits(s, starting); StartingKeepsSound(s, starting);
    case Panic => PanicKeepsPermits(s); PanicKeepsSound(s);
    case _ => WorkerTrades(s, After(s, step));
  }

  lemma {:induction false} RunKeepsInv(s: State, steps: seq<Step>, t: State)
    requires Inv(s) && Run(s, steps, t)
    ensures Inv(t)
    decreases |steps|
  {
    if steps != [] {
      StepKeepsInv(s, steps[0]);
      RunKeepsInv(After(s, steps[0]), steps[1..], t);
    }
  }

  /** In every interleaving: no callback is released twice, and a call inside the JVM has a
      callback that is not released. */
  lemma EveryRunIsSafe(steps: seq<Step>, s: State)
    requires Run(START_STATE, steps, s)
    ensures forall i, j :: 0 <= i < j < |s.released| ==> s.released[i] != s.released[j]
    ensures forall e :: e in s.calls && s.calls[e].Calling? ==>
      s.calls[e].callback.Some? && s.calls[e].callback.value !in s.released
  {
    RunKeepsInv(START_STATE, steps, s);
    forall e | e in s.calls && s.calls[e].Calling?
      ensures s.calls[e].callback.Some? && s.calls[e].callback.value !in s.released
    {
      var h := s.calls[e].h;
      assert s.handlers[h].listener && s.calls[e].callback == Some(s.handlers[h].born);
      forall g: nat | Spent(s, g) ensures s.handlers[g].born != s.handlers[h].born {
        assert g != h;
      }
    }
  }

  lemma ClosingKeepsQueue(s: State, closing: Closing)
    requires MayClose(s, closing)
    ensures AfterClosing(s, closing).queue == s.queue
  {
  }

  lemma StartingKeepsQueue(s: State, starting: Starting)
    requires MayStart(s, starting)
    ensures AfterStarting(s, starting).queue == s.queue
  {
  }

  lemma PanicKeepsQueue(s: State)
    requires Enabled(s, Panic)
    ensures AfterPanic(s).queue == s.queue
  {
  }

  lemma StepFitsQueue(s: State, step: Step)
    requires |s.queue| <= QUEUE_CAPACITY && Enabled(s, step)
    ensures |After(s, step).queue| <= QUEUE_CAPACITY
  {
    match step
    case ByCall(e, move) => MoveFrame(s, e, move);
    case ByClose(closing) => ClosingKeepsQueue(s, closing);
    case ByStart(starting) => StartingKeepsQueue(s, starting);
    case Panic => PanicKeepsQueue(s);
    case _ => {}
  }

  lemma {:induction false} QueueFits(s: State, steps: seq<Step>, t: State)
    requires |s.queue| <= QUEUE_CAPACITY && Run(s, steps, t)
    ensures |t.queue| <= QUEUE_CAPACITY
    decreases |steps|
  {
    if steps != [] {
      StepFitsQueue(s, steps[0]);
      QueueFits(After(s, steps[0]), steps[1..], t);
    }
  }

  /** In every interleaving the four permits of every handler are all accounted for, and at
      most sixteen operations wait. */
  lemma PermitsConserved(steps: seq<Step>, s: State)
    requires Run(START_STATE, steps, s)
    ensures forall h: nat :: h < |s.handlers| ==> s.handlers[h].free + |Holders(s, h)| + WorkerHas(s, h) == 4
    ensures |s.queue| <= 16
  {
    QueueFits(START_STATE, steps, s);
    RunKeepsInv(START_STATE, steps, s);
  }

  // ----- sessions and status messages -----

  function Ops(log: seq<Outcome>): seq<Op> {
    if log == [] then [] else Ops(log[..|log| - 1]) + [log[|log| - 1].op]
  }

  function StatusOf(o: Outcome): seq<Status> {
    if o.op.Stop? then [] else if o.end == Running then [Ready] else [Error]
  }

  /** One status for each start, none for a stop. */
  function Statuses(log: seq<Outcome>): seq<Status> {
    if log == [] then [] else Statuses(log[..|log| - 1]) + StatusOf(log[|log| - 1])
  }

  function Starts(ops: seq<Op>): nat {
    if ops == [] then 0 else Starts(ops[..|ops| - 1]) + if ops[|ops| - 1].Start? then 1 else 0
  }

  /** What each end says about its operation. */
  predicate EndFits(o: Outcome) {
    match o.end
    case StopDone => o.op.Stop?
    case ProxyOnly => o.op.Start? && o.op.fd <= 0
    case Running => o.op.Start? && o.op.fd > 0
    case ListenFailed => o.op.Start? && o.op.fd > 0
    case Panicked => true
  }

  predicate SessionLeft(log: seq<Outcome>) {
    |log| > 0 && (log[|log| - 1].end == ProxyOnly || log[|log| - 1].end == Running)
  }

  ghost predicate RunTimeFits(s: State) {
    if s.work.Idle? || s.work.at.Stopping? then
      && s.runTime == SessionLeft(s.log)
      && (|s.log| > 0 && s.log[|s.log| - 1].end == Running ==> Listens(s))
    else s.runTime == (s.work.at.Marked? || s.work.at.Making? ||
             s.work.at.Hooking? || s.work.at.Listening? || s.work.at.Opened?)
  }

  ghost predicate LogFits(s: State) {
    && s.enqueued == Ops(s.log) + (if s.work.Busy? then [s.work.op] else []) + s.queue
    && s.messages == Statuses(s.log)
    && (forall i :: 0 <= i < |s.log| ==> EndFits(s.log[i]))
  }

  lemma FinishKeepsLog(s: State, end: End, m: seq<Status>)
    requires LogFits(s) && s.work.Busy? && m == StatusOf(Outcome(s.work.op, end)) && EndFits(Outcome(s.work.op, end))
    ensures LogFits(Finish(s, end, m))
  {
    var log := Finish(s, end, m).log;
    assert log[..|log| - 1] == s.log;
  }

  /** Nothing that LogFits looks at changes. */
  predicate SameLog(s: State, t: State) {
    && t.enqueued == s.enqueued && t.queue == s.queue && t.messages == s.messages && t.log == s.log
    && t.work.Busy? == s.work.Busy?
    && (s.work.Busy? ==> t.work.op == s.work.op)
  }

  lemma ClosingSameLog(s: State, closing: Closing)
    requires MayClose(s, closing) && !closing.FinishStop?
    ensures SameLog(s, AfterClosing(s, closing))
  {
  }

  lemma StartingKeepsLog(s: State, starting: Starting)
    requires LogFits(s) && WorkerSound(s) && MayStart(s, starting)
    ensures LogFits(AfterStarting(s, starting))
  {
    match starting
    case AnnounceProxyOnly => FinishKeepsLog(s, ProxyOnly, [Error]);
    case AnnounceFailure => FinishKeepsLog(s, ListenFailed, [Error]);
    case AnnounceReady => FinishKeepsLog(s, Running, [Ready]);
    case _ => assert SameLog(s, AfterStarting(s, starting));
  }

  lemma PanicKeepsLog(s: State)
    requires LogFits(s) && Enabled(s, Panic)
    ensures LogFits(AfterPanic(s))
  {
    var m := if s.work.op.Start? then [Error] else [];
    FinishKeepsLog(s, Panicked, m);
    var t := Finish(s, Panicked, m);
    assert SameLog(t, AfterPanic(s));
  }

  lemma TakeOpKeepsLog(s: State)
    requires LogFits(s) && Enabled(s, TakeOp)
    ensures LogFits(After(s, TakeOp))
  {
    assert s.queue == [s.queue[0]] + s.queue[1..];
    assert Ops(s.log) + [] + s.queue == Ops(s.log) + [s.queue[0]] + s.queue[1..];
  }

  lemma StepKeepsLog(s: State, step: Step)
    requires LogFits(s) && WorkerSound(s) && Enabled(s, step)
    ensures LogFits(After(s, step))
  {
    match step
    case ByCall(e, move) => MoveFrame(s, e, move);
    case Enqueue(op) => {}
    case TakeOp => TakeOpKeepsLog(s);
    case ByClose(closing) =>
      if closing.FinishStop? { FinishKeepsLog(s, StopDone, []); } else { ClosingSameLog(s, closing); }
    case ByStart(starting) => StartingKeepsLog(s, starting);
    case Panic => PanicKeepsLog(s);
  }

  lemma ClosingKeepsRunTime(s: State, closing: Closing)
    requires RunTimeFits(s) && MayClose(s, closing)
    ensures RunTimeFits(AfterClosing(s, closing))
  {
  }

  lemma StartingKeepsRunTime(s: State, starting: Starting)
    requires RunTimeFits(s) && WorkerSound(s) && MayStart(s, starting)
    ensures RunTimeFits(AfterStarting(s, starting))
  {
  }

  lemma StepKeepsRunTime(s: State, step: Step)
    requires RunTimeFits(s) && WorkerSound(s) && Enabled(s, step)
    ensures RunTimeFits(After(s, step))
  {
    match step
    case ByCall(e, move) => MoveFrame(s, e, move);
    case ByClose(closing) => ClosingKeepsRunTime(s, closing);
    case ByStart(starting) => StartingKeepsRunTime(s, starting);
    case _ => {}
  }

  lemma {:induction false} RunKeepsSession(s: State, steps: seq<Step>, t: State)
    requires Inv(s) && RunTimeFits(s) && LogFits(s) && Run(s, steps, t)
    ensures RunTimeFits(t) && LogFits(t)
    decreases |steps|
  {
    if steps != [] {
      StepKeepsInv(s, steps[0]);
      StepKeepsRunTime(s, steps[0]);
      StepKeepsLog(s, steps[0]);
      RunKeepsSession(After(s, steps[0]), steps[1..], t);
    }
  }

  lemma {:induction false} OneStatusPerStart(log: seq<Outcome>)
    ensures |Statuses(log)| == Starts(Ops(log)) && |Ops(log)| == |log|
  {
    if log != [] {
      OneStatusPerStart(log[..|log| - 1]);
      assert Ops(log)[..|log| - 1] == Ops(log[..|log| - 1]);
    }
  }

  lemma {:induction false} OpsAreLogged(log: seq<Outcome>)
    ensures |Ops(log)| == |log| && forall i :: 0 <= i < |log| ==> Ops(log)[i] == log[i].op
  {
    if log != [] {
      OpsAreLogged(log[..|log| - 1]);
    }
  }

  /** A stop adds no status; a start adds Ready if it is running in the end, and otherwise Error. */
  lemma StatusTold(log: seq<Outcome>, last: Outcome)
    ensures Statuses([]) == []
    ensures Statuses(log + [last]) ==
      if last.op.Stop? then Statuses(log) else Statuses(log) + [if last.end == Running then Ready else Error]
  {
    assert (log + [last])[..|log|] == log;
  }

  lemma StartStateFits()
    ensures Inv(START_STATE) && RunTimeFits(START_STATE) && LogFits(START_STATE)
  {
  }

  /** What an idle worker has done. */
  ghost predicate SessionTold(s: State) {
    && s.enqueued == Ops(s.log) + s.queue
    && s.messages == Statuses(s.log) && |s.messages| == Starts(Ops(s.log))
    && s.runTime == SessionLeft(s.log)
    && (s.runTime ==> s.log[|s.log| - 1].op.Start? && (s.log[|s.log| - 1].op.fd <= 0 || Listens(s)))
  }

  lemma IdleToldTrue(s: State)
    requires s.work.Idle? && RunTimeFits(s) && LogFits(s)
    ensures SessionTold(s)
  {
    OneStatusPerStart(s.log);
    assert Ops(s.log) + [] + s.queue == Ops(s.log) + s.queue;
  }

  /** In every interleaving, whenever the worker is idle: it has carried out a prefix of the
      operations in the order they were enqueued and sent one status per start among them;
      runTime is set exactly if the last was a start that neither failed nor panicked: one
      without a descriptor, or one whose listener is still open behind its hook. */
  lemma SessionsAreTrue(steps: seq<Step>, s: State)
    requires Run(START_STATE, steps, s) && s.work.Idle?
    ensures SessionTold(s)
  {
    StartStateFits();
    RunKeepsSession(START_STATE, steps, s);
    IdleToldTrue(s);
  }

  // ----- when the hook is gone -----

  /** A stop, a start without a descriptor or one that failed to listen leaves no hook. */
  predicate LeavesNoHook(end: End) {
    end == StopDone || end == ProxyOnly || end == ListenFailed
  }

  predicate HookIsGone(at: At) {
    at.Unhooked? || at.Returning? || at.Stopped? || at.Marked? || at.Making? || at.Hooking? || at.Failed?
  }

  ghost predicate HookFits(s: State) {
    && (s.hook ==> s.current.Some?)
    && (if s.work.Idle? || s.work.at.Stopping? then
          |s.log| > 0 && LeavesNoHook(s.log[|s.log| - 1].end) ==> !s.hook
        else
          HookIsGone(s.work.at) ==> !s.hook)
  }

  lemma ClosingKeepsHook(s: State, closing: Closing)
    requires HookFits(s) && MayClose(s, closing)
    ensures HookFits(AfterClosing(s, closing))
  {
  }

  lemma StartingKeepsHook(s: State, starting: Starting)
    requires HookFits(s) && WorkerSound(s) && MayStart(s, starting)
    ensures HookFits(AfterStarting(s, starting))
  {
  }

  lemma StepKeepsHook(s: State, step: Step)
    requires HookFits(s) && WorkerSound(s) && Enabled(s, step)
    ensures HookFits(After(s, step))
  {
    match step
    case ByCall(e, move) => MoveFrame(s, e, move);
    case ByClose(closing) => ClosingKeepsHook(s, closing);
    case ByStart(starting) => StartingKeepsHook(s, starting);
    case _ => {}
  }

  lemma {:induction false} RunKeepsHook(s: State, steps: seq<Step>, t: State)
    requires Inv(s) && HookFits(s) && Run(s, steps, t)
    ensures HookFits(t)
    decreases |steps|
  {
    if steps != [] {
      StepKeepsInv(s, steps[0]);
      StepKeepsHook(s, steps[0]);
      RunKeepsHook(After(s, steps[0]), steps[1..], t);
    }
  }

  /** In every interleaving, whenever the worker is idle after an operation that left no
      listener and did not panic, no hook is installed. */
  lemma NoHookWithoutListener(steps: seq<Step>, s: State)
    requires Run(START_STATE, steps, s) && s.work.Idle? && |s.log| > 0
    ensures s.log[|s.log| - 1].end in [StopDone, ProxyOnly, ListenFailed] ==> !s.hook
  {
    StartStateFits();
    RunKeepsHook(START_STATE, steps, s);
  }

  // ----- a hook may outlive its handler -----

  /** Whether there is a handler after the steps: a start makes it, a failed one clears it. */
  ghost function HandlerLeft(present: bool, steps: seq<Step>): bool
    decreases |steps|
  {
    if steps == [] then present
    else HandlerLeft(
      if steps[0] == ByStart(MakeHandler) then true else if steps[0] == ByStart(ListenFails) then false else present,
      steps[1..])
  }

  lemma ClosingLeavesHandler(s: State, closing: Closing)
    requires MayClose(s, closing)
    ensures AfterClosing(s, closing).current == s.current
  {
  }

  lemma StepLeavesHandler(s: State, step: Step)
    requires Enabled(s, step)
    ensures After(s, step).current.Some? <==>
      step == ByStart(MakeHandler) || (step != ByStart(ListenFails) && s.current.Some?)
  {
    match step
    case ByCall(e, move) => MoveFrame(s, e, move);
    case ByClose(closing) => ClosingLeavesHandler(s, closing);
    case _ => {}
  }

  lemma {:induction false} RunLeavesHandler(s: State, steps: seq<Step>, t: State)
    requires Run(s, steps, t)
    ensures t.current.Some? <==> HandlerLeft(s.current.Some?, steps)
    decreases |steps|
  {
    if steps != [] {
      StepLeavesHandler(s, steps[0]);
      RunLeavesHandler(After(s, steps[0]), steps[1..], t);
    }
  }

  /** A call that has fetched the hook finds a handler, whatever happens in between, exactly
      if no failed start comes after the last handler made. */
  lemma HookedCallFindsHandler(s: State, steps: seq<Step>, t: State, e: Id)
    requires Run(s, steps, t) && MayMove(t, e, FindHandler)
    ensures AfterMove(t, e, FindHandler).calls[e].Asking? <==> HandlerLeft(s.current.Some?, steps)
  {
    RunLeavesHandler(s, steps, t);
  }

  // ----- runs made of pieces -----

  lemma {:induction false} RunJoins(s: State, steps: seq<Step>, t: State, more: seq<Step>, u: State)
    requires Run(s, steps, t) && Run(t, more, u)
    ensures Run(s, steps + more, u)
    decreases |steps|
  {
    if steps == [] {
      assert steps + more == more;
    } else {
      assert (steps + more)[1..] == steps[1..] + more;
      RunJoins(After(s, steps[0]), steps[1..], t, more, u);
    }
  }

  lemma RunOne(s: State, a: Step, t: State)
    requires Enabled(s, a) && After(s, a) == t
    ensures Run(s, [a], t)
  {
    assert [a][1..] == [];
  }

  lemma RunTwo(s: State, a: Step, m: State, b: Step, t: State)
    requires Enabled(s, a) && After(s, a) == m && Enabled(m, b) && After(m, b) == t
    ensures Run(s, [a, b], t)
  {
    assert [a, b][1..] == [b];
    RunOne(m, b, t);
  }

  const FIRST: Op := Start(7, 0)

  /** A first start: taken from the queue, past its stop, its hook in place and its listener
      being opened. */
  const STOPPING := START_STATE.(work := Busy(FIRST, Stopping), made := 1, enqueued := [FIRST])
  const MAKING := STOPPING.(work := Busy(FIRST, Making), runTime := true)
  const HOOKED := MAKING.(work := Busy(FIRST, Listening), hook := true, current := Some(0),
                          handlers := [Handler(0, Some(0), false, PERMITS)])

  const OPENING: seq<Step> :=
    [Enqueue(FIRST), TakeOp] + [ByClose(BeginStop), ByStart(BeginStart)] + [ByStart(MakeHandler), ByStart(InstallHook)]

  lemma TakingRuns(op: Op)
    requires op.Start? && op.callback == 0
    ensures Run(START_STATE, [Enqueue(op), TakeOp],
                START_STATE.(work := Busy(op, Stopping), made := 1, enqueued := [op]))
  {
    RunTwo(START_STATE, Enqueue(op), START_STATE.(queue := [op], made := 1, enqueued := [op]),
           TakeOp, START_STATE.(work := Busy(op, Stopping), made := 1, enqueued := [op]));
  }

  lemma MarkingRuns()
    ensures Run(STOPPING, [ByClose(BeginStop), ByStart(BeginStart)], MAKING)
  {
    RunTwo(STOPPING, ByClose(BeginStop), STOPPING.(work := Busy(FIRST, Stopped)), ByStart(BeginStart), MAKING);
  }

  lemma HookingRuns()
    ensures Run(MAKING, [ByStart(MakeHandler), ByStart(InstallHook)], HOOKED)
  {
    RunTwo(MAKING, ByStart(MakeHandler), HOOKED.(work := Busy(FIRST, Hooking), hook := false),
           ByStart(InstallHook), HOOKED);
  }

  lemma OpeningRuns()
    ensures Run(START_STATE, OPENING, HOOKED)
  {
    var take, mark := [Enqueue(FIRST), TakeOp], [ByClose(BeginStop), ByStart(BeginStart)];
    TakingRuns(FIRST);
    MarkingRuns();
    HookingRuns();
    RunJoins(START_STATE, take, STOPPING, mark, MAKING);
    RunJoins(START_STATE, take + mark, MAKING, [ByStart(MakeHandler), ByStart(InstallHook)], HOOKED);
  }

  const FAILED := HOOKED.(hook := false, runTime := false, current := None, released := [0],
                          work := Busy(FIRST, Failed), calls := map[0 := Hooked])

  lemma FailingRuns()
    ensures Run(HOOKED, [ByCall(0, FetchHook), ByStart(ListenFails)], FAILED)
  {
    RunTwo(HOOKED, ByCall(0, FetchHook), HOOKED.(calls := map[0 := Hooked]), ByStart(ListenFails), FAILED);
  }

  /** It can happen: the hook is in place before the listener opens, and if opening fails a
      call that has already fetched the hook finds no handler. */
  lemma HookedCallMayFindNone()
    ensures exists steps, t :: Run(START_STATE, steps, t) && CallIs(t, 0, NilHandler)
  {
    var fail, t := [ByCall(0, FetchHook), ByStart(ListenFails)], FAILED.(calls := map[0 := NilHandler]);
    OpeningRuns();
    FailingRuns();
    RunOne(FAILED, ByCall(0, FindHandler), t);
    RunJoins(START_STATE, OPENING, HOOKED, fail, FAILED);
    RunJoins(START_STATE, OPENING + fail, FAILED, [ByCall(0, FindHandler)], t);
    assert CallIs(t, 0, NilHandler);
  }

  // ----- what becomes of callbacks -----

  /** Where a callback passed to a start can be once the worker is idle: given back, kept by the
      current handler, never kept by any, or left with a handler that a later start replaced
      because its drain gave up. */
  datatype Fate = Released | Held | NeverKept | LeftBehind

  predicate Keeps(s: State, h: nat, c: Callback) {
    h < |s.handlers| && s.handlers[h].callback == Some(c)
  }

  ghost predicate Meets(s: State, c: Callback, fate: Fate) {
    match fate
    case Released => c in s.released
    case Held => exists h: nat :: s.current == Some(h) && Keeps(s, h, c)
    case NeverKept => forall h: nat :: h < |s.handlers| ==> s.handlers[h].born != c
    case LeftBehind => exists h: nat :: h in s.replaced && Keeps(s, h, c)
  }

  /** A dropped callback was released; one that is not is current, left behind, or released
      by the start that failed with it. */
  ghost predicate Disposed(s: State) {
    && (forall h: nat :: h < |s.handlers| ==>
         if s.handlers[h].callback.None? then s.handlers[h].born in s.released
         else s.current == Some(h) || h in s.replaced || s.handlers[h].born in s.released)
    && (forall h :: h in s.replaced ==>
         && h < |s.handlers| && s.current != Some(h)
         && (s.handlers[h].callback.Some? ==> s.handlers[h].born !in s.released))
  }

  predicate CurrentDropped(s: State) {
    HasCurrent(s) ==> s.handlers[s.current.value].callback.None?
  }

  /** After close, the old callback is gone unless the drain gave up. */
  predicate ClosedUnlessLate(s: State) {
    s.work.Busy? ==>
      match s.work.at
      case Closing(drained) => drained || s.timedOut
      case Unhooked(drained) => drained || s.timedOut
      case Returning => CurrentDropped(s)
      case Stopped => CurrentDropped(s) || s.timedOut
      case Making => CurrentDropped(s) || s.timedOut
      case _ => true
  }

  ghost predicate Born(s: State, c: Callback) {
    exists h: nat :: h < |s.handlers| && s.handlers[h].born == c
  }

  /** Which starts made a handler, as far as their end tells. */
  ghost predicate EndTellsBorn(s: State, o: Outcome) {
    o.op.Start? ==>
      && (o.end == Running || o.end == ListenFailed ==> Born(s, o.op.callback))
      && (o.end == ProxyOnly ==> !Born(s, o.op.callback))
  }

  /** The callback comes before those of all operations still to be finished. */
  ghost predicate Older(s: State, c: Callback) {
    && c < s.made
    && (s.work.Busy? && s.work.op.Start? ==> c < s.work.op.callback)
    && (forall i: nat :: i < |s.queue| && s.queue[i].Start? ==> c < s.queue[i].callback)
  }

  ghost predicate BirthsFit(s: State) {
    && (s.work.Busy? && s.work.op.Start? && !Early(s.work.at) ==> Born(s, s.work.op.callback))
    && (forall i :: 0 <= i < |s.log| ==> EndTellsBorn(s, s.log[i]))
    && (forall i :: 0 <= i < |s.log| && s.log[i].op.Start? ==> Older(s, s.log[i].op.callback))
  }

  // ----- every step keeps it -----

  /** Nothing that Disposed looks at changes. */
  ghost predicate SameDisposal(s: State, t: State) {
    SameHandlers(s, t) && t.current == s.current && t.released == s.released && t.replaced == s.replaced
  }

  lemma SameDisposalKeeps(s: State, t: State)
    requires Disposed(s) && SameDisposal(s, t)
    ensures Disposed(t)
  {
  }

  lemma ClosingSameDisposal(s: State, closing: Closing)
    requires MayClose(s, closing) && !closing.DropReferences?
    ensures SameDisposal(s, AfterClosing(s, closing))
  {
  }

  /** The current callback is dropped, and released if it was still there. */
  lemma DropKeepsDisposed(s: State)
    requires Disposed(s) && HandlersSound(s) && InOrder(s) && HasCurrent(s)
    ensures Disposed(Dropped(s, s.current.value))
  {
    var t, h := Dropped(s, s.current.value), s.current.value;
    forall g: nat | g < |s.handlers| && g != h ensures s.handlers[g].born != s.handlers[h].born {
      assert g < h || h < g;
    }
    assert forall c :: c in t.released <==>
      c in s.released || (s.handlers[h].callback.Some? && c == s.handlers[h].born);
  }

  lemma ClosingKeepsDisposed(s: State, closing: Closing)
    requires Disposed(s) && HandlersSound(s) && InOrder(s) && MayClose(s, closing)
    ensures Disposed(AfterClosing(s, closing))
  {
    if closing.DropReferences? && s.work.at.drained {
      DropKeepsDisposed(s);
      SameDisposalKeeps(Dropped(s, s.current.value), AfterClosing(s, closing));
    } else {
      assert SameDisposal(s, AfterClosing(s, closing)) by {
        if !closing.DropReferences? {
          ClosingSameDisposal(s, closing);
        }
      }
      SameDisposalKeeps(s, AfterClosing(s, closing));
    }
  }

  lemma SameBorn(s: State, g: nat, h: nat)
    requires InOrder(s) && g < |s.handlers| && h < |s.handlers| && s.handlers[g].born == s.handlers[h].born
    ensures g == h
  {
  }

  lemma NotReleasedYet(s: State, h: nat)
    requires InOrder(s) && ReleasedSound(s) && h < |s.handlers| && !Spent(s, h)
    ensures s.handlers[h].born !in s.released
  {
    if s.handlers[h].born in s.released {
      var g: nat :| Spent(s, g) && s.handlers[g].born == s.handlers[h].born;
      SameBorn(s, g, h);
    }
  }

  lemma MakeHandlerKeepsReplaced(s: State)
    requires Disposed(s) && InOrder(s) && ReleasedSound(s) && MayStart(s, MakeHandler)
    requires s.current.Some? ==> s.current.value < |s.handlers|
    ensures var t := AfterStarting(s, MakeHandler);
      forall h :: h in t.replaced ==>
        && h < |t.handlers| && t.current != Some(h)
        && (t.handlers[h].callback.Some? ==> t.handlers[h].born !in t.released)
  {
    if s.current.Some? && s.handlers[s.current.value].callback.Some? {
      NotReleasedYet(s, s.current.value);
    }
  }

  /** A start replaces a handler that still has its callback only if its drain gave up. */
  lemma MakeHandlerKeepsDisposed(s: State)
    requires Disposed(s) && HandlersSound(s) && ClosedUnlessLate(s) && InOrder(s)
    requires ReleasedSound(s) && MayStart(s, MakeHandler)
    ensures Disposed(AfterStarting(s, MakeHandler))
  {
    var t := AfterStarting(s, MakeHandler);
    MakeHandlerKeepsReplaced(s);
    forall h: nat | h < |t.handlers|
      ensures if t.handlers[h].callback.None? then t.handlers[h].born in t.released
              else t.current == Some(h) || h in t.replaced || t.handlers[h].born in t.released
    {
      assert h < |s.handlers| ==> t.handlers[h] == s.handlers[h];
    }
  }

  lemma ListenFailsKeepsDisposed(s: State)
    requires Disposed(s) && HandlersSound(s) && InOrder(s) && MayStart(s, ListenFails)
    ensures Disposed(AfterStarting(s, ListenFails))
  {
    var t, h := AfterStarting(s, ListenFails), s.current.value;
    forall g: nat | g < |s.handlers| && g != h ensures s.handlers[g].born != s.handlers[h].born {
      assert g < h || h < g;
    }
    assert forall c :: c in t.released <==> c in s.released || c == s.handlers[h].born;
  }

  lemma ListenOkKeepsDisposed(s: State)
    requires Disposed(s) && MayStart(s, ListenOk)
    ensures Disposed(AfterStarting(s, ListenOk))
  {
  }

  lemma StartingSameDisposal(s: State, starting: Starting)
    requires MayStart(s, starting) && !starting.MakeHandler? && !starting.ListenFails? && !starting.ListenOk?
    ensures SameDisposal(s, AfterStarting(s, starting))
  {
  }

  lemma StartingKeepsDisposed(s: State, starting: Starting)
    requires Disposed(s) && HandlersSound(s) && ClosedUnlessLate(s) && InOrder(s)
    requires ReleasedSound(s) && MayStart(s, starting)
    ensures Disposed(AfterStarting(s, starting))
  {
    match starting
    case MakeHandler => MakeHandlerKeepsDisposed(s);
    case ListenFails => ListenFailsKeepsDisposed(s);
    case ListenOk => ListenOkKeepsDisposed(s);
    case _ => StartingSameDisposal(s, starting); SameDisposalKeeps(s, AfterStarting(s, starting));
  }

  lemma PanicKeepsDisposed(s: State)
    requires Disposed(s) && Enabled(s, Panic)
    ensures Disposed(AfterPanic(s))
  {
    SameDisposalKeeps(s, AfterPanic(s));
  }

  lemma StepKeepsDisposed(s: State, step: Step)
    requires Disposed(s) && HandlersSound(s) && ClosedUnlessLate(s) && InOrder(s)
    requires ReleasedSound(s) && Enabled(s, step)
    ensures Disposed(After(s, step))
  {
    match step
    case ByCall(e, move) => MoveFrame(s, e, move); SameDisposalKeeps(s, After(s, step));
    case ByClose(closing) => ClosingKeepsDisposed(s, closing);
    case ByStart(starting) => StartingKeepsDisposed(s, starting);
    case Panic => PanicKeepsDisposed(s);
    case _ => SameDisposalKeeps(s, After(s, step));
  }

  lemma ClosingKeepsLate(s: State, closing: Closing)
    requires ClosedUnlessLate(s) && HandlersSound(s) && MayClose(s, closing)
    ensures ClosedUnlessLate(AfterClosing(s, closing))
  {
  }

  lemma StartingKeepsLate(s: State, starting: Starting)
    requires ClosedUnlessLate(s) && MayStart(s, starting)
    ensures ClosedUnlessLate(AfterStarting(s, starting))
  {
  }

  lemma StepKeepsLate(s: State, step: Step)
    requires ClosedUnlessLate(s) && HandlersSound(s) && Enabled(s, step)
    ensures ClosedUnlessLate(After(s, step))
  {
    match step
    case ByCall(e, move) => MoveFrame(s, e, move);
    case ByClose(closing) => ClosingKeepsLate(s, closing);
    case ByStart(starting) => StartingKeepsLate(s, starting);
    case _ => {}
  }

  lemma SameOrderBorn(s: State, t: State, c: Callback)
    requires SameOrder(s, t)
    ensures Born(t, c) <==> Born(s, c)
    ensures Older(s, c) ==> Older(t, c)
  {
    if Born(s, c) {
      var h: nat :| h < |s.handlers| && s.handlers[h].born == c;
      assert t.handlers[h].born == c;
    }
  }

  /** An operation goes on, making no handler. */
  lemma GoingOnKeepsBirths(s: State, t: State)
    requires BirthsFit(s) && SameOrder(s, t) && t.log == s.log
    requires t.work.Busy? && Early(s.work.at) ==> Early(t.work.at)
    ensures BirthsFit(t)
  {
    forall i | 0 <= i < |s.log| && s.log[i].op.Start?
      ensures EndTellsBorn(t, s.log[i]) && Older(t, s.log[i].op.callback)
    {
      SameOrderBorn(s, t, s.log[i].op.callback);
    }
    if t.work.Busy? && t.work.op.Start? {
      SameOrderBorn(s, t, t.work.op.callback);
    }
  }

  /** An operation ends in a way that fits. */
  lemma EndingKeepsBirths(s: State, t: State, o: Outcome)
    requires BirthsFit(s) && InOrder(s) && SameOrder(s, t) && s.work.Busy? && t.work.Idle?
    requires t.log == s.log + [o] && o.op == s.work.op && EndTellsBorn(s, o)
    ensures BirthsFit(t)
  {
    forall i | 0 <= i < |t.log| && t.log[i].op.Start?
      ensures EndTellsBorn(t, t.log[i]) && Older(t, t.log[i].op.callback)
    {
      assert i < |s.log| ==> t.log[i] == s.log[i];
      SameOrderBorn(s, t, t.log[i].op.callback);
    }
  }

  lemma ClosingKeepsBirths(s: State, closing: Closing)
    requires BirthsFit(s) && InOrder(s) && MayClose(s, closing)
    ensures BirthsFit(AfterClosing(s, closing))
  {
    var t := AfterClosing(s, closing);
    ClosingSameOrder(s, closing);
    if closing.FinishStop? {
      EndingKeepsBirths(s, t, Outcome(s.work.op, StopDone));
    } else {
      ClosingSameLog(s, closing);
      GoingOnKeepsBirths(s, t);
    }
  }

  lemma MakeHandlerKeepsBirths(s: State)
    requires BirthsFit(s) && InOrder(s) && MayStart(s, MakeHandler)
    ensures BirthsFit(AfterStarting(s, MakeHandler))
  {
    var t, n := AfterStarting(s, MakeHandler), |s.handlers|;
    assert t.handlers[n].born == s.work.op.callback;
    forall c | c != s.work.op.callback ensures Born(t, c) <==> Born(s, c) {
      if Born(s, c) {
        var h: nat :| h < n && s.handlers[h].born == c;
        assert t.handlers[h].born == c;
      }
    }
    forall i | 0 <= i < |s.log| && s.log[i].op.Start?
      ensures EndTellsBorn(t, s.log[i]) && Older(t, s.log[i].op.callback)
    {
      assert Older(s, s.log[i].op.callback);
    }
  }

  lemma AnnouncingKeepsBirths(s: State, starting: Starting)
    requires BirthsFit(s) && InOrder(s) && WorkerSound(s) && MayStart(s, starting)
    requires starting.AnnounceProxyOnly? || starting.AnnounceFailure? || starting.AnnounceReady?
    ensures BirthsFit(AfterStarting(s, starting))
  {
    var t := AfterStarting(s, starting);
    StartingSameOrder(s, starting);
    EndingKeepsBirths(s, t, t.log[|s.log|]);
  }

  lemma StartingKeepsBirths(s: State, starting: Starting)
    requires BirthsFit(s) && InOrder(s) && WorkerSound(s) && MayStart(s, starting)
    ensures BirthsFit(AfterStarting(s, starting))
  {
    match starting
    case MakeHandler => MakeHandlerKeepsBirths(s);
    case AnnounceProxyOnly => AnnouncingKeepsBirths(s, starting);
    case AnnounceFailure => AnnouncingKeepsBirths(s, starting);
    case AnnounceReady => AnnouncingKeepsBirths(s, starting);
    case _ => StartingSameOrder(s, starting); GoingOnKeepsBirths(s, AfterStarting(s, starting));
  }

  lemma QueueKeepsBirths(s: State, step: Step)
    requires BirthsFit(s) && InOrder(s) && Enabled(s, step) && (step.Enqueue? || step.TakeOp?)
    ensures BirthsFit(After(s, step))
  {
    var t := After(s, step);
    forall c ensures Born(t, c) <==> Born(s, c) { }
    forall i | 0 <= i < |s.log| && s.log[i].op.Start?
      ensures EndTellsBorn(t, s.log[i]) && Older(t, s.log[i].op.callback)
    {
      assert Older(s, s.log[i].op.callback);
    }
  }

  lemma StepKeepsBirths(s: State, step: Step)
    requires BirthsFit(s) && InOrder(s) && WorkerSound(s) && Enabled(s, step)
    ensures BirthsFit(After(s, step))
  {
    match step
    case ByCall(e, move) => MoveFrame(s, e, move); GoingOnKeepsBirths(s, After(s, step));
    case ByClose(closing) => ClosingKeepsBirths(s, closing);
    case ByStart(starting) => StartingKeepsBirths(s, starting);
    case Panic => EndingKeepsBirths(s, AfterPanic(s), Outcome(s.work.op, Panicked));
    case _ => QueueKeepsBirths(s, step);
  }

  ghost predicate Told(s: State) {
    Disposed(s) && ClosedUnlessLate(s) && BirthsFit(s)
  }

  lemma StepKeepsTold(s: State, step: Step)
    requires Inv(s) && Told(s) && Enabled(s, step)
    ensures Told(After(s, step))
  {
    StepKeepsDisposed(s, step);
    StepKeepsLate(s, step);
    StepKeepsBirths(s, step);
  }

  lemma {:induction false} RunKeepsTold(s: State, steps: seq<Step>, t: State)
    requires Inv(s) && Told(s) && Run(s, steps, t)
    ensures Inv(t) && Told(t)
    decreases |steps|
  {
    if steps != [] {
      StepKeepsInv(s, steps[0]);
      StepKeepsTold(s, steps[0]);
      RunKeepsTold(After(s, steps[0]), steps[1..], t);
    }
  }

  // ----- exactly one fate -----

  /** Keeping a callback is being its handler and not having dropped it. */
  lemma KeeperIsBorn(s: State, h: nat, c: Callback)
    requires HandlersSound(s) && Keeps(s, h, c)
    ensures s.handlers[h].born == c
  {
  }

  lemma SomeFate(s: State, c: Callback)
    requires HandlersSound(s) && Disposed(s)
    ensures exists fate :: Meets(s, c, fate)
  {
    if !Meets(s, c, NeverKept) {
      var h: nat :| h < |s.handlers| && s.handlers[h].born == c;
      if c !in s.released {
        assert Keeps(s, h, c);
        assert Meets(s, c, Held) || Meets(s, c, LeftBehind);
      } else {
        assert Meets(s, c, Released);
      }
    }
  }

  lemma ReleasedNotKept(s: State, c: Callback, h: nat)
    requires HandlersSound(s) && InOrder(s) && Disposed(s) && c in s.released && Spent(s, h) && s.handlers[h].born == c
    ensures !Meets(s, c, Held) && !Meets(s, c, LeftBehind) && !Meets(s, c, NeverKept)
  {
    forall g: nat | Keeps(s, g, c) ensures g == h {
      KeeperIsBorn(s, g, c);
      SameBorn(s, g, h);
    }
  }

  lemma OneKeeper(s: State, c: Callback)
    requires HandlersSound(s) && InOrder(s) && Disposed(s)
    ensures !(Meets(s, c, Held) && Meets(s, c, LeftBehind))
    ensures Meets(s, c, NeverKept) ==> !Meets(s, c, Held) && !Meets(s, c, LeftBehind)
  {
    forall g: nat, h: nat | Keeps(s, g, c) && Keeps(s, h, c) ensures g == h && s.handlers[h].born == c {
      KeeperIsBorn(s, g, c);
      KeeperIsBorn(s, h, c);
      SameBorn(s, g, h);
    }
  }

  lemma OneFate(s: State, c: Callback, f: Fate, g: Fate)
    requires HandlersSound(s) && InOrder(s) && ReleasedSound(s) && Disposed(s)
    requires Meets(s, c, f) && Meets(s, c, g)
    ensures f == g
  {
    OneKeeper(s, c);
    if c in s.released {
      var h: nat :| Spent(s, h) && s.handlers[h].born == c;
      ReleasedNotKept(s, c, h);
    }
  }

  /** The callback has one fate, which the end of its start allows: without a descriptor no
      handler ever kept it, and nothing but that or a panic leaves it unkept. */
  ghost predicate FateFits(s: State, o: Outcome) {
    o.op.Start? ==>
      && (exists f :: Meets(s, o.op.callback, f) && forall g :: Meets(s, o.op.callback, g) ==> g == f)
      && (o.end == ProxyOnly ==> Meets(s, o.op.callback, NeverKept))
      && (Meets(s, o.op.callback, NeverKept) ==> o.end == ProxyOnly || o.end == Panicked)
  }

  lemma FateOf(s: State, o: Outcome)
    requires HandlersSound(s) && InOrder(s) && ReleasedSound(s) && Disposed(s) && EndTellsBorn(s, o) && EndFits(o)
    ensures FateFits(s, o)
  {
    if o.op.Start? {
      var c := o.op.callback;
      SomeFate(s, c);
      var f :| Meets(s, c, f);
      forall g | Meets(s, c, g) ensures g == f {
        OneFate(s, c, f, g);
      }
      assert Meets(s, c, NeverKept) <==> !Born(s, c);
    }
  }

  lemma StartStateTold()
    ensures Told(START_STATE)
  {
  }

  /** In every run, of every start carried out, the callback is exactly one of: released, held
      by the current handler, never kept by any, or left behind with a handler that a later
      start replaced because its drain had timed out. */
  lemma EveryCallbackHasOneFate(steps: seq<Step>, s: State)
    requires Run(START_STATE, steps, s)
    ensures forall i :: 0 <= i < |s.log| ==> FateFits(s, s.log[i])
  {
    StartStateFits();
    StartStateTold();
    RunKeepsTold(START_STATE, steps, s);
    RunKeepsSession(START_STATE, steps, s);
    forall i | 0 <= i < |s.log| ensures FateFits(s, s.log[i]) {
      FateOf(s, s.log[i]);
    }
  }

  // ----- fates are final, except being held -----

  lemma SameHandlersKeep(s: State, t: State, h: nat, c: Callback)
    requires SameHandlers(s, t) && Keeps(s, h, c)
    ensures Keeps(t, h, c)
  {
  }

  lemma ClosingKeepsKept(s: State, closing: Closing, h: nat, c: Callback)
    requires Keeps(s, h, c) && s.current != Some(h) && MayClose(s, closing)
    ensures Keeps(AfterClosing(s, closing), h, c) && AfterClosing(s, closing).replaced == s.replaced
  {
  }

  lemma StartingKeepsKept(s: State, starting: Starting, h: nat, c: Callback)
    requires Keeps(s, h, c) && s.current != Some(h) && MayStart(s, starting)
    ensures Keeps(AfterStarting(s, starting), h, c) && s.replaced <= AfterStarting(s, starting).replaced
  {
  }

  /** What was left behind stays there: nothing touches a handler that is not current. */
  lemma StepKeepsLeftBehind(s: State, step: Step, h: nat, c: Callback)
    requires Disposed(s) && Enabled(s, step) && h in s.replaced && Keeps(s, h, c)
    ensures h in After(s, step).replaced && Keeps(After(s, step), h, c)
  {
    match step
    case ByCall(e, move) => MoveFrame(s, e, move); SameHandlersKeep(s, After(s, step), h, c);
    case ByClose(closing) => ClosingKeepsKept(s, closing, h, c);
    case ByStart(starting) => StartingKeepsKept(s, starting, h, c);
    case _ => SameHandlersKeep(s, After(s, step), h, c);
  }

  lemma StartingKeepsUnborn(s: State, starting: Starting, c: Callback)
    requires MayStart(s, starting) && Older(s, c) && !Born(s, c)
    ensures !Born(AfterStarting(s, starting), c)
  {
    if starting.MakeHandler? {
      var t := AfterStarting(s, starting);
      forall h: nat | h < |t.handlers| ensures t.handlers[h].born != c {
        assert h < |s.handlers| ==> t.handlers[h] == s.handlers[h];
      }
    } else {
      StartingSameOrder(s, starting);
      SameOrderBorn(s, AfterStarting(s, starting), c);
    }
  }

  lemma StepKeepsUnborn(s: State, step: Step, c: Callback)
    requires WorkerSound(s) && Enabled(s, step) && Older(s, c) && !Born(s, c)
    ensures !Born(After(s, step), c)
  {
    match step
    case ByCall(e, move) => MoveFrame(s, e, move); SameOrderBorn(s, After(s, step), c);
    case ByClose(closing) => ClosingSameOrder(s, closing); SameOrderBorn(s, After(s, step), c);
    case ByStart(starting) => StartingKeepsUnborn(s, starting, c);
    case Panic => SameOrderBorn(s, AfterPanic(s), c);
    case _ => assert After(s, step).handlers == s.handlers;
  }

  lemma ClosingKeepsOutcomes(s: State, closing: Closing)
    requires MayClose(s, closing)
    ensures s.log <= AfterClosing(s, closing).log
  {
    if !closing.FinishStop? {
      ClosingSameLog(s, closing);
    }
  }

  lemma StartingKeepsOutcomes(s: State, starting: Starting)
    requires MayStart(s, starting)
    ensures s.log <= AfterStarting(s, starting).log
  {
  }

  lemma StepKeepsOutcomes(s: State, step: Step)
    requires HandlersSound(s) && WorkerSound(s) && Enabled(s, step)
    ensures s.log <= After(s, step).log && s.released <= After(s, step).released
  {
    StepReleases(s, step);
    match step
    case ByCall(e, move) => MoveFrame(s, e, move);
    case ByClose(closing) => ClosingKeepsOutcomes(s, closing);
    case ByStart(starting) => StartingKeepsOutcomes(s, starting);
    case _ => {}
  }

  /** A callback that is released, left behind or never kept stays so: the fate is final. */
  predicate Final(fate: Fate) {
    !fate.Held?
  }

  lemma StepKeepsFate(s: State, step: Step, i: nat, fate: Fate)
    requires Inv(s) && Told(s) && Enabled(s, step) && Final(fate)
    requires i < |s.log| && s.log[i].op.Start? && Meets(s, s.log[i].op.callback, fate)
    ensures Meets(After(s, step), s.log[i].op.callback, fate)
  {
    var c := s.log[i].op.callback;
    StepKeepsOutcomes(s, step);
    match fate
    case Released => {}
    case LeftBehind =>
      var h: nat :| h in s.replaced && Keeps(s, h, c);
      StepKeepsLeftBehind(s, step, h, c);
    case NeverKept =>
      assert Older(s, c) && !Born(s, c);
      StepKeepsUnborn(s, step, c);
      assert !Born(After(s, step), c);
  }

  /** Over any run from any point of a run: callbacks left behind are left behind for good, those
      never kept are never kept, and those released stay released; only one that is held may
      still come to another fate. */
  lemma {:induction false} FateIsFinal(s: State, steps: seq<Step>, t: State, i: nat, fate: Fate)
    requires Inv(s) && Told(s) && Run(s, steps, t) && Final(fate)
    requires i < |s.log| && s.log[i].op.Start? && Meets(s, s.log[i].op.callback, fate)
    ensures i < |t.log| && t.log[i] == s.log[i] && Meets(t, s.log[i].op.callback, fate)
    decreases |steps|
  {
    if steps != [] {
      StepKeepsInv(s, steps[0]);
      StepKeepsTold(s, steps[0]);
      StepKeepsFate(s, steps[0], i, fate);
      StepKeepsOutcomes(s, steps[0]);
      FateIsFinal(After(s, steps[0]), steps[1..], t, i, fate);
    }
  }

  lemma FateIsFinalInRuns(before: seq<Step>, s: State, steps: seq<Step>, t: State, i: nat, fate: Fate)
    requires Run(START_STATE, before, s) && Run(s, steps, t) && Final(fate)
    requires i < |s.log| && s.log[i].op.Start? && Meets(s, s.log[i].op.callback, fate)
    ensures i < |t.log| && t.log[i] == s.log[i] && Meets(t, s.log[i].op.callback, fate)
  {
    StartStateFits();
    StartStateTold();
    RunKeepsTold(START_STATE, before, s);
    FateIsFinal(s, steps, t, i, fate);
  }

  // ----- two runs in which a callback is lost -----

  const PROXY_ONLY: Op := Start(0, 0)
  const MARKED := START_STATE.(work := Busy(PROXY_ONLY, Marked), made := 1, enqueued := [PROXY_ONLY], runTime := true)
  const SESSION := MARKED.(work := Idle, messages := [Error], log := [Outcome(PROXY_ONLY, ProxyOnly)])

  lemma MarkedRuns()
    ensures Run(MARKED.(work := Busy(PROXY_ONLY, Stopping), runTime := false),
                [ByClose(BeginStop), ByStart(BeginStart)], MARKED)
  {
    RunTwo(MARKED.(work := Busy(PROXY_ONLY, Stopping), runTime := false), ByClose(BeginStop),
           MARKED.(work := Busy(PROXY_ONLY, Stopped), runTime := false), ByStart(BeginStart), MARKED);
  }

  lemma TakenAndMarked()
    ensures Run(START_STATE, [Enqueue(PROXY_ONLY), TakeOp] + [ByClose(BeginStop), ByStart(BeginStart)], MARKED)
  {
    var taken := START_STATE.(work := Busy(PROXY_ONLY, Stopping), made := 1, enqueued := [PROXY_ONLY]);
    TakingRuns(PROXY_ONLY);
    MarkedRuns();
    assert taken == MARKED.(work := Busy(PROXY_ONLY, Stopping), runTime := false);
    RunJoins(START_STATE, [Enqueue(PROXY_ONLY), TakeOp], taken, [ByClose(BeginStop), ByStart(BeginStart)], MARKED);
  }

  /** A start without a descriptor never keeps its callback. */
  lemma ProxyOnlyNeverKeeps()
    ensures exists steps :: Run(START_STATE, steps, SESSION)
    ensures Meets(SESSION, PROXY_ONLY.callback, NeverKept)
  {
    var mark := [Enqueue(PROXY_ONLY), TakeOp] + [ByClose(BeginStop), ByStart(BeginStart)];
    TakenAndMarked();
    RunOne(MARKED, ByStart(AnnounceProxyOnly), SESSION);
    RunJoins(START_STATE, mark, MARKED, [ByStart(AnnounceProxyOnly)], SESSION);
  }

  const SECOND: Op := Start(7, 1)

  /** The first session is up; then a second start is taken, its drain gives up, and it makes
      a handler of its own. */
  const SERVING := HOOKED.(work := Idle, handlers := [Handler(0, Some(0), true, PERMITS)], messages := [Ready],
                           log := [Outcome(FIRST, Running)])
  const RESTARTING := SERVING.(work := Busy(SECOND, Stopping), made := 2, enqueued := [FIRST, SECOND])
  const LATE := RESTARTING.(work := Busy(SECOND, Closing(false)), runTime := false, timedOut := true)
  const CLOSED := LATE.(work := Busy(SECOND, Stopped), hook := false)
  const LEFT := CLOSED.(work := Busy(SECOND, Hooking), runTime := true, current := Some(1), replaced := {0},
                        handlers := [Handler(0, Some(0), true, PERMITS), Handler(1, Some(1), false, PERMITS)])

  lemma ServingRuns()
    ensures Run(HOOKED, [ByStart(ListenOk), ByStart(AnnounceReady)], SERVING)
  {
    RunTwo(HOOKED, ByStart(ListenOk),
           HOOKED.(work := Busy(FIRST, Opened), handlers := [Handler(0, Some(0), true, PERMITS)]),
           ByStart(AnnounceReady), SERVING);
  }

  lemma RestartingRuns()
    ensures Run(SERVING, [Enqueue(SECOND), TakeOp], RESTARTING)
  {
    RunTwo(SERVING, Enqueue(SECOND), SERVING.(queue := [SECOND], made := 2, enqueued := [FIRST, SECOND]),
           TakeOp, RESTARTING);
  }

  lemma LateRuns()
    ensures Run(RESTARTING, [ByClose(BeginStop), ByClose(DrainTimesOut)], LATE)
  {
    RunTwo(RESTARTING, ByClose(BeginStop), RESTARTING.(work := Busy(SECOND, Draining), runTime := false),
           ByClose(DrainTimesOut), LATE);
  }

  lemma ClosedRuns()
    ensures Run(LATE, [ByClose(RemoveHook), ByClose(DropReferences)], CLOSED)
  {
    RunTwo(LATE, ByClose(RemoveHook), LATE.(work := Busy(SECOND, Unhooked(false)), hook := false),
           ByClose(DropReferences), CLOSED);
  }

  lemma LeftRuns()
    ensures Run(CLOSED, [ByStart(BeginStart), ByStart(MakeHandler)], LEFT)
  {
    RunTwo(CLOSED, ByStart(BeginStart), CLOSED.(work := Busy(SECOND, Making), runTime := true),
           ByStart(MakeHandler), LEFT);
  }

  lemma FromServingToLeft() returns (steps: seq<Step>)
    ensures Run(SERVING, steps, LEFT)
  {
    var take, drain := [Enqueue(SECOND), TakeOp], [ByClose(BeginStop), ByClose(DrainTimesOut)];
    var close, make := [ByClose(RemoveHook), ByClose(DropReferences)], [ByStart(BeginStart), ByStart(MakeHandler)];
    RestartingRuns();
    LateRuns();
    ClosedRuns();
    LeftRuns();
    RunJoins(SERVING, take, RESTARTING, drain, LATE);
    RunJoins(SERVING, take + drain, LATE, close, CLOSED);
    RunJoins(SERVING, take + drain + close, CLOSED, make, LEFT);
    steps := take + drain + close + make;
  }

  /** A start whose drain timed out leaves the callback of the session before it behind. */
  lemma LateDrainLeavesBehind()
    ensures exists steps :: Run(START_STATE, steps, LEFT)
    ensures LEFT.log == [Outcome(FIRST, Running)] && Meets(LEFT, FIRST.callback, LeftBehind)
  {
    OpeningRuns();
    ServingRuns();
    var rest := FromServingToLeft();
    RunJoins(START_STATE, OPENING, HOOKED, [ByStart(ListenOk), ByStart(AnnounceReady)], SERVING);
    RunJoins(START_STATE, OPENING + [ByStart(ListenOk), ByStart(AnnounceReady)], SERVING, rest, LEFT);
    assert 0 in LEFT.replaced && Keeps(LEFT, 0, 0);
  }

  // ----- the code of the worker -----

  datatype Listen = ListenerOpens | ListenerFails | ListenerPanics

  /** What happens outside during one operation: whether all permits come in within the
      timeout, whether closing the old listener panics, what opening the new one does. */
  datatype Outside = Outside(drains: bool, closePanics: bool, listen: Listen)

  predicate GoodStart(op: Op, o: Outside, closed: bool) {
    op.Start? && (op.fd <= 0 || o.listen.ListenerOpens?) && !(closed && o.closePanics)
  }

  /** The handler with its references dropped. */
  function Emptied(h: Option<Handler>): Option<Handler> {
    if h.Some? then Some(h.value.(callback := None, listener := false)) else None
  }

  /** The worker with its globals, as it carries out operations nobody interferes with. */
  class Worker {
    var runTime: bool
    var tunHandler: Option<Handler>
    var hook: bool
    var messages: seq<Status>
    var released: seq<Callback>

    constructor ()
      ensures !runTime && tunHandler == None && !hook && messages == [] && released == []
    {
      runTime, tunHandler, hook, messages, released := false, None, false, [], [];
    }

    /** Whether there is an open listener to close. */
    predicate Listening()
      reads this
    {
      tunHandler.Some? && tunHandler.value.listener
    }

    /** The callbacks a drained close would release. */
    function Held(): seq<Callback>
      reads this
    {
      if tunHandler.Some? && tunHandler.value.callback.Some? then [tunHandler.value.callback.value] else []
    }

    method Close(o: Outside) returns (panicked: bool)
      requires tunHandler.Some?
      modifies this`tunHandler, this`hook, this`released
      ensures !hook && panicked == (old(Listening()) && o.closePanics)
      ensures if o.drains && !panicked then
          && released == old(released) + old(Held())
          && tunHandler == Emptied(old(tunHandler))
        else released == old(released) && tunHandler == old(tunHandler)
    {
      hook := false;
      if tunHandler.value.listener && o.closePanics {
        return true;
      }
      if o.drains {
        if tunHandler.value.callback.Some? {
          released := released + [tunHandler.value.callback.value];
        }
        tunHandler := Some(tunHandler.value.(callback := None, listener := false));
      }
      return false;
    }

    method HandleStopTun(o: Outside) returns (panicked: bool)
      modifies this`runTime, this`tunHandler, this`hook, this`released
      ensures !runTime && panicked == (old(Listening()) && o.closePanics)
      ensures hook == (old(hook) && tunHandler.None?)
      ensures released == old(released) + if o.drains && !panicked then old(Held()) else []
      ensures tunHandler == if o.drains && !panicked then Emptied(old(tunHandler)) else old(tunHandler)
    {
      runTime := false;
      panicked := false;
      if tunHandler.Some? {
        panicked := Close(o);
      }
    }

    method HandleStartTun(fd: int, callback: Callback, o: Outside) returns (panicked: bool)
      modifies this
      ensures panicked == ((old(Listening()) && o.closePanics) || (fd > 0 && o.listen.ListenerPanics?))
      ensures !panicked ==> runTime == GoodStart(Start(fd, callback), o, old(Listening()))
      ensures messages == old(messages) +
        if panicked then [] else if fd > 0 && o.listen.ListenerOpens? then [Ready] else [Error]
      ensures !(old(Listening()) && o.closePanics) && fd > 0 ==>
        && hook == !o.listen.ListenerFails?
        && tunHandler == if o.listen.ListenerFails? then None
                         else Some(Handler(callback, Some(callback), o.listen.ListenerOpens?, PERMITS))
      ensures !(old(Listening()) && o.closePanics) && fd <= 0 ==>
        tunHandler == if o.drains then Emptied(old(tunHandler)) else old(tunHandler)
      ensures released == old(released) + (if o.drains && !(old(Listening()) && o.closePanics) then old(Held()) else [])
        + if !panicked && fd > 0 && o.listen.ListenerFails? then [callback] else []
    {
      panicked := HandleStopTun(o);
      if panicked {
        return;
      }
      runTime := true;
      if fd <= 0 {
        messages := messages + [Error];
        return;
      }
      tunHandler := Some(Handler(callback, Some(callback), false, PERMITS));
      hook := true;
      match o.listen
      case ListenerPanics =>
        panicked := true;
      case ListenerFails =>
        runTime := false;
        hook := false;
        released := released + [callback];
        tunHandler := None;
        messages := messages + [Error];
      case ListenerOpens =>
        tunHandler := Some(tunHandler.value.(listener := true));
        messages := messages + [Ready];
    }

    /** One operation with its recovery: a panicking start is cleared and reported. */
    method Perform(op: Op, o: Outside)
      modifies this
      ensures runTime == GoodStart(op, o, old(Listening()))
      ensures messages == old(messages) +
        if op.Stop? then [] else if runTime && op.fd > 0 then [Ready] else [Error]
      ensures runTime && op.fd > 0 ==> Listening() && hook && Held() == [op.callback]
      ensures released == old(released) + (if o.drains && !(old(Listening()) && o.closePanics) then old(Held()) else [])
        + if op.Start? && op.fd > 0 && o.listen.ListenerFails? &&
            !(old(Listening()) && o.closePanics) then [op.callback] else []
    {
      var panicked;
      if op.Start? {
        panicked := HandleStartTun(op.fd, op.callback, o);
      } else {
        panicked := HandleStopTun(o);
      }
      if panicked && op.Start? {
        runTime := false;
        messages := messages + [Error];
      }
    }
  }
}

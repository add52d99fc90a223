/** Starting a MASQUE tunnel (adapter/outbound/masque.go): concurrent `run` calls share one
    permit, which a call may hand to a handshake goroutine; every tunnel that comes up is a
    generation that later clears the running flag. Each atomic action is one step. */
module MasqueStart {
  import opened Common

  type Id = nat

  /** Inside startLocked. */
  datatype Start = Device | Connecting | Storing | Registering

  /** A `run` call, or a handshake goroutine (which begins at Locked(Device)). */
  datatype Phase =
    | First                 // before the first look at the running flag
    | Acquiring
    | Second                // permit acquired, before the second look
    | Locked(at: Start)
    | Releasing             // the deferred release is still to run
    | Awaiting(child: Id)   // permit handed over, waiting for the goroutine or the context
    | Done

  /** A tunnel: in use, its flag cleared but its connections still open, or gone. */
  datatype Generation = Live | Closing | TornDown

  datatype State = State(
    handshakeTimeout: bool,
    free: nat,                      // permits in the semaphore
    running: bool,
    runDevice: bool,
    closed: bool,
    threads: map<Id, Phase>,
    generations: seq<Generation>,
    deviceStarts: nat,
    acquired: nat,                  // permits taken and returned so far
    released: nat)

  datatype Step =
    | Call(t: Id)
    | LoadRunning(t: Id)
    | Acquire(t: Id)
    | GiveUp(t: Id)
    | Recheck(t: Id, child: Id)
    | StartDevice(t: Id, ok: bool)
    | Connect(t: Id, ok: bool)
    | StoreRunning(t: Id)
    | Register(t: Id)
    | Release(t: Id)
    | StopWaiting(t: Id)
    | Teardown(g: nat)
    | CloseConnections(g: nat)
    | Close

  predicate Is(s: State, t: Id, p: Phase) {
    t in s.threads && s.threads[t] == p
  }

  predicate Enabled(s: State, step: Step) {
    match step
    case Call(t) => t !in s.threads
    case LoadRunning(t) => Is(s, t, First)
    case Acquire(t) => Is(s, t, Acquiring) && s.free > 0
    case GiveUp(t) => Is(s, t, Acquiring)
    case Recheck(t, child) => Is(s, t, Second) && child !in s.threads
    case StartDevice(t, _) => Is(s, t, Locked(Device))
    case Connect(t, _) => Is(s, t, Locked(Connecting))
    case StoreRunning(t) => Is(s, t, Locked(Storing))
    case Register(t) => Is(s, t, Locked(Registering))
    case Release(t) => Is(s, t, Releasing)
    case StopWaiting(t) => t in s.threads && s.threads[t].Awaiting?
    case Teardown(g) => g < |s.generations| && s.generations[g].Live?
    case CloseConnections(g) => g < |s.generations| && s.generations[g].Closing?
    case Close => true
  }

  function To(s: State, t: Id, p: Phase): State {
    s.(threads := s.threads[t := p])
  }

  function After(s: State, step: Step): State
    requires Enabled(s, step)
  {
    match step
    case Call(t) => To(s, t, First)
    case LoadRunning(t) => To(s, t, if s.running then Done else Acquiring)
    case Acquire(t) => To(s, t, Second).(free := s.free - 1, acquired := s.acquired + 1)
    case GiveUp(t) => To(s, t, Done)
    case Recheck(t, child) =>
      if s.running || s.closed then To(s, t, Releasing)
      else if s.handshakeTimeout then To(To(s, t, Awaiting(child)), child, Locked(Device))
      else To(s, t, Locked(Device))
    case StartDevice(t, ok) =>
      if s.runDevice then To(s, t, Locked(Connecting))
      else if ok then To(s, t, Locked(Connecting)).(runDevice := true, deviceStarts := s.deviceStarts + 1)
      else To(s, t, Releasing)
    case Connect(t, ok) => To(s, t, if ok then Locked(Storing) else Releasing)
    case StoreRunning(t) => To(s, t, Locked(Registering)).(running := true)
    case Register(t) => To(s, t, Releasing).(generations := s.generations + [Live])
    case Release(t) => To(s, t, Done).(free := s.free + 1, released := s.released + 1)
    case StopWaiting(t) => To(s, t, Done)
    case Teardown(g) => s.(running := false, generations := s.generations[g := Closing])
    case CloseConnections(g) => s.(generations := s.generations[g := TornDown])
    case Close => s.(closed := true)
  }

  function Initial(handshakeTimeout: bool): State {
    State(handshakeTimeout, 1, false, false, false, map[], [], 0, 0, 0)
  }

  /** The step is taken by a thread. */
  predicate HasThread(step: Step) {
    !step.Teardown? && !step.CloseConnections? && !step.Close?
  }

  ghost predicate Run(s: State, steps: seq<Step>, t: State)
    decreases |steps|
  {
    if steps == [] then s == t
    else Enabled(s, steps[0]) && Run(After(s, steps[0]), steps[1..], t)
  }

  // ----- who holds the permit -----

  predicate Holding(p: Phase) {
    p.Second? || p.Locked? || p.Releasing?
  }

  ghost predicate Holds(s: State, t: Id) {
    t in s.threads && Holding(s.threads[t])
  }

  /** The permit is in the semaphore, or with exactly this one thread. */
  ghost predicate HeldBy(s: State, holder: Option<Id>) {
    && s.free == (if holder.Some? then 0 else 1)
    && s.acquired == s.released + (if holder.Some? then 1 else 0)
    && forall t: Id :: Holds(s, t) <==> holder == Some(t)
  }

  /** Only the holder of the permit takes the step. */
  predicate OfHolder(step: Step) {
    step.StartDevice? || step.Connect? || step.StoreRunning? || step.Register? || step.Recheck? || step.Release?
  }

  // ----- what the running flag says -----

  /** The last generation is in use. */
  predicate Up(s: State) {
    |s.generations| > 0 && s.generations[|s.generations| - 1].Live?
  }

  predicate HolderAt(s: State, holder: Option<Id>, at: Start) {
    holder.Some? && Is(s, holder.value, Locked(at))
  }

  predicate HolderStarting(s: State, holder: Option<Id>) {
    holder.Some? && holder.value in s.threads && s.threads[holder.value].Locked?
  }

  /** running is set exactly while a tunnel is in use or about to be registered, only the last
      generation can be in use, and none is while another is being started. */
  ghost predicate FlagIsTrue(s: State, holder: Option<Id>) {
    && (forall g: nat :: g < |s.generations| - 1 ==> !s.generations[g].Live?)
    && (s.running <==> Up(s) || HolderAt(s, holder, Registering))
    && (HolderStarting(s, holder) ==> !Up(s))
  }

  ghost predicate Inv(s: State, holder: Option<Id>) {
    && HeldBy(s, holder) && FlagIsTrue(s, holder)
    && s.deviceStarts == (if s.runDevice then 1 else 0)
  }

  // ----- every step keeps it -----

  /** Who holds the permit next: taking it, handing it to a goroutine, giving it back. */
  function HolderAfter(s: State, step: Step, holder: Option<Id>): Option<Id> {
    match step
    case Acquire(t) => Some(t)
    case Release(t) => None
    case Recheck(t, child) => if !s.running && !s.closed && s.handshakeTimeout then Some(child) else holder
    case _ => holder
  }

  lemma PermitFollows(s: State, step: Step, holder: Option<Id>)
    requires HeldBy(s, holder) && Enabled(s, step)
    ensures HeldBy(After(s, step), HolderAfter(s, step, holder))
  {
    var n := After(s, step);
    if HasThread(step) {
      assert Holds(s, step.t) <==> holder == Some(step.t);
      forall t: Id | t != step.t && !(step.Recheck? && t == step.child)
        ensures Holds(n, t) <==> Holds(s, t) { }
      if step.Recheck? {
        assert !Holds(s, step.child);
      }
    }
  }

  /** Steps of the holder. */
  lemma HolderFlagFollows(s: State, step: Step, holder: Option<Id>)
    requires HeldBy(s, holder) && FlagIsTrue(s, holder) && Enabled(s, step) && OfHolder(step)
    ensures FlagIsTrue(After(s, step), HolderAfter(s, step, holder))
  {
    assert Holds(s, step.t);
  }

  lemma FlagFollows(s: State, step: Step, holder: Option<Id>)
    requires HeldBy(s, holder) && FlagIsTrue(s, holder) && Enabled(s, step)
    ensures FlagIsTrue(After(s, step), HolderAfter(s, step, holder))
  {
    if OfHolder(step) {
      HolderFlagFollows(s, step, holder);
    } else if holder.Some? {
      assert Holds(s, holder.value);
    }
  }

  lemma StepKeepsInv(s: State, step: Step, holder: Option<Id>)
    requires Inv(s, holder) && Enabled(s, step)
    ensures Inv(After(s, step), HolderAfter(s, step, holder))
  {
    PermitFollows(s, step, holder);
    FlagFollows(s, step, holder);
  }

  lemma {:induction false} RunKeepsInv(s: State, steps: seq<Step>, t: State,
                                       holder: Option<Id>) returns (last: Option<Id>)
    requires Inv(s, holder) && Run(s, steps, t)
    ensures Inv(t, last)
    decreases |steps|
  {
    if steps == [] {
      last := holder;
    } else {
      StepKeepsInv(s, steps[0], holder);
      last := RunKeepsInv(After(s, steps[0]), steps[1..], t, HolderAfter(s, steps[0], holder));
    }
  }

  /** In every interleaving: permits taken and given back differ by the one that is out, and
      only one thread has it, so at most one startLocked is under way; the device is started
      at most once. */
  lemma EveryRunIsSafe(handshakeTimeout: bool, steps: seq<Step>, s: State)
    requires Run(Initial(handshakeTimeout), steps, s)
    ensures s.free <= 1 && s.acquired == s.released + (1 - s.free)
    ensures s.free == 0 <==> exists t: Id :: Holds(s, t)
    ensures forall t: Id, u: Id :: Holds(s, t) && Holds(s, u) ==> t == u
    ensures s.deviceStarts <= 1
  {
    var holder := RunKeepsInv(Initial(handshakeTimeout), steps, s, None);
    if holder.Some? {
      assert Holds(s, holder.value);
    }
  }

  /** In every interleaving: a generation that is still in use is the last one, the flag is set
      for it, and nobody is starting another; so its teardown clears its own flag. */
  lemma TeardownIsOwn(handshakeTimeout: bool, steps: seq<Step>, s: State, g: nat)
    requires Run(Initial(handshakeTimeout), steps, s) && Enabled(s, Teardown(g))
    ensures g == |s.generations| - 1 && s.running
    ensures forall t: Id :: t in s.threads ==> !s.threads[t].Locked?
  {
    var holder := RunKeepsInv(Initial(handshakeTimeout), steps, s, None);
    assert Up(s);
    forall t: Id ensures t in s.threads && s.threads[t].Locked? ==> Holds(s, t) { }
  }

  /** In every interleaving: a clear flag means no tunnel is in use, though one may still have
      its connections open; whoever goes on past its second look starts the only one in use. */
  lemma ClearFlagMeansUnused(handshakeTimeout: bool, steps: seq<Step>, s: State)
    requires Run(Initial(handshakeTimeout), steps, s) && !s.running
    ensures forall g: nat :: g < |s.generations| ==> !s.generations[g].Live?
  {
    var holder := RunKeepsInv(Initial(handshakeTimeout), steps, s, None);
  }

  /** In every interleaving: at most one tunnel is in use, the last. */
  lemma OneInUse(handshakeTimeout: bool, steps: seq<Step>, s: State, g: nat)
    requires Run(Initial(handshakeTimeout), steps, s)
    requires g < |s.generations| && s.generations[g].Live?
    ensures forall h: nat :: h < |s.generations| && s.generations[h].Live? ==> h == g
  {
    var holder := RunKeepsInv(Initial(handshakeTimeout), steps, s, None);
  }

  // ----- what brings a tunnel up -----

  ghost function Connects(steps: seq<Step>): nat {
    if steps == [] then 0
    else (if steps[0].Connect? && steps[0].ok then 1 else 0) + Connects(steps[1..])
  }

  /** A tunnel has been connected and is not registered yet. */
  ghost function InFlight(s: State, holder: Option<Id>): nat {
    if HolderAt(s, holder, Storing) || HolderAt(s, holder, Registering) then 1 else 0
  }

  lemma ConnectStep(s: State, step: Step, holder: Option<Id>)
    requires Inv(s, holder) && Enabled(s, step)
    ensures var t := After(s, step);
      |t.generations| + InFlight(t, HolderAfter(s, step, holder)) ==
        |s.generations| + InFlight(s, holder) + if step.Connect? && step.ok then 1 else 0
  {
    if OfHolder(step) {
      assert Holds(s, step.t);
    } else if holder.Some? {
      assert Holds(s, holder.value);
    }
  }

  lemma {:induction false} ConnectRun(s: State, steps: seq<Step>, t: State,
                                      holder: Option<Id>) returns (last: Option<Id>)
    requires Inv(s, holder) && Run(s, steps, t)
    ensures Inv(t, last)
    ensures |t.generations| + InFlight(t, last) == |s.generations| + InFlight(s, holder) + Connects(steps)
    decreases |steps|
  {
    if steps == [] {
      last := holder;
    } else {
      ConnectStep(s, steps[0], holder);
      StepKeepsInv(s, steps[0], holder);
      last := ConnectRun(After(s, steps[0]), steps[1..], t, HolderAfter(s, steps[0], holder));
    }
  }

  /** In every interleaving: there have been as many tunnels as connections that came up, but
      for one that its caller is still registering. */
  lemma OneTunnelPerConnect(handshakeTimeout: bool, steps: seq<Step>, s: State)
    requires Run(Initial(handshakeTimeout), steps, s)
    ensures |s.generations| <= Connects(steps) <= |s.generations| + 1
    ensures Connects(steps) == |s.generations| <==>
      forall t: Id :: !Is(s, t, Locked(Storing)) && !Is(s, t, Locked(Registering))
  {
    var holder := ConnectRun(Initial(handshakeTimeout), steps, s, None);
    forall t: Id ensures Is(s, t, Locked(Storing)) || Is(s, t, Locked(Registering)) ==> holder == Some(t) {
      assert Is(s, t, Locked(Storing)) || Is(s, t, Locked(Registering)) ==> Holds(s, t);
    }
  }

  /** In every interleaving: a look at the flag sends a caller away exactly if a tunnel is in use
      or about to be registered. */
  lemma LooksSeeTunnel(handshakeTimeout: bool, steps: seq<Step>, s: State, t: Id, child: Id)
    requires Run(Initial(handshakeTimeout), steps, s)
    ensures var up := |s.generations| > 0 && s.generations[|s.generations| - 1].Live?;
      && (Enabled(s, LoadRunning(t)) ==>
           (After(s, LoadRunning(t)).threads[t] == Done <==> up || exists u: Id :: Is(s, u, Locked(Registering))))
      && (Enabled(s, Recheck(t, child)) ==>
           (After(s, Recheck(t, child)).threads[t] == Releasing <==> up || s.closed))
  {
    var holder := RunKeepsInv(Initial(handshakeTimeout), steps, s, None);
    forall u: Id ensures Is(s, u, Locked(Registering)) || Is(s, u, Second) ==> holder == Some(u) {
      assert Is(s, u, Locked(Registering)) || Is(s, u, Second) ==> Holds(s, u);
    }
  }

  // ----- after Close -----

  /** Starts that can still bring up a tunnel. */
  ghost function Pending(s: State, holder: Option<Id>): nat {
    if HolderStarting(s, holder) then 1 else 0
  }

  lemma ClosedStep(s: State, step: Step, holder: Option<Id>)
    requires Inv(s, holder) && s.closed && Enabled(s, step)
    ensures var t := After(s, step);
      t.closed && |t.generations| + Pending(t, HolderAfter(s, step, holder)) <= |s.generations| + Pending(s, holder)
  {
    if holder.Some? {
      assert Holds(s, holder.value);
    }
    if OfHolder(step) {
      assert Holds(s, step.t);
    }
  }

  lemma {:induction false} ClosedRun(s: State, steps: seq<Step>, t: State, holder: Option<Id>)
    requires Inv(s, holder) && s.closed && Run(s, steps, t)
    ensures t.closed && |t.generations| <= |s.generations| + Pending(s, holder)
    decreases |steps|
  {
    if steps != [] {
      ClosedStep(s, steps[0], holder);
      StepKeepsInv(s, steps[0], holder);
      ClosedRun(After(s, steps[0]), steps[1..], t, HolderAfter(s, steps[0], holder));
    }
  }

  lemma {:induction false} NobodyEnters(s: State, steps: seq<Step>, t: State)
    requires s.closed && Run(s, steps, t)
    ensures forall id :: id in t.threads && t.threads[id].Locked? ==> id in s.threads && s.threads[id].Locked?
    decreases |steps|
  {
    if steps != [] {
      NobodyEnters(After(s, steps[0]), steps[1..], t);
    }
  }

  /** Whatever happens after Close: no call begins a new start; the one that may be under way
      can still bring up its tunnel, and if there is none no tunnel comes up any more. */
  lemma NothingStartsAfterClose(handshakeTimeout: bool, before: seq<Step>, s: State, steps: seq<Step>, t: State)
    requires Run(Initial(handshakeTimeout), before, s) && s.closed && Run(s, steps, t)
    ensures forall id :: id in t.threads && t.threads[id].Locked? ==> id in s.threads && s.threads[id].Locked?
    ensures t.closed && |t.generations| <= |s.generations| + 1
    ensures (forall id :: id in s.threads ==> !s.threads[id].Locked?) ==> |t.generations| <= |s.generations|
  {
    var holder := RunKeepsInv(Initial(handshakeTimeout), before, s, None);
    ClosedRun(s, steps, t, holder);
    NobodyEnters(s, steps, t);
  }

  // ----- the device comes first -----

  ghost predicate DeviceFirst(s: State) {
    && (s.generations != [] ==> s.runDevice)
    && (forall t :: t in s.threads && s.threads[t].Locked? && !s.threads[t].at.Device? ==> s.runDevice)
  }

  lemma {:induction false} RunKeepsDeviceFirst(s: State, steps: seq<Step>, t: State)
    requires DeviceFirst(s) && Run(s, steps, t)
    ensures DeviceFirst(t)
    decreases |steps|
  {
    if steps != [] {
      RunKeepsDeviceFirst(After(s, steps[0]), steps[1..], t);
    }
  }

  /** In every interleaving: nobody connects before the device was started, so there is no
      tunnel without it. */
  lemma DeviceBeforeTunnel(handshakeTimeout: bool, steps: seq<Step>, s: State)
    requires Run(Initial(handshakeTimeout), steps, s)
    ensures s.generations != [] ==> s.runDevice && s.deviceStarts == 1
    ensures forall t :: t in s.threads && s.threads[t] == Locked(Connecting) ==> s.runDevice && s.deviceStarts == 1
  {
    RunKeepsDeviceFirst(Initial(handshakeTimeout), steps, s);
    var holder := RunKeepsInv(Initial(handshakeTimeout), steps, s, None);
  }

  // ----- an old tunnel may still be closing -----

  /** One caller from its first look to a registered tunnel. */
  function OneStart(t: Id): seq<Step> {
    [Call(t), LoadRunning(t), Acquire(t), Recheck(t, t + 1), StartDevice(t, true), Connect(t, true),
     StoreRunning(t), Register(t), Release(t)]
  }

  /** The state after it, begun with nobody inside and a clear flag. */
  function Started(s: State, t: Id): State {
    s.(running := true, runDevice := true, deviceStarts := 1, threads := s.threads[t := Done],
       generations := s.generations + [Live], acquired := s.acquired + 1, released := s.released + 1)
  }

  lemma RunJoins(s: State, steps: seq<Step>, t: State, more: seq<Step>, u: State)
    requires Run(s, steps, t) && Run(t, more, u)
    ensures Run(s, steps + more, u)
    decreases |steps|
  {
    if steps == [] {
      assert steps + more == more;
    } else {
      assert (steps + more)[1..] == steps[1..] + more;
      RunJoins(After(s, steps[0]), steps[1..], t, more, u);
    }
  }

  lemma RunTwo(s: State, a: Step, b: Step)
    requires Enabled(s, a) && Enabled(After(s, a), b)
    ensures Run(s, [a, b], After(After(s, a), b))
  {
    assert [a, b][1..] == [b] && [b][1..] == [];
  }

  /** Past the second look, with the permit. */
  function Inside(s: State, t: Id): State {
    To(s, t, Locked(Device)).(free := 0, acquired := s.acquired + 1)
  }

  function Connected(s: State, t: Id): State {
    To(s, t, Locked(Storing)).(free := 0, acquired := s.acquired + 1, runDevice := true, deviceStarts := 1)
  }

  lemma EnteringRuns(s: State, t: Id)
    requires !s.running && !s.closed && !s.handshakeTimeout && s.free == 1 && t !in s.threads && t + 1 !in s.threads
    ensures Run(s, [Call(t), LoadRunning(t)] + [Acquire(t), Recheck(t, t + 1)], Inside(s, t))
  {
    var s2 := To(s, t, Acquiring);
    RunTwo(s, Call(t), LoadRunning(t));
    assert After(After(s, Call(t)), LoadRunning(t)) == s2;
    RunTwo(s2, Acquire(t), Recheck(t, t + 1));
    assert After(After(s2, Acquire(t)), Recheck(t, t + 1)) == Inside(s, t);
    RunJoins(s, [Call(t), LoadRunning(t)], s2, [Acquire(t), Recheck(t, t + 1)], Inside(s, t));
  }

  lemma ConnectingRuns(s: State, t: Id)
    requires s.deviceStarts == (if s.runDevice then 1 else 0)
    ensures Run(Inside(s, t), [StartDevice(t, true), Connect(t, true)], Connected(s, t))
  {
    RunTwo(Inside(s, t), StartDevice(t, true), Connect(t, true));
    assert After(After(Inside(s, t), StartDevice(t, true)), Connect(t, true)) == Connected(s, t);
  }

  lemma RunLast(s: State, step: Step, t: State)
    requires Enabled(s, step) && After(s, step) == t
    ensures Run(s, [step], t)
  {
    assert [step][1..] == [];
  }

  lemma RegisteringRuns(s: State, t: Id)
    requires s.free == 1
    ensures Run(Connected(s, t), [StoreRunning(t), Register(t)] + [Release(t)], Started(s, t))
  {
    var s8 := To(Connected(s, t), t, Releasing).(running := true, generations := s.generations + [Live]);
    RunTwo(Connected(s, t), StoreRunning(t), Register(t));
    assert After(After(Connected(s, t), StoreRunning(t)), Register(t)) == s8;
    RunLast(s8, Release(t), Started(s, t));
    RunJoins(Connected(s, t), [StoreRunning(t), Register(t)], s8, [Release(t)], Started(s, t));
  }

  lemma OneStartRuns(s: State, t: Id)
    requires !s.running && !s.closed && !s.handshakeTimeout && s.free == 1 && t !in s.threads && t + 1 !in s.threads
    requires s.deviceStarts == (if s.runDevice then 1 else 0)
    ensures Run(s, OneStart(t), Started(s, t))
  {
    var enter := [Call(t), LoadRunning(t)] + [Acquire(t), Recheck(t, t + 1)];
    var connect := [StartDevice(t, true), Connect(t, true)];
    var register := [StoreRunning(t), Register(t)] + [Release(t)];
    EnteringRuns(s, t);
    ConnectingRuns(s, t);
    RegisteringRuns(s, t);
    RunJoins(s, enter, Inside(s, t), connect, Connected(s, t));
    RunJoins(s, enter + connect, Connected(s, t), register, Started(s, t));
    assert enter + connect + register == OneStart(t);
  }

  /** One tunnel started, and its teardown begun. */
  function Torn(): State {
    Started(Initial(false), 0).(running := false, generations := [Closing])
  }

  lemma TornRuns()
    ensures Run(Initial(false), OneStart(0) + [Teardown(0)], Torn())
  {
    OneStartRuns(Initial(false), 0);
    RunLast(Started(Initial(false), 0), Teardown(0), Torn());
    RunJoins(Initial(false), OneStart(0), Started(Initial(false), 0), [Teardown(0)], Torn());
  }

  lemma SecondRuns(steps: seq<Step>, s: State)
    requires Run(Initial(false), steps, Torn()) && s == Started(Torn(), 1)
    ensures Run(Initial(false), steps + OneStart(1), s)
  {
    OneStartRuns(Torn(), 1);
    RunJoins(Initial(false), steps, Torn(), OneStart(1), s);
  }

  /** It happens: a second tunnel is in use while the first is still closing its connections. */
  lemma SecondBesideClosing()
    ensures exists steps, s :: Run(Initial(false), steps, s) && s.generations == [Closing, Live]
  {
    var s := Started(Torn(), 1);
    TornRuns();
    SecondRuns(OneStart(0) + [Teardown(0)], s);
    assert s.generations == [Closing, Live];
  }

  // ----- the permit comes back -----

  /** How many steps the holder is away from giving the permit back. */
  function StepsLeft(p: Phase): nat {
    match p
    case Second => 6
    case Locked(Device) => 5
    case Locked(Connecting) => 4
    case Locked(Storing) => 3
    case Locked(Registering) => 2
    case Releasing => 1
    case _ => 0
  }

  lemma {:induction false} FreshId(ids: set<Id>) returns (unused: Id)
    ensures forall id :: id in ids ==> id < unused
    decreases |ids|
  {
    if ids == {} {
      unused := 0;
    } else {
      var id :| id in ids;
      var above := FreshId(ids - {id});
      unused := if id < above then above else id + 1;
      forall other | other in ids ensures other < unused {
        assert other == id || other in ids - {id};
      }
    }
  }

  /** The holder is never stuck: it has a step of its own. */
  lemma HolderCanMove(s: State, t: Id) returns (step: Step)
    requires Holds(s, t)
    ensures Enabled(s, step) && HasThread(step) && step.t == t
  {
    match s.threads[t]
    case Second =>
      var child := FreshId(s.threads.Keys);
      assert child !in s.threads.Keys;
      step := Recheck(t, child);
    case Locked(Device) => step := StartDevice(t, true);
    case Locked(Connecting) => step := Connect(t, true);
    case Locked(Storing) => step := StoreRunning(t);
    case Locked(Registering) => step := Register(t);
    case Releasing => step := Release(t);
  }

  /** Each step of the holder, succeeding or failing, brings the permit's return nearer by at
      least one; no step of anybody else changes how far it is. */
  lemma PermitComesBack(s: State, step: Step, t: Id)
    requires Inv(s, Some(t)) && Enabled(s, step)
    ensures var next := HolderAfter(s, step, Some(t)); var n := After(s, step);
      if HasThread(step) && step.t == t then
        next.None? || (next.value in n.threads && StepsLeft(n.threads[next.value]) < StepsLeft(s.threads[t]))
      else next == Some(t) && Is(n, t, s.threads[t])
  {
    assert Holds(s, t);
    if OfHolder(step) {
      assert Holds(s, step.t);
    }
  }

  // ----- the code of one caller -----

  /** What happens outside: the contexts, the device, the dialling. */
  datatype Outside = Outside(waitOk: bool, deviceOk: bool, connectOk: bool, patient: bool)

  /** A tunnel without other callers; its one permit is a field. */
  class Masque {
    const handshakeTimeout: bool
    var runLock: nat
    var running: bool
    var runDevice: bool
    var runCtxDone: bool
    var generations: nat

    constructor (handshakeTimeout: bool)
      ensures this.handshakeTimeout == handshakeTimeout && runLock == 1
      ensures !running && !runDevice && !runCtxDone && generations == 0
    {
      this.handshakeTimeout := handshakeTimeout;
      runLock, running, runDevice, runCtxDone, generations := 1, false, false, false, 0;
    }

    method StartLocked(o: Outside) returns (ok: bool)
      modifies this`running, this`runDevice, this`generations
      ensures ok <==> (old(runDevice) || o.deviceOk) && o.connectOk
      ensures runDevice <==> old(runDevice) || o.deviceOk
      ensures running <==> old(running) || ok
      ensures generations == old(generations) + if ok then 1 else 0
    {
      if !runDevice {
        if !o.deviceOk {
          return false;
        }
        runDevice := true;
      }
      if !o.connectOk {
        return false;
      }
      running := true;
      generations := generations + 1;
      return true;
    }

    /** A call that waits for what it started: the permit is back afterwards, the flag is set
        if and only if it was or the start went through, and success means it is set. */
    method Run(o: Outside) returns (ok: bool)
      requires runLock == 1
      modifies this`runLock, this`running, this`runDevice, this`generations
      ensures runLock == 1
      ensures ok ==> running
      ensures old(running) ==> ok && generations == old(generations) && runDevice == old(runDevice)
      ensures !old(running) ==>
        (running <==> o.waitOk && !runCtxDone && (old(runDevice) || o.deviceOk) && o.connectOk)
      ensures !old(running) ==> generations == old(generations) + if running then 1 else 0
      ensures !old(running) ==> (ok <==> running && (handshakeTimeout ==> o.patient))
    {
      if running {
        return true;
      }
      if !o.waitOk {
        return false;
      }
      runLock := runLock - 1;
      var releaseRunLock := true;
      if running {
        ok := true;
      } else if runCtxDone {
        ok := false;
      } else if handshakeTimeout {
        releaseRunLock := false;
        var result := StartLocked(o);
        runLock := runLock + 1;
        ok := o.patient && result;
      } else {
        ok := StartLocked(o);
      }
      if releaseRunLock {
        runLock := runLock + 1;
      }
    }
  }
}

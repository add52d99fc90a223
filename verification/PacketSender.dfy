/** The sender of one UDP session (tunnel/connection.go): any thread may offer packets, one
    goroutine processes them in order, and closing drops what is queued. Destination NAT maps
    fix where packets of one origin go and where replies seem to come from. */
module PacketSender {
  import opened Common

  const SENDER_CAPACITY := 128

  type Key = string
  type Id = nat

  datatype Addr = Invalid | Ip(bits: int)

  /** `key` is the metadata's String(), `origin` its destination address. */
  datatype Packet = Packet(key: Key, origin: Addr)

  // ----- destination NAT -----

  datatype Nat = Nat(originToTarget: map<Key, Addr>, targetToOrigin: map<Addr, Addr>)

  const NO_NAT := Nat(map[], map[])

  /** A map of the source yields the zero, invalid, address for a missing key. */
  function TargetOf(n: Nat, key: Key): Addr {
    if key in n.originToTarget then n.originToTarget[key] else Invalid
  }

  function OriginOf(n: Nat, target: Addr): Addr {
    if target in n.targetToOrigin then n.targetToOrigin[target] else Invalid
  }

  datatype Mapping = Mapping(key: Key, origin: Addr, target: Addr)

  function Add(n: Nat, m: Mapping): Nat {
    var n1 := if TargetOf(n, m.key) == Invalid then n.(originToTarget := n.originToTarget[m.key := m.target]) else n;
    if OriginOf(n1, m.target) == Invalid then n1.(targetToOrigin := n1.targetToOrigin[m.target := m.origin]) else n1
  }

  function Restore(n: Nat, addr: Addr): Addr {
    if OriginOf(n, addr) == Invalid then addr else OriginOf(n, addr)
  }

  function AddOn(n: Nat, ms: seq<Mapping>): Nat {
    if ms == [] then n else Add(AddOn(n, ms[..|ms| - 1]), ms[|ms| - 1])
  }

  function AddAll(ms: seq<Mapping>): Nat {
    AddOn(NO_NAT, ms)
  }

  /** The first mapping of the key that has a target wins. */
  function FirstTarget(ms: seq<Mapping>, key: Key): Addr {
    if ms == [] then Invalid
    else if ms[0].key == key && ms[0].target != Invalid then ms[0].target
    else FirstTarget(ms[1..], key)
  }

  /** The first mapping to the target that has an origin wins. */
  function FirstOrigin(ms: seq<Mapping>, target: Addr): Addr {
    if ms == [] then Invalid
    else if ms[0].target == target && ms[0].origin != Invalid then ms[0].origin
    else FirstOrigin(ms[1..], target)
  }

  lemma {:induction false} FirstOfMore(ms: seq<Mapping>, m: Mapping, key: Key, target: Addr)
    ensures FirstTarget(ms + [m], key) ==
      if FirstTarget(ms, key) != Invalid then FirstTarget(ms, key) else if m.key == key then m.target else Invalid
    ensures FirstOrigin(ms + [m], target) ==
      if FirstOrigin(ms, target) != Invalid then FirstOrigin(ms, target)
      else if m.target == target then m.origin else Invalid
  {
    if ms == [] {
      assert ms + [m] == [m] && [m][1..] == [];
    } else {
      assert (ms + [m])[1..] == ms[1..] + [m];
      FirstOfMore(ms[1..], m, key, target);
    }
  }

  /** After any calls of AddMapping, a key goes to its first valid target and a reply from a
      target seems to come from the first valid origin mapped to it, or from itself. */
  lemma {:induction false} FirstMappingWins(ms: seq<Mapping>, key: Key, target: Addr)
    ensures TargetOf(AddAll(ms), key) == FirstTarget(ms, key)
    ensures OriginOf(AddAll(ms), target) == FirstOrigin(ms, target)
    ensures Restore(AddAll(ms), target) ==
      if FirstOrigin(ms, target) == Invalid then target else FirstOrigin(ms, target)
  {
    if ms != [] {
      var init, m := ms[..|ms| - 1], ms[|ms| - 1];
      assert ms == init + [m];
      FirstOfMore(init, m, key, target);
      FirstMappingWins(init, key, target);
      FirstMappingWins(init, m.key, m.target);
    }
  }

  lemma {:induction false} FirstOriginIsOne(ms: seq<Mapping>, target: Addr)
    ensures FirstOrigin(ms, target) != Invalid ==>
      exists i :: 0 <= i < |ms| && ms[i].target == target && ms[i].origin == FirstOrigin(ms, target)
    ensures FirstOrigin(ms, target) == Invalid ==>
      forall i :: 0 <= i < |ms| && ms[i].target == target ==> ms[i].origin == Invalid
  {
    if ms != [] && !(ms[0].target == target && ms[0].origin != Invalid) {
      FirstOriginIsOne(ms[1..], target);
      if FirstOrigin(ms, target) != Invalid {
        var i :| 0 <= i < |ms[1..]| && ms[1..][i].target == target && ms[1..][i].origin == FirstOrigin(ms, target);
        assert ms[i + 1].target == target;
      } else {
        forall i | 0 <= i < |ms| && ms[i].target == target ensures ms[i].origin == Invalid {
          assert i == 0 || ms[i] == ms[1..][i - 1];
        }
      }
    }
  }

  ghost predicate AllRestored(ms: seq<Mapping>) {
    forall i :: 0 <= i < |ms| && ms[i].origin != Invalid ==> Restore(AddAll(ms), ms[i].target) == ms[i].origin
  }

  ghost predicate OneOriginEach(ms: seq<Mapping>) {
    forall i, j :: 0 <= i < |ms| && 0 <= j < |ms| && ms[i].target == ms[j].target ==>
      ms[i].origin == Invalid || ms[j].origin == Invalid || ms[i].origin == ms[j].origin
  }

  lemma RestoredAt(ms: seq<Mapping>, i: nat)
    requires OneOriginEach(ms) && i < |ms| && ms[i].origin != Invalid
    ensures Restore(AddAll(ms), ms[i].target) == ms[i].origin
  {
    FirstMappingWins(ms, ms[i].key, ms[i].target);
    FirstOriginIsOne(ms, ms[i].target);
  }

  /** Every reply is given back the origin its packets were sent to exactly if no two valid
      origins share a target. */
  lemma RepliesRestored(ms: seq<Mapping>)
    ensures AllRestored(ms) <==> OneOriginEach(ms)
  {
    if OneOriginEach(ms) {
      forall i | 0 <= i < |ms| && ms[i].origin != Invalid ensures Restore(AddAll(ms), ms[i].target) == ms[i].origin {
        RestoredAt(ms, i);
      }
    }
  }

  // ----- sending, processing and closing as steps -----

  /** Where a Send is: before its look at the context, or about to put the packet. */
  datatype Sending = Checking | Putting

  datatype Processor =
    | NotStarted
    | Waiting
    | Looking(p: Id)
    | Resolving(p: Id)
    | Writing(p: Id, target: Addr)
    | Returned                     // or never started, the dial having failed

  datatype Sent = Sent(p: Id, target: Addr)

  datatype State = State(
    packets: seq<Packet>,          // every packet offered, by its id
    sending: map<Id, Sending>,
    queue: seq<Id>,
    processor: Processor,
    nat_: Nat,
    cancelled: bool,
    closers: nat,                  // Close calls in their dropAll loop
    accepted: seq<Id>,             // in the order they entered the queue
    taken: seq<Id>,                // in the order they left it
    received: seq<Id>,             // those of them that went to the processor
    sent: seq<Sent>,
    drops: seq<Id>)                // calls of Drop

  datatype Step =
    | Offer(packet: Packet)
    | Check(p: Id)
    | Put(p: Id)
    | Refuse(p: Id)
    | DialMaps(m: Mapping)
    | DialFails
    | StartProcess
    | Receive
    | LookUp
    | Resolve(result: Addr)
    | Write
    | Return
    | Cancel
    | CloserDrops
    | CloserReturns

  predicate Enabled(s: State, step: Step) {
    match step
    case Offer(_) => true
    case Check(p) => p in s.sending && s.sending[p].Checking?
    case Put(p) => p in s.sending && s.sending[p].Putting? && |s.queue| < SENDER_CAPACITY
    case Refuse(p) => p in s.sending && s.sending[p].Putting? && (s.cancelled || |s.queue| >= SENDER_CAPACITY)
    case DialMaps(_) => s.processor.NotStarted?
    case DialFails => s.processor.NotStarted?
    case StartProcess => s.processor.NotStarted?
    case Receive => s.processor.Waiting? && |s.queue| > 0
    case LookUp => s.processor.Looking? && s.processor.p < |s.packets|
    case Resolve(_) => s.processor.Resolving? && s.processor.p < |s.packets|
    case Write => s.processor.Writing?
    case Return => s.processor.Waiting? && s.cancelled
    case Cancel => true
    case CloserDrops => s.closers > 0 && |s.queue| > 0
    case CloserReturns => s.closers > 0 && s.queue == []
  }

  function TakeHead(s: State): State
    requires |s.queue| > 0
  {
    s.(queue := s.queue[1..], taken := s.taken + [s.queue[0]])
  }

  function Drop(s: State, p: Id): State {
    s.(drops := s.drops + [p])
  }

  function After(s: State, step: Step): State
    requires Enabled(s, step)
  {
    match step
    case Offer(packet) => s.(packets := s.packets + [packet], sending := s.sending[|s.packets| := Checking])
    case Check(p) =>
      if s.cancelled then Drop(s.(sending := s.sending - {p}), p) else s.(sending := s.sending[p := Putting])
    case Put(p) => s.(sending := s.sending - {p}, queue := s.queue + [p], accepted := s.accepted + [p])
    case Refuse(p) => Drop(s.(sending := s.sending - {p}), p)
    case DialMaps(m) => s.(nat_ := Add(s.nat_, m))
    case DialFails => s.(processor := Returned, cancelled := true, closers := s.closers + 1)
    case StartProcess => s.(processor := Waiting)
    case Receive => TakeHead(s).(processor := Looking(s.queue[0]), received := s.received + [s.queue[0]])
    case LookUp =>
      var p := s.processor.p;
      var target := TargetOf(s.nat_, s.packets[p].key);
      s.(processor := if target == Invalid then Resolving(p) else Writing(p, target))
    case Resolve(result) =>
      var p := s.processor.p;
      if result == Invalid then Drop(s.(processor := Waiting), p)
      else s.(nat_ := Add(s.nat_, Mapping(s.packets[p].key, s.packets[p].origin, result)),
             processor := Writing(p, result))
    case Write =>
      Drop(s.(sent := s.sent + [Sent(s.processor.p, s.processor.target)], processor := Waiting), s.processor.p)
    case Return => s.(processor := Returned)
    case Cancel => s.(cancelled := true, closers := s.closers + 1)
    case CloserDrops => Drop(TakeHead(s), s.queue[0])
    case CloserReturns => s.(closers := s.closers - 1)
  }

  const NEW_SENDER := State([], map[], [], NotStarted, NO_NAT, false, 0, [], [], [], [], [])

  ghost predicate Run(s: State, steps: seq<Step>, t: State)
    decreases |steps|
  {
    if steps == [] then s == t
    else Enabled(s, steps[0]) && Run(After(s, steps[0]), steps[1..], t)
  }

  // ----- each packet is in exactly one place -----

  datatype Place = WithCaller | Queued | InProcess | Dropped

  predicate Processing(s: State, p: Id) {
    (s.processor.Looking? || s.processor.Resolving? || s.processor.Writing?) && s.processor.p == p
  }

  ghost predicate Agrees(s: State, ledger: map<Id, Place>) {
    && (forall p: Id :: p in ledger <==> p < |s.packets|)
    && (forall p: Id :: p in s.sending <==> p in ledger && ledger[p] == WithCaller)
    && (forall p: Id :: p in s.queue <==> p in ledger && ledger[p] == Queued)
    && (forall p: Id :: Processing(s, p) <==> p in ledger && ledger[p] == InProcess)
    && (forall p: Id :: p in s.drops <==> p in ledger && ledger[p] == Dropped)
  }

  /** Each packet offered has one place, and Drop was called once for those dropped. */
  ghost predicate Conserved(s: State, ledger: map<Id, Place>) {
    Agrees(s, ledger) && Distinct(s.queue) && Distinct(s.drops)
  }

  function LedgerAfter(s: State, step: Step, ledger: map<Id, Place>): map<Id, Place>
    requires Enabled(s, step)
  {
    match step
    case Offer(_) => ledger[|s.packets| := WithCaller]
    case Check(p) => if s.cancelled then ledger[p := Dropped] else ledger
    case Put(p) => ledger[p := Queued]
    case Refuse(p) => ledger[p := Dropped]
    case Receive => ledger[s.queue[0] := InProcess]
    case Resolve(result) => if result == Invalid then ledger[s.processor.p := Dropped] else ledger
    case Write => ledger[s.processor.p := Dropped]
    case CloserDrops => ledger[s.queue[0] := Dropped]
    case _ => ledger
  }

  lemma SendConserves(s: State, step: Step, ledger: map<Id, Place>)
    requires Conserved(s, ledger) && Enabled(s, step)
    requires step.Offer? || step.Check? || step.Put? || step.Refuse?
    ensures Conserved(After(s, step), LedgerAfter(s, step, ledger))
  {
    var t := After(s, step);
    forall p: Id ensures Processing(t, p) <==> Processing(s, p) { }
    if step.Offer? {
      assert |s.packets| !in ledger;
    } else {
      assert ledger[step.p] == WithCaller;
    }
  }

  lemma TailElements(queue: seq<Id>)
    requires Distinct(queue) && |queue| > 0
    ensures Distinct(queue[1..])
    ensures forall p: Id :: p in queue[1..] <==> p in queue && p != queue[0]
  {
    assert queue == [queue[0]] + queue[1..];
  }

  lemma ReceiveConserves(s: State, ledger: map<Id, Place>)
    requires Conserved(s, ledger) && Enabled(s, Receive)
    ensures Conserved(After(s, Receive), LedgerAfter(s, Receive, ledger))
  {
    TailElements(s.queue);
    var t, head := After(s, Receive), s.queue[0];
    assert head in s.queue;
    forall p: Id ensures !Processing(s, p) && (Processing(t, p) <==> p == head) { }
  }

  lemma CloserDropConserves(s: State, ledger: map<Id, Place>)
    requires Conserved(s, ledger) && Enabled(s, CloserDrops)
    ensures Conserved(After(s, CloserDrops), LedgerAfter(s, CloserDrops, ledger))
  {
    TailElements(s.queue);
    var t, head := After(s, CloserDrops), s.queue[0];
    assert head in s.queue;
    forall p: Id ensures Processing(t, p) <==> Processing(s, p) { }
  }

  lemma LookUpConserves(s: State, ledger: map<Id, Place>)
    requires Conserved(s, ledger) && Enabled(s, LookUp)
    ensures Conserved(After(s, LookUp), ledger)
  {
    var t := After(s, LookUp);
    forall p: Id ensures Processing(t, p) <==> Processing(s, p) { }
  }

  /** The processor is done with its packet and drops it. */
  lemma DoneConserves(s: State, t: State, ledger: map<Id, Place>)
    requires Conserved(s, ledger) && (s.processor.Resolving? || s.processor.Writing?) && t.processor.Waiting?
    requires t.packets == s.packets && t.sending == s.sending && t.queue == s.queue
    requires t.drops == s.drops + [s.processor.p]
    ensures Conserved(t, ledger[s.processor.p := Dropped])
  {
    assert Processing(s, s.processor.p);
    forall p: Id ensures !Processing(t, p) && (Processing(s, p) <==> p == s.processor.p) { }
  }

  lemma ProcessConserves(s: State, step: Step, ledger: map<Id, Place>)
    requires Conserved(s, ledger) && Enabled(s, step) && (step.Resolve? || step.Write?)
    ensures Conserved(After(s, step), LedgerAfter(s, step, ledger))
  {
    var t := After(s, step);
    if t.processor.Waiting? {
      DoneConserves(s, t, ledger);
    } else {
      forall p: Id ensures Processing(t, p) <==> Processing(s, p) { }
    }
  }

  lemma OtherConserves(s: State, step: Step, ledger: map<Id, Place>)
    requires Conserved(s, ledger) && Enabled(s, step)
    requires step.DialMaps? || step.DialFails? || step.StartProcess? ||
             step.Return? || step.Cancel? || step.CloserReturns?
    ensures Conserved(After(s, step), LedgerAfter(s, step, ledger))
  {
    var t := After(s, step);
    forall p: Id ensures Processing(t, p) <==> Processing(s, p) { }
  }

  lemma StepConserves(s: State, step: Step, ledger: map<Id, Place>)
    requires Conserved(s, ledger) && Enabled(s, step)
    ensures Conserved(After(s, step), LedgerAfter(s, step, ledger))
  {
    match step
    case Offer(_) => SendConserves(s, step, ledger);
    case Check(_) => SendConserves(s, step, ledger);
    case Put(_) => SendConserves(s, step, ledger);
    case Refuse(_) => SendConserves(s, step, ledger);
    case Receive => ReceiveConserves(s, ledger);
    case CloserDrops => CloserDropConserves(s, ledger);
    case LookUp => LookUpConserves(s, ledger);
    case Resolve(_) => ProcessConserves(s, step, ledger);
    case Write => ProcessConserves(s, step, ledger);
    case _ => OtherConserves(s, step, ledger);
  }

  // ----- order -----

  /** All elements of a, in their order, among those of b. */
  ghost predicate Subsequence(a: seq<Id>, b: seq<Id>)
    decreases |b|
  {
    if a == [] then true
    else if b == [] then false
    else
      || (a[|a| - 1] == b[|b| - 1] && Subsequence(a[..|a| - 1], b[..|b| - 1]))
      || Subsequence(a, b[..|b| - 1])
  }

  lemma SubsequenceGrows(a: seq<Id>, b: seq<Id>, x: Id)
    requires Subsequence(a, b)
    ensures Subsequence(a, b + [x]) && Subsequence(a + [x], b + [x])
  {
    assert (b + [x])[..|b|] == b && (a + [x])[..|a|] == a;
  }

  lemma {:induction false} SubsequenceOfMore(a: seq<Id>, b: seq<Id>, c: seq<Id>)
    requires Subsequence(a, b)
    ensures Subsequence(a, b + c)
    decreases |c|
  {
    if c == [] {
      assert b + c == b;
    } else {
      var init := c[..|c| - 1];
      SubsequenceOfMore(a, b, init);
      SubsequenceGrows(a, b + init, c[|c| - 1]);
      assert b + c == (b + init) + [c[|c| - 1]];
    }
  }

  /** What left the queue and what is in it are what entered it, in order. */
  ghost predicate Fifo(s: State) {
    s.accepted == s.taken + s.queue && Subsequence(s.received, s.taken)
  }

  lemma TakeKeepsFifo(s: State, t: State)
    requires Fifo(s) && |s.queue| > 0 && t.accepted == s.accepted
    requires t.queue == s.queue[1..] && t.taken == s.taken + [s.queue[0]]
    requires t.received == s.received || t.received == s.received + [s.queue[0]]
    ensures Fifo(t)
  {
    SubsequenceGrows(s.received, s.taken, s.queue[0]);
    assert s.taken + s.queue == (s.taken + [s.queue[0]]) + s.queue[1..];
  }

  lemma StepKeepsFifo(s: State, step: Step)
    requires Fifo(s) && Enabled(s, step)
    ensures Fifo(After(s, step))
  {
    var t := After(s, step);
    if step.Receive? || step.CloserDrops? {
      TakeKeepsFifo(s, t);
    } else if step.Put? {
      assert (s.taken + s.queue) + [step.p] == s.taken + (s.queue + [step.p]);
      assert t.received == s.received && t.taken == s.taken;
    } else {
      assert t.accepted == s.accepted && t.taken == s.taken && t.queue == s.queue && t.received == s.received;
    }
  }

  // ----- where packets go -----

  function KeyOf(s: State, p: Id): Key {
    if p < |s.packets| then s.packets[p].key else ""
  }

  predicate Goes(s: State, p: Id, target: Addr) {
    p < |s.packets| && target != Invalid && TargetOf(s.nat_, KeyOf(s, p)) == target
  }

  /** Packets written, and the one about to be, went where the NAT maps their key. */
  ghost predicate TargetsFit(s: State) {
    && (forall i :: 0 <= i < |s.sent| ==> Goes(s, s.sent[i].p, s.sent[i].target))
    && (s.processor.Looking? ==> s.processor.p < |s.packets|)
    && (s.processor.Resolving? ==> s.processor.p < |s.packets| && TargetOf(s.nat_, KeyOf(s, s.processor.p)) == Invalid)
    && (s.processor.Writing? ==> Goes(s, s.processor.p, s.processor.target))
  }

  lemma StepKeepsGoes(s: State, step: Step, p: Id, target: Addr)
    requires Goes(s, p, target) && Enabled(s, step)
    ensures Goes(After(s, step), p, target)
  {
  }

  lemma StepKeepsTargets(s: State, step: Step, ledger: map<Id, Place>)
    requires TargetsFit(s) && Agrees(s, ledger) && Enabled(s, step)
    ensures TargetsFit(After(s, step))
  {
    var t := After(s, step);
    forall i | 0 <= i < |s.sent| ensures Goes(t, s.sent[i].p, s.sent[i].target) {
      StepKeepsGoes(s, step, s.sent[i].p, s.sent[i].target);
    }
    if step.Receive? {
      assert s.queue[0] in s.queue;
    } else if s.processor.Writing? {
      StepKeepsGoes(s, step, s.processor.p, s.processor.target);
    }
  }

  /** A valid entry is never changed. */
  lemma StepKeepsValid(s: State, step: Step)
    requires Enabled(s, step)
    ensures forall key :: TargetOf(s.nat_, key) != Invalid ==>
      TargetOf(After(s, step).nat_, key) == TargetOf(s.nat_, key)
    ensures forall a :: OriginOf(s.nat_, a) != Invalid ==> OriginOf(After(s, step).nat_, a) == OriginOf(s.nat_, a)
  {
  }

  // ----- over whole runs -----

  ghost predicate Inv(s: State, ledger: map<Id, Place>) {
    Conserved(s, ledger) && Fifo(s) && TargetsFit(s)
  }

  lemma {:induction false} RunKeepsInv(s: State, steps: seq<Step>, t: State, ledger: map<Id, Place>)
    returns (last: map<Id, Place>)
    requires Inv(s, ledger) && Run(s, steps, t)
    ensures Inv(t, last)
    decreases |steps|
  {
    if steps == [] {
      last := ledger;
    } else {
      StepConserves(s, steps[0], ledger);
      StepKeepsFifo(s, steps[0]);
      StepKeepsTargets(s, steps[0], ledger);
      last := RunKeepsInv(After(s, steps[0]), steps[1..], t, LedgerAfter(s, steps[0], ledger));
    }
  }

  lemma {:induction false} ValidStays(s: State, steps: seq<Step>, t: State)
    requires Run(s, steps, t)
    ensures forall key :: TargetOf(s.nat_, key) != Invalid ==> TargetOf(t.nat_, key) == TargetOf(s.nat_, key)
    ensures forall a :: OriginOf(s.nat_, a) != Invalid ==> OriginOf(t.nat_, a) == OriginOf(s.nat_, a)
    decreases |steps|
  {
    if steps != [] {
      StepKeepsValid(s, steps[0]);
      ValidStays(After(s, steps[0]), steps[1..], t);
    }
  }

  lemma {:induction false} QueueFits(s: State, steps: seq<Step>, t: State)
    requires |s.queue| <= SENDER_CAPACITY && Run(s, steps, t)
    ensures |t.queue| <= SENDER_CAPACITY
    decreases |steps|
  {
    if steps != [] {
      QueueFits(After(s, steps[0]), steps[1..], t);
    }
  }

  /** In every interleaving: each packet offered is with its caller, queued, in processing or
      dropped, in exactly one of them, and Drop is called at most once for it; packets are
      processed in a subsequence of the order in which they were accepted; and packets with
      one key are all written to one target. At most 128 are queued. */
  lemma EveryRunIsSafe(steps: seq<Step>, s: State)
    requires Run(NEW_SENDER, steps, s)
    ensures exists ledger :: Agrees(s, ledger)
    ensures Distinct(s.drops) && Subsequence(s.received, s.accepted) && |s.queue| <= 128
    ensures forall i, j :: 0 <= i < j < |s.sent| && KeyOf(s, s.sent[i].p) == KeyOf(s, s.sent[j].p) ==>
      s.sent[i].target == s.sent[j].target
  {
    var ledger := RunKeepsInv(NEW_SENDER, steps, s, map[]);
    SubsequenceOfMore(s.received, s.taken, s.queue);
    QueueFits(NEW_SENDER, steps, s);
  }

  // ----- what is received is sent -----

  /** Packets whose resolving failed on the way. */
  ghost function Unresolved(s: State, steps: seq<Step>): seq<Id>
    decreases |steps|
  {
    if steps == [] || !Enabled(s, steps[0]) then []
    else
      (if steps[0] == Resolve(Invalid) then [s.processor.p] else []) + Unresolved(After(s, steps[0]), steps[1..])
  }

  ghost function SentIds(sent: seq<Sent>): seq<Id> {
    if sent == [] then [] else SentIds(sent[..|sent| - 1]) + [sent[|sent| - 1].p]
  }

  ghost predicate Busy(s: State) {
    s.processor.Looking? || s.processor.Resolving? || s.processor.Writing?
  }

  /** What the processor is done with: all it received but the packet it is at. */
  ghost function Finished(s: State): seq<Id> {
    if Busy(s) && |s.received| > 0 then s.received[..|s.received| - 1] else s.received
  }

  /** Each packet the processor is done with was sent, in turn, or is among those gone. */
  ghost predicate Handled(s: State, gone: seq<Id>) {
    && (Busy(s) ==> |s.received| > 0 && s.received[|s.received| - 1] == s.processor.p)
    && Subsequence(SentIds(s.sent), Finished(s))
    && (forall p :: p in Finished(s) ==> p in SentIds(s.sent) || p in gone)
  }

  lemma OneMoreSent(sent: seq<Sent>, x: Sent)
    ensures SentIds(sent + [x]) == SentIds(sent) + [x.p]
  {
    assert (sent + [x])[..|sent|] == sent;
  }

  /** The processor is done with the packet it was at. */
  lemma FinishedGrows(s: State, t: State)
    requires Busy(s) && |s.received| > 0 && s.received[|s.received| - 1] == s.processor.p
    requires !Busy(t) && t.received == s.received
    ensures Finished(t) == Finished(s) + [s.processor.p]
  {
  }

  lemma WriteHandles(s: State, gone: seq<Id>)
    requires Handled(s, gone) && Enabled(s, Write)
    ensures Handled(After(s, Write), gone)
  {
    var t := After(s, Write);
    FinishedGrows(s, t);
    OneMoreSent(s.sent, Sent(s.processor.p, s.processor.target));
    SubsequenceGrows(SentIds(s.sent), Finished(s), s.processor.p);
  }

  lemma ResolveHandles(s: State, result: Addr, gone: seq<Id>)
    requires Handled(s, gone) && Enabled(s, Resolve(result))
    ensures Handled(After(s, Resolve(result)), gone + if result == Invalid then [s.processor.p] else [])
  {
    var t := After(s, Resolve(result));
    if result == Invalid {
      FinishedGrows(s, t);
      SubsequenceGrows(SentIds(s.sent), Finished(s), s.processor.p);
    } else {
      assert gone + [] == gone && Finished(t) == Finished(s);
    }
  }

  lemma StepHandles(s: State, step: Step, gone: seq<Id>)
    requires Handled(s, gone) && Enabled(s, step)
    ensures Handled(After(s, step), gone + if step == Resolve(Invalid) then [s.processor.p] else [])
  {
    assert gone + [] == gone;
    match step
    case Write => WriteHandles(s, gone);
    case Resolve(result) => ResolveHandles(s, result, gone);
    case _ => assert Finished(After(s, step)) == Finished(s);
  }

  lemma {:induction false} RunHandles(s: State, steps: seq<Step>, t: State, gone: seq<Id>)
    requires Handled(s, gone) && Run(s, steps, t)
    ensures Handled(t, gone + Unresolved(s, steps))
    decreases |steps|
  {
    if steps == [] {
      assert gone + [] == gone;
    } else {
      var now := if steps[0] == Resolve(Invalid) then [s.processor.p] else [];
      StepHandles(s, steps[0], gone);
      RunHandles(After(s, steps[0]), steps[1..], t, gone + now);
      assert gone + now + Unresolved(After(s, steps[0]), steps[1..]) == gone + Unresolved(s, steps);
    }
  }

  lemma HandledMeans(s: State, gone: seq<Id>)
    requires Handled(s, gone)
    ensures Subsequence(SentIds(s.sent), s.received)
    ensures forall p :: p in s.received ==> Processing(s, p) || p in SentIds(s.sent) || p in gone
  {
    if Busy(s) {
      var finished := Finished(s);
      assert s.received == finished + [s.processor.p];
      SubsequenceGrows(SentIds(s.sent), finished, s.processor.p);
    }
  }

  /** In every interleaving: packets are sent in the order in which they were received, and one
      that was received is in processing, or was sent, or could not be resolved. */
  lemma ReceivedAreSent(steps: seq<Step>, t: State)
    requires Run(NEW_SENDER, steps, t)
    ensures Subsequence(SentIds(t.sent), t.received)
    ensures forall p :: p in t.received ==>
      Processing(t, p) || p in SentIds(t.sent) || p in Unresolved(NEW_SENDER, steps)
  {
    RunHandles(NEW_SENDER, steps, t, []);
    HandledMeans(t, [] + Unresolved(NEW_SENDER, steps));
  }

  // ----- packets that outlive Close -----

  predicate IsPutting(s: State, p: Id) {
    p in s.sending && s.sending[p].Putting?
  }

  ghost predicate Quiet(s: State) {
    s.cancelled && s.queue == [] && forall p: Id :: !IsPutting(s, p)
  }

  lemma StepKeepsQuiet(s: State, step: Step)
    requires Quiet(s) && Enabled(s, step)
    ensures Quiet(After(s, step)) && After(s, step).accepted == s.accepted
  {
    assert step.Put? ==> IsPutting(s, step.p);
    forall p: Id ensures !IsPutting(After(s, step), p) {
      assert !IsPutting(s, p);
    }
  }

  lemma {:induction false} QuietStays(s: State, steps: seq<Step>, t: State)
    requires Quiet(s) && Run(s, steps, t)
    ensures Quiet(t) && t.accepted == s.accepted
    decreases |steps|
  {
    if steps != [] {
      StepKeepsQuiet(s, steps[0]);
      QuietStays(After(s, steps[0]), steps[1..], t);
    }
  }

  ghost predicate Fills(s: State, steps: seq<Step>, t: State) {
    Run(s, steps, t) && |t.queue| > 0
  }

  /** Once Close has emptied the queue, a packet can still enter it exactly if some Send had
      looked at the context before. */
  lemma EntersAfterClose(s: State)
    requires s.cancelled && s.queue == []
    ensures (exists steps, t :: Fills(s, steps, t)) <==> (exists p: Id :: IsPutting(s, p))
  {
    if p: Id :| IsPutting(s, p) {
      var t := After(s, Put(p));
      var steps := [Put(p)];
      assert steps[1..] == [] && Run(t, [], t);
      assert t.queue == [p];
      assert Fills(s, steps, t);
    } else {
      forall steps, t ensures !Fills(s, steps, t) {
        if Run(s, steps, t) {
          QuietStays(s, steps, t);
        }
      }
    }
  }

  /** The processor is gone and no dropAll is under way. */
  predicate Abandoned(s: State) {
    s.processor.Returned? && s.closers == 0
  }

  /** Nobody calls Close. */
  ghost predicate NoClose(steps: seq<Step>) {
    forall i :: 0 <= i < |steps| ==> steps[i] != Cancel
  }

  lemma StepLeavesQueue(s: State, step: Step)
    requires Abandoned(s) && Enabled(s, step) && step != Cancel
    ensures Abandoned(After(s, step)) && After(s, step).taken == s.taken && s.queue <= After(s, step).queue
  {
  }

  lemma {:induction false} AbandonedQueueStays(s: State, steps: seq<Step>, t: State)
    requires Abandoned(s) && Run(s, steps, t) && NoClose(steps)
    ensures Abandoned(t) && t.taken == s.taken && s.queue <= t.queue
    decreases |steps|
  {
    if steps != [] {
      assert forall i :: 0 <= i < |steps[1..]| ==> steps[1..][i] == steps[i + 1];
      StepLeavesQueue(s, steps[0]);
      AbandonedQueueStays(After(s, steps[0]), steps[1..], t);
    }
  }

  /** In every run that abandons the sender, what is queued then is neither processed nor
      dropped for as long as nobody calls Close again. */
  lemma StrandedStays(before: seq<Step>, s: State, steps: seq<Step>, t: State)
    requires Run(NEW_SENDER, before, s) && Abandoned(s) && Run(s, steps, t) && NoClose(steps)
    ensures t.taken == s.taken
    ensures forall p :: p in s.queue ==> p in t.queue && p !in t.drops && !Processing(t, p)
  {
    AbandonedQueueStays(s, steps, t);
    var ledger := RunKeepsInv(NEW_SENDER, before, s, map[]);
    var last := RunKeepsInv(s, steps, t, ledger);
    forall p | p in s.queue ensures p in t.queue && p !in t.drops && !Processing(t, p) {
      var i :| 0 <= i < |s.queue| && s.queue[i] == p;
      assert t.queue[i] == p;
    }
  }

  const LATE := Packet("example.org", Invalid)

  /** A Send that is overtaken by Close and by the end of the processor. */
  const OVERTAKEN: seq<Step> := [Offer(LATE), Check(0), StartProcess, Cancel, CloserReturns, Return, Put(0)]

  lemma RunOne(s: State, steps: seq<Step>, k: nat, t: State)
    requires k < |steps| && Enabled(s, steps[k]) && Run(After(s, steps[k]), steps[k + 1..], t)
    ensures Run(s, steps[k..], t)
    ensures k == 0 ==> Run(s, steps, t)
  {
    assert steps[k..][0] == steps[k] && steps[k..][1..] == steps[k + 1..];
    assert k == 0 ==> steps[k..] == steps;
  }

  const PUTTING := NEW_SENDER.(packets := [LATE], sending := map[0 := Putting])

  lemma UpToPutting(t: State)
    requires Run(PUTTING.(processor := Waiting), OVERTAKEN[3..], t)
    ensures Run(NEW_SENDER, OVERTAKEN, t)
  {
    RunOne(PUTTING, OVERTAKEN, 2, t);
    var s1 := PUTTING.(sending := map[0 := Checking]);
    assert After(s1, Check(0)) == PUTTING;
    RunOne(s1, OVERTAKEN, 1, t);
    assert After(NEW_SENDER, Offer(LATE)) == s1;
    RunOne(NEW_SENDER, OVERTAKEN, 0, t);
  }

  /** It happens: a packet ends up in an abandoned queue. */
  lemma PacketStrands()
    ensures exists s :: Run(NEW_SENDER, OVERTAKEN, s) && Abandoned(s) && s.queue == [0]
  {
    var s3 := PUTTING.(processor := Waiting);
    var s4 := s3.(cancelled := true, closers := 1);
    var s5 := s4.(closers := 0);
    var s6 := s5.(processor := Returned);
    var s := s6.(sending := map[], queue := [0], accepted := [0]);
    assert After(s6, Put(0)) == s;
    RunOne(s6, OVERTAKEN, 6, s);
    RunOne(s5, OVERTAKEN, 5, s);
    RunOne(s4, OVERTAKEN, 4, s);
    RunOne(s3, OVERTAKEN, 3, s);
    UpToPutting(s);
    assert Run(NEW_SENDER, OVERTAKEN, s) && Abandoned(s);
  }

  /** A Send that is overtaken by a failed dial. */
  const UNDIALLED: seq<Step> := [Offer(LATE), Check(0), DialFails, CloserReturns, Put(0)]

  /** It happens without any processor too, when the dial fails. */
  lemma PacketStrandsUndialled()
    ensures exists s :: Run(NEW_SENDER, UNDIALLED, s) && Abandoned(s) && s.queue == [0]
  {
    var s1 := PUTTING.(sending := map[0 := Checking]);
    var s3 := PUTTING.(processor := Returned, cancelled := true, closers := 1);
    var s4 := s3.(closers := 0);
    var s := s4.(sending := map[], queue := [0], accepted := [0]);
    assert After(s4, Put(0)) == s;
    RunOne(s4, UNDIALLED, 4, s);
    RunOne(s3, UNDIALLED, 3, s);
    RunOne(PUTTING, UNDIALLED, 2, s);
    assert After(s1, Check(0)) == PUTTING && After(NEW_SENDER, Offer(LATE)) == s1;
    RunOne(s1, UNDIALLED, 1, s);
    RunOne(NEW_SENDER, UNDIALLED, 0, s);
    assert Run(NEW_SENDER, UNDIALLED, s) && Abandoned(s);
  }

  // ----- what a processor writes -----

  datatype Processed = Processed(nat_: Nat, written: seq<(Key, Addr)>)

  /** Where a packet goes: to the mapped target, or to what resolving it gives, if anything. */
  function Destination(n: Nat, packet: Packet, resolved: Addr): Addr {
    if TargetOf(n, packet.key) != Invalid then TargetOf(n, packet.key) else resolved
  }

  function MapsAfter(n: Nat, packet: Packet, resolved: Addr): Nat {
    if TargetOf(n, packet.key) == Invalid && resolved != Invalid then
      Add(n, Mapping(packet.key, packet.origin, resolved))
    else n
  }

  /** Processing the packets in turn: each that has a destination is written to it. */
  ghost function ProcessAll(n: Nat, packets: seq<Packet>, resolve: nat -> Addr): Processed {
    if packets == [] then Processed(n, [])
    else
      var k := |packets| - 1;
      var before := ProcessAll(n, packets[..k], resolve);
      var addr := Destination(before.nat_, packets[k], resolve(k));
      Processed(MapsAfter(before.nat_, packets[k], resolve(k)),
                before.written + if addr == Invalid then [] else [(packets[k].key, addr)])
  }

  /** One of the packets that can be sent somewhere. */
  ghost predicate Sendable(n: Nat, packets: seq<Packet>, resolve: nat -> Addr, i: nat) {
    i < |packets| && Destination(ProcessAll(n, packets[..i], resolve).nat_, packets[i], resolve(i)) != Invalid
  }

  ghost function CountSendable(n: Nat, packets: seq<Packet>, resolve: nat -> Addr, k: nat): nat
    requires k <= |packets|
  {
    if k == 0 then 0
    else CountSendable(n, packets, resolve, k - 1) + if Sendable(n, packets, resolve, k - 1) then 1 else 0
  }

  ghost function WrittenBefore(n: Nat, packets: seq<Packet>, resolve: nat -> Addr, k: nat): seq<(Key, Addr)>
    requires k <= |packets|
  {
    ProcessAll(n, packets[..k], resolve).written
  }

  lemma OneMorePacket(n: Nat, packets: seq<Packet>, resolve: nat -> Addr, k: nat)
    requires k < |packets|
    ensures var before := ProcessAll(n, packets[..k], resolve);
      var addr := Destination(before.nat_, packets[k], resolve(k));
      ProcessAll(n, packets[..k + 1], resolve) == Processed(
        MapsAfter(before.nat_, packets[k], resolve(k)),
        before.written + if addr == Invalid then [] else [(packets[k].key, addr)])
  {
    assert packets[..k + 1][..k] == packets[..k];
  }

  lemma NextPacket(packets: seq<Packet>, n: nat, dropped: seq<Packet>)
    requires n < |packets|
    ensures packets[n..][0] == packets[n] && packets[n..][1..] == packets[n + 1..]
    ensures dropped + packets[..n] + [packets[n]] == dropped + packets[..n + 1]
  {
  }

  lemma {:induction false} AsManyAreWritten(n: Nat, packets: seq<Packet>, resolve: nat -> Addr, k: nat)
    requires k <= |packets|
    ensures |WrittenBefore(n, packets, resolve, k)| == CountSendable(n, packets, resolve, k)
  {
    if k > 0 {
      AsManyAreWritten(n, packets, resolve, k - 1);
      OneMorePacket(n, packets, resolve, k - 1);
    }
  }

  lemma {:induction false} WrittenStays(n: Nat, packets: seq<Packet>, resolve: nat -> Addr, i: nat, k: nat)
    requires i <= k <= |packets|
    ensures WrittenBefore(n, packets, resolve, i) <= WrittenBefore(n, packets, resolve, k)
    decreases k - i
  {
    if i < k {
      WrittenStays(n, packets, resolve, i, k - 1);
      OneMorePacket(n, packets, resolve, k - 1);
    }
  }

  /** No packet is forgotten: one that can be sent is written in its turn, after as many others
      as could be sent before it. */
  lemma EverySendableIsWritten(n: Nat, packets: seq<Packet>, resolve: nat -> Addr, i: nat, k: nat)
    requires i < k <= |packets| && Sendable(n, packets, resolve, i)
    ensures var written := WrittenBefore(n, packets, resolve, k);
      var turn := CountSendable(n, packets, resolve, i);
      turn < |written| == CountSendable(n, packets, resolve, k) && written[turn].0 == packets[i].key
  {
    AsManyAreWritten(n, packets, resolve, i);
    AsManyAreWritten(n, packets, resolve, k);
    OneMorePacket(n, packets, resolve, i);
    WrittenStays(n, packets, resolve, i + 1, k);
  }

  lemma MapsAfterKeeps(n: Nat, packet: Packet, resolved: Addr, key: Key)
    ensures TargetOf(n, key) != Invalid ==> TargetOf(MapsAfter(n, packet, resolved), key) == TargetOf(n, key)
    ensures TargetOf(MapsAfter(n, packet, resolved), packet.key) == Destination(n, packet, resolved)
  {
  }

  /** Each key is written to one target, the one it is mapped to ever after. */
  lemma {:induction false} WrittenWhereMapped(n: Nat, packets: seq<Packet>, resolve: nat -> Addr, k: nat)
    requires k <= |packets|
    ensures var p := ProcessAll(n, packets[..k], resolve);
      forall j :: 0 <= j < |p.written| ==>
        p.written[j].1 != Invalid && TargetOf(p.nat_, p.written[j].0) == p.written[j].1
  {
    if k > 0 {
      WrittenWhereMapped(n, packets, resolve, k - 1);
      OneMorePacket(n, packets, resolve, k - 1);
      var before, p := ProcessAll(n, packets[..k - 1], resolve), ProcessAll(n, packets[..k], resolve);
      forall j | 0 <= j < |p.written|
        ensures p.written[j].1 != Invalid && TargetOf(p.nat_, p.written[j].0) == p.written[j].1
      {
        assert j < |before.written| ==> p.written[j] == before.written[j];
        MapsAfterKeeps(before.nat_, packets[k - 1], resolve(k - 1), p.written[j].0);
      }
    }
  }

  // ----- what a processor maps -----

  /** Packet i is the first of its key that can be resolved, and the key had no target before. */
  ghost predicate Resolved(n: Nat, packets: seq<Packet>, resolve: nat -> Addr, i: nat) {
    && i < |packets| && resolve(i) != Invalid
    && (packets[i].key in n.originToTarget ==> n.originToTarget[packets[i].key] == Invalid)
    && forall j :: 0 <= j < i && packets[j].key == packets[i].key ==> resolve(j) == Invalid
  }

  /** For each of these in turn: its key and its own destination, to where it was resolved. */
  ghost function Recorded(n: Nat, packets: seq<Packet>, resolve: nat -> Addr, k: nat): seq<Mapping>
    requires k <= |packets|
  {
    if k == 0 then []
    else
      Recorded(n, packets, resolve, k - 1)
      + if Resolved(n, packets, resolve, k - 1) then
          [Mapping(packets[k - 1].key, packets[k - 1].origin, resolve(k - 1))]
        else []
  }

  /** A packet of the key was resolved before position k. */
  ghost predicate ResolvedBefore(packets: seq<Packet>, resolve: nat -> Addr, k: nat, key: Key) {
    exists j :: 0 <= j < k && j < |packets| && packets[j].key == key && resolve(j) != Invalid
  }

  lemma ResolvedBeforeNext(packets: seq<Packet>, resolve: nat -> Addr, k: nat, key: Key)
    requires k < |packets|
    ensures ResolvedBefore(packets, resolve, k + 1, key) <==>
      ResolvedBefore(packets, resolve, k, key) || (packets[k].key == key && resolve(k) != Invalid)
  {
  }

  lemma MapsAfterHasTarget(n: Nat, packet: Packet, resolved: Addr, key: Key)
    ensures TargetOf(MapsAfter(n, packet, resolved), key) != Invalid <==>
      TargetOf(n, key) != Invalid || (packet.key == key && resolved != Invalid)
  {
    MapsAfterKeeps(n, packet, resolved, key);
  }

  lemma {:induction false} KeyHasTarget(n: Nat, packets: seq<Packet>, resolve: nat -> Addr, k: nat, key: Key)
    requires k <= |packets|
    ensures TargetOf(ProcessAll(n, packets[..k], resolve).nat_, key) != Invalid <==>
      TargetOf(n, key) != Invalid || ResolvedBefore(packets, resolve, k, key)
  {
    if k > 0 {
      KeyHasTarget(n, packets, resolve, k - 1, key);
      OneMorePacket(n, packets, resolve, k - 1);
      ResolvedBeforeNext(packets, resolve, k - 1, key);
      MapsAfterHasTarget(ProcessAll(n, packets[..k - 1], resolve).nat_, packets[k - 1], resolve(k - 1), key);
    }
  }

  /** They are the packets processed under a key without a target that have an address. */
  lemma ResolvedExactly(n: Nat, packets: seq<Packet>, resolve: nat -> Addr, k: nat)
    requires k < |packets|
    ensures Resolved(n, packets, resolve, k) <==>
      TargetOf(ProcessAll(n, packets[..k], resolve).nat_, packets[k].key) == Invalid && resolve(k) != Invalid
  {
    KeyHasTarget(n, packets, resolve, k, packets[k].key);
  }

  lemma AddOnMore(n: Nat, ms: seq<Mapping>, m: Mapping)
    ensures AddOn(n, ms + [m]) == Add(AddOn(n, ms), m)
  {
    assert (ms + [m])[..|ms|] == ms;
  }

  lemma MapsStep(n: Nat, packets: seq<Packet>, resolve: nat -> Addr, k: nat)
    requires k < |packets|
    ensures ProcessAll(n, packets[..k + 1], resolve).nat_ ==
      if Resolved(n, packets, resolve, k) then
        Add(ProcessAll(n, packets[..k], resolve).nat_, Mapping(packets[k].key, packets[k].origin, resolve(k)))
      else ProcessAll(n, packets[..k], resolve).nat_
  {
    OneMorePacket(n, packets, resolve, k);
    ResolvedExactly(n, packets, resolve, k);
  }

  lemma RecordedStep(n: Nat, packets: seq<Packet>, resolve: nat -> Addr, k: nat)
    requires k < |packets|
    ensures AddOn(n, Recorded(n, packets, resolve, k + 1)) ==
      if Resolved(n, packets, resolve, k) then
        Add(AddOn(n, Recorded(n, packets, resolve, k)), Mapping(packets[k].key, packets[k].origin, resolve(k)))
      else AddOn(n, Recorded(n, packets, resolve, k))
  {
    var ms := Recorded(n, packets, resolve, k);
    AddOnMore(n, ms, Mapping(packets[k].key, packets[k].origin, resolve(k)));
    assert ms + [] == ms;
  }

  /** Processing adds exactly these mappings. */
  lemma {:induction false} ProcessRecords(n: Nat, packets: seq<Packet>, resolve: nat -> Addr, k: nat)
    requires k <= |packets|
    ensures ProcessAll(n, packets[..k], resolve).nat_ == AddOn(n, Recorded(n, packets, resolve, k))
  {
    if k > 0 {
      ProcessRecords(n, packets, resolve, k - 1);
      MapsStep(n, packets, resolve, k - 1);
      RecordedStep(n, packets, resolve, k - 1);
    }
  }

  lemma {:induction false} RecordedAre(n: Nat, packets: seq<Packet>, resolve: nat -> Addr, k: nat)
    requires k <= |packets|
    ensures forall i: nat :: i < k && Resolved(n, packets, resolve, i) ==>
      Mapping(packets[i].key, packets[i].origin, resolve(i)) in Recorded(n, packets, resolve, k)
    ensures forall m :: m in Recorded(n, packets, resolve, k) ==>
      exists i: nat :: i < k && Resolved(n, packets, resolve, i)
                       && m == Mapping(packets[i].key, packets[i].origin, resolve(i))
  {
    if k > 0 {
      RecordedAre(n, packets, resolve, k - 1);
    }
  }

  ghost predicate ResolvedRestored(packets: seq<Packet>, resolve: nat -> Addr) {
    forall i: nat :: Resolved(NO_NAT, packets, resolve, i) && packets[i].origin != Invalid ==>
      Restore(ProcessAll(NO_NAT, packets, resolve).nat_, resolve(i)) == packets[i].origin
  }

  ghost predicate ResolvedApart(packets: seq<Packet>, resolve: nat -> Addr) {
    forall i: nat, j: nat ::
      Resolved(NO_NAT, packets, resolve, i) && Resolved(NO_NAT, packets, resolve, j) && resolve(i) == resolve(j) ==>
        packets[i].origin == Invalid || packets[j].origin == Invalid || packets[i].origin == packets[j].origin
  }

  /** The mappings ms are those of the packets resolved. */
  ghost predicate OfResolved(packets: seq<Packet>, resolve: nat -> Addr, ms: seq<Mapping>) {
    && (forall i: nat :: Resolved(NO_NAT, packets, resolve, i) ==>
         Mapping(packets[i].key, packets[i].origin, resolve(i)) in ms)
    && (forall m :: m in ms ==>
         exists i: nat :: Resolved(NO_NAT, packets, resolve, i)
                          && m == Mapping(packets[i].key, packets[i].origin, resolve(i)))
  }

  lemma RestoredTold(packets: seq<Packet>, resolve: nat -> Addr, ms: seq<Mapping>)
    requires OfResolved(packets, resolve, ms) && ProcessAll(NO_NAT, packets, resolve).nat_ == AddAll(ms)
    ensures AllRestored(ms) <==> ResolvedRestored(packets, resolve)
  {
    forall i | 0 <= i < |ms| ensures ms[i] in ms { }
  }

  lemma ApartTold(packets: seq<Packet>, resolve: nat -> Addr, ms: seq<Mapping>)
    requires OfResolved(packets, resolve, ms)
    ensures OneOriginEach(ms) <==> ResolvedApart(packets, resolve)
  {
    forall i | 0 <= i < |ms| ensures ms[i] in ms { }
  }

  /** So a new sender gives every reply back the destination its packets had exactly if no two
      packets with different valid destinations are resolved to one address. */
  lemma ProcessedRepliesRestored(packets: seq<Packet>, resolve: nat -> Addr)
    ensures ResolvedRestored(packets, resolve) <==> ResolvedApart(packets, resolve)
  {
    var ms := Recorded(NO_NAT, packets, resolve, |packets|);
    assert packets[..|packets|] == packets;
    ProcessRecords(NO_NAT, packets, resolve, |packets|);
    RecordedAre(NO_NAT, packets, resolve, |packets|);
    RepliesRestored(ms);
    RestoredTold(packets, resolve, ms);
    ApartTold(packets, resolve, ms);
  }

  // ----- what a run maps -----

  /** The dialler's mapping, or the packet's own destination to where it was resolved. */
  ghost function StepMaps(s: State, step: Step): seq<Mapping> {
    match step
    case DialMaps(m) => [m]
    case Resolve(result) =>
      if result == Invalid || !Enabled(s, step) then []
      else [Mapping(s.packets[s.processor.p].key, s.packets[s.processor.p].origin, result)]
    case _ => []
  }

  ghost function RunMaps(s: State, steps: seq<Step>): seq<Mapping>
    decreases |steps|
  {
    if steps == [] || !Enabled(s, steps[0]) then []
    else StepMaps(s, steps[0]) + RunMaps(After(s, steps[0]), steps[1..])
  }

  lemma {:induction false} AddOnConcat(n: Nat, a: seq<Mapping>, b: seq<Mapping>)
    ensures AddOn(n, a + b) == AddOn(AddOn(n, a), b)
  {
    if b == [] {
      assert a + b == a;
    } else {
      var init, last := b[..|b| - 1], b[|b| - 1];
      AddOnConcat(n, a, init);
      AddOnMore(n, a + init, last);
      assert a + b == a + init + [last];
    }
  }

  lemma StepRecords(s: State, step: Step)
    requires Enabled(s, step)
    ensures After(s, step).nat_ == AddOn(s.nat_, StepMaps(s, step))
  {
    if |StepMaps(s, step)| == 1 {
      AddOnMore(s.nat_, [], StepMaps(s, step)[0]);
      assert [] + [StepMaps(s, step)[0]] == StepMaps(s, step);
    }
  }

  lemma {:induction false} RunRecords(s: State, steps: seq<Step>, t: State)
    requires Run(s, steps, t)
    ensures t.nat_ == AddOn(s.nat_, RunMaps(s, steps))
    decreases |steps|
  {
    if steps != [] {
      var next := After(s, steps[0]);
      StepRecords(s, steps[0]);
      RunRecords(next, steps[1..], t);
      AddOnConcat(s.nat_, StepMaps(s, steps[0]), RunMaps(next, steps[1..]));
    }
  }

  /** After any run, every reply is given back the destination that was mapped to its address
      exactly if no two valid destinations were mapped to one address on the way. */
  lemma RunRepliesRestored(steps: seq<Step>, t: State)
    requires Run(NEW_SENDER, steps, t)
    ensures var ms := RunMaps(NEW_SENDER, steps);
      && t.nat_ == AddAll(ms)
      && ((forall i :: 0 <= i < |ms| && ms[i].origin != Invalid ==> Restore(t.nat_, ms[i].target) == ms[i].origin)
          <==> OneOriginEach(ms))
  {
    RunRecords(NEW_SENDER, steps, t);
    RepliesRestored(RunMaps(NEW_SENDER, steps));
  }

  // ----- the code of one sender -----

  class Sender {
    var ctxDone: bool
    var ch: seq<Packet>
    var originToTarget: map<Key, Addr>
    var targetToOrigin: map<Addr, Addr>
    var dropped: seq<Packet>

    function Maps(): Nat
      reads this
    {
      Nat(originToTarget, targetToOrigin)
    }

    constructor ()
      ensures !ctxDone && ch == [] && Maps() == NO_NAT && dropped == []
    {
      ctxDone, ch, originToTarget, targetToOrigin, dropped := false, [], map[], map[], [];
    }

    method AddMapping(origin: Packet, target: Addr)
      modifies this`originToTarget, this`targetToOrigin
      ensures Maps() == Add(old(Maps()), Mapping(origin.key, origin.origin, target))
    {
      if origin.key !in originToTarget || originToTarget[origin.key] == Invalid {
        originToTarget := originToTarget[origin.key := target];
      }
      if target !in targetToOrigin || targetToOrigin[target] == Invalid {
        targetToOrigin := targetToOrigin[target := origin.origin];
      }
    }

    method RestoreReadFrom(addr: Addr) returns (r: Addr)
      ensures r == Restore(Maps(), addr)
      ensures r == if addr in targetToOrigin && targetToOrigin[addr] != Invalid then targetToOrigin[addr] else addr
    {
      if addr in targetToOrigin && targetToOrigin[addr] != Invalid {
        return targetToOrigin[addr];
      }
      return addr;
    }

    /** Where the packet is written, if anywhere; `resolved` is what resolving it would give. */
    method ProcessPacket(packet: Packet, resolved: Addr) returns (addr: Addr)
      modifies this`originToTarget, this`targetToOrigin, this`dropped
      ensures dropped == old(dropped) + [packet]
      ensures addr == Destination(old(Maps()), packet, resolved)
      ensures Maps() == MapsAfter(old(Maps()), packet, resolved)
      ensures packet.key in old(originToTarget) && old(originToTarget)[packet.key] != Invalid ==>
        && addr == old(originToTarget)[packet.key]
        && originToTarget == old(originToTarget) && targetToOrigin == old(targetToOrigin)
      ensures (packet.key in old(originToTarget) ==> old(originToTarget)[packet.key] == Invalid) ==>
        && addr == resolved
        && originToTarget == (if addr == Invalid then old(originToTarget) else old(originToTarget)[packet.key := addr])
        && targetToOrigin ==
           (if addr == Invalid || (addr in old(targetToOrigin) && old(targetToOrigin)[addr] != Invalid) then
              old(targetToOrigin)
            else old(targetToOrigin)[addr := packet.origin])
      ensures TargetOf(old(Maps()), packet.key) == Invalid && resolved != Invalid && packet.origin != Invalid
              && OriginOf(old(Maps()), resolved) == Invalid ==>
        addr == resolved && Restore(Maps(), addr) == packet.origin
    {
      addr := if packet.key in originToTarget then originToTarget[packet.key] else Invalid;
      if addr == Invalid {
        addr := resolved;
        if addr != Invalid {
          AddMapping(packet, addr);
        }
      }
      dropped := dropped + [packet];
    }

    /** Takes packets until the queue is empty or, on a closed sender, the context is seen.
        They leave in order, each is dropped, and each that has a destination is written. */
    method Process(resolve: nat -> Addr, seesContext: nat -> bool) returns (n: nat, written: seq<(Key, Addr)>)
      modifies this`ch, this`originToTarget, this`targetToOrigin, this`dropped
      ensures n <= |old(ch)| && (!ctxDone ==> n == |old(ch)|)
      ensures ch == old(ch)[n..] && dropped == old(dropped) + old(ch)[..n]
      ensures Processed(Maps(), written) == ProcessAll(old(Maps()), old(ch)[..n], resolve)
      ensures Maps() == AddOn(old(Maps()), Recorded(old(Maps()), old(ch), resolve, n))
    {
      n, written := 0, [];
      ghost var packets := ch;
      while |ch| > 0 && !(ctxDone && seesContext(n))
        invariant n <= |packets|
        invariant ch == packets[n..] && dropped == old(dropped) + packets[..n]
        invariant Processed(Maps(), written) == ProcessAll(old(Maps()), packets[..n], resolve)
        decreases |ch|
      {
        NextPacket(packets, n, old(dropped));
        OneMorePacket(old(Maps()), packets, resolve, n);
        var packet := ch[0];
        ch := ch[1..];
        var addr := ProcessPacket(packet, resolve(n));
        if addr != Invalid {
          written := written + [(packet.key, addr)];
        }
        n := n + 1;
      }
      ProcessRecords(old(Maps()), packets, resolve, n);
    }

    method DropAll()
      modifies this`ch, this`dropped
      ensures ch == [] && dropped == old(dropped) + old(ch)
    {
      while |ch| > 0
        invariant dropped + ch == old(dropped) + old(ch)
        decreases |ch|
      {
        assert ch == [ch[0]] + ch[1..];
        dropped := dropped + [ch[0]];
        ch := ch[1..];
      }
    }

    /** An undisturbed Send: the packet is queued or dropped. */
    method Send(packet: Packet)
      modifies this`ch, this`dropped
      ensures if !ctxDone && |old(ch)| < 128 then ch == old(ch) + [packet] && dropped == old(dropped)
              else ch == old(ch) && dropped == old(dropped) + [packet]
    {
      if ctxDone {
        dropped := dropped + [packet];
        return;
      }
      if |ch| < SENDER_CAPACITY {
        ch := ch + [packet];
      } else {
        dropped := dropped + [packet];
      }
    }

    method Close()
      modifies this`ctxDone, this`ch, this`dropped
      ensures ctxDone && ch == [] && dropped == old(dropped) + old(ch)
    {
      ctxDone := true;
      DropAll();
    }
  }
}

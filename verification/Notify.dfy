/**
  The notification primitive as a step protocol: one stored permit, a broadcast generation, and a queue
  of waiters that each carry the generation they captured.
 */
module Notify {
  import opened WaitWord
  import opened WaitNodes
  import opened Generations

  /** The packed state word: generation, PERMIT and HAS_QUEUE. Every CAS compares all three. */
  datatype Bits = Bits(gen: nat, permit: bool, hasQueue: bool)

  /** SIGNAL_SIGNALED, sent by `notify_one`, and SIGNAL_ALL, sent by `notify_waiters`. */
  datatype Kind = One | All

  datatype Then = Park(future: bool) | SpinOn | WakeOne | WakeAll | Again | Leave

  datatype Pc =
    | Idle
    | TryLoad(g: nat, future: bool, last: bool)
    | TryCas(g: nat, future: bool, last: bool, seen: Bits)
    | EnqLock(g: nat, future: bool)
    | EnqFlag(g: nat, future: bool)
    | EnqCas(g: nat, future: bool, seen: Bits)
    | EnqPush(g: nat, future: bool)
    | Unlock(next: Then)
    | Release(next: Then)
    | Waiting(future: bool)
    | DropLock
    | DropRemove
    | DropSpin
    | OneLoad
    | OneCas(seen: Bits)
    | OneSlow
    | OneSlowCas(seen: Bits)
    | OneLock
    | OnePop
    | OneSignal
    | AllAdd
    | AllLock
    | AllRead
    | AllTake(live: nat)
    | AllSignal

  /** What became of every `notify_one`, and why every wait ended. */
  datatype Tally = Tally(
    calls: nat, redelivered: nat, stored: nat, saturated: nat, popped: nat, consumed: nat, woken: nat)

  /** `auxes` holds the generation written into each node before its push. */
  datatype State = State(
    bits: Bits, lock: Word, nodes: Nodes<Kind>, auxes: seq<nat>, pcs: seq<Pc>, tally: Tally)

  datatype Op = Wait(future: bool) | NotifyOne | NotifyWaiters

  /** `Spurious` is a weak compare-exchange failing for no reason; `Abandon` drops the future. */
  datatype Choice = Go | Begin(op: Op) | Spurious | Abandon

  predicate Aligned(s: State) {
    |s.auxes| == |s.pcs| && |s.nodes.places| == |s.pcs| && |s.nodes.hands| == |s.pcs|
  }

  function Goto(s: State, i: nat, pc: Pc): (r: State)
    requires Aligned(s) && i < |s.pcs|
    ensures Aligned(r) && |r.pcs| == |s.pcs|
  {
    s.(pcs := s.pcs[i := pc])
  }

  // ----- waiting -----

  /** One look at the state word: the generation moved on, there is no permit, or try to take it. */
  function TryOn(s: State, i: nat, g: nat, future: bool, last: bool, seen: Bits): (r: State)
    requires Aligned(s) && i < |s.pcs|
    ensures Aligned(r) && |r.pcs| == |s.pcs|
  {
    if seen.gen != g then Goto(s, i, Idle)
    else if seen.permit then Goto(s, i, TryCas(g, future, last, seen))
    else Goto(s, i, if last then EnqLock(g, future) else TryLoad(g, future, true))
  }

  /** Takes the permit and goes on as `won`. */
  function TakePermit(s: State, i: nat, won: Pc): (r: State)
    requires Aligned(s) && i < |s.pcs|
    ensures Aligned(r) && |r.pcs| == |s.pcs|
  {
    Goto(s, i, won).(bits := s.bits.(permit := false), tally := s.tally.(consumed := s.tally.consumed + 1))
  }

  function TryCasStep(s: State, i: nat, pc: Pc, c: Choice): (r: State)
    requires Aligned(s) && i < |s.pcs| && pc.TryCas?
    ensures Aligned(r) && |r.pcs| == |s.pcs|
  {
    if s.bits == pc.seen && !c.Spurious? then TakePermit(s, i, Idle)
    else TryOn(s, i, pc.g, pc.future, pc.last, s.bits)
  }

  /** The same look, under the lock and with HAS_QUEUE set. */
  function EnqOn(s: State, i: nat, g: nat, future: bool, seen: Bits): (r: State)
    requires Aligned(s) && i < |s.pcs|
    ensures Aligned(r) && |r.pcs| == |s.pcs|
  {
    if seen.gen != g then Goto(s, i, Unlock(Leave))
    else if seen.permit then Goto(s, i, EnqCas(g, future, seen))
    else Goto(s, i, EnqPush(g, future))
  }

  function EnqFlagStep(s: State, i: nat, g: nat, future: bool): (r: State)
    requires Aligned(s) && i < |s.pcs|
    ensures Aligned(r) && |r.pcs| == |s.pcs|
  {
    var flagged := s.bits.(hasQueue := true);
    EnqOn(s, i, g, future, flagged).(bits := flagged)
  }

  function EnqCasStep(s: State, i: nat, pc: Pc, c: Choice): (r: State)
    requires Aligned(s) && i < |s.pcs| && pc.EnqCas?
    ensures Aligned(r) && |r.pcs| == |s.pcs|
  {
    if s.bits == pc.seen && !c.Spurious? then TakePermit(s, i, Unlock(Leave))
    else EnqOn(s, i, pc.g, pc.future, s.bits)
  }

  function PushStep(s: State, i: nat, g: nat, future: bool): (r: State)
    requires Aligned(s) && i < |s.pcs|
    ensures Aligned(r) && |r.pcs| == |s.pcs|
  {
    Goto(s, i, Unlock(Park(future))).(auxes := s.auxes[i := g], nodes := Push(s.nodes, i))
  }

  /** Unlocking an empty queue clears HAS_QUEUE before the word goes back to NULL. */
  function UnlockStep(s: State, i: nat, next: Then): (r: State)
    requires Aligned(s) && i < |s.pcs|
    ensures Aligned(r) && |r.pcs| == |s.pcs|
  {
    if s.nodes.queue == [] then
      Goto(s, i, Release(next)).(bits := s.bits.(hasQueue := false))
    else
      Goto(s, i, Resumed(next)).(lock := Published)
  }

  function Resumed(next: Then): Pc {
    match next
    case Park(future) => Waiting(future)
    case SpinOn => DropSpin
    case WakeOne => OneSignal
    case WakeAll => AllSignal
    case Again => OneSlow
    case Leave => Idle
  }

  /** A dropped future that had consumed a `notify_one` delivers it again. */
  function Redeliver(s: State, i: nat): (r: State)
    requires Aligned(s) && i < |s.pcs|
    ensures Aligned(r) && |r.pcs| == |s.pcs|
  {
    Goto(s, i, OneLoad).(nodes := Consume(s.nodes, i), tally := s.tally.(redelivered := s.tally.redelivered + 1))
  }

  function Awaken(s: State, i: nat, kind: Kind): (r: State)
    requires Aligned(s) && i < |s.pcs|
    ensures Aligned(r) && |r.pcs| == |s.pcs|
  {
    Goto(s, i, Idle).(nodes := Consume(s.nodes, i),
                      tally := if kind == One then s.tally.(woken := s.tally.woken + 1) else s.tally)
  }

  function Forsake(s: State, i: nat, kind: Kind): (r: State)
    requires Aligned(s) && i < |s.pcs|
    ensures Aligned(r) && |r.pcs| == |s.pcs|
  {
    if kind == One then Redeliver(s, i) else Goto(s, i, Idle).(nodes := Consume(s.nodes, i))
  }

  function WaitStep(s: State, i: nat, future: bool, c: Choice): (r: State)
    requires Aligned(s) && i < |s.pcs|
    ensures Aligned(r) && |r.pcs| == |s.pcs|
  {
    var place := s.nodes.places[i];
    var dropped := c.Abandon? && future;
    if place.Signaled? then
      if dropped then Forsake(s, i, place.value) else Awaken(s, i, place.value)
    else if dropped then Goto(s, i, DropLock)
    else s
  }

  function DropRemoveStep(s: State, i: nat): (r: State)
    requires Aligned(s) && i < |s.pcs|
    ensures Aligned(r) && |r.pcs| == |s.pcs|
  {
    if i in s.nodes.queue then Goto(s, i, Unlock(Leave)).(nodes := Remove(s.nodes, i))
    else Goto(s, i, Unlock(SpinOn))
  }

  function DropSpinStep(s: State, i: nat): (r: State)
    requires Aligned(s) && i < |s.pcs|
    ensures Aligned(r) && |r.pcs| == |s.pcs|
  {
    var place := s.nodes.places[i];
    if place.Signaled? then Forsake(s, i, place.value) else s
  }

  /** `WaitQueue::lock(false)`. */
  function LockExisting(s: State, i: nat, locked: Pc, absent: Pc): (r: State)
    requires Aligned(s) && i < |s.pcs|
    ensures Aligned(r) && |r.pcs| == |s.pcs|
  {
    match s.lock
    case Held(_) => s
    case Null => Goto(s, i, absent)
    case Published => Goto(s, i, locked).(lock := Held(i))
  }

  // ----- notify_one -----

  function Saturate(s: State, i: nat): (r: State)
    requires Aligned(s) && i < |s.pcs|
    ensures Aligned(r) && |r.pcs| == |s.pcs|
  {
    Goto(s, i, Idle).(tally := s.tally.(saturated := s.tally.saturated + 1))
  }

  function Store(s: State, i: nat): (r: State)
    requires Aligned(s) && i < |s.pcs|
    ensures Aligned(r) && |r.pcs| == |s.pcs|
  {
    Goto(s, i, Idle).(bits := s.bits.(permit := true), tally := s.tally.(stored := s.tally.stored + 1))
  }

  function OneLoadStep(s: State, i: nat): (r: State)
    requires Aligned(s) && i < |s.pcs|
    ensures Aligned(r) && |r.pcs| == |s.pcs|
  {
    if s.bits.hasQueue then Goto(s, i, OneSlow)
    else if s.bits.permit then Saturate(s, i)
    else Goto(s, i, OneCas(s.bits))
  }

  function OneOn(s: State, i: nat): (r: State)
    requires Aligned(s) && i < |s.pcs|
    ensures Aligned(r) && |r.pcs| == |s.pcs|
  {
    if s.bits.hasQueue then Goto(s, i, OneLock)
    else if s.bits.permit then Saturate(s, i)
    else Goto(s, i, OneSlowCas(s.bits))
  }

  function OnePopStep(s: State, i: nat): (r: State)
    requires Aligned(s) && i < |s.pcs|
    ensures Aligned(r) && |r.pcs| == |s.pcs|
  {
    if s.nodes.queue == [] then Goto(s, i, Unlock(Again))
    else
      Goto(s, i, Unlock(WakeOne)).(nodes := Pop(s.nodes, i, 1, One),
                                   tally := s.tally.(popped := s.tally.popped + 1))
  }

  function SignalStep(s: State, i: nat): (r: State)
    requires Aligned(s) && i < |s.pcs|
    ensures Aligned(r) && |r.pcs| == |s.pcs|
  {
    if s.nodes.hands[i].chain == [] then Goto(s, i, Idle)
    else s.(nodes := Signal(s.nodes, i))
  }

  // ----- notify_waiters -----

  function AllAddStep(s: State, i: nat): (r: State)
    requires Aligned(s) && i < |s.pcs|
    ensures Aligned(r) && |r.pcs| == |s.pcs|
  {
    Goto(s, i, if s.bits.hasQueue then AllLock else Idle).(bits := s.bits.(gen := s.bits.gen + 1))
  }

  function AllTakeStep(s: State, i: nat, live: nat): (r: State)
    requires Aligned(s) && i < |s.pcs|
    ensures Aligned(r) && |r.pcs| == |s.pcs|
  {
    Goto(s, i, Unlock(WakeAll)).(nodes := Pop(s.nodes, i, Until(Tags(s.nodes.queue, s.auxes), live), All))
  }

  // ----- the protocol -----

  function BeginStep(s: State, i: nat, op: Op): (r: State)
    requires Aligned(s) && i < |s.pcs|
    ensures Aligned(r) && |r.pcs| == |s.pcs|
  {
    match op
    case Wait(future) => Goto(s, i, TryLoad(s.bits.gen, future, !future))
    case NotifyOne => Goto(s, i, OneLoad).(tally := s.tally.(calls := s.tally.calls + 1))
    case NotifyWaiters => Goto(s, i, AllAdd)
  }

  /** One atomic step of agent `i`; an agent that must spin keeps the state as it is. */
  function Step(s: State, i: nat, c: Choice): (r: State)
    requires Aligned(s)
    ensures Aligned(r) && |r.pcs| == |s.pcs|
  {
    if i >= |s.pcs| then s else
    var pc := s.pcs[i];
    match pc
    case Idle => if c.Begin? then BeginStep(s, i, c.op) else s
    case TryLoad(g, future, last) =>
      if c.Abandon? && future then Goto(s, i, Idle) else TryOn(s, i, g, future, last, s.bits)
    case TryCas(_, _, _, _) => TryCasStep(s, i, pc, c)
    case EnqLock(g, future) => if s.lock.Held? then s else Goto(s, i, EnqFlag(g, future)).(lock := Held(i))
    case EnqFlag(g, future) => EnqFlagStep(s, i, g, future)
    case EnqCas(_, _, _) => EnqCasStep(s, i, pc, c)
    case EnqPush(g, future) => PushStep(s, i, g, future)
    case Unlock(next) => UnlockStep(s, i, next)
    case Release(next) => Goto(s, i, Resumed(next)).(lock := Null)
    case Waiting(future) => WaitStep(s, i, future, c)
    case DropLock => LockExisting(s, i, DropRemove, DropSpin)
    case DropRemove => DropRemoveStep(s, i)
    case DropSpin => DropSpinStep(s, i)
    case OneLoad => OneLoadStep(s, i)
    case OneCas(seen) => if s.bits == seen then Store(s, i) else Goto(s, i, OneSlow)
    case OneSlow => OneOn(s, i)
    case OneSlowCas(seen) => if s.bits == seen && !c.Spurious? then Store(s, i) else OneOn(s, i)
    case OneLock => LockExisting(s, i, OnePop, OneSlow)
    case OnePop => OnePopStep(s, i)
    case OneSignal => SignalStep(s, i)
    case AllAdd => AllAddStep(s, i)
    case AllLock => LockExisting(s, i, AllRead, Idle)
    case AllRead => Goto(s, i, AllTake(s.bits.gen))
    case AllTake(live) => AllTakeStep(s, i, live)
    case AllSignal => SignalStep(s, i)
  }

  predicate Init(s: State) {
    && Aligned(s)
    && s.bits == Bits(0, false, false) && s.lock == Null && s.nodes.queue == []
    && s.tally == Tally(0, 0, 0, 0, 0, 0, 0)
    && forall i | 0 <= i < |s.pcs| :: s.pcs[i] == Idle && s.nodes.places[i] == Out && s.nodes.hands[i].chain == []
  }

  function Run(s: State, schedule: seq<(nat, Choice)>): (r: State)
    requires Aligned(s)
    ensures Aligned(r) && |r.pcs| == |s.pcs|
  {
    if schedule == [] then s
    else
      var last := schedule[|schedule| - 1];
      Step(Run(s, schedule[..|schedule| - 1]), last.0, last.1)
  }
}

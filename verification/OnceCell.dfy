/**
  The once-cell as a step protocol: callers race for the initializer role, the losers park, and a
  failed or cancelled initializer hands the role on by waking one waiter with a retry signal.
 */
module OnceCell {
  import opened WaitWord
  import opened WaitList

  /** EMPTY, RUNNING and READY. */
  datatype Phase = Empty | Running | Ready

  datatype Slot = Vacant | Holds(value: int)

  datatype Agency = Nobody | Someone(id: nat)

  /** `Signaled` is SIGNAL_SIGNALED, sent by `complete`; `Retry` is SIGNAL_RETRY. */
  datatype Place = Out | Queued | Popped(taker: nat) | Signaled | Retry

  /** `clean`: the node's `next` link is known to be `None`. A popped node keeps a stale link. */
  datatype Node = Node(place: Place, clean: bool)

  const FreshNode := Node(Out, true)

  /** What an agent does after it has released the tag-lock. */
  datatype Then =
    | Reload(future: bool)
    | Park(future: bool)
    | SpinOn
    | WakeAll(woken: seq<nat>, getter: bool)
    | WakeOne(heir: nat)
    | Leave

  /** `getter` tells a `get_or_init` caller, which returns the value, from a `set` caller. */
  datatype Pc =
    | Idle
    | Get
    | SetCas(value: int)
    | Load(future: bool)
    | BeginCas(future: bool)
    | Initializing(future: bool)
    | Write(value: int, getter: bool)
    | Complete(getter: bool)
    | CompleteLock(getter: bool)
    | CompleteTake(getter: bool)
    | Signaling(chain: seq<nat>, getter: bool)
    | Return
    | Abort
    | RetryLock
    | RetryPop
    | RetrySignal(heir: nat)
    | EnqLock(future: bool)
    | EnqCheck(future: bool)
    | EnqPush(future: bool)
    | Unlock(next: Then)
    | Waiting(future: bool)
    | CancelLock
    | CancelRemove
    | CancelSpin

  datatype Agent = Agent(pc: Pc, node: Node)

  /** `runner`, `writes` and `returned` record who has the role, how often the slot was written, and results. */
  datatype State = State(
    phase: Phase, slot: Slot, word: Word, queue: seq<nat>, agents: seq<Agent>,
    runner: Agency, writes: nat, returned: seq<int>)

  datatype Op = GetOrInit(future: bool) | Set(value: int) | GetOnly

  /** The scheduler's choice; `Yield` and `Fail` are the outcomes of the user's closure or future. */
  datatype Choice = Go | Begin(op: Op) | Yield(value: int) | Fail | Abandon

  function Goto(s: State, i: nat, pc: Pc): State
    requires i < |s.agents|
  {
    s.(agents := s.agents[i := s.agents[i].(pc := pc)])
  }

  /** The wait is over; the node keeps whatever link it has. */
  function Depart(s: State, i: nat, pc: Pc): State
    requires i < |s.agents|
  {
    s.(agents := s.agents[i := Agent(pc, s.agents[i].node.(place := Out))])
  }

  /** A new node, or `Signal::reset` on the old one. */
  function Renew(s: State, i: nat, pc: Pc): State
    requires i < |s.agents|
  {
    s.(agents := s.agents[i := Agent(pc, FreshNode)])
  }

  function BeginStep(s: State, i: nat, won: Pc, lost: Pc): State
    requires i < |s.agents|
  {
    if s.phase == Empty then
      Goto(s, i, won).(phase := Running, runner := Someone(i))
    else
      Goto(s, i, lost)
  }

  function LoadStep(s: State, i: nat, future: bool): State
    requires i < |s.agents|
  {
    match s.phase
    case Ready => Goto(s, i, Return)
    case Empty => Goto(s, i, BeginCas(future))
    // a blocking caller makes its node here; a future has had one from the start
    case Running => if future then Goto(s, i, EnqLock(true)) else Renew(s, i, EnqLock(false))
  }

  function InitStep(s: State, i: nat, future: bool, c: Choice): State
    requires i < |s.agents|
  {
    match c
    case Yield(v) => Goto(s, i, Write(v, true))
    case Fail => Goto(s, i, Abort)
    case Abandon => if future then Goto(s, i, Abort) else s
    case _ => s
  }

  /** `WaitQueue::lock(false)`. */
  function LockExisting(s: State, i: nat, locked: Pc, absent: Pc): State
    requires i < |s.agents|
  {
    match s.word
    case Held(_) => s
    case Null => Goto(s, i, absent)
    case Published => Goto(s, i, locked).(word := Held(i))
  }

  function Finished(getter: bool): Pc { if getter then Return else Idle }

  function Resumed(next: Then): Pc {
    match next
    case Reload(future) => Load(future)
    case Park(future) => Waiting(future)
    case SpinOn => CancelSpin
    case WakeAll(woken, getter) => Signaling(woken, getter)
    case WakeOne(heir) => RetrySignal(heir)
    case Leave => Idle
  }

  function UnlockStep(s: State, i: nat, next: Then): State
    requires i < |s.agents|
  {
    Goto(s, i, Resumed(next)).(word := if s.queue == [] then Null else Published)
  }

  function TakeAll(agents: seq<Agent>, taker: nat): (r: seq<Agent>)
    ensures |r| == |agents|
  {
    seq(|agents|, x requires 0 <= x < |agents| =>
      var a := agents[x];
      if a.node.place.Queued? then a.(node := a.node.(place := Popped(taker))) else a)
  }

  function CompleteTakeStep(s: State, i: nat, getter: bool): State
    requires i < |s.agents|
  {
    Goto(s.(agents := TakeAll(s.agents, i)), i, Unlock(WakeAll(s.queue, getter))).(queue := [])
  }

  function SetPlace(s: State, x: nat, place: Place): State
    requires x < |s.agents|
  {
    s.(agents := s.agents[x := s.agents[x].(node := s.agents[x].node.(place := place))])
  }

  function SignalStep(s: State, i: nat, chain: seq<nat>, getter: bool): State
    requires i < |s.agents|
  {
    if chain == [] then
      Goto(s, i, Finished(getter))
    else if chain[0] < |s.agents| then
      Goto(SetPlace(s, chain[0], Signaled), i, Signaling(chain[1..], getter))
    else s
  }

  function RetryPopStep(s: State, i: nat): State
    requires i < |s.agents|
  {
    if s.queue != [] && s.queue[0] < |s.agents| then
      Goto(SetPlace(s, s.queue[0], Popped(i)), i, Unlock(WakeOne(s.queue[0]))).(queue := s.queue[1..])
    else
      Goto(s, i, Unlock(Leave))
  }

  function RetrySignalStep(s: State, i: nat, heir: nat): State
    requires i < |s.agents|
  {
    if heir < |s.agents| then Goto(SetPlace(s, heir, Retry), i, Idle) else s
  }

  function WaitStep(s: State, i: nat, future: bool, c: Choice): State
    requires i < |s.agents|
  {
    var dropped := c.Abandon? && future;
    match s.agents[i].node.place
    case Signaled => Depart(s, i, if dropped then Idle else if future then Return else Load(false))
    case Retry =>
      if dropped then Depart(s, i, RetryLock)
      else if future then Renew(s, i, Load(true))
      else Depart(s, i, Load(false))
    case _ => if dropped then Goto(s, i, CancelLock) else s
  }

  function CancelStep(s: State, i: nat): State
    requires i < |s.agents|
  {
    if i in s.queue then
      Depart(s, i, Unlock(Leave)).(queue := Without(s.queue, i))
    else
      Goto(s, i, Unlock(SpinOn))
  }

  function CancelSpinStep(s: State, i: nat): State
    requires i < |s.agents|
  {
    match s.agents[i].node.place
    case Signaled => Depart(s, i, Idle)
    case Retry => Depart(s, i, RetryLock)
    case _ => s
  }

  /** Reads the value and returns it. */
  function ReturnStep(s: State, i: nat): State
    requires i < |s.agents|
  {
    Goto(s, i, Idle).(returned := if s.slot.Holds? then s.returned + [s.slot.value] else s.returned)
  }

  /** One atomic step of agent `i`; an agent that must spin keeps the state as it is. */
  function Step(s: State, i: nat, c: Choice): State {
    if i >= |s.agents| then s else
    match s.agents[i].pc
    case Idle =>
      if !c.Begin? then s
      else (match c.op
            case GetOrInit(future) => if future then Renew(s, i, Load(true)) else Goto(s, i, Load(false))
            case Set(v) => Goto(s, i, SetCas(v))
            case GetOnly => Goto(s, i, Get))
    case Get => Goto(s, i, if s.phase == Ready then Return else Idle)
    case SetCas(v) => BeginStep(s, i, Write(v, false), Idle)
    case Load(future) => LoadStep(s, i, future)
    case BeginCas(future) => BeginStep(s, i, Initializing(future), Load(future))
    case Initializing(future) => InitStep(s, i, future, c)
    case Write(v, getter) => Goto(s, i, Complete(getter)).(slot := Holds(v), writes := s.writes + 1)
    case Complete(getter) => Goto(s, i, CompleteLock(getter)).(phase := Ready, runner := Nobody)
    case CompleteLock(getter) => LockExisting(s, i, CompleteTake(getter), Finished(getter))
    case CompleteTake(getter) => CompleteTakeStep(s, i, getter)
    case Signaling(chain, getter) => SignalStep(s, i, chain, getter)
    case Return => ReturnStep(s, i)
    case Abort => Goto(s, i, RetryLock).(phase := Empty, runner := Nobody)
    case RetryLock => LockExisting(s, i, RetryPop, Idle)
    case RetryPop => RetryPopStep(s, i)
    case RetrySignal(heir) => RetrySignalStep(s, i, heir)
    case EnqLock(future) => if s.word.Held? then s else Goto(s, i, EnqCheck(future)).(word := Held(i))
    case EnqCheck(future) => Goto(s, i, if s.phase == Running then EnqPush(future) else Unlock(Reload(future)))
    case EnqPush(future) =>
      s.(agents := s.agents[i := Agent(Unlock(Park(future)), Node(Queued, false))], queue := s.queue + [i])
    case Unlock(next) => UnlockStep(s, i, next)
    case Waiting(future) => WaitStep(s, i, future, c)
    case CancelLock => LockExisting(s, i, CancelRemove, CancelSpin)
    case CancelRemove => CancelStep(s, i)
    case CancelSpin => CancelSpinStep(s, i)
  }

  /** A new cell, empty or created with a value. */
  predicate Init(s: State) {
    && ((s.phase == Empty && s.slot == Vacant && s.writes == 0) || (s.phase == Ready && s.slot.Holds? && s.writes == 1))
    && s.word == Null && s.queue == [] && s.runner == Nobody && s.returned == []
    && forall i | 0 <= i < |s.agents| :: s.agents[i] == Agent(Idle, FreshNode)
  }

  function Run(s: State, schedule: seq<(nat, Choice)>): State {
    if schedule == [] then s
    else
      var last := schedule[|schedule| - 1];
      Step(Run(s, schedule[..|schedule| - 1]), last.0, last.1)
  }
}

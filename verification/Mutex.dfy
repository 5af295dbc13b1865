/**
  The mutex as a step protocol: the queue word doubles as the lock state, ownership is handed from the
  releasing guard to the first queued request, and queued futures may be dropped at any poll boundary.
 */
module Mutex {
  import opened WaitList

  /** UNLOCKED, LOCKED, UPDATING, a queue pointer, or a tagged queue pointer. */
  datatype Word = Unlocked | Locked | Updating | Queue(addr: nat) | Tagged(addr: nat)

  datatype Agency = Nobody | Someone(id: nat)

  /** Where a request's node is; `Handed` is popped and about to be signaled by `giver`. */
  datatype Place = Out | Queued | Handed(giver: nat) | Signaled

  datatype Pc =
    | Idle
    | TryCas
    | LockCas(future: bool)
    | Seen(future: bool, ptr: Word)
    | Alloc(future: bool)
    | Push(future: bool, addr: nat)
    | Publish(future: bool, addr: nat)
    | Waiting(future: bool)
    | RemoveLoad
    | RemoveTag(addr: nat)
    | Remove(addr: nat)
    | Untag(addr: nat, found: bool)
    | Spin
    | Holding
    | Dropping
    | DropSeen(ptr: Word)
    | DropPop(addr: nat)
    | DropUntag(addr: nat, heir: nat)
    | Hand(heir: nat)
    | DropFree(addr: nat)
    | Dealloc(addr: nat)

  datatype Agent = Agent(pc: Pc, place: Place)

  /** `owner` and `tagger` only record who owns the lock and who has exclusive access to the queue. */
  datatype State = State(word: Word, queue: seq<nat>, agents: seq<Agent>, owner: Agency, tagger: Agency)

  /** The scheduler's choice: the call an idle agent makes, the block the pool returns, a drop. */
  datatype Choice = Go | BeginTry | BeginLock(future: bool) | Address(addr: nat) | Drop

  function Goto(s: State, i: nat, pc: Pc): State
    requires i < |s.agents|
  {
    s.(agents := s.agents[i := s.agents[i].(pc := pc)])
  }

  function Take(s: State, i: nat, word: Word, pc: Pc): State
    requires i < |s.agents|
  {
    Goto(s, i, pc).(word := word, tagger := Someone(i))
  }

  /** The shared shape of `try_lock`, `lock_slow` and the first poll: one compare-exchange. */
  function LockCasStep(s: State, i: nat, failed: Pc): State
    requires i < |s.agents|
  {
    if s.word == Unlocked then
      Goto(s, i, Holding).(word := Locked, owner := Someone(i))
    else
      Goto(s, i, failed)
  }

  /** `lock_slow` and `enqueue` after the compare-exchange failed with `ptr`. */
  function SeenStep(s: State, i: nat, future: bool, ptr: Word): State
    requires i < |s.agents|
  {
    match ptr
    case Locked =>
      if s.word == Locked then Take(s, i, Updating, Alloc(future)) else Goto(s, i, LockCas(future))
    case Queue(a) =>
      if s.word == Queue(a) then Take(s, i, Tagged(a), Push(future, a)) else Goto(s, i, LockCas(future))
    case _ => Goto(s, i, LockCas(future))
  }

  function WaitStep(s: State, i: nat, future: bool, c: Choice): State
    requires i < |s.agents|
  {
    var dropped := c.Drop? && future;
    if s.agents[i].place.Signaled? then
      s.(agents := s.agents[i := Agent(if dropped then Dropping else Holding, Out)])
    else if dropped then
      Goto(s, i, RemoveLoad)
    else s
  }

  /** `remove_from_queue`: find a stable queue pointer to tag, or learn that there is no queue. */
  function RemoveLoadStep(s: State, i: nat): State
    requires i < |s.agents|
  {
    match s.word
    case Unlocked => Goto(s, i, Spin)
    case Locked => Goto(s, i, Spin)
    case Queue(a) => Goto(s, i, RemoveTag(a))
    case _ => s
  }

  function RemoveStep(s: State, i: nat, a: nat): State
    requires i < |s.agents|
  {
    if i in s.queue then
      s.(agents := s.agents[i := Agent(Untag(a, true), Out)], queue := Without(s.queue, i))
    else
      Goto(s, i, Untag(a, false))
  }

  /** `MutexGuard::drop_slow`: re-read until the queue pointer is stable, then tag it. */
  function DropSeenStep(s: State, i: nat, ptr: Word): State
    requires i < |s.agents|
  {
    if ptr.Queue? && s.word == ptr then
      Take(s, i, Tagged(ptr.addr), DropPop(ptr.addr))
    else
      Goto(s, i, DropSeen(s.word))
  }

  function DropPopStep(s: State, i: nat, a: nat): State
    requires i < |s.agents|
  {
    if s.queue == [] then
      Goto(s, i, DropFree(a))
    else if s.queue[0] < |s.agents| then
      var heir := s.queue[0];
      var popped := s.agents[heir := s.agents[heir].(place := Handed(i))];
      Goto(s.(agents := popped), i, DropUntag(a, heir)).(queue := s.queue[1..], owner := Someone(heir))
    else s
  }

  function HandStep(s: State, i: nat, heir: nat): State
    requires i < |s.agents|
  {
    if heir < |s.agents| then
      Goto(s.(agents := s.agents[heir := s.agents[heir].(place := Signaled)]), i, Idle)
    else s
  }

  /** One atomic step of agent `i`; an agent that must spin keeps the state as it is. */
  function Step(s: State, i: nat, c: Choice): State {
    if i >= |s.agents| then s else
    match s.agents[i].pc
    case Idle =>
      (match c
       case BeginTry => Goto(s, i, TryCas)
       case BeginLock(future) => Goto(s, i, LockCas(future))
       case _ => s)
    case TryCas => LockCasStep(s, i, Idle)
    case LockCas(future) => LockCasStep(s, i, Seen(future, s.word))
    case Seen(future, ptr) => SeenStep(s, i, future, ptr)
    case Alloc(future) => if c.Address? then Goto(s, i, Push(future, c.addr)) else s
    case Push(future, a) =>
      s.(agents := s.agents[i := Agent(Publish(future, a), Queued)], queue := s.queue + [i])
    case Publish(future, a) => Goto(s, i, Waiting(future)).(word := Queue(a), tagger := Nobody)
    case Waiting(future) => WaitStep(s, i, future, c)
    case RemoveLoad => RemoveLoadStep(s, i)
    case RemoveTag(a) => if s.word == Queue(a) then Take(s, i, Tagged(a), Remove(a)) else Goto(s, i, RemoveLoad)
    case Remove(a) => RemoveStep(s, i, a)
    case Untag(a, found) => Goto(s, i, if found then Idle else Spin).(word := Queue(a), tagger := Nobody)
    case Spin => if s.agents[i].place.Signaled? then s.(agents := s.agents[i := Agent(Dropping, Out)]) else s
    case Holding => if c.Drop? then Goto(s, i, Dropping) else s
    case Dropping =>
      if s.word == Locked then Goto(s, i, Idle).(word := Unlocked, owner := Nobody)
      else Goto(s, i, DropSeen(s.word))
    case DropSeen(ptr) => DropSeenStep(s, i, ptr)
    case DropPop(a) => DropPopStep(s, i, a)
    case DropUntag(a, heir) => Goto(s, i, Hand(heir)).(word := Queue(a), tagger := Nobody)
    case Hand(heir) => HandStep(s, i, heir)
    case DropFree(a) => Goto(s, i, Dealloc(a)).(word := Unlocked, owner := Nobody, tagger := Nobody)
    case Dealloc(_) => Goto(s, i, Idle)
  }

  predicate Init(s: State) {
    && s.word == Unlocked && s.queue == [] && s.owner == Nobody && s.tagger == Nobody
    && forall i | 0 <= i < |s.agents| :: s.agents[i] == Agent(Idle, Out)
  }

  function Run(s: State, schedule: seq<(nat, Choice)>): State {
    if schedule == [] then s
    else
      var last := schedule[|schedule| - 1];
      Step(Run(s, schedule[..|schedule| - 1]), last.0, last.1)
  }
}

/** The inductive invariant of the semaphore protocol, group by group. */
module SemaphoreInvariant {
  import opened Ledger
  import opened WaitWord
  import opened WaitList
  import opened TicketOrder
  import opened Semaphore

  // ----- what a program counter stands for -----

  /** The agent has exclusive access to the queue contents. */
  predicate Holds(pc: Pc) {
    pc.EnqFlag? || pc.EnqLoop? || pc.Unlock? || pc.UnlockNull? || pc.CancelRemove? ||
    pc.DrainLoad? || pc.DrainTake? || pc.Distribute? || pc.PutBack? || pc.CloseTake?
  }

  /** The agent's node is in use. */
  predicate Parked(pc: Pc) {
    pc.Waiting? || pc.CancelLock? || pc.CancelRemove? || pc.CancelSpin? ||
    ((pc.Unlock? || pc.UnlockNull?) && (pc.next.Park? || pc.next.SpinFor?))
  }

  function ParkedFor(pc: Pc): nat
    requires Parked(pc)
  {
    if pc.Unlock? || pc.UnlockNull? then pc.next.req.n else pc.req.n
  }

  predicate ParkedFuture(pc: Pc) {
    Parked(pc) && if pc.Unlock? || pc.UnlockNull? then pc.next.req.future else pc.req.future
  }

  /** The agent looked for its node in the queue and did not find it. */
  predicate Spinning(pc: Pc) {
    pc.CancelSpin? || ((pc.Unlock? || pc.UnlockNull?) && pc.next.SpinFor?)
  }

  /** The nodes the agent has popped and not signaled yet. */
  function Chain(pc: Pc): seq<nat> {
    if pc.PutBack? || pc.Signaling? then pc.chain
    else if (pc.Unlock? || pc.UnlockNull?) && pc.next.Wake? then pc.next.woken
    else []
  }

  /** The agent's chain holds satisfied waiters. */
  predicate Grants(pc: Pc) {
    || pc.PutBack?
    || (pc.Signaling? && pc.signal == Granted)
    || ((pc.Unlock? || pc.UnlockNull?) && pc.next.Wake? && pc.next.signal == Granted)
  }

  predicate SignalOk(pc: Pc) {
    && (pc.Signaling? ==> pc.signal == Granted || pc.signal == Shut)
    && ((pc.Unlock? || pc.UnlockNull?) && pc.next.Wake? ==> pc.next.signal == Granted || pc.next.signal == Shut)
  }

  /** Permits in the agent's hands. */
  function InHand(pc: Pc): nat {
    match pc
    case Release(k) => k
    case Distribute(a) => a
    case PutBack(left, _) => left
    case Unlock(Got(req)) => req.n
    case UnlockNull(Got(req)) => req.n
    case Unlock(GiveBack(k)) => k
    case UnlockNull(GiveBack(k)) => k
    case _ => 0
  }

  function Weight(a: Agent): int {
    InHand(a.pc) + if a.node.place.Out? then 0 else a.node.n - a.node.need
  }

  function GuardWeight(g: Guard): int { g.permits }

  /** The agent will still drain the queue if there is one. */
  predicate OwesDrain(pc: Pc) {
    || pc.DrainLock? || pc.DrainLoad? || pc.DrainTake? || pc.Distribute?
    || (pc.Release? && pc.k > 0)
    || ((pc.Unlock? || pc.UnlockNull?) && (pc.next.Redrain? || (pc.next.GiveBack? && pc.next.k > 0)))
  }

  predicate OwesClose(pc: Pc) { pc.CloseLock? || pc.CloseTake? }

  // ----- how many permits there are -----

  /** All permits ever issued. */
  function Issued(s: State): nat { s.books.initial + s.books.added }

  /** The permits that exist: issued and not forgotten. */
  function Outstanding(s: State): int { s.books.initial + s.books.added - s.books.forgotten }

  // ----- the groups of the invariant -----

  /** The lock word names exactly the one agent that believes it holds the lock. */
  predicate LockInv(s: State) {
    && (forall i | 0 <= i < |s.agents| :: Holds(s.agents[i].pc) <==> s.word == Held(i))
    && (s.word.Held? ==> s.word.holder < |s.agents|)
  }

  /** HAS_QUEUE covers every queued waiter; an unlocked published queue is never empty. */
  predicate ShapeInv(s: State) {
    && (s.queue != [] ==> s.pool.hasQueue)
    && (s.word == Null ==> !s.pool.hasQueue && s.queue == [])
    && (s.word == Published ==> s.queue != [])
  }

  predicate AsksDrain(pc: Pc) { pc.DrainLock? }
  predicate AsksClose(pc: Pc) { pc.CloseLock? }

  predicate Asking(s: State) { exists j | 0 <= j < |s.agents| :: AsksDrain(s.agents[j].pc) }
  predicate Closing(s: State) { exists j | 0 <= j < |s.agents| :: AsksClose(s.agents[j].pc) }
  predicate DrainOwed(s: State) { exists j | 0 <= j < |s.agents| :: OwesDrain(s.agents[j].pc) }
  predicate CloseOwed(s: State) { exists j | 0 <= j < |s.agents| :: OwesClose(s.agents[j].pc) }

  /** What the lock holder may rely on at each point, however others change the pool meanwhile. */
  predicate HolderFacts(s: State, pc: Pc) {
    match pc
    case EnqFlag(_, empty) => empty == (s.queue == [])
    case EnqLoop(_, empty, cur) =>
      && empty == (s.queue == [])
      && s.pool.hasQueue
      && (!s.books.tripped && s.pool.permits > cur.permits ==> Asking(s))
      && (s.pool.closed && !cur.closed ==> Closing(s))
    case CancelRemove(_) => s.queue != []
    case DrainLoad => s.queue != []
    case CloseTake => s.queue != []
    case DrainTake(cur) => s.queue != [] && (!s.books.tripped && s.pool.permits > cur.permits ==> Asking(s))
    case Distribute(_) => s.queue != [] && (!s.books.tripped && s.pool.permits > 0 ==> Asking(s))
    case PutBack(left, _) => left > 0 ==> s.queue == []
    case UnlockNull(_) => s.queue == [] && !s.pool.hasQueue
    case _ => true
  }

  predicate HolderInv(s: State) {
    forall i | 0 <= i < |s.agents| :: HolderFacts(s, s.agents[i].pc)
  }

  /** The number of permits the head of the line still misses. */
  function HeadNeed(s: State): nat
    requires s.queue != []
  {
    if s.queue[0] < |s.agents| then s.agents[s.queue[0]].node.need else 0
  }

  /** A queued waiter is stranded only as long as some agent still owes the step that serves it. */
  predicate ServiceInv(s: State) {
    s.queue != [] ==>
      && (!s.books.tripped ==> s.pool.permits < HeadNeed(s) || DrainOwed(s))
      && (s.pool.closed ==> CloseOwed(s))
  }

  predicate NodeOk(a: Agent) {
    && (Parked(a.pc) <==> !a.node.place.Out?)
    && (Parked(a.pc) ==> a.node.n == ParkedFor(a.pc))
    && a.node.need <= a.node.n
    && (a.node.place.Granted? ==> a.node.need == 0)
    && (a.node.place.Armed? ==> a.node.need == a.node.n > MAX_PERMITS && ParkedFuture(a.pc))
    && (Spinning(a.pc) ==> !a.node.place.Queued?)
    && SignalOk(a.pc)
  }

  /** Every queue entry and every chain entry is the node of a waiting agent, and conversely. */
  predicate QueueInv(agents: seq<Agent>, queue: seq<nat>) {
    && Distinct(queue)
    && (forall k | 0 <= k < |queue| :: queue[k] < |agents| && agents[queue[k]].node.place == Queued)
    && (forall i | 0 <= i < |agents| && agents[i].node.place == Queued :: i in queue)
  }

  predicate ChainOk(agents: seq<Agent>, j: nat)
    requires j < |agents|
  {
    var chain := Chain(agents[j].pc);
    && Distinct(chain)
    && (forall k | 0 <= k < |chain| ::
          && chain[k] < |agents|
          && agents[chain[k]].node.place == Popped(j)
          && (Grants(agents[j].pc) ==> agents[chain[k]].node.need == 0))
  }

  predicate PoppedOk(agents: seq<Agent>, i: nat)
    requires i < |agents|
  {
    agents[i].node.place.Popped? ==>
      agents[i].node.place.taker < |agents| && i in Chain(agents[agents[i].node.place.taker].pc)
  }

  predicate ChainsInv(agents: seq<Agent>) {
    forall j | 0 <= j < |agents| :: ChainOk(agents, j) && PoppedOk(agents, j)
  }

  predicate NodeInv(s: State) {
    && (forall i | 0 <= i < |s.agents| :: NodeOk(s.agents[i]))
    && QueueInv(s.agents, s.queue)
    && ChainsInv(s.agents)
  }

  /** Every permit is in the pool, in a guard, with an agent, or assigned to a waiter, unless one did not fit. */
  predicate PermitInv(s: State) {
    !s.books.wrapped ==> s.pool.permits + Sum(s.guards, GuardWeight) + Sum(s.agents, Weight) == Outstanding(s)
  }

  /** Only the head of the line can hold a partial grant. */
  predicate PartialInv(agents: seq<Agent>, queue: seq<nat>) {
    forall k | 0 < k < |queue| :: queue[k] < |agents| && agents[queue[k]].node.need == agents[queue[k]].node.n
  }

  predicate LineInv(line: Line, waiting: seq<nat>) {
    TicketInv(line.granted, waiting, line.tickets, line.cancelled, line.shut)
  }

  predicate FifoInv(s: State) {
    && LineInv(s.line, Tickets(s.agents, s.queue))
    && PartialInv(s.agents, s.queue)
  }
}

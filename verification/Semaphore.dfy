/**
  `SemCore` as a step protocol: any number of agents (threads and futures), one step per atomic
  access. The queue of waiters changes only while the stepping agent holds the tag-lock.
 */
module Semaphore {
  import opened WaitWord
  import opened WaitList

  /** `usize::MAX >> 3` on a 64-bit target. */
  const MAX_PERMITS: nat := 0x1FFF_FFFF_FFFF_FFFF

  /** What a `usize` can hold, on a 64-bit target. */
  const WORD: nat := 0x1_0000_0000_0000_0000

  /** The permit field of the pool word has 62 bits; what does not fit is dropped by the shift. */
  const PERMIT_SPACE: nat := 0x4000_0000_0000_0000

  /** The decoded pool word `permits << 2 | HAS_QUEUE | CLOSED`. */
  datatype Pool = Pool(permits: nat, closed: bool, hasQueue: bool)

  /** What the caller makes of the permits; the core itself never looks at it. */
  datatype Kind = Plain | Read | Write
  datatype Guard = Guard(kind: Kind, permits: nat)

  /** An acquisition: blocking, or a future that may be dropped between polls. */
  datatype Req = Req(n: nat, kind: Kind, future: bool)

  /**
    Where a waiter's node is. A waiter polling `value` cannot tell `Queued` from `Popped`; both
    read as not yet signaled, and so does `Armed`: prepared for parking, but never pushed because
    `enqueue_or_acquire` panicked. `Granted` and `Shut` are SIGNAL_SIGNALED and SIGNAL_CLOSED.
   */
  datatype Place = Out | Queued | Popped(taker: nat) | Armed | Granted | Shut

  /** `need` is `Signal::aux`; `ticket` is the position in the order of all enqueues of the run. */
  datatype Node = Node(place: Place, n: nat, need: nat, ticket: nat)

  const NoNode := Node(Out, 0, 0, 0)

  /** Which of the calls of `try_acquire` is running: the public one, or the first or second of an acquisition. */
  datatype Stage = Only | First | Second

  /** What an agent does after it has released the tag-lock. */
  datatype Then =
    | Got(req: Req)
    | Park(req: Req)
    | SpinFor(req: Req)
    | GiveBack(k: nat)
    | Redrain
    | Wake(woken: seq<nat>, signal: Place)
    | Leave

  datatype Pc =
    | Idle
    | Load(req: Req, stage: Stage)
    | Try(req: Req, stage: Stage, cur: Pool)
    | EnqLock(req: Req)
    | EnqFlag(req: Req, empty: bool)
    | EnqLoop(req: Req, empty: bool, cur: Pool)
    | Unlock(next: Then)
    | UnlockNull(next: Then)
    | Waiting(req: Req)
    | CancelLock(req: Req)
    | CancelRemove(req: Req)
    | CancelSpin(req: Req)
    | Release(k: nat)
    | DrainLock
    | DrainLoad
    | DrainTake(cur: Pool)
    | Distribute(available: nat)
    | PutBack(left: nat, chain: seq<nat>)
    | Signaling(chain: seq<nat>, signal: Place)
    | CloseFlag
    | CloseLock
    | CloseTake
    | ForgetLoad(k: nat)
    | Forget(k: nat, cur: Pool)

  datatype Agent = Agent(pc: Pc, node: Node)

  /** The permits ever issued and forgotten; whether a release failed its assertion, and an addition did not fit. */
  datatype Books = Books(initial: nat, added: nat, forgotten: nat, tripped: bool, wrapped: bool)

  /** Tickets are numbered in the order of the pushes; what became of each, `granted` in grant order. */
  datatype Line = Line(tickets: nat, granted: seq<nat>, cancelled: set<nat>, shut: set<nat>)

  /** `books` and `line` only record what happens. */
  datatype State = State(
    pool: Pool,
    word: Word,
    queue: seq<nat>,
    agents: seq<Agent>,
    guards: seq<Guard>,
    books: Books,
    line: Line)

  datatype Op =
    | TryAcquire(req: Req)
    | Acquire(req: Req)
    | DropGuard(g: nat)
    | ForgetGuard(g: nat)
    | SplitGuard(g: nat, k: nat)
    | MergeGuards(g: nat, h: nat)
    | Downgrade(g: nat)
    | AddPermits(k: nat)
    | ForgetPermits(k: nat)
    | Close

  /** The scheduler's choice: which call an idle agent makes, a weak CAS failing, a future dropped. */
  datatype Choice = Go | Spurious | Begin(op: Op) | Abandon

  function Goto(s: State, i: nat, pc: Pc): State
    requires i < |s.agents|
  {
    s.(agents := s.agents[i := s.agents[i].(pc := pc)])
  }

  /** Leaves the wait: the node is gone with the call that owned it. */
  function Depart(s: State, i: nat, pc: Pc): State
    requires i < |s.agents|
  {
    s.(agents := s.agents[i := Agent(pc, NoNode)])
  }

  function WithGuard(s: State, g: Guard): State {
    s.(guards := s.guards + [g])
  }

  function Drop<T>(s: seq<T>, i: nat): seq<T>
    requires i < |s|
  {
    s[..i] + s[i + 1..]
  }

  function Start(s: State, i: nat, op: Op): State
    requires i < |s.agents|
  {
    match op
    case TryAcquire(req) => Goto(s, i, Load(req, Only))
    case Acquire(req) => Goto(s, i, Load(req, First))
    case DropGuard(g) =>
      if g < |s.guards| then
        Goto(s, i, Release(s.guards[g].permits)).(guards := Drop(s.guards, g))
      else s
    case ForgetGuard(g) =>
      if g < |s.guards| then
        s.(guards := Drop(s.guards, g), books := s.books.(forgotten := s.books.forgotten + s.guards[g].permits))
      else s
    case SplitGuard(g, k) =>
      if g < |s.guards| && k <= s.guards[g].permits then
        var held := s.guards[g];
        s.(guards := s.guards[g := held.(permits := held.permits - k)] + [held.(permits := k)])
      else s
    case MergeGuards(g, h) =>
      if g < |s.guards| && h < |s.guards| && g != h then
        var held := s.guards[g];
        s.(guards := Drop(s.guards[g := held.(permits := held.permits + s.guards[h].permits)], h))
      else s
    case Downgrade(g) =>
      if g < |s.guards| && s.guards[g].kind.Write? && s.guards[g].permits > 0 then
        Goto(s, i, Release(s.guards[g].permits - 1)).(guards := s.guards[g := Guard(Read, 1)])
      else s
    case AddPermits(k) => Goto(s, i, Release(k)).(books := s.books.(added := s.books.added + k))
    case ForgetPermits(k) => Goto(s, i, ForgetLoad(k))
    case Close => Goto(s, i, CloseFlag)
  }

  /**
    `enqueue_or_acquire` panics on a request for more than MAX_PERMITS before it locks anything. A blocking
    caller is gone with that; a future stays behind with its node prepared for parking.
   */
  function EnterQueue(s: State, i: nat, req: Req): State
    requires i < |s.agents|
  {
    if req.n <= MAX_PERMITS then Goto(s, i, EnqLock(req))
    else if req.future then s.(agents := s.agents[i := Agent(Waiting(req), Node(Armed, req.n, req.n, 0))])
    else Goto(s, i, Idle)
  }

  function TryStep(s: State, i: nat, req: Req, stage: Stage, cur: Pool, c: Choice): State
    requires i < |s.agents|
  {
    if cur.closed then
      Goto(s, i, if stage.First? then Load(req, Second) else Idle)
    else if cur.hasQueue || cur.permits < req.n then
      match stage
      case Only => Goto(s, i, Idle)
      case First => Goto(s, i, Load(req, Second))
      case Second => EnterQueue(s, i, req)
    else if c.Spurious? || s.pool != cur then
      Goto(s, i, Try(req, stage, s.pool))
    else
      WithGuard(Goto(s, i, Idle), Guard(req.kind, req.n)).(pool := cur.(permits := cur.permits - req.n))
  }

  function EnqueueStep(s: State, i: nat, req: Req, empty: bool, cur: Pool, c: Choice): State
    requires i < |s.agents|
  {
    if cur.closed then
      Goto(s, i, Unlock(Leave))
    else if empty && cur.permits >= req.n then
      if c.Spurious? || s.pool != cur then
        Goto(s, i, EnqLoop(req, empty, s.pool))
      else
        Goto(s, i, Unlock(Got(req))).(pool := cur.(permits := cur.permits - req.n))
    else
      s.(agents := s.agents[i := Agent(Unlock(Park(req)), Node(Queued, req.n, req.n, s.line.tickets))],
         queue := s.queue + [i], line := s.line.(tickets := s.line.tickets + 1))
  }

  /** The agent continues after the tag-lock word has been stored. */
  function Resume(s: State, i: nat, next: Then): State
    requires i < |s.agents|
  {
    match next
    case Got(req) => WithGuard(Goto(s, i, Idle), Guard(req.kind, req.n))
    case Park(req) => Goto(s, i, Waiting(req))
    case SpinFor(req) => Goto(s, i, CancelSpin(req))
    case GiveBack(k) => Goto(s, i, Release(k))
    case Redrain => Goto(s, i, DrainLock)
    case Wake(woken, signal) => Goto(s, i, Signaling(woken, signal))
    case Leave => Goto(s, i, Idle)
  }

  /** `LockedQueue::unlock`: an emptied queue has its flag cleared first, and is unpublished after that. */
  function UnlockStep(s: State, i: nat, next: Then): State
    requires i < |s.agents|
  {
    if s.queue == [] then
      Goto(s, i, UnlockNull(next)).(pool := s.pool.(hasQueue := false))
    else
      Resume(s.(word := Published), i, next)
  }

  /** `WaitQueue::lock(false)`. */
  function LockExisting(s: State, i: nat, locked: Pc, absent: Pc): State
    requires i < |s.agents|
  {
    match s.word
    case Held(_) => s
    case Null => Goto(s, i, absent)
    case Published => Goto(s, i, locked).(word := Held(i))
  }

  function WaitStep(s: State, i: nat, req: Req, c: Choice): State
    requires i < |s.agents|
  {
    var node := s.agents[i].node;
    var dropped := c.Abandon? && req.future;
    match node.place
    case Granted =>
      if dropped then Depart(s, i, Release(req.n))
      else WithGuard(Depart(s, i, Idle), Guard(req.kind, req.n))
    case Shut => Depart(s, i, Release(if node.need <= req.n then req.n - node.need else 0))
    case _ => if dropped then Goto(s, i, CancelLock(req)) else s
  }

  function CancelStep(s: State, i: nat, req: Req): State
    requires i < |s.agents|
  {
    if i in s.queue then
      var node := s.agents[i].node;
      var rest := Without(s.queue, i);
      var got := if node.need <= req.n then req.n - node.need else 0;
      var next := if got > 0 then GiveBack(got)
                  else if s.queue[0] == i && rest != [] then Redrain
                  else Leave;
      Depart(s, i, Unlock(next)).(queue := rest, line := s.line.(cancelled := s.line.cancelled + {node.ticket}))
    else
      Goto(s, i, Unlock(SpinFor(req)))
  }

  function CancelSpinStep(s: State, i: nat, req: Req): State
    requires i < |s.agents|
  {
    var node := s.agents[i].node;
    match node.place
    case Granted => Depart(s, i, Release(req.n))
    case Shut => Depart(s, i, Release(if node.need <= req.n then req.n - node.need else 0))
    case _ => s
  }

  /** `release` adds first and asserts afterwards: a release beyond MAX_PERMITS panics before it drains. */
  function ReleaseStep(s: State, i: nat, k: nat): State
    requires i < |s.agents|
  {
    if k == 0 then
      Goto(s, i, Idle)
    else
      var sum := s.pool.permits + k;
      Goto(s, i, if sum <= MAX_PERMITS && s.pool.hasQueue then DrainLock else Idle)
      .(pool := s.pool.(permits := sum % PERMIT_SPACE),
        books := s.books.(tripped := s.books.tripped || sum > MAX_PERMITS,
                          wrapped := s.books.wrapped || sum >= PERMIT_SPACE))
  }

  function DrainTakeStep(s: State, i: nat, cur: Pool, c: Choice): State
    requires i < |s.agents|
  {
    if cur.permits == 0 then
      Goto(s, i, Distribute(0))
    else if c.Spurious? || s.pool != cur then
      Goto(s, i, DrainTake(s.pool))
    else
      Goto(s, i, Distribute(cur.permits)).(pool := s.pool.(permits := 0))
  }

  /** The agents after the distribution loop, how many were popped, and the permits left over. */
  datatype Dealt = Dealt(agents: seq<Agent>, popped: nat, left: nat)

  /** The distribution loop of `drain`, working on the nodes themselves. */
  function Deal(agents: seq<Agent>, queue: seq<nat>, available: nat, taker: nat): (r: Dealt)
    ensures r.popped <= |queue|
    ensures |r.agents| == |agents|
    decreases |queue|
  {
    if queue == [] || queue[0] >= |agents| then
      Dealt(agents, 0, available)
    else
      var node := agents[queue[0]].node;
      if node.need > available then
        Dealt(agents[queue[0] := agents[queue[0]].(node := node.(need := node.need - available))], 0, 0)
      else
        var served := agents[queue[0]].(node := node.(place := Popped(taker), need := 0));
        var r := Deal(agents[queue[0] := served], queue[1..], available - node.need, taker);
        r.(popped := r.popped + 1)
  }

  function Tickets(agents: seq<Agent>, ids: seq<nat>): (r: seq<nat>)
    ensures |r| == |ids|
  {
    seq(|ids|, k requires 0 <= k < |ids| => if ids[k] < |agents| then agents[ids[k]].node.ticket else 0)
  }

  function DistributeStep(s: State, i: nat, available: nat): State
    requires i < |s.agents|
  {
    var r := Deal(s.agents, s.queue, available, i);
    var chain := s.queue[..r.popped];
    Goto(s.(agents := r.agents), i, PutBack(r.left, chain))
    .(queue := s.queue[r.popped..], line := s.line.(granted := s.line.granted + Tickets(s.agents, chain)))
  }

  function PutBackStep(s: State, i: nat, left: nat, chain: seq<nat>): State
    requires i < |s.agents|
  {
    var sum := s.pool.permits + left;
    Goto(s, i, Unlock(Wake(chain, Granted)))
    .(pool := s.pool.(permits := sum % PERMIT_SPACE),
      books := s.books.(wrapped := s.books.wrapped || sum >= PERMIT_SPACE))
  }

  /** One round of `PoppedChain::signal_all`: the first node of the chain is published and let go. */
  function SignalStep(s: State, i: nat, chain: seq<nat>, signal: Place): State
    requires i < |s.agents|
  {
    if chain == [] then
      Goto(s, i, Idle)
    else if chain[0] < |s.agents| then
      var target := s.agents[chain[0]];
      var published := s.(agents := s.agents[chain[0] := target.(node := target.node.(place := signal))]);
      Goto(published, i, Signaling(chain[1..], signal))
    else s
  }

  function CloseFlagStep(s: State, i: nat): State
    requires i < |s.agents|
  {
    if s.pool.closed then
      Goto(s, i, Idle)
    else
      Goto(s, i, if s.pool.hasQueue then CloseLock else Idle).(pool := s.pool.(closed := true))
  }

  /** Marks every queued node as popped by `taker`. */
  function TakeAll(agents: seq<Agent>, taker: nat): (r: seq<Agent>)
    ensures |r| == |agents|
  {
    seq(|agents|, x requires 0 <= x < |agents| =>
      var a := agents[x];
      if a.node.place.Queued? then a.(node := a.node.(place := Popped(taker))) else a)
  }

  function CloseTakeStep(s: State, i: nat): State
    requires i < |s.agents|
  {
    var lost := Tickets(s.agents, s.queue);
    Goto(s.(agents := TakeAll(s.agents, i)), i, Unlock(Wake(s.queue, Shut)))
    .(queue := [], line := s.line.(shut := s.line.shut + set t | t in lost))
  }

  function ForgetStep(s: State, i: nat, k: nat, cur: Pool, c: Choice): State
    requires i < |s.agents|
  {
    var gone := if cur.permits < k then cur.permits else k;
    if gone == 0 then
      Goto(s, i, Idle)
    else if c.Spurious? || s.pool != cur then
      Goto(s, i, Forget(k, s.pool))
    else
      Goto(s, i, Idle).(pool := cur.(permits := cur.permits - gone),
                          books := s.books.(forgotten := s.books.forgotten + gone))
  }

  /** One atomic step of agent `i`. An agent that must spin keeps the state as it is. */
  function Step(s: State, i: nat, c: Choice): State {
    if i >= |s.agents| then s else
    match s.agents[i].pc
    case Idle => if c.Begin? then Start(s, i, c.op) else s
    case Load(req, stage) => Goto(s, i, Try(req, stage, s.pool))
    case Try(req, stage, cur) => TryStep(s, i, req, stage, cur, c)
    case EnqLock(req) =>
      if s.word.Held? then s
      else Goto(s, i, EnqFlag(req, s.queue == [])).(word := Held(i))
    case EnqFlag(req, empty) =>
      var flagged := s.pool.(hasQueue := true);
      Goto(s, i, EnqLoop(req, empty, flagged)).(pool := flagged)
    case EnqLoop(req, empty, cur) => EnqueueStep(s, i, req, empty, cur, c)
    case Unlock(next) => UnlockStep(s, i, next)
    case UnlockNull(next) => Resume(s.(word := Null), i, next)
    case Waiting(req) => WaitStep(s, i, req, c)
    case CancelLock(req) => LockExisting(s, i, CancelRemove(req), CancelSpin(req))
    case CancelRemove(req) => CancelStep(s, i, req)
    case CancelSpin(req) => CancelSpinStep(s, i, req)
    case Release(k) => ReleaseStep(s, i, k)
    case DrainLock => LockExisting(s, i, DrainLoad, Idle)
    case DrainLoad => Goto(s, i, DrainTake(s.pool))
    case DrainTake(cur) => DrainTakeStep(s, i, cur, c)
    case Distribute(available) => DistributeStep(s, i, available)
    case PutBack(left, chain) => PutBackStep(s, i, left, chain)
    case Signaling(chain, signal) => SignalStep(s, i, chain, signal)
    case CloseFlag => CloseFlagStep(s, i)
    case CloseLock => LockExisting(s, i, CloseTake, Idle)
    case CloseTake => CloseTakeStep(s, i)
    case ForgetLoad(k) => Goto(s, i, Forget(k, s.pool))
    case Forget(k, cur) => ForgetStep(s, i, k, cur, c)
  }

  /** A fresh semaphore shared by agents that have not called anything yet. */
  predicate Init(s: State) {
    && s.books == Books(s.books.initial, 0, 0, false, false) && s.books.initial <= MAX_PERMITS
    && s.pool == Pool(s.books.initial, false, false)
    && s.word == Null && s.queue == [] && s.guards == []
    && s.line == Line(0, [], {}, {})
    && forall i | 0 <= i < |s.agents| :: s.agents[i] == Agent(Idle, NoNode)
  }

  /** The state after the scheduler has run the given agents with the given choices. */
  function Run(s: State, schedule: seq<(nat, Choice)>): State {
    if schedule == [] then s
    else
      var last := schedule[|schedule| - 1];
      Step(Run(s, schedule[..|schedule| - 1]), last.0, last.1)
  }
}

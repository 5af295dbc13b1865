/** Every step of every agent keeps the invariant of the semaphore; so it holds after every schedule. */
module SemaphoreSteps {
  import opened Ledger
  import opened Semaphore
  import opened SemaphoreInvariant
  import opened SemaphoreDeal
  import C = SemaphoreControl
  import D = SemaphoreData

  predicate Inv(s: State) { C.Control(s) && D.Data(s) }

  predicate Early(pc: Pc) {
    pc.Idle? || pc.Load? || pc.Try? || pc.EnqLock? || pc.EnqFlag? || pc.EnqLoop? || pc.Unlock? || pc.UnlockNull?
  }

  predicate Middle(pc: Pc) {
    pc.Waiting? || pc.CancelLock? || pc.CancelRemove? || pc.CancelSpin?
  }

  lemma ControlEarly(s: State, i: nat, c: Choice)
    requires i < |s.agents| && Early(s.agents[i].pc)
    requires C.Control(s) && QueueInv(s.agents, s.queue) && NodeOk(s.agents[i])
    ensures C.Control(Step(s, i, c))
  {
    match s.agents[i].pc
    case Idle => if c.Begin? { C.StartKeeps(s, i, c.op); }
    case Load(req, stage) => C.QuietKeeps(s, i, Try(req, stage, s.pool));
    case Try(req, stage, cur) => C.TryKeeps(s, i, req, stage, cur, c);
    case EnqLock(req) => if !s.word.Held? { C.EnqueueLockKeeps(s, i, req); }
    case EnqFlag(req, empty) => C.EnqueueFlagKeeps(s, i, req, empty);
    case EnqLoop(req, empty, cur) => C.EnqueueKeeps(s, i, req, empty, cur, c);
    case Unlock(next) => C.UnlockKeeps(s, i, next);
    case UnlockNull(next) => C.UnlockNullKeeps(s, i, next);
  }

  lemma ControlMiddle(s: State, i: nat, c: Choice)
    requires i < |s.agents| && Middle(s.agents[i].pc)
    requires C.Control(s) && QueueInv(s.agents, s.queue) && NodeOk(s.agents[i])
    ensures C.Control(Step(s, i, c))
  {
    var pc := s.agents[i].pc;
    if pc.Waiting? {
      C.WaitKeeps(s, i, pc.req, c);
      assert Step(s, i, c) == WaitStep(s, i, pc.req, c);
    } else if pc.CancelRemove? {
      C.CancelKeeps(s, i, pc.req);
      assert Step(s, i, c) == CancelStep(s, i, pc.req);
    } else if pc.CancelLock? {
      C.CancelLockKeeps(s, i, pc.req);
    } else {
      C.CancelSpinKeeps(s, i, pc.req);
    }
  }

  lemma ControlLate(s: State, i: nat, c: Choice)
    requires i < |s.agents| && !Early(s.agents[i].pc) && !Middle(s.agents[i].pc)
    requires C.Control(s) && Dealable(s.agents, s.queue)
    ensures C.Control(Step(s, i, c))
  {
    match s.agents[i].pc
    case Release(k) => C.ReleaseKeeps(s, i, k);
    case DrainLock => C.DrainLockKeeps(s, i);
    case DrainLoad => C.DrainLoadKeeps(s, i);
    case DrainTake(cur) => C.DrainTakeKeeps(s, i, cur, c);
    case Distribute(available) => C.DistributeKeeps(s, i, available);
    case PutBack(left, chain) => C.PutBackKeeps(s, i, left, chain);
    case Signaling(chain, signal) => C.SignalKeeps(s, i, chain, signal);
    case CloseFlag => C.CloseFlagKeeps(s, i);
    case CloseLock => C.CloseLockKeeps(s, i);
    case CloseTake => C.CloseTakeKeeps(s, i);
    case ForgetLoad(k) => C.QuietKeeps(s, i, Forget(k, s.pool));
    case Forget(k, cur) => C.ForgetKeeps(s, i, k, cur, c);
  }

  lemma DataEarly(s: State, i: nat, c: Choice)
    requires i < |s.agents| && Early(s.agents[i].pc) && ShapeInv(s) && D.Data(s)
    ensures D.Data(Step(s, i, c))
  {
    var s' := Step(s, i, c);
    assert NodeOk(s.agents[i]);
    if s.agents[i].pc.Idle? {
      if c.Begin? {
        D.StartPlain(s, i, c.op);
        D.PlainKeeps(s, s', i);
        StartPermits(s, i, c.op);
      }
    } else if s.agents[i].pc.EnqLoop? {
      var pc := s.agents[i].pc;
      D.EnqueueBalanced(s, i, pc.req, pc.empty, pc.cur, c);
      D.BalancedKeeps(s, s', i, []);
      EnqueueData(s, i, pc.req, pc.empty, pc.cur, c);
    } else {
      EarlyPlain(s, i, c);
      LeaveData(s, s', i);
      D.BalancedKeeps(s, s', i, s'.guards[|s.guards|..]);
    }
  }

  lemma EarlyPlain(s: State, i: nat, c: Choice)
    requires i < |s.agents| && Early(s.agents[i].pc) && !s.agents[i].pc.Idle? && !s.agents[i].pc.EnqLoop?
    requires NodeOk(s.agents[i])
    ensures D.Plain(s, Step(s, i, c), i) || D.Arms(s, Step(s, i, c), i)
    ensures D.Balanced(s, Step(s, i, c), i, Step(s, i, c).guards[|s.guards|..])
  {
    match s.agents[i].pc
    case Load(_, _) => D.LoadPlain(s, i, c);
    case Try(req, stage, cur) =>
      D.TryPlain(s, i, req, stage, cur, c);
      D.TryBalanced(s, i, req, stage, cur, c);
    case EnqLock(_) => D.LockPlain(s, i, c);
    case EnqFlag(_, _) => D.LockPlain(s, i, c);
    case Unlock(_) => D.UnlockPlain(s, i, c);
    case UnlockNull(_) => D.UnlockNullPlain(s, i, c);
  }

  lemma EnqueueData(s: State, i: nat, req: Req, empty: bool, cur: Pool, c: Choice)
    requires i < |s.agents| && s.agents[i].pc == EnqLoop(req, empty, cur) && NodeInv(s) && FifoInv(s)
    ensures var s' := EnqueueStep(s, i, req, empty, cur, c); NodeInv(s') && FifoInv(s')
  {
    assert NodeOk(s.agents[i]);
    if cur.closed || (empty && cur.permits >= req.n) {
      D.EnqueuePlain(s, i, req, empty, cur, c);
      D.PlainKeeps(s, EnqueueStep(s, i, req, empty, cur, c), i);
    } else {
      D.PushNodes(s, i, req, empty, cur, c);
      D.PushFifo(s, i, req, empty, cur, c);
    }
  }

  lemma StartPermits(s: State, i: nat, op: Op)
    requires i < |s.agents| && s.agents[i].pc == Idle && NodeOk(s.agents[i]) && PermitInv(s)
    ensures PermitInv(Start(s, i, op))
  {
    match op
    case SplitGuard(g, k) => D.SplitPermits(s, i, g, k);
    case MergeGuards(g, h) => D.MergePermits(s, i, g, h);
    case DropGuard(_) => D.GuardPermits(s, i, op);
    case ForgetGuard(_) => D.GuardPermits(s, i, op);
    case Downgrade(_) => D.GuardPermits(s, i, op);
    case _ => D.CallPermits(s, i, op);
  }

  lemma DataMiddle(s: State, i: nat, c: Choice)
    requires i < |s.agents| && Middle(s.agents[i].pc) && ShapeInv(s) && D.Data(s)
    ensures D.Data(Step(s, i, c))
  {
    var s' := Step(s, i, c);
    assert NodeOk(s.agents[i]);
    match s.agents[i].pc
    case Waiting(req) =>
      D.WaitDeparts(s, i, req, c);
      D.BalancedKeeps(s, s', i, s'.guards[|s.guards|..]);
      LeaveData(s, s', i);
    case CancelLock(_) =>
      D.CancelLockPlain(s, i, c);
      D.BalancedKeeps(s, s', i, []);
      LeaveData(s, s', i);
    case CancelRemove(req) =>
      D.CancelBalanced(s, i, req);
      D.BalancedKeeps(s, s', i, []);
      if i in s.queue {
        CancelData(s, i, req);
      } else {
        LeaveData(s, s', i);
      }
    case CancelSpin(req) =>
      D.CancelSpinDeparts(s, i, req);
      D.BalancedKeeps(s, s', i, []);
      LeaveData(s, s', i);
  }

  lemma LeaveData(s: State, s': State, i: nat)
    requires NodeInv(s) && FifoInv(s) && (D.Plain(s, s', i) || D.Arms(s, s', i) || D.Departs(s, s', i))
    ensures NodeInv(s') && FifoInv(s')
  {
    if D.Plain(s, s', i) {
      D.PlainKeeps(s, s', i);
    } else if D.Arms(s, s', i) {
      D.ArmsKeeps(s, s', i);
    } else {
      D.DepartsKeeps(s, s', i);
    }
  }

  lemma CancelData(s: State, i: nat, req: Req)
    requires i < |s.agents| && s.agents[i].pc == CancelRemove(req) && i in s.queue && NodeInv(s) && FifoInv(s)
    ensures NodeInv(CancelStep(s, i, req)) && FifoInv(CancelStep(s, i, req))
  {
    D.CancelNodes(s, i, req);
    D.CancelTickets(s, i, req);
    D.CancelPartial(s, i, req);
  }

  lemma DistributeData(s: State, i: nat, available: nat)
    requires i < |s.agents| && s.agents[i].pc == Distribute(available) && D.Data(s)
    ensures D.Data(DistributeStep(s, i, available))
  {
    D.DistributeReady(s, i);
    D.DistributeNodes(s, i, available);
    D.DistributeTickets(s, i, available);
    D.DistributePartial(s, i, available);
    D.DistributePermits(s, i, available);
  }

  lemma CloseTakeData(s: State, i: nat)
    requires i < |s.agents| && s.agents[i].pc == CloseTake && D.Data(s)
    ensures D.Data(CloseTakeStep(s, i))
  {
    D.CloseTakeNodes(s, i);
    D.CloseTakeFifo(s, i);
    D.CloseTakePermits(s, i);
  }

  lemma SignalData(s: State, i: nat, chain: seq<nat>, signal: Place)
    requires i < |s.agents| && s.agents[i].pc == Signaling(chain, signal) && D.Data(s)
    ensures D.Data(SignalStep(s, i, chain, signal))
  {
    assert NodeOk(s.agents[i]) && ChainOk(s.agents, i);
    D.SignalNodes(s, i, chain, signal);
    D.SignalFifo(s, i, chain, signal);
    D.SignalPermits(s, i, chain, signal);
  }

  lemma LatePlain(s: State, i: nat, c: Choice)
    requires i < |s.agents| && !Early(s.agents[i].pc) && !Middle(s.agents[i].pc) && NodeOk(s.agents[i])
    requires !s.agents[i].pc.Distribute? && !s.agents[i].pc.Signaling? && !s.agents[i].pc.CloseTake?
    ensures D.Plain(s, Step(s, i, c), i) && D.Balanced(s, Step(s, i, c), i, [])
  {
    match s.agents[i].pc
    case Release(_) => D.ReleasePlain(s, i, c);
    case DrainLock => D.ReleasePlain(s, i, c);
    case DrainLoad => D.DrainPlain(s, i, c);
    case DrainTake(_) => D.DrainPlain(s, i, c);
    case PutBack(_, _) => D.DrainPlain(s, i, c);
    case CloseFlag => D.ClosePlain(s, i, c);
    case CloseLock => D.ClosePlain(s, i, c);
    case ForgetLoad(_) => D.ForgetPlain(s, i, c);
    case Forget(_, _) => D.ForgetPlain(s, i, c);
  }

  lemma DataLate(s: State, i: nat, c: Choice)
    requires i < |s.agents| && !Early(s.agents[i].pc) && !Middle(s.agents[i].pc) && D.Data(s)
    ensures D.Data(Step(s, i, c))
  {
    var s' := Step(s, i, c);
    var pc := s.agents[i].pc;
    if pc.Distribute? {
      DistributeData(s, i, pc.available);
      assert s' == DistributeStep(s, i, pc.available);
    } else if pc.CloseTake? {
      CloseTakeData(s, i);
      assert s' == CloseTakeStep(s, i);
    } else if pc.Signaling? {
      SignalData(s, i, pc.chain, pc.signal);
      assert s' == SignalStep(s, i, pc.chain, pc.signal);
    } else {
      LatePlainData(s, i, c);
    }
  }

  lemma LatePlainData(s: State, i: nat, c: Choice)
    requires i < |s.agents| && !Early(s.agents[i].pc) && !Middle(s.agents[i].pc) && D.Data(s)
    requires !s.agents[i].pc.Distribute? && !s.agents[i].pc.Signaling? && !s.agents[i].pc.CloseTake?
    ensures D.Data(Step(s, i, c))
  {
    var s' := Step(s, i, c);
    assert NodeOk(s.agents[i]);
    LatePlain(s, i, c);
    D.PlainKeeps(s, s', i);
    D.BalancedKeeps(s, s', i, []);
  }

  /** Every step of every agent keeps the invariant. */
  lemma StepKeeps(s: State, i: nat, c: Choice)
    requires Inv(s)
    ensures Inv(Step(s, i, c))
  {
    if i < |s.agents| {
      assert NodeOk(s.agents[i]);
      if Early(s.agents[i].pc) {
        ControlEarly(s, i, c);
        DataEarly(s, i, c);
      } else if Middle(s.agents[i].pc) {
        ControlMiddle(s, i, c);
        DataMiddle(s, i, c);
      } else {
        assert Dealable(s.agents, s.queue);
        ControlLate(s, i, c);
        DataLate(s, i, c);
      }
    }
  }

  lemma InitHolds(s: State)
    requires Init(s)
    ensures Inv(s)
  {
    SumZero(s.agents, Weight);
    assert Tickets(s.agents, s.queue) == [];
  }

  /** The invariant holds after every schedule. */
  lemma {:induction false} RunHolds(s: State, schedule: seq<(nat, Choice)>)
    requires Init(s)
    ensures Inv(Run(s, schedule))
    decreases |schedule|
  {
    if schedule == [] {
      InitHolds(s);
    } else {
      var last := schedule[|schedule| - 1];
      RunHolds(s, schedule[..|schedule| - 1]);
      StepKeeps(Run(s, schedule[..|schedule| - 1]), last.0, last.1);
    }
  }
}

/**
  The reader-writer lock: the semaphore protocol restricted to what `RwLock` and `AsyncRwLock` do with
  it. A reader asks for one permit, a writer for all of them; the semaphore is never closed and its
  permits are neither added to nor forgotten.
 */
module RwLock {
  import opened Schedules
  import opened Ledger
  import opened Semaphore
  import opened SemaphoreInvariant
  import opened SemaphoreSteps
  import opened SemaphoreTheorems
  import opened SemaphoreOutcomes

  /** `u32::MAX >> 3`. */
  const MAX_READERS: nat := 0x1FFF_FFFF

  predicate LockInit(s: State, readers: nat) {
    Init(s) && s.books.initial == readers && 1 <= readers <= MAX_READERS
  }

  predicate LockReq(readers: nat, req: Req) {
    || (req.kind == Read && req.n == 1)
    || (req.kind == Write && req.n == readers)
  }

  /** The calls of the lock: read, write and their `try_` forms, dropping a guard, downgrading one. */
  predicate LockOp(readers: nat, op: Op) {
    match op
    case TryAcquire(req) => LockReq(readers, req)
    case Acquire(req) => LockReq(readers, req)
    case DropGuard(_) => true
    case Downgrade(_) => true
    case _ => false
  }

  predicate LockSchedule(readers: nat, schedule: seq<(nat, Choice)>) {
    forall k | 0 <= k < |schedule| :: schedule[k].1.Begin? ==> LockOp(readers, schedule[k].1.op)
  }

  predicate LockGuard(readers: nat, g: Guard) {
    g == Guard(Read, 1) || g == Guard(Write, readers)
  }

  predicate LockThen(readers: nat, next: Then) {
    match next
    case Got(req) => LockReq(readers, req)
    case Park(req) => LockReq(readers, req)
    case SpinFor(req) => LockReq(readers, req)
    case Wake(_, signal) => signal == Granted
    case _ => true
  }

  predicate LockPc(readers: nat, pc: Pc) {
    match pc
    case Load(req, _) => LockReq(readers, req)
    case Try(req, _, cur) => LockReq(readers, req) && !cur.closed
    case EnqLock(req) => LockReq(readers, req)
    case EnqFlag(req, _) => LockReq(readers, req)
    case EnqLoop(req, _, cur) => LockReq(readers, req) && !cur.closed
    case Unlock(next) => LockThen(readers, next)
    case UnlockNull(next) => LockThen(readers, next)
    case Waiting(req) => LockReq(readers, req)
    case CancelLock(req) => LockReq(readers, req)
    case CancelRemove(req) => LockReq(readers, req)
    case CancelSpin(req) => LockReq(readers, req)
    case Signaling(_, signal) => signal == Granted
    case CloseFlag => false
    case CloseLock => false
    case CloseTake => false
    case ForgetLoad(_) => false
    case Forget(_, _) => false
    case _ => true
  }

  predicate AgentsInv(agents: seq<Agent>, readers: nat) {
    forall i | 0 <= i < |agents| :: LockPc(readers, agents[i].pc) && !agents[i].node.place.Shut?
  }

  predicate GuardsInv(guards: seq<Guard>, readers: nat) {
    forall g | 0 <= g < |guards| :: LockGuard(readers, guards[g])
  }

  predicate LedgerInv(s: State, readers: nat) {
    s.books.initial == readers && s.books.added == 0 && s.books.forgotten == 0 && !s.pool.closed
  }

  predicate LockInvariant(s: State, readers: nat) {
    AgentsInv(s.agents, readers) && GuardsInv(s.guards, readers) && LedgerInv(s, readers)
  }

  lemma StartLawful(s: State, i: nat, op: Op, readers: nat)
    requires i < |s.agents| && LockInvariant(s, readers) && LockOp(readers, op) && s.agents[i].pc.Idle?
    ensures LockInvariant(Start(s, i, op), readers)
  {
  }

  lemma TryLawful(s: State, i: nat, req: Req, stage: Stage, cur: Pool, c: Choice, readers: nat)
    requires i < |s.agents| && LockInvariant(s, readers) && s.agents[i].pc == Try(req, stage, cur)
    ensures LockInvariant(TryStep(s, i, req, stage, cur, c), readers)
  {
  }

  lemma EarlyLawful(s: State, i: nat, c: Choice, readers: nat)
    requires i < |s.agents| && LockInvariant(s, readers)
    requires Early(s.agents[i].pc) && !s.agents[i].pc.Idle? && !s.agents[i].pc.Unlock? && !s.agents[i].pc.Try?
    ensures LockInvariant(Step(s, i, c), readers)
  {
  }

  lemma UnlockLawful(s: State, i: nat, next: Then, readers: nat)
    requires i < |s.agents| && LockInvariant(s, readers) && s.agents[i].pc == Unlock(next)
    ensures LockInvariant(UnlockStep(s, i, next), readers)
  {
  }

  lemma MiddleLawful(s: State, i: nat, c: Choice, readers: nat)
    requires i < |s.agents| && LockInvariant(s, readers) && Middle(s.agents[i].pc)
    ensures LockInvariant(Step(s, i, c), readers)
  {
  }

  lemma {:induction false} DealLawful(agents: seq<Agent>, queue: seq<nat>, available: nat, taker: nat, readers: nat)
    requires AgentsInv(agents, readers)
    ensures AgentsInv(Deal(agents, queue, available, taker).agents, readers)
    decreases |queue|
  {
    if queue != [] && queue[0] < |agents| && agents[queue[0]].node.need <= available {
      var node := agents[queue[0]].node;
      var served := agents[queue[0]].(node := node.(place := Popped(taker), need := 0));
      DealLawful(agents[queue[0] := served], queue[1..], available - node.need, taker, readers);
    }
  }

  lemma LateLawful(s: State, i: nat, c: Choice, readers: nat)
    requires i < |s.agents| && LockInvariant(s, readers)
    requires !Early(s.agents[i].pc) && !Middle(s.agents[i].pc) && !s.agents[i].pc.Distribute?
    ensures LockInvariant(Step(s, i, c), readers)
  {
    assert LockPc(readers, s.agents[i].pc);
  }

  lemma StepLawful(s: State, i: nat, c: Choice, readers: nat)
    requires LockInvariant(s, readers) && (c.Begin? ==> LockOp(readers, c.op))
    ensures LockInvariant(Step(s, i, c), readers)
  {
    if i < |s.agents| {
      var pc := s.agents[i].pc;
      if pc.Idle? {
        if c.Begin? {
          StartLawful(s, i, c.op, readers);
        }
      } else if pc.Unlock? {
        UnlockLawful(s, i, pc.next, readers);
      } else if pc.Distribute? {
        DealLawful(s.agents, s.queue, pc.available, i, readers);
      } else if pc.Try? {
        TryLawful(s, i, pc.req, pc.stage, pc.cur, c, readers);
      } else if Early(pc) {
        EarlyLawful(s, i, c, readers);
      } else if Middle(pc) {
        MiddleLawful(s, i, c, readers);
      } else {
        LateLawful(s, i, c, readers);
      }
    }
  }

  lemma {:induction false} RunLawful(s: State, readers: nat, schedule: seq<(nat, Choice)>)
    requires LockInit(s, readers) && LockSchedule(readers, schedule)
    ensures LockInvariant(Run(s, schedule), readers)
    decreases |schedule|
  {
    if schedule != [] {
      var last := schedule[|schedule| - 1];
      RunLawful(s, readers, schedule[..|schedule| - 1]);
      StepLawful(Run(s, schedule[..|schedule| - 1]), last.0, last.1, readers);
    }
  }

  lemma RunHonest(s: State, readers: nat, schedule: seq<(nat, Choice)>)
    requires LockInit(s, readers) && LockSchedule(readers, schedule)
    ensures Honest(Run(s, schedule), readers)
  {
    RunHolds(s, schedule);
    RunLawful(s, readers, schedule);
    FewIssued(s, schedule, MAX_PERMITS);
    ReleasesPass(s, schedule, MAX_PERMITS);
  }

  /** The state of a lock in which no permit was ever lost. */
  predicate Honest(s: State, readers: nat) {
    Inv(s) && LockInvariant(s, readers) && !s.books.wrapped && 1 <= readers
  }

  predicate NothingCarried(agents: seq<Agent>) { forall i | 0 <= i < |agents| :: Weight(agents[i]) == 0 }

  lemma WriterAlone(s: State, readers: nat, w: nat)
    requires Honest(s, readers) && w < |s.guards| && s.guards[w].kind == Write
    ensures |s.guards| == 1 && s.pool.permits == 0 && NothingCarried(s.agents)
  {
    assert s.guards[w] == Guard(Write, readers) || readers == 1;
    assert forall k | 0 <= k < |s.guards| :: 1 <= GuardWeight(s.guards[k]);
    assert forall k | 0 <= k < |s.agents| :: NodeOk(s.agents[k]) && 0 <= Weight(s.agents[k]);
    SumMember(s.guards, GuardWeight, w);
    SumNonNegative(s.agents, Weight);
    if |s.guards| > 1 {
      SumPair(s.guards, GuardWeight, w, if w == 0 then 1 else 0);
    }
    forall i | 0 <= i < |s.agents|
      ensures Weight(s.agents[i]) == 0
    {
      SumMember(s.agents, Weight, i);
    }
  }

  lemma NotBoth(s: State, readers: nat, r: nat)
    requires Honest(s, readers) && r < |s.guards| && s.guards[r].kind == Read
    ensures forall w | 0 <= w < |s.guards| :: s.guards[w].kind != Write
  {
    forall w | 0 <= w < |s.guards|
      ensures s.guards[w].kind != Write
    {
      if s.guards[w].kind == Write {
        WriterAlone(s, readers, w);
      }
    }
  }

  /**
    Exclusion over all runs: a write guard is the only guard, the pool is empty, and no other agent
    has been granted, is returning, or is carrying a permit that could admit anybody.
   */
  lemma WriterExcludesEverybody(s: State, readers: nat, schedule: seq<(nat, Choice)>, w: nat)
    requires LockInit(s, readers) && LockSchedule(readers, schedule)
    requires w < |Run(s, schedule).guards| && Run(s, schedule).guards[w].kind == Write
    ensures var e := Run(s, schedule);
            |e.guards| == 1 && e.pool.permits == 0 && NothingCarried(e.agents)
  {
    RunHonest(s, readers, schedule);
    WriterAlone(Run(s, schedule), readers, w);
  }

  /** Where there is a reader there is no writer. */
  lemma ReaderExcludesWriters(s: State, readers: nat, schedule: seq<(nat, Choice)>, r: nat)
    requires LockInit(s, readers) && LockSchedule(readers, schedule)
    requires r < |Run(s, schedule).guards| && Run(s, schedule).guards[r].kind == Read
    ensures var e := Run(s, schedule);
            forall w | 0 <= w < |e.guards| :: e.guards[w].kind != Write
  {
    RunHonest(s, readers, schedule);
    NotBoth(Run(s, schedule), readers, r);
  }

  /** Nobody has a guard, nobody carries a permit, and nobody is in line or about to get in line. */
  predicate Free(s: State) {
    !s.pool.hasQueue && s.guards == [] && NothingCarried(s.agents)
  }

  lemma AllPermitsBack(s: State, readers: nat)
    requires Honest(s, readers)
    ensures s.pool.permits >= readers <==> s.guards == [] && NothingCarried(s.agents)
  {
    assert forall g | 0 <= g < |s.guards| :: LockGuard(readers, s.guards[g]) && 1 <= GuardWeight(s.guards[g]);
    assert forall k | 0 <= k < |s.agents| :: NodeOk(s.agents[k]) && 0 <= Weight(s.agents[k]);
    SumNonNegative(s.guards, GuardWeight);
    SumNonNegative(s.agents, Weight);
    if s.guards != [] {
      SumMember(s.guards, GuardWeight, 0);
    }
    if NothingCarried(s.agents) {
      SumZero(s.agents, Weight);
    } else {
      var i :| 0 <= i < |s.agents| && Weight(s.agents[i]) != 0;
      SumMember(s.agents, Weight, i);
    }
  }

  /** A writer that tries gets the lock if and only if the lock is free; the compare-exchange must meet what it saw. */
  lemma TryWriteOutcome(
    s: State, readers: nat, schedule: seq<(nat, Choice)>, i: nat, req: Req, stage: Stage, cur: Pool, c: Choice)
    requires LockInit(s, readers) && LockSchedule(readers, schedule) && i < |Run(s, schedule).agents|
    requires Run(s, schedule).agents[i].pc == Try(req, stage, cur) && req.kind == Write
    ensures var e := Run(s, schedule);
            var e' := Step(e, i, c);
            && (e'.guards != e.guards <==> !c.Spurious? && e.pool == cur && Free(e))
            && (e'.guards != e.guards ==> e'.guards == [Guard(Write, readers)])
  {
    var e := Run(s, schedule);
    RunHonest(s, readers, schedule);
    AllPermitsBack(e, readers);
    assert LockPc(readers, e.agents[i].pc);
    TryOutcome(s, schedule, i, req, stage, cur, c);
  }

  /** The lock's internal semaphore is never closed, so its `unreachable!` branches are. */
  lemma NeverClosed(s: State, readers: nat, schedule: seq<(nat, Choice)>)
    requires LockInit(s, readers) && LockSchedule(readers, schedule)
    ensures var e := Run(s, schedule);
            !e.pool.closed && forall i | 0 <= i < |e.agents| :: !e.agents[i].node.place.Shut?
  {
    RunLawful(s, readers, schedule);
  }

  // ----- downgrade -----

  datatype Position = Gone | At(p: nat)

  /** Where the guard at position `p` is after one step: guards move down when an earlier one is dropped. */
  function Follow(s: State, i: nat, c: Choice, p: nat): Position {
    if i < |s.agents| && s.agents[i].pc.Idle? && c.Begin? && c.op.DropGuard? && c.op.g < |s.guards| then
      if c.op.g == p then Gone else if c.op.g < p then At(p - 1) else At(p)
    else At(p)
  }

  function FollowAll(s: State, schedule: seq<(nat, Choice)>, p: nat): Position {
    if schedule == [] then At(p)
    else
      var before := schedule[..|schedule| - 1];
      var last := schedule[|schedule| - 1];
      match FollowAll(s, before, p)
      case Gone => Gone
      case At(q) => Follow(Run(s, before), last.0, last.1, q)
  }

  lemma EarlyAppends(s: State, i: nat, c: Choice)
    requires i < |s.agents| && Early(s.agents[i].pc) && !s.agents[i].pc.Idle?
    ensures s.guards <= Step(s, i, c).guards
  {
  }

  lemma OthersAppend(s: State, i: nat, c: Choice)
    requires i < |s.agents| && !Early(s.agents[i].pc)
    ensures s.guards <= Step(s, i, c).guards
  {
  }

  lemma ReadGuardStays(s: State, i: nat, c: Choice, p: nat, readers: nat)
    requires p < |s.guards| && s.guards[p] == Guard(Read, 1) && (c.Begin? ==> LockOp(readers, c.op))
    requires Follow(s, i, c, p).At?
    ensures var q := Follow(s, i, c, p).p;
            q < |Step(s, i, c).guards| && Step(s, i, c).guards[q] == Guard(Read, 1)
  {
    if i < |s.agents| && !s.agents[i].pc.Idle? {
      if Early(s.agents[i].pc) {
        EarlyAppends(s, i, c);
      } else {
        OthersAppend(s, i, c);
      }
    }
  }

  lemma {:induction false} FollowedGuardStays(s: State, readers: nat, schedule: seq<(nat, Choice)>, p: nat)
    requires p < |s.guards| && s.guards[p] == Guard(Read, 1) && LockSchedule(readers, schedule)
    requires FollowAll(s, schedule, p).At?
    ensures var q := FollowAll(s, schedule, p).p;
            q < |Run(s, schedule).guards| && Run(s, schedule).guards[q] == Guard(Read, 1)
    decreases |schedule|
  {
    if schedule != [] {
      var before := schedule[..|schedule| - 1];
      var last := schedule[|schedule| - 1];
      FollowedGuardStays(s, readers, before, p);
      ReadGuardStays(Run(s, before), last.0, last.1, FollowAll(s, before, p).p, readers);
    }
  }

  lemma {:induction false} RunSplits(s: State, first: seq<(nat, Choice)>, second: seq<(nat, Choice)>)
    ensures Run(s, first + second) == Run(Run(s, first), second)
    decreases |second|
  {
    if second == [] {
      assert first + second == first;
    } else {
      RunSplits(s, first, second[..|second| - 1]);
      RunLast(s, first, second);
    }
  }

  lemma RunLast(s: State, first: seq<(nat, Choice)>, second: seq<(nat, Choice)>)
    requires second != []
    ensures var last := second[|second| - 1];
            Run(s, first + second) == Step(Run(s, first + second[..|second| - 1]), last.0, last.1)
  {
    DropLast(first, second);
  }

  /** As long as a read guard has not been dropped it is there, and no writer is. */
  lemma ReaderUntilDropped(s: State, readers: nat, path: seq<(nat, Choice)>, after: seq<(nat, Choice)>, p: nat)
    requires LockInit(s, readers) && LockSchedule(readers, path) && LockSchedule(readers, after)
    requires p < |Run(s, path).guards| && Run(s, path).guards[p] == Guard(Read, 1)
    requires FollowAll(Run(s, path), after, p).At?
    ensures var e := Run(s, path + after);
            var q := FollowAll(Run(s, path), after, p).p;
            && q < |e.guards| && e.guards[q] == Guard(Read, 1)
            && forall w | 0 <= w < |e.guards| :: e.guards[w].kind != Write
  {
    FollowedGuardStays(Run(s, path), readers, after, p);
    RunSplits(s, path, after);
    ReaderExcludesWriters(s, readers, path + after, FollowAll(Run(s, path), after, p).p);
  }

  /**
    Downgrade lets no writer in: from the step that turns write guard `g` into a read guard until
    that very guard is dropped, whatever else runs in between, there is no write guard.
   */
  lemma DowngradeAdmitsNoWriter(s: State, readers: nat, before: seq<(nat, Choice)>, i: nat, g: nat,
                                after: seq<(nat, Choice)>)
    requires LockInit(s, readers) && LockSchedule(readers, before) && LockSchedule(readers, after)
    requires i < |Run(s, before).agents| && Run(s, before).agents[i].pc.Idle?
    requires g < |Run(s, before).guards| && Run(s, before).guards[g].kind == Write
    requires FollowAll(Run(s, before + [(i, Begin(Downgrade(g)))]), after, g).At?
    ensures var e := Run(s, before + [(i, Begin(Downgrade(g)))] + after);
            var q := FollowAll(Run(s, before + [(i, Begin(Downgrade(g)))]), after, g).p;
            && q < |e.guards| && e.guards[q] == Guard(Read, 1)
            && forall w | 0 <= w < |e.guards| :: e.guards[w].kind != Write
  {
    var path := before + [(i, Begin(Downgrade(g)))];
    DowngradeStep(s, readers, before, i, g);
    ReaderUntilDropped(s, readers, path, after, g);
  }

  lemma DowngradeStep(s: State, readers: nat, before: seq<(nat, Choice)>, i: nat, g: nat)
    requires LockInit(s, readers) && LockSchedule(readers, before)
    requires i < |Run(s, before).agents| && Run(s, before).agents[i].pc.Idle?
    requires g < |Run(s, before).guards| && Run(s, before).guards[g].kind == Write
    ensures var start := Run(s, before + [(i, Begin(Downgrade(g)))]);
            |start.guards| == |Run(s, before).guards| && start.guards[g] == Guard(Read, 1)
  {
    var down := (i, Begin(Downgrade(g)));
    DropAppended(before, down);
    RunLawful(s, readers, before);
  }
}

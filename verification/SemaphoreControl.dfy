/** Lock discipline, HAS_QUEUE and the no-stranding argument: kept by every step. */
module SemaphoreControl {
  import opened WaitWord
  import opened Semaphore
  import opened SemaphoreInvariant
  import opened SemaphoreDeal

  predicate Control(s: State) {
    LockInv(s) && ShapeInv(s) && HolderInv(s) && ServiceInv(s)
  }

  /** A step moves the program counter of one agent only. */
  predicate OnlyMoves(s: State, s': State, i: nat) {
    && |s'.agents| == |s.agents| && i < |s.agents|
    && forall j | 0 <= j < |s.agents| && j != i :: s'.agents[j].pc == s.agents[j].pc
  }

  /** An obligation of another agent stays; one of the stepping agent stays if its new position has it. */
  lemma Obligations(s: State, s': State, i: nat)
    requires OnlyMoves(s, s', i)
    ensures Asking(s) && (AsksDrain(s.agents[i].pc) ==> AsksDrain(s'.agents[i].pc)) ==> Asking(s')
    ensures Closing(s) && (AsksClose(s.agents[i].pc) ==> AsksClose(s'.agents[i].pc)) ==> Closing(s')
    ensures DrainOwed(s) && (OwesDrain(s.agents[i].pc) ==> OwesDrain(s'.agents[i].pc)) ==> DrainOwed(s')
    ensures CloseOwed(s) && (OwesClose(s.agents[i].pc) ==> OwesClose(s'.agents[i].pc)) ==> CloseOwed(s')
    ensures Asking(s) ==> DrainOwed(s)
    ensures Closing(s) ==> CloseOwed(s)
  {
    if Asking(s) {
      var j :| 0 <= j < |s.agents| && AsksDrain(s.agents[j].pc);
      assert OwesDrain(s.agents[j].pc);
      assert j != i ==> AsksDrain(s'.agents[j].pc);
    }
    if Closing(s) {
      var j :| 0 <= j < |s.agents| && AsksClose(s.agents[j].pc);
      assert OwesClose(s.agents[j].pc);
      assert j != i ==> AsksClose(s'.agents[j].pc);
    }
    if DrainOwed(s) {
      var j :| 0 <= j < |s.agents| && OwesDrain(s.agents[j].pc);
      assert j != i ==> OwesDrain(s'.agents[j].pc);
    }
    if CloseOwed(s) {
      var j :| 0 <= j < |s.agents| && OwesClose(s.agents[j].pc);
      assert j != i ==> OwesClose(s'.agents[j].pc);
    }
  }

  /** How one agent may change the lock word. */
  predicate LockMove(s: State, s': State, i: nat)
    requires i < |s.agents| && i < |s'.agents|
  {
    var was, now := Holds(s.agents[i].pc), Holds(s'.agents[i].pc);
    || (s'.word == s.word && was == now)
    || (!s.word.Held? && s'.word == Held(i) && now)
    || (s.word == Held(i) && !s'.word.Held? && !now)
  }

  /** Nothing the lock holder relies on was spoilt by an agent without the lock. */
  predicate Undisturbed(s: State, s': State) {
    && s'.queue == s.queue && s'.pool.hasQueue == s.pool.hasQueue
    && (!s'.books.tripped && s.pool.hasQueue && s'.pool.permits > s.pool.permits ==> Asking(s'))
    && (s.pool.hasQueue && s'.pool.closed && !s.pool.closed ==> Closing(s'))
    && (Asking(s) ==> Asking(s'))
    && (Closing(s) ==> Closing(s'))
  }

  predicate Admissible(s: State, s': State, i: nat) {
    && OnlyMoves(s, s', i)
    && (s.books.tripped ==> s'.books.tripped)
    && LockMove(s, s', i)
    && ShapeInv(s') && ServiceInv(s')
    && HolderFacts(s', s'.agents[i].pc)
    && (s.word.Held? && s.word.holder != i ==> Undisturbed(s, s'))
  }

  /** It is enough to look at the stepping agent and the shared words. */
  lemma AdmissibleKeeps(s: State, s': State, i: nat)
    requires Control(s) && Admissible(s, s', i)
    ensures Control(s')
  {
    assert LockInv(s');
    forall j | 0 <= j < |s'.agents|
      ensures HolderFacts(s', s'.agents[j].pc)
    {
      if j != i && Holds(s.agents[j].pc) {
        assert s.word == Held(j);
        assert HolderFacts(s, s.agents[j].pc);
      }
    }
  }

  /** The calls that lead to a release. */
  predicate Returns(op: Op) { op.DropGuard? || op.Downgrade? || op.AddPermits? }

  lemma StartReturns(s: State, i: nat, op: Op)
    requires i < |s.agents| && s.agents[i].pc == Idle && Control(s) && Returns(op)
    ensures Control(Start(s, i, op))
  {
    var s' := Start(s, i, op);
    Obligations(s, s', i);
    AdmissibleKeeps(s, s', i);
  }

  lemma StartKeeps(s: State, i: nat, op: Op)
    requires i < |s.agents| && s.agents[i].pc == Idle && Control(s)
    ensures Control(Start(s, i, op))
  {
    if Returns(op) {
      StartReturns(s, i, op);
    } else {
      var s' := Start(s, i, op);
      Obligations(s, s', i);
      AdmissibleKeeps(s, s', i);
    }
  }

  lemma EnterKeeps(s: State, i: nat, req: Req)
    requires i < |s.agents| && s.agents[i].pc.Try? && Control(s) && i !in s.queue
    ensures Control(EnterQueue(s, i, req))
  {
    var s' := EnterQueue(s, i, req);
    Obligations(s, s', i);
    AdmissibleKeeps(s, s', i);
  }

  lemma TryKeeps(s: State, i: nat, req: Req, stage: Stage, cur: Pool, c: Choice)
    requires i < |s.agents| && s.agents[i].pc == Try(req, stage, cur) && Control(s)
    requires i !in s.queue
    ensures Control(TryStep(s, i, req, stage, cur, c))
  {
    if stage.Second? && !cur.closed && (cur.hasQueue || cur.permits < req.n) {
      EnterKeeps(s, i, req);
    } else {
      var s' := TryStep(s, i, req, stage, cur, c);
      Obligations(s, s', i);
      AdmissibleKeeps(s, s', i);
    }
  }

  lemma EnqueueLockKeeps(s: State, i: nat, req: Req)
    requires i < |s.agents| && s.agents[i].pc == EnqLock(req) && Control(s) && !s.word.Held?
    ensures Control(Goto(s, i, EnqFlag(req, s.queue == [])).(word := Held(i)))
  {
    var s' := Goto(s, i, EnqFlag(req, s.queue == [])).(word := Held(i));
    Obligations(s, s', i);
    AdmissibleKeeps(s, s', i);
  }

  lemma EnqueueFlagKeeps(s: State, i: nat, req: Req, empty: bool)
    requires i < |s.agents| && s.agents[i].pc == EnqFlag(req, empty) && Control(s)
    ensures var flagged := s.pool.(hasQueue := true);
            Control(Goto(s, i, EnqLoop(req, empty, flagged)).(pool := flagged))
  {
    var flagged := s.pool.(hasQueue := true);
    var s' := Goto(s, i, EnqLoop(req, empty, flagged)).(pool := flagged);
    assert HolderFacts(s, s.agents[i].pc);
    Obligations(s, s', i);
    AdmissibleKeeps(s, s', i);
  }

  lemma EnqueueKeeps(s: State, i: nat, req: Req, empty: bool, cur: Pool, c: Choice)
    requires i < |s.agents| && s.agents[i].pc == EnqLoop(req, empty, cur) && Control(s)
    requires QueueInv(s.agents, s.queue) && NodeOk(s.agents[i])
    ensures Control(EnqueueStep(s, i, req, empty, cur, c))
  {
    var s' := EnqueueStep(s, i, req, empty, cur, c);
    assert HolderFacts(s, s.agents[i].pc);
    Obligations(s, s', i);
    AdmissibleKeeps(s, s', i);
  }

  lemma UnlockKeeps(s: State, i: nat, next: Then)
    requires i < |s.agents| && s.agents[i].pc == Unlock(next) && Control(s)
    ensures Control(UnlockStep(s, i, next))
  {
    var s' := UnlockStep(s, i, next);
    Obligations(s, s', i);
    AdmissibleKeeps(s, s', i);
  }

  lemma UnlockNullKeeps(s: State, i: nat, next: Then)
    requires i < |s.agents| && s.agents[i].pc == UnlockNull(next) && Control(s)
    ensures Control(Resume(s.(word := Null), i, next))
  {
    var s' := Resume(s.(word := Null), i, next);
    assert HolderFacts(s, s.agents[i].pc);
    Obligations(s, s', i);
    AdmissibleKeeps(s, s', i);
  }

  lemma WaitKeeps(s: State, i: nat, req: Req, c: Choice)
    requires i < |s.agents| && s.agents[i].pc == Waiting(req) && Control(s) && QueueInv(s.agents, s.queue)
    ensures Control(WaitStep(s, i, req, c))
  {
    var s' := WaitStep(s, i, req, c);
    Obligations(s, s', i);
    AdmissibleKeeps(s, s', i);
  }

  lemma CancelLockKeeps(s: State, i: nat, req: Req)
    requires i < |s.agents| && s.agents[i].pc == CancelLock(req) && Control(s)
    ensures Control(LockExisting(s, i, CancelRemove(req), CancelSpin(req)))
  {
    var s' := LockExisting(s, i, CancelRemove(req), CancelSpin(req));
    Obligations(s, s', i);
    AdmissibleKeeps(s, s', i);
  }

  lemma CancelKeeps(s: State, i: nat, req: Req)
    requires i < |s.agents| && s.agents[i].pc == CancelRemove(req) && Control(s)
    requires QueueInv(s.agents, s.queue) && NodeOk(s.agents[i])
    ensures Control(CancelStep(s, i, req))
  {
    var s' := CancelStep(s, i, req);
    assert HolderFacts(s, s.agents[i].pc);
    Obligations(s, s', i);
    AdmissibleKeeps(s, s', i);
  }

  lemma CancelSpinKeeps(s: State, i: nat, req: Req)
    requires i < |s.agents| && s.agents[i].pc == CancelSpin(req) && Control(s) && QueueInv(s.agents, s.queue)
    ensures Control(CancelSpinStep(s, i, req))
  {
    var s' := CancelSpinStep(s, i, req);
    Obligations(s, s', i);
    AdmissibleKeeps(s, s', i);
  }

  lemma ReleaseKeeps(s: State, i: nat, k: nat)
    requires i < |s.agents| && s.agents[i].pc == Release(k) && Control(s)
    ensures Control(ReleaseStep(s, i, k))
  {
    var s' := ReleaseStep(s, i, k);
    Obligations(s, s', i);
    AdmissibleKeeps(s, s', i);
  }

  lemma DrainLockKeeps(s: State, i: nat)
    requires i < |s.agents| && s.agents[i].pc == DrainLock && Control(s)
    ensures Control(LockExisting(s, i, DrainLoad, Idle))
  {
    var s' := LockExisting(s, i, DrainLoad, Idle);
    Obligations(s, s', i);
    AdmissibleKeeps(s, s', i);
  }

  lemma DrainLoadKeeps(s: State, i: nat)
    requires i < |s.agents| && s.agents[i].pc == DrainLoad && Control(s)
    ensures Control(Goto(s, i, DrainTake(s.pool)))
  {
    var s' := Goto(s, i, DrainTake(s.pool));
    assert HolderFacts(s, s.agents[i].pc);
    Obligations(s, s', i);
    AdmissibleKeeps(s, s', i);
  }

  lemma DrainTakeKeeps(s: State, i: nat, cur: Pool, c: Choice)
    requires i < |s.agents| && s.agents[i].pc == DrainTake(cur) && Control(s)
    ensures Control(DrainTakeStep(s, i, cur, c))
  {
    var s' := DrainTakeStep(s, i, cur, c);
    assert HolderFacts(s, s.agents[i].pc);
    Obligations(s, s', i);
    AdmissibleKeeps(s, s', i);
  }

  lemma PutBackKeeps(s: State, i: nat, left: nat, chain: seq<nat>)
    requires i < |s.agents| && s.agents[i].pc == PutBack(left, chain) && Control(s)
    ensures Control(PutBackStep(s, i, left, chain))
  {
    var s' := PutBackStep(s, i, left, chain);
    assert HolderFacts(s, s.agents[i].pc);
    Obligations(s, s', i);
    AdmissibleKeeps(s, s', i);
  }

  lemma SignalKeeps(s: State, i: nat, chain: seq<nat>, signal: Place)
    requires i < |s.agents| && s.agents[i].pc == Signaling(chain, signal) && Control(s)
    ensures Control(SignalStep(s, i, chain, signal))
  {
    var s' := SignalStep(s, i, chain, signal);
    Obligations(s, s', i);
    AdmissibleKeeps(s, s', i);
  }

  lemma CloseFlagKeeps(s: State, i: nat)
    requires i < |s.agents| && s.agents[i].pc == CloseFlag && Control(s)
    ensures Control(CloseFlagStep(s, i))
  {
    var s' := CloseFlagStep(s, i);
    Obligations(s, s', i);
    AdmissibleKeeps(s, s', i);
  }

  lemma CloseLockKeeps(s: State, i: nat)
    requires i < |s.agents| && s.agents[i].pc == CloseLock && Control(s)
    ensures Control(LockExisting(s, i, CloseTake, Idle))
  {
    var s' := LockExisting(s, i, CloseTake, Idle);
    Obligations(s, s', i);
    AdmissibleKeeps(s, s', i);
  }

  lemma CloseTakeKeeps(s: State, i: nat)
    requires i < |s.agents| && s.agents[i].pc == CloseTake && Control(s)
    ensures Control(CloseTakeStep(s, i))
  {
    var s' := CloseTakeStep(s, i);
    Obligations(s, s', i);
    AdmissibleKeeps(s, s', i);
  }

  lemma ForgetKeeps(s: State, i: nat, k: nat, cur: Pool, c: Choice)
    requires i < |s.agents| && s.agents[i].pc == Forget(k, cur) && Control(s)
    ensures Control(ForgetStep(s, i, k, cur, c))
  {
    var s' := ForgetStep(s, i, k, cur, c);
    Obligations(s, s', i);
    AdmissibleKeeps(s, s', i);
  }

  lemma QuietKeeps(s: State, i: nat, pc: Pc)
    requires i < |s.agents| && Control(s)
    requires (s.agents[i].pc.Load? && pc.Try?) || (s.agents[i].pc.ForgetLoad? && pc.Forget?)
    ensures Control(Goto(s, i, pc))
  {
    var s' := Goto(s, i, pc);
    Obligations(s, s', i);
    AdmissibleKeeps(s, s', i);
  }

  lemma DistributeKeeps(s: State, i: nat, available: nat)
    requires i < |s.agents| && s.agents[i].pc == Distribute(available) && Control(s)
    requires Dealable(s.agents, s.queue)
    ensures Control(DistributeStep(s, i, available))
  {
    var s' := DistributeStep(s, i, available);
    var r := Deal(s.agents, s.queue, available, i);
    assert HolderFacts(s, s.agents[i].pc);
    DealSummary(s.agents, s.queue, available, i);
    assert s'.queue != [] ==> s'.queue[0] == s.queue[r.popped];
    Obligations(s, s', i);
    AdmissibleKeeps(s, s', i);
  }
}

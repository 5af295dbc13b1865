/** The once-cell: agreement on the value, and no lost initializer role. */
module OnceCellProof {
  import opened WaitWord
  import opened WaitList
  import opened Schedules
  import opened OnceCell

  // ----- what a program counter stands for -----

  predicate HoldsLock(pc: Pc) {
    pc.CompleteTake? || pc.RetryPop? || pc.EnqCheck? || pc.EnqPush? || pc.Unlock? || pc.CancelRemove?
  }

  /** The agent has the initializer role. */
  predicate InRole(pc: Pc) { pc.Initializing? || pc.Write? || pc.Complete? || pc.Abort? }

  predicate Parked(pc: Pc) {
    || pc.Waiting? || pc.CancelLock? || pc.CancelRemove? || pc.CancelSpin?
    || (pc.Unlock? && (pc.next.Park? || pc.next.SpinOn?))
  }

  /** The agent may still push its node. */
  predicate Preparing(pc: Pc) {
    || pc.EnqLock? || pc.EnqCheck? || pc.EnqPush?
    || ((pc.Load? || pc.BeginCas?) && pc.future) || (pc.Unlock? && pc.next.Reload? && pc.next.future)
  }

  predicate Spinning(pc: Pc) { pc.CancelSpin? || (pc.Unlock? && pc.next.SpinOn?) }

  /** The popped nodes the agent will still signal. */
  function Chain(pc: Pc): seq<nat> {
    match pc
    case Signaling(chain, _) => chain
    case RetrySignal(heir) => [heir]
    case Unlock(WakeAll(woken, _)) => woken
    case Unlock(WakeOne(heir)) => [heir]
    case _ => []
  }

  /** The agent completed the cell and is past the point of publishing READY. */
  predicate Completed(pc: Pc) {
    || pc.CompleteLock? || pc.CompleteTake? || pc.Signaling? || pc.Return?
    || (pc.Unlock? && pc.next.WakeAll?)
  }

  /** The agent asks for the queue in order to pass the role on. */
  predicate AsksRetry(pc: Pc) { pc.RetryLock? }
  predicate AsksDrain(pc: Pc) { pc.CompleteLock? }
  predicate OwesDrain(pc: Pc) { pc.CompleteLock? || pc.CompleteTake? }

  /** Some step of the agent will still pass the role on or contend for it. */
  predicate Carries(a: Agent) {
    || a.pc.RetryLock? || a.pc.RetryPop? || a.pc.RetrySignal? || (a.pc.Unlock? && a.pc.next.WakeOne?)
    || a.node.place.Retry?
    || Contends(a.pc)
  }

  predicate Contends(pc: Pc) {
    pc.Load? || pc.BeginCas? || pc.EnqLock? || pc.EnqCheck? || (pc.Unlock? && pc.next.Reload?)
  }

  predicate Retrying(s: State) { exists j | 0 <= j < |s.agents| :: AsksRetry(s.agents[j].pc) }
  predicate Draining(s: State) { exists j | 0 <= j < |s.agents| :: AsksDrain(s.agents[j].pc) }
  predicate DrainOwed(s: State) { exists j | 0 <= j < |s.agents| :: OwesDrain(s.agents[j].pc) }
  predicate RoleCarried(s: State) { exists j | 0 <= j < |s.agents| :: Carries(s.agents[j]) }

  // ----- the invariant -----

  predicate LockInv(s: State) {
    && (forall i | 0 <= i < |s.agents| :: HoldsLock(s.agents[i].pc) <==> s.word == Held(i))
    && (s.word.Held? ==> s.word.holder < |s.agents|)
    && (s.word == Null ==> s.queue == [])
    && (s.word == Published ==> s.queue != [])
  }

  predicate RoleInv(s: State) {
    && (forall i | 0 <= i < |s.agents| :: InRole(s.agents[i].pc) <==> s.runner == Someone(i))
    && (s.phase == Running <==> s.runner != Nobody)
    && (s.runner.Someone? ==> s.runner.id < |s.agents|)
  }

  /** The slot is filled exactly once, before READY, and everybody who returns a value returns that one. */
  predicate SlotInv(s: State) {
    && s.writes == (if s.slot.Holds? then 1 else 0)
    && (s.phase == Ready ==> s.slot.Holds?)
    && (s.phase == Empty ==> s.slot == Vacant)
    && (forall i | 0 <= i < |s.agents| ::
          && (s.agents[i].pc.Initializing? || s.agents[i].pc.Write? || s.agents[i].pc.Abort? ==> s.slot == Vacant)
          && (s.agents[i].pc.Complete? ==> s.slot.Holds?)
          && (Completed(s.agents[i].pc) ==> s.phase == Ready)
          && (s.agents[i].node.place.Signaled? ==> s.phase == Ready))
    && (forall k | 0 <= k < |s.returned| :: s.slot == Holds(s.returned[k]))
  }

  predicate PushFacts(s: State, pc: Pc) {
    pc.EnqPush? ==>
      && (s.phase == Empty ==> Retrying(s))
      && (s.phase == Ready ==> Draining(s))
  }

  /** Parked waiters of an EMPTY cell have somebody who carries the role; those of a READY cell, its drain. */
  predicate TakeoverInv(s: State) {
    && (s.phase == Empty && s.queue != [] ==> RoleCarried(s))
    && (s.phase == Ready && s.queue != [] ==> DrainOwed(s))
    && (forall i | 0 <= i < |s.agents| :: PushFacts(s, s.agents[i].pc))
  }

  predicate NodeOk(s: State, i: nat)
    requires i < |s.agents|
  {
    var a := s.agents[i];
    && (Parked(a.pc) <==> !a.node.place.Out?)
    && (Preparing(a.pc) ==> a.node.clean)
    && (a.node.place.Queued? <==> i in s.queue)
    && (Spinning(a.pc) ==> !a.node.place.Queued?)
    && (a.node.place.Popped? ==> a.node.place.taker < |s.agents| && i in Chain(s.agents[a.node.place.taker].pc))
    && Distinct(Chain(a.pc))
    && (forall k | 0 <= k < |Chain(a.pc)| ::
          Chain(a.pc)[k] < |s.agents| && s.agents[Chain(a.pc)[k]].node.place == Popped(i))
  }

  predicate NodeInv(s: State) {
    && (forall i | 0 <= i < |s.agents| :: NodeOk(s, i))
    && (forall k | 0 <= k < |s.queue| :: s.queue[k] < |s.agents|)
    && Distinct(s.queue)
  }

  predicate Inv(s: State) { LockInv(s) && RoleInv(s) && SlotInv(s) && TakeoverInv(s) && NodeInv(s) }

  // ----- steps, by phase -----

  predicate Entering(pc: Pc) {
    || pc.Idle? || pc.Get? || pc.SetCas? || pc.Load? || pc.BeginCas?
    || pc.EnqLock? || pc.EnqCheck? || pc.EnqPush? || pc.Unlock?
  }

  predicate Initiating(pc: Pc) {
    || pc.Initializing? || pc.Write? || pc.Complete? || pc.CompleteLock? || pc.CompleteTake?
    || pc.Signaling? || pc.Return?
  }

  predicate Passing(pc: Pc) { pc.Abort? || pc.RetryLock? || pc.RetryPop? || pc.RetrySignal? }

  lemma LockEntering(s: State, i: nat, c: Choice)
    requires i < |s.agents| && Entering(s.agents[i].pc)
    requires LockInv(s)
    ensures LockInv(Step(s, i, c))
  {
  }

  lemma LockInitiating(s: State, i: nat, c: Choice)
    requires i < |s.agents| && Initiating(s.agents[i].pc)
    requires LockInv(s)
    ensures LockInv(Step(s, i, c))
  {
  }

  lemma LockPassing(s: State, i: nat, c: Choice)
    requires i < |s.agents| && Passing(s.agents[i].pc)
    requires LockInv(s)
    ensures LockInv(Step(s, i, c))
  {
  }

  lemma LockLeaving(s: State, i: nat, c: Choice)
    requires i < |s.agents| && !Entering(s.agents[i].pc) && !Initiating(s.agents[i].pc) && !Passing(s.agents[i].pc)
    requires LockInv(s)
    ensures LockInv(Step(s, i, c))
  {
  }

  lemma RoleEntering(s: State, i: nat, c: Choice)
    requires i < |s.agents| && Entering(s.agents[i].pc)
    requires RoleInv(s)
    ensures RoleInv(Step(s, i, c))
  {
  }

  lemma RoleInitiating(s: State, i: nat, c: Choice)
    requires i < |s.agents| && Initiating(s.agents[i].pc)
    requires RoleInv(s)
    ensures RoleInv(Step(s, i, c))
  {
  }

  lemma RolePassing(s: State, i: nat, c: Choice)
    requires i < |s.agents| && Passing(s.agents[i].pc)
    requires RoleInv(s)
    ensures RoleInv(Step(s, i, c))
  {
  }

  lemma RoleLeaving(s: State, i: nat, c: Choice)
    requires i < |s.agents| && !Entering(s.agents[i].pc) && !Initiating(s.agents[i].pc) && !Passing(s.agents[i].pc)
    requires RoleInv(s)
    ensures RoleInv(Step(s, i, c))
  {
  }

  lemma SlotEntering(s: State, i: nat, c: Choice)
    requires i < |s.agents| && Entering(s.agents[i].pc)
    requires RoleInv(s) && SlotInv(s)
    ensures SlotInv(Step(s, i, c))
  {
  }

  lemma SlotInitiating(s: State, i: nat, c: Choice)
    requires i < |s.agents| && Initiating(s.agents[i].pc)
    requires RoleInv(s) && SlotInv(s)
    ensures SlotInv(Step(s, i, c))
  {
  }

  lemma SlotPassing(s: State, i: nat, c: Choice)
    requires i < |s.agents| && Passing(s.agents[i].pc)
    requires RoleInv(s) && SlotInv(s)
    ensures SlotInv(Step(s, i, c))
  {
  }

  lemma SlotWaiting(s: State, i: nat, future: bool, c: Choice)
    requires i < |s.agents| && s.agents[i].pc == Waiting(future)
    requires RoleInv(s) && SlotInv(s)
    ensures SlotInv(WaitStep(s, i, future, c))
  {
  }

  lemma SlotLeaving(s: State, i: nat, c: Choice)
    requires i < |s.agents| && !Entering(s.agents[i].pc) && !Initiating(s.agents[i].pc) && !Passing(s.agents[i].pc)
    requires !s.agents[i].pc.Waiting?
    requires RoleInv(s) && SlotInv(s)
    ensures SlotInv(Step(s, i, c))
  {
  }

  /** Only agent `i` moves, and nobody else loses a retry signal. */
  predicate OnlyMoves(s: State, s': State, i: nat) {
    && |s'.agents| == |s.agents| && i < |s.agents|
    && forall j | 0 <= j < |s.agents| && j != i ::
         s'.agents[j].pc == s.agents[j].pc && (s.agents[j].node.place.Retry? ==> s'.agents[j].node.place.Retry?)
  }

  /** An obligation of another agent stays; one of the stepping agent stays if its new position has it. */
  lemma Obligations(s: State, s': State, i: nat)
    requires OnlyMoves(s, s', i)
    ensures Retrying(s) && (AsksRetry(s.agents[i].pc) ==> AsksRetry(s'.agents[i].pc)) ==> Retrying(s')
    ensures Draining(s) && (AsksDrain(s.agents[i].pc) ==> AsksDrain(s'.agents[i].pc)) ==> Draining(s')
    ensures DrainOwed(s) && (OwesDrain(s.agents[i].pc) ==> OwesDrain(s'.agents[i].pc)) ==> DrainOwed(s')
    ensures RoleCarried(s) && (Carries(s.agents[i]) ==> Carries(s'.agents[i])) ==> RoleCarried(s')
    ensures Retrying(s) ==> RoleCarried(s)
    ensures Draining(s) ==> DrainOwed(s)
  {
    if Retrying(s) {
      var j :| 0 <= j < |s.agents| && AsksRetry(s.agents[j].pc);
      assert Carries(s.agents[j]);
      assert j != i ==> AsksRetry(s'.agents[j].pc);
    }
    if Draining(s) {
      var j :| 0 <= j < |s.agents| && AsksDrain(s.agents[j].pc);
      assert OwesDrain(s.agents[j].pc);
      assert j != i ==> AsksDrain(s'.agents[j].pc);
    }
    if DrainOwed(s) {
      var j :| 0 <= j < |s.agents| && OwesDrain(s.agents[j].pc);
      assert j != i ==> OwesDrain(s'.agents[j].pc);
    }
    if RoleCarried(s) {
      var j :| 0 <= j < |s.agents| && Carries(s.agents[j]);
      assert j != i ==> Carries(s'.agents[j]);
    }
  }

  predicate TakeoverMove(s: State, s': State, i: nat) {
    && OnlyMoves(s, s', i)
    && (s'.phase == Empty && s'.queue != [] ==> RoleCarried(s'))
    && (s'.phase == Ready && s'.queue != [] ==> DrainOwed(s'))
    && PushFacts(s', s'.agents[i].pc)
    // another agent about to push is not misled
    && (s.word.Held? && s.word.holder != i ==>
          && (Retrying(s) ==> Retrying(s')) && (Draining(s) ==> Draining(s'))
          && (s'.phase == s.phase || (s'.phase == Empty && Retrying(s')) || (s'.phase == Ready && Draining(s'))
              || s'.phase == Running))
  }

  lemma TakeoverKeeps(s: State, s': State, i: nat)
    requires LockInv(s) && TakeoverInv(s) && TakeoverMove(s, s', i)
    ensures TakeoverInv(s')
  {
    forall j | 0 <= j < |s'.agents|
      ensures PushFacts(s', s'.agents[j].pc)
    {
      if j != i && s.agents[j].pc.EnqPush? {
        assert s.word == Held(j);
        assert PushFacts(s, s.agents[j].pc);
      }
    }
  }

  lemma TakeoverUnlock(s: State, i: nat, next: Then)
    requires i < |s.agents| && s.agents[i].pc == Unlock(next)
    requires LockInv(s) && TakeoverInv(s) && NodeOk(s, i)
    ensures TakeoverInv(UnlockStep(s, i, next))
  {
    var s' := UnlockStep(s, i, next);
    Obligations(s, s', i);
    TakeoverKeeps(s, s', i);
  }

  lemma TakeoverPush(s: State, i: nat, c: Choice)
    requires i < |s.agents| && s.agents[i].pc.EnqPush?
    requires LockInv(s) && RoleInv(s) && TakeoverInv(s) && NodeOk(s, i)
    ensures TakeoverInv(Step(s, i, c))
  {
    var s' := Step(s, i, c);
    assert PushFacts(s, s.agents[i].pc);
    Obligations(s, s', i);
    TakeoverKeeps(s, s', i);
  }

  lemma TakeoverBegin(s: State, i: nat, won: Pc, lost: Pc)
    requires i < |s.agents| && ((s.agents[i].pc.BeginCas? && lost.Load?) || (s.agents[i].pc.SetCas? && lost.Idle?))
    requires (won.Initializing? || won.Write?) && LockInv(s) && TakeoverInv(s) && NodeOk(s, i)
    ensures TakeoverInv(BeginStep(s, i, won, lost))
  {
    var s' := BeginStep(s, i, won, lost);
    Obligations(s, s', i);
    TakeoverKeeps(s, s', i);
  }

  lemma TakeoverLoad(s: State, i: nat, future: bool)
    requires i < |s.agents| && s.agents[i].pc == Load(future) && LockInv(s) && TakeoverInv(s) && NodeOk(s, i)
    ensures TakeoverInv(LoadStep(s, i, future))
  {
    var s' := LoadStep(s, i, future);
    Obligations(s, s', i);
    TakeoverKeeps(s, s', i);
  }

  lemma TakeoverGet(s: State, i: nat)
    requires i < |s.agents| && s.agents[i].pc.Get?
    requires LockInv(s) && TakeoverInv(s) && NodeOk(s, i)
    ensures TakeoverInv(Goto(s, i, if s.phase == Ready then Return else Idle))
  {
    var s' := Goto(s, i, if s.phase == Ready then Return else Idle);
    Obligations(s, s', i);
    TakeoverKeeps(s, s', i);
  }

  lemma TakeoverCalling(s: State, i: nat, c: Choice)
    requires i < |s.agents| && s.agents[i].pc.Idle?
    requires LockInv(s) && TakeoverInv(s) && NodeOk(s, i)
    ensures TakeoverInv(Step(s, i, c))
  {
    var s' := Step(s, i, c);
    Obligations(s, s', i);
    TakeoverKeeps(s, s', i);
  }

  lemma TakeoverEntering(s: State, i: nat, c: Choice)
    requires i < |s.agents| && (s.agents[i].pc.EnqLock? || s.agents[i].pc.EnqCheck?)
    requires LockInv(s) && TakeoverInv(s) && NodeOk(s, i)
    ensures TakeoverInv(Step(s, i, c))
  {
    var s' := Step(s, i, c);
    Obligations(s, s', i);
    TakeoverKeeps(s, s', i);
  }

  lemma TakeoverTake(s: State, i: nat, getter: bool)
    requires i < |s.agents| && s.agents[i].pc == CompleteTake(getter)
    requires LockInv(s) && TakeoverInv(s) && NodeOk(s, i)
    ensures TakeoverInv(CompleteTakeStep(s, i, getter))
  {
    var s' := CompleteTakeStep(s, i, getter);
    Obligations(s, s', i);
    TakeoverKeeps(s, s', i);
  }

  lemma TakeoverSignal(s: State, i: nat, chain: seq<nat>, getter: bool)
    requires i < |s.agents| && s.agents[i].pc == Signaling(chain, getter)
    requires LockInv(s) && TakeoverInv(s) && NodeOk(s, i)
    ensures TakeoverInv(SignalStep(s, i, chain, getter))
  {
    var s' := SignalStep(s, i, chain, getter);
    Obligations(s, s', i);
    TakeoverKeeps(s, s', i);
  }

  /** Publishing READY, the completer takes on the drain. */
  lemma TakeoverComplete(s: State, i: nat, getter: bool)
    requires i < |s.agents| && s.agents[i].pc == Complete(getter) && LockInv(s) && TakeoverInv(s) && NodeOk(s, i)
    ensures TakeoverInv(Goto(s, i, CompleteLock(getter)).(phase := Ready, runner := Nobody))
  {
    var s' := Goto(s, i, CompleteLock(getter)).(phase := Ready, runner := Nobody);
    Obligations(s, s', i);
    assert AsksDrain(s'.agents[i].pc) && OwesDrain(s'.agents[i].pc);
    TakeoverKeeps(s, s', i);
  }

  lemma TakeoverCompleteLock(s: State, i: nat, getter: bool)
    requires i < |s.agents| && s.agents[i].pc == CompleteLock(getter) && LockInv(s) && TakeoverInv(s) && NodeOk(s, i)
    ensures TakeoverInv(LockExisting(s, i, CompleteTake(getter), Finished(getter)))
  {
    var s' := LockExisting(s, i, CompleteTake(getter), Finished(getter));
    Obligations(s, s', i);
    TakeoverKeeps(s, s', i);
  }

  lemma TakeoverInitiating(s: State, i: nat, c: Choice)
    requires i < |s.agents| && (s.agents[i].pc.Initializing? || s.agents[i].pc.Write? || s.agents[i].pc.Return?)
    requires LockInv(s) && RoleInv(s) && TakeoverInv(s) && NodeOk(s, i)
    ensures TakeoverInv(Step(s, i, c))
  {
    var s' := Step(s, i, c);
    Obligations(s, s', i);
    TakeoverKeeps(s, s', i);
  }

  lemma TakeoverAbort(s: State, i: nat)
    requires i < |s.agents| && s.agents[i].pc == Abort
    requires LockInv(s) && TakeoverInv(s) && NodeOk(s, i)
    ensures TakeoverInv(Goto(s, i, RetryLock).(phase := Empty, runner := Nobody))
  {
    var s' := Goto(s, i, RetryLock).(phase := Empty, runner := Nobody);
    Obligations(s, s', i);
    TakeoverKeeps(s, s', i);
  }

  lemma TakeoverRetryLock(s: State, i: nat)
    requires i < |s.agents| && s.agents[i].pc == RetryLock
    requires LockInv(s) && TakeoverInv(s) && NodeOk(s, i)
    ensures TakeoverInv(LockExisting(s, i, RetryPop, Idle))
  {
    var s' := LockExisting(s, i, RetryPop, Idle);
    Obligations(s, s', i);
    TakeoverKeeps(s, s', i);
  }

  lemma TakeoverRetryPop(s: State, i: nat)
    requires i < |s.agents| && s.agents[i].pc == RetryPop
    requires LockInv(s) && TakeoverInv(s) && NodeOk(s, i) && NodeInv(s)
    ensures TakeoverInv(RetryPopStep(s, i))
  {
    var s' := RetryPopStep(s, i);
    assert s.queue != [] ==> NodeOk(s, s.queue[0]);
    Obligations(s, s', i);
    TakeoverKeeps(s, s', i);
  }

  lemma TakeoverRetrySignal(s: State, i: nat, heir: nat)
    requires i < |s.agents| && s.agents[i].pc == RetrySignal(heir)
    requires LockInv(s) && TakeoverInv(s) && NodeOk(s, i)
    ensures TakeoverInv(RetrySignalStep(s, i, heir))
  {
    var s' := RetrySignalStep(s, i, heir);
    assert Chain(s.agents[i].pc)[0] == heir;
    assert Carries(s'.agents[heir]);
    Obligations(s, s', i);
    TakeoverKeeps(s, s', i);
  }

  lemma TakeoverWait(s: State, i: nat, future: bool, c: Choice)
    requires i < |s.agents| && s.agents[i].pc == Waiting(future)
    requires LockInv(s) && TakeoverInv(s) && NodeOk(s, i) && SlotInv(s)
    ensures TakeoverInv(WaitStep(s, i, future, c))
  {
    var s' := WaitStep(s, i, future, c);
    Obligations(s, s', i);
    TakeoverKeeps(s, s', i);
  }

  lemma TakeoverCancelLock(s: State, i: nat)
    requires i < |s.agents| && s.agents[i].pc == CancelLock
    requires LockInv(s) && TakeoverInv(s) && NodeOk(s, i)
    ensures TakeoverInv(LockExisting(s, i, CancelRemove, CancelSpin))
  {
    var s' := LockExisting(s, i, CancelRemove, CancelSpin);
    Obligations(s, s', i);
    TakeoverKeeps(s, s', i);
  }

  lemma TakeoverCancel(s: State, i: nat)
    requires i < |s.agents| && s.agents[i].pc == CancelRemove
    requires LockInv(s) && TakeoverInv(s) && NodeOk(s, i)
    ensures TakeoverInv(CancelStep(s, i))
  {
    var s' := CancelStep(s, i);
    Obligations(s, s', i);
    TakeoverKeeps(s, s', i);
  }

  lemma TakeoverCancelSpin(s: State, i: nat)
    requires i < |s.agents| && s.agents[i].pc == CancelSpin
    requires LockInv(s) && TakeoverInv(s) && NodeOk(s, i) && SlotInv(s)
    ensures TakeoverInv(CancelSpinStep(s, i))
  {
    var s' := CancelSpinStep(s, i);
    Obligations(s, s', i);
    TakeoverKeeps(s, s', i);
  }

  lemma TakeoverStep(s: State, i: nat, c: Choice)
    requires i < |s.agents| && Inv(s)
    ensures TakeoverInv(Step(s, i, c))
  {
    assert NodeOk(s, i);
    var pc := s.agents[i].pc;
    if pc.Unlock? {
      TakeoverUnlock(s, i, pc.next);
    } else if pc.EnqPush? {
      TakeoverPush(s, i, c);
    } else if pc.BeginCas? {
      TakeoverBegin(s, i, Initializing(pc.future), Load(pc.future));
    } else if pc.SetCas? {
      TakeoverBegin(s, i, Write(pc.value, false), Idle);
    } else if pc.EnqLock? || pc.EnqCheck? {
      TakeoverEntering(s, i, c);
    } else if pc.Load? {
      TakeoverLoad(s, i, pc.future);
    } else if pc.Get? {
      TakeoverGet(s, i);
    } else if Entering(pc) {
      TakeoverCalling(s, i, c);
    } else if pc.CompleteTake? {
      TakeoverTake(s, i, pc.getter);
    } else if pc.Signaling? {
      TakeoverSignal(s, i, pc.chain, pc.getter);
    } else if pc.Complete? {
      TakeoverComplete(s, i, pc.getter);
    } else if pc.CompleteLock? {
      TakeoverCompleteLock(s, i, pc.getter);
    } else if Initiating(pc) {
      TakeoverInitiating(s, i, c);
    } else {
      TakeoverRest(s, i, c);
    }
  }

  lemma TakeoverRest(s: State, i: nat, c: Choice)
    requires i < |s.agents| && !Entering(s.agents[i].pc) && !Initiating(s.agents[i].pc)
    requires LockInv(s) && TakeoverInv(s) && SlotInv(s) && NodeInv(s)
    ensures TakeoverInv(Step(s, i, c))
  {
    assert NodeOk(s, i);
    match s.agents[i].pc
    case Abort => TakeoverAbort(s, i);
    case RetryLock => TakeoverRetryLock(s, i);
    case RetryPop => TakeoverRetryPop(s, i);
    case RetrySignal(heir) => TakeoverRetrySignal(s, i, heir);
    case Waiting(future) => TakeoverWait(s, i, future, c);
    case CancelLock => TakeoverCancelLock(s, i);
    case CancelRemove => TakeoverCancel(s, i);
    case CancelSpin => TakeoverCancelSpin(s, i);
  }

  // ----- nodes -----

  /** The stepping agent changes its position, but neither a node nor the queue. */
  predicate Quiet(s: State, s': State, i: nat) {
    && i < |s.agents| && |s'.agents| == |s.agents|
    && s'.agents == s.agents[i := s'.agents[i]] && s'.agents[i].node.place == s.agents[i].node.place
    && s'.queue == s.queue && NodeOk(s', i)
    && Chain(s'.agents[i].pc) == Chain(s.agents[i].pc)
  }

  lemma QuietKeeps(s: State, s': State, i: nat)
    requires NodeInv(s) && Quiet(s, s', i)
    ensures NodeInv(s')
  {
    forall j | 0 <= j < |s'.agents|
      ensures NodeOk(s', j)
    {
      assert NodeOk(s, j);
    }
  }

  lemma EnteringQuiet(s: State, i: nat, c: Choice)
    requires i < |s.agents| && NodeOk(s, i) && Entering(s.agents[i].pc)
    requires !s.agents[i].pc.EnqPush? && !s.agents[i].pc.Unlock?
    ensures Quiet(s, Step(s, i, c), i)
  {
  }

  lemma UnlockQuiet(s: State, i: nat, next: Then)
    requires i < |s.agents| && NodeOk(s, i) && s.agents[i].pc == Unlock(next)
    ensures Quiet(s, UnlockStep(s, i, next), i)
  {
  }

  lemma InitQuiet(s: State, i: nat, c: Choice)
    requires i < |s.agents| && NodeOk(s, i)
    requires var pc := s.agents[i].pc; pc.Initializing? || pc.Write? || pc.Complete? || pc.Return? || pc.Abort?
    ensures Quiet(s, Step(s, i, c), i)
  {
  }

  lemma LockQuiet(s: State, i: nat, locked: Pc, absent: Pc)
    requires i < |s.agents| && NodeOk(s, i) && LockInv(s) && !Preparing(locked) && !Preparing(absent)
    requires Chain(locked) == Chain(absent) == Chain(s.agents[i].pc) == []
    requires Parked(locked) == Parked(absent) == Parked(s.agents[i].pc)
    requires !Spinning(locked)
    ensures Quiet(s, LockExisting(s, i, locked, absent), i) || LockExisting(s, i, locked, absent) == s
  {
  }

  /** Every push finds a node without a stale link, also after a retry. */
  lemma PushNodes(s: State, i: nat, c: Choice)
    requires NodeInv(s) && i < |s.agents| && s.agents[i].pc.EnqPush?
    ensures NodeInv(Step(s, i, c))
    ensures s.agents[i].node == FreshNode
  {
    var s' := Step(s, i, c);
    assert NodeOk(s, i);
    assert i !in s.queue;
    forall j | 0 <= j < |s'.agents|
      ensures NodeOk(s', j)
    {
      assert NodeOk(s, j);
    }
  }

  lemma DepartNodes(s: State, i: nat, pc: Pc)
    requires NodeInv(s) && i < |s.agents|
    requires s.agents[i].node.place.Signaled? || s.agents[i].node.place.Retry?
    requires s.agents[i].pc.Waiting? || s.agents[i].pc.CancelSpin?
    requires !Parked(pc) && Chain(pc) == []
    ensures !Preparing(pc) ==> NodeInv(Depart(s, i, pc))
    ensures NodeInv(Renew(s, i, pc))
  {
    DepartsKeeps(s, Renew(s, i, pc), i);
    if !Preparing(pc) {
      DepartsKeeps(s, Depart(s, i, pc), i);
    }
  }

  lemma DepartsKeeps(s: State, s': State, i: nat)
    requires NodeInv(s) && i < |s.agents|
    requires s.agents[i].node.place.Signaled? || s.agents[i].node.place.Retry?
    requires s.agents[i].pc.Waiting? || s.agents[i].pc.CancelSpin?
    requires |s'.agents| == |s.agents| && s'.agents == s.agents[i := s'.agents[i]] && s'.queue == s.queue
    requires s'.agents[i].node.place.Out? && !Parked(s'.agents[i].pc) && Chain(s'.agents[i].pc) == []
    requires Preparing(s'.agents[i].pc) ==> s'.agents[i].node.clean
    ensures NodeInv(s')
  {
    assert NodeOk(s, i);
    forall j | 0 <= j < |s'.agents|
      ensures NodeOk(s', j)
    {
      assert NodeOk(s, j);
    }
  }

  lemma CancelNodes(s: State, i: nat)
    requires NodeInv(s) && i < |s.agents| && s.agents[i].pc == CancelRemove
    ensures NodeInv(CancelStep(s, i))
  {
    var s' := CancelStep(s, i);
    assert NodeOk(s, i);
    if i in s.queue {
      WithoutMembers(s.queue, i);
      assert forall k | 0 <= k < |s'.queue| :: s'.queue[k] in s.queue;
      forall j | 0 <= j < |s'.agents|
        ensures NodeOk(s', j)
      {
        assert NodeOk(s, j);
      }
    } else {
      QuietKeeps(s, s', i);
    }
  }

  lemma RetryPopNodes(s: State, i: nat)
    requires NodeInv(s) && i < |s.agents| && s.agents[i].pc == RetryPop
    ensures NodeInv(RetryPopStep(s, i))
  {
    var s' := RetryPopStep(s, i);
    assert NodeOk(s, i);
    if s.queue == [] {
      QuietKeeps(s, s', i);
    } else {
      forall j | 0 <= j < |s'.agents|
        ensures NodeOk(s', j)
      {
        RetryPopNode(s, i, j);
      }
    }
  }

  lemma RetryPopNode(s: State, i: nat, j: nat)
    requires NodeInv(s) && i < |s.agents| && s.agents[i].pc == RetryPop && s.queue != [] && j < |s.agents|
    ensures NodeOk(RetryPopStep(s, i), j)
  {
    var head := s.queue[0];
    assert NodeOk(s, i) && NodeOk(s, j) && NodeOk(s, head);
    TailMembers(s.queue);
    if j == head {
    } else if j == i {
    } else {
      assert head !in Chain(s.agents[j].pc);
    }
  }

  lemma RetrySignalNodes(s: State, i: nat, heir: nat)
    requires NodeInv(s) && i < |s.agents| && s.agents[i].pc == RetrySignal(heir)
    ensures NodeInv(RetrySignalStep(s, i, heir))
  {
    var s' := RetrySignalStep(s, i, heir);
    assert NodeOk(s, i);
    assert Chain(s.agents[i].pc)[0] == heir;
    assert NodeOk(s, heir);
    forall j | 0 <= j < |s'.agents|
      ensures NodeOk(s', j)
    {
      assert NodeOk(s, j);
    }
  }

  lemma CompleteTakeNodes(s: State, i: nat, getter: bool)
    requires NodeInv(s) && i < |s.agents| && s.agents[i].pc == CompleteTake(getter)
    ensures NodeInv(CompleteTakeStep(s, i, getter))
  {
    var s' := CompleteTakeStep(s, i, getter);
    assert NodeOk(s, i);
    forall k | 0 <= k < |s.queue|
      ensures s.agents[s.queue[k]].node.place.Queued?
    {
      assert NodeOk(s, s.queue[k]);
    }
    forall j | 0 <= j < |s'.agents|
      ensures NodeOk(s', j)
    {
      assert NodeOk(s, j);
    }
  }

  lemma SignalNodes(s: State, i: nat, chain: seq<nat>, getter: bool)
    requires NodeInv(s) && i < |s.agents| && s.agents[i].pc == Signaling(chain, getter)
    ensures NodeInv(SignalStep(s, i, chain, getter))
  {
    var s' := SignalStep(s, i, chain, getter);
    assert NodeOk(s, i);
    if chain == [] {
      QuietKeeps(s, s', i);
    } else {
      assert NodeOk(s, chain[0]);
      forall j | 0 <= j < |s'.agents|
        ensures NodeOk(s', j)
      {
        SignalNode(s, i, chain, getter, j);
      }
    }
  }

  lemma SignalNode(s: State, i: nat, chain: seq<nat>, getter: bool, j: nat)
    requires NodeInv(s) && i < |s.agents| && s.agents[i].pc == Signaling(chain, getter) && chain != [] && j < |s.agents|
    ensures NodeOk(SignalStep(s, i, chain, getter), j)
  {
    assert NodeOk(s, i) && NodeOk(s, j) && NodeOk(s, chain[0]);
    if j == i {
      assert Chain(SignalStep(s, i, chain, getter).agents[i].pc) == chain[1..];
    } else if j != chain[0] {
      SignalOther(s, i, chain, getter, j);
    }
  }

  lemma SignalOther(s: State, i: nat, chain: seq<nat>, getter: bool, j: nat)
    requires NodeInv(s) && i < |s.agents| && s.agents[i].pc == Signaling(chain, getter) && chain != [] && j < |s.agents|
    requires j != i && j != chain[0]
    ensures NodeOk(SignalStep(s, i, chain, getter), j)
  {
    assert NodeOk(s, i) && NodeOk(s, j);
    assert chain[0] !in Chain(s.agents[j].pc);
    assert j in chain ==> j in chain[1..];
  }

  lemma NodeStep(s: State, i: nat, c: Choice)
    requires NodeInv(s) && LockInv(s) && i < |s.agents|
    ensures NodeInv(Step(s, i, c))
  {
    var s' := Step(s, i, c);
    var pc := s.agents[i].pc;
    assert NodeOk(s, i);
    if pc.EnqPush? {
      PushNodes(s, i, c);
    } else if pc.Unlock? {
      UnlockQuiet(s, i, pc.next);
      QuietKeeps(s, s', i);
    } else if Entering(pc) {
      EnteringQuiet(s, i, c);
      QuietKeeps(s, s', i);
    } else if pc.Waiting? {
      WaitNodes(s, i, pc.future, c);
    } else if pc.CancelSpin? {
      SpinNodes(s, i);
    } else {
      NodeStepRest(s, i, c);
    }
  }

  lemma LockNodes(s: State, i: nat, locked: Pc, absent: Pc)
    requires NodeInv(s) && LockInv(s) && i < |s.agents| && !Preparing(locked) && !Preparing(absent)
    requires Chain(locked) == Chain(absent) == Chain(s.agents[i].pc) == []
    requires Parked(locked) == Parked(absent) == Parked(s.agents[i].pc) && !Spinning(locked)
    ensures NodeInv(LockExisting(s, i, locked, absent))
  {
    assert NodeOk(s, i);
    LockQuiet(s, i, locked, absent);
    if !s.word.Held? {
      QuietKeeps(s, LockExisting(s, i, locked, absent), i);
    }
  }

  lemma WaitNodes(s: State, i: nat, future: bool, c: Choice)
    requires NodeInv(s) && i < |s.agents| && s.agents[i].pc == Waiting(future)
    ensures NodeInv(WaitStep(s, i, future, c))
  {
    var s' := WaitStep(s, i, future, c);
    assert NodeOk(s, i);
    if s.agents[i].node.place.Signaled? || s.agents[i].node.place.Retry? {
      DepartNodes(s, i, s'.agents[i].pc);
    } else {
      QuietKeeps(s, s', i);
    }
  }

  lemma SpinNodes(s: State, i: nat)
    requires NodeInv(s) && i < |s.agents| && s.agents[i].pc.CancelSpin?
    ensures NodeInv(CancelSpinStep(s, i))
  {
    if s.agents[i].node.place.Signaled? || s.agents[i].node.place.Retry? {
      DepartNodes(s, i, CancelSpinStep(s, i).agents[i].pc);
    }
  }

  lemma NodeStepRest(s: State, i: nat, c: Choice)
    requires NodeInv(s) && LockInv(s) && i < |s.agents|
    requires !Entering(s.agents[i].pc) && !s.agents[i].pc.Waiting? && !s.agents[i].pc.CancelSpin?
    ensures NodeInv(Step(s, i, c))
  {
    var pc := s.agents[i].pc;
    assert NodeOk(s, i);
    if pc.CancelRemove? {
      CancelNodes(s, i);
    } else if pc.RetryPop? {
      RetryPopNodes(s, i);
    } else if pc.RetrySignal? {
      RetrySignalNodes(s, i, pc.heir);
    } else if pc.CompleteTake? {
      CompleteTakeNodes(s, i, pc.getter);
    } else if pc.Signaling? {
      SignalNodes(s, i, pc.chain, pc.getter);
    } else if pc.CompleteLock? {
      LockNodes(s, i, CompleteTake(pc.getter), Finished(pc.getter));
    } else if pc.RetryLock? {
      LockNodes(s, i, RetryPop, Idle);
    } else if pc.CancelLock? {
      LockNodes(s, i, CancelRemove, CancelSpin);
    } else {
      InitQuiet(s, i, c);
      QuietKeeps(s, Step(s, i, c), i);
    }
  }

  // ----- every run -----

  lemma StepKeeps(s: State, i: nat, c: Choice)
    requires Inv(s)
    ensures Inv(Step(s, i, c))
  {
    if i < |s.agents| {
      TakeoverStep(s, i, c);
      NodeStep(s, i, c);
      var pc := s.agents[i].pc;
      if Entering(pc) {
        LockEntering(s, i, c);
        RoleEntering(s, i, c);
        SlotEntering(s, i, c);
      } else if Initiating(pc) {
        LockInitiating(s, i, c);
        RoleInitiating(s, i, c);
        SlotInitiating(s, i, c);
      } else if Passing(pc) {
        LockPassing(s, i, c);
        RolePassing(s, i, c);
        SlotPassing(s, i, c);
      } else {
        LockLeaving(s, i, c);
        RoleLeaving(s, i, c);
        if pc.Waiting? {
          SlotWaiting(s, i, pc.future, c);
        } else {
          SlotLeaving(s, i, c);
        }
      }
    }
  }

  /** The invariant holds after every schedule. */
  lemma {:induction false} RunHolds(s: State, schedule: seq<(nat, Choice)>)
    requires Init(s)
    ensures Inv(Run(s, schedule))
    decreases |schedule|
  {
    if schedule != [] {
      var last := schedule[|schedule| - 1];
      RunHolds(s, schedule[..|schedule| - 1]);
      StepKeeps(Run(s, schedule[..|schedule| - 1]), last.0, last.1);
    }
  }

  /** A waiter is reachable by whoever must wake it; one that spins has really been popped. */
  predicate Tracked(s: State, i: nat)
    requires i < |s.agents|
  {
    var place := s.agents[i].node.place;
    && !place.Out?
    && (place.Queued? ==> i in s.queue && !Spinning(s.agents[i].pc))
    && (place.Popped? ==> place.taker < |s.agents| && i in Chain(s.agents[place.taker].pc))
  }

  /**
    Takeover never loses the role: parked waiters of an EMPTY cell have an agent that still owes a wake,
    holds an unconsumed retry signal, or contends for the role; those of a READY cell have the completer's
    drain; and a parked waiter is queued, popped by an agent that will signal it, or signaled.
   */
  lemma RoleNeverLost(s: State, schedule: seq<(nat, Choice)>)
    requires Init(s)
    ensures var e := Run(s, schedule);
            && (e.phase == Empty && e.queue != [] ==> RoleCarried(e))
            && (e.phase == Running ==>
                  e.runner.Someone? && e.runner.id < |e.agents| && InRole(e.agents[e.runner.id].pc))
            && (e.phase == Ready && e.queue != [] ==> DrainOwed(e))
            && (forall i | 0 <= i < |e.agents| && Parked(e.agents[i].pc) :: Tracked(e, i))
  {
    RunHolds(s, schedule);
    var e := Run(s, schedule);
    forall i | 0 <= i < |e.agents| && Parked(e.agents[i].pc)
      ensures Tracked(e, i)
    {
      assert NodeOk(e, i);
    }
  }

  /**
    Agreement: at most one agent has the role, the slot is written at most once, a getter about to return
    and a signaled waiter find the cell READY and the slot written, and every value any caller has returned
    is the one in the slot.
   */
  lemma Agreement(s: State, schedule: seq<(nat, Choice)>)
    requires Init(s)
    ensures var e := Run(s, schedule);
            && (forall i, j | 0 <= i < |e.agents| && 0 <= j < |e.agents| ::
                  InRole(e.agents[i].pc) && InRole(e.agents[j].pc) ==> i == j)
            && e.writes <= 1
            && (forall i | 0 <= i < |e.agents| && e.agents[i].pc.Return? :: e.phase == Ready && e.slot.Holds?)
            && (forall i | 0 <= i < |e.agents| && e.agents[i].node.place.Signaled? :: e.phase == Ready && e.slot.Holds?)
            && (forall k | 0 <= k < |e.returned| :: e.slot == Holds(e.returned[k]))
  {
    RunHolds(s, schedule);
  }

  lemma {:induction false} SlotStable(s: State, before: seq<(nat, Choice)>, after: seq<(nat, Choice)>)
    requires Init(s)
    ensures var b := Run(s, before);
            var e := Run(s, before + after);
            && (b.slot.Holds? ==> e.slot == b.slot)
            && (b.phase == Ready ==> e.phase == Ready)
            && b.returned <= e.returned
    decreases |after|
  {
    if after == [] {
      assert before + after == before;
    } else {
      var shorter := after[..|after| - 1];
      var last := after[|after| - 1];
      DropLast(before, after);
      SlotStable(s, before, shorter);
      RunHolds(s, before + shorter);
      SlotStep(Run(s, before + shorter), last.0, last.1);
    }
  }

  /** The slot keeps its value, READY stays, and returned values are only added. */
  predicate SlotKept(s: State, s': State) {
    && (s.slot.Holds? ==> s'.slot == s.slot)
    && (s.phase == Ready ==> s'.phase == Ready)
    && s.returned <= s'.returned
  }

  lemma SlotStep(s: State, i: nat, c: Choice)
    requires SlotInv(s) && RoleInv(s)
    ensures SlotKept(s, Step(s, i, c))
  {
    if i < |s.agents| && !Entering(s.agents[i].pc) && !Initiating(s.agents[i].pc) {
      SlotStepLate(s, i, c);
    }
  }

  lemma SlotStepLate(s: State, i: nat, c: Choice)
    requires SlotInv(s) && RoleInv(s) && i < |s.agents| && !Entering(s.agents[i].pc) && !Initiating(s.agents[i].pc)
    ensures SlotKept(s, Step(s, i, c))
  {
  }

  /** Two getters, however far apart in a run, return the same value. */
  lemma GettersAgree(s: State, before: seq<(nat, Choice)>, after: seq<(nat, Choice)>, k: nat, m: nat)
    requires Init(s)
    requires k < |Run(s, before).returned| && m < |Run(s, before + after).returned|
    ensures Run(s, before).returned[k] == Run(s, before + after).returned[m]
  {
    SlotStable(s, before, after);
    Agreement(s, before);
    Agreement(s, before + after);
  }
}

/** Nobody waits needlessly: an agent of the semaphore stops only for the lock, for a signal, or because it is done. */
module SemaphoreProgress {
  import opened WaitWord
  import opened Semaphore
  import opened SemaphoreInvariant
  import opened SemaphoreSteps
  import opened SemaphoreTheorems

  predicate Locks(pc: Pc) { pc.EnqLock? || pc.CancelLock? || pc.DrainLock? || pc.CloseLock? }

  predicate HasSignal(place: Place) { place.Granted? || place.Shut? }

  /** The agent has nothing to do, needs the tag-lock another one holds, or waits for a signal. */
  predicate Resting(s: State, i: nat)
    requires i < |s.agents|
  {
    var a := s.agents[i];
    || a.pc.Idle?
    || (Locks(a.pc) && s.word.Held?)
    || ((a.pc.Waiting? || a.pc.CancelSpin?) && !HasSignal(a.node.place))
  }

  /** One more for an agent whose view of the pool is out of date. */
  function Stale(s: State, cur: Pool): nat { if s.pool == cur then 0 else 1 }

  function ThenRank(q: nat, next: Then): nat {
    match next
    case Got(_) => 0
    case Park(_) => 11 + q
    case SpinFor(_) => 11 + q
    case GiveBack(_) => 10 + q
    case Redrain => 9 + q
    case Wake(woken, _) => 1 + |woken|
    case Leave => 0
  }

  /** How many steps agent `i` needs at most until it rests, if nobody else moves. */
  function Rank(s: State, i: nat): nat
    requires i < |s.agents|
  {
    var q := |s.queue|;
    match s.agents[i].pc
    case Idle => 0
    case Load(_, stage) => (match stage case Only => 3 case First => 24 + q case Second => 21 + q)
    case Try(_, stage, cur) => Stale(s, cur) + (match stage case Only => 1 case First => 22 + q case Second => 19 + q)
    case EnqLock(_) => 18 + q
    case EnqFlag(_, _) => 17 + q
    case EnqLoop(_, _, cur) => 15 + q + Stale(s, cur)
    case Unlock(next) => 2 + ThenRank(q, next)
    case UnlockNull(next) => 1 + ThenRank(q, next)
    case Waiting(_) => 11 + q
    case CancelLock(_) => 15 + q
    case CancelRemove(_) => 14 + q
    case CancelSpin(_) => 11 + q
    case Release(_) => 10 + q
    case DrainLock => 9 + q
    case DrainLoad => 8 + q
    case DrainTake(cur) => 6 + q + Stale(s, cur)
    case Distribute(_) => 5 + q
    case PutBack(_, chain) => 4 + |chain|
    case Signaling(chain, _) => 1 + |chain|
    case CloseFlag => 6 + q
    case CloseLock => 5 + q
    case CloseTake => 4 + q
    case ForgetLoad(_) => 3
    case Forget(_, cur) => 1 + Stale(s, cur)
  }

  predicate Nearer(s: State, s': State, i: nat)
    requires i < |s.agents|
  {
    |s'.agents| == |s.agents| && Rank(s', i) < Rank(s, i)
  }

  lemma TryNearer(s: State, i: nat)
    requires i < |s.agents| && (s.agents[i].pc.Load? || s.agents[i].pc.Try?)
    ensures Nearer(s, Step(s, i, Go), i)
  {
  }

  lemma EnqueueNearer(s: State, i: nat)
    requires i < |s.agents| && !Resting(s, i)
    requires s.agents[i].pc.EnqLock? || s.agents[i].pc.EnqFlag? || s.agents[i].pc.EnqLoop?
    ensures Nearer(s, Step(s, i, Go), i)
  {
  }

  lemma UnlockNearer(s: State, i: nat)
    requires i < |s.agents| && (s.agents[i].pc.Unlock? || s.agents[i].pc.UnlockNull?)
    ensures Nearer(s, Step(s, i, Go), i)
  {
  }

  lemma WaitNearer(s: State, i: nat)
    requires i < |s.agents| && !Resting(s, i) && Middle(s.agents[i].pc)
    ensures Nearer(s, Step(s, i, Go), i)
  {
  }

  lemma DrainNearer(s: State, i: nat)
    requires i < |s.agents| && !Resting(s, i)
    requires var pc := s.agents[i].pc;
             pc.Release? || pc.DrainLock? || pc.DrainLoad? || pc.DrainTake? || pc.Distribute? || pc.PutBack?
    ensures Nearer(s, Step(s, i, Go), i)
  {
  }

  lemma SignalNearer(s: State, i: nat)
    requires i < |s.agents| && ChainOk(s.agents, i) && s.agents[i].pc.Signaling?
    ensures Nearer(s, Step(s, i, Go), i)
  {
  }

  lemma CloseNearer(s: State, i: nat)
    requires i < |s.agents| && !Resting(s, i)
    requires var pc := s.agents[i].pc; pc.CloseFlag? || pc.CloseLock? || pc.CloseTake? || pc.ForgetLoad? || pc.Forget?
    ensures Nearer(s, Step(s, i, Go), i)
  {
  }

  /** An agent that is not resting gets nearer to its rest with every step; one that rests stays as it is. */
  lemma Advances(s: State, i: nat)
    requires Inv(s) && i < |s.agents|
    ensures if Resting(s, i) then Step(s, i, Go) == s else Nearer(s, Step(s, i, Go), i)
  {
    var pc := s.agents[i].pc;
    if Resting(s, i) {
    } else if pc.Load? || pc.Try? {
      TryNearer(s, i);
    } else if pc.Unlock? || pc.UnlockNull? {
      UnlockNearer(s, i);
    } else if Early(pc) {
      EnqueueNearer(s, i);
    } else if Middle(pc) {
      WaitNearer(s, i);
    } else if pc.Signaling? {
      assert ChainOk(s.agents, i);
      SignalNearer(s, i);
    } else if pc.CloseFlag? || pc.CloseLock? || pc.CloseTake? || pc.ForgetLoad? || pc.Forget? {
      CloseNearer(s, i);
    } else {
      DrainNearer(s, i);
    }
  }

  function Alone(s: State, i: nat, n: nat): State
    decreases n
  {
    if n == 0 then s else Alone(Step(s, i, Go), i, n - 1)
  }

  predicate RestsAfter(s: State, i: nat, n: nat) { i < |Alone(s, i, n).agents| && Resting(Alone(s, i, n), i) }

  lemma Onward(s: State, i: nat) returns (s': State)
    requires Inv(s) && i < |s.agents| && !Resting(s, i)
    ensures Inv(s') && Nearer(s, s', i)
    ensures forall m: nat :: RestsAfter(s', i, m) ==> RestsAfter(s, i, m + 1)
  {
    s' := Step(s, i, Go);
    Advances(s, i);
    StepKeeps(s, i, Go);
  }

  lemma {:induction false} RestsSoon(s: State, i: nat) returns (n: nat)
    requires Inv(s) && i < |s.agents|
    ensures n <= Rank(s, i) && RestsAfter(s, i, n)
    decreases Rank(s, i)
  {
    if Resting(s, i) {
      n := 0;
    } else {
      var s' := Onward(s, i);
      var m := RestsSoon(s', i);
      n := m + 1;
    }
  }

  /**
    From every reachable state, any agent that is left alone comes to rest: its call returns, or it finds
    the tag-lock held, or it waits for a signal. The holder of the tag-lock never rests.
   */
  lemma ComesToRest(s: State, schedule: seq<(nat, Choice)>, i: nat) returns (n: nat)
    requires Init(s) && i < |Run(s, schedule).agents|
    ensures var e := Run(s, schedule);
            && n <= Rank(e, i) && RestsAfter(e, i, n)
            && (Resting(e, i) <==> Step(e, i, Go) == e)
            && (e.word == Held(i) ==> !Resting(e, i))
  {
    RunHolds(s, schedule);
    var e := Run(s, schedule);
    n := RestsSoon(e, i);
    Advances(e, i);
    assert Holds(e.agents[i].pc) <==> e.word == Held(i);
  }

  // ----- when nothing moves any more -----

  predicate Quiescent(s: State) { forall i | 0 <= i < |s.agents| :: Resting(s, i) }

  lemma LockFree(s: State)
    requires LockInv(s) && Quiescent(s)
    ensures !s.word.Held?
  {
    forall i | 0 <= i < |s.agents|
      ensures s.word != Held(i)
    {
      assert Resting(s, i) ==> !Holds(s.agents[i].pc);
    }
  }

  lemma NothingLeftOwed(s: State)
    requires Quiescent(s) && !s.word.Held?
    ensures NothingOwed(s)
  {
    assert forall j | 0 <= j < |s.agents| :: Resting(s, j) ==> !OwesDrain(s.agents[j].pc) && !OwesClose(s.agents[j].pc);
  }

  /** The agent is idle, or in line, or one of the futures whose oversized request nobody ever answers. */
  predicate Settled(s: State, i: nat)
    requires i < |s.agents|
  {
    var a := s.agents[i];
    || a.pc.Idle?
    || (a.pc.Waiting? && i in s.queue)
    || (a.node.place.Armed? && ParkedFuture(a.pc) && ParkedFor(a.pc) > MAX_PERMITS)
  }

  lemma RestingSettled(s: State, i: nat)
    requires NodeInv(s) && Quiescent(s) && !s.word.Held? && i < |s.agents|
    ensures Settled(s, i)
  {
    var a := s.agents[i];
    assert Resting(s, i) && NodeOk(a) && PoppedOk(s.agents, i);
    assert forall j | 0 <= j < |s.agents| :: Resting(s, j) ==> Chain(s.agents[j].pc) == [];
  }

  /**
    No deadlock: when no agent can move, nobody holds the tag-lock, and whoever is not idle stands in line, in
    front of an open semaphore that is really short of what the head of the line misses. The exceptions are
    the futures with an oversized request, and semaphores that have failed a release's assertion.
   */
  lemma StopsOnlyForPermits(s: State, schedule: seq<(nat, Choice)>)
    requires Init(s) && Quiescent(Run(s, schedule))
    ensures var e := Run(s, schedule);
            && !e.word.Held?
            && (forall i | 0 <= i < |e.agents| :: Settled(e, i))
            && (e.queue != [] ==> !e.pool.closed && (!e.books.tripped ==> e.pool.permits < HeadNeed(e)))
  {
    RunHolds(s, schedule);
    var e := Run(s, schedule);
    LockFree(e);
    NothingLeftOwed(e);
    ClosedLeavesNobody(s, schedule);
    if !e.books.tripped {
      NoStrandedWaiter(s, schedule);
    }
    forall i | 0 <= i < |e.agents|
      ensures Settled(e, i)
    {
      RestingSettled(e, i);
    }
  }
}

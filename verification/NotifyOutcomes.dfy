/** How every call of the notification primitive ends, and that it ends as soon as it can. */
module NotifyOutcomes {
  import opened Schedules
  import opened WaitWord
  import opened WaitNodes
  import opened Notify
  import opened NotifyProof

  // ----- notify_one -----

  /** A `notify_one` is over only with a permit stored, or with the front waiter in hand. */
  predicate Delivered(s: State, s': State, i: nat)
    requires Aligned(s) && Aligned(s') && i < |s.pcs| && |s'.pcs| == |s.pcs|
  {
    s'.bits.permit || (s.nodes.queue != [] && s'.nodes.hands[i] == Hand(One, [s.nodes.queue[0]]) && Waking(s'.pcs[i]))
  }

  lemma FateOfOne(s: State, i: nat, c: Choice)
    requires Aligned(s) && i < |s.pcs| && Notifying(s.pcs[i]) && !Notifying(Step(s, i, c).pcs[i])
    ensures Delivered(s, Step(s, i, c), i)
  {
  }

  /** No notification is thrown away: the call ends with a permit stored, or goes on to wake the front waiter. */
  lemma NotifyOneDelivers(s: State, schedule: seq<(nat, Choice)>, i: nat, c: Choice)
    requires Init(s) && i < |Run(s, schedule).pcs| && Notifying(Run(s, schedule).pcs[i])
    ensures var e := Run(s, schedule);
            var e' := Step(e, i, c);
            Notifying(e'.pcs[i]) || Delivered(e, e', i)
  {
    var e := Run(s, schedule);
    if !Notifying(Step(e, i, c).pcs[i]) {
      FateOfOne(e, i, c);
    }
  }

  // ----- waits -----

  /** The agent is inside a wait, dropped or not, that has not ended. */
  predicate InWait(pc: Pc) {
    pc.TryLoad? || pc.TryCas? || pc.EnqLock? || pc.EnqFlag? || pc.EnqCas? || pc.EnqPush? || Parked(pc)
  }

  /** The generation the wait of agent `i` works with. */
  function WaitGen(s: State, i: nat): nat
    requires Aligned(s) && i < |s.pcs| && InWait(s.pcs[i])
  {
    if Parked(s.pcs[i]) then s.auxes[i] else s.pcs[i].g
  }

  lemma BeginCaptures(s: State, i: nat, future: bool)
    requires Aligned(s) && i < |s.pcs| && s.pcs[i].Idle?
    ensures var s' := Step(s, i, Begin(Wait(future)));
            |s'.pcs| == |s.pcs| && InWait(s'.pcs[i]) && WaitGen(s', i) == s.bits.gen
  {
  }

  lemma EnterKeeps(s: State, i: nat, c: Choice)
    requires Aligned(s) && i < |s.pcs| && InWait(s.pcs[i]) && (Trying(s.pcs[i]) || Entering(s.pcs[i]))
    requires InWait(Step(s, i, c).pcs[i])
    ensures WaitGen(Step(s, i, c), i) == WaitGen(s, i)
  {
  }

  lemma ParkKeeps(s: State, i: nat, c: Choice)
    requires Aligned(s) && i < |s.pcs| && Parked(s.pcs[i]) && InWait(Step(s, i, c).pcs[i])
    ensures WaitGen(Step(s, i, c), i) == WaitGen(s, i)
  {
  }

  lemma OwnStepKeeps(s: State, i: nat, c: Choice)
    requires Aligned(s) && i < |s.pcs| && InWait(s.pcs[i])
    requires InWait(Step(s, i, c).pcs[i])
    ensures WaitGen(Step(s, i, c), i) == WaitGen(s, i)
  {
    if Parked(s.pcs[i]) {
      ParkKeeps(s, i, c);
    } else {
      EnterKeeps(s, i, c);
    }
  }

  /** A step moves nobody else and writes into no node but the stepping agent's. */
  predicate Minds(s: State, s': State, j: nat) {
    && |s'.pcs| == |s.pcs| && |s'.auxes| == |s.auxes|
    && (forall i | 0 <= i < |s.pcs| && i != j :: s'.pcs[i] == s.pcs[i])
    && (forall i | 0 <= i < |s.auxes| && i != j :: s'.auxes[i] == s.auxes[i])
  }

  lemma EnterMinds(s: State, j: nat, c: Choice)
    requires Aligned(s) && j < |s.pcs| && (Trying(s.pcs[j]) || Entering(s.pcs[j]))
    ensures Minds(s, Step(s, j, c), j)
  {
  }

  lemma LeaveMinds(s: State, j: nat, c: Choice)
    requires Aligned(s) && j < |s.pcs| && Leaving(s.pcs[j])
    ensures Minds(s, Step(s, j, c), j)
  {
  }

  lemma OneMinds(s: State, j: nat, c: Choice)
    requires Aligned(s) && j < |s.pcs| && InOne(s.pcs[j])
    ensures Minds(s, Step(s, j, c), j)
  {
  }

  lemma AllMinds(s: State, j: nat, c: Choice)
    requires Aligned(s) && j < |s.pcs|
    requires !Trying(s.pcs[j]) && !Entering(s.pcs[j]) && !Leaving(s.pcs[j]) && !InOne(s.pcs[j])
    ensures Minds(s, Step(s, j, c), j)
  {
  }

  lemma StepMinds(s: State, j: nat, c: Choice)
    requires Aligned(s)
    ensures Minds(s, Step(s, j, c), j)
  {
    if j < |s.pcs| {
      if Trying(s.pcs[j]) || Entering(s.pcs[j]) {
        EnterMinds(s, j, c);
      } else if Leaving(s.pcs[j]) {
        LeaveMinds(s, j, c);
      } else if InOne(s.pcs[j]) {
        OneMinds(s, j, c);
      } else {
        AllMinds(s, j, c);
      }
    }
  }

  /** The wait that agent `i` is in after `start` lasts through all of `after`. */
  predicate WaitsOn(s: State, start: seq<(nat, Choice)>, after: seq<(nat, Choice)>, i: nat)
    requires Aligned(s)
  {
    && i < |Run(s, start + after).pcs| && InWait(Run(s, start + after).pcs[i])
    && (after == [] || WaitsOn(s, start, after[..|after| - 1], i))
  }

  lemma {:induction false} WaitKeepsGeneration(s: State, start: seq<(nat, Choice)>, after: seq<(nat, Choice)>, i: nat)
    requires Aligned(s) && i < |Run(s, start).pcs| && InWait(Run(s, start).pcs[i]) && WaitsOn(s, start, after, i)
    ensures WaitGen(Run(s, start + after), i) == WaitGen(Run(s, start), i)
    decreases |after|
  {
    if after == [] {
      assert start + after == start;
    } else {
      var shorter := after[..|after| - 1];
      var last := after[|after| - 1];
      WaitKeepsGeneration(s, start, shorter, i);
      DropLast(start, after);
      if last.0 == i {
        OwnStepKeeps(Run(s, start + shorter), i, last.1);
      } else {
        StepMinds(Run(s, start + shorter), last.0, last.1);
      }
    }
  }

  /** A wait works from beginning to end with the generation that was live when it began. */
  lemma GenerationCaptured(s: State, before: seq<(nat, Choice)>, i: nat, future: bool, after: seq<(nat, Choice)>)
    requires Aligned(s) && i < |Run(s, before).pcs| && Run(s, before).pcs[i].Idle?
    requires WaitsOn(s, before + [(i, Begin(Wait(future)))], after, i)
    ensures WaitGen(Run(s, before + [(i, Begin(Wait(future)))] + after), i) == Run(s, before).bits.gen
  {
    var begin := (i, Begin(Wait(future)));
    DropAppended(before, begin);
    BeginCaptures(Run(s, before), i, future);
    WaitKeepsGeneration(s, before + [begin], after, i);
  }

  /** The agent is about to look at the state word, to see whether its wait is over. */
  predicate Looking(pc: Pc) { pc.TryLoad? || pc.TryCas? || pc.EnqFlag? || pc.EnqCas? }

  predicate Compares(pc: Pc) { pc.TryCas? || pc.EnqCas? }

  predicate WaitOver(pc: Pc) { pc.Idle? || pc == Unlock(Leave) }

  /** Where a look goes on that found neither a newer generation nor a permit. */
  function GoOn(pc: Pc): Pc
    requires Looking(pc)
  {
    if pc.TryLoad? && !pc.last then TryLoad(pc.g, pc.future, true)
    else if pc.TryCas? && !pc.last then TryLoad(pc.g, pc.future, true)
    else if pc.TryLoad? || pc.TryCas? then EnqLock(pc.g, pc.future)
    else EnqPush(pc.g, pc.future)
  }

  /**
    The look of a wait of generation `g`: a newer generation ends it and leaves the permit alone; a permit ends
    it exactly when the compare-exchange takes it, and is looked at afresh otherwise; else the wait goes on.
   */
  predicate LooksRight(s: State, s': State, i: nat, c: Choice)
    requires i < |s.pcs| && |s'.pcs| == |s.pcs| && Looking(s.pcs[i])
  {
    var pc, pc' := s.pcs[i], s'.pcs[i];
    if s.bits.gen != pc.g then
      WaitOver(pc') && s'.bits.permit == s.bits.permit && s'.tally == s.tally
    else if !s.bits.permit then
      pc' == GoOn(pc) && !s'.bits.permit && s'.tally == s.tally
    else if Compares(pc) && pc.seen == s.bits && !c.Spurious? then
      WaitOver(pc') && !s'.bits.permit
    else
      Compares(pc') && pc'.seen == s'.bits && pc'.g == pc.g && s'.bits.permit && s'.tally == s.tally
  }

  lemma TryLooks(s: State, i: nat, c: Choice)
    requires Aligned(s) && i < |s.pcs| && PcFits(s, s.pcs[i]) && (s.pcs[i].TryLoad? || s.pcs[i].TryCas?)
    requires !(s.pcs[i].TryLoad? && s.pcs[i].future && c.Abandon?)
    ensures LooksRight(s, Step(s, i, c), i, c)
  {
  }

  lemma EnqLooks(s: State, i: nat, c: Choice)
    requires Aligned(s) && i < |s.pcs| && PcFits(s, s.pcs[i]) && (s.pcs[i].EnqFlag? || s.pcs[i].EnqCas?)
    ensures LooksRight(s, Step(s, i, c), i, c)
  {
  }

  /** In every reachable state, unless the future is dropped instead. */
  lemma LookOutcome(s: State, schedule: seq<(nat, Choice)>, i: nat, c: Choice)
    requires Init(s) && i < |Run(s, schedule).pcs| && Looking(Run(s, schedule).pcs[i])
    requires var pc := Run(s, schedule).pcs[i]; !(pc.TryLoad? && pc.future && c.Abandon?)
    ensures LooksRight(Run(s, schedule), Step(Run(s, schedule), i, c), i, c)
  {
    RunHolds(s, schedule);
    var e := Run(s, schedule);
    if e.pcs[i].TryLoad? || e.pcs[i].TryCas? {
      TryLooks(e, i, c);
    } else {
      EnqLooks(e, i, c);
    }
  }

  /** Why a wait may end: a broadcast since it began, the permit, a signal, or the drop of its future. */
  predicate GoodReason(s: State, s': State, i: nat, c: Choice)
    requires Aligned(s) && i < |s.pcs| && InWait(s.pcs[i])
  {
    var pc := s.pcs[i];
    || s.bits.gen != WaitGen(s, i)
    || (s.bits.permit && !s'.bits.permit)
    || s.nodes.places[i].Signaled?
    || (pc.TryLoad? && pc.future && c.Abandon?)
    || (pc.DropRemove? && i in s.nodes.queue)
  }

  lemma LookEnds(s: State, i: nat, c: Choice)
    requires Aligned(s) && i < |s.pcs| && PcFits(s, s.pcs[i]) && (Trying(s.pcs[i]) || Entering(s.pcs[i]))
    requires InWait(s.pcs[i]) && !InWait(Step(s, i, c).pcs[i])
    ensures GoodReason(s, Step(s, i, c), i, c)
  {
  }

  lemma ParkEnds(s: State, i: nat, c: Choice)
    requires Aligned(s) && i < |s.pcs| && Parked(s.pcs[i]) && !InWait(Step(s, i, c).pcs[i])
    ensures GoodReason(s, Step(s, i, c), i, c)
  {
  }

  /** No wait ends for nothing. */
  lemma WaitEnds(s: State, schedule: seq<(nat, Choice)>, i: nat, c: Choice)
    requires Init(s) && i < |Run(s, schedule).pcs| && InWait(Run(s, schedule).pcs[i])
    requires !InWait(Step(Run(s, schedule), i, c).pcs[i])
    ensures GoodReason(Run(s, schedule), Step(Run(s, schedule), i, c), i, c)
  {
    RunHolds(s, schedule);
    var e := Run(s, schedule);
    if Parked(e.pcs[i]) {
      ParkEnds(e, i, c);
    } else {
      LookEnds(e, i, c);
    }
  }

  /**
    A broadcast reaches every wait that began before it: once the generation has moved on and no broadcaster is
    still on its way, the wait is not queued nor about to be; it was popped to be signaled, or signaled, or its
    next look ends it.
   */
  lemma BroadcastReaches(s: State, before: seq<(nat, Choice)>, i: nat, future: bool, after: seq<(nat, Choice)>)
    requires Init(s) && i < |Run(s, before).pcs| && Run(s, before).pcs[i].Idle?
    requires WaitsOn(s, before + [(i, Begin(Wait(future)))], after, i)
    requires var e := Run(s, before + [(i, Begin(Wait(future)))] + after);
             Run(s, before).bits.gen < e.bits.gen && !Pending(e, Run(s, before).bits.gen)
    ensures var e := Run(s, before + [(i, Begin(Wait(future)))] + after);
            && i !in e.nodes.queue && !e.pcs[i].EnqPush?
            && (Parked(e.pcs[i]) ==> e.nodes.places[i].Popped? || e.nodes.places[i].Signaled?)
  {
    var start := before + [(i, Begin(Wait(future)))];
    var e := Run(s, start + after);
    GenerationCaptured(s, before, i, future, after);
    RunHolds(s, start + after);
    NotQueued(e, i);
  }

  lemma NotQueued(e: State, i: nat)
    requires Inv(e) && i < |e.pcs| && InWait(e.pcs[i])
    requires WaitGen(e, i) < e.bits.gen && !Pending(e, WaitGen(e, i))
    ensures i !in e.nodes.queue && !e.pcs[i].EnqPush?
    ensures Parked(e.pcs[i]) ==> e.nodes.places[i].Popped? || e.nodes.places[i].Signaled?
  {
    assert NodeSound(e.nodes, i);
    assert forall k | 0 <= k < |e.nodes.queue| && e.nodes.queue[k] == i :: Captured(e)[k] == e.auxes[i];
    PendingMoves(e, e, i);
  }

  /** The permit is up for the next wait. */
  predicate PermitUp(s: State) { s.bits.permit && !s.bits.hasQueue }

  /** With nobody in line, a `notify_one` left alone ends with the permit stored. */
  lemma NotifyStores(s: State, schedule: seq<(nat, Choice)>, i: nat)
    requires Init(s) && i < |Run(s, schedule).pcs| && Run(s, schedule).pcs[i].Idle?
    requires !Run(s, schedule).bits.hasQueue
    ensures var e := Run(s, schedule);
            var notified := Step(Step(Step(e, i, Begin(NotifyOne)), i, Go), i, Go);
            && PermitUp(notified) && notified.pcs == e.pcs && notified.bits.gen == e.bits.gen
            && notified.tally.calls == e.tally.calls + 1
  {
    var e := Run(s, schedule);
    var notified := Step(Step(Step(e, i, Begin(NotifyOne)), i, Go), i, Go);
    assert notified.pcs == e.pcs;
  }

  /** A stored permit ends the next wait at once, and only that one. */
  lemma WaitTakesPermit(s: State, schedule: seq<(nat, Choice)>, i: nat, future: bool)
    requires Init(s) && i < |Run(s, schedule).pcs| && Run(s, schedule).pcs[i].Idle? && Run(s, schedule).bits.permit
    ensures var e := Run(s, schedule);
            var waited := Step(Step(Step(e, i, Begin(Wait(future))), i, Go), i, Go);
            waited.pcs == e.pcs && waited.nodes == e.nodes && waited.bits == e.bits.(permit := false)
  {
    var e := Run(s, schedule);
    var waited := Step(Step(Step(e, i, Begin(Wait(future))), i, Go), i, Go);
    assert waited.pcs == e.pcs;
  }

  /** `notify_waiters` moves the generation on by one, and goes on to wake the queue exactly if there is one. */
  lemma BroadcastAdvances(s: State, schedule: seq<(nat, Choice)>, i: nat)
    requires Init(s) && i < |Run(s, schedule).pcs| && Run(s, schedule).pcs[i].Idle?
    ensures var e := Run(s, schedule);
            var e' := Step(Step(e, i, Begin(NotifyWaiters)), i, Go);
            && e'.bits == e.bits.(gen := e.bits.gen + 1) && e'.nodes == e.nodes
            && e'.pcs[i] == if e.bits.hasQueue then AllLock else Idle
  {
  }

  // ----- nobody waits needlessly -----

  predicate Locks(pc: Pc) { pc.EnqLock? || pc.DropLock? || pc.OneLock? || pc.AllLock? }

  /** The agent has nothing to do, needs the lock another one holds, or waits for a signal. */
  predicate Resting(s: State, i: nat)
    requires Aligned(s) && i < |s.pcs|
  {
    || s.pcs[i].Idle?
    || (Locks(s.pcs[i]) && s.lock.Held?)
    || ((s.pcs[i].Waiting? || s.pcs[i].DropSpin?) && !s.nodes.places[i].Signaled?)
  }

  function AfterRank(next: Then, chain: nat): nat {
    match next
    case Park(_) => 1
    case SpinOn => 10
    case WakeOne => 1 + chain
    case WakeAll => 1 + chain
    case Again => 8
    case Leave => 0
  }

  /** How many steps agent `i` needs at most until it rests, if nobody else moves. */
  function Rank(s: State, i: nat): nat
    requires Aligned(s) && i < |s.pcs|
  {
    var chain := |s.nodes.hands[i].chain|;
    match s.pcs[i]
    case Idle => 0
    case TryLoad(_, _, last) => if last then 11 else 14
    case TryCas(_, _, last, seen) => (if last then 9 else 12) + (if seen == s.bits then 0 else 1)
    case EnqLock(_, _) => 8
    case EnqFlag(_, _) => 7
    case EnqCas(_, _, seen) => if seen == s.bits then 5 else 6
    case EnqPush(_, _) => 4
    case Unlock(next) => 2 + AfterRank(next, chain)
    case Release(next) => 1 + AfterRank(next, chain)
    case Waiting(_) => 1
    case DropLock => 14
    case DropRemove => 13
    case DropSpin => 10
    case OneLoad => 9
    case OneCas(seen) => if seen == s.bits then 1 else 8
    case OneSlow => if s.bits.hasQueue then 7 else 2
    case OneSlowCas(seen) => if seen == s.bits then 1 else 7
    case OneLock => if s.lock == Null then 3 else 6
    case OnePop => 5
    case OneSignal => 1 + chain
    case AllAdd => 8 + |s.nodes.queue|
    case AllLock => 7 + |s.nodes.queue|
    case AllRead => 6 + |s.nodes.queue|
    case AllTake(_) => 5 + |s.nodes.queue|
    case AllSignal => 1 + chain
  }

  predicate Nearer(s: State, s': State, i: nat)
    requires Aligned(s) && Aligned(s') && i < |s.pcs| && |s'.pcs| == |s.pcs|
  {
    Rank(s', i) < Rank(s, i)
  }

  lemma EnterNearer(s: State, i: nat)
    requires Inv(s) && i < |s.pcs| && !Resting(s, i) && (Trying(s.pcs[i]) || Entering(s.pcs[i]))
    ensures Nearer(s, Step(s, i, Go), i)
  {
    assert PcFits(s, s.pcs[i]);
  }

  lemma UnlockNearer(s: State, i: nat)
    requires Aligned(s) && i < |s.pcs| && (s.pcs[i].Unlock? || s.pcs[i].Release?)
    requires s.pcs[i].Release? ==> !s.bits.hasQueue
    ensures Nearer(s, Step(s, i, Go), i)
  {
  }

  lemma LeaveNearer(s: State, i: nat)
    requires Inv(s) && i < |s.pcs| && !Resting(s, i) && Leaving(s.pcs[i]) && !s.pcs[i].Unlock? && !s.pcs[i].Release?
    ensures Nearer(s, Step(s, i, Go), i)
  {
    assert Placed(s.pcs[i], s.nodes.places[i], s.nodes.hands[i]);
  }

  lemma OneNearer(s: State, i: nat)
    requires Inv(s) && i < |s.pcs| && !Resting(s, i) && InOne(s.pcs[i])
    ensures Nearer(s, Step(s, i, Go), i)
  {
    assert PcFits(s, s.pcs[i]);
  }

  lemma AllNearer(s: State, i: nat)
    requires Inv(s) && i < |s.pcs| && !Resting(s, i)
    requires !Trying(s.pcs[i]) && !Entering(s.pcs[i]) && !Leaving(s.pcs[i]) && !InOne(s.pcs[i])
    ensures Nearer(s, Step(s, i, Go), i)
  {
  }

  /** An agent that is not resting gets nearer to its rest with every step; one that rests stays as it is. */
  lemma Advances(s: State, i: nat)
    requires Inv(s) && i < |s.pcs|
    ensures if Resting(s, i) then Step(s, i, Go) == s else Nearer(s, Step(s, i, Go), i)
  {
    if !Resting(s, i) {
      if Trying(s.pcs[i]) || Entering(s.pcs[i]) {
        EnterNearer(s, i);
      } else if s.pcs[i].Unlock? || s.pcs[i].Release? {
        assert PcFits(s, s.pcs[i]);
        UnlockNearer(s, i);
      } else if Leaving(s.pcs[i]) {
        LeaveNearer(s, i);
      } else if InOne(s.pcs[i]) {
        OneNearer(s, i);
      } else {
        AllNearer(s, i);
      }
    }
  }

  /** `n` steps of agent `i` alone. */
  function Alone(s: State, i: nat, n: nat): (r: State)
    requires Aligned(s)
    ensures Aligned(r) && |r.pcs| == |s.pcs|
    decreases n
  {
    if n == 0 then s else Alone(Step(s, i, Go), i, n - 1)
  }

  lemma {:induction false} StaysPut(s: State, i: nat, n: nat)
    requires Aligned(s) && Step(s, i, Go) == s
    ensures Alone(s, i, n) == s
    decreases n
  {
    if n > 0 {
      StaysPut(s, i, n - 1);
    }
  }

  lemma {:induction false} RestsSoon(s: State, i: nat, n: nat)
    requires Inv(s) && i < |s.pcs| && Rank(s, i) <= n
    ensures Resting(Alone(s, i, n), i)
    decreases n
  {
    Advances(s, i);
    if Resting(s, i) {
      StaysPut(s, i, n);
    } else {
      StepKeeps(s, i, Go);
      RestsSoon(Step(s, i, Go), i, n - 1);
    }
  }

  /**
    From every reachable state, any agent that is left alone comes to rest: it returns, or it finds the lock
    held, or it waits for a signal. The holder of the lock never rests.
   */
  lemma ComesToRest(s: State, schedule: seq<(nat, Choice)>, i: nat)
    requires Init(s) && i < |Run(s, schedule).pcs|
    ensures var e := Run(s, schedule);
            && Resting(Alone(e, i, Rank(e, i)), i)
            && (Resting(e, i) <==> Step(e, i, Go) == e)
            && (e.lock == Held(i) ==> !Resting(e, i))
  {
    RunHolds(s, schedule);
    var e := Run(s, schedule);
    RestsSoon(e, i, Rank(e, i));
    Advances(e, i);
  }

  // ----- when nothing moves any more -----

  predicate Quiescent(s: State)
    requires Aligned(s)
  {
    forall i | 0 <= i < |s.pcs| :: Resting(s, i)
  }

  lemma LockFree(s: State)
    requires Aligned(s) && ControlInv(s) && Quiescent(s)
    ensures !s.lock.Held?
  {
    forall i | 0 <= i < |s.pcs|
      ensures s.lock != Held(i)
    {
      assert Resting(s, i) ==> !HoldsLock(s.pcs[i]);
    }
  }

  /** The agent is idle, or waits in the queue for the live generation. */
  predicate Settled(s: State, i: nat)
    requires Aligned(s) && i < |s.pcs|
  {
    s.pcs[i].Idle? || (s.pcs[i].Waiting? && i in s.nodes.queue && s.auxes[i] == s.bits.gen)
  }

  lemma RestingQueued(s: State, i: nat)
    requires Aligned(s) && NodeInv(s) && Quiescent(s) && !s.lock.Held? && i < |s.pcs|
    ensures s.pcs[i].Idle? || (s.pcs[i].Waiting? && i in s.nodes.queue)
  {
    assert Resting(s, i) && Placed(s.pcs[i], s.nodes.places[i], s.nodes.hands[i]) && NodeSound(s.nodes, i);
    assert forall j | 0 <= j < |s.pcs| ::
        Resting(s, j) && Placed(s.pcs[j], s.nodes.places[j], s.nodes.hands[j]) ==> s.nodes.hands[j].chain == [];
  }

  lemma NobodyBehind(s: State, i: nat)
    requires Inv(s) && Quiescent(s) && !s.lock.Held? && i in s.nodes.queue && i < |s.pcs|
    ensures s.auxes[i] == s.bits.gen
  {
    var k :| 0 <= k < |s.nodes.queue| && s.nodes.queue[k] == i;
    assert Captured(s)[k] == s.auxes[i];
    assert forall j | 0 <= j < |s.pcs| :: Resting(s, j) ==> !Owes(s.pcs[j], s.auxes[i]);
  }

  /**
    No deadlock: when no agent can move, nobody holds the lock, and whoever is not idle stands in the queue,
    began to wait after the last broadcast, and has no permit stored beside it.
   */
  lemma StopsOnlyForNotification(s: State, schedule: seq<(nat, Choice)>)
    requires Init(s) && Quiescent(Run(s, schedule))
    ensures var e := Run(s, schedule);
            && !e.lock.Held?
            && (forall i | 0 <= i < |e.pcs| :: Settled(e, i))
            && (e.nodes.queue != [] ==> !e.bits.permit)
  {
    RunHolds(s, schedule);
    var e := Run(s, schedule);
    LockFree(e);
    forall i | 0 <= i < |e.pcs|
      ensures Settled(e, i)
    {
      RestingQueued(e, i);
      if !e.pcs[i].Idle? {
        NobodyBehind(e, i);
      }
    }
  }
}

/** The notification primitive: what every schedule of waits, drops and notifications keeps. */
module NotifyProof {
  import opened Ledger
  import opened WaitWord
  import opened WaitNodes
  import opened Generations
  import opened Notify

  // ----- what a program counter stands for -----

  predicate HoldsLock(pc: Pc) {
    || pc.EnqFlag? || pc.EnqCas? || pc.EnqPush? || pc.Unlock? || pc.Release?
    || pc.DropRemove? || pc.OnePop? || pc.AllRead? || pc.AllTake?
  }

  /** The agent locked a published queue and has not changed it yet. */
  predicate FoundQueue(pc: Pc) { pc.DropRemove? || pc.OnePop? || pc.AllRead? || pc.AllTake? }

  /** What an agent that is releasing the lock does next. */
  function After(pc: Pc): Then {
    match pc
    case Unlock(next) => next
    case Release(next) => next
    case _ => Leave
  }

  predicate Parked(pc: Pc) {
    pc.Waiting? || pc.DropLock? || pc.DropRemove? || pc.DropSpin? || After(pc).Park? || After(pc).SpinOn?
  }

  predicate Spinning(pc: Pc) { pc.DropSpin? || After(pc).SpinOn? }

  predicate Waking(pc: Pc) { pc.OneSignal? || pc.AllSignal? || After(pc).WakeOne? || After(pc).WakeAll? }

  /** The agent set HAS_QUEUE and may still push. */
  predicate Pushing(pc: Pc) { pc.EnqCas? || pc.EnqPush? }

  /** The agent is inside a `notify_one` whose fate is still open. */
  predicate Notifying(pc: Pc) {
    pc.OneLoad? || pc.OneCas? || pc.OneSlow? || pc.OneSlowCas? || pc.OneLock? || pc.OnePop? || After(pc).Again?
  }

  function Busy(pc: Pc): int { if Notifying(pc) then 1 else 0 }

  /** A `notify_one` wake-up on its way to a waiter that has not consumed it. */
  function Flight(place: Place<Kind>): int {
    match place
    case Popped(_, intent) => if intent == One then 1 else 0
    case Signaled(value) => if value == One then 1 else 0
    case _ => 0
  }

  // ----- the invariant -----

  /** The lock word, HAS_QUEUE and the stored permit fit the queue. */
  predicate WordsFit(s: State) {
    && (s.lock == Null ==> s.nodes.queue == [] && !s.bits.hasQueue)
    && (s.lock == Published ==> s.nodes.queue != [])
    && (s.nodes.queue != [] ==> s.bits.hasQueue && !s.bits.permit)
  }

  /** What an agent at `pc` may rely on. */
  predicate PcFits(s: State, pc: Pc) {
    && (pc.Release? ==> s.nodes.queue == [] && !s.bits.hasQueue)
    && (FoundQueue(pc) ==> s.nodes.queue != [])
    && (Pushing(pc) ==> s.bits.hasQueue)
    && (pc.EnqPush? ==> !s.bits.permit)
    && (pc.OneCas? || pc.OneSlowCas? ==> !pc.seen.hasQueue && !pc.seen.permit)
    && (pc.TryCas? || pc.EnqCas? ==> pc.seen.permit && pc.seen.gen == pc.g)
  }

  predicate ControlInv(s: State) {
    && WordsFit(s)
    && (s.lock.Held? ==> s.lock.holder < |s.pcs|)
    && (forall i | 0 <= i < |s.pcs| :: (HoldsLock(s.pcs[i]) <==> s.lock == Held(i)) && PcFits(s, s.pcs[i]))
  }

  /** A node is out of circulation exactly while its agent does not wait on it; only wakers hold a chain. */
  predicate Placed(pc: Pc, place: Place<Kind>, hand: Hand<Kind>) {
    && (Parked(pc) <==> !place.Out?)
    && (Spinning(pc) ==> !place.Queued?)
    && (!Waking(pc) ==> hand.chain == [])
  }

  predicate NodeInv(s: State)
    requires Aligned(s)
  {
    && Sound(s.nodes)
    && (forall i | 0 <= i < |s.pcs| :: Placed(s.pcs[i], s.nodes.places[i], s.nodes.hands[i]))
  }

  /** The captured generations of the queued nodes, front to back. */
  function Captured(s: State): (gens: seq<nat>)
    ensures |gens| == |s.nodes.queue|
  {
    Tags(s.nodes.queue, s.auxes)
  }

  /** A generation an agent works with is not from the future, and nothing newer is queued under its lock. */
  predicate Bounded(pc: Pc, gens: seq<nat>, gen: nat) {
    && (Pushing(pc) ==> pc.g <= gen && AtMost(gens, pc.g))
    && (pc.EnqCas? ==> pc.seen.gen == pc.g)
    && (pc.AllTake? ==> pc.live <= gen && AtMost(gens, pc.live))
  }

  predicate GenInv(s: State)
    requires Aligned(s)
  {
    && Ascending(Captured(s))
    && AtMost(Captured(s), s.bits.gen)
    && (forall i | 0 <= i < |s.pcs| :: Bounded(s.pcs[i], Captured(s), s.bits.gen))
  }

  /** A broadcaster that will still release waiters of generation `g`. */
  predicate Owes(pc: Pc, g: nat) { pc.AllLock? || pc.AllRead? || (pc.AllTake? && g < pc.live) }

  predicate Asking(s: State) { exists j | 0 <= j < |s.pcs| :: s.pcs[j].AllLock? }
  predicate Pending(s: State, g: nat) { exists j | 0 <= j < |s.pcs| :: Owes(s.pcs[j], g) }

  /** Waiters of a past generation have a broadcaster on its way. */
  predicate BroadcastInv(s: State)
    requires Aligned(s)
  {
    && (forall k | 0 <= k < |s.nodes.queue| :: Captured(s)[k] < s.bits.gen ==> Pending(s, Captured(s)[k]))
    && (forall i | 0 <= i < |s.pcs| ::
          && (Pushing(s.pcs[i]) && s.pcs[i].g < s.bits.gen ==> Asking(s))
          && (s.pcs[i].AllTake? && s.pcs[i].live < s.bits.gen && s.nodes.queue != [] ==> Asking(s)))
  }

  predicate TallyInv(s: State) {
    && s.tally.calls + s.tally.redelivered ==
         Sum(s.pcs, Busy) + s.tally.saturated + s.tally.stored + s.tally.popped
    && s.tally.stored == s.tally.consumed + (if s.bits.permit then 1 else 0)
    && s.tally.popped == s.tally.woken + s.tally.redelivered + Sum(s.nodes.places, Flight)
  }

  predicate Inv(s: State) {
    Aligned(s) && ControlInv(s) && NodeInv(s) && GenInv(s) && BroadcastInv(s) && TallyInv(s)
  }

  // ----- lock and flag -----

  predicate Trying(pc: Pc) { pc.Idle? || pc.TryLoad? || pc.TryCas? }

  predicate Entering(pc: Pc) { pc.EnqLock? || pc.EnqFlag? || pc.EnqCas? || pc.EnqPush? }

  predicate Leaving(pc: Pc) {
    pc.Unlock? || pc.Release? || pc.Waiting? || pc.DropLock? || pc.DropRemove? || pc.DropSpin?
  }

  predicate InOne(pc: Pc) {
    pc.OneLoad? || pc.OneCas? || pc.OneSlow? || pc.OneSlowCas? || pc.OneLock? || pc.OnePop? || pc.OneSignal?
  }

  /**
    A lawful step: only the holder of the tag-lock touches the queue or HAS_QUEUE, the lock is taken only
    when free, and a permit is stored only while HAS_QUEUE is clear.
   */
  predicate Lawful(s: State, s': State, i: nat) {
    && i < |s.pcs| && |s'.pcs| == |s.pcs| && s'.pcs == s.pcs[i := s'.pcs[i]]
    && (HoldsLock(s.pcs[i]) || (s'.nodes.queue == s.nodes.queue && s'.bits.hasQueue == s.bits.hasQueue))
    && (s'.lock == s.lock || ((s.lock == Held(i) || !s.lock.Held?) && (s'.lock == Held(i) || !s'.lock.Held?)))
    && (HoldsLock(s'.pcs[i]) <==> s'.lock == Held(i))
    && (s'.bits.permit && !s.bits.permit ==> !s.bits.hasQueue && !s'.bits.hasQueue)
    && WordsFit(s') && PcFits(s', s'.pcs[i])
  }

  lemma LawfulKeeps(s: State, s': State, i: nat)
    requires ControlInv(s) && Lawful(s, s', i)
    ensures ControlInv(s')
  {
  }

  lemma LawfulTrying(s: State, i: nat, c: Choice)
    requires Aligned(s) && ControlInv(s) && i < |s.pcs| && Trying(s.pcs[i])
    ensures Lawful(s, Step(s, i, c), i)
  {
  }

  lemma LawfulEntering(s: State, i: nat, c: Choice)
    requires Aligned(s) && ControlInv(s) && i < |s.pcs| && Entering(s.pcs[i])
    ensures Lawful(s, Step(s, i, c), i)
  {
  }

  lemma LawfulLeaving(s: State, i: nat, c: Choice)
    requires Aligned(s) && ControlInv(s) && i < |s.pcs| && Leaving(s.pcs[i])
    ensures Lawful(s, Step(s, i, c), i)
  {
  }

  lemma LawfulOne(s: State, i: nat, c: Choice)
    requires Aligned(s) && ControlInv(s) && i < |s.pcs| && InOne(s.pcs[i])
    ensures Lawful(s, Step(s, i, c), i)
  {
  }

  lemma LawfulAll(s: State, i: nat, c: Choice)
    requires Aligned(s) && ControlInv(s) && i < |s.pcs|
    requires !Trying(s.pcs[i]) && !Entering(s.pcs[i]) && !Leaving(s.pcs[i]) && !InOne(s.pcs[i])
    ensures Lawful(s, Step(s, i, c), i)
  {
  }

  lemma ControlStep(s: State, i: nat, c: Choice)
    requires Aligned(s) && ControlInv(s) && i < |s.pcs|
    ensures ControlInv(Step(s, i, c))
  {
    if Trying(s.pcs[i]) {
      LawfulTrying(s, i, c);
    } else if Entering(s.pcs[i]) {
      LawfulEntering(s, i, c);
    } else if Leaving(s.pcs[i]) {
      LawfulLeaving(s, i, c);
    } else if InOne(s.pcs[i]) {
      LawfulOne(s, i, c);
    } else {
      LawfulAll(s, i, c);
    }
    LawfulKeeps(s, Step(s, i, c), i);
  }

  // ----- nodes -----

  /** The stepping agent changes neither its node nor the queue. */
  predicate Quiet(s: State, s': State, i: nat)
    requires Aligned(s)
  {
    && i < |s.pcs| && |s'.pcs| == |s.pcs| && s'.pcs == s.pcs[i := s'.pcs[i]]
    && s'.nodes == s.nodes
    && Placed(s'.pcs[i], s.nodes.places[i], s.nodes.hands[i])
  }

  lemma QuietStep(s: State, i: nat, c: Choice)
    requires Aligned(s) && i < |s.pcs| && !Touching(s.pcs[i]) && !s.pcs[i].DropLock?
    requires Placed(s.pcs[i], s.nodes.places[i], s.nodes.hands[i])
    ensures Quiet(s, Step(s, i, c), i)
  {
  }

  lemma QuietKeeps(s: State, s': State, i: nat)
    requires Aligned(s) && Aligned(s') && NodeInv(s) && Quiet(s, s', i)
    ensures NodeInv(s')
  {
  }

  lemma PushNodes(s: State, i: nat, g: nat, future: bool)
    requires Aligned(s) && NodeInv(s) && i < |s.pcs| && s.pcs[i] == EnqPush(g, future)
    ensures NodeInv(PushStep(s, i, g, future))
  {
    PushSound(s.nodes, i);
  }

  lemma DropLockNodes(s: State, i: nat)
    requires Aligned(s) && ControlInv(s) && NodeInv(s) && i < |s.pcs| && s.pcs[i].DropLock?
    ensures Quiet(s, LockExisting(s, i, DropRemove, DropSpin), i)
  {
    assert NodeSound(s.nodes, i);
  }

  /** The agent may touch a node. */
  predicate Touching(pc: Pc) {
    || pc.EnqPush? || pc.DropRemove? || pc.Waiting? || pc.DropSpin?
    || pc.OnePop? || pc.AllTake? || pc.OneSignal? || pc.AllSignal?
  }

  lemma NodeStep(s: State, i: nat, c: Choice)
    requires Aligned(s) && ControlInv(s) && NodeInv(s) && i < |s.pcs|
    ensures NodeInv(Step(s, i, c))
  {
    var pc := s.pcs[i];
    if pc.EnqPush? {
      PushNodes(s, i, pc.g, pc.future);
    } else if pc.DropRemove? {
      DropNodes(s, i);
    } else if pc.DropLock? {
      DropLockNodes(s, i);
      QuietKeeps(s, Step(s, i, c), i);
    } else if pc.Waiting? {
      AwakenNodes(s, i, pc.future, c);
    } else if pc.DropSpin? {
      SpinNodes(s, i);
    } else if pc.OneSignal? || pc.AllSignal? {
      SignalNodes(s, i);
    } else if pc.OnePop? {
      if s.nodes.queue != [] {
        PopNodes(s, i, 1, One);
      }
    } else if pc.AllTake? {
      PopNodes(s, i, Until(Captured(s), pc.live), All);
    } else {
      QuietStep(s, i, c);
      QuietKeeps(s, Step(s, i, c), i);
    }
  }

  lemma DropNodes(s: State, i: nat)
    requires Aligned(s) && NodeInv(s) && i < |s.pcs| && s.pcs[i].DropRemove?
    ensures NodeInv(DropRemoveStep(s, i))
  {
    if i in s.nodes.queue {
      RemoveSound(s.nodes, i);
    } else {
      assert NodeSound(s.nodes, i);
    }
  }

  lemma AwakenNodes(s: State, i: nat, future: bool, c: Choice)
    requires Aligned(s) && NodeInv(s) && i < |s.pcs| && s.pcs[i] == Waiting(future)
    ensures NodeInv(WaitStep(s, i, future, c))
  {
    if s.nodes.places[i].Signaled? {
      ConsumeSound(s.nodes, i);
    }
  }

  lemma SpinNodes(s: State, i: nat)
    requires Aligned(s) && NodeInv(s) && i < |s.pcs| && s.pcs[i].DropSpin?
    ensures NodeInv(DropSpinStep(s, i))
  {
    if s.nodes.places[i].Signaled? {
      ConsumeSound(s.nodes, i);
    }
  }

  lemma SignalNodes(s: State, i: nat)
    requires Aligned(s) && NodeInv(s) && i < |s.pcs| && (s.pcs[i].OneSignal? || s.pcs[i].AllSignal?)
    ensures NodeInv(SignalStep(s, i))
  {
    if s.nodes.hands[i].chain != [] {
      SignalSound(s.nodes, i);
    }
  }

  lemma PopNodes(s: State, i: nat, count: nat, kind: Kind)
    requires Aligned(s) && NodeInv(s) && i < |s.pcs| && (s.pcs[i].OnePop? || s.pcs[i].AllTake?)
    requires count <= |s.nodes.queue|
    ensures var next := if kind == One then WakeOne else WakeAll;
            NodeInv(Goto(s, i, Unlock(next)).(nodes := Pop(s.nodes, i, count, kind)))
  {
    PopSound(s.nodes, i, count, kind);
    forall k | 0 <= k < count
      ensures s.nodes.places[s.nodes.queue[k]].Queued?
    {
      assert NodeSound(s.nodes, s.nodes.queue[k]);
    }
  }

  // ----- generations -----

  lemma PendingMoves(s: State, s': State, i: nat)
    requires i < |s.pcs| && |s'.pcs| == |s.pcs| && s'.pcs == s.pcs[i := s'.pcs[i]]
    ensures Asking(s) && (s.pcs[i].AllLock? ==> s'.pcs[i].AllLock?) ==> Asking(s')
    ensures forall g :: Pending(s, g) && (Owes(s.pcs[i], g) ==> Owes(s'.pcs[i], g)) ==> Pending(s', g)
    ensures Asking(s') ==> forall g :: Pending(s', g)
  {
    if Asking(s) {
      var j :| 0 <= j < |s.pcs| && s.pcs[j].AllLock?;
      assert j != i ==> s'.pcs[j].AllLock?;
    }
    forall g | Pending(s, g) && (Owes(s.pcs[i], g) ==> Owes(s'.pcs[i], g))
      ensures Pending(s', g)
    {
      var j :| 0 <= j < |s.pcs| && Owes(s.pcs[j], g);
      assert j != i ==> Owes(s'.pcs[j], g);
    }
    if Asking(s') {
      var j :| 0 <= j < |s'.pcs| && s'.pcs[j].AllLock?;
      assert forall g :: Owes(s'.pcs[j], g);
    }
  }

  /** The step leaves queue and generation alone, and gives up no broadcast. */
  predicate Calm(s: State, s': State, i: nat)
    requires Aligned(s)
  {
    && i < |s.pcs| && |s'.pcs| == |s.pcs| && s'.pcs == s.pcs[i := s'.pcs[i]]
    && s'.nodes.queue == s.nodes.queue && s'.auxes == s.auxes && s'.bits.gen == s.bits.gen
    && !s.pcs[i].AllLock? && !s.pcs[i].AllRead? && !s.pcs[i].AllTake?
    && (Pushing(s'.pcs[i]) ==> s'.pcs[i].g == s.bits.gen)
    && (s'.pcs[i].EnqCas? ==> s'.pcs[i].seen.gen == s.bits.gen)
    && !s'.pcs[i].AllTake?
  }

  lemma CalmKeeps(s: State, s': State, i: nat)
    requires Aligned(s) && Aligned(s') && GenInv(s) && BroadcastInv(s) && Calm(s, s', i)
    ensures GenInv(s') && BroadcastInv(s')
  {
    assert Captured(s') == Captured(s);
    PendingMoves(s, s', i);
  }

  lemma CalmTrying(s: State, i: nat, c: Choice)
    requires Aligned(s) && i < |s.pcs| && (Trying(s.pcs[i]) || InOne(s.pcs[i])) && !s.pcs[i].OnePop?
    ensures Calm(s, Step(s, i, c), i)
  {
  }

  lemma CalmEntering(s: State, i: nat, c: Choice)
    requires Aligned(s) && i < |s.pcs| && Entering(s.pcs[i]) && !s.pcs[i].EnqPush?
    ensures Calm(s, Step(s, i, c), i)
  {
  }

  lemma CalmLeaving(s: State, i: nat, c: Choice)
    requires Aligned(s) && i < |s.pcs| && Leaving(s.pcs[i]) && !s.pcs[i].DropRemove?
    ensures Calm(s, Step(s, i, c), i)
  {
  }

  /** The lock holder takes some nodes out of the queue, and the others keep their order. */
  lemma FewerKeeps(s: State, s': State, i: nat)
    requires Aligned(s) && Aligned(s') && ControlInv(s) && GenInv(s) && BroadcastInv(s)
    requires i < |s.pcs| && HoldsLock(s.pcs[i]) && s'.bits.gen == s.bits.gen
    requires |s'.pcs| == |s.pcs| && s'.pcs == s.pcs[i := s'.pcs[i]]
    requires s'.pcs[i].Unlock?
    requires Ascending(Captured(s'))
    requires forall k | 0 <= k < |Captured(s')| :: Captured(s')[k] in Captured(s)
    requires forall k | 0 <= k < |Captured(s')| :: s.pcs[i].AllTake? ==> Captured(s')[k] == s.pcs[i].live
    requires !s.pcs[i].AllRead?
    ensures GenInv(s') && BroadcastInv(s')
  {
    PendingMoves(s, s', i);
    forall k | 0 <= k < |Captured(s')| && Captured(s')[k] < s'.bits.gen
      ensures Pending(s', Captured(s')[k])
    {
      var m :| 0 <= m < |Captured(s)| && Captured(s)[m] == Captured(s')[k];
      assert Pending(s, Captured(s)[m]);
    }
  }

  lemma RemoveGenerations(s: State, i: nat)
    requires Aligned(s) && ControlInv(s) && GenInv(s) && BroadcastInv(s)
    requires i < |s.pcs| && s.pcs[i].DropRemove?
    ensures GenInv(DropRemoveStep(s, i)) && BroadcastInv(DropRemoveStep(s, i))
  {
    var s' := DropRemoveStep(s, i);
    if i in s.nodes.queue {
      TagsRemove(s.nodes.queue, s.auxes, i);
      FewerKeeps(s, s', i);
    } else {
      CalmKeeps(s, s', i);
    }
  }

  lemma PopGenerations(s: State, i: nat)
    requires Aligned(s) && ControlInv(s) && GenInv(s) && BroadcastInv(s)
    requires i < |s.pcs| && s.pcs[i].OnePop?
    ensures GenInv(OnePopStep(s, i)) && BroadcastInv(OnePopStep(s, i))
  {
    var s' := OnePopStep(s, i);
    if s.nodes.queue == [] {
      CalmKeeps(s, s', i);
    } else {
      TagsPop(s.nodes.queue, s.auxes, 1);
      FewerKeeps(s, s', i);
    }
  }

  lemma TakeGenerations(s: State, i: nat, live: nat)
    requires Aligned(s) && ControlInv(s) && NodeInv(s) && GenInv(s) && BroadcastInv(s)
    requires i < |s.pcs| && s.pcs[i] == AllTake(live)
    ensures GenInv(AllTakeStep(s, i, live)) && BroadcastInv(AllTakeStep(s, i, live))
  {
    var s' := AllTakeStep(s, i, live);
    var count := Until(Captured(s), live);
    TakeExact(s, i, live);
    TagsPop(s.nodes.queue, s.auxes, count);
    FewerKeeps(s, s', i);
  }

  /** A broadcast that read generation `live` pops exactly the older waiters and keeps exactly the others. */
  lemma TakeExact(s: State, i: nat, live: nat)
    requires Aligned(s) && NodeInv(s) && GenInv(s) && i < |s.pcs| && s.pcs[i] == AllTake(live)
    ensures var count := Until(Captured(s), live);
            && (forall k | 0 <= k < count :: Captured(s)[k] < live)
            && (forall k | count <= k < |s.nodes.queue| :: Captured(s)[k] == live)
  {
    assert Bounded(s.pcs[i], Captured(s), s.bits.gen);
    UntilExact(Captured(s), live);
  }

  lemma PushGenerations(s: State, i: nat, g: nat, future: bool)
    requires Aligned(s) && ControlInv(s) && NodeInv(s) && GenInv(s) && BroadcastInv(s)
    requires i < |s.pcs| && s.pcs[i] == EnqPush(g, future)
    ensures GenInv(PushStep(s, i, g, future)) && BroadcastInv(PushStep(s, i, g, future))
  {
    var s' := PushStep(s, i, g, future);
    assert NodeSound(s.nodes, i);
    TagsPush(s.nodes.queue, s.auxes, i, g);
    PendingMoves(s, s', i);
    assert Bounded(s.pcs[i], Captured(s), s.bits.gen);
    forall k | 0 <= k < |s'.nodes.queue| && Captured(s')[k] < s'.bits.gen
      ensures Pending(s', Captured(s')[k])
    {
      if k < |s.nodes.queue| {
        assert Pending(s, Captured(s)[k]);
      }
    }
  }

  lemma AddGenerations(s: State, i: nat)
    requires Aligned(s) && ControlInv(s) && GenInv(s) && BroadcastInv(s) && i < |s.pcs| && s.pcs[i].AllAdd?
    ensures GenInv(AllAddStep(s, i)) && BroadcastInv(AllAddStep(s, i))
  {
    var s' := AllAddStep(s, i);
    assert Captured(s') == Captured(s);
    PendingMoves(s, s', i);
    if s.bits.hasQueue {
      assert s'.pcs[i].AllLock?;
    }
  }

  lemma AllLockGenerations(s: State, i: nat)
    requires Aligned(s) && ControlInv(s) && GenInv(s) && BroadcastInv(s) && i < |s.pcs| && s.pcs[i].AllLock?
    ensures var s' := LockExisting(s, i, AllRead, Idle); GenInv(s') && BroadcastInv(s')
  {
    var s' := LockExisting(s, i, AllRead, Idle);
    assert Captured(s') == Captured(s);
    PendingMoves(s, s', i);
  }

  lemma AllReadGenerations(s: State, i: nat)
    requires Aligned(s) && ControlInv(s) && GenInv(s) && BroadcastInv(s) && i < |s.pcs| && s.pcs[i].AllRead?
    ensures var s' := Goto(s, i, AllTake(s.bits.gen)); GenInv(s') && BroadcastInv(s')
  {
    var s' := Goto(s, i, AllTake(s.bits.gen));
    assert Captured(s') == Captured(s);
    PendingMoves(s, s', i);
  }

  lemma GenerationStep(s: State, i: nat, c: Choice)
    requires Aligned(s) && ControlInv(s) && NodeInv(s) && GenInv(s) && BroadcastInv(s) && i < |s.pcs|
    ensures GenInv(Step(s, i, c)) && BroadcastInv(Step(s, i, c))
  {
    var pc := s.pcs[i];
    var s' := Step(s, i, c);
    if pc.AllTake? {
      assert s' == AllTakeStep(s, i, pc.live);
      TakeGenerations(s, i, pc.live);
    } else if pc.AllAdd? {
      assert s' == AllAddStep(s, i);
      AddGenerations(s, i);
    } else if pc.AllLock? {
      assert s' == LockExisting(s, i, AllRead, Idle);
      AllLockGenerations(s, i);
    } else if pc.AllRead? {
      assert s' == Goto(s, i, AllTake(s.bits.gen));
      AllReadGenerations(s, i);
    } else {
      GenerationRest(s, i, c);
    }
  }

  lemma GenerationRest(s: State, i: nat, c: Choice)
    requires Aligned(s) && ControlInv(s) && NodeInv(s) && GenInv(s) && BroadcastInv(s) && i < |s.pcs|
    requires !s.pcs[i].AllTake? && !s.pcs[i].AllAdd? && !s.pcs[i].AllLock? && !s.pcs[i].AllRead?
    ensures GenInv(Step(s, i, c)) && BroadcastInv(Step(s, i, c))
  {
    var pc := s.pcs[i];
    if pc.EnqPush? {
      PushGenerations(s, i, pc.g, pc.future);
    } else if pc.DropRemove? {
      RemoveGenerations(s, i);
    } else if pc.OnePop? {
      PopGenerations(s, i);
    } else {
      CalmStep(s, i, c);
      CalmKeeps(s, Step(s, i, c), i);
    }
  }

  lemma CalmStep(s: State, i: nat, c: Choice)
    requires Aligned(s) && i < |s.pcs|
    requires var pc := s.pcs[i];
             && !pc.EnqPush? && !pc.DropRemove? && !pc.OnePop?
             && !pc.AllTake? && !pc.AllAdd? && !pc.AllLock? && !pc.AllRead?
    ensures Calm(s, Step(s, i, c), i)
  {
    if Trying(s.pcs[i]) || InOne(s.pcs[i]) {
      CalmTrying(s, i, c);
    } else if Entering(s.pcs[i]) {
      CalmEntering(s, i, c);
    } else if Leaving(s.pcs[i]) {
      CalmLeaving(s, i, c);
    }
  }

  // ----- the fate of every notify_one -----

  function Unit(b: bool): int { if b then 1 else 0 }

  /** The step enters into the tally what it does, `flight` being the wake-ups that take off less those that land. */
  predicate Booked(s: State, s': State, i: nat, flight: int) {
    && i < |s.pcs| && |s'.pcs| == |s.pcs| && s'.pcs == s.pcs[i := s'.pcs[i]]
    && var t, u := s.tally, s'.tally;
    && (u.calls - t.calls) + (u.redelivered - t.redelivered) ==
         Busy(s'.pcs[i]) - Busy(s.pcs[i]) + (u.saturated - t.saturated) + (u.stored - t.stored) + (u.popped - t.popped)
    && u.stored - t.stored == u.consumed - t.consumed + Unit(s'.bits.permit) - Unit(s.bits.permit)
    && u.popped - t.popped == (u.woken - t.woken) + (u.redelivered - t.redelivered) + flight
  }

  lemma BookedKeeps(s: State, s': State, i: nat, flight: int)
    requires TallyInv(s) && Booked(s, s', i, flight)
    requires Sum(s'.nodes.places, Flight) == Sum(s.nodes.places, Flight) + flight
    ensures TallyInv(s')
  {
    SumUpdate(s.pcs, Busy, i, s'.pcs[i]);
  }

  lemma BookedTrying(s: State, i: nat, c: Choice)
    requires Aligned(s) && i < |s.pcs| && PcFits(s, s.pcs[i]) && Trying(s.pcs[i])
    ensures Booked(s, Step(s, i, c), i, 0) && Step(s, i, c).nodes == s.nodes
  {
  }

  lemma BookedEntering(s: State, i: nat, c: Choice)
    requires Aligned(s) && i < |s.pcs| && PcFits(s, s.pcs[i]) && Entering(s.pcs[i]) && !s.pcs[i].EnqPush?
    ensures Booked(s, Step(s, i, c), i, 0) && Step(s, i, c).nodes == s.nodes
  {
  }

  lemma BookedOne(s: State, i: nat, c: Choice)
    requires Aligned(s) && i < |s.pcs| && PcFits(s, s.pcs[i])
    requires InOne(s.pcs[i]) && !s.pcs[i].OnePop? && !s.pcs[i].OneSignal?
    ensures Booked(s, Step(s, i, c), i, 0) && Step(s, i, c).nodes == s.nodes
  {
  }

  lemma BookedRest(s: State, i: nat, c: Choice)
    requires Aligned(s) && i < |s.pcs| && !Touching(s.pcs[i])
    requires !Trying(s.pcs[i]) && !Entering(s.pcs[i]) && !InOne(s.pcs[i])
    ensures Booked(s, Step(s, i, c), i, 0) && Step(s, i, c).nodes == s.nodes
  {
  }

  lemma BookedQuiet(s: State, i: nat, c: Choice)
    requires Aligned(s) && i < |s.pcs| && PcFits(s, s.pcs[i]) && !Touching(s.pcs[i])
    ensures Booked(s, Step(s, i, c), i, 0) && Step(s, i, c).nodes == s.nodes
  {
    if Trying(s.pcs[i]) {
      BookedTrying(s, i, c);
    } else if Entering(s.pcs[i]) {
      BookedEntering(s, i, c);
    } else if InOne(s.pcs[i]) {
      BookedOne(s, i, c);
    } else {
      BookedRest(s, i, c);
    }
  }

  /** A wake-up lands: in a completed wait, or in a re-delivered `notify_one`. */
  lemma TallyAwaken(s: State, i: nat, future: bool, c: Choice)
    requires Aligned(s) && TallyInv(s) && i < |s.pcs| && s.pcs[i] == Waiting(future)
    ensures TallyInv(WaitStep(s, i, future, c))
  {
    var place := s.nodes.places[i];
    SumUpdate(s.nodes.places, Flight, i, Out);
    BookedKeeps(s, WaitStep(s, i, future, c), i, if place.Signaled? then -Flight(place) else 0);
  }

  lemma TallySpin(s: State, i: nat)
    requires Aligned(s) && TallyInv(s) && i < |s.pcs| && s.pcs[i].DropSpin?
    ensures TallyInv(DropSpinStep(s, i))
  {
    var place := s.nodes.places[i];
    SumUpdate(s.nodes.places, Flight, i, Out);
    BookedKeeps(s, DropSpinStep(s, i), i, if place.Signaled? then -Flight(place) else 0);
  }

  lemma TallyPush(s: State, i: nat, g: nat, future: bool)
    requires Aligned(s) && NodeInv(s) && TallyInv(s) && i < |s.pcs| && s.pcs[i] == EnqPush(g, future)
    ensures TallyInv(PushStep(s, i, g, future))
  {
    SumUpdate(s.nodes.places, Flight, i, Queued);
    BookedKeeps(s, PushStep(s, i, g, future), i, 0);
  }

  lemma TallyRemove(s: State, i: nat)
    requires Aligned(s) && NodeInv(s) && TallyInv(s) && i < |s.pcs| && s.pcs[i].DropRemove?
    ensures TallyInv(DropRemoveStep(s, i))
  {
    if i in s.nodes.queue {
      assert NodeSound(s.nodes, i);
      SumUpdate(s.nodes.places, Flight, i, Out);
    }
    BookedKeeps(s, DropRemoveStep(s, i), i, 0);
  }

  lemma TallySignal(s: State, i: nat)
    requires Aligned(s) && NodeInv(s) && TallyInv(s) && i < |s.pcs| && (s.pcs[i].OneSignal? || s.pcs[i].AllSignal?)
    ensures TallyInv(SignalStep(s, i))
  {
    var hand := s.nodes.hands[i];
    if hand.chain != [] {
      SignalSound(s.nodes, i);
      SumUpdate(s.nodes.places, Flight, hand.chain[0], Signaled(hand.value));
    }
    BookedKeeps(s, SignalStep(s, i), i, 0);
  }

  /** The one waiter a `notify_one` pops takes off. */
  lemma TallyPop(s: State, i: nat)
    requires Aligned(s) && NodeInv(s) && TallyInv(s) && i < |s.pcs| && s.pcs[i].OnePop?
    ensures TallyInv(OnePopStep(s, i))
  {
    var s' := OnePopStep(s, i);
    if s.nodes.queue == [] {
      BookedKeeps(s, s', i, 0);
    } else {
      var x := s.nodes.queue[0];
      assert NodeSound(s.nodes, x);
      assert s'.nodes.places == s.nodes.places[x := Popped(i, One)];
      SumUpdate(s.nodes.places, Flight, x, Popped(i, One));
      BookedKeeps(s, s', i, 1);
    }
  }

  lemma TallyTake(s: State, i: nat, live: nat)
    requires Aligned(s) && NodeInv(s) && TallyInv(s) && i < |s.pcs| && s.pcs[i] == AllTake(live)
    ensures TallyInv(AllTakeStep(s, i, live))
  {
    var s' := AllTakeStep(s, i, live);
    forall k | 0 <= k < |s.nodes.places|
      ensures Flight(s.nodes.places[k]) == Flight(s'.nodes.places[k])
    {
      assert NodeSound(s.nodes, k);
    }
    SumSame(s.nodes.places, s'.nodes.places, Flight);
    BookedKeeps(s, s', i, 0);
  }

  lemma TallyStep(s: State, i: nat, c: Choice)
    requires Aligned(s) && ControlInv(s) && NodeInv(s) && TallyInv(s) && i < |s.pcs|
    ensures TallyInv(Step(s, i, c))
  {
    var pc := s.pcs[i];
    if pc.EnqPush? {
      TallyPush(s, i, pc.g, pc.future);
    } else if pc.DropRemove? {
      TallyRemove(s, i);
    } else if pc.Waiting? {
      TallyAwaken(s, i, pc.future, c);
    } else if pc.DropSpin? {
      TallySpin(s, i);
    } else {
      TallyRest(s, i, c);
    }
  }

  lemma TallyRest(s: State, i: nat, c: Choice)
    requires Aligned(s) && ControlInv(s) && NodeInv(s) && TallyInv(s) && i < |s.pcs|
    requires !s.pcs[i].EnqPush? && !s.pcs[i].DropRemove? && !s.pcs[i].Waiting? && !s.pcs[i].DropSpin?
    ensures TallyInv(Step(s, i, c))
  {
    var pc := s.pcs[i];
    if pc.OneSignal? || pc.AllSignal? {
      TallySignal(s, i);
      assert Step(s, i, c) == SignalStep(s, i);
    } else if pc.OnePop? {
      TallyPop(s, i);
      assert Step(s, i, c) == OnePopStep(s, i);
    } else if pc.AllTake? {
      TallyTake(s, i, pc.live);
      assert Step(s, i, c) == AllTakeStep(s, i, pc.live);
    } else {
      TallyQuiet(s, i, c);
    }
  }

  lemma TallyQuiet(s: State, i: nat, c: Choice)
    requires Aligned(s) && i < |s.pcs| && PcFits(s, s.pcs[i]) && TallyInv(s) && !Touching(s.pcs[i])
    ensures TallyInv(Step(s, i, c))
  {
    BookedQuiet(s, i, c);
    BookedKeeps(s, Step(s, i, c), i, 0);
  }

  // ----- every run -----

  lemma StepKeeps(s: State, i: nat, c: Choice)
    requires Inv(s)
    ensures Inv(Step(s, i, c))
  {
    if i < |s.pcs| {
      ControlStep(s, i, c);
      NodeStep(s, i, c);
      GenerationStep(s, i, c);
      TallyStep(s, i, c);
    }
  }

  lemma InitHolds(s: State)
    requires Init(s)
    ensures Inv(s)
  {
    SumZero(s.pcs, Busy);
    SumZero(s.nodes.places, Flight);
    forall i | 0 <= i < |s.pcs|
      ensures NodeSound(s.nodes, i)
    {
    }
  }

  lemma {:induction false} RunHolds(s: State, schedule: seq<(nat, Choice)>)
    requires Init(s)
    ensures Inv(Run(s, schedule))
    decreases |schedule|
  {
    if schedule == [] {
      InitHolds(s);
    } else {
      var last := schedule[|schedule| - 1];
      RunHolds(s, schedule[..|schedule| - 1]);
      StepKeeps(Run(s, schedule[..|schedule| - 1]), last.0, last.1);
    }
  }

  /** A stored permit and a queued waiter never coexist, and HAS_QUEUE is clear whenever the word is NULL. */
  lemma PermitExcludesWaiters(s: State, schedule: seq<(nat, Choice)>)
    requires Init(s)
    ensures var e := Run(s, schedule);
            && (e.bits.permit ==> e.nodes.queue == [])
            && (e.nodes.queue != [] ==> e.bits.hasQueue)
            && (e.lock == Null ==> !e.bits.hasQueue)
  {
    RunHolds(s, schedule);
  }

  /**
    Captured generations are ascending and never ahead of the live one; waiters of a past generation have a
    broadcaster pending, so with no broadcaster under way every queued waiter carries the live generation.
   */
  lemma GenerationsOrdered(s: State, schedule: seq<(nat, Choice)>)
    requires Init(s)
    ensures var e := Run(s, schedule);
            && Ascending(Captured(e))
            && (forall k | 0 <= k < |e.nodes.queue| ::
                  Captured(e)[k] == e.bits.gen || (Captured(e)[k] < e.bits.gen && Pending(e, Captured(e)[k])))
  {
    RunHolds(s, schedule);
  }

  /** The broadcast of agent `i` releases exactly the waiters older than the generation it read. */
  lemma BroadcastExact(s: State, schedule: seq<(nat, Choice)>, i: nat, live: nat)
    requires Init(s)
    requires i < |Run(s, schedule).pcs| && Run(s, schedule).pcs[i] == AllTake(live)
    ensures var e := Run(s, schedule);
            var e' := Step(e, i, Go);
            var chain := e'.nodes.hands[i].chain;
            && e.nodes.queue == chain + e'.nodes.queue
            && (forall k | 0 <= k < |chain| :: Captured(e)[k] < live)
            && (forall k | |chain| <= k < |e.nodes.queue| :: Captured(e)[k] == live)
  {
    RunHolds(s, schedule);
    TakeResult(Run(s, schedule), i, live);
  }

  lemma TakeResult(e: State, i: nat, live: nat)
    requires Aligned(e) && NodeInv(e) && GenInv(e) && i < |e.pcs| && e.pcs[i] == AllTake(live)
    ensures var e' := Step(e, i, Go);
            var chain := e'.nodes.hands[i].chain;
            && e.nodes.queue == chain + e'.nodes.queue
            && (forall k | 0 <= k < |chain| :: Captured(e)[k] < live)
            && (forall k | |chain| <= k < |e.nodes.queue| :: Captured(e)[k] == live)
  {
    TakeExact(e, i, live);
    var e' := AllTakeStep(e, i, live);
    assert Step(e, i, Go) == e';
    assert e'.nodes.hands[i].chain == e.nodes.queue[..Until(Captured(e), live)];
  }

  /** A waiter is queued, in the chain of the one agent that popped it, or signaled; a spinning one was popped. */
  lemma WaitersTracked(s: State, schedule: seq<(nat, Choice)>, i: nat)
    requires Init(s)
    requires i < |Run(s, schedule).pcs| && Parked(Run(s, schedule).pcs[i])
    ensures var e := Run(s, schedule);
            var place := e.nodes.places[i];
            && (place.Signaled? || i in e.nodes.queue
                || (place.Popped? && place.taker < |e.pcs| && Waking(e.pcs[place.taker])
                    && i in e.nodes.hands[place.taker].chain))
            && (Spinning(e.pcs[i]) ==> i !in e.nodes.queue)
  {
    RunHolds(s, schedule);
    assert NodeSound(Run(s, schedule).nodes, i);
  }

  /**
    Every `notify_one`, re-deliveries included, is in progress, saturated, stored, or has popped one waiter;
    every stored permit is consumed once or still stored; every popped waiter completes one wait, re-delivers
    one `notify_one`, or still has the wake-up before it.
   */
  lemma WakeupsConserved(s: State, schedule: seq<(nat, Choice)>)
    requires Init(s)
    ensures var e := Run(s, schedule);
            && e.tally.calls + e.tally.redelivered ==
                 Sum(e.pcs, Busy) + e.tally.saturated + e.tally.stored + e.tally.popped
            && e.tally.stored == e.tally.consumed + Unit(e.bits.permit)
            && e.tally.popped == e.tally.woken + e.tally.redelivered + Sum(e.nodes.places, Flight)
  {
    RunHolds(s, schedule);
  }

  /** Once all is quiet, each call ended exactly one wait, saturated, or is the stored permit. */
  lemma NoWakeupLost(s: State, schedule: seq<(nat, Choice)>)
    requires Init(s)
    requires forall i | 0 <= i < |Run(s, schedule).pcs| :: Run(s, schedule).pcs[i].Idle?
    ensures var e := Run(s, schedule);
            e.tally.calls == e.tally.woken + e.tally.consumed + e.tally.saturated + Unit(e.bits.permit)
  {
    RunHolds(s, schedule);
    var e := Run(s, schedule);
    SumZero(e.pcs, Busy);
    SumZero(e.nodes.places, Flight);
  }
}

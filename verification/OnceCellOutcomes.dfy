/** Where the value of the cell comes from, how every call ends, and that it ends as soon as it can. */
module OnceCellOutcomes {
  import opened Schedules
  import opened WaitWord
  import opened OnceCell
  import opened OnceCellProof

  // ----- the value -----

  /** At some point of the schedule agent `i` had the role and its closure or future yielded `v`. */
  predicate Yielded(s: State, schedule: seq<(nat, Choice)>, i: nat, v: int) {
    && schedule != []
    && var before, last := schedule[..|schedule| - 1], schedule[|schedule| - 1];
    || Yielded(s, before, i, v)
    || (last == (i, Yield(v)) && i < |Run(s, before).agents| && Run(s, before).agents[i].pc.Initializing?)
  }

  /** At some point of the schedule agent `i` called `set` with `v`. */
  predicate Offered(s: State, schedule: seq<(nat, Choice)>, i: nat, v: int) {
    && schedule != []
    && var before, last := schedule[..|schedule| - 1], schedule[|schedule| - 1];
    || Offered(s, before, i, v)
    || (last == (i, Begin(Set(v))) && i < |Run(s, before).agents| && Run(s, before).agents[i].pc.Idle?)
  }

  /** The agent has the role and stores `v`, which it was given by its own closure or its own `set`. */
  predicate Stores(s: State, schedule: seq<(nat, Choice)>, i: nat, v: int) {
    && i < |Run(s, schedule).agents|
    && var pc := Run(s, schedule).agents[i].pc;
    && pc.Write? && pc.value == v
    && if pc.getter then Yielded(s, schedule, i, v) else Offered(s, schedule, i, v)
  }

  /** At some point of the schedule somebody stored `v` in this way. */
  predicate Stored(s: State, schedule: seq<(nat, Choice)>, v: int) {
    && schedule != []
    && var before, last := schedule[..|schedule| - 1], schedule[|schedule| - 1];
    Stored(s, before, v) || Stores(s, before, last.0, v)
  }

  predicate Carried(s: State, schedule: seq<(nat, Choice)>, i: nat, pc: Pc) {
    && (pc.SetCas? ==> Offered(s, schedule, i, pc.value))
    && (pc.Write? ==> if pc.getter then Yielded(s, schedule, i, pc.value) else Offered(s, schedule, i, pc.value))
  }

  predicate OriginInv(s: State, schedule: seq<(nat, Choice)>) {
    var e := Run(s, schedule);
    && (forall i | 0 <= i < |e.agents| :: Carried(s, schedule, i, e.agents[i].pc))
    && (e.slot.Holds? ==> e.slot == s.slot || Stored(s, schedule, e.slot.value))
  }

  /** A step carries a value on, or receives one from its caller. */
  predicate Receives(s: State, s': State, i: nat, c: Choice)
    requires i < |s.agents|
  {
    && |s'.agents| == |s.agents|
    && (forall j | 0 <= j < |s.agents| && j != i :: s'.agents[j].pc == s.agents[j].pc)
    && var pc, pc' := s.agents[i].pc, s'.agents[i].pc;
    && (pc'.SetCas? ==> pc' == pc || (pc.Idle? && c == Begin(Set(pc'.value))))
    && (pc'.Write? ==>
          || pc' == pc
          || (pc.Initializing? && c == Yield(pc'.value) && pc'.getter)
          || (pc == SetCas(pc'.value) && !pc'.getter))
    && (if pc.Write? then s'.slot == Holds(pc.value) else s'.slot == s.slot)
  }

  lemma EnterReceives(s: State, i: nat, c: Choice)
    requires i < |s.agents| && Entering(s.agents[i].pc)
    ensures Receives(s, Step(s, i, c), i, c)
  {
  }

  lemma InitReceives(s: State, i: nat, c: Choice)
    requires i < |s.agents| && Initiating(s.agents[i].pc)
    ensures Receives(s, Step(s, i, c), i, c)
  {
  }

  lemma LeaveReceives(s: State, i: nat, c: Choice)
    requires i < |s.agents| && !Entering(s.agents[i].pc) && !Initiating(s.agents[i].pc)
    ensures Receives(s, Step(s, i, c), i, c)
  {
  }

  lemma StepReceives(s: State, i: nat, c: Choice)
    requires i < |s.agents|
    ensures Receives(s, Step(s, i, c), i, c)
  {
    if Entering(s.agents[i].pc) {
      EnterReceives(s, i, c);
    } else if Initiating(s.agents[i].pc) {
      InitReceives(s, i, c);
    } else {
      LeaveReceives(s, i, c);
    }
  }

  lemma {:induction false} RunOrigin(s: State, schedule: seq<(nat, Choice)>)
    requires Init(s)
    ensures OriginInv(s, schedule)
    decreases |schedule|
  {
    if schedule != [] {
      var before, last := schedule[..|schedule| - 1], schedule[|schedule| - 1];
      var e := Run(s, before);
      RunOrigin(s, before);
      if last.0 < |e.agents| {
        StepReceives(e, last.0, last.1);
        assert Carried(s, before, last.0, e.agents[last.0].pc);
        forall i | 0 <= i < |Run(s, schedule).agents|
          ensures Carried(s, schedule, i, Run(s, schedule).agents[i].pc)
        {
          assert Carried(s, before, i, e.agents[i].pc);
        }
      }
    }
  }

  /**
    Every value the cell holds or any getter has returned is the one it was created with, or was stored by an
    agent that had the role and got it from its own closure or its own `set`.
   */
  lemma ValueOrigin(s: State, schedule: seq<(nat, Choice)>, v: int)
    requires Init(s)
    requires var e := Run(s, schedule); e.slot == Holds(v) || v in e.returned
    ensures s.slot == Holds(v) || Stored(s, schedule, v)
  {
    RunOrigin(s, schedule);
    RunHolds(s, schedule);
  }

  /** Agent `i` is about to store `v`, or the cell holds `v`. */
  predicate Kept(s: State, i: nat, v: int) {
    i < |s.agents| && ((s.agents[i].pc.Write? && s.agents[i].pc.value == v) || s.slot == Holds(v))
  }

  lemma KeptStep(s: State, j: nat, c: Choice, i: nat, v: int)
    requires SlotInv(s) && RoleInv(s) && Kept(s, i, v)
    ensures Kept(Step(s, j, c), i, v)
  {
    if j < |s.agents| {
      StepReceives(s, j, c);
      SlotStep(s, j, c);
    }
  }

  /** A value that a closure yielded, or with which `set` won the role, is not lost: it is stored, and stays. */
  lemma {:induction false} ValueKept(s: State, before: seq<(nat, Choice)>, i: nat, v: int, after: seq<(nat, Choice)>)
    requires Init(s) && Kept(Run(s, before), i, v)
    ensures Kept(Run(s, before + after), i, v)
    decreases |after|
  {
    if after == [] {
      assert before + after == before;
    } else {
      var shorter, last := after[..|after| - 1], after[|after| - 1];
      ValueKept(s, before, i, v, shorter);
      RunHolds(s, before + shorter);
      DropLast(before, after);
      KeptStep(Run(s, before + shorter), last.0, last.1, i, v);
    }
  }

  // ----- how a call ends -----

  /** What a call finds out in one step. */
  predicate FoundOut(s: State, s': State, i: nat, c: Choice)
    requires i < |s.agents|
  {
    && |s'.agents| == |s.agents|
    && var pc, pc' := s.agents[i].pc, s'.agents[i].pc;
    match pc
    case Idle =>
      c.Begin? ==>
        pc' == (match c.op
                case GetOrInit(future) => Load(future)
                case Set(v) => SetCas(v)
                case GetOnly => Get)
    case Get => pc' == if s.phase == Ready then Return else Idle
    case SetCas(v) => if s.phase == Empty then pc' == Write(v, false) && s'.runner == Someone(i) else pc'.Idle?
    case Load(future) =>
      pc' == (match s.phase case Ready => Return case Empty => BeginCas(future) case Running => EnqLock(future))
    case BeginCas(future) =>
      if s.phase == Empty then pc' == Initializing(future) && s'.runner == Someone(i) else pc' == Load(future)
    case Initializing(future) =>
      pc' == (if c.Yield? then Write(c.value, true)
              else if c.Fail? || (c.Abandon? && future) then Abort
              else pc)
    case Complete(_) => s'.phase == Ready
    case Abort => s'.phase == Empty
    case Return => pc'.Idle? && s.slot.Holds? && s'.returned == s.returned + [s.slot.value]
    case _ => true
  }

  /** Getting, setting and initializing go by the state of the cell, and a getter returns what the slot holds. */
  lemma CallOutcome(s: State, schedule: seq<(nat, Choice)>, i: nat, c: Choice)
    requires Init(s) && i < |Run(s, schedule).agents|
    ensures FoundOut(Run(s, schedule), Step(Run(s, schedule), i, c), i, c)
  {
    RunHolds(s, schedule);
    StepReceives(Run(s, schedule), i, c);
    FindsOut(Run(s, schedule), i, c);
  }

  lemma FindsOut(s: State, i: nat, c: Choice)
    requires Inv(s) && i < |s.agents| && |Step(s, i, c).agents| == |s.agents|
    ensures FoundOut(s, Step(s, i, c), i, c)
  {
  }

  /** The agent is inside a `get_or_init` that has not failed and was not dropped. */
  predicate Getting(pc: Pc) {
    match pc
    case Load(_) => true
    case BeginCas(_) => true
    case Initializing(_) => true
    case Write(_, getter) => getter
    case Complete(getter) => getter
    case CompleteLock(getter) => getter
    case CompleteTake(getter) => getter
    case Signaling(_, getter) => getter
    case Return => true
    case EnqLock(_) => true
    case EnqCheck(_) => true
    case EnqPush(_) => true
    case Unlock(next) => next.Reload? || next.Park? || (next.WakeAll? && next.getter)
    case Waiting(_) => true
    case _ => false
  }

  /** Why a getter may end: it returns the value, its own initializer failed, or its future is dropped. */
  predicate GetterDone(s: State, s': State, i: nat, c: Choice)
    requires i < |s.agents|
  {
    var pc := s.agents[i].pc;
    || (pc.Return? && s.slot.Holds? && s'.returned == s.returned + [s.slot.value])
    || (pc.Initializing? && (c.Fail? || (pc.future && c.Abandon?)))
    || (pc.Waiting? && pc.future && c.Abandon?)
  }

  lemma EnterEnds(s: State, i: nat, c: Choice)
    requires i < |s.agents| && Getting(s.agents[i].pc) && Entering(s.agents[i].pc)
    ensures i < |Step(s, i, c).agents| && Getting(Step(s, i, c).agents[i].pc)
  {
  }

  lemma InitEnds(s: State, i: nat, c: Choice)
    requires SlotInv(s) && i < |s.agents| && Getting(s.agents[i].pc) && Initiating(s.agents[i].pc)
    ensures i < |Step(s, i, c).agents|
    ensures Getting(Step(s, i, c).agents[i].pc) || GetterDone(s, Step(s, i, c), i, c)
  {
  }

  lemma WaitEnds(s: State, i: nat, future: bool, c: Choice)
    requires i < |s.agents| && s.agents[i].pc == Waiting(future)
    ensures i < |WaitStep(s, i, future, c).agents|
    ensures Getting(WaitStep(s, i, future, c).agents[i].pc) || GetterDone(s, WaitStep(s, i, future, c), i, c)
  {
  }

  /** No getter comes back without the value, unless its own initializer failed or it was dropped. */
  lemma GetterEnds(s: State, schedule: seq<(nat, Choice)>, i: nat, c: Choice)
    requires Init(s) && i < |Run(s, schedule).agents| && Getting(Run(s, schedule).agents[i].pc)
    ensures var e := Run(s, schedule);
            var e' := Step(e, i, c);
            i < |e'.agents| && (Getting(e'.agents[i].pc) || GetterDone(e, e', i, c))
  {
    RunHolds(s, schedule);
    var e := Run(s, schedule);
    if Entering(e.agents[i].pc) {
      EnterEnds(e, i, c);
    } else if Initiating(e.agents[i].pc) {
      InitEnds(e, i, c);
    } else {
      WaitEnds(e, i, e.agents[i].pc.future, c);
    }
  }

  // ----- nobody waits needlessly -----

  predicate Locks(pc: Pc) { pc.EnqLock? || pc.CompleteLock? || pc.RetryLock? || pc.CancelLock? }

  predicate HasSignal(place: Place) { place.Signaled? || place.Retry? }

  /** The agent has nothing to do, runs its initializer, needs the lock another one holds, or waits for a signal. */
  predicate Resting(s: State, i: nat)
    requires i < |s.agents|
  {
    var a := s.agents[i];
    || a.pc.Idle? || a.pc.Initializing?
    || (Locks(a.pc) && s.word.Held?)
    || ((a.pc.Waiting? || a.pc.CancelSpin?) && !HasSignal(a.node.place))
  }

  function LoadRank(phase: Phase): nat {
    match phase
    case Ready => 2
    case Empty => 3
    case Running => 8
  }

  /** How many steps agent `i` needs at most until it rests, if nobody else moves. */
  function Rank(s: State, i: nat): nat
    requires i < |s.agents|
  {
    var waiting := if HasSignal(s.agents[i].node.place) then 12 else 1;
    match s.agents[i].pc
    case Idle => 0
    case Initializing(_) => 0
    case Get => 2
    case SetCas(_) => 8 + |s.queue|
    case Load(_) => LoadRank(s.phase)
    case BeginCas(_) => if s.phase == Empty then 2 else LoadRank(s.phase) + 1
    case Write(_, _) => 7 + |s.queue|
    case Complete(_) => 6 + |s.queue|
    case CompleteLock(_) => 5 + |s.queue|
    case CompleteTake(_) => 4 + |s.queue|
    case Signaling(chain, _) => 2 + |chain|
    case Return => 1
    case Abort => 5
    case RetryLock => 4
    case RetryPop => 3
    case RetrySignal(_) => 1
    case EnqLock(_) => 7
    case EnqCheck(_) => 6
    case EnqPush(_) => 5
    case Unlock(next) =>
      (match next
       case Reload(_) => LoadRank(s.phase) + 1
       case Park(_) => waiting + 1
       case SpinOn => 6
       case WakeAll(woken, _) => 3 + |woken|
       case WakeOne(_) => 2
       case Leave => 1)
    case Waiting(_) => waiting
    case CancelLock => 8
    case CancelRemove => 7
    case CancelSpin => 5
  }

  predicate Nearer(s: State, s': State, i: nat)
    requires i < |s.agents|
  {
    |s'.agents| == |s.agents| && Rank(s', i) < Rank(s, i)
  }

  lemma CallNearer(s: State, i: nat)
    requires i < |s.agents|
    requires var pc := s.agents[i].pc; pc.Get? || pc.SetCas? || pc.Load? || pc.BeginCas?
    ensures Nearer(s, Step(s, i, Go), i)
  {
  }

  lemma EnqueueNearer(s: State, i: nat)
    requires i < |s.agents| && !Resting(s, i)
    requires var pc := s.agents[i].pc; pc.EnqLock? || pc.EnqCheck? || pc.EnqPush?
    ensures Nearer(s, Step(s, i, Go), i)
  {
  }

  lemma UnlockNearer(s: State, i: nat, next: Then)
    requires i < |s.agents| && s.agents[i].pc == Unlock(next)
    ensures Nearer(s, UnlockStep(s, i, next), i)
  {
  }

  lemma InitNearer(s: State, i: nat)
    requires i < |s.agents| && NodeOk(s, i) && !Resting(s, i) && Initiating(s.agents[i].pc)
    ensures Nearer(s, Step(s, i, Go), i)
  {
  }

  lemma PassNearer(s: State, i: nat)
    requires i < |s.agents| && NodeOk(s, i) && !Resting(s, i) && Passing(s.agents[i].pc)
    ensures Nearer(s, Step(s, i, Go), i)
  {
    assert s.agents[i].pc.RetrySignal? ==> Chain(s.agents[i].pc)[0] < |s.agents|;
  }

  lemma WaitNearer(s: State, i: nat, future: bool)
    requires i < |s.agents| && s.agents[i].pc == Waiting(future) && !Resting(s, i)
    ensures Nearer(s, WaitStep(s, i, future, Go), i)
  {
  }

  lemma CancelNearer(s: State, i: nat)
    requires i < |s.agents| && !Resting(s, i)
    requires var pc := s.agents[i].pc; pc.CancelLock? || pc.CancelRemove? || pc.CancelSpin?
    ensures Nearer(s, Step(s, i, Go), i)
  {
  }

  /** An agent that is not resting gets nearer to its rest with every step; one that rests stays as it is. */
  lemma Advances(s: State, i: nat)
    requires Inv(s) && i < |s.agents|
    ensures if Resting(s, i) then Step(s, i, Go) == s else Nearer(s, Step(s, i, Go), i)
  {
    var pc := s.agents[i].pc;
    assert NodeOk(s, i);
    if Resting(s, i) {
    } else if pc.Unlock? {
      UnlockNearer(s, i, pc.next);
    } else if pc.EnqLock? || pc.EnqCheck? || pc.EnqPush? {
      EnqueueNearer(s, i);
    } else if Entering(pc) {
      CallNearer(s, i);
    } else if Initiating(pc) {
      InitNearer(s, i);
    } else if Passing(pc) {
      PassNearer(s, i);
    } else if pc.Waiting? {
      WaitNearer(s, i, pc.future);
    } else {
      CancelNearer(s, i);
    }
  }

  function Alone(s: State, i: nat, n: nat): State
    decreases n
  {
    if n == 0 then s else Alone(Step(s, i, Go), i, n - 1)
  }

  lemma {:induction false} RestsSoon(s: State, i: nat) returns (n: nat)
    requires Inv(s) && i < |s.agents|
    ensures n <= Rank(s, i) && i < |Alone(s, i, n).agents| && Resting(Alone(s, i, n), i)
    decreases Rank(s, i)
  {
    Advances(s, i);
    if Resting(s, i) {
      n := 0;
    } else {
      StepKeeps(s, i, Go);
      var m := RestsSoon(Step(s, i, Go), i);
      n := m + 1;
    }
  }

  /**
    From every reachable state, any agent that is left alone comes to rest: it returns, or runs its initializer,
    or finds the lock held, or waits for a signal. The holder of the lock never rests.
   */
  lemma ComesToRest(s: State, schedule: seq<(nat, Choice)>, i: nat) returns (n: nat)
    requires Init(s) && i < |Run(s, schedule).agents|
    ensures var e := Run(s, schedule);
            && n <= Rank(e, i) && i < |Alone(e, i, n).agents| && Resting(Alone(e, i, n), i)
            && (Resting(e, i) <==> Step(e, i, Go) == e)
            && (e.word == Held(i) ==> !Resting(e, i))
  {
    RunHolds(s, schedule);
    var e := Run(s, schedule);
    n := RestsSoon(e, i);
    Advances(e, i);
    assert HoldsLock(e.agents[i].pc) <==> e.word == Held(i);
  }

  // ----- when nothing moves any more -----

  predicate Quiescent(s: State) { forall i | 0 <= i < |s.agents| :: Resting(s, i) }

  lemma LockFree(s: State)
    requires LockInv(s) && Quiescent(s)
    ensures !s.word.Held?
  {
    forall i | 0 <= i < |s.agents|
      ensures s.word != Held(i)
    {
      assert Resting(s, i) ==> !HoldsLock(s.agents[i].pc);
    }
  }

  /** The agent is idle, runs its initializer, or waits in the queue. */
  predicate Settled(s: State, i: nat)
    requires i < |s.agents|
  {
    s.agents[i].pc.Idle? || s.agents[i].pc.Initializing? || (s.agents[i].pc.Waiting? && i in s.queue)
  }

  lemma RestingSettled(s: State, i: nat)
    requires NodeInv(s) && Quiescent(s) && !s.word.Held? && i < |s.agents|
    ensures Settled(s, i)
  {
    assert Resting(s, i) && NodeOk(s, i);
    assert forall j | 0 <= j < |s.agents| :: Resting(s, j) ==> Chain(s.agents[j].pc) == [];
  }

  /** With nobody initializing, the role is free and no waiter is left. */
  lemma NobodyWaits(s: State)
    requires RoleInv(s) && TakeoverInv(s) && NodeInv(s) && Quiescent(s) && !s.word.Held?
    requires forall i | 0 <= i < |s.agents| :: !s.agents[i].pc.Initializing?
    ensures s.phase != Running && s.queue == []
  {
    forall i | 0 <= i < |s.agents|
      ensures s.runner != Someone(i) && !Carries(s.agents[i]) && !OwesDrain(s.agents[i].pc)
    {
      assert Resting(s, i) && NodeOk(s, i);
    }
  }

  /**
    No deadlock: when no agent can move, whoever waits stands in the queue while some initializer runs; so
    with none running everybody is idle, however many initializers have failed or been dropped.
   */
  lemma StopsOnlyForInitializer(s: State, schedule: seq<(nat, Choice)>)
    requires Init(s) && Quiescent(Run(s, schedule))
    ensures var e := Run(s, schedule);
            && (forall i | 0 <= i < |e.agents| :: Settled(e, i))
            && ((exists i | 0 <= i < |e.agents| :: e.agents[i].pc.Initializing?) <==> e.phase == Running)
            && (e.phase != Running ==> e.queue == [])
  {
    RunHolds(s, schedule);
    var e := Run(s, schedule);
    LockFree(e);
    forall i | 0 <= i < |e.agents|
      ensures Settled(e, i)
    {
      RestingSettled(e, i);
    }
    if forall i | 0 <= i < |e.agents| :: !e.agents[i].pc.Initializing? {
      NobodyWaits(e);
    }
  }
}

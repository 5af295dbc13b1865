/**
  The handshake between a polled future and its signaler: the waker slot with its spin lock, the order
  take, publish, wake, and the re-registration of a future that is polled again while it waits.
 */
module WakeHandoff {
  import opened Schedules

  /** A waker stands for what it wakes, one async task. */
  datatype Slot = Empty | Thread | Waker(task: nat)

  datatype Registered = Armed | WasEmpty

  /** `store_async`: afterwards the slot wakes `task`; reports whether it was empty before. */
  function StoreAsync(slot: Slot, task: nat): (Slot, Registered) {
    (Waker(task), if slot.Empty? then WasEmpty else Armed)
  }

  /** The slot as the signaler and the future share it. */
  class DynamicWaker {
    var updating: bool
    var slot: Slot

    constructor (initial: Slot)
      ensures !updating && slot == initial
    {
      updating, slot := false, initial;
    }

    /**
      One round of the spin: swap the lock word, and if it was free store the waker and unlock. Keeps a stored
      waker that would wake the same task, and replaces anything else.
     */
    method Register(task: nat) returns (done: bool, outcome: Registered)
      modifies this
      ensures done <==> !old(updating)
      ensures done ==> !updating && (slot, outcome) == StoreAsync(old(slot), task)
      ensures !done ==> updating && slot == old(slot)
    {
      done, updating := !updating, true;
      outcome := Armed;
      if done {
        outcome := RegisterUnsync(task);
        updating := false;
      }
    }

    method RegisterUnsync(task: nat) returns (outcome: Registered)
      modifies `slot
      ensures (slot, outcome) == StoreAsync(old(slot), task)
    {
      outcome := if slot.Empty? then WasEmpty else Armed;
      if !slot.Waker? || slot.task != task {
        slot := Waker(task);
      }
    }

    /** One round of the spin, to take what is stored. */
    method Take() returns (done: bool, taken: Slot)
      modifies this
      ensures done <==> !old(updating)
      ensures done ==> !updating && slot == Empty && taken == old(slot)
      ensures !done ==> updating && slot == old(slot)
    {
      done, updating := !updating, true;
      taken := Empty;
      if done {
        taken, slot := slot, Empty;
        updating := false;
      }
    }
  }

  // ----- the protocol -----

  /** A poll by `task`: load, lock the slot, store, unlock, re-read, wake itself; `Drop` spins for the signal. */
  datatype Poller =
    | Pending
    | Load(task: nat)
    | RegLock(task: nat)
    | RegStore(task: nat)
    | RegUnlock(task: nat, outcome: Registered)
    | Reload(task: nat)
    | SelfWake(task: nat)
    | Drop
    | Done

  datatype Signaler =
    | TakeLock
    | TakeSlot
    | TakeUnlock(taken: Slot)
    | Publish(taken: Slot)
    | Wake(taken: Slot)
    | Finished

  /** `woken` are the tasks with a wake-up pending; `owner` is whoever polled the future last. */
  datatype State = State(
    signaled: bool, slot: Slot, updating: bool, woken: set<nat>, owner: nat, poller: Poller, signaler: Signaler)

  datatype Choice = Signal | Continue | Poll(task: nat) | Abandon

  /** The executor polls the future with `task`'s waker, and takes that task's pending wake-up off. */
  function PollerStep(s: State, c: Choice): State {
    match s.poller
    case Pending =>
      if c.Poll? then s.(poller := Load(c.task), owner := c.task, woken := s.woken - {c.task})
      else if c.Abandon? then s.(poller := Drop)
      else s
    case Load(t) => s.(poller := if s.signaled then Done else RegLock(t))
    case RegLock(t) => if s.updating then s else s.(updating := true, poller := RegStore(t))
    case RegStore(t) =>
      var (slot, outcome) := StoreAsync(s.slot, t);
      s.(slot := slot, poller := RegUnlock(t, outcome))
    case RegUnlock(t, outcome) => s.(updating := false, poller := if outcome.Armed? then Pending else Reload(t))
    case Reload(t) => s.(poller := if s.signaled then Done else SelfWake(t))
    case SelfWake(t) => s.(woken := s.woken + {t}, poller := Pending)
    case Drop => if s.signaled then s.(poller := Done) else s
    case Done => s
  }

  function SignalerStep(s: State): State {
    match s.signaler
    case TakeLock => if s.updating then s else s.(updating := true, signaler := TakeSlot)
    case TakeSlot => s.(slot := Empty, signaler := TakeUnlock(s.slot))
    case TakeUnlock(taken) => s.(updating := false, signaler := Publish(taken))
    case Publish(taken) => s.(signaled := true, signaler := Wake(taken))
    case Wake(taken) => s.(woken := if taken.Waker? then s.woken + {taken.task} else s.woken, signaler := Finished)
    case Finished => s
  }

  function Step(s: State, c: Choice): State {
    if c.Signal? then SignalerStep(s) else PollerStep(s, c)
  }

  /** The first poll registered its waker before the push, and returned pending. */
  predicate Init(s: State) {
    && !s.signaled && !s.updating && s.slot == Waker(s.owner)
    && s.poller == Pending && s.signaler == TakeLock
  }

  function Run(s: State, schedule: seq<Choice>): State {
    if schedule == [] then s else Step(Run(s, schedule[..|schedule| - 1]), schedule[|schedule| - 1])
  }

  // ----- safety, whoever polls -----

  /** The signaler's next step reads or writes the node. */
  predicate Touches(signaler: Signaler) { !signaler.Wake? && !signaler.Finished? }

  predicate NodeInv(s: State) {
    && (s.signaled <==> !Touches(s.signaler))
    && (s.poller.Done? ==> s.signaled)
    && (s.updating <==> s.poller.RegStore? || s.poller.RegUnlock? || s.signaler.TakeSlot? || s.signaler.TakeUnlock?)
    && !((s.poller.RegStore? || s.poller.RegUnlock?) && (s.signaler.TakeSlot? || s.signaler.TakeUnlock?))
  }

  lemma {:induction false} RunNodes(s: State, schedule: seq<Choice>)
    requires Init(s)
    ensures NodeInv(Run(s, schedule))
  {
    if schedule != [] {
      RunNodes(s, schedule[..|schedule| - 1]);
    }
  }

  /** A future that has completed or was dropped is not touched again, and the slot has one user at a time. */
  lemma NodeLeftAlone(s: State, schedule: seq<Choice>)
    requires Init(s)
    ensures var e := Run(s, schedule);
            && (e.poller.Done? ==> !Touches(e.signaler))
            && !((e.poller.RegStore? || e.poller.RegUnlock?) && (e.signaler.TakeSlot? || e.signaler.TakeUnlock?))
  {
    RunNodes(s, schedule);
  }

  /** A look at the node ends the poll, and the drop, if and only if the signal has been published. */
  lemma SignalIsSeen(s: State, schedule: seq<Choice>)
    requires Init(s) && (var p := Run(s, schedule).poller; p.Load? || p.Reload? || p.Drop?)
    ensures Step(Run(s, schedule), Continue).poller.Done? <==> !Touches(Run(s, schedule).signaler)
  {
    RunNodes(s, schedule);
  }

  /** A future dropped between polls stays until the signal has been published, and no longer. */
  lemma DropAwaitsSignal(s: State, schedule: seq<Choice>)
    requires Init(s) && Run(s, schedule).poller.Pending?
    ensures var e := Run(s, schedule);
            var dropped := Step(e, Abandon);
            && dropped == e.(poller := Drop)
            && (Step(dropped, Continue).poller.Done? <==> !Touches(e.signaler))
  {
    RunNodes(s, schedule);
  }

  /** No deadlock: when neither side moves by itself, the signaler is done and no poll or drop is left. */
  lemma NoDeadlock(s: State, schedule: seq<Choice>)
    requires Init(s) && (var e := Run(s, schedule); Step(e, Signal) == e && Step(e, Continue) == e)
    ensures var e := Run(s, schedule);
            e.signaler.Finished? && (e.poller.Pending? || e.poller.Done?)
  {
    RunNodes(s, schedule);
  }

  // ----- who is woken -----

  /** The signal is there, the future waits, and whoever polled it last has no wake-up coming. */
  predicate Stranded(s: State) { s.signaler.Finished? && s.poller.Pending? && s.owner !in s.woken }

  /** Only tasks of `tasks` ever poll the future. */
  predicate PolledBy(s: State, schedule: seq<Choice>, tasks: set<nat>) {
    s.owner in tasks && forall k | 0 <= k < |schedule| :: schedule[k].Poll? ==> schedule[k].task in tasks
  }

  predicate Mine(slot: Slot, t: nat) { slot == Waker(t) }

  /** All polls come from task `t`. */
  predicate OneTask(s: State, t: nat) {
    && s.owner == t
    && (!s.poller.Pending? && !s.poller.Drop? && !s.poller.Done? ==> s.poller.task == t)
    && (s.slot == Empty || Mine(s.slot, t))
    && (s.signaler.TakeLock? || s.signaler.TakeSlot? ==> Mine(s.slot, t))
    && (s.signaler.TakeUnlock? || s.signaler.Publish? || s.signaler.Wake? ==> Mine(s.signaler.taken, t))
    && (s.signaler.Finished? ==> t in s.woken || s.poller.Load? || s.poller.Drop? || s.poller.Done?)
  }

  lemma {:induction false} RunOneTask(s: State, schedule: seq<Choice>, t: nat)
    requires Init(s) && PolledBy(s, schedule, {t})
    ensures OneTask(Run(s, schedule), t)
  {
    RunNodes(s, schedule);
    if schedule != [] {
      var shorter := schedule[..|schedule| - 1];
      RunOneTask(s, shorter, t);
      RunNodes(s, shorter);
    }
  }

  ghost predicate NeverStrands(tasks: set<nat>) {
    forall s: State, schedule: seq<Choice> :: Init(s) && PolledBy(s, schedule, tasks) ==> !Stranded(Run(s, schedule))
  }

  // ----- the run that misses -----

  /** One more step of a run. */
  lemma Next(s: State, past: seq<Choice>, e: State, c: Choice) returns (longer: seq<Choice>, e': State)
    requires Run(s, past) == e
    ensures longer == past + [c] && Run(s, longer) == e' == Step(e, c)
  {
    longer, e' := past + [c], Step(e, c);
    DropAppended(past, c);
  }

  /** The signaler takes the waker of `a`. */
  lemma WakerTaken(a: nat) returns (s: State, past: seq<Choice>, e: State)
    ensures Init(s) && s.owner == a && Run(s, past) == e
    ensures e == State(false, Empty, false, {}, a, Pending, Publish(Waker(a)))
    ensures forall k | 0 <= k < |past| :: !past[k].Poll?
  {
    s := State(false, Waker(a), false, {}, a, Pending, TakeLock);
    past, e := [], s;
    past, e := Next(s, past, e, Signal);
    past, e := Next(s, past, e, Signal);
    past, e := Next(s, past, e, Signal);
  }

  /** A poll by `b` finds the slot empty, stores its waker and wakes itself. */
  lemma PolledEmpty(a: nat, b: nat) returns (s: State, past: seq<Choice>, e: State)
    ensures Init(s) && s.owner == a && Run(s, past) == e
    ensures e == State(false, Waker(b), false, {b}, b, Pending, Publish(Waker(a)))
    ensures forall k | 0 <= k < |past| :: past[k].Poll? ==> past[k].task == b
  {
    s, past, e := WakerTaken(a);
    past, e := Next(s, past, e, Poll(b));
    past, e := Next(s, past, e, Continue);
    past, e := Next(s, past, e, Continue);
    past, e := Next(s, past, e, Continue);
    past, e := Next(s, past, e, Continue);
    past, e := Next(s, past, e, Continue);
    past, e := Next(s, past, e, Continue);
  }

  /** The next poll by `b` finds the slot filled, by itself, and takes that for an armed waker. */
  lemma PolledArmed(a: nat, b: nat) returns (s: State, past: seq<Choice>, e: State)
    ensures Init(s) && s.owner == a && Run(s, past) == e
    ensures e == State(false, Waker(b), false, {}, b, Pending, Publish(Waker(a)))
    ensures forall k | 0 <= k < |past| :: past[k].Poll? ==> past[k].task == b
  {
    s, past, e := PolledEmpty(a, b);
    past, e := Next(s, past, e, Poll(b));
    past, e := Next(s, past, e, Continue);
    past, e := Next(s, past, e, Continue);
    past, e := Next(s, past, e, Continue);
    past, e := Next(s, past, e, Continue);
  }

  /** With two tasks the signal can be published and announced to the one that no longer has the future. */
  lemma Missed(a: nat, b: nat) returns (s: State, schedule: seq<Choice>)
    requires a != b
    ensures Init(s) && PolledBy(s, schedule, {a, b}) && Stranded(Run(s, schedule))
  {
    var e;
    s, schedule, e := PolledArmed(a, b);
    schedule, e := Next(s, schedule, e, Signal);
    schedule, e := Next(s, schedule, e, Signal);
  }

  // ----- the exact condition -----

  /** A future never misses its signal if and only if all its polls come from one task. */
  lemma WakersOfOneTask(tasks: set<nat>)
    ensures NeverStrands(tasks) <==> forall a, b | a in tasks && b in tasks :: a == b
  {
    if a, b :| a in tasks && b in tasks && a != b {
      var s, schedule := Missed(a, b);
      assert PolledBy(s, schedule, tasks);
    } else {
      forall s: State, schedule: seq<Choice> | Init(s) && PolledBy(s, schedule, tasks)
        ensures !Stranded(Run(s, schedule))
      {
        assert PolledBy(s, schedule, {s.owner});
        RunOneTask(s, schedule, s.owner);
      }
    }
  }
}

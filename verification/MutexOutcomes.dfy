/** How every call of the mutex ends, and that it ends as soon as it can. */
module MutexOutcomes {
  import opened Mutex
  import opened MutexProof

  // ----- taking the lock -----

  /** The compare-exchange takes a free lock and nothing else; a failed `try_lock` returns, a failed `lock` goes on. */
  predicate Attempted(s: State, s': State, i: nat)
    requires i < |s.agents| && (s.agents[i].pc.TryCas? || s.agents[i].pc.LockCas?)
  {
    && |s'.agents| == |s.agents|
    && (if s.owner == Nobody then
          s'.agents[i].pc.Holding? && s'.owner == Someone(i) && s'.word == Locked
        else
          && s'.word == s.word && s'.owner == s.owner
          && s'.agents[i].pc == if s.agents[i].pc.TryCas? then Idle else Seen(s.agents[i].pc.future, s.word))
    && s'.queue == s.queue
  }

  /** `try_lock` succeeds if and only if nobody owns the lock; so does the first step of `lock`. */
  lemma TryOutcome(s: State, schedule: seq<(nat, Choice)>, i: nat, c: Choice)
    requires Init(s) && i < |Run(s, schedule).agents|
    requires Run(s, schedule).agents[i].pc.TryCas? || Run(s, schedule).agents[i].pc.LockCas?
    ensures Attempted(Run(s, schedule), Step(Run(s, schedule), i, c), i)
  {
    RunHolds(s, schedule);
  }

  /** The agent is inside a call of `lock`, and its future, if it is one, has not been dropped. */
  predicate InLock(pc: Pc) {
    pc.LockCas? || pc.Seen? || pc.Alloc? || pc.Push? || pc.Publish? || pc.Waiting?
  }

  /** `lock` returns with the lock, by the compare-exchange or by a signal, and in no other way. */
  predicate LockGoesOn(s: State, s': State, i: nat, c: Choice)
    requires i < |s.agents| && InLock(s.agents[i].pc)
  {
    && |s'.agents| == |s.agents|
    && var a, pc' := s.agents[i], s'.agents[i].pc;
    var dropped := a.pc.Waiting? && a.pc.future && c.Drop?;
    && (pc'.Holding? <==> (a.pc.LockCas? && s.owner == Nobody) || (a.pc.Waiting? && a.place.Signaled? && !dropped))
    && (pc'.Holding? ==> s'.owner == Someone(i))
    && (!pc'.Holding? && !dropped ==> InLock(pc'))
    && (dropped ==> pc' == if a.place.Signaled? then Dropping else RemoveLoad)
  }

  lemma LockOutcome(s: State, schedule: seq<(nat, Choice)>, i: nat, c: Choice)
    requires Init(s) && i < |Run(s, schedule).agents| && InLock(Run(s, schedule).agents[i].pc)
    ensures LockGoesOn(Run(s, schedule), Step(Run(s, schedule), i, c), i, c)
  {
    RunHolds(s, schedule);
    assert NodeOk(Run(s, schedule), i);
  }

  // ----- giving it up -----

  /** An owner that gives up the lock frees it when nobody is queued, and hands it to the first request otherwise. */
  predicate PassedOn(s: State, s': State) {
    if s.queue == [] then
      s'.owner == Nobody && s'.word == Unlocked
    else
      s'.owner == Someone(s.queue[0]) && s'.queue == s.queue[1..] && s'.word == s.word
  }

  lemma ReleaseOutcome(s: State, schedule: seq<(nat, Choice)>, i: nat, c: Choice)
    requires Init(s) && i < |Run(s, schedule).agents| && Run(s, schedule).owner != Nobody
    requires Step(Run(s, schedule), i, c).owner != Run(s, schedule).owner
    ensures Run(s, schedule).owner == Someone(i) && PassedOn(Run(s, schedule), Step(Run(s, schedule), i, c))
  {
    RunHolds(s, schedule);
    var e := Run(s, schedule);
    assert NodeOk(e, i) && TagWord(e.agents[i].pc, e.word);
  }

  /** On a free lock, `lock` and `try_lock` end with the lock, and dropping the guard leaves everything as it was. */
  lemma UncontendedRoundTrip(s: State, schedule: seq<(nat, Choice)>, i: nat, c: Choice)
    requires Init(s) && i < |Run(s, schedule).agents| && Run(s, schedule).agents[i].pc.Idle?
    requires Run(s, schedule).owner == Nobody && (c.BeginTry? || c.BeginLock?)
    ensures var e := Run(s, schedule);
            var locked := Step(Step(e, i, c), i, Go);
            && i < |locked.agents| && locked.agents[i].pc.Holding? && locked.owner == Someone(i)
            && Step(Step(locked, i, Drop), i, Go) == e
  {
    RunHolds(s, schedule);
    var e := Run(s, schedule);
    var locked := Step(Step(e, i, c), i, Go);
    assert Step(Step(locked, i, Drop), i, Go).agents == e.agents;
  }

  /** An emptied queue block goes back to the pool once the lock is free, and the guard's drop ends with that. */
  lemma BlockFreed(s: State, schedule: seq<(nat, Choice)>, i: nat, a: nat, c: Choice)
    requires Init(s) && i < |Run(s, schedule).agents| && Run(s, schedule).agents[i].pc == DropFree(a)
    ensures var e := Run(s, schedule);
            var e' := Step(e, i, c);
            && e.queue == [] && e.word == Tagged(a) && e'.word == Unlocked && e'.owner == Nobody
            && i < |e'.agents| && e'.agents[i].pc == Dealloc(a) && Step(e', i, c) == Goto(e', i, Idle)
  {
    RunHolds(s, schedule);
    var e := Run(s, schedule);
    assert TagWord(e.agents[i].pc, e.word);
  }

  // ----- nobody waits needlessly -----

  predicate Transient(word: Word) { word.Updating? || word.Tagged? }

  predicate Contends(pc: Pc) {
    pc.LockCas? || pc.Seen? || pc.RemoveLoad? || pc.RemoveTag? || pc.Dropping? || pc.DropSeen?
  }

  /** The agent is idle or owns the lock, waits for a signal, or needs the queue another agent has tagged. */
  predicate Resting(s: State, i: nat)
    requires i < |s.agents|
  {
    var a := s.agents[i];
    || a.pc.Idle? || a.pc.Holding?
    || ((a.pc.Waiting? || a.pc.Spin?) && !a.place.Signaled?)
    || (Contends(a.pc) && Transient(s.word))
  }

  /** A releasing owner that found the word not LOCKED never finds it LOCKED again. */
  predicate DropInv(s: State) {
    forall i | 0 <= i < |s.agents| && s.agents[i].pc.DropSeen? :: s.word != Locked
  }

  lemma DropStep(s: State, i: nat, c: Choice)
    requires Inv(s) && DropInv(s) && i < |s.agents|
    ensures DropInv(Step(s, i, c))
  {
  }

  lemma {:induction false} RunDrops(s: State, schedule: seq<(nat, Choice)>)
    requires Init(s)
    ensures DropInv(Run(s, schedule))
    decreases |schedule|
  {
    if schedule != [] {
      var e := Run(s, schedule[..|schedule| - 1]);
      var last := schedule[|schedule| - 1];
      RunDrops(s, schedule[..|schedule| - 1]);
      RunHolds(s, schedule[..|schedule| - 1]);
      if last.0 < |e.agents| {
        DropStep(e, last.0, last.1);
      }
    }
  }

  /** How many steps agent `i` needs at most until it rests, if nobody else moves. */
  function Rank(s: State, i: nat): nat
    requires i < |s.agents|
  {
    match s.agents[i].pc
    case Idle => 0
    case Holding => 0
    case TryCas => 1
    case LockCas(_) => 6
    case Seen(_, ptr) => if ptr == s.word && (ptr.Locked? || ptr.Queue?) then 5 else 7
    case Alloc(_) => 4
    case Push(_, _) => 3
    case Publish(_, _) => 2
    case Waiting(_) => 1
    case RemoveLoad => 11
    case RemoveTag(a) => if s.word == Queue(a) then 10 else 12
    case Remove(_) => 9
    case Untag(_, found) => if found then 1 else 8
    case Spin => 7
    case Dropping => 6
    case DropSeen(ptr) => if ptr == s.word && ptr.Queue? then 4 else 5
    case DropPop(_) => 3
    case DropUntag(_, _) => 2
    case Hand(_) => 1
    case DropFree(_) => 2
    case Dealloc(_) => 1
  }

  /** The choice that lets the agent go on: the pool returns some block. */
  function Nudge(pc: Pc): Choice { if pc.Alloc? then Address(0) else Go }

  function Alone(s: State, i: nat, n: nat): State
    requires i < |s.agents|
    decreases n
  {
    var s' := Step(s, i, Nudge(s.agents[i].pc));
    if n == 0 || i >= |s'.agents| then s else Alone(s', i, n - 1)
  }

  predicate Nearer(s: State, s': State, i: nat)
    requires i < |s.agents|
  {
    |s'.agents| == |s.agents| && Rank(s', i) < Rank(s, i)
  }

  lemma EnterNearer(s: State, i: nat)
    requires Inv(s) && i < |s.agents| && !Resting(s, i) && Entering(s.agents[i].pc)
    ensures Nearer(s, Step(s, i, Nudge(s.agents[i].pc)), i)
  {
  }

  lemma LeaveNearer(s: State, i: nat)
    requires Inv(s) && i < |s.agents| && !Resting(s, i) && Leaving(s.agents[i].pc)
    ensures Nearer(s, Step(s, i, Go), i)
  {
  }

  lemma DropNearer(s: State, i: nat)
    requires Inv(s) && DropInv(s) && i < |s.agents| && !Resting(s, i)
    requires !Entering(s.agents[i].pc) && !Leaving(s.agents[i].pc)
    ensures Nearer(s, Step(s, i, Go), i)
  {
    assert NodeOk(s, i);
    assert s.queue != [] ==> s.queue[0] < |s.agents|;
  }

  lemma Advances(s: State, i: nat)
    requires Inv(s) && DropInv(s) && i < |s.agents| && !Resting(s, i)
    ensures Nearer(s, Step(s, i, Nudge(s.agents[i].pc)), i)
  {
    if Entering(s.agents[i].pc) {
      EnterNearer(s, i);
    } else if Leaving(s.agents[i].pc) {
      LeaveNearer(s, i);
    } else {
      DropNearer(s, i);
    }
  }

  lemma {:induction false} RestsSoon(s: State, i: nat) returns (n: nat)
    requires Inv(s) && DropInv(s) && i < |s.agents|
    ensures n <= Rank(s, i) && i < |Alone(s, i, n).agents| && Resting(Alone(s, i, n), i)
    decreases Rank(s, i)
  {
    if Resting(s, i) {
      n := 0;
    } else {
      var c := Nudge(s.agents[i].pc);
      Advances(s, i);
      StepKeeps(s, i, c);
      DropStep(s, i, c);
      var m := RestsSoon(Step(s, i, c), i);
      n := m + 1;
    }
  }

  /**
    From every reachable state, any agent that is left alone comes to rest: it returns, or owns the lock, or waits
    for a signal, or finds the queue tagged by another. Whoever has tagged it never rests.
   */
  lemma ComesToRest(s: State, schedule: seq<(nat, Choice)>, i: nat) returns (n: nat)
    requires Init(s) && i < |Run(s, schedule).agents|
    ensures var e := Run(s, schedule);
            && n <= Rank(e, i) && i < |Alone(e, i, n).agents| && Resting(Alone(e, i, n), i)
            && (e.tagger == Someone(i) ==> !Resting(e, i))
  {
    RunHolds(s, schedule);
    RunDrops(s, schedule);
    var e := Run(s, schedule);
    n := RestsSoon(e, i);
    assert HoldsTag(e.agents[i].pc) <==> e.tagger == Someone(i);
  }

  // ----- when nothing moves any more -----

  predicate Quiescent(s: State) { forall i | 0 <= i < |s.agents| :: Resting(s, i) }

  lemma NobodyTags(s: State)
    requires TagInv(s) && Quiescent(s)
    ensures !Transient(s.word)
  {
    forall i | 0 <= i < |s.agents|
      ensures s.tagger != Someone(i)
    {
      assert Resting(s, i) ==> !HoldsTag(s.agents[i].pc);
    }
  }

  /** The agent is idle, has its guard, or waits in the queue. */
  predicate Settled(s: State, i: nat)
    requires i < |s.agents|
  {
    s.agents[i].pc.Idle? || s.agents[i].pc.Holding? || (s.agents[i].pc.Waiting? && i in s.queue)
  }

  lemma RestingSettled(s: State, i: nat)
    requires NodeInv(s) && Quiescent(s) && !Transient(s.word) && i < |s.agents|
    ensures Settled(s, i)
  {
    assert Resting(s, i) && NodeOk(s, i);
    assert forall j, k | 0 <= j < |s.agents| :: Resting(s, j) ==> !Hands(s.agents[j].pc, k);
  }

  lemma OwnerSettled(s: State)
    requires OwnerInv(s) && NodeInv(s) && Quiescent(s) && !Transient(s.word) && s.owner.Someone?
    ensures s.agents[s.owner.id].pc.Holding?
  {
    var i := s.owner.id;
    assert Owns(s.agents[i]) && Resting(s, i) && NodeOk(s, i);
    assert forall j, k | 0 <= j < |s.agents| :: Resting(s, j) ==> !Hands(s.agents[j].pc, k);
  }

  /**
    No deadlock: when no agent can move, whoever waits stands in the queue of a lock that some agent holds a
    guard of; so with no guard alive nobody waits, and the lock is free.
   */
  lemma StopsOnlyForOwner(s: State, schedule: seq<(nat, Choice)>)
    requires Init(s) && Quiescent(Run(s, schedule))
    ensures var e := Run(s, schedule);
            && (forall i | 0 <= i < |e.agents| :: Settled(e, i))
            && (e.queue != [] ==> e.owner.Someone?)
            && (e.owner.Someone? ==> e.owner.id < |e.agents| && e.agents[e.owner.id].pc.Holding?)
            && (e.owner == Nobody ==> e.word == Unlocked)
  {
    RunHolds(s, schedule);
    var e := Run(s, schedule);
    NobodyTags(e);
    forall i | 0 <= i < |e.agents|
      ensures Settled(e, i)
    {
      RestingSettled(e, i);
    }
    if e.owner.Someone? {
      OwnerSettled(e);
    }
  }
}

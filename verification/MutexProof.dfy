/** Ownership of the mutex: the invariant, its preservation, and what it says about every run. */
module MutexProof {
  import opened WaitList
  import opened Schedules
  import opened Mutex

  /** The agent has exclusive access to the queue: it allocates it or has tagged it. */
  predicate HoldsTag(pc: Pc) {
    pc.Alloc? || pc.Push? || pc.Publish? || pc.Remove? || pc.Untag? || pc.DropPop? || pc.DropUntag? || pc.DropFree?
  }

  /** The agent owns the lock: it has a guard, is dropping one, or was handed the lock. */
  predicate Owns(a: Agent) {
    || a.pc.Holding? || a.pc.Dropping? || a.pc.DropSeen? || a.pc.DropPop? || a.pc.DropFree?
    || a.place.Handed? || a.place.Signaled?
  }

  predicate Parked(pc: Pc) {
    || pc.Publish? || pc.Waiting? || pc.RemoveLoad? || pc.RemoveTag? || pc.Remove? || pc.Spin?
    || (pc.Untag? && !pc.found)
  }

  /** The popped request the agent is about to signal. */
  predicate Hands(pc: Pc, heir: nat) {
    (pc.DropUntag? && pc.heir == heir) || (pc.Hand? && pc.heir == heir)
  }

  predicate OwnerInv(s: State) {
    && (forall i | 0 <= i < |s.agents| :: Owns(s.agents[i]) <==> s.owner == Someone(i))
    && (s.word == Unlocked <==> s.owner == Nobody)
    && (s.owner.Someone? ==> s.owner.id < |s.agents|)
  }

  predicate TagWord(pc: Pc, word: Word) {
    match pc
    case Alloc(_) => word == Updating
    case Push(_, a) => word == Updating || word == Tagged(a)
    case Publish(_, a) => word == Updating || word == Tagged(a)
    case Remove(a) => word == Tagged(a)
    case Untag(a, _) => word == Tagged(a)
    case DropPop(a) => word == Tagged(a)
    case DropUntag(a, _) => word == Tagged(a)
    case DropFree(a) => word == Tagged(a)
    case _ => true
  }

  predicate TagInv(s: State) {
    && (forall i | 0 <= i < |s.agents| :: HoldsTag(s.agents[i].pc) <==> s.tagger == Someone(i))
    && (s.tagger == Nobody <==> !s.word.Updating? && !s.word.Tagged?)
    && (s.tagger.Someone? ==> s.tagger.id < |s.agents|)
    && (forall i | 0 <= i < |s.agents| :: TagWord(s.agents[i].pc, s.word))
  }

  /** No queued request while the word says there is no queue. */
  predicate QueueInv(s: State) {
    && (s.word == Unlocked || s.word == Locked ==> s.queue == [])
    && (forall i | 0 <= i < |s.agents| ::
          && (s.agents[i].pc.Alloc? || s.agents[i].pc.DropFree? ==> s.queue == [])
          && (s.agents[i].pc.Push? && s.word == Updating ==> s.queue == []))
  }

  predicate NodeOk(s: State, i: nat)
    requires i < |s.agents|
  {
    var a := s.agents[i];
    && (Parked(a.pc) <==> !a.place.Out?)
    && (a.place.Queued? <==> i in s.queue)
    && (a.pc.Spin? || a.pc.Untag? ==> !a.place.Queued?)
    && (a.place.Handed? ==> a.place.giver < |s.agents| && Hands(s.agents[a.place.giver].pc, i))
    && (a.pc.DropUntag? || a.pc.Hand? ==> a.pc.heir < |s.agents| && s.agents[a.pc.heir].place == Handed(i))
    && (a.pc.DropSeen? ==> a.pc.ptr != Unlocked)
  }

  predicate NodeInv(s: State) {
    && (forall i | 0 <= i < |s.agents| :: NodeOk(s, i))
    && (forall k | 0 <= k < |s.queue| :: s.queue[k] < |s.agents|)
    && Distinct(s.queue)
  }

  predicate Inv(s: State) { OwnerInv(s) && TagInv(s) && QueueInv(s) && NodeInv(s) }

  predicate Entering(pc: Pc) {
    pc.Idle? || pc.TryCas? || pc.LockCas? || pc.Seen? || pc.Alloc? || pc.Push? || pc.Publish?
  }

  predicate Leaving(pc: Pc) {
    pc.Waiting? || pc.RemoveLoad? || pc.RemoveTag? || pc.Remove? || pc.Untag? || pc.Spin?
  }

  lemma OwnerEntering(s: State, i: nat, c: Choice)
    requires OwnerInv(s) && i < |s.agents| && NodeOk(s, i) && Entering(s.agents[i].pc)
    requires s.agents[i].pc.Publish? ==> s.owner != Nobody
    ensures OwnerInv(Step(s, i, c))
  {
  }

  lemma OwnerLeaving(s: State, i: nat, c: Choice)
    requires OwnerInv(s) && TagInv(s) && i < |s.agents| && NodeOk(s, i) && Leaving(s.agents[i].pc)
    ensures OwnerInv(Step(s, i, c))
  {
  }

  lemma OwnerDropping(s: State, i: nat, c: Choice)
    requires Inv(s) && i < |s.agents| && !Entering(s.agents[i].pc) && !Leaving(s.agents[i].pc)
    ensures OwnerInv(Step(s, i, c))
  {
    assert NodeOk(s, i);
  }

  lemma TagEntering(s: State, i: nat, c: Choice)
    requires TagInv(s) && i < |s.agents| && Entering(s.agents[i].pc)
    ensures TagInv(Step(s, i, c))
  {
  }

  lemma TagLeaving(s: State, i: nat, c: Choice)
    requires TagInv(s) && i < |s.agents| && Leaving(s.agents[i].pc)
    ensures TagInv(Step(s, i, c))
  {
  }

  lemma TagDropping(s: State, i: nat, c: Choice)
    requires TagInv(s) && i < |s.agents| && !Entering(s.agents[i].pc) && !Leaving(s.agents[i].pc)
    ensures TagInv(Step(s, i, c))
  {
  }

  lemma QueueEntering(s: State, i: nat, c: Choice)
    requires TagInv(s) && QueueInv(s) && i < |s.agents| && Entering(s.agents[i].pc)
    ensures QueueInv(Step(s, i, c))
  {
  }

  lemma QueueLeaving(s: State, i: nat, c: Choice)
    requires TagInv(s) && QueueInv(s) && i < |s.agents| && Leaving(s.agents[i].pc)
    ensures QueueInv(Step(s, i, c))
  {
  }

  lemma QueueDropping(s: State, i: nat, c: Choice)
    requires TagInv(s) && QueueInv(s) && i < |s.agents| && !Entering(s.agents[i].pc) && !Leaving(s.agents[i].pc)
    ensures QueueInv(Step(s, i, c))
  {
  }

  /** The stepping agent changes its position, but neither a node nor the queue. */
  ghost predicate Quiet(s: State, s': State, i: nat) {
    && i < |s.agents| && |s'.agents| == |s.agents|
    && s'.agents == s.agents[i := Agent(s'.agents[i].pc, s.agents[i].place)]
    && s'.queue == s.queue && NodeOk(s', i)
    && (forall heir :: Hands(s'.agents[i].pc, heir) <==> Hands(s.agents[i].pc, heir))
  }

  lemma QuietKeeps(s: State, s': State, i: nat)
    requires NodeInv(s) && Quiet(s, s', i)
    ensures NodeInv(s')
  {
    forall j | 0 <= j < |s'.agents|
      ensures NodeOk(s', j)
    {
      assert NodeOk(s, j);
    }
  }

  lemma EnteringQuiet(s: State, i: nat, c: Choice)
    requires i < |s.agents| && NodeOk(s, i) && Entering(s.agents[i].pc) && !s.agents[i].pc.Push?
    ensures Quiet(s, Step(s, i, c), i)
  {
  }

  lemma LeavingQuiet(s: State, i: nat, c: Choice)
    requires i < |s.agents| && NodeOk(s, i) && QueueInv(s)
    requires s.agents[i].pc.RemoveLoad? || s.agents[i].pc.RemoveTag? || s.agents[i].pc.Untag?
    ensures Quiet(s, Step(s, i, c), i)
  {
  }

  lemma DroppingQuiet(s: State, i: nat, c: Choice)
    requires i < |s.agents| && NodeOk(s, i) && OwnerInv(s)
    requires !Entering(s.agents[i].pc) && !Leaving(s.agents[i].pc)
    requires !s.agents[i].pc.DropPop? && !s.agents[i].pc.Hand?
    ensures Quiet(s, Step(s, i, c), i)
  {
  }

  lemma PushNodes(s: State, i: nat, c: Choice)
    requires NodeInv(s) && i < |s.agents| && s.agents[i].pc.Push?
    ensures NodeInv(Step(s, i, c))
  {
    var s' := Step(s, i, c);
    assert NodeOk(s, i);
    assert i !in s.queue;
    forall j | 0 <= j < |s'.agents|
      ensures NodeOk(s', j)
    {
      assert NodeOk(s, j);
    }
  }

  /** A signaled request leaves its wait with the lock. */
  lemma DepartNodes(s: State, i: nat, pc: Pc)
    requires NodeInv(s) && i < |s.agents| && s.agents[i].place.Signaled?
    requires s.agents[i].pc.Waiting? || s.agents[i].pc.Spin?
    requires pc.Holding? || pc.Dropping?
    ensures NodeInv(s.(agents := s.agents[i := Agent(pc, Out)]))
  {
    var s' := s.(agents := s.agents[i := Agent(pc, Out)]);
    assert NodeOk(s, i);
    forall j | 0 <= j < |s'.agents|
      ensures NodeOk(s', j)
    {
      assert NodeOk(s, j);
    }
  }

  lemma RemoveNodes(s: State, i: nat, a: nat)
    requires NodeInv(s) && i < |s.agents| && s.agents[i].pc == Remove(a)
    ensures NodeInv(RemoveStep(s, i, a))
  {
    var s' := RemoveStep(s, i, a);
    assert NodeOk(s, i);
    if i in s.queue {
      WithoutMembers(s.queue, i);
      assert forall k | 0 <= k < |s'.queue| :: s'.queue[k] in s.queue;
      forall j | 0 <= j < |s'.agents|
        ensures NodeOk(s', j)
      {
        assert NodeOk(s, j);
      }
    } else {
      QuietKeeps(s, s', i);
    }
  }

  lemma DropPopNodes(s: State, i: nat, a: nat)
    requires NodeInv(s) && i < |s.agents| && s.agents[i].pc == DropPop(a)
    ensures NodeInv(DropPopStep(s, i, a))
  {
    var s' := DropPopStep(s, i, a);
    assert NodeOk(s, i);
    if s.queue == [] {
      QuietKeeps(s, s', i);
    } else {
      assert NodeOk(s, s.queue[0]);
      assert s.queue == [s.queue[0]] + s.queue[1..];
      forall j | 0 <= j < |s'.agents|
        ensures NodeOk(s', j)
      {
        assert NodeOk(s, j);
        assert j in s.queue[1..] <==> j in s.queue && j != s.queue[0];
      }
    }
  }

  lemma HandNodes(s: State, i: nat, heir: nat)
    requires NodeInv(s) && i < |s.agents| && s.agents[i].pc == Hand(heir)
    ensures NodeInv(HandStep(s, i, heir))
  {
    var s' := HandStep(s, i, heir);
    assert NodeOk(s, i) && NodeOk(s, heir);
    forall j | 0 <= j < |s'.agents|
      ensures NodeOk(s', j)
    {
      assert NodeOk(s, j);
    }
  }

  lemma NodeStep(s: State, i: nat, c: Choice)
    requires NodeInv(s) && QueueInv(s) && OwnerInv(s) && i < |s.agents|
    ensures NodeInv(Step(s, i, c))
  {
    var s' := Step(s, i, c);
    var pc := s.agents[i].pc;
    assert NodeOk(s, i);
    if pc.Push? {
      PushNodes(s, i, c);
    } else if Entering(pc) {
      EnteringQuiet(s, i, c);
      QuietKeeps(s, s', i);
    } else if pc.Waiting? || pc.Spin? {
      if s.agents[i].place.Signaled? {
        DepartNodes(s, i, s'.agents[i].pc);
      } else {
        QuietKeeps(s, s', i);
      }
    } else if pc.Remove? {
      RemoveNodes(s, i, pc.addr);
    } else if Leaving(pc) {
      LeavingQuiet(s, i, c);
      QuietKeeps(s, s', i);
    } else if pc.DropPop? {
      DropPopNodes(s, i, pc.addr);
    } else if pc.Hand? {
      HandNodes(s, i, pc.heir);
    } else {
      DroppingQuiet(s, i, c);
      QuietKeeps(s, s', i);
    }
  }

  lemma StepKeeps(s: State, i: nat, c: Choice)
    requires Inv(s)
    ensures Inv(Step(s, i, c))
  {
    if i < |s.agents| {
      assert NodeOk(s, i) && TagWord(s.agents[i].pc, s.word);
      NodeStep(s, i, c);
      if Entering(s.agents[i].pc) {
        OwnerEntering(s, i, c);
        TagEntering(s, i, c);
        QueueEntering(s, i, c);
      } else if Leaving(s.agents[i].pc) {
        OwnerLeaving(s, i, c);
        TagLeaving(s, i, c);
        QueueLeaving(s, i, c);
      } else {
        OwnerDropping(s, i, c);
        TagDropping(s, i, c);
        QueueDropping(s, i, c);
      }
    }
  }

  /** The invariant holds after every schedule. */
  lemma {:induction false} RunHolds(s: State, schedule: seq<(nat, Choice)>)
    requires Init(s)
    ensures Inv(Run(s, schedule))
    decreases |schedule|
  {
    if schedule != [] {
      var last := schedule[|schedule| - 1];
      RunHolds(s, schedule[..|schedule| - 1]);
      StepKeeps(Run(s, schedule[..|schedule| - 1]), last.0, last.1);
    }
  }

  // ----- what holds over every run -----

  /**
    Mutual exclusion through every handoff and cancellation: at most one agent has a guard, a handoff in
    flight or an unobserved signal; the word is UNLOCKED exactly when there is none; and a word without
    a queue never coexists with a queued request.
   */
  lemma OwnershipExclusive(s: State, schedule: seq<(nat, Choice)>)
    requires Init(s)
    ensures var e := Run(s, schedule);
            && (forall i, j | 0 <= i < |e.agents| && 0 <= j < |e.agents| ::
                  Owns(e.agents[i]) && Owns(e.agents[j]) ==> i == j)
            && (e.word == Unlocked <==> forall i | 0 <= i < |e.agents| :: !Owns(e.agents[i]))
            && (e.word == Unlocked || e.word == Locked ==> e.queue == [])
  {
    RunHolds(s, schedule);
    var e := Run(s, schedule);
    if e.word != Unlocked {
      assert Owns(e.agents[e.owner.id]);
    }
  }

  /**
    No request is lost and the lock is not leaked: a parked request is queued behind an owner, or popped by
    an agent that is about to signal it, or signaled; and whoever spins for its signal has been popped.
   */
  lemma RequestsTracked(s: State, schedule: seq<(nat, Choice)>, i: nat)
    requires Init(s) && i < |Run(s, schedule).agents|
    ensures var e := Run(s, schedule);
            Parked(e.agents[i].pc) ==>
              match e.agents[i].place
              case Out => false
              case Queued => i in e.queue && e.word != Unlocked && e.word != Locked && !e.agents[i].pc.Spin?
              case Handed(j) => j < |e.agents| && Hands(e.agents[j].pc, i)
              case Signaled => e.owner == Someone(i)
  {
    RunHolds(s, schedule);
    assert NodeOk(Run(s, schedule), i);
  }

  /** A releasing guard never takes the null word for a queue pointer. */
  lemma NullNeverTagged(s: State, schedule: seq<(nat, Choice)>, i: nat)
    requires Init(s) && i < |Run(s, schedule).agents|
    ensures var e := Run(s, schedule);
            e.agents[i].pc.DropSeen? ==> e.agents[i].pc.ptr != Unlocked && e.word != Unlocked
  {
    RunHolds(s, schedule);
    assert NodeOk(Run(s, schedule), i);
  }

  /** Reachable from `w` while the lock stays owned: LOCKED, then UPDATING, then one queue address. */
  predicate OnPath(w: Word, v: Word) {
    match w
    case Unlocked => v == Unlocked
    case Locked => v != Unlocked
    case Updating => v != Unlocked && v != Locked
    case Queue(a) => v == Queue(a) || v == Tagged(a)
    case Tagged(a) => v == Queue(a) || v == Tagged(a)
  }

  lemma StepOnPath(s: State, i: nat, c: Choice)
    requires Inv(s) && s.owner != Nobody && Step(s, i, c).owner != Nobody
    ensures OnPath(s.word, Step(s, i, c).word)
  {
    if i < |s.agents| {
      assert TagWord(s.agents[i].pc, s.word);
    }
  }

  /** The lock is owned in every state from the end of `before` to the end of `before + after`. */
  predicate OwnedThroughout(s: State, before: seq<(nat, Choice)>, after: seq<(nat, Choice)>) {
    && Run(s, before + after).owner != Nobody
    && (after == [] || OwnedThroughout(s, before, after[..|after| - 1]))
  }

  /**
    While ownership lasts the word only moves forward along LOCKED, UPDATING, queue, and once it shows a
    queue it shows that same queue address, tagged or not, whatever anybody does.
   */
  lemma {:induction false} OwnedWordPath(s: State, before: seq<(nat, Choice)>, after: seq<(nat, Choice)>)
    requires Init(s) && OwnedThroughout(s, before, after)
    ensures OnPath(Run(s, before).word, Run(s, before + after).word)
    decreases |after|
  {
    if after == [] {
      assert before + after == before;
      RunHolds(s, before);
    } else {
      var shorter := after[..|after| - 1];
      var last := after[|after| - 1];
      OwnedWordPath(s, before, shorter);
      RunHolds(s, before + shorter);
      RunLast(s, before, after);
      StepOnPath(Run(s, before + shorter), last.0, last.1);
      OnPathTransitive(Run(s, before).word, Run(s, before + shorter).word, Run(s, before + after).word);
    }
  }

  lemma RunLast(s: State, before: seq<(nat, Choice)>, after: seq<(nat, Choice)>)
    requires after != []
    ensures var last := after[|after| - 1];
            Run(s, before + after) == Step(Run(s, before + after[..|after| - 1]), last.0, last.1)
  {
    DropLast(before, after);
  }

  lemma OnPathTransitive(u: Word, v: Word, w: Word)
    requires OnPath(u, v) && OnPath(v, w)
    ensures OnPath(u, w)
  {
  }
}

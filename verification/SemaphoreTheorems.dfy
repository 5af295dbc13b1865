/** What holds in every reachable state of the semaphore, for any number of agents and any schedule. */
module SemaphoreTheorems {
  import opened Ledger
  import opened WaitWord
  import opened TicketOrder
  import opened Semaphore
  import opened SemaphoreInvariant
  import opened SemaphoreSteps
  import SemaphoreData

  /** No agent still owes a drain, a release, or a close to the queue. */
  predicate NothingOwed(s: State) {
    forall j | 0 <= j < |s.agents| :: !OwesDrain(s.agents[j].pc) && !OwesClose(s.agents[j].pc)
  }

  /** A queued waiter that should have been served, or shut, while nobody owes the queue a step. */
  predicate Stranded(s: State) {
    NothingOwed(s) && s.queue != [] && (s.pool.closed || HeadNeed(s) <= s.pool.permits)
  }

  /**
    No stranded waiter: as long as every release passed its assertion and nobody owes the queue a step, a
    queued waiter means that the semaphore is open and that the pool really is short of what the head of the
    line misses.
   */
  lemma NoStrandedWaiter(s: State, schedule: seq<(nat, Choice)>)
    requires Init(s) && !Run(s, schedule).books.tripped
    ensures !Stranded(Run(s, schedule))
  {
    RunHolds(s, schedule);
  }

  /** Whatever was issued: once nobody owes a step, the queue of a closed semaphore is empty. */
  lemma ClosedLeavesNobody(s: State, schedule: seq<(nat, Choice)>)
    requires Init(s)
    ensures var e := Run(s, schedule);
            NothingOwed(e) && e.pool.closed ==> e.queue == []
  {
    RunHolds(s, schedule);
  }

  /** The waiter is in the queue, or an agent that will signal it has it, or it has its signal. */
  predicate Tracked(s: State, i: nat)
    requires i < |s.agents|
  {
    match s.agents[i].node.place
    case Out => false
    case Queued => i in s.queue
    case Popped(j) => j < |s.agents| && i in Chain(s.agents[j].pc)
    case Armed => false
    case Granted => s.agents[i].node.need == 0
    case Shut => true
  }

  /** The wait will never end: the node was prepared for parking and then not pushed. */
  predicate Lost(s: State, i: nat) {
    i < |s.agents| && Parked(s.agents[i].pc) && !Tracked(s, i)
  }

  /**
    A parked agent is tracked, or it is a future whose request exceeds MAX_PERMITS; and one that gave up
    looking for itself in the queue is not in it, so the signal it spins for is on its way or has arrived.
   */
  lemma NoLostWaiter(s: State, schedule: seq<(nat, Choice)>, i: nat)
    requires Init(s) && i < |Run(s, schedule).agents|
    ensures var e := Run(s, schedule);
            && (Parked(e.agents[i].pc) ==>
                  Tracked(e, i) || (ParkedFuture(e.agents[i].pc) && ParkedFor(e.agents[i].pc) > MAX_PERMITS))
            && (Spinning(e.agents[i].pc) ==> i !in e.queue)
  {
    RunHolds(s, schedule);
    var e := Run(s, schedule);
    assert NodeOk(e.agents[i]) && PoppedOk(e.agents, i);
  }

  /**
    Permit conservation: pool, guards, permits in agents' hands and permits assigned to waiters always add
    up to the initial permits plus the added ones minus the forgotten ones, as long as every addition to the
    pool fit into the permit field.
   */
  lemma PermitsConserved(s: State, schedule: seq<(nat, Choice)>)
    requires Init(s) && !Run(s, schedule).books.wrapped
    ensures Conserved(Run(s, schedule))
  {
    RunHolds(s, schedule);
    var e := Run(s, schedule);
    forall i | 0 <= i < |e.agents|
      ensures 0 <= Weight(e.agents[i])
    {
      assert NodeOk(e.agents[i]);
    }
  }

  predicate Conserved(s: State) {
    && s.pool.permits + Sum(s.guards, GuardWeight) + Sum(s.agents, Weight) == Outstanding(s)
    && forall i | 0 <= i < |s.agents| :: 0 <= Weight(s.agents[i])
  }

  /** The shares that the ledger sums up are bounded by the whole. */
  lemma SharesBounded(s: State, i: nat)
    requires Inv(s) && i < |s.agents| && !s.books.wrapped
    ensures s.pool.permits + Weight(s.agents[i]) + Sum(s.guards, GuardWeight) <= Outstanding(s)
    ensures 0 <= Weight(s.agents[i]) && 0 <= Sum(s.guards, GuardWeight)
  {
    assert forall k | 0 <= k < |s.agents| :: NodeOk(s.agents[k]) && 0 <= Weight(s.agents[k]);
    SumMember(s.agents, Weight, i);
    SumNonNegative(s.guards, GuardWeight);
  }

  // ----- a limit on the permits that exist -----

  /** Neither at the end of the schedule nor at any point before do more than `total` permits exist. */
  predicate Limited(s: State, schedule: seq<(nat, Choice)>, total: nat) {
    Outstanding(Run(s, schedule)) <= total && (schedule == [] || Limited(s, schedule[..|schedule| - 1], total))
  }

  /** A step trips the assertion, or loses permits, only by returning more than fits. */
  lemma StepOverflows(s: State, i: nat, c: Choice)
    requires i < |s.agents|
    ensures Step(s, i, c).books.tripped ==> s.books.tripped || s.pool.permits + InHand(s.agents[i].pc) > MAX_PERMITS
    ensures Step(s, i, c).books.wrapped ==> s.books.wrapped || s.pool.permits + InHand(s.agents[i].pc) >= PERMIT_SPACE
  {
  }

  /** Under the limit every release passes its assertion, however many permits were forgotten and added again. */
  lemma {:induction false} ReleasesPass(s: State, schedule: seq<(nat, Choice)>, total: nat)
    requires Init(s) && Limited(s, schedule, total) && total < PERMIT_SPACE
    ensures !Run(s, schedule).books.wrapped
    ensures total <= MAX_PERMITS ==> !Run(s, schedule).books.tripped
    decreases |schedule|
  {
    if schedule != [] {
      var before := schedule[..|schedule| - 1];
      var last := schedule[|schedule| - 1];
      var e := Run(s, before);
      ReleasesPass(s, before, total);
      RunHolds(s, before);
      if last.0 < |e.agents| {
        SemaphoreData.HandFits(e, last.0);
        StepOverflows(e, last.0, last.1);
      }
    }
  }

  lemma IssuedGrows(s: State, i: nat, c: Choice)
    ensures Issued(s) <= Issued(Step(s, i, c))
  {
    if i < |s.agents| && !Early(s.agents[i].pc) {
      IssuedKept(s, i, c);
    }
  }

  lemma IssuedKept(s: State, i: nat, c: Choice)
    requires i < |s.agents| && !Early(s.agents[i].pc)
    ensures Issued(s) == Issued(Step(s, i, c))
  {
  }

  /** A schedule that issues at most `total` permits is limited, even if it forgets none. */
  lemma {:induction false} FewIssued(s: State, schedule: seq<(nat, Choice)>, total: nat)
    requires Issued(Run(s, schedule)) <= total
    ensures Limited(s, schedule, total)
    decreases |schedule|
  {
    if schedule != [] {
      var last := schedule[|schedule| - 1];
      IssuedGrows(Run(s, schedule[..|schedule| - 1]), last.0, last.1);
      FewIssued(s, schedule[..|schedule| - 1], total);
    }
  }

  // ----- order -----

  /** The step of agent `i` acquires permits, possibly none, from the pool. */
  predicate Acquires(s: State, i: nat, c: Choice)
    requires i < |s.agents|
  {
    var s' := Step(s, i, c);
    || (s.agents[i].pc.Try? && |s'.guards| > |s.guards|)
    || (s.agents[i].pc.EnqLoop? && i < |s'.agents| && s'.agents[i].pc.Unlock? && s'.agents[i].pc.next.Got?)
  }

  /** No barging: whoever acquires from the pool, be it zero permits, does so with nobody in line. */
  lemma NoBarging(s: State, schedule: seq<(nat, Choice)>, i: nat, c: Choice)
    requires Init(s) && i < |Run(s, schedule).agents|
    ensures var e := Run(s, schedule);
            Acquires(e, i, c) ==> e.queue == []
  {
    RunHolds(s, schedule);
    var e := Run(s, schedule);
    assert HolderFacts(e, e.agents[i].pc);
  }

  /** HAS_QUEUE and the queue itself change only under the tag-lock; the flag covers every queued waiter. */
  lemma FlagUnderLock(s: State, schedule: seq<(nat, Choice)>, i: nat, c: Choice)
    requires Init(s) && i < |Run(s, schedule).agents|
    ensures var e := Run(s, schedule);
            var e' := Step(e, i, c);
            && (e.queue != [] ==> e.pool.hasQueue)
            && (e'.pool.hasQueue != e.pool.hasQueue || e'.queue != e.queue ==> e.word == Held(i))
  {
    RunHolds(s, schedule);
    var e := Run(s, schedule);
    assert e.word == Held(i) <==> Holds(e.agents[i].pc);
    if !Holds(e.agents[i].pc) {
      Unheld(e, i, c);
    }
  }

  lemma Unheld(s: State, i: nat, c: Choice)
    requires i < |s.agents| && !Holds(s.agents[i].pc)
    ensures Step(s, i, c).pool.hasQueue == s.pool.hasQueue && Step(s, i, c).queue == s.queue
  {
    match s.agents[i].pc
    case Idle => UnheldStart(s, i, c);
    case Try(req, stage, cur) => UnheldTry(s, i, req, stage, cur, c);
    case Forget(k, cur) => UnheldForget(s, i, k, cur, c);
    case _ =>
  }

  lemma UnheldStart(s: State, i: nat, c: Choice)
    requires i < |s.agents| && s.agents[i].pc.Idle?
    ensures Step(s, i, c).pool == s.pool && Step(s, i, c).queue == s.queue
  {
  }

  lemma UnheldTry(s: State, i: nat, req: Req, stage: Stage, cur: Pool, c: Choice)
    requires i < |s.agents|
    ensures var s' := TryStep(s, i, req, stage, cur, c);
            s'.pool.hasQueue == s.pool.hasQueue && s'.queue == s.queue
  {
  }

  lemma UnheldForget(s: State, i: nat, k: nat, cur: Pool, c: Choice)
    requires i < |s.agents|
    ensures var s' := ForgetStep(s, i, k, cur, c);
            s'.pool.hasQueue == s.pool.hasQueue && s'.queue == s.queue
  {
  }

  /**
    Strict FIFO: a waiter that joined the line before a granted one was itself granted earlier,
    or left the line by being cancelled or by the semaphore being closed.
   */
  lemma GrantedInOrder(s: State, schedule: seq<(nat, Choice)>, earlier: nat, p: nat)
    requires Init(s)
    requires p < |Run(s, schedule).line.granted| && earlier < Run(s, schedule).line.granted[p]
    ensures var e := Run(s, schedule);
            earlier in e.line.granted[..p] || earlier in e.line.cancelled || earlier in e.line.shut
  {
    RunHolds(s, schedule);
    var e := Run(s, schedule);
    var line := e.line;
    ServedInOrder(line.granted, Tickets(e.agents, e.queue), line.tickets, line.cancelled, line.shut, earlier, p);
  }

  /** Only the head of the line can hold a partial grant. */
  lemma OnlyHeadPartial(s: State, schedule: seq<(nat, Choice)>, k: nat)
    requires Init(s) && 0 < k < |Run(s, schedule).queue|
    ensures var e := Run(s, schedule);
            e.queue[k] < |e.agents| && e.agents[e.queue[k]].node.need == e.agents[e.queue[k]].node.n
  {
    RunHolds(s, schedule);
  }
}

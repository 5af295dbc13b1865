/** How every call of the semaphore ends: who gets permits, who is refused and on what grounds. */
module SemaphoreOutcomes {
  import opened Schedules
  import opened Semaphore
  import opened SemaphoreInvariant
  import opened SemaphoreControl
  import opened SemaphoreSteps
  import opened SemaphoreTheorems
  import opened SemaphoreThresholds

  // ----- closing -----

  predicate StaysClosed(s: State, s': State) { s.pool.closed ==> s'.pool.closed }

  lemma EarlyStaysClosed(s: State, i: nat, c: Choice)
    requires i < |s.agents| && Early(s.agents[i].pc)
    ensures StaysClosed(s, Step(s, i, c))
  {
  }

  lemma LateStaysClosed(s: State, i: nat, c: Choice)
    requires i < |s.agents| && !Early(s.agents[i].pc)
    ensures StaysClosed(s, Step(s, i, c))
  {
  }

  /** Nobody acquires from the pool of a closed semaphore. */
  lemma ClosedRefuses(s: State, schedule: seq<(nat, Choice)>, i: nat, c: Choice)
    requires i < |Run(s, schedule).agents|
    ensures var e := Run(s, schedule);
            Acquires(e, i, c) ==> !e.pool.closed
  {
  }

  /** Closing is for good: however the run goes on, the semaphore stays closed and nobody acquires from its pool. */
  lemma {:induction false} ClosedForGood(
    s: State, before: seq<(nat, Choice)>, after: seq<(nat, Choice)>, i: nat, c: Choice)
    requires Run(s, before).pool.closed
    ensures var e := Run(s, before + after);
            e.pool.closed && (i < |e.agents| ==> !Acquires(e, i, c))
    decreases |after|
  {
    if after == [] {
      assert before + after == before;
    } else {
      var shorter, last := after[..|after| - 1], after[|after| - 1];
      DropLast(before, after);
      ClosedForGood(s, before, shorter, i, c);
      var e := Run(s, before + shorter);
      if last.0 < |e.agents| {
        if Early(e.agents[last.0].pc) {
          EarlyStaysClosed(e, last.0, last.1);
        } else {
          LateStaysClosed(e, last.0, last.1);
        }
      }
    }
    if i < |Run(s, before + after).agents| {
      ClosedRefuses(s, before + after, i, c);
    }
  }

  /** `close` closes, and leaves the permits and the flag alone; the first one goes on to wake the queue if flagged. */
  lemma CloseOutcome(s: State, schedule: seq<(nat, Choice)>, i: nat, c: Choice)
    requires i < |Run(s, schedule).agents| && Run(s, schedule).agents[i].pc.CloseFlag?
    ensures var e := Run(s, schedule);
            var e' := Step(e, i, c);
            && e'.pool == e.pool.(closed := true)
            && i < |e'.agents| && (e'.agents[i].pc.CloseLock? <==> !e.pool.closed && e.pool.hasQueue)
  {
  }

  /** Left alone, a call of `close` has closed the semaphore after its first step. */
  lemma ClosesAtOnce(s: State, schedule: seq<(nat, Choice)>, i: nat)
    requires i < |Run(s, schedule).agents| && Run(s, schedule).agents[i].pc.Idle?
    ensures var e := Run(s, schedule);
            Step(Step(e, i, Begin(Close)), i, Go).pool == e.pool.(closed := true)
  {
  }

  // ----- trying -----

  /** The pool serves a request for `n` permits on the spot. */
  predicate Admits(pool: Pool, n: nat) { !pool.closed && !pool.hasQueue && n <= pool.permits }

  /** A step at `Try`: it takes permits if and only if the pool admits it, and otherwise changes nothing shared. */
  predicate Attempted(s: State, s': State, i: nat, req: Req, stage: Stage, cur: Pool, c: Choice) {
    && i < |s'.agents|
    && var pc' := s'.agents[i].pc;
    && s'.queue == s.queue && s'.word == s.word
    && (if !c.Spurious? && s.pool == cur && Admits(s.pool, req.n) then
          && pc'.Idle? && s'.guards == s.guards + [Guard(req.kind, req.n)]
          && s'.pool == s.pool.(permits := s.pool.permits - req.n)
        else
          s'.guards == s.guards && s'.pool == s.pool)
    && (Admits(cur, req.n) ==> pc'.Idle? || pc' == Try(req, stage, s.pool))
    && (!Admits(cur, req.n) ==>
          match stage
          case Only => pc'.Idle?
          case First => pc' == Load(req, Second)
          case Second =>
            if cur.closed then pc'.Idle?
            else if req.n <= MAX_PERMITS then pc' == EnqLock(req)
            else if req.future then pc' == Waiting(req) && s'.agents[i].node.place.Armed?
            else pc'.Idle?)
  }

  /** The compare-exchange of `try_acquire` succeeds exactly on an open, unflagged pool with permits enough. */
  lemma TryOutcome(s: State, schedule: seq<(nat, Choice)>, i: nat, req: Req, stage: Stage, cur: Pool, c: Choice)
    requires i < |Run(s, schedule).agents| && Run(s, schedule).agents[i].pc == Try(req, stage, cur)
    ensures Attempted(Run(s, schedule), Step(Run(s, schedule), i, c), i, req, stage, cur, c)
  {
  }

  predicate Attempting(s: State, i: nat, req: Req, stage: Stage) {
    && i < |s.agents|
    && var pc := s.agents[i].pc;
    (pc.Load? || pc.Try?) && pc.req == req && pc.stage == stage
  }

  /** At some point since the agent entered the attempt it is in, the pool was `pool`. */
  predicate Observed(s: State, schedule: seq<(nat, Choice)>, i: nat, req: Req, stage: Stage, pool: Pool) {
    && Attempting(Run(s, schedule), i, req, stage)
    && (|| Run(s, schedule).pool == pool
        || (schedule != [] && Observed(s, schedule[..|schedule| - 1], i, req, stage, pool)))
  }

  /** An agent arrives at `Try` from the same attempt, with the pool as it is. */
  predicate Reads(s: State, s': State, i: nat)
    requires i < |s.agents|
  {
    && i < |s'.agents|
    && var pc' := s'.agents[i].pc;
    pc'.Try? ==> pc'.cur == s.pool && Attempting(s, i, pc'.req, pc'.stage)
  }

  lemma TryReads(s: State, i: nat, c: Choice)
    requires i < |s.agents| && (s.agents[i].pc.Idle? || s.agents[i].pc.Load? || s.agents[i].pc.Try?)
    ensures Reads(s, Step(s, i, c), i)
  {
  }

  lemma QueueReads(s: State, i: nat, c: Choice)
    requires i < |s.agents|
    requires Early(s.agents[i].pc) && !s.agents[i].pc.Idle? && !s.agents[i].pc.Load? && !s.agents[i].pc.Try?
    ensures Reads(s, Step(s, i, c), i)
  {
  }

  lemma WaitReads(s: State, i: nat, c: Choice)
    requires i < |s.agents| && Middle(s.agents[i].pc)
    ensures Reads(s, Step(s, i, c), i)
  {
  }

  lemma StepReads(s: State, i: nat, c: Choice)
    requires i < |s.agents|
    ensures OnlyMoves(s, Step(s, i, c), i) && Reads(s, Step(s, i, c), i)
  {
    var pc := s.agents[i].pc;
    if Early(pc) || Middle(pc) {
      EarlyMoves(s, i, c);
      if Middle(pc) {
        WaitReads(s, i, c);
      } else if pc.Idle? || pc.Load? || pc.Try? {
        TryReads(s, i, c);
      } else {
        QueueReads(s, i, c);
      }
    } else {
      LateMoves(s, i, c);
      LateTarget(s, i, c);
    }
  }

  /** What an agent at `Try` compares with was really the pool, at some point since its attempt began. */
  lemma {:induction false} SeenIsReal(s: State, schedule: seq<(nat, Choice)>, i: nat, req: Req, stage: Stage, cur: Pool)
    requires Init(s) && i < |Run(s, schedule).agents| && Run(s, schedule).agents[i].pc == Try(req, stage, cur)
    ensures Observed(s, schedule, i, req, stage, cur)
    decreases |schedule|
  {
    if schedule != [] {
      var before, last := schedule[..|schedule| - 1], schedule[|schedule| - 1];
      var e := Run(s, before);
      if last.0 < |e.agents| {
        StepReads(e, last.0, last.1);
      }
      if last.0 != i || last.0 >= |e.agents| {
        SeenIsReal(s, before, i, req, stage, cur);
      }
    }
  }

  /**
    A public `try_acquire` that ends without permits has a reason: at some point of the call the pool was
    closed, flagged, or short of what was asked for.
   */
  lemma RefusalHasReason(s: State, schedule: seq<(nat, Choice)>, i: nat, req: Req, cur: Pool, c: Choice)
    requires Init(s) && i < |Run(s, schedule).agents| && Run(s, schedule).agents[i].pc == Try(req, Only, cur)
    requires var e' := Step(Run(s, schedule), i, c);
             i < |e'.agents| && e'.agents[i].pc.Idle? && e'.guards == Run(s, schedule).guards
    ensures !Admits(cur, req.n) && Observed(s, schedule, i, req, Only, cur)
  {
    TryOutcome(s, schedule, i, req, Only, cur, c);
    SeenIsReal(s, schedule, i, req, Only, cur);
    assert |Run(s, schedule).guards + [Guard(req.kind, req.n)]| == |Run(s, schedule).guards| + 1;
  }

  // ----- getting in line -----

  /** The last look at the pool, under the tag-lock: take the permits, be refused, look again, or get in line. */
  predicate LastLook(s: State, s': State, i: nat, req: Req, cur: Pool, c: Choice)
    requires i < |s.agents|
  {
    && i < |s'.agents|
    && var a' := s'.agents[i];
    if cur.closed then
      a'.pc == Unlock(Leave) && s'.pool == s.pool && s'.queue == s.queue
    else if s.queue == [] && req.n <= cur.permits then
      && s'.queue == s.queue
      && (if !c.Spurious? && s.pool == cur then
            a'.pc == Unlock(Got(req)) && s'.pool == s.pool.(permits := s.pool.permits - req.n)
          else
            a'.pc == EnqLoop(req, true, s.pool) && s'.pool == s.pool)
    else
      && a'.pc == Unlock(Park(req)) && s'.pool == s.pool
      && s'.queue == s.queue + [i] && i !in s.queue
      && a'.node.place.Queued? && a'.node.n == a'.node.need == req.n
  }

  /** `enqueue_or_acquire` serves a request only from a line of one, and otherwise puts it at the end of the line. */
  lemma EnqueueOutcome(s: State, schedule: seq<(nat, Choice)>, i: nat, req: Req, empty: bool, cur: Pool, c: Choice)
    requires Init(s) && i < |Run(s, schedule).agents| && Run(s, schedule).agents[i].pc == EnqLoop(req, empty, cur)
    ensures LastLook(Run(s, schedule), Step(Run(s, schedule), i, c), i, req, cur, c)
  {
    RunHolds(s, schedule);
    var e := Run(s, schedule);
    assert HolderFacts(e, e.agents[i].pc) && NodeOk(e.agents[i]);
  }

  // ----- how an acquisition ends -----

  /** The agent is inside an acquisition for `req`, which has not been dropped. */
  predicate Asks(pc: Pc, req: Req) {
    match pc
    case Load(r, _) => r == req
    case Try(r, _, _) => r == req
    case EnqLock(r) => r == req
    case EnqFlag(r, _) => r == req
    case EnqLoop(r, _, _) => r == req
    case Unlock(next) => next == Got(req) || next == Park(req)
    case UnlockNull(next) => next == Got(req) || next == Park(req)
    case Waiting(r) => r == req
    case _ => false
  }

  /** The step completes the acquisition. */
  predicate Completes(s: State, i: nat, req: Req, c: Choice)
    requires i < |s.agents|
  {
    match s.agents[i].pc
    case Try(r, _, cur) => !c.Spurious? && s.pool == cur && Admits(s.pool, req.n)
    case Unlock(next) => next == Got(req) && s.queue != []
    case UnlockNull(next) => next == Got(req)
    case Waiting(r) => s.agents[i].node.place.Granted? && !(c.Abandon? && req.future)
    case _ => false
  }

  /** The acquisition is given up: refused, closed, dropped, or too large for the queue. */
  predicate GivenUp(s: State, i: nat, req: Req, c: Choice)
    requires i < |s.agents|
  {
    match s.agents[i].pc
    case Try(_, stage, cur) =>
      || (!Admits(cur, req.n) && stage.Only?)
      || (stage.Second? && (cur.closed || (!Admits(cur, req.n) && req.n > MAX_PERMITS && !req.future)))
    case EnqLoop(_, _, cur) => cur.closed
    case Waiting(_) => s.agents[i].node.place.Shut? || (c.Abandon? && req.future)
    case _ => false
  }

  /** It goes on with the same request, or completes with a guard for exactly that, or is given up without one. */
  predicate EndsWell(s: State, s': State, i: nat, req: Req, c: Choice)
    requires i < |s.agents|
  {
    && i < |s'.agents|
    && (if Completes(s, i, req, c) then
          s'.agents[i].pc.Idle? && s'.guards == s.guards + [Guard(req.kind, req.n)]
        else
          s'.guards == s.guards && (Asks(s'.agents[i].pc, req) <==> !GivenUp(s, i, req, c)))
  }

  lemma TryEnds(s: State, i: nat, req: Req, c: Choice)
    requires i < |s.agents| && Asks(s.agents[i].pc, req)
    requires s.agents[i].pc.Load? || s.agents[i].pc.Try?
    ensures EndsWell(s, Step(s, i, c), i, req, c)
  {
  }

  lemma EnqueueEnds(s: State, i: nat, req: Req, c: Choice)
    requires i < |s.agents| && Asks(s.agents[i].pc, req)
    requires s.agents[i].pc.EnqLock? || s.agents[i].pc.EnqFlag? || s.agents[i].pc.EnqLoop?
    ensures EndsWell(s, Step(s, i, c), i, req, c)
  {
  }

  lemma UnlockEnds(s: State, i: nat, req: Req, c: Choice)
    requires i < |s.agents| && Asks(s.agents[i].pc, req)
    requires s.agents[i].pc.Unlock? || s.agents[i].pc.UnlockNull?
    ensures EndsWell(s, Step(s, i, c), i, req, c)
  {
  }

  lemma WaitEnds(s: State, i: nat, req: Req, c: Choice)
    requires i < |s.agents| && s.agents[i].pc == Waiting(req)
    ensures EndsWell(s, WaitStep(s, i, req, c), i, req, c)
  {
  }

  /**
    An acquisition keeps its request until it completes or is given up; it completes by the compare-exchange
    on the pool or by a grant, and then with a guard of its kind for exactly the permits it asked for.
   */
  lemma AcquireOutcome(s: State, schedule: seq<(nat, Choice)>, i: nat, req: Req, c: Choice)
    requires i < |Run(s, schedule).agents| && Asks(Run(s, schedule).agents[i].pc, req)
    ensures EndsWell(Run(s, schedule), Step(Run(s, schedule), i, c), i, req, c)
  {
    var e := Run(s, schedule);
    var pc := e.agents[i].pc;
    if pc.Load? || pc.Try? {
      TryEnds(e, i, req, c);
    } else if pc.Unlock? || pc.UnlockNull? {
      UnlockEnds(e, i, req, c);
    } else if pc.Waiting? {
      WaitEnds(e, i, req, c);
    } else {
      EnqueueEnds(e, i, req, c);
    }
  }

  /** A waiter that was shut gives back what it had been assigned; one dropped with its grant gives back all of it. */
  lemma WaitOutcome(s: State, schedule: seq<(nat, Choice)>, i: nat, req: Req, c: Choice)
    requires Init(s) && i < |Run(s, schedule).agents| && Run(s, schedule).agents[i].pc == Waiting(req)
    ensures var e := Run(s, schedule);
            var e' := Step(e, i, c);
            && i < |e'.agents|
            && var node, pc' := e.agents[i].node, e'.agents[i].pc;
            && (node.place.Shut? ==> node.need <= req.n && pc' == Release(req.n - node.need))
            && (node.place.Granted? && c.Abandon? && req.future ==> pc' == Release(req.n))
            && (!node.place.Shut? && !node.place.Granted? ==>
                  if c.Abandon? && req.future then pc' == CancelLock(req) else e' == e)
  {
    RunHolds(s, schedule);
    assert NodeOk(Run(s, schedule).agents[i]);
  }

  // ----- a call without interference -----

  lemma ReleaseExact(s: State, i: nat, k: nat)
    requires i < |s.agents| && !s.pool.hasQueue && s.pool.permits + k < PERMIT_SPACE
    ensures var s' := ReleaseStep(s, i, k);
            && s'.pool == s.pool.(permits := s.pool.permits + k) && s'.agents == Goto(s, i, Idle).agents
            && s'.guards == s.guards && s'.books.added == s.books.added
            && (s.pool.permits + k <= MAX_PERMITS ==> s' == s.(agents := s'.agents, pool := s'.pool))
  {
  }

  /** The state with `req` served from the pool. */
  function Served(s: State, req: Req): State
    requires req.n <= s.pool.permits
  {
    WithGuard(s, Guard(req.kind, req.n)).(pool := s.pool.(permits := s.pool.permits - req.n))
  }

  /** Left alone, a `try_acquire` that the pool admits ends with its guard. */
  lemma AcquiresExactly(s: State, schedule: seq<(nat, Choice)>, i: nat, req: Req)
    requires i < |Run(s, schedule).agents| && Run(s, schedule).agents[i].pc.Idle?
    requires Admits(Run(s, schedule).pool, req.n)
    ensures var e := Run(s, schedule);
            Step(Step(Step(e, i, Begin(TryAcquire(req))), i, Go), i, Go) == Served(e, req)
  {
    var e := Run(s, schedule);
    assert Step(Step(Step(e, i, Begin(TryAcquire(req))), i, Go), i, Go).agents == e.agents;
  }

  /** Dropping the guard undoes the acquisition. */
  lemma DropUndoesAcquire(s: State, i: nat, req: Req)
    requires i < |s.agents| && s.agents[i].pc.Idle? && Admits(s.pool, req.n) && s.pool.permits <= MAX_PERMITS
    ensures Step(Step(Served(s, req), i, Begin(DropGuard(|s.guards|))), i, Go) == s
  {
    var held := Served(s, req);
    var releasing := Start(held, i, DropGuard(|s.guards|));
    assert releasing.guards == s.guards;
    ReleaseExact(releasing, i, req.n);
    assert Goto(releasing, i, Idle).agents == s.agents;
  }

  /** Left alone, an `acquire` of what is free ends in the same way as a `try_acquire`. */
  lemma AcquireAtOnce(s: State, schedule: seq<(nat, Choice)>, i: nat, req: Req)
    requires i < |Run(s, schedule).agents| && Run(s, schedule).agents[i].pc.Idle?
    requires Admits(Run(s, schedule).pool, req.n)
    ensures var e := Run(s, schedule);
            Step(Step(Step(e, i, Begin(Acquire(req))), i, Go), i, Go) ==
              Step(Step(Step(e, i, Begin(TryAcquire(req))), i, Go), i, Go)
  {
  }

  /** Left alone, with nobody in line, `add_permits` adds exactly `k` to the pool, as far as the field holds them. */
  lemma AddsExactly(s: State, schedule: seq<(nat, Choice)>, i: nat, k: nat)
    requires i < |Run(s, schedule).agents| && Run(s, schedule).agents[i].pc.Idle?
    requires !Run(s, schedule).pool.hasQueue && Run(s, schedule).pool.permits + k < PERMIT_SPACE
    ensures var e := Run(s, schedule);
            var e' := Step(Step(e, i, Begin(AddPermits(k))), i, Go);
            && e'.pool == e.pool.(permits := e.pool.permits + k)
            && e'.agents == e.agents && e'.guards == e.guards && e'.books.added == e.books.added + k
  {
    var e := Run(s, schedule);
    var releasing := Start(e, i, AddPermits(k));
    ReleaseExact(releasing, i, k);
    assert Goto(releasing, i, Idle).agents == e.agents;
  }

  /** Left alone, `forget_permits` takes exactly `k` permits out of the pool, or all there are. */
  lemma ForgetsExactly(s: State, schedule: seq<(nat, Choice)>, i: nat, k: nat)
    requires i < |Run(s, schedule).agents| && Run(s, schedule).agents[i].pc.Idle?
    ensures var e := Run(s, schedule);
            var e' := Step(Step(Step(e, i, Begin(ForgetPermits(k))), i, Go), i, Go);
            && e'.pool == e.pool.(permits := if e.pool.permits < k then 0 else e.pool.permits - k)
            && e'.agents == e.agents && e'.guards == e.guards
  {
    var e := Run(s, schedule);
    assert Step(Step(Step(e, i, Begin(ForgetPermits(k))), i, Go), i, Go).agents == e.agents;
  }

  // ----- guards -----

  /** Splitting takes exactly `k` permits into a new guard, and merging the two gives back the old one. */
  lemma SplitThenMerge(s: State, i: nat, g: nat, k: nat)
    requires i < |s.agents| && g < |s.guards| && k <= s.guards[g].permits
    ensures var split := Start(s, i, SplitGuard(g, k));
            && |split.guards| == |s.guards| + 1
            && split.guards[|s.guards|] == Guard(s.guards[g].kind, k)
            && Start(split, i, MergeGuards(g, |s.guards|)) == s
  {
    var split := Start(s, i, SplitGuard(g, k));
    var merged := Start(split, i, MergeGuards(g, |s.guards|));
    assert merged.guards == s.guards;
  }

  /** `forget_permits` takes out of the pool what it books as forgotten: all it was asked for, or all there was. */
  lemma ForgetOutcome(s: State, schedule: seq<(nat, Choice)>, i: nat, k: nat, cur: Pool, c: Choice)
    requires i < |Run(s, schedule).agents| && Run(s, schedule).agents[i].pc == Forget(k, cur)
    ensures var e := Run(s, schedule);
            var e' := Step(e, i, c);
            && i < |e'.agents|
            && e'.pool == e.pool.(permits := e'.pool.permits)
            && e'.books.forgotten - e.books.forgotten == e.pool.permits - e'.pool.permits
            && (if !c.Spurious? && e.pool == cur then
                  e'.agents[i].pc.Idle? && e'.pool.permits == (if e.pool.permits < k then 0 else e.pool.permits - k)
                else
                  && e'.pool == e.pool
                  && (k > 0 && cur.permits > 0 ==> e'.agents[i].pc == Forget(k, e.pool)))
  {
  }
}

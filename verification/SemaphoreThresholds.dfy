/**
  Where the guarantees of the semaphore end: the exact number of permits, and the exact size of a request,
  up to which they hold, with the schedules that break them beyond.
 */
module SemaphoreThresholds {
  import opened Ledger
  import opened Schedules
  import opened WaitWord
  import opened Semaphore
  import opened SemaphoreInvariant
  import opened SemaphoreDeal
  import opened SemaphoreSteps
  import opened SemaphoreTheorems
  import opened SemaphoreControl

  /** One more step of a schedule. */
  lemma Next(s: State, past: seq<(nat, Choice)>, e: State, i: nat, c: Choice)
    returns (longer: seq<(nat, Choice)>, e': State)
    requires Run(s, past) == e
    ensures Run(s, longer) == e' == Step(e, i, c)
    ensures forall limit | AsksWithin(past, limit) && Fits(c, limit) :: AsksWithin(longer, limit)
  {
    longer, e' := past + [(i, c)], Step(e, i, c);
    DropAppended(past, (i, c));
  }

  /** An empty semaphore that nobody has used. */
  predicate Unused(s: State, agents: nat) {
    Init(s) && s.books.initial == 0 && |s.agents| == agents
  }

  lemma SomeUnused(agents: nat) returns (s: State)
    ensures Unused(s, agents)
  {
    s := State(Pool(0, false, false), Null, [], seq(agents, _ => Agent(Idle, NoNode)), [],
               Books(0, 0, 0, false, false), Line(0, [], {}, {}));
  }

  // ----- permits -----

  /** Agent 0 asks for permits and gets as far as its second attempt. */
  lemma AskTwice(s: State, n: nat, future: bool, agents: nat) returns (past: seq<(nat, Choice)>, e: State)
    requires 0 < n && 0 < agents && Unused(s, agents)
    ensures Run(s, past) == e == Goto(s, 0, Try(Req(n, Plain, future), Second, s.pool))
    ensures AsksWithin(past, n)
  {
    past, e := [], s;
    past, e := Next(s, past, e, 0, Begin(Acquire(Req(n, Plain, future))));
    past, e := Next(s, past, e, 0, Go);
    past, e := Next(s, past, e, 0, Go);
    past, e := Next(s, past, e, 0, Go);
    assert e.agents == s.agents[0 := e.agents[0]];
  }

  /** Agent 0 waits in line for one permit. */
  lemma OneWaits(s: State) returns (past: seq<(nat, Choice)>, e: State)
    requires Unused(s, 2)
    ensures Run(s, past) == e
    ensures e.pool == Pool(0, false, true) && e.queue == [0] && |e.agents| == 2 && Issued(e) == 0
    ensures e.agents[0].pc == Waiting(Req(1, Plain, false)) && e.agents[0].node.need == 1
    ensures e.agents[1].pc == Idle
  {
    var start, asked := AskTwice(s, 1, false, 2);
    var more, first := GoesInside(s, start, asked);
    past, e := Parks(s, more, first);
  }

  /** From the failed second attempt to the look at the pool under the lock. */
  lemma GoesInside(s: State, start: seq<(nat, Choice)>, asked: State) returns (past: seq<(nat, Choice)>, e: State)
    requires Run(s, start) == asked && |asked.agents| == 2 && asked.word == Null && asked.queue == []
    requires asked.agents[0].pc == Try(Req(1, Plain, false), Second, Pool(0, false, false))
    requires asked.pool == Pool(0, false, false)
    ensures Run(s, past) == e && |e.agents| == 2 && e.agents[1] == asked.agents[1] && Issued(e) == Issued(asked)
    ensures e.agents[0].pc == EnqLoop(Req(1, Plain, false), true, Pool(0, false, true)) && e.word == Held(0)
    ensures e.pool == Pool(0, false, true) && e.queue == []
  {
    past, e := Next(s, start, asked, 0, Go);
    past, e := Next(s, past, e, 0, Go);
    past, e := Next(s, past, e, 0, Go);
  }

  /** The push and the unlock. */
  lemma Parks(s: State, start: seq<(nat, Choice)>, first: State) returns (past: seq<(nat, Choice)>, e: State)
    requires Run(s, start) == first && |first.agents| == 2 && first.queue == []
    requires first.agents[0].pc == EnqLoop(Req(1, Plain, false), true, Pool(0, false, true))
    ensures Run(s, past) == e && |e.agents| == 2 && e.agents[1] == first.agents[1] && Issued(e) == Issued(first)
    ensures e.agents[0].pc == Waiting(Req(1, Plain, false)) && e.agents[0].node.need == 1
    ensures e.pool == first.pool && e.queue == [0]
  {
    past, e := Next(s, start, first, 0, Go);
    past, e := Next(s, past, e, 0, Go);
  }

  /** A release that goes beyond MAX_PERMITS leaves its permits in the pool and the queue alone. */
  lemma Overfill(e: State, i: nat, k: nat)
    requires i < |e.agents| && e.agents[i].pc == Release(k) && e.pool.permits == 0 && MAX_PERMITS < k
    ensures var books := e.books.(tripped := true, wrapped := e.books.wrapped || k >= PERMIT_SPACE);
            Step(e, i, Go) == Goto(e, i, Idle).(pool := e.pool.(permits := k % PERMIT_SPACE), books := books)
  {
  }

  /** One permit too many: the pool has plenty, the release has panicked, and the waiter stays in line. */
  lemma OneTooMany(s: State) returns (past: seq<(nat, Choice)>, e: State)
    requires Unused(s, 2)
    ensures Run(s, past) == e && Stranded(e) && Issued(e) == MAX_PERMITS + 1
  {
    var start, first := OneWaits(s);
    var more, second := Next(s, start, first, 1, Begin(AddPermits(MAX_PERMITS + 1)));
    AddTooMany(first, MAX_PERMITS + 1);
    past, e := Next(s, more, second, 1, Go);
  }

  lemma AddTooMany(first: State, k: nat)
    requires first.pool.permits == 0 && first.queue == [0] && |first.agents| == 2 && MAX_PERMITS < k < PERMIT_SPACE
    requires first.agents[0].pc.Waiting? && first.agents[0].node.need == 1 && first.agents[1].pc == Idle
    ensures var e := Step(Step(first, 1, Begin(AddPermits(k))), 1, Go);
            Stranded(e) && Issued(e) == Issued(first) + k
  {
    var second := Goto(first, 1, Release(k)).(books := first.books.(added := first.books.added + k));
    AddsLater(first, k);
    Overfill(second, 1, k);
    StrandedHere(Step(second, 1, Go));
  }

  lemma AddsLater(e: State, k: nat)
    requires |e.agents| == 2 && e.agents[1].pc == Idle
    ensures Step(e, 1, Begin(AddPermits(k))) == Goto(e, 1, Release(k)).(books := e.books.(added := e.books.added + k))
  {
  }

  lemma StrandedHere(e: State)
    requires |e.agents| == 2 && e.agents[0].pc.Waiting? && e.agents[1].pc.Idle?
    requires e.queue == [0] && e.agents[0].node.need <= e.pool.permits
    ensures Stranded(e)
  {
  }

  /** In no schedule in which at most `total` permits ever exist at once is a waiter stranded. */
  ghost predicate NeverStrands(total: nat) {
    forall s: State, schedule: seq<(nat, Choice)> ::
      Init(s) && Limited(s, schedule, total) ==> !Stranded(Run(s, schedule))
  }

  /** `total` keeps all schedules under it from stranding a waiter if and only if it is at most MAX_PERMITS. */
  lemma StrandingThreshold(total: nat)
    ensures NeverStrands(total) <==> total <= MAX_PERMITS
  {
    if total <= MAX_PERMITS {
      forall s: State, schedule: seq<(nat, Choice)> | Init(s) && Limited(s, schedule, total)
        ensures !Stranded(Run(s, schedule))
      {
        ReleasesPass(s, schedule, total);
        NoStrandedWaiter(s, schedule);
      }
    } else {
      var s := SomeUnused(2);
      var past, e := OneTooMany(s);
      FewIssued(s, past, total);
      assert Init(s) && Stranded(Run(s, past));
    }
  }

  /** An addition that does not fit into the permit field adds nothing. */
  lemma DroppedByTheShift(s: State) returns (past: seq<(nat, Choice)>, e: State)
    requires Unused(s, 1)
    ensures Run(s, past) == e && !Conserved(e) && Issued(e) == PERMIT_SPACE
  {
    var more, first := Next(s, [], s, 0, Begin(AddPermits(PERMIT_SPACE)));
    assert first == Goto(s, 0, Release(PERMIT_SPACE)).(books := s.books.(added := PERMIT_SPACE));
    past, e := Next(s, more, first, 0, Go);
    Overfill(first, 0, PERMIT_SPACE);
    assert e.agents[0] == Agent(Idle, NoNode);
    NotConservedHere(e);
  }

  lemma NotConservedHere(e: State)
    requires e.pool.permits == 0 && e.guards == [] && |e.agents| == 1 && e.agents[0] == Agent(Idle, NoNode)
    requires e.books.initial == 0 && e.books.added == PERMIT_SPACE && e.books.forgotten == 0
    ensures !Conserved(e)
  {
    SumZero(e.agents, Weight);
    SumZero(e.guards, GuardWeight);
  }

  ghost predicate AlwaysConserves(total: nat) {
    forall s: State, schedule: seq<(nat, Choice)> ::
      Init(s) && Limited(s, schedule, total) ==> Conserved(Run(s, schedule))
  }

  /** `total` keeps all schedules under it conservative if and only if it fits into the permit field. */
  lemma ConservationThreshold(total: nat)
    ensures AlwaysConserves(total) <==> total < PERMIT_SPACE
  {
    if total < PERMIT_SPACE {
      forall s: State, schedule: seq<(nat, Choice)> | Init(s) && Limited(s, schedule, total)
        ensures Conserved(Run(s, schedule))
      {
        ReleasesPass(s, schedule, total);
        PermitsConserved(s, schedule);
      }
    } else {
      var s := SomeUnused(1);
      var past, e := DroppedByTheShift(s);
      FewIssued(s, past, total);
      assert Init(s) && !Conserved(Run(s, past));
    }
  }

  // ----- requests -----

  /** No future asks for more than `limit` permits; blocking calls may. */
  predicate AsksWithin(schedule: seq<(nat, Choice)>, limit: nat) {
    forall k | 0 <= k < |schedule| :: Fits(schedule[k].1, limit)
  }

  predicate Fits(c: Choice, limit: nat) {
    c.Begin? && c.op.Acquire? && c.op.req.future ==> c.op.req.n <= limit
  }

  /** A future inside an acquisition asked for at most `limit`. */
  predicate PcWithin(pc: Pc, limit: nat) {
    match pc
    case Load(req, stage) => stage.Only? || ReqWithin(req, limit)
    case Try(req, stage, _) => stage.Only? || ReqWithin(req, limit)
    case EnqLock(req) => ReqWithin(req, limit)
    case EnqFlag(req, _) => ReqWithin(req, limit)
    case EnqLoop(req, _, _) => ReqWithin(req, limit)
    case Unlock(Park(req)) => ReqWithin(req, limit)
    case Unlock(SpinFor(req)) => ReqWithin(req, limit)
    case UnlockNull(Park(req)) => ReqWithin(req, limit)
    case UnlockNull(SpinFor(req)) => ReqWithin(req, limit)
    case Waiting(req) => ReqWithin(req, limit)
    case CancelLock(req) => ReqWithin(req, limit)
    case CancelRemove(req) => ReqWithin(req, limit)
    case CancelSpin(req) => ReqWithin(req, limit)
    case _ => true
  }

  predicate ReqWithin(req: Req, limit: nat) { req.future ==> req.n <= limit }

  predicate AllWithin(agents: seq<Agent>, limit: nat) {
    forall i | 0 <= i < |agents| :: PcWithin(agents[i].pc, limit)
  }

  // ----- whose program counter a step moves -----

  lemma {:induction false} DealKeepsPcs(agents: seq<Agent>, queue: seq<nat>, available: nat, taker: nat)
    ensures var r := Deal(agents, queue, available, taker);
            |r.agents| == |agents| && forall j | 0 <= j < |agents| :: r.agents[j].pc == agents[j].pc
    decreases |queue|
  {
    if queue != [] && queue[0] < |agents| && agents[queue[0]].node.need <= available {
      var node := agents[queue[0]].node;
      var served := agents[queue[0]].(node := node.(place := Popped(taker), need := 0));
      DealKeepsPcs(agents[queue[0] := served], queue[1..], available - node.need, taker);
    }
  }

  lemma EarlyMoves(s: State, i: nat, c: Choice)
    requires i < |s.agents| && (Early(s.agents[i].pc) || Middle(s.agents[i].pc))
    ensures OnlyMoves(s, Step(s, i, c), i)
  {
  }

  lemma LateMoves(s: State, i: nat, c: Choice)
    requires i < |s.agents| && !Early(s.agents[i].pc) && !Middle(s.agents[i].pc)
    ensures OnlyMoves(s, Step(s, i, c), i)
  {
    if s.agents[i].pc.Distribute? {
      DealKeepsPcs(s.agents, s.queue, s.agents[i].pc.available, i);
    }
  }

  // ----- no oversized future, no lost waiter -----

  lemma TryWithin(s: State, i: nat, c: Choice, limit: nat)
    requires i < |s.agents| && (s.agents[i].pc.Idle? || s.agents[i].pc.Load? || s.agents[i].pc.Try?)
    requires PcWithin(s.agents[i].pc, limit) && Fits(c, limit)
    ensures i < |Step(s, i, c).agents| && PcWithin(Step(s, i, c).agents[i].pc, limit)
  {
  }

  lemma EnqWithin(s: State, i: nat, c: Choice, limit: nat)
    requires i < |s.agents| && (s.agents[i].pc.EnqLock? || s.agents[i].pc.EnqFlag? || s.agents[i].pc.EnqLoop?)
    requires PcWithin(s.agents[i].pc, limit)
    ensures i < |Step(s, i, c).agents| && PcWithin(Step(s, i, c).agents[i].pc, limit)
  {
  }

  lemma UnlockWithin(s: State, i: nat, c: Choice, limit: nat)
    requires i < |s.agents| && (s.agents[i].pc.Unlock? || s.agents[i].pc.UnlockNull?)
    requires PcWithin(s.agents[i].pc, limit)
    ensures i < |Step(s, i, c).agents| && PcWithin(Step(s, i, c).agents[i].pc, limit)
  {
  }

  lemma MiddleWithin(s: State, i: nat, c: Choice, limit: nat)
    requires i < |s.agents| && Middle(s.agents[i].pc) && PcWithin(s.agents[i].pc, limit)
    ensures i < |Step(s, i, c).agents| && PcWithin(Step(s, i, c).agents[i].pc, limit)
  {
  }

  /** Outside an acquisition there is nothing to look at. */
  predicate NoRequest(pc: Pc) { !Early(pc) && !Middle(pc) }

  lemma LateWithin(s: State, i: nat, c: Choice, limit: nat)
    requires i < |s.agents| && NoRequest(s.agents[i].pc)
    ensures i < |Step(s, i, c).agents| && PcWithin(Step(s, i, c).agents[i].pc, limit)
  {
    LateMoves(s, i, c);
    var pc := Step(s, i, c).agents[i].pc;
    LateTarget(s, i, c);
    assert PcWithin(pc, limit);
  }

  lemma LateTarget(s: State, i: nat, c: Choice)
    requires i < |s.agents| && NoRequest(s.agents[i].pc) && i < |Step(s, i, c).agents|
    ensures var pc := Step(s, i, c).agents[i].pc;
            NoRequest(pc) || pc.Idle? || (pc.Unlock? && pc.next.Wake?)
  {
    var pc := s.agents[i].pc;
    if pc.Distribute? {
      assert Step(s, i, c) == DistributeStep(s, i, pc.available);
    } else if pc.CloseFlag? || pc.CloseLock? || pc.CloseTake? || pc.ForgetLoad? || pc.Forget? {
      CloseTarget(s, i, c);
    } else {
      DrainTarget(s, i, c);
    }
  }

  lemma CloseTarget(s: State, i: nat, c: Choice)
    requires i < |s.agents| && i < |Step(s, i, c).agents|
    requires var pc := s.agents[i].pc; pc.CloseFlag? || pc.CloseLock? || pc.CloseTake? || pc.ForgetLoad? || pc.Forget?
    ensures var pc := Step(s, i, c).agents[i].pc;
            NoRequest(pc) || pc.Idle? || (pc.Unlock? && pc.next.Wake?)
  {
  }

  lemma DrainTarget(s: State, i: nat, c: Choice)
    requires i < |s.agents| && i < |Step(s, i, c).agents|
    requires var pc := s.agents[i].pc;
             pc.Release? || pc.DrainLock? || pc.DrainLoad? || pc.DrainTake? || pc.PutBack? || pc.Signaling?
    ensures var pc := Step(s, i, c).agents[i].pc;
            NoRequest(pc) || pc.Idle? || (pc.Unlock? && pc.next.Wake?)
  {
  }

  lemma StepWithin(s: State, i: nat, c: Choice, limit: nat)
    requires AllWithin(s.agents, limit) && Fits(c, limit)
    ensures AllWithin(Step(s, i, c).agents, limit)
  {
    if i < |s.agents| {
      var pc := s.agents[i].pc;
      if Early(pc) || Middle(pc) {
        EarlyMoves(s, i, c);
      } else {
        LateMoves(s, i, c);
      }
      if Middle(pc) {
        MiddleWithin(s, i, c, limit);
      } else if !Early(pc) {
        LateWithin(s, i, c, limit);
      } else if pc.Unlock? || pc.UnlockNull? {
        UnlockWithin(s, i, c, limit);
      } else if pc.EnqLock? || pc.EnqFlag? || pc.EnqLoop? {
        EnqWithin(s, i, c, limit);
      } else {
        TryWithin(s, i, c, limit);
      }
    }
  }

  lemma {:induction false} RunWithin(s: State, schedule: seq<(nat, Choice)>, limit: nat)
    requires Init(s) && AsksWithin(schedule, limit)
    ensures AllWithin(Run(s, schedule).agents, limit)
    decreases |schedule|
  {
    if schedule != [] {
      var last := schedule[|schedule| - 1];
      RunWithin(s, schedule[..|schedule| - 1], limit);
      StepWithin(Run(s, schedule[..|schedule| - 1]), last.0, last.1, limit);
    }
  }

  /** In no schedule whose futures ask for at most `limit` permits is a waiter lost. */
  ghost predicate NeverLoses(limit: nat) {
    forall s: State, schedule: seq<(nat, Choice)>, i: nat ::
      Init(s) && AsksWithin(schedule, limit) ==> !Lost(Run(s, schedule), i)
  }

  lemma NobodyLost(s: State, schedule: seq<(nat, Choice)>, i: nat)
    requires Init(s) && AsksWithin(schedule, MAX_PERMITS)
    ensures !Lost(Run(s, schedule), i)
  {
    var e := Run(s, schedule);
    if i < |e.agents| {
      NoLostWaiter(s, schedule, i);
      RunWithin(s, schedule, MAX_PERMITS);
      assert PcWithin(e.agents[i].pc, MAX_PERMITS);
    }
  }

  /** The second attempt of an oversized future: it panics, and its node waits for a signal nobody can send. */
  lemma Panics(e: State, req: Req)
    requires |e.agents| == 1 && e.agents[0].pc == Try(req, Second, Pool(0, false, false))
    requires req.future && req.n > MAX_PERMITS
    ensures Step(e, 0, Go) == e.(agents := [Agent(Waiting(req), Node(Armed, req.n, req.n, 0))])
  {
  }

  lemma LostHere(e: State)
    requires |e.agents| == 1 && e.agents[0].node.place == Armed
    requires e.agents[0].pc.Waiting? || e.agents[0].pc.CancelLock? || e.agents[0].pc.CancelSpin?
    ensures Lost(e, 0)
  {
  }

  /** The armed future is dropped. */
  lemma DropArmed(s: State, past: seq<(nat, Choice)>, e: State) returns (longer: seq<(nat, Choice)>, e': State)
    requires Run(s, past) == e && |e.agents| == 1 && e.agents[0].pc.Waiting? && e.agents[0].pc.req.future
    requires e.agents[0].node.place == Armed
    ensures forall limit | AsksWithin(past, limit) :: AsksWithin(longer, limit)
    ensures Run(s, longer) == e' == Goto(e, 0, CancelLock(e.agents[0].pc.req))
  {
    longer, e' := Next(s, past, e, 0, Abandon);
  }

  /** Its destructor finds no queue. */
  lemma FindNoQueue(s: State, past: seq<(nat, Choice)>, e: State) returns (longer: seq<(nat, Choice)>, e': State)
    requires Run(s, past) == e && |e.agents| == 1 && e.agents[0].pc.CancelLock? && e.word == Null
    ensures forall limit | AsksWithin(past, limit) :: AsksWithin(longer, limit)
    ensures Run(s, longer) == e' == Goto(e, 0, CancelSpin(e.agents[0].pc.req))
  {
    longer, e' := Next(s, past, e, 0, Go);
  }

  lemma AsksTooMuch(s: State, n: nat) returns (past: seq<(nat, Choice)>, e: State)
    requires MAX_PERMITS < n < WORD && Unused(s, 1)
    ensures Run(s, past) == e && AsksWithin(past, n) && Lost(e, 0)
    ensures e.word == Null && e.agents == [Agent(Waiting(Req(n, Plain, true)), Node(Armed, n, n, 0))]
  {
    var begun, tried := AskTwice(s, n, true, 1);
    past, e := Next(s, begun, tried, 0, Go);
    Panics(tried, Req(n, Plain, true));
    LostHere(e);
  }

  /** The same future, dropped: its destructor spins. */
  lemma SpinsInDestructor(s: State, n: nat) returns (past: seq<(nat, Choice)>, e: State)
    requires MAX_PERMITS < n < WORD && Unused(s, 1)
    ensures Run(s, past) == e && AsksWithin(past, n) && Lost(e, 0) && e.agents[0].pc.CancelSpin?
  {
    var lost, hung := AsksTooMuch(s, n);
    past, e := DropAndSpin(s, lost, hung, n);
  }

  lemma DropAndSpin(s: State, past: seq<(nat, Choice)>, e: State, n: nat)
    returns (longer: seq<(nat, Choice)>, e': State)
    requires Run(s, past) == e && AsksWithin(past, n) && |e.agents| == 1 && e.word == Null
    requires e.agents[0].pc.Waiting? && e.agents[0].pc.req.future && e.agents[0].node.place == Armed
    ensures Run(s, longer) == e' && AsksWithin(longer, n) && Lost(e', 0) && e'.agents[0].pc.CancelSpin?
  {
    var more, dropped := DropArmed(s, past, e);
    longer, e' := FindNoQueue(s, more, dropped);
    LostHere(e');
  }

  /** No waiter is ever lost if and only if no future asks for more than MAX_PERMITS permits. */
  lemma RequestThreshold(limit: nat)
    ensures NeverLoses(limit) <==> limit <= MAX_PERMITS
  {
    if limit <= MAX_PERMITS {
      forall s: State, schedule: seq<(nat, Choice)>, i: nat | Init(s) && AsksWithin(schedule, limit)
        ensures !Lost(Run(s, schedule), i)
      {
        assert forall k | 0 <= k < |schedule| :: Fits(schedule[k].1, limit) ==> Fits(schedule[k].1, MAX_PERMITS);
        NobodyLost(s, schedule, i);
      }
    } else {
      var s := SomeUnused(1);
      var past, e := AsksTooMuch(s, MAX_PERMITS + 1);
      assert forall k | 0 <= k < |past| :: Fits(past[k].1, MAX_PERMITS + 1) ==> Fits(past[k].1, limit);
      assert Init(s) && Lost(Run(s, past), 0);
    }
  }

  // ----- and it stays lost -----

  lemma MiddleTouchesOwn(s: State, j: nat, c: Choice, i: nat)
    requires j < |s.agents| && i < |s.agents| && i != j && Middle(s.agents[j].pc)
    ensures i < |Step(s, j, c).agents| && Step(s, j, c).agents[i] == s.agents[i]
  {
  }

  lemma EarlyTouchesOwn(s: State, j: nat, c: Choice, i: nat)
    requires j < |s.agents| && i < |s.agents| && i != j && Early(s.agents[j].pc)
    ensures i < |Step(s, j, c).agents| && Step(s, j, c).agents[i] == s.agents[i]
  {
  }

  lemma LateTouchesOwn(s: State, j: nat, c: Choice, i: nat)
    requires j < |s.agents| && i < |s.agents| && i != j && NoRequest(s.agents[j].pc)
    requires !s.agents[j].pc.Distribute? && !s.agents[j].pc.Signaling? && !s.agents[j].pc.CloseTake?
    ensures i < |Step(s, j, c).agents| && Step(s, j, c).agents[i] == s.agents[i]
  {
    var pc := s.agents[j].pc;
    if pc.Release? || pc.DrainLock? || pc.DrainLoad? {
    } else if pc.DrainTake? || pc.PutBack? {
    } else {
    }
  }

  lemma DistributeUntouched(s: State, j: nat, available: nat, i: nat)
    requires Dealable(s.agents, s.queue) && j < |s.agents| && i < |s.agents| && i != j && i !in s.queue
    ensures DistributeStep(s, j, available).agents[i] == s.agents[i]
  {
    DealEffect(s.agents, s.queue, available, j);
  }

  lemma SignalUntouched(s: State, j: nat, chain: seq<nat>, signal: Place, i: nat)
    requires j < |s.agents| && i < |s.agents| && i != j && i !in chain
    ensures SignalStep(s, j, chain, signal).agents[i] == s.agents[i]
  {
  }

  /** Nobody but its own agent touches an armed node. */
  lemma ArmedUntouched(s: State, j: nat, c: Choice, i: nat)
    requires Inv(s) && j < |s.agents| && i < |s.agents| && i != j && s.agents[i].node.place.Armed?
    ensures i < |Step(s, j, c).agents| && Step(s, j, c).agents[i] == s.agents[i]
  {
    var pc := s.agents[j].pc;
    assert ChainOk(s.agents, j);
    if Early(pc) {
      EarlyTouchesOwn(s, j, c, i);
    } else if Middle(pc) {
      MiddleTouchesOwn(s, j, c, i);
    } else if pc.Distribute? {
      assert Dealable(s.agents, s.queue) by {
        assert forall k | 0 <= k < |s.queue| :: NodeOk(s.agents[s.queue[k]]);
      }
      DistributeUntouched(s, j, pc.available, i);
    } else if pc.Signaling? {
      assert i !in Chain(pc);
      SignalUntouched(s, j, pc.chain, pc.signal, i);
    } else if !pc.CloseTake? {
      LateTouchesOwn(s, j, c, i);
    }
  }

  /** Its own agent goes on to look for it, does not find it, and spins. */
  lemma ArmedStays(s: State, c: Choice, i: nat)
    requires Inv(s) && i < |s.agents| && s.agents[i].node.place.Armed?
    ensures i < |Step(s, i, c).agents| && Step(s, i, c).agents[i].node.place.Armed?
    ensures s.agents[i].pc.CancelSpin? ==> Step(s, i, c) == s
  {
    assert NodeOk(s.agents[i]);
  }

  /** Once lost, a wait is lost in every continuation, and a destructor that spins for it spins on. */
  lemma {:induction false} LostForever(s: State, before: seq<(nat, Choice)>, after: seq<(nat, Choice)>, i: nat)
    requires Init(s) && Lost(Run(s, before), i)
    ensures Lost(Run(s, before + after), i)
    ensures Run(s, before).agents[i].pc.CancelSpin? ==>
              Run(s, before + after).agents[i].pc == Run(s, before).agents[i].pc
    decreases |after|
  {
    RunHolds(s, before + after);
    if after == [] {
      assert before + after == before;
    } else {
      var shorter := after[..|after| - 1];
      var last := after[|after| - 1];
      DropLast(before, after);
      LostForever(s, before, shorter, i);
      RunHolds(s, before + shorter);
      LostStep(Run(s, before + shorter), last.0, last.1, i);
    }
  }

  lemma LostStep(s: State, j: nat, c: Choice, i: nat)
    requires Inv(s) && Lost(s, i)
    ensures Inv(Step(s, j, c)) ==> Lost(Step(s, j, c), i)
    ensures i < |Step(s, j, c).agents|
    ensures s.agents[i].pc.CancelSpin? ==> Step(s, j, c).agents[i].pc == s.agents[i].pc
  {
    assert NodeOk(s.agents[i]) && PoppedOk(s.agents, i);
    if j < |s.agents| {
      if j == i {
        ArmedStays(s, c, i);
      } else {
        ArmedUntouched(s, j, c, i);
      }
    }
    if Inv(Step(s, j, c)) {
      assert NodeOk(Step(s, j, c).agents[i]);
    }
  }
}

/** Nodes, tickets and permits: kept by every step. */
module SemaphoreData {
  import opened Ledger
  import opened WaitList
  import opened TicketOrder
  import opened Semaphore
  import opened SemaphoreInvariant
  import opened SemaphoreDeal

  /** The stepping agent changes its position and nothing that concerns nodes or tickets. */
  predicate Plain(s: State, s': State, i: nat) {
    && i < |s.agents| && |s'.agents| == |s.agents|
    && s'.agents == s.agents[i := s'.agents[i]]
    && s'.agents[i].node == s.agents[i].node
    && Chain(s'.agents[i].pc) == Chain(s.agents[i].pc)
    && (Grants(s'.agents[i].pc) ==> Grants(s.agents[i].pc))
    && NodeOk(s'.agents[i])
    && s'.queue == s.queue && s'.line == s.line
  }

  /** Chains survive as long as no popped node changes and no new one appears. */
  lemma ChainsFrame(before: seq<Agent>, after: seq<Agent>)
    requires |after| == |before| && ChainsInv(before)
    requires forall j | 0 <= j < |before| ::
               && Chain(after[j].pc) == Chain(before[j].pc)
               && (Grants(after[j].pc) && Chain(after[j].pc) != [] ==> Grants(before[j].pc))
               && (before[j].node.place.Popped? ==> after[j].node == before[j].node)
               && (after[j].node.place.Popped? ==> before[j].node.place.Popped?)
    ensures ChainsInv(after)
  {
    forall j | 0 <= j < |after|
      ensures ChainOk(after, j) && PoppedOk(after, j)
    {
      assert ChainOk(before, j) && PoppedOk(before, j);
    }
  }

  lemma PlainKeeps(s: State, s': State, i: nat)
    requires NodeInv(s) && FifoInv(s) && Plain(s, s', i)
    ensures NodeInv(s') && FifoInv(s')
  {
    ChainsFrame(s.agents, s'.agents);
    assert Tickets(s'.agents, s'.queue) == Tickets(s.agents, s.queue);
  }

  /** The permits the stepping agent gains or loses show up elsewhere in the ledger. */
  predicate Balanced(s: State, s': State, i: nat, made: seq<Guard>) {
    && i < |s.agents| && |s'.agents| == |s.agents| && |made| <= 1
    && s'.agents == s.agents[i := s'.agents[i]]
    && s'.guards == s.guards + made
    && s'.books.initial == s.books.initial && (s.books.wrapped ==> s'.books.wrapped)
    && (!s'.books.wrapped ==>
          s'.pool.permits + Weight(s'.agents[i]) + (if made == [] then 0 else made[0].permits) - Outstanding(s')
          == s.pool.permits + Weight(s.agents[i]) - Outstanding(s))
  }

  lemma BalancedKeeps(s: State, s': State, i: nat, made: seq<Guard>)
    requires PermitInv(s) && Balanced(s, s', i, made)
    ensures PermitInv(s')
  {
    SumUpdate(s.agents, Weight, i, s'.agents[i]);
    if made == [] {
      assert s'.guards == s.guards;
    } else {
      assert made == [made[0]];
      SumAppend(s.guards, GuardWeight, made[0]);
    }
  }

  /** A future asks for more than there can be, and is left with a node that nobody will ever see. */
  predicate Arms(s: State, s': State, i: nat) {
    && i < |s.agents| && |s'.agents| == |s.agents| && s.agents[i].pc.Try?
    && s.agents[i].node.place.Out? && s'.agents[i].node.place.Armed?
    && s'.agents == s.agents[i := s'.agents[i]]
    && s'.agents[i].pc.Waiting? && NodeOk(s'.agents[i])
    && s'.queue == s.queue && s'.line == s.line
  }

  lemma ArmsKeeps(s: State, s': State, i: nat)
    requires NodeInv(s) && FifoInv(s) && Arms(s, s', i)
    ensures NodeInv(s') && FifoInv(s')
  {
    assert i !in s.queue;
    ChainsFrame(s.agents, s'.agents);
    assert Tickets(s'.agents, s'.queue) == Tickets(s.agents, s.queue);
  }

  /** What an agent has in its hands still fits into the pool. */
  lemma HandFits(s: State, i: nat)
    requires NodeInv(s) && PermitInv(s) && i < |s.agents| && !s.books.wrapped
    ensures s.pool.permits + InHand(s.agents[i].pc) <= Outstanding(s)
  {
    assert forall k | 0 <= k < |s.agents| :: NodeOk(s.agents[k]) && 0 <= Weight(s.agents[k]);
    SumMember(s.agents, Weight, i);
    SumNonNegative(s.guards, GuardWeight);
  }

  // ----- steps that touch neither a node nor the queue -----

  lemma LoadPlain(s: State, i: nat, c: Choice)
    requires i < |s.agents| && s.agents[i].pc.Load? && NodeOk(s.agents[i])
    ensures Plain(s, Step(s, i, c), i) && Balanced(s, Step(s, i, c), i, Step(s, i, c).guards[|s.guards|..])
  {
  }

  lemma TryPlain(s: State, i: nat, req: Req, stage: Stage, cur: Pool, c: Choice)
    requires i < |s.agents| && s.agents[i].pc == Try(req, stage, cur) && NodeOk(s.agents[i])
    ensures var s' := TryStep(s, i, req, stage, cur, c);
            if s'.agents[i].pc.Waiting? then Arms(s, s', i) else Plain(s, s', i)
  {
  }

  lemma TryBalanced(s: State, i: nat, req: Req, stage: Stage, cur: Pool, c: Choice)
    requires i < |s.agents| && s.agents[i].pc == Try(req, stage, cur) && NodeOk(s.agents[i])
    ensures var s' := TryStep(s, i, req, stage, cur, c); Balanced(s, s', i, s'.guards[|s.guards|..])
  {
  }

  lemma LockPlain(s: State, i: nat, c: Choice)
    requires i < |s.agents| && (s.agents[i].pc.EnqLock? || s.agents[i].pc.EnqFlag?) && NodeOk(s.agents[i])
    ensures Plain(s, Step(s, i, c), i) && Balanced(s, Step(s, i, c), i, [])
  {
  }

  lemma CancelLockPlain(s: State, i: nat, c: Choice)
    requires i < |s.agents| && s.agents[i].pc.CancelLock? && NodeOk(s.agents[i])
    requires ShapeInv(s) && QueueInv(s.agents, s.queue)
    ensures Plain(s, Step(s, i, c), i) && Balanced(s, Step(s, i, c), i, [])
  {
  }

  lemma UnlockPlain(s: State, i: nat, c: Choice)
    requires i < |s.agents| && s.agents[i].pc.Unlock? && NodeOk(s.agents[i])
    ensures Plain(s, Step(s, i, c), i) && Balanced(s, Step(s, i, c), i, Step(s, i, c).guards[|s.guards|..])
  {
  }

  lemma UnlockNullPlain(s: State, i: nat, c: Choice)
    requires i < |s.agents| && s.agents[i].pc.UnlockNull? && NodeOk(s.agents[i])
    ensures Plain(s, Step(s, i, c), i) && Balanced(s, Step(s, i, c), i, Step(s, i, c).guards[|s.guards|..])
  {
  }

  lemma ReleasePlain(s: State, i: nat, c: Choice)
    requires i < |s.agents| && (s.agents[i].pc.Release? || s.agents[i].pc.DrainLock?) && NodeOk(s.agents[i])
    ensures Plain(s, Step(s, i, c), i) && Balanced(s, Step(s, i, c), i, [])
  {
  }

  lemma DrainPlain(s: State, i: nat, c: Choice)
    requires i < |s.agents| && NodeOk(s.agents[i])
    requires s.agents[i].pc.DrainLoad? || s.agents[i].pc.DrainTake? || s.agents[i].pc.PutBack?
    ensures Plain(s, Step(s, i, c), i) && Balanced(s, Step(s, i, c), i, [])
  {
  }

  lemma ClosePlain(s: State, i: nat, c: Choice)
    requires i < |s.agents| && (s.agents[i].pc.CloseFlag? || s.agents[i].pc.CloseLock?) && NodeOk(s.agents[i])
    ensures Plain(s, Step(s, i, c), i) && Balanced(s, Step(s, i, c), i, [])
  {
  }

  lemma ForgetPlain(s: State, i: nat, c: Choice)
    requires i < |s.agents| && (s.agents[i].pc.ForgetLoad? || s.agents[i].pc.Forget?) && NodeOk(s.agents[i])
    ensures Plain(s, Step(s, i, c), i) && Balanced(s, Step(s, i, c), i, [])
  {
  }

  predicate Data(s: State) { NodeInv(s) && FifoInv(s) && PermitInv(s) }

  // ----- enqueue_or_acquire -----

  lemma EnqueuePlain(s: State, i: nat, req: Req, empty: bool, cur: Pool, c: Choice)
    requires i < |s.agents| && s.agents[i].pc == EnqLoop(req, empty, cur) && NodeOk(s.agents[i])
    requires cur.closed || (empty && cur.permits >= req.n)
    ensures Plain(s, EnqueueStep(s, i, req, empty, cur, c), i)
  {
  }

  lemma EnqueueBalanced(s: State, i: nat, req: Req, empty: bool, cur: Pool, c: Choice)
    requires i < |s.agents| && s.agents[i].pc == EnqLoop(req, empty, cur) && NodeOk(s.agents[i])
    ensures Balanced(s, EnqueueStep(s, i, req, empty, cur, c), i, [])
  {
  }

  lemma PushNodes(s: State, i: nat, req: Req, empty: bool, cur: Pool, c: Choice)
    requires i < |s.agents| && s.agents[i].pc == EnqLoop(req, empty, cur) && NodeInv(s)
    requires !cur.closed && !(empty && cur.permits >= req.n)
    ensures NodeInv(EnqueueStep(s, i, req, empty, cur, c))
  {
    var s' := EnqueueStep(s, i, req, empty, cur, c);
    assert NodeOk(s.agents[i]);
    assert i !in s.queue;
    ChainsFrame(s.agents, s'.agents);
  }

  lemma PushFifo(s: State, i: nat, req: Req, empty: bool, cur: Pool, c: Choice)
    requires i < |s.agents| && s.agents[i].pc == EnqLoop(req, empty, cur)
    requires NodeOk(s.agents[i]) && QueueInv(s.agents, s.queue) && FifoInv(s)
    requires !cur.closed && !(empty && cur.permits >= req.n)
    ensures FifoInv(EnqueueStep(s, i, req, empty, cur, c))
  {
    var s' := EnqueueStep(s, i, req, empty, cur, c);
    var waiting := Tickets(s.agents, s.queue);
    assert i !in s.queue;
    TicketPush(s.line.granted, waiting, s.line.tickets, s.line.cancelled, s.line.shut);
    assert Tickets(s'.agents, s'.queue) == waiting + [s.line.tickets];
  }

  // ----- a waiter leaves with its signal -----

  predicate Departs(s: State, s': State, i: nat) {
    && i < |s.agents| && |s'.agents| == |s.agents|
    && s'.agents == s.agents[i := Agent(s'.agents[i].pc, NoNode)]
    && (s.agents[i].node.place.Granted? || s.agents[i].node.place.Shut?)
    && !Parked(s'.agents[i].pc) && SignalOk(s'.agents[i].pc)
    && Chain(s'.agents[i].pc) == [] && Chain(s.agents[i].pc) == []
    && s'.queue == s.queue && s'.line == s.line
  }

  lemma DepartsKeeps(s: State, s': State, i: nat)
    requires NodeInv(s) && FifoInv(s) && Departs(s, s', i)
    ensures NodeInv(s') && FifoInv(s')
  {
    assert i !in s.queue;
    ChainsFrame(s.agents, s'.agents);
    assert Tickets(s'.agents, s'.queue) == Tickets(s.agents, s.queue);
  }

  lemma WaitDeparts(s: State, i: nat, req: Req, c: Choice)
    requires i < |s.agents| && s.agents[i].pc == Waiting(req) && NodeOk(s.agents[i])
    ensures var s' := WaitStep(s, i, req, c);
            && Balanced(s, s', i, s'.guards[|s.guards|..])
            && (Plain(s, s', i) || Departs(s, s', i))
  {
  }

  lemma CancelSpinDeparts(s: State, i: nat, req: Req)
    requires i < |s.agents| && s.agents[i].pc == CancelSpin(req) && NodeOk(s.agents[i])
    ensures var s' := CancelSpinStep(s, i, req);
            Balanced(s, s', i, []) && (Plain(s, s', i) || Departs(s, s', i))
  {
  }

  // ----- a queued waiter cancels -----

  lemma QueueDrop(agents: seq<Agent>, queue: seq<nat>, k: nat, a: Agent)
    requires QueueInv(agents, queue) && k < |queue| && a.node.place.Out?
    ensures QueueInv(agents[queue[k] := a], queue[..k] + queue[k + 1..])
  {
    var rest := queue[..k] + queue[k + 1..];
    var after := agents[queue[k] := a];
    assert forall m | 0 <= m < |rest| :: rest[m] == queue[if m < k then m else m + 1];
    forall x | 0 <= x < |after| && after[x].node.place == Queued
      ensures x in rest
    {
      var m :| 0 <= m < |queue| && queue[m] == x;
      assert rest[if m < k then m else m - 1] == x;
    }
  }

  /** Leaving the queue from position `k` for good. */
  lemma NodeDrop(agents: seq<Agent>, queue: seq<nat>, k: nat, pc: Pc)
    requires QueueInv(agents, queue) && ChainsInv(agents) && k < |queue|
    requires Chain(agents[queue[k]].pc) == [] && Chain(pc) == []
    ensures var after := agents[queue[k] := Agent(pc, NoNode)];
            QueueInv(after, queue[..k] + queue[k + 1..]) && ChainsInv(after)
  {
    var after := agents[queue[k] := Agent(pc, NoNode)];
    QueueDrop(agents, queue, k, after[queue[k]]);
    ChainsFrame(agents, after);
  }

  lemma CancelNodes(s: State, i: nat, req: Req)
    requires i < |s.agents| && s.agents[i].pc == CancelRemove(req) && NodeInv(s) && i in s.queue
    ensures NodeInv(CancelStep(s, i, req))
  {
    var s' := CancelStep(s, i, req);
    var k := WithoutAt(s.queue, i);
    NodeDrop(s.agents, s.queue, k, s'.agents[i].pc);
    assert s'.agents == s.agents[i := Agent(s'.agents[i].pc, NoNode)];
    assert NodeOk(s'.agents[i]);
  }

  lemma CancelTickets(s: State, i: nat, req: Req)
    requires i < |s.agents| && s.agents[i].pc == CancelRemove(req) && i in s.queue
    requires QueueInv(s.agents, s.queue) && FifoInv(s)
    ensures var s' := CancelStep(s, i, req);
            LineInv(s'.line, Tickets(s'.agents, s'.queue))
  {
    var k := WithoutAt(s.queue, i);
    TicketDrop(s.line.granted, Tickets(s.agents, s.queue), s.line.tickets, s.line.cancelled, s.line.shut, k);
    TicketsLeave(s.agents, s.queue, k, CancelStep(s, i, req).agents[i]);
  }

  lemma TicketsLeave(agents: seq<Agent>, queue: seq<nat>, k: nat, a: Agent)
    requires QueueInv(agents, queue) && k < |queue|
    ensures var waiting := Tickets(agents, queue);
            Tickets(agents[queue[k] := a], queue[..k] + queue[k + 1..]) == waiting[..k] + waiting[k + 1..]
  {
    var rest := queue[..k] + queue[k + 1..];
    assert forall m | 0 <= m < |rest| :: rest[m] == queue[if m < k then m else m + 1];
  }

  lemma CancelPartial(s: State, i: nat, req: Req)
    requires i < |s.agents| && i in s.queue && QueueInv(s.agents, s.queue) && PartialInv(s.agents, s.queue)
    ensures PartialInv(CancelStep(s, i, req).agents, CancelStep(s, i, req).queue)
  {
    var s' := CancelStep(s, i, req);
    var k := WithoutAt(s.queue, i);
    assert forall m | 0 <= m < |s'.queue| :: s'.queue[m] == s.queue[if m < k then m else m + 1];
  }

  lemma CancelBalanced(s: State, i: nat, req: Req)
    requires i < |s.agents| && s.agents[i].pc == CancelRemove(req) && NodeOk(s.agents[i])
    ensures var s' := CancelStep(s, i, req);
            Balanced(s, s', i, []) && (i !in s.queue && !s.agents[i].node.place.Queued? ==> Plain(s, s', i))
  {
  }

  // ----- one round of drain -----

  /** What the drainer knows of the queue when it starts to distribute. */
  lemma DistributeReady(s: State, i: nat)
    requires i < |s.agents| && s.agents[i].pc.Distribute? && NodeInv(s)
    ensures Dealable(s.agents, s.queue) && QueuedNodes(s.agents, s.queue)
    ensures i !in s.queue && Chain(s.agents[i].pc) == [] && s.agents[i].node.place.Out?
  {
    assert NodeOk(s.agents[i]);
  }

  /** Popped waiters are in the chain and satisfied; everybody else keeps their place. */
  predicate TookFrom(agents: seq<Agent>, after: seq<Agent>, chain: seq<nat>, taker: nat) {
    && |after| == |agents| && Distinct(chain)
    && (forall k | 0 <= k < |chain| :: chain[k] < |agents| && agents[chain[k]].node.place == Queued)
    && (forall x | 0 <= x < |agents| ::
          && after[x].pc == agents[x].pc
          && (x in chain ==> after[x] == Served(agents[x], taker))
          && (x !in chain ==> after[x].node.place == agents[x].node.place)
          && (agents[x].node.place != Queued ==> after[x] == agents[x])
          && after[x].node.need <= agents[x].node.need
          && after[x].node.n == agents[x].node.n && after[x].node.ticket == agents[x].node.ticket)
  }

  lemma DealTakes(agents: seq<Agent>, queue: seq<nat>, available: nat, taker: nat)
    requires Dealable(agents, queue) && QueueInv(agents, queue)
    ensures var r := Deal(agents, queue, available, taker);
            TookFrom(agents, r.agents, queue[..r.popped], taker)
  {
    var r := Deal(agents, queue, available, taker);
    DealEffect(agents, queue, available, taker);
    forall x | 0 <= x < |agents|
      ensures r.agents[x].pc == agents[x].pc
      ensures x in queue[..r.popped] ==> r.agents[x] == Served(agents[x], taker)
      ensures x !in queue[..r.popped] ==> r.agents[x].node.place == agents[x].node.place
      ensures agents[x].node.place != Queued ==> r.agents[x] == agents[x]
      ensures r.agents[x].node.need <= agents[x].node.need
      ensures r.agents[x].node.n == agents[x].node.n && r.agents[x].node.ticket == agents[x].node.ticket
    {
      if x in queue {
        var k :| 0 <= k < |queue| && queue[k] == x;
      }
    }
  }

  lemma TakenQueue(agents: seq<Agent>, after: seq<Agent>, queue: seq<nat>, popped: nat, taker: nat)
    requires popped <= |queue| && TookFrom(agents, after, queue[..popped], taker) && QueueInv(agents, queue)
    ensures QueueInv(after, queue[popped..])
  {
    forall x | 0 <= x < |agents| && after[x].node.place == Queued
      ensures x in queue[popped..]
    {
      assert queue == queue[..popped] + queue[popped..];
    }
    forall k | 0 <= k < |queue[popped..]|
      ensures after[queue[popped..][k]].node.place == Queued
    {
      assert queue[popped..][k] == queue[popped + k];
      assert queue[popped + k] !in queue[..popped];
    }
  }

  lemma TakenChains(agents: seq<Agent>, after: seq<Agent>, chain: seq<nat>, taker: nat, pc: Pc)
    requires TookFrom(agents, after, chain, taker) && ChainsInv(agents)
    requires taker < |agents| && Chain(agents[taker].pc) == [] && agents[taker].node.place.Out?
    requires Chain(pc) == chain
    ensures ChainsInv(after[taker := after[taker].(pc := pc)])
  {
    var final := after[taker := after[taker].(pc := pc)];
    forall j | 0 <= j < |final|
      ensures ChainOk(final, j) && PoppedOk(final, j)
    {
      assert ChainOk(agents, j) && PoppedOk(agents, j);
    }
  }

  lemma TakenNodes(agents: seq<Agent>, after: seq<Agent>, chain: seq<nat>, taker: nat, pc: Pc)
    requires TookFrom(agents, after, chain, taker) && taker < |agents|
    requires forall x | 0 <= x < |agents| :: NodeOk(agents[x])
    requires !Parked(pc) && !Parked(agents[taker].pc) && SignalOk(pc)
    ensures var final := after[taker := after[taker].(pc := pc)];
            forall x | 0 <= x < |final| :: NodeOk(final[x])
  {
    forall x | 0 <= x < |after|
      ensures NodeOk(after[x])
    {
      assert NodeOk(agents[x]);
    }
  }

  lemma DistributeNodes(s: State, i: nat, available: nat)
    requires i < |s.agents| && s.agents[i].pc == Distribute(available) && NodeInv(s)
    ensures NodeInv(DistributeStep(s, i, available))
  {
    var r := Deal(s.agents, s.queue, available, i);
    var chain := s.queue[..r.popped];
    var pc := PutBack(r.left, chain);
    DistributeReady(s, i);
    DealTakes(s.agents, s.queue, available, i);
    TakenChains(s.agents, r.agents, chain, i, pc);
    TakenNodes(s.agents, r.agents, chain, i, pc);
    assert QueueInv(r.agents[i := r.agents[i].(pc := pc)], s.queue[r.popped..]) by {
      TakenQueue(s.agents, r.agents, s.queue, r.popped, i);
      QueueFrame(r.agents, s.queue[r.popped..], i, pc);
    }
  }

  /** The queue does not depend on program counters. */
  lemma QueueFrame(agents: seq<Agent>, queue: seq<nat>, i: nat, pc: Pc)
    requires QueueInv(agents, queue) && i < |agents|
    ensures QueueInv(agents[i := agents[i].(pc := pc)], queue)
  {
  }

  lemma DistributeTickets(s: State, i: nat, available: nat)
    requires i < |s.agents| && s.agents[i].pc == Distribute(available) && FifoInv(s)
    requires Dealable(s.agents, s.queue) && QueueInv(s.agents, s.queue)
    ensures var s' := DistributeStep(s, i, available);
            LineInv(s'.line, Tickets(s'.agents, s'.queue))
  {
    var s' := DistributeStep(s, i, available);
    var r := Deal(s.agents, s.queue, available, i);
    DealTakes(s.agents, s.queue, available, i);
    var waiting := Tickets(s.agents, s.queue);
    TicketGrant(s.line.granted, waiting, s.line.tickets, s.line.cancelled, s.line.shut, r.popped);
    assert Tickets(s'.agents, s'.queue) == waiting[r.popped..];
    assert Tickets(s.agents, s.queue[..r.popped]) == waiting[..r.popped];
  }

  lemma DistributePartial(s: State, i: nat, available: nat)
    requires i < |s.agents| && PartialInv(s.agents, s.queue) && Dealable(s.agents, s.queue)
    ensures PartialInv(DistributeStep(s, i, available).agents, DistributeStep(s, i, available).queue)
  {
    DealEffect(s.agents, s.queue, available, i);
  }

  lemma DistributePermits(s: State, i: nat, available: nat)
    requires i < |s.agents| && s.agents[i].pc == Distribute(available) && PermitInv(s)
    requires QueuedNodes(s.agents, s.queue) && i !in s.queue && Dealable(s.agents, s.queue)
    ensures PermitInv(DistributeStep(s, i, available))
  {
    DistributeSum(s, i, available);
  }

  lemma DistributeSum(s: State, i: nat, available: nat)
    requires i < |s.agents| && s.agents[i].pc == Distribute(available)
    requires QueuedNodes(s.agents, s.queue) && i !in s.queue && Dealable(s.agents, s.queue)
    ensures Sum(DistributeStep(s, i, available).agents, Weight) == Sum(s.agents, Weight)
  {
    var r := Deal(s.agents, s.queue, available, i);
    var after := s.agents[i].(pc := PutBack(r.left, s.queue[..r.popped]));
    assert r.agents[i] == s.agents[i] by {
      DealEffect(s.agents, s.queue, available, i);
    }
    assert Sum(r.agents, Weight) == Sum(s.agents, Weight) + available - r.left by {
      DealConserves(s.agents, s.queue, available, i);
    }
    SumUpdate(r.agents, Weight, i, after);
    assert DistributeStep(s, i, available).agents == r.agents[i := after];
  }

  // ----- close takes the whole queue -----

  lemma CloseTakeNodes(s: State, i: nat)
    requires i < |s.agents| && s.agents[i].pc == CloseTake && NodeInv(s)
    ensures NodeInv(CloseTakeStep(s, i))
  {
    var s' := CloseTakeStep(s, i);
    assert NodeOk(s.agents[i]);
    forall x | 0 <= x < |s'.agents|
      ensures NodeOk(s'.agents[x]) && ChainOk(s'.agents, x) && PoppedOk(s'.agents, x)
    {
      assert NodeOk(s.agents[x]) && ChainOk(s.agents, x) && PoppedOk(s.agents, x);
    }
  }

  lemma CloseTakeFifo(s: State, i: nat)
    requires i < |s.agents| && s.agents[i].pc == CloseTake && FifoInv(s)
    ensures FifoInv(CloseTakeStep(s, i))
  {
    var waiting := Tickets(s.agents, s.queue);
    assert s.line.granted + [] == s.line.granted;
    assert forall k | 0 <= k < |s.line.granted| :: s.line.granted[k] == (s.line.granted + waiting)[k];
  }

  lemma CloseTakePermits(s: State, i: nat)
    requires i < |s.agents| && s.agents[i].pc == CloseTake && PermitInv(s)
    ensures PermitInv(CloseTakeStep(s, i))
  {
    SumSame(s.agents, CloseTakeStep(s, i).agents, Weight);
  }

  // ----- signal_all -----

  lemma SignalChains(s: State, i: nat, chain: seq<nat>, signal: Place)
    requires i < |s.agents| && s.agents[i].pc == Signaling(chain, signal) && ChainsInv(s.agents)
    requires signal == Granted || signal == Shut
    requires s.agents[i].node.place.Out?
    ensures ChainsInv(SignalStep(s, i, chain, signal).agents)
  {
    var s' := SignalStep(s, i, chain, signal);
    assert ChainOk(s.agents, i);
    if chain == [] {
      ChainsFrame(s.agents, s'.agents);
    } else {
      forall x | 0 <= x < |s'.agents|
        ensures ChainOk(s'.agents, x) && PoppedOk(s'.agents, x)
      {
        SignalChain(s, i, chain, signal, x);
      }
    }
  }

  lemma SignalChain(s: State, i: nat, chain: seq<nat>, signal: Place, x: nat)
    requires i < |s.agents| && s.agents[i].pc == Signaling(chain, signal) && ChainsInv(s.agents)
    requires (signal == Granted || signal == Shut) && s.agents[i].node.place.Out?
    requires chain != [] && x < |s.agents|
    ensures var after := SignalStep(s, i, chain, signal).agents;
            ChainOk(after, x) && PoppedOk(after, x)
  {
    if x == i {
      assert ChainOk(s.agents, i) && PoppedOk(s.agents, i);
      assert Chain(SignalStep(s, i, chain, signal).agents[i].pc) == chain[1..];
    } else {
      SignalChainOther(s, i, chain, signal, x);
    }
  }

  lemma SignalChainOther(s: State, i: nat, chain: seq<nat>, signal: Place, x: nat)
    requires i < |s.agents| && s.agents[i].pc == Signaling(chain, signal) && ChainsInv(s.agents)
    requires signal == Granted || signal == Shut
    requires chain != [] && x < |s.agents| && x != i
    ensures var after := SignalStep(s, i, chain, signal).agents;
            ChainOk(after, x) && PoppedOk(after, x)
  {
    assert ChainOk(s.agents, i) && ChainOk(s.agents, x) && PoppedOk(s.agents, x);
    assert chain[0] !in Chain(s.agents[x].pc);
    assert x in chain && x != chain[0] ==> x in chain[1..];
  }

  lemma SignalNodes(s: State, i: nat, chain: seq<nat>, signal: Place)
    requires i < |s.agents| && s.agents[i].pc == Signaling(chain, signal) && NodeInv(s)
    ensures NodeInv(SignalStep(s, i, chain, signal))
  {
    var s' := SignalStep(s, i, chain, signal);
    assert NodeOk(s.agents[i]) && ChainOk(s.agents, i);
    SignalChains(s, i, chain, signal);
    assert QueueInv(s'.agents, s'.queue);
    forall x | 0 <= x < |s'.agents|
      ensures NodeOk(s'.agents[x])
    {
      assert NodeOk(s.agents[x]);
    }
  }

  lemma SignalFifo(s: State, i: nat, chain: seq<nat>, signal: Place)
    requires i < |s.agents| && s.agents[i].pc == Signaling(chain, signal) && FifoInv(s)
    ensures FifoInv(SignalStep(s, i, chain, signal))
  {
    var s' := SignalStep(s, i, chain, signal);
    assert Tickets(s'.agents, s'.queue) == Tickets(s.agents, s.queue);
  }

  lemma SignalPermits(s: State, i: nat, chain: seq<nat>, signal: Place)
    requires i < |s.agents| && s.agents[i].pc == Signaling(chain, signal) && PermitInv(s)
    requires SignalOk(s.agents[i].pc) && ChainOk(s.agents, i)
    ensures PermitInv(SignalStep(s, i, chain, signal))
  {
    SumSame(s.agents, SignalStep(s, i, chain, signal).agents, Weight);
  }

  // ----- an idle agent makes a call -----

  lemma StartPlain(s: State, i: nat, op: Op)
    requires i < |s.agents| && s.agents[i].pc == Idle && NodeOk(s.agents[i])
    ensures Plain(s, Start(s, i, op), i)
  {
  }

  lemma GuardPermits(s: State, i: nat, op: Op)
    requires i < |s.agents| && s.agents[i].pc == Idle && s.agents[i].node.place.Out? && PermitInv(s)
    requires op.DropGuard? || op.ForgetGuard? || op.Downgrade?
    ensures PermitInv(Start(s, i, op))
  {
    var s' := Start(s, i, op);
    assert s'.agents == s.agents[i := s'.agents[i]];
    SumUpdate(s.agents, Weight, i, s'.agents[i]);
    if op.g < |s.guards| {
      if op.Downgrade? {
        SumUpdate(s.guards, GuardWeight, op.g, Guard(Read, 1));
      } else {
        SumRemove(s.guards, GuardWeight, op.g);
      }
    }
  }

  lemma SplitPermits(s: State, i: nat, g: nat, k: nat)
    requires i < |s.agents| && s.agents[i].pc == Idle && PermitInv(s)
    ensures PermitInv(Start(s, i, SplitGuard(g, k)))
  {
    if g < |s.guards| && k <= s.guards[g].permits {
      var held := s.guards[g];
      var less := s.guards[g := held.(permits := held.permits - k)];
      SumUpdate(s.guards, GuardWeight, g, less[g]);
      SumAppend(less, GuardWeight, held.(permits := k));
    }
  }

  lemma MergePermits(s: State, i: nat, g: nat, h: nat)
    requires i < |s.agents| && s.agents[i].pc == Idle && PermitInv(s)
    ensures PermitInv(Start(s, i, MergeGuards(g, h)))
  {
    if g < |s.guards| && h < |s.guards| && g != h {
      var held := s.guards[g];
      var more := s.guards[g := held.(permits := held.permits + s.guards[h].permits)];
      SumUpdate(s.guards, GuardWeight, g, more[g]);
      SumRemove(more, GuardWeight, h);
    }
  }

  lemma CallPermits(s: State, i: nat, op: Op)
    requires i < |s.agents| && s.agents[i].pc == Idle && PermitInv(s)
    requires op.TryAcquire? || op.Acquire? || op.AddPermits? || op.ForgetPermits? || op.Close?
    ensures PermitInv(Start(s, i, op))
  {
    BalancedKeeps(s, Start(s, i, op), i, []);
  }
}

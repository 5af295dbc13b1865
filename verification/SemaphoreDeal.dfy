/** The distribution loop of `drain` on the waiters' nodes: what it does to each node, and to the permits. */
module SemaphoreDeal {
  import opened Ledger
  import opened WaitList
  import opened PermitDrain
  import opened Semaphore
  import opened SemaphoreInvariant

  function Served(a: Agent, taker: nat): Agent {
    a.(node := a.node.(place := Popped(taker), need := 0))
  }

  /** What the queued waiters still miss. */
  function Needs(agents: seq<Agent>, queue: seq<nat>): (r: seq<nat>)
    ensures |r| == |queue|
  {
    seq(|queue|, k requires 0 <= k < |queue| => if queue[k] < |agents| then agents[queue[k]].node.need else 0)
  }

  predicate Dealable(agents: seq<Agent>, queue: seq<nat>) {
    && Distinct(queue)
    && forall k | 0 <= k < |queue| :: queue[k] < |agents| && agents[queue[k]].node.need <= agents[queue[k]].node.n
  }

  lemma DealableRest(agents: seq<Agent>, queue: seq<nat>, taker: nat)
    requires queue != [] && Dealable(agents, queue)
    ensures Dealable(agents[queue[0] := Served(agents[queue[0]], taker)], queue[1..])
    ensures Needs(agents[queue[0] := Served(agents[queue[0]], taker)], queue[1..]) == Needs(agents, queue)[1..]
  {
  }

  /** `r` serves the first waiters of the queue, tops up the next one, and leaves everybody else alone. */
  predicate DealtAs(agents: seq<Agent>, queue: seq<nat>, taker: nat, r: Dealt, d: Outcome) {
    && |r.agents| == |agents| && r.popped <= |queue|
    && r.popped == d.popped && r.left == d.left && |d.rest| == |queue| - r.popped
    && (forall k | 0 <= k < |queue| :: queue[k] < |agents|)
    && (forall x | 0 <= x < |agents| && x !in queue :: r.agents[x] == agents[x])
    && (forall k | 0 <= k < r.popped :: r.agents[queue[k]] == Served(agents[queue[k]], taker))
    && (r.popped < |queue| ==>
          var a := agents[queue[r.popped]];
          r.agents[queue[r.popped]] == a.(node := a.node.(need := d.rest[0])))
    && (forall k | r.popped < k < |queue| :: r.agents[queue[k]] == agents[queue[k]])
  }

  /** The loop over the nodes computes the drain function of the permits they miss. */
  lemma {:induction false} DealEffect(agents: seq<Agent>, queue: seq<nat>, available: nat, taker: nat)
    requires Dealable(agents, queue)
    ensures DealtAs(agents, queue, taker, Deal(agents, queue, available, taker), Drain(Needs(agents, queue), available))
    decreases |queue|
  {
    if queue == [] {
    } else if agents[queue[0]].node.need > available {
      DealtStop(agents, queue, available, taker);
    } else {
      var needs := Needs(agents, queue);
      var served := agents[queue[0] := Served(agents[queue[0]], taker)];
      var left := available - needs[0];
      var r, d := Deal(served, queue[1..], left, taker), Drain(needs[1..], left);
      assert DealtAs(served, queue[1..], taker, r, d) by {
        DealableRest(agents, queue, taker);
        DealEffect(served, queue[1..], left, taker);
      }
      assert Deal(agents, queue, available, taker) == r.(popped := r.popped + 1) by {
        DealUnfolds(agents, queue, available, taker);
      }
      assert Drain(needs, available) == d.(popped := d.popped + 1);
      DealtMore(agents, queue, taker, r, d);
    }
  }

  lemma DealUnfolds(agents: seq<Agent>, queue: seq<nat>, available: nat, taker: nat)
    requires queue != [] && queue[0] < |agents| && agents[queue[0]].node.need <= available
    ensures var served := agents[queue[0] := Served(agents[queue[0]], taker)];
            var r := Deal(served, queue[1..], available - agents[queue[0]].node.need, taker);
            Deal(agents, queue, available, taker) == r.(popped := r.popped + 1)
  {
  }

  /** The head takes all there is and stays. */
  lemma DealtStop(agents: seq<Agent>, queue: seq<nat>, available: nat, taker: nat)
    requires Dealable(agents, queue) && queue != [] && available < agents[queue[0]].node.need
    ensures DealtAs(agents, queue, taker, Deal(agents, queue, available, taker), Drain(Needs(agents, queue), available))
  {
    assert Drain(Needs(agents, queue), available).rest[0] == agents[queue[0]].node.need - available;
  }

  /** One more waiter served at the front. */
  lemma DealtMore(agents: seq<Agent>, queue: seq<nat>, taker: nat, r: Dealt, d: Outcome)
    requires Dealable(agents, queue) && queue != []
    requires DealtAs(agents[queue[0] := Served(agents[queue[0]], taker)], queue[1..], taker, r, d)
    ensures DealtAs(agents, queue, taker, r.(popped := r.popped + 1), d.(popped := d.popped + 1))
  {
    var rest := queue[1..];
    assert forall k | 0 < k < |queue| :: queue[k] == rest[k - 1] && queue[k] != queue[0];
    assert queue[0] !in rest;
    assert forall x | x in rest :: x in queue;
  }

  /** The permits the loop hands out are exactly the ones it had and does not return. */
  lemma {:induction false} DealConserves(agents: seq<Agent>, queue: seq<nat>, available: nat, taker: nat)
    requires QueuedNodes(agents, queue)
    ensures var r := Deal(agents, queue, available, taker);
            Sum(r.agents, Weight) == Sum(agents, Weight) + available - r.left
    decreases |queue|
  {
    if queue != [] {
      var a := agents[queue[0]];
      if a.node.need <= available {
        var served := agents[queue[0] := Served(a, taker)];
        SumUpdate(agents, Weight, queue[0], Served(a, taker));
        DealConserves(served, queue[1..], available - a.node.need, taker);
      } else {
        SumUpdate(agents, Weight, queue[0], a.(node := a.node.(need := a.node.need - available)));
      }
    }
  }

  predicate QueuedNodes(agents: seq<Agent>, queue: seq<nat>) {
    && Distinct(queue)
    && forall k | 0 <= k < |queue| :: queue[k] < |agents| && !agents[queue[k]].node.place.Out?
  }

  /** The summary the protocol proofs need of one distribution. */
  lemma DealSummary(agents: seq<Agent>, queue: seq<nat>, available: nat, taker: nat)
    requires Dealable(agents, queue)
    ensures var r := Deal(agents, queue, available, taker);
            && (forall j | 0 <= j < |agents| :: r.agents[j].pc == agents[j].pc)
            && (r.left > 0 ==> r.popped == |queue|)
            && (r.popped < |queue| ==>
                  r.left == 0 && queue[r.popped] < |agents| && r.agents[queue[r.popped]].node.need > 0)
  {
    var r := Deal(agents, queue, available, taker);
    DealEffect(agents, queue, available, taker);
    forall j | 0 <= j < |agents|
      ensures r.agents[j].pc == agents[j].pc
    {
      if j in queue {
        var k :| 0 <= k < |queue| && queue[k] == j;
      }
    }
  }
}

/**
  The waiters' nodes: where each of them is, from the push to the wake-up. A node is queued, or in the
  hands of the one agent that popped it, or signaled; nobody else touches it in between.
 */
module WaitNodes {
  import opened WaitList

  datatype Place<V> = Out | Queued | Popped(taker: nat, intent: V) | Signaled(value: V)

  /** The chain of popped nodes an agent is about to signal, and the value it will publish. */
  datatype Hand<V> = Hand(value: V, chain: seq<nat>)

  datatype Nodes<V> = Nodes(queue: seq<nat>, places: seq<Place<V>>, hands: seq<Hand<V>>)

  function Push<V>(n: Nodes<V>, i: nat): Nodes<V>
    requires i < |n.places|
  {
    n.(queue := n.queue + [i], places := n.places[i := Queued])
  }

  /** Agent `i` pops the first `count` nodes. */
  function Pop<V>(n: Nodes<V>, i: nat, count: nat, value: V): Nodes<V>
    requires i < |n.hands| && count <= |n.queue|
  {
    var popped := n.queue[..count];
    n.(queue := n.queue[count..],
       places := seq(|n.places|, x requires 0 <= x < |n.places| =>
         if x in popped then Popped(i, value) else n.places[x]),
       hands := n.hands[i := Hand(value, popped)])
  }

  /** Agent `i` takes its own node out of the queue. */
  function Remove<V>(n: Nodes<V>, i: nat): Nodes<V>
    requires i < |n.places|
  {
    n.(queue := Without(n.queue, i), places := n.places[i := Out])
  }

  /** Agent `i` publishes the signal of the first node of its chain. */
  function Signal<V>(n: Nodes<V>, i: nat): Nodes<V>
    requires i < |n.hands| && n.hands[i].chain != []
  {
    var hand := n.hands[i];
    var x := hand.chain[0];
    n.(places := if x < |n.places| then n.places[x := Signaled(hand.value)] else n.places,
       hands := n.hands[i := hand.(chain := hand.chain[1..])])
  }

  /** Agent `i` has consumed its signal. */
  function Consume<V>(n: Nodes<V>, i: nat): Nodes<V>
    requires i < |n.places|
  {
    n.(places := n.places[i := Out])
  }

  predicate NodeSound<V(==)>(n: Nodes<V>, i: nat)
    requires i < |n.places| && i < |n.hands|
  {
    var hand := n.hands[i];
    && (n.places[i].Queued? <==> i in n.queue)
    && (n.places[i].Popped? ==> n.places[i].taker < |n.hands| && i in n.hands[n.places[i].taker].chain)
    && Distinct(hand.chain)
    && (forall k | 0 <= k < |hand.chain| ::
          hand.chain[k] < |n.places| && n.places[hand.chain[k]] == Popped(i, hand.value))
  }

  /** Queue, hands and places tell the same story. */
  predicate Sound<V(==)>(n: Nodes<V>) {
    && |n.places| == |n.hands|
    && Distinct(n.queue)
    && (forall k | 0 <= k < |n.queue| :: n.queue[k] < |n.places|)
    && (forall i | 0 <= i < |n.places| :: NodeSound(n, i))
  }

  lemma PushSound<V>(n: Nodes<V>, i: nat)
    requires Sound(n) && i < |n.places| && n.places[i].Out?
    ensures Sound(Push(n, i))
  {
    var r := Push(n, i);
    assert NodeSound(n, i);
    forall j | 0 <= j < |r.places|
      ensures NodeSound(r, j)
    {
      assert NodeSound(n, j);
    }
  }

  lemma PopSound<V>(n: Nodes<V>, i: nat, count: nat, value: V)
    requires Sound(n) && i < |n.hands| && n.hands[i].chain == [] && count <= |n.queue|
    ensures Sound(Pop(n, i, count, value))
    ensures forall j | 0 <= j < |n.places| && j !in n.queue[..count] :: Pop(n, i, count, value).places[j] == n.places[j]
  {
    var r := Pop(n, i, count, value);
    assert n.queue == n.queue[..count] + n.queue[count..];
    forall j | 0 <= j < |r.places|
      ensures NodeSound(r, j)
    {
      PopNode(n, i, count, value, j);
    }
  }

  lemma PopNode<V>(n: Nodes<V>, i: nat, count: nat, value: V, j: nat)
    requires Sound(n) && i < |n.hands| && n.hands[i].chain == [] && count <= |n.queue| && j < |n.places|
    ensures NodeSound(Pop(n, i, count, value), j)
  {
    SplitMembers(n.queue, count, j);
    assert NodeSound(n, j);
    if j != i {
      var chain := n.hands[j].chain;
      forall k | 0 <= k < |chain|
        ensures chain[k] !in n.queue
      {
        assert NodeSound(n, chain[k]);
      }
    }
  }

  lemma SplitMembers(queue: seq<nat>, count: nat, x: nat)
    requires Distinct(queue) && count <= |queue|
    ensures x in queue[count..] <==> x in queue && x !in queue[..count]
  {
    assert queue == queue[..count] + queue[count..];
  }

  lemma RemoveSound<V>(n: Nodes<V>, i: nat)
    requires Sound(n) && i < |n.places| && i in n.queue
    ensures Sound(Remove(n, i))
  {
    var r := Remove(n, i);
    WithoutMembers(n.queue, i);
    assert NodeSound(n, i);
    assert forall k | 0 <= k < |r.queue| :: r.queue[k] in n.queue;
    forall j | 0 <= j < |r.places|
      ensures NodeSound(r, j)
    {
      assert NodeSound(n, j);
    }
  }

  lemma SignalSound<V>(n: Nodes<V>, i: nat)
    requires Sound(n) && i < |n.hands| && n.hands[i].chain != []
    ensures Sound(Signal(n, i))
    ensures n.hands[i].chain[0] < |n.places| && n.places[n.hands[i].chain[0]] == Popped(i, n.hands[i].value)
  {
    var r := Signal(n, i);
    assert NodeSound(n, i);
    assert NodeSound(n, n.hands[i].chain[0]);
    forall j | 0 <= j < |r.places|
      ensures NodeSound(r, j)
    {
      assert NodeSound(n, j);
    }
  }

  lemma ConsumeSound<V>(n: Nodes<V>, i: nat)
    requires Sound(n) && i < |n.places| && n.places[i].Signaled?
    ensures Sound(Consume(n, i))
  {
    var r := Consume(n, i);
    assert NodeSound(n, i);
    forall j | 0 <= j < |r.places|
      ensures NodeSound(r, j)
    {
      assert NodeSound(n, j);
    }
  }
}

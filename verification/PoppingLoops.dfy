/** The three loops that pop waiters under the tag-lock, on the heap, against the functions the protocols use. */
module PoppingLoops {
  import opened SignalQueues
  import opened PermitDrain
  import opened Generations

  /** The auxiliary words of the nodes, front to back. */
  ghost predicate Carry(nodes: seq<Signal>, auxes: seq<nat>)
    reads nodes
  {
    |nodes| == |auxes| && forall k | 0 <= k < |nodes| :: nodes[k].aux == auxes[k]
  }

  /** The first `k` of `nodes` are popped, in order, and the others still queued, in order. */
  ghost predicate Divided(queue: SignalQueue, chain: PoppedChain, nodes: seq<Signal>, k: nat)
    reads queue, chain, nodes
  {
    && k <= |nodes| && Linked(nodes)
    && queue.nodes == nodes[k..] && chain.popped == nodes[..k]
    && queue.Valid() && chain.Chained()
  }

  method PopInto(queue: SignalQueue, chain: PoppedChain, ghost nodes: seq<Signal>, ghost k: nat)
    returns (front: Signal?)
    requires Divided(queue, chain, nodes, k) && k < |nodes|
    modifies queue, chain
    ensures Divided(queue, chain, nodes, k + 1)
    ensures front == if k + 1 < |nodes| then nodes[k + 1] else null
  {
    assert forall j | 0 <= j < k :: nodes[j] != nodes[k];
    assert k > 0 ==> nodes[k - 1].next == nodes[k];
    var node := queue.Pop();
    chain.Append(node);
    front := queue.First();
  }

  /** Seals the chain while the lock is held; the queue behind it is not touched. */
  method SealOff(queue: SignalQueue, chain: PoppedChain, ghost nodes: seq<Signal>, ghost k: nat)
    requires Divided(queue, chain, nodes, k)
    modifies if chain.last == null then {} else {chain.last}
    ensures queue.Valid() && chain.Sealed()
    ensures forall x | x in nodes :: x.aux == old(x.aux)
  {
    assert forall j | k <= j < |nodes| :: k > 0 ==> nodes[j] != nodes[k - 1];
    chain.Seal();
  }

  // ----- notify_waiters -----

  /** Pops up to the first node of generation `live`. */
  method PopUntil(queue: SignalQueue, live: nat, ghost gens: seq<nat>) returns (chain: PoppedChain)
    requires queue.Valid() && Carry(queue.nodes, gens)
    modifies queue, queue.nodes
    ensures queue.Valid() && chain.Sealed() && fresh(chain)
    ensures chain.popped == old(queue.nodes)[..Until(gens, live)]
    ensures queue.nodes == old(queue.nodes)[Until(gens, live)..]
  {
    ghost var nodes := queue.nodes;
    chain := new PoppedChain();
    PopUntilLoop(queue, chain, live, gens);
    SealOff(queue, chain, nodes, Until(gens, live));
  }

  method PopUntilLoop(queue: SignalQueue, chain: PoppedChain, live: nat, ghost gens: seq<nat>)
    requires Divided(queue, chain, queue.nodes, 0) && Carry(queue.nodes, gens)
    modifies queue, chain
    ensures Divided(queue, chain, old(queue.nodes), Until(gens, live))
  {
    ghost var nodes := queue.nodes;
    ghost var k := 0;
    var front := queue.First();
    while front != null
      invariant Divided(queue, chain, nodes, k)
      invariant front == if k < |nodes| then nodes[k] else null
      invariant Until(gens, live) == k + Until(gens[k..], live)
      decreases |nodes| - k
    {
      if front.aux == live {
        break;
      }
      assert gens[k + 1..] == gens[k..][1..];
      front := PopInto(queue, chain, nodes, k);
      k := k + 1;
    }
  }

  // ----- release_waiters -----

  /** Pops as long as the front is of generation `g`. */
  method PopWhile(queue: SignalQueue, g: nat, ghost gens: seq<nat>) returns (chain: PoppedChain)
    requires queue.Valid() && Carry(queue.nodes, gens)
    modifies queue, queue.nodes
    ensures queue.Valid() && chain.Sealed() && fresh(chain)
    ensures chain.popped == old(queue.nodes)[..While(gens, g)]
    ensures queue.nodes == old(queue.nodes)[While(gens, g)..]
  {
    ghost var nodes := queue.nodes;
    chain := new PoppedChain();
    PopWhileLoop(queue, chain, g, gens);
    SealOff(queue, chain, nodes, While(gens, g));
  }

  method PopWhileLoop(queue: SignalQueue, chain: PoppedChain, g: nat, ghost gens: seq<nat>)
    requires Divided(queue, chain, queue.nodes, 0) && Carry(queue.nodes, gens)
    modifies queue, chain
    ensures Divided(queue, chain, old(queue.nodes), While(gens, g))
  {
    ghost var nodes := queue.nodes;
    ghost var k := 0;
    var front := queue.First();
    while front != null
      invariant Divided(queue, chain, nodes, k)
      invariant front == if k < |nodes| then nodes[k] else null
      invariant While(gens, g) == k + While(gens[k..], g)
      decreases |nodes| - k
    {
      if front.aux != g {
        break;
      }
      assert gens[k + 1..] == gens[k..][1..];
      front := PopInto(queue, chain, nodes, k);
      k := k + 1;
    }
  }

  // ----- drain -----

  /** Writes a queued node's auxiliary word; no link is involved. */
  method SetAux(queue: SignalQueue, chain: PoppedChain, node: Signal, aux: nat, ghost nodes: seq<Signal>, ghost k: nat)
    requires Divided(queue, chain, nodes, k)
    modifies node`aux
    ensures Divided(queue, chain, nodes, k) && node.aux == aux
  {
    node.aux := aux;
  }

  /** The first `k` nodes miss nothing any more, the others what they missed before. */
  ghost predicate Served(nodes: seq<Signal>, needs: seq<nat>, k: nat)
    reads nodes
  {
    && k <= |nodes| == |needs|
    && (forall j | 0 <= j < k :: nodes[j].aux == 0)
    && (forall j | k <= j < |nodes| :: nodes[j].aux == needs[j])
  }

  /** The front node misses nothing any more and joins the chain. */
  method Serve(queue: SignalQueue, chain: PoppedChain, node: Signal,
               ghost nodes: seq<Signal>, ghost needs: seq<nat>, ghost k: nat)
    returns (front: Signal?)
    requires Divided(queue, chain, nodes, k) && Served(nodes, needs, k) && k < |nodes| && node == nodes[k]
    modifies queue, chain, node`aux
    ensures Divided(queue, chain, nodes, k + 1) && Served(nodes, needs, k + 1)
    ensures front == if k + 1 < |nodes| then nodes[k + 1] else null
  {
    SetAux(queue, chain, node, 0, nodes, k);
    front := PopInto(queue, chain, nodes, k);
  }

  /** Serves waiters from the front until one misses more than is left. */
  method ServeAll(queue: SignalQueue, chain: PoppedChain, available: nat, ghost needs: seq<nat>)
    returns (front: Signal?, left: nat, ghost k: nat)
    requires Divided(queue, chain, queue.nodes, 0) && Carry(queue.nodes, needs)
    modifies queue, chain, queue.nodes
    ensures Divided(queue, chain, old(queue.nodes), k) && Served(old(queue.nodes), needs, k)
    ensures left == available - Prefix(needs, k)
    ensures front == if k < |needs| then old(queue.nodes)[k] else null
    ensures front != null ==> left < front.aux
  {
    ghost var nodes := queue.nodes;
    k := 0;
    left := available;
    front := queue.First();
    while front != null
      invariant Divided(queue, chain, nodes, k) && Served(nodes, needs, k)
      invariant left == available - Prefix(needs, k)
      invariant front == if k < |nodes| then nodes[k] else null
      decreases |nodes| - k
    {
      if front.aux > left {
        return;
      }
      left := left - front.aux;
      front := Serve(queue, chain, front, nodes, needs, k);
      k := k + 1;
    }
  }

  /** The first waiter that cannot be served takes what is left and blocks those behind it. */
  method Deal(queue: SignalQueue, chain: PoppedChain, available: nat, ghost needs: seq<nat>)
    returns (left: nat, ghost k: nat)
    requires Divided(queue, chain, queue.nodes, 0) && Carry(queue.nodes, needs)
    modifies queue, chain, queue.nodes
    ensures Divided(queue, chain, old(queue.nodes), k)
    ensures k <= |needs| && Prefix(needs, k) <= available && (k < |needs| ==> available - Prefix(needs, k) < needs[k])
    ensures Served(old(queue.nodes), Residue(needs, k, available - Prefix(needs, k)), k)
    ensures left == if k < |needs| then 0 else available - Prefix(needs, k)
  {
    ghost var nodes := queue.nodes;
    var front;
    front, left, k := ServeAll(queue, chain, available, needs);
    if front != null && left > 0 {
      SetAux(queue, chain, front, front.aux - left, nodes, k);
      left := 0;
    }
  }

  /** The nodes were dealt to as the outcome says: the served ones popped, the others left with what they miss. */
  ghost predicate Dealt(nodes: seq<Signal>, popped: seq<Signal>, queued: seq<Signal>, left: nat, r: Outcome)
    reads nodes, queued
  {
    && r.popped <= |nodes| && popped == nodes[..r.popped] && queued == nodes[r.popped..]
    && (forall k | 0 <= k < r.popped :: nodes[k].aux == 0)
    && Carry(queued, r.rest) && left == r.left
  }

  /** What the nodes carry at the end of the loop is the outcome, cut at position `k`. */
  lemma ServedDealt(nodes: seq<Signal>, residue: seq<nat>, k: nat, left: nat)
    requires Served(nodes, residue, k)
    ensures Dealt(nodes, nodes[..k], nodes[k..], left, Outcome(k, residue[k..], left))
  {
  }

  method DealAndSeal(queue: SignalQueue, available: nat, ghost needs: seq<nat>)
    returns (chain: PoppedChain, left: nat, ghost k: nat)
    requires queue.Valid() && Carry(queue.nodes, needs)
    modifies queue, queue.nodes
    ensures queue.Valid() && chain.Sealed() && fresh(chain)
    ensures k <= |needs| && Prefix(needs, k) <= available && (k < |needs| ==> available - Prefix(needs, k) < needs[k])
    ensures var spare := available - Prefix(needs, k);
            Dealt(old(queue.nodes), chain.popped, queue.nodes, left,
                  Outcome(k, Residue(needs, k, spare)[k..], if k < |needs| then 0 else spare))
  {
    ghost var nodes := queue.nodes;
    chain := new PoppedChain();
    left, k := Deal(queue, chain, available, needs);
    SealOff(queue, chain, nodes, k);
    ghost var residue := Residue(needs, k, available - Prefix(needs, k));
    assert Served(nodes, residue, k);
    ServedDealt(nodes, residue, k, left);
  }

  /** Deals `available` permits to the queue; the auxiliary word is what a node still misses. */
  method Distribute(queue: SignalQueue, available: nat, ghost needs: seq<nat>) returns (chain: PoppedChain, left: nat)
    requires queue.Valid() && Carry(queue.nodes, needs)
    modifies queue, queue.nodes
    ensures queue.Valid() && chain.Sealed() && fresh(chain)
    ensures Dealt(old(queue.nodes), chain.popped, queue.nodes, left, Drain(needs, available))
  {
    ghost var k;
    chain, left, k := DealAndSeal(queue, available, needs);
    DrainAffords(needs, available, k);
  }
}

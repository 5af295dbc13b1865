/** The intrusive FIFO queue of waiter nodes, and the chain of nodes popped from it, on the heap. */
module SignalQueues {

  class Signal {
    var next: Signal?
    var aux: nat
    var value: nat

    constructor ()
      ensures next == null && aux == 0 && value == 0
    {
      next, aux, value := null, 0, 0;
    }

    /** Readies a popped node, whose link is stale, for another push. */
    method Reset()
      modifies this
      ensures next == null && value == 0 && aux == old(aux)
    {
      next, value := null, 0;
    }
  }

  ghost predicate NoRepeats(nodes: seq<Signal>) {
    forall a, b | 0 <= a < b < |nodes| :: nodes[a] != nodes[b]
  }

  /** Each node links to the one behind it. */
  ghost predicate Linked(nodes: seq<Signal>)
    reads nodes
  {
    NoRepeats(nodes) && forall a, b | 0 <= a < b < |nodes| && b == a + 1 :: nodes[a].next == nodes[b]
  }

  class SignalQueue {
    var first: Signal?
    var last: Signal?
    /** The queued nodes, front to back. */
    ghost var nodes: seq<Signal>

    ghost predicate Valid()
      reads this, nodes
    {
      && Linked(nodes)
      && (if nodes == [] then first == null && last == null
          else first == nodes[0] && last == nodes[|nodes| - 1] && nodes[|nodes| - 1].next == null)
    }

    constructor ()
      ensures Valid() && nodes == []
    {
      first, last, nodes := null, null, [];
    }

    method Push(entry: Signal) returns (wasEmpty: bool)
      requires Valid() && entry !in nodes && entry.next == null
      modifies this, nodes
      ensures Valid() && nodes == old(nodes) + [entry]
      ensures wasEmpty <==> old(nodes) == []
      ensures forall x | x in old(nodes) :: x.aux == old(x.aux) && x.value == old(x.value)
    {
      var old' := last;
      last := entry;
      if old' != null {
        old'.next := entry;
        wasEmpty := false;
      } else {
        first := entry;
        wasEmpty := true;
      }
      nodes := nodes + [entry];
    }

    method First() returns (front: Signal?)
      requires Valid()
      ensures if nodes == [] then front == null else front == nodes[0]
    {
      front := first;
    }

    method IsEmpty() returns (empty: bool)
      requires Valid()
      ensures empty <==> nodes == []
    {
      empty := first == null;
    }

    /** Takes the front node out and leaves its link as it is. */
    method Pop() returns (front: Signal?)
      requires Valid()
      modifies this
      ensures Valid()
      ensures if old(nodes) == [] then front == null && nodes == []
              else front == old(nodes)[0] && nodes == old(nodes)[1..]
    {
      front := first;
      if front != null {
        var next := front.next;
        if next != null {
          first := next;
        } else {
          first := null;
          last := null;
        }
        nodes := nodes[1..];
      }
    }

    /** Walks the queue for `entry`; the other nodes keep their order, and a missing entry changes nothing. */
    method Remove(entry: Signal) returns (found: bool)
      requires Valid()
      modifies this, nodes
      ensures Valid()
      ensures found <==> entry in old(nodes)
      ensures found ==> exists k | 0 <= k < |old(nodes)| ::
                old(nodes)[k] == entry && nodes == old(nodes)[..k] + old(nodes)[k + 1..]
      ensures !found ==> nodes == old(nodes)
      ensures forall x | x in old(nodes) :: x.aux == old(x.aux) && x.value == old(x.value)
    {
      var cur := first;
      var prev: Signal? := null;
      ghost var k := 0;
      while cur != null
        invariant 0 <= k <= |nodes|
        invariant cur == if k < |nodes| then nodes[k] else null
        invariant prev == if k > 0 then nodes[k - 1] else null
        invariant entry !in nodes[..k]
        decreases |nodes| - k
      {
        if cur == entry {
          Unlink(cur, prev, k);
          return true;
        }
        prev := cur;
        cur := cur.next;
        k := k + 1;
      }
      found := false;
    }

    /** Cuts the node at position `k` out of the list. */
    method Unlink(cur: Signal, prev: Signal?, ghost k: nat)
      requires Valid() && k < |nodes| && cur == nodes[k]
      requires prev == if k > 0 then nodes[k - 1] else null
      modifies this, nodes
      ensures Valid() && nodes == old(nodes)[..k] + old(nodes)[k + 1..]
      ensures forall x | x in old(nodes) :: x.aux == old(x.aux) && x.value == old(x.value)
    {
      ghost var others := nodes[..k] + nodes[k + 1..];
      assert forall a | 0 <= a < |others| :: others[a] == nodes[if a < k then a else a + 1];
      var next := cur.next;
      assert next == if k + 1 < |nodes| then nodes[k + 1] else null;
      if prev != null {
        prev.next := next;
      } else {
        first := next;
      }
      if last == cur {
        last := prev;
      }
      nodes := others;
    }
  }

  /** The popped nodes, still chained by the links they had in the queue. */
  class PoppedChain {
    var head: Signal?
    var last: Signal?
    ghost var popped: seq<Signal>

    ghost predicate Chained()
      reads this, popped
    {
      && Linked(popped)
      && (if popped == [] then head == null && last == null
          else head == popped[0] && last == popped[|popped| - 1])
    }

    ghost predicate Sealed()
      reads this, popped
    {
      Chained() && (popped != [] ==> popped[|popped| - 1].next == null)
    }

    constructor ()
      ensures Chained() && popped == []
    {
      head, last, popped := null, null, [];
    }

    method Append(node: Signal)
      requires Chained() && node !in popped && (popped == [] || popped[|popped| - 1].next == node)
      modifies this
      ensures Chained() && popped == old(popped) + [node]
    {
      if head == null {
        head := node;
      }
      last := node;
      popped := popped + [node];
    }

    /** Cuts the link from the last popped node to whatever is still queued. */
    method Seal()
      requires Chained()
      modifies if last == null then {} else {last}
      ensures Sealed()
      ensures last != null ==> last.aux == old(last.aux) && last.value == old(last.value)
    {
      if last != null {
        last.next := null;
      }
    }

    /**
      Signals every popped node once, in pop order. A signaled node belongs to its waiter again, so nothing
      is known about its link afterwards.
     */
    method SignalAll(value: nat) returns (ghost visited: seq<Signal>)
      requires Sealed()
      modifies popped
      ensures visited == popped
      ensures forall x | x in popped :: x.value == value
    {
      var cur := head;
      visited := [];
      ghost var k := 0;
      while cur != null
        invariant 0 <= k <= |popped| && visited == popped[..k]
        invariant cur == if k < |popped| then popped[k] else null
        invariant Linked(popped[k..]) && (k < |popped| ==> popped[|popped| - 1].next == null)
        invariant forall j | 0 <= j < k :: popped[j].value == value
        decreases |popped| - k
      {
        var node := cur;
        cur := node.next;
        assert k + 1 < |popped| ==> popped[k..][0].next == popped[k..][1];
        SignalNode(node, value);
        visited := visited + [node];
        k := k + 1;
      }
    }
  }

  /** A once-cell retry: the front node is popped, readied again, and queues up at the back. */
  method Requeue(queue: SignalQueue)
    requires queue.Valid() && queue.nodes != []
    modifies queue, queue.nodes
    ensures queue.Valid() && queue.nodes == old(queue.nodes)[1..] + [old(queue.nodes)[0]]
  {
    ghost var nodes := queue.nodes;
    var node := queue.Pop();
    node.Reset();
    assert forall k | 0 <= k < |queue.nodes| :: queue.nodes[k] == nodes[k + 1];
    var _ := queue.Push(node);
  }

  /** Publishes `value`; from here on the waiter may reuse or free the node. */
  method SignalNode(node: Signal, value: nat)
    modifies node
    ensures node.value == value
  {
    node.value := value;
  }
}

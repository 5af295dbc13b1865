/** The FIFO wait queue as a sequence of waiters, and the removal of one waiter from it. */
module WaitList {

  predicate Distinct(ids: seq<nat>) {
    forall a, b | 0 <= a < b < |ids| :: ids[a] != ids[b]
  }

  /** The queue without its first occurrence of `x` (`SignalQueue::remove`). */
  function Without(queue: seq<nat>, x: nat): (r: seq<nat>)
    ensures |r| <= |queue|
    ensures x !in queue ==> r == queue
  {
    if queue == [] then []
    else if queue[0] == x then queue[1..]
    else [queue[0]] + Without(queue[1..], x)
  }

  lemma {:induction false} WithoutAt(queue: seq<nat>, x: nat) returns (k: nat)
    requires x in queue
    ensures k < |queue| && queue[k] == x && Without(queue, x) == queue[..k] + queue[k + 1..]
  {
    if queue[0] == x {
      k := 0;
      assert queue[..0] + queue[1..] == queue[1..];
    } else {
      var tail := queue[1..];
      var m := WithoutAt(tail, x);
      k := m + 1;
      calc {
        Without(queue, x);
        [queue[0]] + (tail[..m] + tail[m + 1..]);
        ([queue[0]] + tail[..m]) + tail[m + 1..];
        { assert [queue[0]] + tail[..m] == queue[..k] && tail[m + 1..] == queue[k + 1..]; }
        queue[..k] + queue[k + 1..];
      }
    }
  }

  /** Exactly `x` is gone, and the others keep their order. */
  lemma WithoutMembers(queue: seq<nat>, x: nat)
    requires Distinct(queue) && x in queue
    ensures var r := Without(queue, x);
            Distinct(r) && forall y :: y in r <==> y in queue && y != x
  {
    var k := WithoutAt(queue, x);
    var r := Without(queue, x);
    assert forall m | 0 <= m < |r| :: r[m] == queue[if m < k then m else m + 1];
    forall y | y in queue && y != x
      ensures y in r
    {
      var m :| 0 <= m < |queue| && queue[m] == y;
      assert r[if m < k then m else m - 1] == y;
    }
  }

  /** Popping the front removes exactly the front. */
  lemma TailMembers(queue: seq<nat>)
    requires Distinct(queue) && queue != []
    ensures Distinct(queue[1..])
    ensures forall x: nat :: x in queue[1..] <==> x in queue && x != queue[0]
  {
    assert queue == [queue[0]] + queue[1..];
  }
}

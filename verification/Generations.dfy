/** The generations that queued nodes carry, front to back, and how queue operations act on them. */
module Generations {
  import opened WaitList

  function Tags(queue: seq<nat>, auxes: seq<nat>): (gens: seq<nat>)
    ensures |gens| == |queue|
  {
    seq(|queue|, k requires 0 <= k < |queue| => if queue[k] < |auxes| then auxes[queue[k]] else 0)
  }

  predicate Ascending(gens: seq<nat>) { forall a, b | 0 <= a < b < |gens| :: gens[a] <= gens[b] }

  predicate AtMost(gens: seq<nat>, g: nat) { forall k | 0 <= k < |gens| :: gens[k] <= g }

  predicate AtLeast(gens: seq<nat>, g: nat) { forall k | 0 <= k < |gens| :: g <= gens[k] }

  lemma TagsPush(queue: seq<nat>, auxes: seq<nat>, i: nat, g: nat)
    requires i !in queue && i < |auxes|
    ensures Tags(queue + [i], auxes[i := g]) == Tags(queue, auxes) + [g]
  {
  }

  lemma TagsPop(queue: seq<nat>, auxes: seq<nat>, count: nat)
    requires count <= |queue|
    ensures Tags(queue[count..], auxes) == Tags(queue, auxes)[count..]
    ensures Ascending(Tags(queue, auxes)) ==> Ascending(Tags(queue[count..], auxes))
    ensures forall k | 0 <= k < |queue[count..]| :: Tags(queue[count..], auxes)[k] in Tags(queue, auxes)
  {
  }

  lemma TagsRemove(queue: seq<nat>, auxes: seq<nat>, x: nat)
    requires x in queue
    ensures var gens := Tags(Without(queue, x), auxes);
            && (Ascending(Tags(queue, auxes)) ==> Ascending(gens))
            && (forall k | 0 <= k < |gens| :: gens[k] in Tags(queue, auxes))
  {
    var k := WithoutAt(queue, x);
    assert Tags(Without(queue, x), auxes) == Tags(queue, auxes)[..k] + Tags(queue, auxes)[k + 1..];
  }

  // ----- the two popping loops -----

  /** How many nodes the loop of `notify_waiters` pops: it stops at the first one of generation `live`. */
  function Until(gens: seq<nat>, live: nat): (count: nat)
    ensures count <= |gens|
  {
    if gens == [] || gens[0] == live then 0 else 1 + Until(gens[1..], live)
  }

  /** How many nodes the loop of `release_waiters` pops: it stops at the first one of another generation. */
  function While(gens: seq<nat>, g: nat): (count: nat)
    ensures count <= |gens|
  {
    if gens == [] || gens[0] != g then 0 else 1 + While(gens[1..], g)
  }

  /** On ascending generations, the first loop pops exactly the older nodes and leaves exactly the live ones. */
  lemma {:induction false} UntilExact(gens: seq<nat>, live: nat)
    requires Ascending(gens) && AtMost(gens, live)
    ensures forall k | 0 <= k < Until(gens, live) :: gens[k] < live
    ensures forall k | Until(gens, live) <= k < |gens| :: gens[k] == live
  {
    if gens != [] && gens[0] != live {
      UntilExact(gens[1..], live);
    }
  }

  /** The second loop pops the longest prefix of its generation. */
  lemma {:induction false} WhilePrefix(gens: seq<nat>, g: nat)
    ensures forall k | 0 <= k < While(gens, g) :: gens[k] == g
    ensures While(gens, g) < |gens| ==> gens[While(gens, g)] != g
  {
    if gens != [] && gens[0] == g {
      WhilePrefix(gens[1..], g);
    }
  }
}

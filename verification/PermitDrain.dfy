/** How `SemCore::drain` deals permits to a queue of waiters, as a function on the permits they miss. */
module PermitDrain {

  /** `popped` waiters satisfied from the front, what the others still miss, and the unused permits. */
  datatype Outcome = Outcome(popped: nat, rest: seq<nat>, left: nat)

  function Drain(needs: seq<nat>, available: nat): (r: Outcome)
    ensures r.popped + |r.rest| == |needs|
    ensures r.left > 0 ==> r.rest == []
    ensures r.rest != [] ==> r.rest[0] > 0 && r.rest[0] <= needs[r.popped] && r.rest[1..] == needs[r.popped + 1..]
  {
    if needs == [] then
      Outcome(0, [], available)
    else if needs[0] > available then
      Outcome(0, [needs[0] - available] + needs[1..], 0)
    else
      var r := Drain(needs[1..], available - needs[0]);
      r.(popped := r.popped + 1)
  }

  function Total(needs: seq<nat>): int {
    if needs == [] then 0 else needs[0] + Total(needs[1..])
  }

  /** No permit is created or destroyed by a drain. */
  lemma {:induction false} DrainConserves(needs: seq<nat>, available: nat)
    ensures var r := Drain(needs, available);
            Total(needs) - Total(r.rest) + r.left == available
  {
    if needs != [] && needs[0] <= available {
      DrainConserves(needs[1..], available - needs[0]);
    }
  }

  /**
    Draining is split-invariant: dealing `a` permits and later `b` more satisfies the same waiters in
    the same order, and leaves the same residue and the same leftover, as dealing them all at once.
   */
  lemma {:induction false} DrainSplits(needs: seq<nat>, a: nat, b: nat)
    ensures var first := Drain(needs, a);
            var second := Drain(first.rest, first.left + b);
            Drain(needs, a + b) == Outcome(first.popped + second.popped, second.rest, second.left)
  {
    if needs == [] {
    } else if needs[0] <= a {
      var first := Drain(needs[1..], a - needs[0]);
      assert Drain(needs, a) == first.(popped := first.popped + 1);
      assert Drain(needs, a + b) == var r := Drain(needs[1..], a - needs[0] + b); r.(popped := r.popped + 1);
      DrainSplits(needs[1..], a - needs[0], b);
    } else {
      DrainAgain(needs, a, b);
    }
  }

  /** The base case: the head absorbed all of `a`. */
  lemma DrainAgain(needs: seq<nat>, a: nat, b: nat)
    requires needs != [] && a < needs[0]
    ensures var first := Drain(needs, a);
            first.popped == 0 && first.left == 0 && Drain(needs, a + b) == Drain(first.rest, b)
  {
    var reduced := [needs[0] - a] + needs[1..];
    assert reduced[1..] == needs[1..];
    assert Drain(needs, a) == Outcome(0, reduced, 0);
    if needs[0] <= a + b {
      assert Drain(reduced, b) == var r := Drain(needs[1..], b - (needs[0] - a)); r.(popped := r.popped + 1);
      assert Drain(needs, a + b) == var r := Drain(needs[1..], a + b - needs[0]); r.(popped := r.popped + 1);
    }
  }

  /** What the first `k` waiters miss together. */
  function Prefix(needs: seq<nat>, k: nat): nat
    requires k <= |needs|
  {
    if k == 0 then 0 else Prefix(needs, k - 1) + needs[k - 1]
  }

  lemma {:induction false} PrefixTail(needs: seq<nat>, k: nat)
    requires 0 < k <= |needs|
    ensures Prefix(needs, k) == needs[0] + Prefix(needs[1..], k - 1)
  {
    if k > 1 {
      PrefixTail(needs, k - 1);
    }
  }

  /** What the waiters miss when the first one that cannot be served has taken all that is left. */
  function Residue(needs: seq<nat>, k: nat, left: nat): (r: seq<nat>)
    requires k < |needs| ==> left <= needs[k]
    ensures |r| == |needs|
  {
    if k < |needs| then needs[k := needs[k] - left] else needs
  }

  lemma ResidueTail(needs: seq<nat>, k: nat, left: nat)
    requires 0 < k <= |needs| && (k < |needs| ==> left <= needs[k])
    ensures Residue(needs, k, left)[k..] == Residue(needs[1..], k - 1, left)[k - 1..]
  {
  }

  /** The outcome of serving the first `k` waiters with `left` permits to spare. */
  function Affordable(needs: seq<nat>, k: nat, left: nat): Outcome
    requires k <= |needs| && (k < |needs| ==> left <= needs[k])
  {
    Outcome(k, Residue(needs, k, left)[k..], if k < |needs| then 0 else left)
  }

  /** The head is served, and the rest of the queue fares as it would on its own. */
  lemma AffordsOneMore(needs: seq<nat>, available: nat, k: nat, left: nat)
    requires 0 < k <= |needs| && needs[0] <= available && (k < |needs| ==> left <= needs[k])
    requires Drain(needs[1..], available - needs[0]) == Affordable(needs[1..], k - 1, left)
    ensures Drain(needs, available) == Affordable(needs, k, left)
  {
    ResidueTail(needs, k, left);
  }

  /** Nobody can be served. */
  lemma AffordsNobody(needs: seq<nat>, available: nat)
    requires needs == [] || available < needs[0]
    ensures Drain(needs, available) == Affordable(needs, 0, available)
  {
    if needs != [] {
      assert needs[0 := needs[0] - available] == [needs[0] - available] + needs[1..];
    }
  }

  /** The drain serves the longest prefix it can afford, and no more. */
  lemma {:induction false} DrainAffords(needs: seq<nat>, available: nat, k: nat)
    requires k <= |needs| && Prefix(needs, k) <= available
    requires k < |needs| ==> available - Prefix(needs, k) < needs[k]
    ensures var left := available - Prefix(needs, k);
            Drain(needs, available) == Outcome(k, Residue(needs, k, left)[k..], if k < |needs| then 0 else left)
    decreases k
  {
    var left := available - Prefix(needs, k);
    assert Drain(needs, available) == Affordable(needs, k, left) by {
      if k == 0 {
        AffordsNobody(needs, available);
      } else {
        PrefixTail(needs, k);
        DrainAffords(needs[1..], available - needs[0], k - 1);
        AffordsOneMore(needs, available, k, left);
      }
    }
  }
}

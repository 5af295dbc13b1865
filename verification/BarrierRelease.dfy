/**
  Who is left behind by a completed round: nobody, as long as at most `n + 1` waits are in progress at
  once. The bound is exact; the run that strands a waiter with `n + 2` is in `BarrierStranding`.
 */
module BarrierRelease {
  import opened Ledger
  import opened WaitNodes
  import opened Generations
  import opened Barrier
  import opened BarrierProof

  function Active(pc: Pc): int { if pc.Idle? then 0 else 1 }

  /** The number of waits in progress, leaders and withdrawals included. */
  function Crowd(s: State): int { Sum(s.pcs, Active) }

  predicate Leads(pc: Pc, g: nat) { pc == RelLock(g) || pc == RelTake(g) }

  predicate Asking(s: State, g: nat) { exists j | 0 <= j < |s.pcs| :: s.pcs[j] == RelLock(g) }
  predicate Led(s: State, g: nat) { exists j | 0 <= j < |s.pcs| :: Leads(s.pcs[j], g) }

  /** A waiter of a completed round that no leader will release any more. */
  predicate Stranded(s: State, x: nat) {
    x in s.nodes.queue && x < |s.auxes| && s.auxes[x] < s.bits.gen && !Led(s, s.auxes[x])
  }

  // ----- the invariant -----

  function Gens(s: State): (gens: seq<nat>)
    ensures |gens| == |s.nodes.queue|
  {
    Tags(s.nodes.queue, s.auxes)
  }

  predicate OrderInv(s: State) {
    && Ascending(Gens(s)) && AtMost(Gens(s), s.bits.gen)
    && (forall i | 0 <= i < |s.pcs| :: s.pcs[i].EnqPush? ==> AtMost(Gens(s), s.pcs[i].g))
  }

  /** A leader's waiters are not hidden behind older ones. */
  predicate Clear(s: State, pc: Pc) {
    pc.RelLock? || pc.RelTake? ==>
      && AtLeast(Gens(s), pc.g)
      && (forall j | 0 <= j < |s.pcs| :: s.pcs[j].EnqPush? ==> pc.g <= s.pcs[j].g)
  }

  predicate ReleaseInv(s: State) {
    && OrderInv(s)
    && (forall k | 0 <= k < |Gens(s)| :: Gens(s)[k] < s.bits.gen ==> Led(s, Gens(s)[k]))
    && (forall i | 0 <= i < |s.pcs| ::
          && (s.pcs[i].EnqPush? && s.pcs[i].g < s.bits.gen ==> Asking(s, s.pcs[i].g))
          && Clear(s, s.pcs[i]))
  }

  lemma NobodyStranded(s: State, x: nat)
    requires ReleaseInv(s)
    ensures !Stranded(s, x)
  {
    if x in s.nodes.queue && x < |s.auxes| {
      var k :| 0 <= k < |s.nodes.queue| && s.nodes.queue[k] == x;
      assert Gens(s)[k] == s.auxes[x];
    }
  }

  lemma LedMoves(s: State, s': State, i: nat)
    requires i < |s.pcs| && |s'.pcs| == |s.pcs| && s'.pcs == s.pcs[i := s'.pcs[i]]
    ensures forall g :: Asking(s, g) && s.pcs[i] != RelLock(g) ==> Asking(s', g)
    ensures forall g :: Led(s, g) && (Leads(s.pcs[i], g) ==> Leads(s'.pcs[i], g)) ==> Led(s', g)
    ensures forall g :: Asking(s', g) ==> Led(s', g)
  {
    forall g | Asking(s, g) && s.pcs[i] != RelLock(g)
      ensures Asking(s', g)
    {
      var j :| 0 <= j < |s.pcs| && s.pcs[j] == RelLock(g);
      assert s'.pcs[j] == RelLock(g);
    }
    forall g | Led(s, g) && (Leads(s.pcs[i], g) ==> Leads(s'.pcs[i], g))
      ensures Led(s', g)
    {
      var j :| 0 <= j < |s.pcs| && Leads(s.pcs[j], g);
      assert j != i ==> Leads(s'.pcs[j], g);
    }
    forall g | Asking(s', g)
      ensures Led(s', g)
    {
      var j :| 0 <= j < |s'.pcs| && s'.pcs[j] == RelLock(g);
      assert Leads(s'.pcs[j], g);
    }
  }

  // ----- steps that leave queue and generation alone -----

  predicate Calm(s: State, s': State, i: nat) {
    && i < |s.pcs| && |s'.pcs| == |s.pcs| && s'.pcs == s.pcs[i := s'.pcs[i]]
    && s'.nodes.queue == s.nodes.queue && s'.auxes == s.auxes && s'.bits.gen == s.bits.gen
    && !s.pcs[i].RelLock? && !s.pcs[i].RelTake? && !s'.pcs[i].RelLock? && !s'.pcs[i].RelTake?
    && (s'.pcs[i].EnqPush? ==> s'.pcs[i].g == s.bits.gen)
  }

  lemma CalmKeeps(s: State, s': State, i: nat)
    requires TimeInv(s) && ReleaseInv(s) && Calm(s, s', i)
    ensures ReleaseInv(s')
  {
    LedMoves(s, s', i);
    assert Gens(s') == Gens(s);
    forall j | 0 <= j < |s'.pcs|
      ensures Clear(s', s'.pcs[j])
    {
      assert InTime(s.pcs[j], s.bits.gen) && Clear(s, s.pcs[j]);
    }
  }

  lemma CalmArriving(s: State, i: nat, c: Choice)
    requires Aligned(s) && i < |s.pcs| && (Arriving(s.pcs[i]) || s.pcs[i].Signaling?)
    requires Step(s, i, c).bits.gen == s.bits.gen
    ensures Calm(s, Step(s, i, c), i)
  {
  }

  lemma CalmEntering(s: State, i: nat, c: Choice)
    requires Aligned(s) && i < |s.pcs| && Entering(s.pcs[i]) && !s.pcs[i].EnqPush?
    ensures Calm(s, Step(s, i, c), i)
  {
  }

  lemma CalmLeaving(s: State, i: nat, c: Choice)
    requires Aligned(s) && i < |s.pcs|
    requires !Arriving(s.pcs[i]) && !Leading(s.pcs[i]) && !Entering(s.pcs[i]) && !s.pcs[i].WdRemove?
    ensures Calm(s, Step(s, i, c), i)
  {
  }

  // ----- a round completes -----

  /** An agent in progress that is not one of the forming round's arrivals. */
  function Stranger(gen: nat): Pc -> int {
    (pc: Pc) => Active(pc) - Counted(gen)(pc)
  }

  /** Three agents outside the forming round, next to its `n - 1` arrivals, exceed the bound. */
  lemma Overcrowded(s: State, a: nat, b: nat, d: nat)
    requires Aligned(s) && RoundInv(s) && s.bits.arrived + 1 >= s.n
    requires a < |s.pcs| && b < |s.pcs| && d < |s.pcs| && a != b && a != d && b != d
    requires Stranger(s.bits.gen)(s.pcs[a]) == 1 && Stranger(s.bits.gen)(s.pcs[b]) == 1
    requires Stranger(s.bits.gen)(s.pcs[d]) == 1
    ensures Crowd(s) >= s.n + 2
  {
    SumSplit(s.pcs, Counted(s.bits.gen), Stranger(s.bits.gen), Active);
    SumTriple(s.pcs, Stranger(s.bits.gen), a, b, d);
  }

  /** Next to the arriver, an older waiter and its pending leader are two strangers too many. */
  lemma NoOlderQueued(s: State, i: nat, k: nat)
    requires Inv(s) && ReleaseInv(s) && Crowd(s) <= s.n + 1
    requires i < |s.pcs| && s.pcs[i].ArriveCas? && s.bits.arrived + 1 >= s.n && k < |Gens(s)|
    ensures s.bits.gen <= Gens(s)[k]
  {
    var x := s.nodes.queue[k];
    if Gens(s)[k] < s.bits.gen {
      var j :| 0 <= j < |s.pcs| && Leads(s.pcs[j], Gens(s)[k]);
      assert NodeSound(s.nodes, x);
      assert Placed(s.pcs[x], s.nodes.places[x], s.nodes.hands[x], s.auxes[x], s.bits.gen);
      Overcrowded(s, i, x, j);
    }
  }

  lemma NoOlderPushing(s: State, i: nat, j: nat)
    requires Inv(s) && ReleaseInv(s) && Crowd(s) <= s.n + 1
    requires i < |s.pcs| && s.pcs[i].ArriveCas? && s.bits.arrived + 1 >= s.n
    requires j < |s.pcs| && s.pcs[j].EnqPush?
    ensures s.bits.gen <= s.pcs[j].g
  {
    if s.pcs[j].g < s.bits.gen {
      var l :| 0 <= l < |s.pcs| && s.pcs[l] == RelLock(s.pcs[j].g);
      Overcrowded(s, i, j, l);
    }
  }

  /** With at most `n + 1` waits in progress, the completing arrival finds no older waiter. */
  lemma NoOlderWaiter(s: State, i: nat)
    requires Inv(s) && ReleaseInv(s) && Crowd(s) <= s.n + 1
    requires i < |s.pcs| && s.pcs[i].ArriveCas? && s.bits.arrived + 1 >= s.n
    ensures AtLeast(Gens(s), s.bits.gen)
    ensures forall j | 0 <= j < |s.pcs| && s.pcs[j].EnqPush? :: s.bits.gen <= s.pcs[j].g
  {
    forall k | 0 <= k < |Gens(s)|
      ensures s.bits.gen <= Gens(s)[k]
    {
      NoOlderQueued(s, i, k);
    }
    forall j | 0 <= j < |s.pcs| && s.pcs[j].EnqPush?
      ensures s.bits.gen <= s.pcs[j].g
    {
      NoOlderPushing(s, i, j);
    }
  }

  lemma CompleteKeeps(s: State, i: nat, future: bool)
    requires Inv(s) && ReleaseInv(s) && Crowd(s) <= s.n + 1
    requires i < |s.pcs| && s.pcs[i].ArriveCas? && s.bits.arrived + 1 >= s.n
    ensures ReleaseInv(Join(s, i, future))
  {
    var s' := Join(s, i, future);
    NoOlderWaiter(s, i);
    LedMoves(s, s', i);
    assert Gens(s') == Gens(s);
    assert s'.pcs[i] == RelLock(s.bits.gen);
    assert Leads(s'.pcs[i], s.bits.gen);
    forall j | 0 <= j < |s'.pcs|
      ensures Clear(s', s'.pcs[j])
      ensures s'.pcs[j].EnqPush? ==> s'.pcs[j].g == s.bits.gen
    {
      assert InTime(s.pcs[j], s.bits.gen) && Clear(s, s.pcs[j]);
    }
  }

  // ----- the leader, a push, a withdrawal -----

  lemma RelLockKeeps(s: State, i: nat, g: nat)
    requires Aligned(s) && ControlInv(s) && ReleaseInv(s) && i < |s.pcs| && s.pcs[i] == RelLock(g)
    ensures ReleaseInv(RelLockStep(s, i, g))
  {
    var s' := RelLockStep(s, i, g);
    LedMoves(s, s', i);
    assert Gens(s') == Gens(s);
    forall j | 0 <= j < |s'.pcs|
      ensures Clear(s', s'.pcs[j])
    {
      assert Clear(s, s.pcs[j]) && Clear(s, s.pcs[i]);
    }
  }

  /** The lock holder takes some nodes out of the queue. */
  lemma FewerKeeps(s: State, s': State, i: nat)
    requires Aligned(s) && ControlInv(s) && ReleaseInv(s) && i < |s.pcs| && HoldsLock(s.pcs[i])
    requires |s'.pcs| == |s.pcs| && s'.pcs == s.pcs[i := s'.pcs[i]] && s'.pcs[i].Unlock?
    requires s'.bits.gen == s.bits.gen && Ascending(Gens(s'))
    requires forall k | 0 <= k < |Gens(s')| :: Gens(s')[k] in Gens(s)
    requires forall k | 0 <= k < |Gens(s')| :: !Leads(s.pcs[i], Gens(s')[k])
    ensures ReleaseInv(s')
  {
    LedMoves(s, s', i);
    forall k | 0 <= k < |Gens(s')|
      ensures Gens(s')[k] <= s.bits.gen
      ensures Gens(s')[k] < s.bits.gen ==> Led(s', Gens(s')[k])
    {
      var m :| 0 <= m < |Gens(s)| && Gens(s)[m] == Gens(s')[k];
    }
    forall j | 0 <= j < |s'.pcs|
      ensures Clear(s', s'.pcs[j])
    {
      FewerClear(s, s', i, j);
    }
  }

  lemma FewerClear(s: State, s': State, i: nat, j: nat)
    requires ReleaseInv(s) && i < |s.pcs| && j < |s.pcs|
    requires |s'.pcs| == |s.pcs| && s'.pcs == s.pcs[i := s'.pcs[i]] && s'.pcs[i].Unlock?
    requires forall k | 0 <= k < |Gens(s')| :: Gens(s')[k] in Gens(s)
    ensures Clear(s', s'.pcs[j])
  {
    assert Clear(s, s.pcs[j]);
  }

  /** The leader of round `g` pops every waiter of its round. */
  lemma RelTakeKeeps(s: State, i: nat, g: nat)
    requires Aligned(s) && ControlInv(s) && NodeInv(s) && ReleaseInv(s) && i < |s.pcs| && s.pcs[i] == RelTake(g)
    ensures ReleaseInv(RelTakeStep(s, i, g))
    ensures g !in Gens(RelTakeStep(s, i, g))
  {
    var s' := RelTakeStep(s, i, g);
    var count := While(Gens(s), g);
    WhilePrefix(Gens(s), g);
    TagsPop(s.nodes.queue, s.auxes, count);
    assert Clear(s, s.pcs[i]);
    forall k | 0 <= k < |Gens(s')|
      ensures Gens(s')[k] != g
    {
      assert Gens(s')[k] == Gens(s)[count + k];
      assert Gens(s)[count] != g;
    }
    FewerKeeps(s, s', i);
  }

  lemma RemoveKeeps(s: State, i: nat, g: nat)
    requires Aligned(s) && ControlInv(s) && TimeInv(s) && ReleaseInv(s) && i < |s.pcs| && s.pcs[i] == WdRemove(g)
    ensures ReleaseInv(WdRemoveStep(s, i, g))
  {
    var s' := WdRemoveStep(s, i, g);
    if i in s.nodes.queue {
      TagsRemove(s.nodes.queue, s.auxes, i);
      FewerKeeps(s, s', i);
    } else {
      CalmKeeps(s, s', i);
    }
  }

  lemma PushKeeps(s: State, i: nat, g: nat, future: bool)
    requires Aligned(s) && ControlInv(s) && NodeInv(s) && TimeInv(s) && ReleaseInv(s)
    requires i < |s.pcs| && s.pcs[i] == EnqPush(g, future)
    ensures ReleaseInv(PushStep(s, i, g, future))
  {
    var s' := PushStep(s, i, g, future);
    assert Gens(s') == Gens(s) + [g] by {
      assert NodeSound(s.nodes, i);
      TagsPush(s.nodes.queue, s.auxes, i, g);
    }
    assert InTime(s.pcs[i], s.bits.gen);
    PushOrder(s, s', i, g);
    forall j | 0 <= j < |s'.pcs|
      ensures Clear(s', s'.pcs[j])
    {
      PushClear(s, s', i, g, j);
    }
  }

  lemma PushOrder(s: State, s': State, i: nat, g: nat)
    requires ControlInv(s) && ReleaseInv(s) && i < |s.pcs| && s.pcs[i].EnqPush? && s.pcs[i].g == g <= s.bits.gen
    requires |s'.pcs| == |s.pcs| && s'.pcs == s.pcs[i := s'.pcs[i]] && s'.pcs[i].Unlock?
    requires Gens(s') == Gens(s) + [g] && s'.bits == s.bits
    ensures OrderInv(s')
    ensures forall k | 0 <= k < |Gens(s')| :: Gens(s')[k] < s'.bits.gen ==> Led(s', Gens(s')[k])
    ensures forall j | 0 <= j < |s'.pcs| :: s'.pcs[j].EnqPush? && s'.pcs[j].g < s'.bits.gen ==> Asking(s', s'.pcs[j].g)
  {
    LedMoves(s, s', i);
  }

  lemma PushClear(s: State, s': State, i: nat, g: nat, j: nat)
    requires ReleaseInv(s) && i < |s.pcs| && s.pcs[i].EnqPush? && s.pcs[i].g == g && j < |s.pcs|
    requires |s'.pcs| == |s.pcs| && s'.pcs == s.pcs[i := s'.pcs[i]] && s'.pcs[i].Unlock?
    requires Gens(s') == Gens(s) + [g]
    ensures Clear(s', s'.pcs[j])
  {
    assert Clear(s, s.pcs[j]);
  }

  lemma ReleaseStep(s: State, i: nat, c: Choice)
    requires Inv(s) && ReleaseInv(s) && Crowd(s) <= s.n + 1 && i < |s.pcs|
    ensures ReleaseInv(Step(s, i, c))
  {
    var pc := s.pcs[i];
    if pc.RelLock? {
      RelLockKeeps(s, i, pc.g);
    } else if pc.RelTake? {
      RelTakeKeeps(s, i, pc.g);
    } else if pc.EnqPush? {
      PushKeeps(s, i, pc.g, pc.future);
    } else if pc.WdRemove? {
      RemoveKeeps(s, i, pc.g);
    } else if Step(s, i, c).bits.gen != s.bits.gen {
      CompleteStep(s, i, c);
    } else {
      CalmStep(s, i, c);
      CalmKeeps(s, Step(s, i, c), i);
    }
  }

  lemma CompleteStep(s: State, i: nat, c: Choice)
    requires Inv(s) && ReleaseInv(s) && Crowd(s) <= s.n + 1 && i < |s.pcs|
    requires Step(s, i, c).bits.gen != s.bits.gen
    ensures ReleaseInv(Step(s, i, c))
  {
    if s.pcs[i].ArriveCas? {
      CompleteKeeps(s, i, s.pcs[i].future);
    }
  }

  lemma CalmStep(s: State, i: nat, c: Choice)
    requires Aligned(s) && i < |s.pcs| && Step(s, i, c).bits.gen == s.bits.gen
    requires !s.pcs[i].RelLock? && !s.pcs[i].RelTake? && !s.pcs[i].EnqPush? && !s.pcs[i].WdRemove?
    ensures Calm(s, Step(s, i, c), i)
  {
    if Arriving(s.pcs[i]) || s.pcs[i].Signaling? {
      CalmArriving(s, i, c);
    } else if Entering(s.pcs[i]) {
      CalmEntering(s, i, c);
    } else {
      CalmLeaving(s, i, c);
    }
  }
}

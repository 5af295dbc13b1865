/** The barrier: arrivals counted exactly, one leader per round, and no early return, in every schedule. */
module BarrierProof {
  import opened Ledger
  import opened WaitWord
  import opened WaitNodes
  import opened Generations
  import opened Barrier

  // ----- what a program counter stands for -----

  predicate HoldsLock(pc: Pc) {
    pc.RelTake? || pc.EnqCheck? || pc.EnqPush? || pc.Unlock? || pc.WdRemove?
  }

  predicate Parked(pc: Pc) {
    || pc.Waiting? || pc.WdLoad? || pc.WdCas? || pc.WdLock? || pc.WdRemove? || pc.Spin?
    || (pc.Unlock? && (pc.next.Park? || pc.next.SpinOn?))
  }

  predicate Waking(pc: Pc) { pc.Signaling? || (pc.Unlock? && pc.next.WakeAll?) }

  /** The generation of the round an agent takes part in. */
  function Round(pc: Pc): nat {
    match pc
    case RelLock(g) => g
    case RelTake(g) => g
    case Signaling(g) => g
    case EnqLock(g, _) => g
    case EnqCheck(g, _) => g
    case EnqPush(g, _) => g
    case Unlock(next) => if next.Leave? then 0 else next.g
    case Waiting(g, _) => g
    case WdLoad(g) => g
    case WdCas(g, _) => g
    case WdLock(g) => g
    case WdRemove(g) => g
    case Spin(g) => g
    case _ => 0
  }

  /** The agent has arrived, is not the leader, and has not withdrawn. */
  predicate Joined(pc: Pc) {
    || pc.EnqLock? || pc.EnqCheck? || pc.EnqPush? || pc.Waiting? || pc.WdLoad? || pc.WdCas?
    || (pc.Unlock? && (pc.next.Park? || pc.next.Done?))
  }

  /** The agent is, or was, the leader of a completed round, or returns from one. */
  predicate Past(pc: Pc) {
    || pc.RelLock? || pc.RelTake? || pc.Signaling?
    || (pc.Unlock? && (pc.next.WakeAll? || pc.next.Done?))
  }

  function Counted(gen: nat): Pc -> int {
    (pc: Pc) => if Joined(pc) && Round(pc) == gen then 1 else 0
  }

  // ----- the invariant -----

  predicate ControlInv(s: State) {
    && (forall i | 0 <= i < |s.pcs| :: HoldsLock(s.pcs[i]) <==> s.lock == Held(i))
    && (s.lock.Held? ==> s.lock.holder < |s.pcs|)
    && (s.lock == Null ==> s.nodes.queue == [])
    && (s.lock == Published ==> s.nodes.queue != [])
  }

  /** A node waits for the round of its agent, and only wakers hold a chain. */
  predicate Placed(pc: Pc, place: Place<Kind>, hand: Hand<Kind>, aux: nat, gen: nat) {
    && (Parked(pc) <==> !place.Out?)
    && (Parked(pc) ==> aux == Round(pc))
    && (place.Popped? || place.Signaled? ==> aux < gen)
    && (!Waking(pc) ==> hand.chain == [])
  }

  predicate NodeInv(s: State)
    requires Aligned(s)
  {
    && Sound(s.nodes)
    && (forall i | 0 <= i < |s.pcs| ::
          Placed(s.pcs[i], s.nodes.places[i], s.nodes.hands[i], s.auxes[i], s.bits.gen))
  }

  /** Rounds are never ahead of the generation, and what returns or releases belongs to a completed one. */
  predicate InTime(pc: Pc, gen: nat) {
    && Round(pc) <= gen
    && (Past(pc) ==> Round(pc) < gen)
    && (pc.WdCas? ==> pc.seen.gen == pc.g)
  }

  predicate TimeInv(s: State) {
    && (forall i | 0 <= i < |s.pcs| :: InTime(s.pcs[i], s.bits.gen))
    && (forall k | 0 <= k < |s.results| :: s.results[k].g < s.bits.gen)
  }

  /** Arrivals, withdrawals and leaders, round by round. */
  predicate RoundInv(s: State)
    requires Aligned(s)
  {
    && 1 <= s.n && s.bits.arrived < s.n
    && s.bits.arrived == Sum(s.pcs, Counted(s.bits.gen))
    && |s.leaders| == s.bits.gen
    && s.joins[s.bits.gen] == s.quits[s.bits.gen] + s.bits.arrived
    && (forall g | 0 <= g < s.bits.gen :: s.joins[g] == s.quits[g] + s.n)
  }

  predicate Inv(s: State) { Aligned(s) && ControlInv(s) && NodeInv(s) && TimeInv(s) && RoundInv(s) }

  // ----- lock and time -----

  predicate Arriving(pc: Pc) { pc.Idle? || pc.ArriveLoad? || pc.ArriveCas? }
  predicate Leading(pc: Pc) { pc.RelLock? || pc.RelTake? || pc.Signaling? }
  predicate Entering(pc: Pc) { pc.EnqLock? || pc.EnqCheck? || pc.EnqPush? || pc.Unlock? }

  /** A lawful step takes the lock only when it is free, and is never ahead of its round. */
  predicate Lawful(s: State, s': State, i: nat) {
    && i < |s.pcs| && |s'.pcs| == |s.pcs| && s'.pcs == s.pcs[i := s'.pcs[i]]
    && (s'.lock == s.lock || ((s.lock == Held(i) || !s.lock.Held?) && (s'.lock == Held(i) || !s'.lock.Held?)))
    && (HoldsLock(s'.pcs[i]) <==> s'.lock == Held(i))
    && (s'.lock == Null ==> s'.nodes.queue == [])
    && (s'.lock == Published ==> s'.nodes.queue != [])
    && s.bits.gen <= s'.bits.gen
    && InTime(s'.pcs[i], s'.bits.gen)
    && (s'.results == s.results
        || (|s'.results| == |s.results| + 1 && s'.results[..|s.results|] == s.results
            && s'.results[|s.results|].g < s'.bits.gen))
  }

  lemma LawfulKeeps(s: State, s': State, i: nat)
    requires ControlInv(s) && TimeInv(s) && Lawful(s, s', i)
    ensures ControlInv(s') && TimeInv(s')
  {
    forall k | 0 <= k < |s'.results|
      ensures s'.results[k].g < s'.bits.gen
    {
      assert k < |s.results| ==> s'.results[..|s.results|][k] == s.results[k];
    }
  }

  lemma LawfulArriving(s: State, i: nat, c: Choice)
    requires Aligned(s) && ControlInv(s) && i < |s.pcs| && InTime(s.pcs[i], s.bits.gen) && Arriving(s.pcs[i])
    ensures Lawful(s, Step(s, i, c), i)
  {
  }

  lemma LawfulLeading(s: State, i: nat, c: Choice)
    requires Aligned(s) && ControlInv(s) && i < |s.pcs| && InTime(s.pcs[i], s.bits.gen) && Leading(s.pcs[i])
    ensures Lawful(s, Step(s, i, c), i)
  {
  }

  lemma LawfulEntering(s: State, i: nat, c: Choice)
    requires Aligned(s) && ControlInv(s) && i < |s.pcs| && InTime(s.pcs[i], s.bits.gen) && Entering(s.pcs[i])
    ensures Lawful(s, Step(s, i, c), i)
  {
  }

  lemma LawfulWaiting(s: State, i: nat, g: nat, future: bool, c: Choice)
    requires Aligned(s) && ControlInv(s) && i < |s.pcs| && InTime(s.pcs[i], s.bits.gen)
    requires Placed(s.pcs[i], s.nodes.places[i], s.nodes.hands[i], s.auxes[i], s.bits.gen)
    requires s.pcs[i] == Waiting(g, future)
    ensures Lawful(s, WaitStep(s, i, g, future, c), i)
  {
  }

  lemma LawfulLeaving(s: State, i: nat, c: Choice)
    requires Aligned(s) && ControlInv(s) && i < |s.pcs| && InTime(s.pcs[i], s.bits.gen) && !s.pcs[i].Waiting?
    requires !Arriving(s.pcs[i]) && !Leading(s.pcs[i]) && !Entering(s.pcs[i])
    ensures Lawful(s, Step(s, i, c), i)
  {
  }

  lemma LawfulStep(s: State, i: nat, c: Choice)
    requires Aligned(s) && ControlInv(s) && NodeInv(s) && TimeInv(s) && i < |s.pcs|
    ensures Lawful(s, Step(s, i, c), i)
  {
    assert InTime(s.pcs[i], s.bits.gen);
    assert Placed(s.pcs[i], s.nodes.places[i], s.nodes.hands[i], s.auxes[i], s.bits.gen);
    if Arriving(s.pcs[i]) {
      LawfulArriving(s, i, c);
    } else if Leading(s.pcs[i]) {
      LawfulLeading(s, i, c);
    } else if Entering(s.pcs[i]) {
      LawfulEntering(s, i, c);
    } else if s.pcs[i].Waiting? {
      LawfulWaiting(s, i, s.pcs[i].g, s.pcs[i].future, c);
    } else {
      LawfulLeaving(s, i, c);
    }
  }

  // ----- nodes -----

  /** The agent may touch a node. */
  predicate Touching(pc: Pc) {
    pc.EnqPush? || pc.WdRemove? || pc.Waiting? || pc.Spin? || pc.RelTake? || pc.Signaling?
  }

  /** The stepping agent changes neither its node nor the queue. */
  predicate Quiet(s: State, s': State, i: nat)
    requires Aligned(s)
  {
    && i < |s.pcs| && |s'.pcs| == |s.pcs| && s'.pcs == s.pcs[i := s'.pcs[i]]
    && s'.nodes == s.nodes && s'.auxes == s.auxes && s.bits.gen <= s'.bits.gen
    && Placed(s'.pcs[i], s.nodes.places[i], s.nodes.hands[i], s.auxes[i], s.bits.gen)
  }

  lemma QuietKeeps(s: State, s': State, i: nat)
    requires Aligned(s) && Aligned(s') && NodeInv(s) && Quiet(s, s', i)
    ensures NodeInv(s')
  {
  }

  lemma QuietStep(s: State, i: nat, c: Choice)
    requires Aligned(s) && i < |s.pcs| && !Touching(s.pcs[i])
    requires Placed(s.pcs[i], s.nodes.places[i], s.nodes.hands[i], s.auxes[i], s.bits.gen)
    ensures Quiet(s, Step(s, i, c), i)
  {
    if Entering(s.pcs[i]) {
      QuietEntering(s, i, c);
    }
  }

  lemma QuietEntering(s: State, i: nat, c: Choice)
    requires Aligned(s) && i < |s.pcs| && Entering(s.pcs[i]) && !Touching(s.pcs[i])
    requires Placed(s.pcs[i], s.nodes.places[i], s.nodes.hands[i], s.auxes[i], s.bits.gen)
    ensures Quiet(s, Step(s, i, c), i)
  {
  }

  lemma PushNodes(s: State, i: nat, g: nat, future: bool)
    requires Aligned(s) && NodeInv(s) && i < |s.pcs| && s.pcs[i] == EnqPush(g, future)
    ensures NodeInv(PushStep(s, i, g, future))
  {
    PushSound(s.nodes, i);
  }

  lemma RemoveNodes(s: State, i: nat, g: nat)
    requires Aligned(s) && NodeInv(s) && i < |s.pcs| && s.pcs[i] == WdRemove(g)
    ensures NodeInv(WdRemoveStep(s, i, g))
  {
    if i in s.nodes.queue {
      RemoveSound(s.nodes, i);
    }
  }

  lemma AwakenNodes(s: State, i: nat, g: nat, future: bool, c: Choice)
    requires Aligned(s) && NodeInv(s) && i < |s.pcs| && s.pcs[i] == Waiting(g, future)
    ensures NodeInv(WaitStep(s, i, g, future, c))
  {
    if s.nodes.places[i].Signaled? {
      ConsumeSound(s.nodes, i);
    }
  }

  lemma SpinNodes(s: State, i: nat)
    requires Aligned(s) && NodeInv(s) && i < |s.pcs| && s.pcs[i].Spin?
    ensures NodeInv(SpinStep(s, i))
  {
    if s.nodes.places[i].Signaled? {
      ConsumeSound(s.nodes, i);
    }
  }

  lemma SignalNodes(s: State, i: nat, g: nat)
    requires Aligned(s) && NodeInv(s) && i < |s.pcs| && s.pcs[i] == Signaling(g)
    ensures NodeInv(SignalStep(s, i, g))
  {
    if s.nodes.hands[i].chain != [] {
      SignalSound(s.nodes, i);
    }
  }

  lemma TakeNodes(s: State, i: nat, g: nat)
    requires Aligned(s) && NodeInv(s) && i < |s.pcs| && s.pcs[i] == RelTake(g) && g < s.bits.gen
    ensures NodeInv(RelTakeStep(s, i, g))
  {
    var gens := Tags(s.nodes.queue, s.auxes);
    var count := While(gens, g);
    WhilePrefix(gens, g);
    PopSound(s.nodes, i, count, All);
    forall k | 0 <= k < count
      ensures s.nodes.places[s.nodes.queue[k]].Queued? && s.auxes[s.nodes.queue[k]] == g
    {
      assert NodeSound(s.nodes, s.nodes.queue[k]) && gens[k] == g;
    }
  }

  lemma NodeStep(s: State, i: nat, c: Choice)
    requires Aligned(s) && ControlInv(s) && NodeInv(s) && TimeInv(s) && i < |s.pcs|
    ensures NodeInv(Step(s, i, c))
  {
    var pc := s.pcs[i];
    if pc.EnqPush? {
      PushNodes(s, i, pc.g, pc.future);
    } else if pc.WdRemove? {
      RemoveNodes(s, i, pc.g);
    } else if pc.Waiting? {
      AwakenNodes(s, i, pc.g, pc.future, c);
    } else if pc.Spin? {
      SpinNodes(s, i);
    } else if pc.RelTake? {
      assert InTime(pc, s.bits.gen);
      TakeNodes(s, i, pc.g);
    } else if pc.Signaling? {
      SignalNodes(s, i, pc.g);
    } else {
      assert Placed(pc, s.nodes.places[i], s.nodes.hands[i], s.auxes[i], s.bits.gen);
      QuietStep(s, i, c);
      QuietKeeps(s, Step(s, i, c), i);
    }
  }

  // ----- rounds -----

  /** The stepping agent neither joins nor leaves the forming round. */
  predicate Steady(s: State, s': State, i: nat) {
    && i < |s.pcs| && |s'.pcs| == |s.pcs| && s'.pcs == s.pcs[i := s'.pcs[i]]
    && s'.n == s.n && s'.bits == s.bits && s'.joins == s.joins && s'.quits == s.quits && s'.leaders == s.leaders
    && Counted(s.bits.gen)(s'.pcs[i]) == Counted(s.bits.gen)(s.pcs[i])
  }

  lemma SteadyKeeps(s: State, s': State, i: nat)
    requires Aligned(s) && Aligned(s') && RoundInv(s) && Steady(s, s', i)
    ensures RoundInv(s')
  {
    SumUpdate(s.pcs, Counted(s.bits.gen), i, s'.pcs[i]);
  }

  lemma SteadyLeading(s: State, i: nat, c: Choice)
    requires Aligned(s) && i < |s.pcs| && (Leading(s.pcs[i]) || s.pcs[i].Idle? || s.pcs[i].ArriveLoad?)
    ensures Steady(s, Step(s, i, c), i)
  {
  }

  lemma SteadyEntering(s: State, i: nat, c: Choice)
    requires Aligned(s) && i < |s.pcs| && InTime(s.pcs[i], s.bits.gen) && Entering(s.pcs[i])
    ensures Steady(s, Step(s, i, c), i)
  {
  }

  lemma SteadyLeaving(s: State, i: nat, c: Choice)
    requires Aligned(s) && i < |s.pcs| && InTime(s.pcs[i], s.bits.gen)
    requires Placed(s.pcs[i], s.nodes.places[i], s.nodes.hands[i], s.auxes[i], s.bits.gen)
    requires !Arriving(s.pcs[i]) && !Leading(s.pcs[i]) && !Entering(s.pcs[i]) && !s.pcs[i].WdCas?
    ensures Steady(s, Step(s, i, c), i)
  {
  }

  lemma JoinRounds(s: State, i: nat, future: bool)
    requires Aligned(s) && TimeInv(s) && RoundInv(s) && i < |s.pcs| && s.pcs[i].ArriveCas?
    ensures RoundInv(Join(s, i, future))
  {
    var s' := Join(s, i, future);
    SumUpdate(s.pcs, Counted(s.bits.gen), i, s'.pcs[i]);
    if s'.bits.gen != s.bits.gen {
      forall k | 0 <= k < |s'.pcs|
        ensures Counted(s'.bits.gen)(s'.pcs[k]) == 0
      {
        assert InTime(s.pcs[k], s.bits.gen);
      }
      SumZero(s'.pcs, Counted(s'.bits.gen));
    }
  }

  /** A withdrawal always finds its own arrival in the count. */
  lemma WithdrawRounds(s: State, i: nat, g: nat, seen: Bits, c: Choice)
    requires Aligned(s) && TimeInv(s) && RoundInv(s) && i < |s.pcs| && s.pcs[i] == WdCas(g, seen)
    ensures RoundInv(WdCasStep(s, i, g, seen, c))
    ensures s.bits.gen == g ==> s.bits.arrived > 0
  {
    var s' := WdCasStep(s, i, g, seen, c);
    assert InTime(s.pcs[i], s.bits.gen);
    SumUpdate(s.pcs, Counted(s.bits.gen), i, s'.pcs[i]);
    SumMember(s.pcs, Counted(s.bits.gen), i);
  }

  lemma SteadyStep(s: State, i: nat, c: Choice)
    requires Aligned(s) && NodeInv(s) && TimeInv(s) && i < |s.pcs| && !s.pcs[i].ArriveCas? && !s.pcs[i].WdCas?
    ensures Steady(s, Step(s, i, c), i)
  {
    assert InTime(s.pcs[i], s.bits.gen);
    assert Placed(s.pcs[i], s.nodes.places[i], s.nodes.hands[i], s.auxes[i], s.bits.gen);
    if Entering(s.pcs[i]) {
      SteadyEntering(s, i, c);
    } else if Arriving(s.pcs[i]) || Leading(s.pcs[i]) {
      SteadyLeading(s, i, c);
    } else {
      SteadyLeaving(s, i, c);
    }
  }

  lemma RoundStep(s: State, i: nat, c: Choice)
    requires Aligned(s) && NodeInv(s) && TimeInv(s) && RoundInv(s) && i < |s.pcs|
    ensures RoundInv(Step(s, i, c))
  {
    var pc := s.pcs[i];
    if pc.ArriveCas? {
      if s.bits == pc.seen && !c.Spurious? {
        JoinRounds(s, i, pc.future);
      } else {
        SteadyKeeps(s, Step(s, i, c), i);
      }
    } else if pc.WdCas? {
      WithdrawRounds(s, i, pc.g, pc.seen, c);
    } else {
      SteadyStep(s, i, c);
      SteadyKeeps(s, Step(s, i, c), i);
    }
  }

  // ----- every run -----

  lemma StepKeeps(s: State, i: nat, c: Choice)
    requires Inv(s)
    ensures Inv(Step(s, i, c))
  {
    if i < |s.pcs| {
      LawfulStep(s, i, c);
      LawfulKeeps(s, Step(s, i, c), i);
      NodeStep(s, i, c);
      RoundStep(s, i, c);
    }
  }

  lemma InitHolds(s: State)
    requires Init(s)
    ensures Inv(s)
  {
    SumZero(s.pcs, Counted(0));
    forall i | 0 <= i < |s.pcs|
      ensures NodeSound(s.nodes, i)
    {
    }
  }

  lemma {:induction false} RunHolds(s: State, schedule: seq<(nat, Choice)>)
    requires Init(s)
    ensures Inv(Run(s, schedule))
    decreases |schedule|
  {
    if schedule == [] {
      InitHolds(s);
    } else {
      var last := schedule[|schedule| - 1];
      RunHolds(s, schedule[..|schedule| - 1]);
      StepKeeps(Run(s, schedule[..|schedule| - 1]), last.0, last.1);
    }
  }

  /** The arrived field is the number of agents that joined the forming round and did not withdraw. */
  lemma ArrivedExact(s: State, schedule: seq<(nat, Choice)>)
    requires Init(s)
    ensures var e := Run(s, schedule);
            e.bits.arrived == Sum(e.pcs, Counted(e.bits.gen)) && e.bits.arrived < e.n
  {
    RunHolds(s, schedule);
  }

  /** Every completed round had exactly one leader and exactly `n` arrivals that were not withdrawn. */
  lemma RoundsComplete(s: State, schedule: seq<(nat, Choice)>)
    requires Init(s)
    ensures var e := Run(s, schedule);
            && |e.leaders| == e.bits.gen
            && (forall g | 0 <= g < e.bits.gen :: e.joins[g] == e.quits[g] + e.n)
  {
    RunHolds(s, schedule);
  }

  // ----- one leader per round -----

  function LeaderNow(g: nat): Pc -> int {
    (pc: Pc) => if (Leading(pc) || Waking(pc)) && Round(pc) == g then 1 else 0
  }

  function LeaderDone(g: nat): Result -> int {
    (r: Result) => if r.leader && r.g == g then 1 else 0
  }

  function Over(s: State, g: nat): int { if g < s.bits.gen then 1 else 0 }

  /** Round `g` has one leader, at work or returned, once it is over, and none before. */
  predicate OneLeader(s: State, g: nat) {
    Sum(s.pcs, LeaderNow(g)) + Sum(s.results, LeaderDone(g)) == Over(s, g)
  }

  /** The step makes a leader exactly when it completes the round, and records it when it returns. */
  predicate Headed(s: State, s': State, i: nat, g: nat) {
    && i < |s.pcs| && |s'.pcs| == |s.pcs| && s'.pcs == s.pcs[i := s'.pcs[i]]
    && var gain := LeaderNow(g)(s'.pcs[i]) - LeaderNow(g)(s.pcs[i]);
    || (s'.results == s.results && gain == Over(s', g) - Over(s, g))
    || (|s'.results| == |s.results| + 1 && s'.results == s.results + [s'.results[|s.results|]]
        && gain + LeaderDone(g)(s'.results[|s.results|]) == Over(s', g) - Over(s, g))
  }

  lemma HeadedKeeps(s: State, s': State, i: nat, g: nat)
    requires OneLeader(s, g) && Headed(s, s', i, g)
    ensures OneLeader(s', g)
  {
    SumUpdate(s.pcs, LeaderNow(g), i, s'.pcs[i]);
    if s'.results != s.results {
      SumAppend(s.results, LeaderDone(g), s'.results[|s.results|]);
    }
  }

  lemma HeadedArriving(s: State, i: nat, c: Choice, g: nat)
    requires Aligned(s) && i < |s.pcs| && (Arriving(s.pcs[i]) || Leading(s.pcs[i]))
    ensures Headed(s, Step(s, i, c), i, g)
  {
  }

  lemma HeadedEntering(s: State, i: nat, c: Choice, g: nat)
    requires Aligned(s) && i < |s.pcs| && Entering(s.pcs[i])
    ensures Headed(s, Step(s, i, c), i, g)
  {
  }

  lemma HeadedLeaving(s: State, i: nat, c: Choice, g: nat)
    requires Aligned(s) && i < |s.pcs| && !Arriving(s.pcs[i]) && !Leading(s.pcs[i]) && !Entering(s.pcs[i])
    ensures Headed(s, Step(s, i, c), i, g)
  {
  }

  /** Exactly one wait per completed round is, or will be, told that it was the leader. */
  lemma {:induction false} ExactlyOneLeader(s: State, schedule: seq<(nat, Choice)>, g: nat)
    requires Init(s)
    ensures OneLeader(Run(s, schedule), g)
    decreases |schedule|
  {
    if schedule == [] {
      SumZero(s.pcs, LeaderNow(g));
    } else {
      var e := Run(s, schedule[..|schedule| - 1]);
      var last := schedule[|schedule| - 1];
      ExactlyOneLeader(s, schedule[..|schedule| - 1], g);
      if last.0 < |e.pcs| {
        if Arriving(e.pcs[last.0]) || Leading(e.pcs[last.0]) {
          HeadedArriving(e, last.0, last.1, g);
        } else if Entering(e.pcs[last.0]) {
          HeadedEntering(e, last.0, last.1, g);
        } else {
          HeadedLeaving(e, last.0, last.1, g);
        }
        HeadedKeeps(e, Step(e, last.0, last.1), last.0, g);
      }
    }
  }

  /** Nobody returns before the round it joined has completed. */
  lemma NoEarlyReturn(s: State, schedule: seq<(nat, Choice)>)
    requires Init(s)
    ensures var e := Run(s, schedule);
            forall k | 0 <= k < |e.results| :: e.results[k].g < e.bits.gen
  {
    RunHolds(s, schedule);
  }

  /** The debug assertion of the withdrawal holds: there is an arrival to take back. */
  lemma WithdrawalSafe(s: State, schedule: seq<(nat, Choice)>, i: nat)
    requires Init(s)
    requires i < |Run(s, schedule).pcs| && Run(s, schedule).pcs[i].WdCas?
    ensures var e := Run(s, schedule);
            e.bits == e.pcs[i].seen ==> e.bits.arrived > 0
  {
    RunHolds(s, schedule);
    var e := Run(s, schedule);
    assert InTime(e.pcs[i], e.bits.gen);
    WithdrawRounds(e, i, e.pcs[i].g, e.pcs[i].seen, Go);
  }
}

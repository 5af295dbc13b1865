/** How every wait at the barrier ends, and that it ends as soon as it can. */
module BarrierOutcomes {
  import opened WaitWord
  import opened WaitNodes
  import opened Generations
  import opened Barrier
  import opened BarrierProof
  import opened BarrierStranding

  // ----- arriving and withdrawing -----

  /** The compare-exchange counts the arrival in; the last one completes the round and leads it. */
  predicate Arrived(s: State, s': State, i: nat, future: bool, counted: bool)
    requires i < |s.pcs|
  {
    && |s'.pcs| == |s.pcs|
    && s'.nodes == s.nodes && s'.results == s.results
    && (if !counted then
          s'.bits == s.bits && s'.pcs[i] == ArriveCas(future, s.bits)
        else if s.bits.arrived + 1 == s.n then
          s'.bits == Bits(s.bits.gen + 1, 0) && s'.pcs[i] == RelLock(s.bits.gen) && s'.leaders == s.leaders + [i]
        else
          s'.bits == Bits(s.bits.gen, s.bits.arrived + 1) && s'.pcs[i] == EnqLock(s.bits.gen, future))
  }

  /** An arrival is counted exactly once, and it leads the round if and only if it is the last of the parties. */
  lemma ArriveOutcome(s: State, schedule: seq<(nat, Choice)>, i: nat, future: bool, seen: Bits, c: Choice)
    requires Init(s) && i < |Run(s, schedule).pcs| && Run(s, schedule).pcs[i] == ArriveCas(future, seen)
    ensures var e := Run(s, schedule);
            Arrived(e, Step(e, i, c), i, future, e.bits == seen && !c.Spurious?)
  {
    RunHolds(s, schedule);
  }

  /** A wait left alone is counted into the forming round within three steps. */
  lemma WaitArrives(s: State, schedule: seq<(nat, Choice)>, i: nat, future: bool)
    requires Init(s) && i < |Run(s, schedule).pcs| && Run(s, schedule).pcs[i].Idle?
    ensures var e := Run(s, schedule);
            Arrived(e, Step(Step(Step(e, i, Begin(future)), i, Go), i, Go), i, future, true)
  {
    RunHolds(s, schedule);
  }

  /** A dropped wait takes its arrival back if the round is still forming, and otherwise nothing. */
  predicate Withdrawn(s: State, s': State, i: nat, g: nat, counted: bool)
    requires i < |s.pcs|
  {
    && |s'.pcs| == |s.pcs| && s'.nodes == s.nodes && s'.results == s.results
    && (if s.bits.gen != g then s'.pcs[i] == Spin(g) && s'.bits == s.bits
        else if !counted then s'.pcs[i] == WdCas(g, s.bits) && s'.bits == s.bits
        else s'.pcs[i] == WdLock(g) && s.bits.arrived > 0 && s'.bits == Bits(g, s.bits.arrived - 1))
  }

  lemma WithdrawOutcome(s: State, schedule: seq<(nat, Choice)>, i: nat, c: Choice)
    requires Init(s) && i < |Run(s, schedule).pcs|
    requires Run(s, schedule).pcs[i].WdLoad? || Run(s, schedule).pcs[i].WdCas?
    ensures var e := Run(s, schedule);
            var pc := e.pcs[i];
            Withdrawn(e, Step(e, i, c), i, pc.g, pc.WdCas? && e.bits == pc.seen && !c.Spurious?)
  {
    RunHolds(s, schedule);
    var e := Run(s, schedule);
    assert InTime(e.pcs[i], e.bits.gen);
    if e.pcs[i].WdCas? {
      WithdrawRounds(e, i, e.pcs[i].g, e.pcs[i].seen, c);
    }
  }

  // ----- how a wait ends -----

  predicate Leads(pc: Pc) { Leading(pc) || Waking(pc) }

  /** The agent waits in a round it was counted into, and its future, if it is one, has not been dropped. */
  predicate InRound(pc: Pc) {
    || Leads(pc) || pc.EnqLock? || pc.EnqCheck? || pc.EnqPush? || pc.Waiting?
    || (pc.Unlock? && (pc.next.Park? || pc.next.Done?))
  }

  /** The wait goes on in its round, returns with the result of its round, or is dropped. */
  predicate WaitGoesOn(s: State, s': State, i: nat, c: Choice)
    requires i < |s.pcs| && InRound(s.pcs[i])
  {
    && |s'.pcs| == |s.pcs|
    && var pc, pc' := s.pcs[i], s'.pcs[i];
    var dropped := pc.Waiting? && pc.future && c.Abandon?;
    if dropped then
      s'.results == s.results && (pc' == WdLoad(pc.g) || pc'.Idle?)
    else if InRound(pc') then
      s'.results == s.results && Round(pc') == Round(pc) && (Leads(pc') <==> Leads(pc))
    else
      pc'.Idle? && s'.results == s.results + [Result(Round(pc), Leads(pc))] && Round(pc) < s.bits.gen
  }

  lemma LeadGoesOn(s: State, i: nat, c: Choice)
    requires Aligned(s) && i < |s.pcs| && Leading(s.pcs[i]) && InTime(s.pcs[i], s.bits.gen)
    ensures WaitGoesOn(s, Step(s, i, c), i, c)
  {
  }

  lemma EnterGoesOn(s: State, i: nat, c: Choice)
    requires Aligned(s) && i < |s.pcs| && Entering(s.pcs[i]) && InRound(s.pcs[i]) && InTime(s.pcs[i], s.bits.gen)
    ensures WaitGoesOn(s, Step(s, i, c), i, c)
  {
  }

  lemma AwakenGoesOn(s: State, i: nat, c: Choice)
    requires Aligned(s) && i < |s.pcs| && s.pcs[i].Waiting?
    requires Placed(s.pcs[i], s.nodes.places[i], s.nodes.hands[i], s.auxes[i], s.bits.gen)
    ensures WaitGoesOn(s, Step(s, i, c), i, c)
  {
  }

  /**
    A wait that was counted in stays in its round until it returns, after the round has completed, with the
    one result that belongs to it: the leader's if it is the leader, and otherwise a follower's. Only a
    dropped one ends without a result.
   */
  lemma WaitOutcome(s: State, schedule: seq<(nat, Choice)>, i: nat, c: Choice)
    requires Init(s) && i < |Run(s, schedule).pcs| && InRound(Run(s, schedule).pcs[i])
    ensures WaitGoesOn(Run(s, schedule), Step(Run(s, schedule), i, c), i, c)
  {
    RunHolds(s, schedule);
    var e := Run(s, schedule);
    assert InTime(e.pcs[i], e.bits.gen);
    if Leading(e.pcs[i]) {
      LeadGoesOn(e, i, c);
    } else if Entering(e.pcs[i]) {
      EnterGoesOn(e, i, c);
    } else {
      assert Placed(e.pcs[i], e.nodes.places[i], e.nodes.hands[i], e.auxes[i], e.bits.gen);
      AwakenGoesOn(e, i, c);
    }
  }

  /** A dropped wait never returns a result. */
  lemma DroppedSilently(s: State, schedule: seq<(nat, Choice)>, i: nat, c: Choice)
    requires Init(s) && i < |Run(s, schedule).pcs| && !InRound(Run(s, schedule).pcs[i])
    ensures Step(Run(s, schedule), i, c).results == Run(s, schedule).results
  {
  }

  // ----- nobody waits needlessly -----

  predicate Locks(pc: Pc) { pc.RelLock? || pc.EnqLock? || pc.WdLock? }

  /** The agent has nothing to do, needs the lock another one holds, or waits for a signal. */
  predicate Resting(s: State, i: nat)
    requires Aligned(s) && i < |s.pcs|
  {
    || s.pcs[i].Idle?
    || (Locks(s.pcs[i]) && s.lock.Held?)
    || ((s.pcs[i].Waiting? || s.pcs[i].Spin?) && !s.nodes.places[i].Signaled?)
  }

  function ThenRank(chain: nat, next: Then): nat {
    match next
    case Done(_) => 1
    case Park(_, _) => 3
    case WakeAll(_) => 2 + chain
    case SpinOn(_) => 3
    case Leave => 3
  }

  /** How many steps agent `i` needs at most until it rests, if nobody else moves. */
  function Rank(s: State, i: nat): nat
    requires Aligned(s) && i < |s.pcs|
  {
    var q, chain := |s.nodes.queue|, |s.nodes.hands[i].chain|;
    match s.pcs[i]
    case Idle => 0
    case ArriveLoad(_) => 12 + q
    case ArriveCas(_, seen) => if s.bits == seen then 10 + q else 11 + q
    case RelLock(_) => 5 + q
    case RelTake(_) => 4 + q
    case Signaling(_) => 1 + chain
    case EnqLock(_, _) => 7
    case EnqCheck(_, _) => 6
    case EnqPush(_, _) => 5
    case Unlock(next) => ThenRank(chain, next)
    case Waiting(_, _) => 1
    case WdLoad(_) => 9
    case WdCas(g, seen) => if s.bits == seen then 7 else 8
    case WdLock(_) => 6
    case WdRemove(_) => 5
    case Spin(_) => 1
  }

  predicate Nearer(s: State, s': State, i: nat)
    requires Aligned(s) && Aligned(s') && i < |s.pcs|
  {
    |s'.pcs| == |s.pcs| && Rank(s', i) < Rank(s, i)
  }

  lemma ArriveNearer(s: State, i: nat)
    requires Aligned(s) && i < |s.pcs| && (s.pcs[i].ArriveLoad? || s.pcs[i].ArriveCas?)
    ensures Nearer(s, Step(s, i, Go), i)
  {
  }

  lemma LeadNearer(s: State, i: nat)
    requires Aligned(s) && i < |s.pcs| && !Resting(s, i) && Leading(s.pcs[i])
    ensures Nearer(s, Step(s, i, Go), i)
  {
    WhilePrefix(Tags(s.nodes.queue, s.auxes), Round(s.pcs[i]));
  }

  lemma EnterNearer(s: State, i: nat)
    requires Aligned(s) && i < |s.pcs| && !Resting(s, i) && Entering(s.pcs[i])
    ensures Nearer(s, Step(s, i, Go), i)
  {
  }

  lemma LeaveNearer(s: State, i: nat)
    requires Aligned(s) && i < |s.pcs| && !Resting(s, i)
    requires s.pcs[i].WdCas? && s.bits.gen == s.pcs[i].g ==> s.bits.arrived > 0
    requires !Arriving(s.pcs[i]) && !Leading(s.pcs[i]) && !Entering(s.pcs[i])
    ensures Nearer(s, Step(s, i, Go), i)
  {
  }

  /** An agent that is not resting gets nearer to its rest with every step; one that rests stays as it is. */
  lemma Advances(s: State, i: nat)
    requires Inv(s) && i < |s.pcs|
    ensures if Resting(s, i) then Step(s, i, Go) == s else Nearer(s, Step(s, i, Go), i)
  {
    var pc := s.pcs[i];
    if Resting(s, i) {
    } else if Arriving(pc) {
      ArriveNearer(s, i);
    } else if Leading(pc) {
      LeadNearer(s, i);
    } else if Entering(pc) {
      EnterNearer(s, i);
    } else {
      WithdrawReady(s, i);
      LeaveNearer(s, i);
    }
  }

  lemma WithdrawReady(s: State, i: nat)
    requires Aligned(s) && TimeInv(s) && RoundInv(s) && i < |s.pcs|
    ensures s.pcs[i].WdCas? && s.bits.gen == s.pcs[i].g ==> s.bits.arrived > 0
  {
    if s.pcs[i].WdCas? {
      WithdrawRounds(s, i, s.pcs[i].g, s.pcs[i].seen, Go);
    }
  }

  /** `n` steps of agent `i` alone. */
  function Alone(s: State, i: nat, n: nat): (r: State)
    requires Aligned(s)
    ensures Aligned(r) && |r.pcs| == |s.pcs|
    decreases n
  {
    if n == 0 then s else Alone(Step(s, i, Go), i, n - 1)
  }

  lemma {:induction false} StaysPut(s: State, i: nat, n: nat)
    requires Aligned(s) && Step(s, i, Go) == s
    ensures Alone(s, i, n) == s
    decreases n
  {
    if n > 0 {
      StaysPut(s, i, n - 1);
    }
  }

  lemma {:induction false} RestsSoon(s: State, i: nat, n: nat)
    requires Inv(s) && i < |s.pcs| && Rank(s, i) <= n
    ensures Resting(Alone(s, i, n), i)
    decreases n
  {
    Advances(s, i);
    if Resting(s, i) {
      StaysPut(s, i, n);
    } else {
      StepKeeps(s, i, Go);
      RestsSoon(Step(s, i, Go), i, n - 1);
    }
  }

  /**
    From every reachable state, any agent that is left alone comes to rest: it returns, or it finds the lock
    held, or it waits for a signal. The holder of the lock never rests.
   */
  lemma ComesToRest(s: State, schedule: seq<(nat, Choice)>, i: nat)
    requires Init(s) && i < |Run(s, schedule).pcs|
    ensures var e := Run(s, schedule);
            && Resting(Alone(e, i, Rank(e, i)), i)
            && (Resting(e, i) <==> Step(e, i, Go) == e)
            && (e.lock == Held(i) ==> !Resting(e, i))
  {
    RunHolds(s, schedule);
    var e := Run(s, schedule);
    RestsSoon(e, i, Rank(e, i));
    Advances(e, i);
  }

  // ----- when nothing moves any more -----

  predicate Quiescent(s: State)
    requires Aligned(s)
  {
    forall i | 0 <= i < |s.pcs| :: Resting(s, i)
  }

  lemma NobodyLeads(s: State)
    requires Aligned(s) && ControlInv(s) && Quiescent(s)
    ensures !s.lock.Held?
    ensures forall j | 0 <= j < |s.pcs| :: !Leading(s.pcs[j]) && !Waking(s.pcs[j])
  {
    forall i | 0 <= i < |s.pcs|
      ensures s.lock != Held(i)
    {
      assert Resting(s, i) ==> !HoldsLock(s.pcs[i]);
    }
    assert forall j | 0 <= j < |s.pcs| :: Resting(s, j) ==> !Leading(s.pcs[j]) && !Waking(s.pcs[j]);
  }

  /** Whoever gave up looking for its node belongs to a completed round. */
  predicate Belated(pc: Pc, gen: nat) { pc.Spin? || (pc.Unlock? && pc.next.SpinOn?) ==> Round(pc) < gen }

  lemma EarlyBelated(s: State, i: nat, c: Choice)
    requires Aligned(s) && i < |s.pcs| && Belated(s.pcs[i], s.bits.gen)
    requires Arriving(s.pcs[i]) || Leading(s.pcs[i]) || Entering(s.pcs[i])
    ensures Belated(Step(s, i, c).pcs[i], Step(s, i, c).bits.gen)
  {
  }

  lemma LateBelated(s: State, i: nat, c: Choice)
    requires Aligned(s) && i < |s.pcs| && Belated(s.pcs[i], s.bits.gen)
    requires !Arriving(s.pcs[i]) && !Leading(s.pcs[i]) && !Entering(s.pcs[i])
    requires InTime(s.pcs[i], s.bits.gen) && NodeSound(s.nodes, i) && (s.lock == Null ==> s.nodes.queue == [])
    requires Placed(s.pcs[i], s.nodes.places[i], s.nodes.hands[i], s.auxes[i], s.bits.gen)
    ensures Belated(Step(s, i, c).pcs[i], Step(s, i, c).bits.gen)
  {
  }

  lemma BelatedStep(s: State, i: nat, c: Choice)
    requires Inv(s) && i < |s.pcs| && Belated(s.pcs[i], s.bits.gen)
    ensures Belated(Step(s, i, c).pcs[i], Step(s, i, c).bits.gen)
  {
    if Arriving(s.pcs[i]) || Leading(s.pcs[i]) || Entering(s.pcs[i]) {
      EarlyBelated(s, i, c);
    } else {
      assert InTime(s.pcs[i], s.bits.gen) && NodeSound(s.nodes, i);
      assert Placed(s.pcs[i], s.nodes.places[i], s.nodes.hands[i], s.auxes[i], s.bits.gen);
      LateBelated(s, i, c);
    }
  }

  lemma {:induction false} RunBelated(s: State, schedule: seq<(nat, Choice)>, i: nat)
    requires Init(s) && i < |s.pcs|
    ensures Belated(Run(s, schedule).pcs[i], Run(s, schedule).bits.gen)
    decreases |schedule|
  {
    if schedule != [] {
      var e := Run(s, schedule[..|schedule| - 1]);
      var last := schedule[|schedule| - 1];
      RunBelated(s, schedule[..|schedule| - 1], i);
      RunHolds(s, schedule[..|schedule| - 1]);
      if last.0 == i {
        BelatedStep(e, i, last.1);
      } else if last.0 < |e.pcs| {
        LawfulStep(e, last.0, last.1);
      }
    }
  }

  /**
    No deadlock: with at most `n + 1` waits in progress, when no agent can move, whoever is not idle stands in
    the queue of the round now forming, and the parties of that round are not complete.
   */
  lemma StopsOnlyForArrivals(s: State, schedule: seq<(nat, Choice)>, i: nat)
    requires Init(s) && Within(s, schedule, s.n + 1) && Quiescent(Run(s, schedule)) && i < |s.pcs|
    ensures var e := Run(s, schedule);
            && !e.lock.Held? && e.bits.arrived < e.n
            && (e.pcs[i].Idle? || (e.pcs[i].Waiting? && i in e.nodes.queue && Round(e.pcs[i]) == e.bits.gen))
  {
    RunHolds(s, schedule);
    RunBelated(s, schedule, i);
    var e := Run(s, schedule);
    NobodyLeads(e);
    assert Resting(e, i);
    if !e.pcs[i].Idle? {
      NobodyLeftBehind(s, schedule, i);
    }
  }
}

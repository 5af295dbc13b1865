/**
  The exact condition under which no waiter of a completed round is left behind, for every barrier size
  and every bound on the waits in progress.
 */
module BarrierStranding {
  import opened Schedules
  import opened WaitList
  import opened WaitNodes
  import opened Generations
  import opened Barrier
  import opened BarrierProof
  import opened BarrierRelease

  /** Neither at the end of the schedule nor at any point before are more than `b` waits in progress. */
  predicate Within(s: State, schedule: seq<(nat, Choice)>, b: nat)
    requires Aligned(s)
  {
    Crowd(Run(s, schedule)) <= b && (schedule == [] || Within(s, schedule[..|schedule| - 1], b))
  }

  lemma StepSizes(s: State, i: nat, c: Choice)
    requires Aligned(s)
    ensures Step(s, i, c).n == s.n && |Step(s, i, c).pcs| == |s.pcs|
  {
  }

  lemma {:induction false} RunSizes(s: State, schedule: seq<(nat, Choice)>)
    requires Aligned(s)
    ensures Run(s, schedule).n == s.n && |Run(s, schedule).pcs| == |s.pcs|
    decreases |schedule|
  {
    if schedule != [] {
      var last := schedule[|schedule| - 1];
      RunSizes(s, schedule[..|schedule| - 1]);
      StepSizes(Run(s, schedule[..|schedule| - 1]), last.0, last.1);
    }
  }

  // ----- at most n + 1 waits in progress -----

  lemma InitReleases(s: State)
    requires Init(s)
    ensures ReleaseInv(s)
  {
  }

  lemma {:induction false} BoundedRunHolds(s: State, schedule: seq<(nat, Choice)>)
    requires Init(s) && Within(s, schedule, s.n + 1)
    ensures ReleaseInv(Run(s, schedule))
    decreases |schedule|
  {
    if schedule == [] {
      InitReleases(s);
    } else {
      var shorter := schedule[..|schedule| - 1];
      var last := schedule[|schedule| - 1];
      BoundedRunHolds(s, shorter);
      RunHolds(s, shorter);
      RunSizes(s, shorter);
      if last.0 < |s.pcs| {
        ReleaseStep(Run(s, shorter), last.0, last.1);
      }
    }
  }

  /** With no leader at work, every waiter that is not signaled waits for the round now forming. */
  lemma NobodyLeftBehind(s: State, schedule: seq<(nat, Choice)>, x: nat)
    requires Init(s) && Within(s, schedule, s.n + 1)
    requires var e := Run(s, schedule);
             && x < |e.pcs| && Parked(e.pcs[x]) && !e.nodes.places[x].Signaled?
             && forall j | 0 <= j < |e.pcs| :: !Leading(e.pcs[j]) && !Waking(e.pcs[j])
    ensures var e := Run(s, schedule);
            x in e.nodes.queue && Round(e.pcs[x]) == e.bits.gen
  {
    BoundedRunHolds(s, schedule);
    RunHolds(s, schedule);
    var e := Run(s, schedule);
    assert NodeSound(e.nodes, x);
    assert Placed(e.pcs[x], e.nodes.places[x], e.nodes.hands[x], e.auxes[x], e.bits.gen);
    assert InTime(e.pcs[x], e.bits.gen);
    NobodyStranded(e, x);
  }

  // ----- a single party -----

  /** With `n == 1` every arrival completes its round, so nobody ever waits. */
  predicate Solo(s: State) {
    s.n == 1 && forall i | 0 <= i < |s.pcs| :: Arriving(s.pcs[i]) || Leading(s.pcs[i]) || Waking(s.pcs[i])
  }

  lemma SoloStep(s: State, i: nat, c: Choice)
    requires Aligned(s) && Solo(s)
    ensures Solo(Step(s, i, c))
  {
  }

  lemma {:induction false} SoloRun(s: State, schedule: seq<(nat, Choice)>)
    requires Init(s) && s.n == 1
    ensures Solo(Run(s, schedule))
    decreases |schedule|
  {
    if schedule != [] {
      var last := schedule[|schedule| - 1];
      SoloRun(s, schedule[..|schedule| - 1]);
      SoloStep(Run(s, schedule[..|schedule| - 1]), last.0, last.1);
    }
  }

  lemma SoloQueue(s: State, x: nat)
    requires Inv(s) && Solo(s)
    ensures x !in s.nodes.queue
  {
    if x < |s.pcs| {
      assert NodeSound(s.nodes, x);
      assert Placed(s.pcs[x], s.nodes.places[x], s.nodes.hands[x], s.auxes[x], s.bits.gen);
    }
  }

  // ----- stranded for good -----

  /** Parked, or spinning in the destructor, with no withdrawal under way. */
  predicate Helpless(pc: Pc) {
    (pc.Unlock? && pc.next.Park?) || pc.Waiting? || pc.WdLoad? || pc.WdCas? || pc.Spin?
  }

  predicate Doomed(s: State, x: nat) { Stranded(s, x) && x < |s.pcs| && Helpless(s.pcs[x]) }

  /** No step, of anybody, frees a stranded waiter. */
  lemma DoomedStep(s: State, i: nat, c: Choice, x: nat)
    requires Inv(s) && Doomed(s, x) && i < |s.pcs|
    ensures Doomed(Step(s, i, c), x)
  {
    LawfulStep(s, i, c);
    DoomedLeaders(s, i, c, s.auxes[x]);
    if i == x {
      DoomedSelf(s, c, x);
    } else {
      DoomedQueue(s, i, c, x);
    }
  }

  lemma DoomedSelf(s: State, c: Choice, x: nat)
    requires Inv(s) && Doomed(s, x)
    ensures var s' := Step(s, x, c);
            |s'.pcs| == |s.pcs| && Helpless(s'.pcs[x]) && s'.nodes.queue == s.nodes.queue && s'.auxes == s.auxes
  {
    assert InTime(s.pcs[x], s.bits.gen);
    assert NodeSound(s.nodes, x);
    assert Placed(s.pcs[x], s.nodes.places[x], s.nodes.hands[x], s.auxes[x], s.bits.gen);
  }

  lemma DoomedQueue(s: State, i: nat, c: Choice, x: nat)
    requires Aligned(s) && Sound(s.nodes) && Stranded(s, x) && x < |s.pcs| && i < |s.pcs| && i != x
    ensures x in Step(s, i, c).nodes.queue && |Step(s, i, c).auxes| == |s.auxes|
    ensures Step(s, i, c).auxes[x] == s.auxes[x]
  {
    var pc := s.pcs[i];
    if pc.RelTake? {
      WhilePrefix(Gens(s), pc.g);
      SplitMembers(s.nodes.queue, While(Gens(s), pc.g), x);
      assert forall k | 0 <= k < While(Gens(s), pc.g) :: s.auxes[s.nodes.queue[k]] == Gens(s)[k];
      assert Leads(pc, pc.g);
    } else if pc.WdRemove? {
      if i in s.nodes.queue {
        WithoutMembers(s.nodes.queue, i);
      }
    } else if !pc.RelLock? && !pc.EnqPush? && Step(s, i, c).bits.gen == s.bits.gen {
      CalmStep(s, i, c);
    }
  }

  lemma DoomedLeaders(s: State, i: nat, c: Choice, g: nat)
    requires Aligned(s) && i < |s.pcs| && Lawful(s, Step(s, i, c), i) && !Led(s, g) && g < s.bits.gen
    ensures !Led(Step(s, i, c), g) && g < Step(s, i, c).bits.gen
  {
    var s' := Step(s, i, c);
    assert !Leads(s.pcs[i], g);
    LateLeader(s, i, c, g);
    forall j | 0 <= j < |s'.pcs|
      ensures !Leads(s'.pcs[j], g)
    {
      assert !Leads(s.pcs[j], g);
    }
  }

  /** Nobody becomes the leader of a round that is over. */
  lemma LateLeader(s: State, i: nat, c: Choice, g: nat)
    requires Aligned(s) && i < |s.pcs| && !Leads(s.pcs[i], g) && g < s.bits.gen
    ensures !Leads(Step(s, i, c).pcs[i], g)
  {
  }

  /** A stranded waiter stays where it is, whatever happens afterwards. */
  lemma {:induction false} DoomedForever(s: State, before: seq<(nat, Choice)>, after: seq<(nat, Choice)>, x: nat)
    requires Init(s) && Doomed(Run(s, before), x)
    ensures Doomed(Run(s, before + after), x)
    decreases |after|
  {
    if after == [] {
      assert before + after == before;
    } else {
      var shorter := after[..|after| - 1];
      var last := after[|after| - 1];
      DropLast(before, after);
      DoomedForever(s, before, shorter, x);
      RunHolds(s, before + shorter);
      if last.0 < |Run(s, before + shorter).pcs| {
        DoomedStep(Run(s, before + shorter), last.0, last.1, x);
      }
    }
  }
}

/** The run that strands a waiter with `n + 2` waits in progress, for every `n >= 2`, and the exact theorem. */
module BarrierWitness {
  import opened Ledger
  import opened Schedules
  import opened WaitWord
  import opened WaitNodes
  import opened Generations
  import opened Barrier
  import opened BarrierProof
  import opened BarrierRelease
  import opened BarrierStranding

  ghost predicate Reaches(s: State, t: State)
    requires Aligned(s)
  {
    exists schedule :: Run(s, schedule) == t
  }

  lemma ReachSelf(s: State)
    requires Aligned(s)
    ensures Reaches(s, s)
  {
    assert Run(s, []) == s;
  }

  lemma ReachStep(s: State, t: State, i: nat, c: Choice)
    requires Aligned(s) && Aligned(t) && Reaches(s, t)
    ensures Reaches(s, Step(t, i, c))
  {
    var schedule :| Run(s, schedule) == t;
    var more := schedule + [(i, c)];
    DropAppended(schedule, (i, c));
    assert Run(s, more) == Step(t, i, c);
  }

  /** The states differ in bookkeeping, program counters and the packed word at most. */
  predicate SameQueue(s: State, t: State) {
    t.n == s.n && t.lock == s.lock && t.nodes == s.nodes && t.auxes == s.auxes
  }

  /** An idle agent begins a wait and reads the state word. */
  lemma Load(s: State, t: State, i: nat) returns (u: State)
    requires Aligned(s) && Aligned(t) && Reaches(s, t)
    requires i < |t.pcs| && t.pcs[i] == Idle
    ensures Aligned(u) && Reaches(s, u) && u == Goto(t, i, ArriveCas(false, t.bits))
  {
    var a := Step(t, i, Begin(false));
    ReachStep(s, t, i, Begin(false));
    ReachStep(s, a, i, Go);
    u := Step(a, i, Go);
    assert u.pcs == t.pcs[i := ArriveCas(false, t.bits)];
  }

  /** An idle agent arrives without completing the round. */
  lemma Arrive(s: State, t: State, i: nat) returns (u: State)
    requires Aligned(s) && Aligned(t) && Reaches(s, t)
    requires i < |t.pcs| && t.pcs[i] == Idle && t.bits.arrived + 1 < t.n
    ensures Aligned(u) && Reaches(s, u) && SameQueue(t, u)
    ensures u.bits == t.bits.(arrived := t.bits.arrived + 1)
    ensures u.pcs == t.pcs[i := EnqLock(t.bits.gen, false)]
  {
    var a := Load(s, t, i);
    ReachStep(s, a, i, Go);
    u := Step(a, i, Go);
  }

  /** An idle agent completes the round. */
  lemma Lead(s: State, t: State, i: nat) returns (u: State)
    requires Aligned(s) && Aligned(t) && Reaches(s, t)
    requires i < |t.pcs| && t.pcs[i] == Idle && t.bits.arrived + 1 >= t.n
    ensures Aligned(u) && Reaches(s, u) && SameQueue(t, u)
    ensures u.bits == Bits(t.bits.gen + 1, 0)
    ensures u.pcs == t.pcs[i := RelLock(t.bits.gen)]
  {
    var a := Load(s, t, i);
    ReachStep(s, a, i, Go);
    u := Step(a, i, Go);
  }

  /** An agent that arrived takes the lock and finds its round still forming. */
  lemma Enter(s: State, t: State, i: nat) returns (u: State)
    requires Aligned(s) && Aligned(t) && Reaches(s, t)
    requires i < |t.pcs| && t.pcs[i] == EnqLock(t.bits.gen, false) && !t.lock.Held?
    ensures Aligned(u) && Reaches(s, u) && u == Goto(t, i, EnqPush(t.bits.gen, false)).(lock := Held(i))
  {
    ReachStep(s, t, i, Go);
    var a := Step(t, i, Go);
    ReachStep(s, a, i, Go);
    u := Step(a, i, Go);
    assert u.pcs == t.pcs[i := EnqPush(t.bits.gen, false)];
  }

  /** An idle agent arrives and parks. */
  lemma ParkAgent(s: State, t: State, i: nat) returns (u: State)
    requires Aligned(s) && Aligned(t) && Reaches(s, t)
    requires i < |t.pcs| && t.pcs[i] == Idle && t.bits.arrived + 1 < t.n && !t.lock.Held?
    ensures Aligned(u) && Reaches(s, u)
    ensures u.n == t.n && u.lock == Published && u.bits == t.bits.(arrived := t.bits.arrived + 1)
    ensures u.nodes.queue == t.nodes.queue + [i] && u.nodes.hands == t.nodes.hands
    ensures u.auxes == t.auxes[i := t.bits.gen]
    ensures u.pcs == t.pcs[i := Waiting(t.bits.gen, false)]
  {
    var a := Arrive(s, t, i);
    var b := Enter(s, a, i);
    ReachStep(s, b, i, Go);
    var d := Step(b, i, Go);
    assert d.pcs[i] == Unlock(Park(t.bits.gen, false));
    ReachStep(s, d, i, Go);
    u := Step(d, i, Go);
    assert u.pcs == t.pcs[i := Waiting(t.bits.gen, false)];
  }

  /** An agent that arrived in a round that has since completed finds out and returns. */
  lemma Return(s: State, t: State, i: nat, g: nat) returns (u: State)
    requires Aligned(s) && Aligned(t) && Reaches(s, t)
    requires i < |t.pcs| && t.pcs[i] == EnqLock(g, false) && g != t.bits.gen
    requires t.lock == Published && t.nodes.queue != []
    ensures Aligned(u) && Reaches(s, u) && SameQueue(t, u) && u.bits == t.bits
    ensures u.pcs == t.pcs[i := Idle]
  {
    ReachStep(s, t, i, Go);
    var a := Step(t, i, Go);
    assert a.pcs[i] == EnqCheck(g, false);
    ReachStep(s, a, i, Go);
    var b := Step(a, i, Go);
    assert b.pcs[i] == Unlock(Done(g));
    ReachStep(s, b, i, Go);
    u := Step(b, i, Go);
    assert u.pcs == t.pcs[i := Idle];
  }

  /** A leader whose waiters are hidden behind an older one releases nobody. */
  lemma DrainNothing(s: State, t: State, i: nat, g: nat) returns (u: State)
    requires Aligned(s) && Aligned(t) && Reaches(s, t)
    requires i < |t.pcs| && t.pcs[i] == RelLock(g) && t.lock == Published && t.nodes.queue != []
    requires While(Gens(t), g) == 0
    ensures Aligned(u) && Reaches(s, u)
    ensures u.n == t.n && u.bits == t.bits && u.lock == Published && u.auxes == t.auxes
    ensures u.nodes.queue == t.nodes.queue
    ensures u.pcs == t.pcs[i := Idle]
  {
    ReachStep(s, t, i, Go);
    var a := Step(t, i, Go);
    assert a.pcs[i] == RelTake(g);
    ReachStep(s, a, i, Go);
    var b := Step(a, i, Go);
    assert b.pcs[i] == Unlock(WakeAll(g)) && b.nodes.hands[i].chain == [];
    ReachStep(s, b, i, Go);
    var d := Step(b, i, Go);
    assert d.pcs[i] == Signaling(g);
    ReachStep(s, d, i, Go);
    u := Step(d, i, Go);
    assert u.pcs == t.pcs[i := Idle];
  }

  /** A leader pops the waiters of its own round. */
  lemma Drain(s: State, t: State, i: nat, g: nat) returns (u: State)
    requires Aligned(s) && Aligned(t) && Reaches(s, t)
    requires i < |t.pcs| && t.pcs[i] == RelLock(g) && t.lock == Published
    ensures Aligned(u) && Reaches(s, u)
    ensures u.bits == t.bits && u.auxes == t.auxes
    ensures u.nodes.queue == t.nodes.queue[While(Gens(t), g)..]
    ensures u.pcs == t.pcs[i := Unlock(WakeAll(g))]
  {
    ReachStep(s, t, i, Go);
    var a := Step(t, i, Go);
    assert a.pcs[i] == RelTake(g);
    ReachStep(s, a, i, Go);
    u := Step(a, i, Go);
    assert u.pcs == t.pcs[i := Unlock(WakeAll(g))];
  }

  /** The first `m` agents arrive, one after the other. */
  lemma {:induction false} FillersArrive(s: State, t: State, m: nat) returns (u: State)
    requires Aligned(s) && Aligned(t) && Reaches(s, t)
    requires m <= |t.pcs| && t.bits.arrived + m < t.n
    requires forall j | 0 <= j < m :: t.pcs[j] == Idle
    ensures Aligned(u) && Reaches(s, u) && SameQueue(t, u)
    ensures u.bits == t.bits.(arrived := t.bits.arrived + m)
    ensures |u.pcs| == |t.pcs|
    ensures forall j | 0 <= j < |t.pcs| :: u.pcs[j] == if j < m then EnqLock(t.bits.gen, false) else t.pcs[j]
    decreases m
  {
    if m == 0 {
      u := t;
    } else {
      var a := FillersArrive(s, t, m - 1);
      u := Arrive(s, a, m - 1);
    }
  }

  /** The first `m` agents return from a completed round. */
  lemma {:induction false} FillersReturn(s: State, t: State, m: nat, g: nat) returns (u: State)
    requires Aligned(s) && Aligned(t) && Reaches(s, t)
    requires m <= |t.pcs| && g != t.bits.gen && t.lock == Published && t.nodes.queue != []
    requires forall j | 0 <= j < m :: t.pcs[j] == EnqLock(g, false)
    ensures Aligned(u) && Reaches(s, u) && SameQueue(t, u) && u.bits == t.bits
    ensures |u.pcs| == |t.pcs|
    ensures forall j | 0 <= j < |t.pcs| :: u.pcs[j] == if j < m then Idle else t.pcs[j]
    decreases m
  {
    if m == 0 {
      u := t;
    } else {
      var a := FillersReturn(s, t, m - 1, g);
      u := Return(s, a, m - 1, g);
    }
  }

  /** A barrier of size `n` with `n + 2` idle agents. */
  function Start(n: nat): (s: State)
    requires n >= 1
    ensures Init(s) && s.n == n && |s.pcs| == n + 2
  {
    State(n, Bits(0, 0), Null,
          Nodes([], seq(n + 2, _ => Out), seq(n + 2, _ => Hand(All, []))),
          seq(n + 2, _ => 0), seq(n + 2, _ => Idle), [0], [0], [], [])
  }

  /** Round 0 completes with one waiter parked and its leader not yet draining. */
  lemma FirstRound(n: nat) returns (t: State)
    requires n >= 2
    ensures Aligned(t) && Reaches(Start(n), t) && t.n == n && t.bits == Bits(1, 0) && t.lock == Published
    ensures |t.pcs| == n + 2 && t.nodes.queue == [n - 2] && t.auxes[n - 2] == 0
    ensures t.pcs[n - 2] == Waiting(0, false) && t.pcs[n - 1] == RelLock(0)
    ensures forall j | 0 <= j < n + 2 && j != n - 2 && j != n - 1 :: t.pcs[j] == Idle
  {
    var s := Start(n);
    ReachSelf(s);
    var a := ParkAgent(s, s, n - 2);
    var b := FillersArrive(s, a, n - 2);
    var d := Lead(s, b, n - 1);
    t := FillersReturn(s, d, n - 2, 0);
  }

  /** A waiter of round 1 parks behind the waiter of round 0. */
  lemma SecondWaiter(n: nat) returns (t: State)
    requires n >= 2
    ensures Aligned(t) && Reaches(Start(n), t) && t.n == n && t.bits == Bits(1, 1) && t.lock == Published
    ensures |t.pcs| == n + 2 && t.nodes.queue == [n - 2, n] && t.auxes[n - 2] == 0 && t.auxes[n] == 1
    ensures t.pcs[n - 2] == Waiting(0, false) && t.pcs[n - 1] == RelLock(0) && t.pcs[n] == Waiting(1, false)
    ensures forall j | 0 <= j < n + 2 && j != n - 2 && j != n - 1 && j != n :: t.pcs[j] == Idle
  {
    var a := FirstRound(n);
    t := ParkAgent(Start(n), a, n);
  }

  /** Round 1 completes too, while the leader of round 0 is still about to drain. */
  lemma SecondRound(n: nat) returns (t: State)
    requires n >= 2
    ensures Aligned(t) && Reaches(Start(n), t) && t.bits == Bits(2, 0) && t.lock == Published
    ensures |t.pcs| == n + 2 && t.nodes.queue == [n - 2, n] && t.auxes[n - 2] == 0 && t.auxes[n] == 1
    ensures t.pcs[n - 1] == RelLock(0) && t.pcs[n] == Waiting(1, false) && t.pcs[n + 1] == RelLock(1)
    ensures forall j | 0 <= j < n + 1 && j != n - 1 :: !Leading(t.pcs[j])
  {
    var a := SecondWaiter(n);
    var b := FillersArrive(Start(n), a, n - 2);
    t := Lead(Start(n), b, n + 1);
  }

  /** The leader of round 1, stopped by the older waiter, drains first and releases nobody. */
  lemma IdleDrain(n: nat) returns (t: State)
    requires n >= 2
    ensures Aligned(t) && Reaches(Start(n), t) && t.bits == Bits(2, 0) && t.lock == Published
    ensures |t.pcs| == n + 2 && t.nodes.queue == [n - 2, n] && t.auxes[n - 2] == 0 && t.auxes[n] == 1
    ensures t.pcs[n - 1] == RelLock(0) && t.pcs[n] == Waiting(1, false)
    ensures forall j | 0 <= j < n + 2 && j != n - 1 :: !Leading(t.pcs[j])
  {
    var a := SecondRound(n);
    assert Gens(a) == [0, 1];
    t := DrainNothing(Start(n), a, n + 1, 1);
  }

  /** For every size of at least two, `n + 2` waits in progress can strand a waiter for good. */
  lemma Strands(n: nat) returns (schedule: seq<(nat, Choice)>, x: nat)
    requires n >= 2
    ensures Doomed(Run(Start(n), schedule), x)
    ensures forall b: nat | b >= n + 2 :: Within(Start(n), schedule, b)
  {
    var s := Start(n);
    var a := IdleDrain(n);
    var t := Drain(s, a, n - 1, 0);
    x := n;
    assert Gens(a) == [0, 1];
    assert While([0, 1], 0) == 1 by {
      assert [0, 1][1..] == [1];
    }
    assert t.nodes.queue == [n];
    forall j | 0 <= j < |t.pcs|
      ensures !Leads(t.pcs[j], 1)
    {
      assert j != n - 1 ==> !Leading(a.pcs[j]);
    }
    schedule :| Run(s, schedule) == t;
    forall b: nat | b >= n + 2
      ensures Within(s, schedule, b)
    {
      CrowdFits(s, schedule, b);
    }
  }

  lemma {:induction false} CrowdFits(s: State, schedule: seq<(nat, Choice)>, b: nat)
    requires Aligned(s) && |s.pcs| <= b
    ensures Within(s, schedule, b)
    decreases |schedule|
  {
    RunSizes(s, schedule);
    CrowdBound(Run(s, schedule).pcs);
    if schedule != [] {
      CrowdFits(s, schedule[..|schedule| - 1], b);
    }
  }

  lemma {:induction false} WithinMore(s: State, schedule: seq<(nat, Choice)>, b: nat, more: nat)
    requires Aligned(s) && Within(s, schedule, b) && b <= more
    ensures Within(s, schedule, more)
    decreases |schedule|
  {
    if schedule != [] {
      WithinMore(s, schedule[..|schedule| - 1], b, more);
    }
  }

  lemma {:induction false} CrowdBound(pcs: seq<Pc>)
    ensures Sum(pcs, Active) <= |pcs|
  {
    if pcs != [] {
      CrowdBound(pcs[..|pcs| - 1]);
    }
  }

  // ----- the exact condition -----

  /** In no run of a barrier built with `size` and at most `b` waits in progress is a waiter stranded. */
  ghost predicate NeverStrands(size: nat, b: nat) {
    forall s: State, schedule: seq<(nat, Choice)>, x: nat ::
      Init(s) && s.n == Parties(size) && Within(s, schedule, b) ==> !Stranded(Run(s, schedule), x)
  }

  lemma FewWaits(s: State, schedule: seq<(nat, Choice)>, b: nat, x: nat)
    requires Init(s) && Within(s, schedule, b) && (s.n == 1 || b <= s.n + 1)
    ensures !Stranded(Run(s, schedule), x)
  {
    if s.n == 1 {
      RunHolds(s, schedule);
      SoloRun(s, schedule);
      SoloQueue(Run(s, schedule), x);
    } else {
      WithinMore(s, schedule, b, s.n + 1);
      BoundedRunHolds(s, schedule);
      NobodyStranded(Run(s, schedule), x);
    }
  }

  /** No waiter is ever left behind if and only if the barrier has one party or at most `size + 1` waits overlap. */
  lemma StrandingThreshold(size: nat, b: nat)
    ensures NeverStrands(size, b) <==> size <= 1 || b <= size + 1
  {
    if size <= 1 || b <= size + 1 {
      forall s: State, schedule: seq<(nat, Choice)>, x: nat
          | Init(s) && s.n == Parties(size) && Within(s, schedule, b)
        ensures !Stranded(Run(s, schedule), x)
      {
        FewWaits(s, schedule, b, x);
      }
    } else {
      var schedule, x := Strands(size);
      assert Within(Start(size), schedule, b) && Stranded(Run(Start(size), schedule), x);
    }
  }
}

/** The barrier word as the machine sees it: the generation in the upper half, the arrivals in the lower. */
module PackedBarrier {
  import opened Barrier
  import opened BarrierProof
  import opened BarrierStranding

  const HALF: nat := 0x1_0000_0000
  const WORD: nat := 0x1_0000_0000_0000_0000
  const ARRIVED_MASK: nat := HALF - 1

  function Pack(b: Bits): nat { b.gen % HALF * HALF + b.arrived }

  /** Words are equal exactly when the arrivals are and the generations are a multiple of 2^32 apart. */
  lemma PackInjective(a: Bits, b: Bits)
    requires a.arrived < HALF && b.arrived < HALF
    ensures Pack(a) == Pack(b) <==> a.gen % HALF == b.gen % HALF && a.arrived == b.arrived
    ensures Pack(a) < WORD && Pack(a) / HALF == a.gen % HALF && Pack(a) % HALF == a.arrived
  {
    assert Pack(a) / HALF == a.gen % HALF;
    assert Pack(b) / HALF == b.gen % HALF;
  }

  /** The word `arrive` tries to store: the next generation, or one more arrival. */
  function Arrived(w: nat, n: nat): nat {
    if w % HALF + 1 >= n then (w / HALF + 1) * HALF % WORD else w + 1
  }

  /** The fields after the successful compare-exchange. */
  function JoinBits(b: Bits, n: nat): Bits {
    if b.arrived + 1 >= n then Bits(b.gen + 1, 0) else b.(arrived := b.arrived + 1)
  }

  /** One more arrival never carries into the generation, and the low half is zero exactly for the leader. */
  lemma ArriveIsExact(b: Bits, n: nat)
    requires b.arrived < n <= ARRIVED_MASK
    ensures Arrived(Pack(b), n) == Pack(JoinBits(b, n))
    ensures Arrived(Pack(b), n) % HALF == 0 <==> b.arrived + 1 >= n
  {
    PackInjective(b, b);
    var g := b.gen % HALF;
    assert b.gen == b.gen / HALF * HALF + g;
    if b.arrived + 1 >= n {
      if g + 1 < HALF {
        assert (b.gen + 1) % HALF == g + 1;
      } else {
        assert (b.gen + 1) % HALF == 0;
      }
    } else {
      PackInjective(b.(arrived := b.arrived + 1), b);
    }
  }

  /** One arrival less never borrows from the generation. */
  lemma WithdrawIsExact(b: Bits)
    requires 0 < b.arrived < HALF
    ensures Pack(b) - 1 == Pack(b.(arrived := b.arrived - 1))
    ensures (Pack(b) - 1) / HALF == Pack(b) / HALF
  {
    PackInjective(b, b.(arrived := b.arrived - 1));
    PackInjective(b.(arrived := b.arrived - 1), b);
  }

  // ----- every schedule -----

  predicate HasSeen(pc: Pc) { pc.ArriveCas? || pc.WdCas? }

  /** What an agent compares with was once the word. */
  predicate SeenInv(s: State) {
    && s.bits.arrived < s.n
    && forall i | 0 <= i < |s.pcs| && HasSeen(s.pcs[i]) ::
         s.pcs[i].seen.gen <= s.bits.gen && s.pcs[i].seen.arrived < s.n
  }

  predicate SeenMoves(s: State, s': State, i: nat) {
    && i < |s.pcs| && |s'.pcs| == |s.pcs| && s'.pcs == s.pcs[i := s'.pcs[i]] && s'.n == s.n
    && s.bits.gen <= s'.bits.gen
    && (HasSeen(s'.pcs[i]) ==> s'.pcs[i].seen == s.bits || s'.pcs[i] == s.pcs[i])
  }

  lemma ArriveSeen(s: State, i: nat, c: Choice)
    requires Aligned(s) && i < |s.pcs| && (Arriving(s.pcs[i]) || Leading(s.pcs[i]) || Entering(s.pcs[i]))
    ensures SeenMoves(s, Step(s, i, c), i)
  {
  }

  lemma LeaveSeen(s: State, i: nat, c: Choice)
    requires Aligned(s) && i < |s.pcs| && !Arriving(s.pcs[i]) && !Leading(s.pcs[i]) && !Entering(s.pcs[i])
    ensures SeenMoves(s, Step(s, i, c), i)
  {
  }

  lemma {:induction false} RunSeen(s: State, schedule: seq<(nat, Choice)>)
    requires Init(s)
    ensures SeenInv(Run(s, schedule))
    decreases |schedule|
  {
    RunHolds(s, schedule);
    if schedule != [] {
      var e := Run(s, schedule[..|schedule| - 1]);
      var last := schedule[|schedule| - 1];
      RunSeen(s, schedule[..|schedule| - 1]);
      if last.0 < |e.pcs| {
        if Arriving(e.pcs[last.0]) || Leading(e.pcs[last.0]) || Entering(e.pcs[last.0]) {
          ArriveSeen(e, last.0, last.1);
        } else {
          LeaveSeen(e, last.0, last.1);
        }
      }
    }
  }

  /**
    Whenever the compare-exchange of an arrival or a withdrawal succeeds, the word it stores is the packed
    form of the protocol's next fields, and the test of the low half tells exactly the leader.
   */
  lemma WordIsPacked(s: State, schedule: seq<(nat, Choice)>, i: nat)
    requires Init(s) && s.n <= ARRIVED_MASK && i < |Run(s, schedule).pcs|
    requires HasSeen(Run(s, schedule).pcs[i]) && Run(s, schedule).pcs[i].seen == Run(s, schedule).bits
    ensures var e := Run(s, schedule);
            var e' := Step(e, i, Go);
            if e.pcs[i].ArriveCas? then
              && Pack(e'.bits) == Arrived(Pack(e.bits), e.n)
              && (Arrived(Pack(e.bits), e.n) % HALF == 0 <==> e'.pcs[i].RelLock?)
            else
              Pack(e'.bits) == Pack(e.bits) - 1 && e'.bits.gen == e.bits.gen
  {
    var e := Run(s, schedule);
    RunHolds(s, schedule);
    RunSizes(s, schedule);
    if e.pcs[i].ArriveCas? {
      JoinAt(e, i);
    } else {
      WithdrawalSafe(s, schedule, i);
      WithdrawAt(e, i);
    }
  }

  lemma JoinAt(e: State, i: nat)
    requires Aligned(e) && i < |e.pcs| && e.pcs[i].ArriveCas? && e.pcs[i].seen == e.bits
    requires e.bits.arrived < e.n <= ARRIVED_MASK
    ensures var e' := Step(e, i, Go);
            && i < |e'.pcs| && Pack(e'.bits) == Arrived(Pack(e.bits), e.n)
            && (Arrived(Pack(e.bits), e.n) % HALF == 0 <==> e'.pcs[i].RelLock?)
  {
    ArriveIsExact(e.bits, e.n);
    assert Step(e, i, Go) == Join(e, i, e.pcs[i].future);
    assert Join(e, i, e.pcs[i].future).bits == JoinBits(e.bits, e.n);
  }

  lemma WithdrawAt(e: State, i: nat)
    requires Aligned(e) && i < |e.pcs| && e.pcs[i].WdCas? && e.pcs[i].seen == e.bits && 0 < e.bits.arrived < HALF
    ensures var e' := Step(e, i, Go);
            Pack(e'.bits) == Pack(e.bits) - 1 && e'.bits.gen == e.bits.gen
  {
    WithdrawIsExact(e.bits);
    assert Step(e, i, Go).bits == e.bits.(arrived := e.bits.arrived - 1);
  }

  lemma SameWord(a: Bits, b: Bits)
    requires a.gen <= b.gen < HALF && a.arrived < HALF && b.arrived < HALF
    ensures Pack(a) == Pack(b) <==> a == b
  {
    PackInjective(a, b);
  }

  /** Until the generation has wrapped around once, a compare-exchange on the word is one on the fields. */
  lemma CasAgrees(s: State, schedule: seq<(nat, Choice)>, i: nat)
    requires Init(s) && s.n <= ARRIVED_MASK && i < |Run(s, schedule).pcs| && HasSeen(Run(s, schedule).pcs[i])
    requires Run(s, schedule).bits.gen < HALF
    ensures var e := Run(s, schedule);
            Pack(e.pcs[i].seen) == Pack(e.bits) <==> e.pcs[i].seen == e.bits
  {
    RunSeen(s, schedule);
    RunSizes(s, schedule);
    SameWord(Run(s, schedule).pcs[i].seen, Run(s, schedule).bits);
  }
}

/** The notify word as the machine sees it: `generation << 3 | PERMIT | HAS_QUEUE` in 64 bits. */
module PackedNotify {
  import opened Notify
  import opened NotifyProof

  const WORD: nat := 0x1_0000_0000_0000_0000

  /** The generation field has 61 bits. */
  const GEN_SPACE: nat := 0x2000_0000_0000_0000

  function Pack(b: Bits): nat {
    b.gen % GEN_SPACE * 8 + (if b.permit then 4 else 0) + (if b.hasQueue then 2 else 0)
  }

  /** `state >> GEN_SHIFT`, `state & PERMIT != 0` and `state & HAS_QUEUE != 0`. */
  function Unpack(w: nat): Bits {
    Bits(w / 8, w / 4 % 2 == 1, w / 2 % 2 == 1)
  }

  lemma UnpackPack(b: Bits)
    ensures Unpack(Pack(b)) == b.(gen := b.gen % GEN_SPACE) && Pack(b) < WORD
  {
    var low := (if b.permit then 4 else 0) + (if b.hasQueue then 2 else 0);
    assert Pack(b) == 8 * (b.gen % GEN_SPACE) + low;
    assert Pack(b) / 4 == 2 * (b.gen % GEN_SPACE) + low / 4;
    assert Pack(b) / 2 == 4 * (b.gen % GEN_SPACE) + low / 2;
  }

  /** Words are equal exactly when the flags are and the generations are a multiple of 2^61 apart. */
  lemma PackInjective(a: Bits, b: Bits)
    ensures Pack(a) == Pack(b) <==>
              a.gen % GEN_SPACE == b.gen % GEN_SPACE && a.permit == b.permit && a.hasQueue == b.hasQueue
  {
    UnpackPack(a);
    UnpackPack(b);
  }

  /** What a step writes to the word. */
  datatype WordOp = Untouched | ClearPermit | SetPermit | SetQueue | ClearQueue | NextGen

  function Apply(w: nat, op: WordOp): nat {
    match op
    case Untouched => w
    case ClearPermit => if w / 4 % 2 == 1 then w - 4 else w
    case SetPermit => if w / 4 % 2 == 1 then w else w + 4
    case SetQueue => if w / 2 % 2 == 1 then w else w + 2
    case ClearQueue => if w / 2 % 2 == 1 then w - 2 else w
    case NextGen => (w + 8) % WORD
  }

  function Meaning(b: Bits, op: WordOp): Bits {
    match op
    case Untouched => b
    case ClearPermit => b.(permit := false)
    case SetPermit => b.(permit := true)
    case SetQueue => b.(hasQueue := true)
    case ClearQueue => b.(hasQueue := false)
    case NextGen => b.(gen := b.gen + 1)
  }

  lemma ApplyIsExact(b: Bits, op: WordOp)
    ensures Apply(Pack(b), op) == Pack(Meaning(b, op))
  {
    UnpackPack(b);
    if op.NextGen? {
      NextGenIsExact(b);
    }
  }

  /** A broadcast wraps off the top of the word and leaves both flags alone. */
  lemma NextGenIsExact(b: Bits)
    ensures (Pack(b) + 8) % WORD == Pack(b.(gen := b.gen + 1))
  {
    var g := b.gen % GEN_SPACE;
    assert b.gen == b.gen / GEN_SPACE * GEN_SPACE + g;
    if g + 1 < GEN_SPACE {
      assert (b.gen + 1) % GEN_SPACE == g + 1;
    } else {
      assert (b.gen + 1) % GEN_SPACE == 0;
    }
  }

  /** The read-modify-write that the step of agent `i` performs on the word. */
  function OpOf(s: State, i: nat, c: Choice): WordOp
    requires Aligned(s) && i < |s.pcs|
  {
    match s.pcs[i]
    case TryCas(_, _, _, seen) => if s.bits == seen && !c.Spurious? then ClearPermit else Untouched
    case EnqFlag(_, _) => SetQueue
    case EnqCas(_, _, seen) => if s.bits == seen && !c.Spurious? then ClearPermit else Untouched
    case Unlock(_) => if s.nodes.queue == [] then ClearQueue else Untouched
    case OneCas(seen) => if s.bits == seen then SetPermit else Untouched
    case OneSlowCas(seen) => if s.bits == seen && !c.Spurious? then SetPermit else Untouched
    case AllAdd => NextGen
    case _ => Untouched
  }

  lemma EnterOp(s: State, i: nat, c: Choice)
    requires Aligned(s) && i < |s.pcs| && (Trying(s.pcs[i]) || Entering(s.pcs[i]))
    ensures Step(s, i, c).bits == Meaning(s.bits, OpOf(s, i, c))
  {
  }

  lemma OtherOp(s: State, i: nat, c: Choice)
    requires Aligned(s) && i < |s.pcs| && !Trying(s.pcs[i]) && !Entering(s.pcs[i])
    ensures Step(s, i, c).bits == Meaning(s.bits, OpOf(s, i, c))
  {
  }

  /** After every step the machine word is the packed form of the protocol's fields. */
  lemma WordIsPacked(s: State, i: nat, c: Choice)
    requires Aligned(s) && i < |s.pcs|
    ensures Apply(Pack(s.bits), OpOf(s, i, c)) == Pack(Step(s, i, c).bits)
  {
    if Trying(s.pcs[i]) || Entering(s.pcs[i]) {
      EnterOp(s, i, c);
    } else {
      OtherOp(s, i, c);
    }
    ApplyIsExact(s.bits, OpOf(s, i, c));
  }

  // ----- compare-exchange -----

  predicate HasSeen(pc: Pc) { pc.TryCas? || pc.EnqCas? || pc.OneCas? || pc.OneSlowCas? }

  /** What an agent compares with is not from the future. */
  predicate SeenInv(s: State) {
    forall i | 0 <= i < |s.pcs| :: HasSeen(s.pcs[i]) ==> s.pcs[i].seen.gen <= s.bits.gen
  }

  predicate SeenMoves(s: State, s': State, i: nat) {
    && i < |s.pcs| && |s'.pcs| == |s.pcs| && s'.pcs == s.pcs[i := s'.pcs[i]]
    && s.bits.gen <= s'.bits.gen
    && (HasSeen(s'.pcs[i]) ==> s'.pcs[i].seen.gen <= s'.bits.gen)
  }

  lemma EnterSeen(s: State, i: nat, c: Choice)
    requires Aligned(s) && i < |s.pcs| && (Trying(s.pcs[i]) || Entering(s.pcs[i]))
    ensures SeenMoves(s, Step(s, i, c), i)
  {
  }

  lemma OneSeen(s: State, i: nat, c: Choice)
    requires Aligned(s) && i < |s.pcs| && InOne(s.pcs[i])
    ensures SeenMoves(s, Step(s, i, c), i)
  {
  }

  lemma LeaveSeen(s: State, i: nat, c: Choice)
    requires Aligned(s) && i < |s.pcs| && Leaving(s.pcs[i])
    ensures SeenMoves(s, Step(s, i, c), i)
  {
  }

  lemma AllSeen(s: State, i: nat, c: Choice)
    requires Aligned(s) && i < |s.pcs|
    requires !Trying(s.pcs[i]) && !Entering(s.pcs[i]) && !InOne(s.pcs[i]) && !Leaving(s.pcs[i])
    ensures SeenMoves(s, Step(s, i, c), i)
  {
  }

  lemma StepSeen(s: State, i: nat, c: Choice)
    requires Aligned(s) && SeenInv(s) && i < |s.pcs|
    ensures SeenInv(Step(s, i, c))
  {
    if Trying(s.pcs[i]) || Entering(s.pcs[i]) {
      EnterSeen(s, i, c);
    } else if InOne(s.pcs[i]) {
      OneSeen(s, i, c);
    } else if Leaving(s.pcs[i]) {
      LeaveSeen(s, i, c);
    } else {
      AllSeen(s, i, c);
    }
  }

  lemma {:induction false} RunSeen(s: State, schedule: seq<(nat, Choice)>)
    requires Init(s)
    ensures SeenInv(Run(s, schedule))
    decreases |schedule|
  {
    if schedule != [] {
      var e := Run(s, schedule[..|schedule| - 1]);
      var last := schedule[|schedule| - 1];
      RunSeen(s, schedule[..|schedule| - 1]);
      if last.0 < |e.pcs| {
        StepSeen(e, last.0, last.1);
      }
    }
  }

  lemma SameWord(a: Bits, b: Bits)
    requires a.gen <= b.gen < GEN_SPACE
    ensures Pack(a) == Pack(b) <==> a == b
  {
    PackInjective(a, b);
  }

  /** Until the generation has wrapped around once, a compare-exchange on the word is one on the fields. */
  lemma CasAgrees(s: State, schedule: seq<(nat, Choice)>, i: nat)
    requires Init(s) && i < |Run(s, schedule).pcs| && HasSeen(Run(s, schedule).pcs[i])
    requires Run(s, schedule).bits.gen < GEN_SPACE
    ensures var e := Run(s, schedule);
            Pack(e.pcs[i].seen) == Pack(e.bits) <==> e.pcs[i].seen == e.bits
  {
    RunSeen(s, schedule);
    SameWord(Run(s, schedule).pcs[i].seen, Run(s, schedule).bits);
  }
}

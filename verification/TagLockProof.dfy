/** One holder per word, every block in exactly one place, and the word the protocols build on. */
module TagLockProof {
  import W = WaitWord
  import opened TagLock

  // ----- what a program counter stands for -----

  predicate HoldsWord(pc: Pc, p: nat) { (pc.Alloc? || pc.Inside? || pc.Clear? || pc.Publish?) && pc.p == p }

  /** The agent is inside the lock and knows the block. */
  predicate Working(pc: Pc) { pc.Inside? || pc.Clear? || pc.Publish? }

  /** Nobody but the agent knows the block. */
  predicate Owns(pc: Pc, b: nat) { ((Working(pc) && pc.unshared) || pc.Dealloc?) && pc.b == b }

  predicate Carries(word: Word, b: nat) { word == Ptr(b) || word == Tagged(b) }

  // ----- the invariant -----

  predicate AgentInv(s: State, i: nat)
    requires Aligned(s) && i < |s.pcs|
  {
    var pc := s.pcs[i];
    assert InRange(s, pc);
    && (pc.Alloc? ==> s.words[pc.p] == Updating && s.holders[pc.p] == Someone(i))
    && (Working(pc) ==>
          && s.holders[pc.p] == Someone(i)
          && s.words[pc.p] == (if pc.unshared then Updating else Tagged(pc.b))
          && s.homes[pc.b] == (if pc.unshared then With(i) else At(pc.p)))
    && (pc.Clear? ==> s.blocks[pc.b] == [])
    && (pc.Publish? && !s.mutex[pc.p] ==> s.blocks[pc.b] != [])
    && (pc.Dealloc? ==> s.homes[pc.b] == With(i) && s.blocks[pc.b] == [])
  }

  predicate WordInv(s: State, p: nat)
    requires Aligned(s) && p < |s.words|
  {
    var word := s.words[p];
    && (word.Ptr? || word.Tagged? ==> word.block < |s.blocks| && s.homes[word.block] == At(p))
    && (word.Updating? || word.Tagged? <==> s.holders[p].Someone?)
    && (s.holders[p].Someone? ==> s.holders[p].id < |s.pcs| && HoldsWord(s.pcs[s.holders[p].id], p))
    && (!s.mutex[p] ==> word != Locked && (word.Ptr? ==> s.blocks[word.block] != []))
  }

  predicate BlockInv(s: State, b: nat)
    requires Aligned(s) && b < |s.blocks|
  {
    && (b in s.pool <==> s.homes[b] == Pool)
    && (s.homes[b] == Pool ==> s.blocks[b] == [])
    && (s.homes[b].At? ==> s.homes[b].p < |s.words| && Carries(s.words[s.homes[b].p], b))
    && (s.homes[b].With? ==> s.homes[b].i < |s.pcs| && Owns(s.pcs[s.homes[b].i], b))
  }

  predicate Inv(s: State) {
    && Aligned(s)
    && (forall i | 0 <= i < |s.pcs| :: AgentInv(s, i))
    && (forall p | 0 <= p < |s.words| :: WordInv(s, p))
    && (forall b | 0 <= b < |s.blocks| :: BlockInv(s, b))
    && (forall b | b in s.pool :: b < |s.blocks|)
  }

  // ----- every step -----

  lemma FlipKeeps(s: State, i: nat, p: nat)
    requires Inv(s) && i < |s.pcs| && p < |s.words|
    ensures Inv(FlipStep(s, i, p))
  {
    var s' := FlipStep(s, i, p);
    assert WordInv(s, p);
    forall j | 0 <= j < |s'.pcs|
      ensures AgentInv(s', j)
    {
      assert AgentInv(s, j);
    }
    forall q | 0 <= q < |s'.words|
      ensures WordInv(s', q)
    {
      assert WordInv(s, q);
    }
    forall b | 0 <= b < |s'.blocks|
      ensures BlockInv(s', b)
    {
      assert BlockInv(s, b);
    }
  }

  lemma LookKeeps(s: State, i: nat, p: nat, alloc: bool)
    requires Inv(s) && i < |s.pcs| && p < |s.words| && (s.pcs[i].Idle? || s.pcs[i].See?)
    ensures Inv(Goto(s, i, See(p, alloc, s.words[p])))
    ensures Inv(Goto(s, i, Idle))
  {
    forall pc | pc == Idle || pc == See(p, alloc, s.words[p])
      ensures Inv(Goto(s, i, pc))
    {
      var s' := Goto(s, i, pc);
      forall j | 0 <= j < |s'.pcs|
        ensures AgentInv(s', j)
      {
        assert AgentInv(s, j);
      }
      forall q | 0 <= q < |s'.words|
        ensures WordInv(s', q)
      {
        assert WordInv(s, q);
      }
      forall b | 0 <= b < |s'.blocks|
        ensures BlockInv(s', b)
      {
        assert BlockInv(s, b);
      }
    }
  }

  /** Taking the lock: from NULL or LOCKED to UPDATING, or from a pointer to the tagged pointer. */
  lemma AcquireKeeps(s: State, i: nat, p: nat, word: Word, pc: Pc)
    requires Inv(s) && i < |s.pcs| && p < |s.words| && s.pcs[i].See? && InRange(s, pc)
    requires || (!s.words[p].Ptr? && s.holders[p] == Nobody && word == Updating && pc == Alloc(p))
             || (s.words[p].Ptr? && word == Tagged(s.words[p].block) && pc == Inside(p, s.words[p].block, false))
    ensures Inv(Store(s, i, p, word, Someone(i), pc))
  {
    var s' := Store(s, i, p, word, Someone(i), pc);
    assert WordInv(s, p);
    forall j | 0 <= j < |s'.pcs|
      ensures AgentInv(s', j)
    {
      assert AgentInv(s, j);
    }
    forall q | 0 <= q < |s'.words|
      ensures WordInv(s', q)
    {
      assert WordInv(s, q);
    }
    forall b | 0 <= b < |s'.blocks|
      ensures BlockInv(s', b)
    {
      assert BlockInv(s, b);
    }
  }

  lemma SeeKeeps(s: State, i: nat, p: nat, alloc: bool, ptr: Word)
    requires Inv(s) && i < |s.pcs| && s.pcs[i] == See(p, alloc, ptr) && p < |s.words|
    ensures Inv(SeeStep(s, i, p, alloc, ptr))
  {
    LookKeeps(s, i, p, alloc);
    assert WordInv(s, p);
    if ptr == s.words[p] {
      if ptr.Null? && s.mutex[p] {
        FlipKeeps(s, i, p);
        LookKeeps(FlipStep(s, i, p), i, p, alloc);
      } else if ptr.Ptr? {
        AcquireKeeps(s, i, p, Tagged(ptr.block), Inside(p, ptr.block, false));
      } else if (ptr.Null? && alloc) || (ptr.Locked? && s.mutex[p]) {
        AcquireKeeps(s, i, p, Updating, Alloc(p));
      }
    }
  }

  lemma AllocKeeps(s: State, i: nat, p: nat, b: nat)
    requires Inv(s) && i < |s.pcs| && s.pcs[i] == Alloc(p) && p < |s.words|
    ensures Inv(AllocStep(s, i, p, b))
  {
    var s' := AllocStep(s, i, p, b);
    assert AgentInv(s, i);
    forall j | 0 <= j < |s'.pcs|
      ensures AgentInv(s', j)
    {
      assert AgentInv(s, j);
      assert b < |s.blocks| ==> BlockInv(s, b);
    }
    forall q | 0 <= q < |s'.words|
      ensures WordInv(s', q)
    {
      assert WordInv(s, q);
      assert b < |s.blocks| ==> BlockInv(s, b);
    }
    forall d | 0 <= d < |s'.blocks|
      ensures BlockInv(s', d)
    {
      assert d < |s.blocks| ==> BlockInv(s, d);
    }
  }

  lemma InsideKeeps(s: State, i: nat, p: nat, b: nat, unshared: bool, c: Choice)
    requires Inv(s) && i < |s.pcs| && s.pcs[i] == Inside(p, b, unshared) && p < |s.words| && b < |s.blocks|
    ensures Inv(InsideStep(s, i, p, b, unshared, c))
  {
    var s' := InsideStep(s, i, p, b, unshared, c);
    assert AgentInv(s, i);
    forall j | 0 <= j < |s'.pcs|
      ensures AgentInv(s', j)
    {
      assert AgentInv(s, j);
    }
    forall q | 0 <= q < |s'.words|
      ensures WordInv(s', q)
    {
      assert WordInv(s, q);
    }
    forall d | 0 <= d < |s'.blocks|
      ensures BlockInv(s', d)
    {
      assert BlockInv(s, d);
    }
  }

  /** Releasing the lock: the word forgets the block, or publishes it. */
  lemma ReleaseKeeps(s: State, i: nat, c: Choice)
    requires Inv(s) && i < |s.pcs| && (s.pcs[i].Clear? || s.pcs[i].Publish?)
    ensures Inv(Step(s, i, c))
  {
    var s' := Step(s, i, c);
    assert AgentInv(s, i);
    forall j | 0 <= j < |s'.pcs|
      ensures AgentInv(s', j)
    {
      assert AgentInv(s, j);
    }
    forall q | 0 <= q < |s'.words|
      ensures WordInv(s', q)
    {
      assert WordInv(s, q);
    }
    forall d | 0 <= d < |s'.blocks|
      ensures BlockInv(s', d)
    {
      assert BlockInv(s, d);
    }
  }

  lemma DeallocKeeps(s: State, i: nat, b: nat)
    requires Inv(s) && i < |s.pcs| && s.pcs[i] == Dealloc(b) && b < |s.blocks|
    ensures Inv(DeallocStep(s, i, b))
  {
    var s' := DeallocStep(s, i, b);
    assert AgentInv(s, i);
    forall j | 0 <= j < |s'.pcs|
      ensures AgentInv(s', j)
    {
      assert AgentInv(s, j);
    }
    forall q | 0 <= q < |s'.words|
      ensures WordInv(s', q)
    {
      assert WordInv(s, q);
    }
    forall d | 0 <= d < |s'.blocks|
      ensures BlockInv(s', d)
    {
      assert BlockInv(s, d);
    }
  }

  lemma StepKeeps(s: State, i: nat, c: Choice)
    requires Inv(s)
    ensures Inv(Step(s, i, c))
  {
    if i < |s.pcs| {
      var pc := s.pcs[i];
      assert InRange(s, pc);
      match pc
      case Idle =>
        if c.Look? && c.p < |s.words| {
          LookKeeps(s, i, c.p, c.alloc);
        } else if c.Flip? && c.p < |s.words| {
          FlipKeeps(s, i, c.p);
        }
      case See(p, alloc, ptr) =>
        LookKeeps(s, i, p, alloc);
        SeeKeeps(s, i, p, alloc, ptr);
      case Alloc(p) =>
        if c.Take? {
          AllocKeeps(s, i, p, c.b);
        }
      case Inside(p, b, unshared) => InsideKeeps(s, i, p, b, unshared, c);
      case Clear(_, _, _) => ReleaseKeeps(s, i, c);
      case Publish(_, _, _) => ReleaseKeeps(s, i, c);
      case Dealloc(b) => DeallocKeeps(s, i, b);
    }
  }

  lemma {:induction false} RunHolds(s: State, schedule: seq<(nat, Choice)>)
    requires Init(s)
    ensures Inv(Run(s, schedule))
    decreases |schedule|
  {
    if schedule != [] {
      var last := schedule[|schedule| - 1];
      RunHolds(s, schedule[..|schedule| - 1]);
      StepKeeps(Run(s, schedule[..|schedule| - 1]), last.0, last.1);
    }
  }

  // ----- what holds in every run -----

  /** At most one agent holds a word, whatever stale pointers the others compare with. */
  lemma OneHolder(s: State, schedule: seq<(nat, Choice)>, p: nat, i: nat, j: nat)
    requires Init(s)
    requires var e := Run(s, schedule);
             i < |e.pcs| && j < |e.pcs| && p < |e.words| && HoldsWord(e.pcs[i], p) && HoldsWord(e.pcs[j], p)
    ensures i == j
  {
    RunHolds(s, schedule);
    var e := Run(s, schedule);
    assert AgentInv(e, i) && AgentInv(e, j);
  }

  /** An unlocked wait-queue word is NULL or points to a block with somebody in it. */
  lemma PublishedNotEmpty(s: State, schedule: seq<(nat, Choice)>, p: nat)
    requires Init(s)
    requires p < |Run(s, schedule).words| && !Run(s, schedule).mutex[p]
    ensures var e := Run(s, schedule);
            match e.words[p]
            case Null => true
            case Locked => false
            case Ptr(b) => b < |e.blocks| && e.blocks[b] != []
            case _ => e.holders[p].Someone? && e.holders[p].id < |e.pcs| && HoldsWord(e.pcs[e.holders[p].id], p)
  {
    RunHolds(s, schedule);
    assert WordInv(Run(s, schedule), p);
  }

  /** Every block is in the pool, in one word, or with one agent, and in the pool it is empty. */
  lemma OnePlacePerBlock(s: State, schedule: seq<(nat, Choice)>, b: nat)
    requires Init(s)
    requires b < |Run(s, schedule).blocks|
    ensures var e := Run(s, schedule);
            && (b in e.pool <==> e.homes[b] == Pool)
            && (forall p | 0 <= p < |e.words| :: Carries(e.words[p], b) <==> e.homes[b] == At(p))
            && (forall i | 0 <= i < |e.pcs| :: Owns(e.pcs[i], b) <==> e.homes[b] == With(i))
            && (e.homes[b].At? ==> e.homes[b].p < |e.words|)
            && (e.homes[b].With? ==> e.homes[b].i < |e.pcs|)
            && (b in e.pool ==> e.blocks[b] == [])
  {
    RunHolds(s, schedule);
    var e := Run(s, schedule);
    assert BlockInv(e, b);
    forall p | 0 <= p < |e.words|
      ensures Carries(e.words[p], b) <==> e.homes[b] == At(p)
    {
      assert WordInv(e, p);
    }
    forall i | 0 <= i < |e.pcs|
      ensures Owns(e.pcs[i], b) <==> e.homes[b] == With(i)
    {
      assert AgentInv(e, i);
    }
  }

  // ----- the word the protocols build on -----

  /** A wait-queue word, seen as free without a queue, free with one, or held. */
  function View(s: State, p: nat): W.Word
    requires Aligned(s) && p < |s.words|
  {
    match s.words[p]
    case Ptr(_) => W.Published
    case Null => W.Null
    case Locked => W.Null
    case _ => if s.holders[p].Someone? then W.Held(s.holders[p].id) else W.Null
  }

  /** The queue behind a word, wherever its block is. */
  function Queue(s: State, p: nat): seq<nat>
    requires Aligned(s) && p < |s.words|
  {
    var word := s.words[p];
    if word.Ptr? || word.Tagged? then
      if word.block < |s.blocks| then s.blocks[word.block] else []
    else if word.Updating? && s.holders[p].Someone? && s.holders[p].id < |s.pcs| then
      var pc := s.pcs[s.holders[p].id];
      assert InRange(s, pc);
      if Working(pc) then s.blocks[pc.b] else []
    else []
  }

  /** Waiting, taking a free word, the holder giving its queue the content it chose, or releasing the word. */
  predicate Moves(w: W.Word, queue: seq<nat>, w': W.Word, queue': seq<nat>, i: nat, c: Choice) {
    || (w' == w && queue' == queue)
    || (!w.Held? && w' == W.Held(i) && queue' == queue)
    || (w == W.Held(i) && w' == w && c == Fill(queue'))
    || (w == W.Held(i) && queue' == queue && w' == if queue == [] then W.Null else W.Published)
  }

  /** NULL means no waiter, and a published queue has one. */
  lemma ViewFits(s: State, schedule: seq<(nat, Choice)>, p: nat)
    requires Init(s)
    requires var e := Run(s, schedule); p < |e.words| && !e.mutex[p]
    ensures var e := Run(s, schedule);
            && (View(e, p) == W.Null ==> Queue(e, p) == [])
            && (View(e, p) == W.Published ==> Queue(e, p) != [])
  {
    RunHolds(s, schedule);
    assert WordInv(Run(s, schedule), p);
  }

  predicate MovesOn(s: State, s': State, i: nat, c: Choice, p: nat)
    requires Aligned(s) && Aligned(s') && p < |s.words|
  {
    p < |s'.words| && Moves(View(s, p), Queue(s, p), View(s', p), Queue(s', p), i, c)
  }

  lemma RefinesOutside(s: State, i: nat, c: Choice, p: nat)
    requires Inv(s) && i < |s.pcs| && p < |s.words| && !s.mutex[p]
    requires s.pcs[i].Idle? || s.pcs[i].Dealloc?
    ensures MovesOn(s, Step(s, i, c), i, c, p)
  {
    assert WordInv(s, p);
  }

  lemma RefinesSee(s: State, i: nat, q: nat, alloc: bool, ptr: Word, c: Choice, p: nat)
    requires Inv(s) && i < |s.pcs| && p < |s.words| && !s.mutex[p] && s.pcs[i] == See(q, alloc, ptr) && q < |s.words|
    ensures MovesOn(s, SeeStep(s, i, q, alloc, ptr), i, c, p)
  {
    assert WordInv(s, p);
    if q != p {
      RefinesElsewhere(s, SeeStep(s, i, q, alloc, ptr), i, c, p);
    }
  }

  /** A step of an agent that does not hold word `p`, and acts elsewhere. */
  lemma RefinesElsewhere(s: State, s': State, i: nat, c: Choice, p: nat)
    requires Inv(s) && Aligned(s') && i < |s.pcs| && p < |s.words| && !HoldsWord(s.pcs[i], p)
    requires p < |s'.words| && s'.words[p] == s.words[p] && s'.holders[p] == s.holders[p] && s'.blocks == s.blocks
    requires |s'.pcs| == |s.pcs| && forall j | 0 <= j < |s.pcs| && j != i :: s'.pcs[j] == s.pcs[j]
    ensures MovesOn(s, s', i, c, p)
  {
    assert WordInv(s, p);
  }

  lemma RefinesAlloc(s: State, i: nat, c: Choice, p: nat)
    requires Inv(s) && i < |s.pcs| && p < |s.words| && !s.mutex[p] && s.pcs[i].Alloc?
    ensures MovesOn(s, Step(s, i, c), i, c, p)
  {
    assert WordInv(s, p) && AgentInv(s, i);
    if s.holders[p].Someone? {
      assert AgentInv(s, s.holders[p].id);
    }
    if c.Take? && c.b < |s.blocks| {
      assert BlockInv(s, c.b);
    }
  }

  /** The holder changes its queue, or decides how to release the word. */
  lemma RefinesInside(s: State, i: nat, q: nat, b: nat, unshared: bool, c: Choice, p: nat)
    requires Inv(s) && i < |s.pcs| && p < |s.words| && !s.mutex[p]
    requires s.pcs[i] == Inside(q, b, unshared) && q < |s.words| && b < |s.blocks|
    ensures MovesOn(s, InsideStep(s, i, q, b, unshared, c), i, c, p)
  {
    assert WordInv(s, p) && AgentInv(s, i);
    if s.holders[p].Someone? {
      assert AgentInv(s, s.holders[p].id);
    }
  }

  lemma RefinesClear(s: State, i: nat, q: nat, b: nat, c: Choice, p: nat)
    requires Inv(s) && i < |s.pcs| && p < |s.words| && !s.mutex[p]
    requires s.pcs[i].Clear? && s.pcs[i].p == q < |s.words| && s.pcs[i].b == b < |s.blocks|
    ensures MovesOn(s, ClearStep(s, i, q, b), i, c, p)
  {
    assert WordInv(s, p) && AgentInv(s, i);
    if q != p {
      RefinesElsewhere(s, ClearStep(s, i, q, b), i, c, p);
    }
  }

  lemma RefinesPublish(s: State, i: nat, q: nat, b: nat, c: Choice, p: nat)
    requires Inv(s) && i < |s.pcs| && p < |s.words| && !s.mutex[p]
    requires s.pcs[i].Publish? && s.pcs[i].p == q < |s.words| && s.pcs[i].b == b < |s.blocks|
    ensures MovesOn(s, PublishStep(s, i, q, b), i, c, p)
  {
    assert WordInv(s, p) && AgentInv(s, i);
    if q != p {
      RefinesElsewhere(s, PublishStep(s, i, q, b), i, c, p);
    }
  }

  lemma RefinesWorking(s: State, i: nat, c: Choice, p: nat)
    requires Inv(s) && i < |s.pcs| && p < |s.words| && !s.mutex[p] && Working(s.pcs[i])
    ensures MovesOn(s, Step(s, i, c), i, c, p)
  {
    var pc := s.pcs[i];
    assert InRange(s, pc);
    if pc.Inside? {
      RefinesInside(s, i, pc.p, pc.b, pc.unshared, c, p);
    } else if pc.Clear? {
      RefinesClear(s, i, pc.p, pc.b, c, p);
    } else {
      RefinesPublish(s, i, pc.p, pc.b, c, p);
    }
  }

  /** Every step, of any agent on any word, is such a move of every wait-queue word. */
  lemma Refines(s: State, schedule: seq<(nat, Choice)>, i: nat, c: Choice, p: nat)
    requires Init(s)
    requires var e := Run(s, schedule); i < |e.pcs| && p < |e.words| && !e.mutex[p]
    ensures var e := Run(s, schedule); MovesOn(e, Step(e, i, c), i, c, p)
  {
    RunHolds(s, schedule);
    var e := Run(s, schedule);
    if e.pcs[i].Alloc? {
      RefinesAlloc(e, i, c, p);
    } else if Working(e.pcs[i]) {
      RefinesWorking(e, i, c, p);
    } else if e.pcs[i].See? {
      var pc := e.pcs[i];
      assert InRange(e, pc);
      if c.Leave? && e.mutex[pc.p] {
        RefinesElsewhere(e, Step(e, i, c), i, c, p);
      } else {
        RefinesSee(e, i, pc.p, pc.alloc, pc.ptr, c, p);
      }
    } else {
      RefinesOutside(e, i, c, p);
    }
  }

  /**
    One round of `lock` on a wait-queue word: without allocation it gives up exactly on a NULL word, so with
    nobody queued, and takes only a published one; with allocation it takes a free word of either kind and
    never gives up. In every other case it looks again and nothing changes.
   */
  lemma LockOutcome(s: State, schedule: seq<(nat, Choice)>, i: nat, c: Choice)
    requires Init(s)
    requires var e := Run(s, schedule);
             i < |e.pcs| && e.pcs[i].See? && e.pcs[i].p < |e.words| && !e.mutex[e.pcs[i].p]
    ensures var e := Run(s, schedule);
            Outcome(e, Step(e, i, c), i, e.pcs[i].p, e.pcs[i].alloc, e.pcs[i].ptr)
  {
    RunHolds(s, schedule);
    var e := Run(s, schedule);
    var pc := e.pcs[i];
    assert WordInv(e, pc.p);
    OutcomeOf(e, i, pc.p, pc.alloc, pc.ptr);
  }

  /** How the agent goes on, against the abstract word at that moment; `ptr` is what it read before. */
  predicate Outcome(s: State, s': State, i: nat, p: nat, alloc: bool, ptr: Word)
    requires Aligned(s) && Aligned(s') && p < |s.words|
  {
    && i < |s'.pcs| && p < |s'.words|
    && (s'.pcs[i].Idle? <==> !alloc && View(s, p) == W.Null && ptr == s.words[p])
    && (s'.pcs[i].Inside? <==> View(s, p) == W.Published && ptr == s.words[p])
    && (s'.pcs[i].Alloc? <==> alloc && View(s, p) == W.Null && ptr == s.words[p])
    && (s'.pcs[i].Idle? ==> Queue(s, p) == [])
    && (if s'.pcs[i].Inside? || s'.pcs[i].Alloc? then View(s', p) == W.Held(i)
        else View(s', p) == View(s, p) && (s'.pcs[i].Idle? || s'.pcs[i].See?))
  }

  lemma OutcomeOf(s: State, i: nat, p: nat, alloc: bool, ptr: Word)
    requires Aligned(s) && i < |s.pcs| && p < |s.words| && !s.mutex[p] && WordInv(s, p)
    ensures Outcome(s, SeeStep(s, i, p, alloc, ptr), i, p, alloc, ptr)
  {
  }

  /**
    Allocation hands out a block that is empty and that nobody else has: one of the pool, which leaves the
    pool, or a new one, and that only when the pool is empty.
   */
  lemma AllocOutcome(s: State, schedule: seq<(nat, Choice)>, i: nat, b: nat)
    requires Init(s) && i < |Run(s, schedule).pcs| && Run(s, schedule).pcs[i].Alloc?
    ensures var e := Run(s, schedule);
            Allocated(e, Step(e, i, Take(b)), i, e.pcs[i].p, b)
  {
    RunHolds(s, schedule);
    var e := Run(s, schedule);
    assert b < |e.blocks| ==> BlockInv(e, b);
  }

  predicate Allocated(s: State, s': State, i: nat, p: nat, b: nat)
    requires Aligned(s) && Aligned(s')
  {
    && i < |s'.pcs|
    && (if b in s.pool then
          && s'.pcs[i] == Inside(p, b, true) && s'.pool == s.pool - {b} && s'.blocks == s.blocks
          && b < |s.blocks| && s.blocks[b] == [] && s.homes[b] == Pool
        else if s.pool == {} then
          s'.pcs[i] == Inside(p, |s.blocks|, true) && s'.pool == {} && s'.blocks == s.blocks + [[]]
        else s' == s)
  }

  // ----- what a holder does -----

  /** A holder gives its queue the content it chose, or moves on towards the release; others' words stay. */
  predicate Held(s: State, s': State, i: nat, c: Choice)
    requires Aligned(s) && Aligned(s') && i < |s.pcs|
  {
    && |s'.pcs| == |s.pcs| && |s'.words| == |s.words| && |s'.blocks| == |s.blocks|
    && var pc, pc' := s.pcs[i], s'.pcs[i];
    match pc
    case Inside(p, b, unshared) =>
      && s'.words == s.words && s'.holders == s.holders
      && (if c.Fill? then pc' == pc && b < |s.blocks| && s'.blocks[b] == c.queue
          else
            && s'.blocks == s.blocks
            && (pc' == Clear(p, b, unshared) || pc' == Publish(p, b, unshared))
            && (p < |s.mutex| && s.mutex[p] && b < |s.blocks| ==>
                  (pc'.Clear? <==> c.Leave? && s.blocks[b] == [] && !unshared)))
    case Clear(p, b, _) => pc' == Dealloc(b) && p < |s.words| && s'.words == s.words[p := Null]
    case Publish(p, b, _) => pc'.Idle? && p < |s.words| && s'.words == s.words[p := Ptr(b)]
    case Dealloc(b) => pc'.Idle? && s'.words == s.words && s'.pool == s.pool + {b}
    case _ => true
  }

  /** Inside the lock the queue is the holder's alone; a release clears or publishes the word, and frees the block. */
  lemma HolderOutcome(s: State, schedule: seq<(nat, Choice)>, i: nat, c: Choice)
    requires Init(s) && i < |Run(s, schedule).pcs|
    requires Working(Run(s, schedule).pcs[i]) || Run(s, schedule).pcs[i].Dealloc?
    ensures Held(Run(s, schedule), Step(Run(s, schedule), i, c), i, c)
  {
    var e := Run(s, schedule);
    assert InRange(e, e.pcs[i]);
  }

  /** One round of `lock` or `try_lock` on a mutex word, with `ptr` as read before, and the plain lock and unlock. */
  predicate MutexMove(s: State, s': State, i: nat, c: Choice)
    requires Aligned(s) && i < |s.pcs|
  {
    && |s'.pcs| == |s.pcs|
    && (s.pcs[i].See? && s.pcs[i].p < |s.words| && s.mutex[s.pcs[i].p] ==>
          var See(p, alloc, ptr) := s.pcs[i];
          var word, pc' := s.words[p], s'.pcs[i];
          if c.Leave? then pc'.Idle? && s'.words == s.words
          else if ptr != word || word.Updating? || word.Tagged? then pc' == See(p, alloc, word) && s'.words == s.words
          else
            match word
            case Null => pc'.Idle? && s'.words == s.words[p := Locked]
            case Locked => pc' == Alloc(p) && s'.words == s.words[p := Updating]
            case Ptr(b) => pc' == Inside(p, b, false) && s'.words == s.words[p := Tagged(b)]
            case _ => true)
    && (s.pcs[i].Idle? && c.Look? && c.p < |s.words| ==> s'.pcs[i] == See(c.p, c.alloc, s.words[c.p]))
    && (s.pcs[i].Idle? && c.Flip? && c.p < |s.words| && s.mutex[c.p] ==>
          s'.words == (match s.words[c.p]
                       case Null => s.words[c.p := Locked]
                       case Locked => s.words[c.p := Null]
                       case _ => s.words))
  }

  /** A mutex word is locked if free, gets a queue if locked, is tagged if it has one, and moves in no other way. */
  lemma MutexWordOutcome(s: State, schedule: seq<(nat, Choice)>, i: nat, c: Choice)
    requires Init(s) && i < |Run(s, schedule).pcs|
    ensures MutexMove(Run(s, schedule), Step(Run(s, schedule), i, c), i, c)
  {
    RunHolds(s, schedule);
    var e := Run(s, schedule);
    assert InRange(e, e.pcs[i]);
    assert e.pcs[i].See? ==> WordInv(e, e.pcs[i].p);
  }
}

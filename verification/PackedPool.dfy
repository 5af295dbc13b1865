/**
  The pool word as the machine sees it: a 64-bit word `permits << 2 | HAS_QUEUE | CLOSED`, changed by
  wrapping additions, subtractions and masks. Masks are written as arithmetic on the two low bits.
 */
module PackedPool {
  import opened Semaphore
  import opened SemaphoreInvariant
  import opened SemaphoreSteps
  import opened SemaphoreTheorems
  import SemaphoreData

  function Pack(p: Pool): nat {
    p.permits * 4 + (if p.hasQueue then 2 else 0) + (if p.closed then 1 else 0)
  }

  /** `cur >> PERMIT_SHIFT`, `cur & CLOSED != 0` and `cur & HAS_QUEUE != 0`. */
  function Unpack(w: nat): Pool {
    Pool(w / 4, w % 2 == 1, w / 2 % 2 == 1)
  }

  lemma UnpackPack(p: Pool)
    ensures Unpack(Pack(p)) == p
  {
    var low := (if p.hasQueue then 2 else 0) + (if p.closed then 1 else 0);
    assert Pack(p) == 4 * p.permits + low;
    assert Pack(p) / 2 == 2 * p.permits + low / 2;
  }

  /** A compare-exchange on the packed word compares exactly what one on the fields would. */
  lemma PackInjective(p: Pool, q: Pool)
    ensures Pack(p) == Pack(q) <==> p == q
  {
    UnpackPack(p);
    UnpackPack(q);
  }

  /** What a step writes to the pool word. */
  datatype WordOp = Untouched | Plus(n: nat) | Minus(n: nat) | KeepFlags | SetQueue | ClearQueue | SetClosed

  function Shifted(n: nat): nat { n * 4 % WORD }

  /** The new word, as the hardware computes it. */
  function Apply(w: nat, op: WordOp): nat {
    match op
    case Untouched => w
    case Plus(n) => (w + Shifted(n)) % WORD
    case Minus(n) => (w + WORD - Shifted(n)) % WORD
    case KeepFlags => w % 4
    case SetQueue => if w / 2 % 2 == 1 then w else w + 2
    case ClearQueue => if w / 2 % 2 == 1 then w - 2 else w
    case SetClosed => if w % 2 == 1 then w else w + 1
  }

  /** The read-modify-write that the step of agent `i` performs on the pool. */
  function OpOf(s: State, i: nat, c: Choice): WordOp
    requires i < |s.agents|
  {
    match s.agents[i].pc
    case Try(req, _, cur) =>
      if cur.closed || cur.hasQueue || cur.permits < req.n || c.Spurious? || s.pool != cur then Untouched
      else Minus(req.n)
    case EnqFlag(_, _) => SetQueue
    case EnqLoop(req, empty, cur) =>
      if cur.closed || !empty || cur.permits < req.n || c.Spurious? || s.pool != cur then Untouched
      else Minus(req.n)
    case Unlock(_) => if s.queue == [] then ClearQueue else Untouched
    case Release(k) => if k == 0 then Untouched else Plus(k)
    case DrainTake(cur) => if cur.permits == 0 || c.Spurious? || s.pool != cur then Untouched else KeepFlags
    case PutBack(left, _) => if left == 0 then Untouched else Plus(left)
    case CloseFlag => SetClosed
    case Forget(k, cur) =>
      var gone := if cur.permits < k then cur.permits else k;
      if gone == 0 || c.Spurious? || s.pool != cur then Untouched else Minus(gone)
    case _ => Untouched
  }

  /** What the operation means for the fields. */
  function Meaning(p: Pool, op: WordOp): Pool {
    match op
    case Untouched => p
    case Plus(n) => p.(permits := (p.permits + n) % PERMIT_SPACE)
    case Minus(n) => p.(permits := if n <= p.permits then p.permits - n else 0)
    case KeepFlags => p.(permits := 0)
    case SetQueue => p.(hasQueue := true)
    case ClearQueue => p.(hasQueue := false)
    case SetClosed => p.(closed := true)
  }

  /** The shift drops what does not fit, and the addition wraps, without a carry into or out of the flags. */
  lemma PlusIsExact(p: Pool, n: nat)
    requires p.permits < PERMIT_SPACE
    ensures Apply(Pack(p), Plus(n)) == Pack(Meaning(p, Plus(n)))
  {
    var kept := n % PERMIT_SPACE;
    assert n == n / PERMIT_SPACE * PERMIT_SPACE + kept;
    assert Shifted(n) == kept * 4;
    if p.permits + kept < PERMIT_SPACE {
      assert (p.permits + n) % PERMIT_SPACE == p.permits + kept;
    } else {
      assert (p.permits + n) % PERMIT_SPACE == p.permits + kept - PERMIT_SPACE;
    }
  }

  lemma MinusIsExact(p: Pool, n: nat)
    requires p.permits < PERMIT_SPACE && n <= p.permits
    ensures Apply(Pack(p), Minus(n)) == Pack(p.(permits := p.permits - n))
  {
    var w := Pack(p.(permits := p.permits - n));
    assert Shifted(n) == n * 4;
    assert Pack(p) + WORD - n * 4 == w + WORD;
    assert (w + WORD) % WORD == w;
  }

  /** Each operation does to the packed word what the protocol does to the fields. */
  lemma ApplyIsExact(p: Pool, op: WordOp)
    requires p.permits < PERMIT_SPACE
    requires op.Minus? ==> op.n <= p.permits
    ensures Apply(Pack(p), op) == Pack(Meaning(p, op))
  {
    match op
    case Plus(n) => PlusIsExact(p, n);
    case Minus(n) => MinusIsExact(p, n);
    case _ => UnpackPack(p);
  }

  lemma AcquireOp(s: State, i: nat, c: Choice)
    requires i < |s.agents| && Early(s.agents[i].pc)
    ensures Step(s, i, c).pool == Meaning(s.pool, OpOf(s, i, c))
    ensures OpOf(s, i, c).Minus? ==> OpOf(s, i, c).n <= s.pool.permits
  {
    match s.agents[i].pc
    case Idle => UnheldStart(s, i, c);
    case _ =>
  }

  lemma WaitOp(s: State, i: nat, c: Choice)
    requires i < |s.agents| && Middle(s.agents[i].pc)
    ensures Step(s, i, c).pool == s.pool && OpOf(s, i, c) == Untouched
  {
  }

  lemma ServeOp(s: State, i: nat, c: Choice)
    requires i < |s.agents| && !Early(s.agents[i].pc) && !Middle(s.agents[i].pc) && s.pool.permits < PERMIT_SPACE
    ensures Step(s, i, c).pool == Meaning(s.pool, OpOf(s, i, c))
    ensures OpOf(s, i, c).Minus? ==> OpOf(s, i, c).n <= s.pool.permits
  {
    var pc := s.agents[i].pc;
    if pc.Forget? {
      ForgetOp(s, i, pc.k, pc.cur, c);
    } else if pc.Release? || pc.PutBack? {
      GiveOp(s, i, c);
    }
  }

  lemma GiveOp(s: State, i: nat, c: Choice)
    requires i < |s.agents| && (s.agents[i].pc.Release? || s.agents[i].pc.PutBack?) && s.pool.permits < PERMIT_SPACE
    ensures Step(s, i, c).pool == Meaning(s.pool, OpOf(s, i, c)) && !OpOf(s, i, c).Minus?
  {
  }

  lemma ForgetOp(s: State, i: nat, k: nat, cur: Pool, c: Choice)
    requires i < |s.agents| && s.agents[i].pc == Forget(k, cur)
    ensures ForgetStep(s, i, k, cur, c).pool == Meaning(s.pool, OpOf(s, i, c))
    ensures OpOf(s, i, c).Minus? ==> OpOf(s, i, c).n <= s.pool.permits
  {
  }

  lemma OpMatchesStep(s: State, i: nat, c: Choice)
    requires i < |s.agents| && s.pool.permits < PERMIT_SPACE
    ensures Step(s, i, c).pool == Meaning(s.pool, OpOf(s, i, c))
    ensures OpOf(s, i, c).Minus? ==> OpOf(s, i, c).n <= s.pool.permits
  {
    if Early(s.agents[i].pc) {
      AcquireOp(s, i, c);
    } else if Middle(s.agents[i].pc) {
      WaitOp(s, i, c);
    } else {
      ServeOp(s, i, c);
    }
  }

  /** The permits fit their field after every schedule. */
  lemma {:induction false} FieldFits(s: State, schedule: seq<(nat, Choice)>)
    requires Init(s)
    ensures Run(s, schedule).pool.permits < PERMIT_SPACE
    decreases |schedule|
  {
    if schedule != [] {
      var e := Run(s, schedule[..|schedule| - 1]);
      var last := schedule[|schedule| - 1];
      FieldFits(s, schedule[..|schedule| - 1]);
      if last.0 < |e.agents| {
        OpMatchesStep(e, last.0, last.1);
      }
    }
  }

  /**
    Whatever is issued: the machine word, changed by shifts, wrapping additions and masks, is the packed form
    of the protocol's fields before and after every step.
   */
  lemma WordIsPacked(s: State, schedule: seq<(nat, Choice)>, i: nat, c: Choice)
    requires Init(s) && i < |Run(s, schedule).agents|
    ensures var e := Run(s, schedule);
            && Pack(e.pool) < WORD && Unpack(Pack(e.pool)) == e.pool
            && Apply(Pack(e.pool), OpOf(e, i, c)) == Pack(Step(e, i, c).pool)
  {
    var e := Run(s, schedule);
    FieldFits(s, schedule);
    OpMatchesStep(e, i, c);
    ApplyIsExact(e.pool, OpOf(e, i, c));
    UnpackPack(e.pool);
  }

  /**
    As long as at most MAX_PERMITS permits exist at once, the assertion in `release` holds, and no addition to
    the pool drops a bit or wraps.
   */
  lemma WordNeverOverflows(s: State, schedule: seq<(nat, Choice)>, i: nat, c: Choice)
    requires Init(s) && i < |Run(s, schedule).agents|
    requires Limited(s, schedule, MAX_PERMITS)
    ensures var e := Run(s, schedule);
            && (e.agents[i].pc.Release? ==> e.pool.permits + e.agents[i].pc.k <= MAX_PERMITS)
            && (OpOf(e, i, c).Plus? ==>
                  && Pack(e.pool) + OpOf(e, i, c).n * 4 < WORD
                  && Step(e, i, c).pool == e.pool.(permits := e.pool.permits + OpOf(e, i, c).n))
  {
    RunHolds(s, schedule);
    ReleasesPass(s, schedule, MAX_PERMITS);
    FitsAt(Run(s, schedule), i, c);
  }

  lemma FitsAt(e: State, i: nat, c: Choice)
    requires Inv(e) && !e.books.wrapped && Outstanding(e) <= MAX_PERMITS && i < |e.agents|
    ensures e.agents[i].pc.Release? ==> e.pool.permits + e.agents[i].pc.k <= MAX_PERMITS
    ensures OpOf(e, i, c).Plus? ==>
              && Pack(e.pool) + OpOf(e, i, c).n * 4 < WORD
              && Step(e, i, c).pool == e.pool.(permits := e.pool.permits + OpOf(e, i, c).n)
  {
    SemaphoreData.HandFits(e, i);
    PlusFromHand(e, i, c);
    OpMatchesStep(e, i, c);
    if OpOf(e, i, c).Plus? {
      PlusFits(e.pool, OpOf(e, i, c).n);
    }
  }

  lemma PlusFits(p: Pool, n: nat)
    requires p.permits + n <= MAX_PERMITS
    ensures Pack(p) + n * 4 < WORD && Meaning(p, Plus(n)) == p.(permits := p.permits + n)
  {
  }

  /** What a step adds to the pool is what its agent has in hand. */
  lemma PlusFromHand(s: State, i: nat, c: Choice)
    requires i < |s.agents|
    ensures OpOf(s, i, c).Plus? ==> OpOf(s, i, c).n == InHand(s.agents[i].pc)
    ensures s.agents[i].pc.Release? ==> InHand(s.agents[i].pc) == s.agents[i].pc.k
  {
  }
}

/**
  The tag-lock on a queue word, and the pool its queue blocks come from: any number of wait-queue words
  and mutex words share one pool, and agents act on words they have read long ago.
 */
module TagLock {

  /** NULL or UNLOCKED, LOCKED (mutexes only), UPDATING, a queue pointer, or a tagged one. */
  datatype Word = Null | Locked | Updating | Ptr(block: nat) | Tagged(block: nat)

  datatype Agency = Nobody | Someone(id: nat)

  /** Where a block is: in the pool, in a word, or known to one agent only. */
  datatype Home = Pool | At(p: nat) | With(i: nat)

  /** `unshared`: the block came from the pool and the word still says UPDATING. */
  datatype Pc =
    | Idle
    | See(p: nat, alloc: bool, ptr: Word)
    | Alloc(p: nat)
    | Inside(p: nat, b: nat, unshared: bool)
    | Clear(p: nat, b: nat, unshared: bool)
    | Publish(p: nat, b: nat, unshared: bool)
    | Dealloc(b: nat)

  /** `mutex[p]` tells mutex words from wait-queue words; `holders` and `homes` only record what happens. */
  datatype State = State(
    mutex: seq<bool>, words: seq<Word>, blocks: seq<seq<nat>>, pool: set<nat>, pcs: seq<Pc>,
    holders: seq<Agency>, homes: seq<Home>)

  /** `Flip` is a mutex CAS between UNLOCKED and LOCKED; `Take` the block the pool returns; `Fill` a queue change. */
  datatype Choice = Go | Look(p: nat, alloc: bool) | Flip(p: nat) | Take(b: nat) | Fill(queue: seq<nat>) | Leave

  predicate Aligned(s: State) {
    && |s.mutex| == |s.words| && |s.holders| == |s.words| && |s.homes| == |s.blocks|
    && (forall i | 0 <= i < |s.pcs| :: InRange(s, s.pcs[i]))
  }

  predicate InRange(s: State, pc: Pc) {
    match pc
    case Idle => true
    case See(p, _, _) => p < |s.words|
    case Alloc(p) => p < |s.words|
    case Inside(p, b, _) => p < |s.words| && b < |s.blocks|
    case Clear(p, b, _) => p < |s.words| && b < |s.blocks|
    case Publish(p, b, _) => p < |s.words| && b < |s.blocks|
    case Dealloc(b) => b < |s.blocks|
  }

  function Goto(s: State, i: nat, pc: Pc): (r: State)
    requires Aligned(s) && i < |s.pcs| && InRange(s, pc)
    ensures Aligned(r)
  {
    s.(pcs := s.pcs[i := pc])
  }

  /** The word changes hands together with the step. */
  function Store(s: State, i: nat, p: nat, word: Word, holder: Agency, pc: Pc): (r: State)
    requires Aligned(s) && i < |s.pcs| && p < |s.words| && InRange(s, pc)
    ensures Aligned(r)
  {
    s.(words := s.words[p := word], holders := s.holders[p := holder], pcs := s.pcs[i := pc])
  }

  function FlipStep(s: State, i: nat, p: nat): (r: State)
    requires Aligned(s) && i < |s.pcs| && p < |s.words|
    ensures Aligned(r)
  {
    if !s.mutex[p] then s
    else if s.words[p] == Null then s.(words := s.words[p := Locked])
    else if s.words[p] == Locked then s.(words := s.words[p := Null])
    else s
  }

  /** One round of the lock loop with `ptr` as read some time ago. */
  function SeeStep(s: State, i: nat, p: nat, alloc: bool, ptr: Word): (r: State)
    requires Aligned(s) && i < |s.pcs| && p < |s.words|
    ensures Aligned(r)
  {
    var stale := Goto(s, i, See(p, alloc, s.words[p]));
    match ptr
    case Null =>
      if s.words[p] != Null then stale
      else if s.mutex[p] then Goto(s, i, Idle).(words := s.words[p := Locked])
      else if !alloc then Goto(s, i, Idle)
      else Store(s, i, p, Updating, Someone(i), Alloc(p))
    case Locked =>
      if s.words[p] != Locked || !s.mutex[p] then stale
      else Store(s, i, p, Updating, Someone(i), Alloc(p))
    case Ptr(b) =>
      if s.words[p] != ptr || b >= |s.blocks| then stale
      else Store(s, i, p, Tagged(b), Someone(i), Inside(p, b, false))
    case _ => stale
  }

  /** `allocate_queue`: any pooled block, or a new one when the pool is empty. */
  function AllocStep(s: State, i: nat, p: nat, b: nat): (r: State)
    requires Aligned(s) && i < |s.pcs| && p < |s.words|
    ensures Aligned(r)
  {
    if b in s.pool && b < |s.blocks| then
      Goto(s, i, Inside(p, b, true)).(pool := s.pool - {b}, homes := s.homes[b := With(i)])
    else if s.pool == {} then
      s.(blocks := s.blocks + [[]], homes := s.homes + [With(i)], pcs := s.pcs[i := Inside(p, |s.blocks|, true)])
    else s
  }

  /** Holding the lock: change the queue, or decide how to release it. */
  function InsideStep(s: State, i: nat, p: nat, b: nat, unshared: bool, c: Choice): (r: State)
    requires Aligned(s) && i < |s.pcs| && p < |s.words| && b < |s.blocks|
    ensures Aligned(r)
  {
    if c.Fill? then s.(blocks := s.blocks[b := c.queue])
    else if s.mutex[p] then
      Goto(s, i, if c.Leave? && s.blocks[b] == [] && !unshared then Clear(p, b, unshared) else Publish(p, b, unshared))
    else
      Goto(s, i, if s.blocks[b] == [] then Clear(p, b, unshared) else Publish(p, b, unshared))
  }

  function ClearStep(s: State, i: nat, p: nat, b: nat): (r: State)
    requires Aligned(s) && i < |s.pcs| && p < |s.words| && b < |s.blocks|
    ensures Aligned(r)
  {
    Store(s, i, p, Null, Nobody, Dealloc(b)).(homes := s.homes[b := With(i)])
  }

  function PublishStep(s: State, i: nat, p: nat, b: nat): (r: State)
    requires Aligned(s) && i < |s.pcs| && p < |s.words| && b < |s.blocks|
    ensures Aligned(r)
  {
    Store(s, i, p, Ptr(b), Nobody, Idle).(homes := s.homes[b := At(p)])
  }

  function DeallocStep(s: State, i: nat, b: nat): (r: State)
    requires Aligned(s) && i < |s.pcs| && b < |s.blocks|
    ensures Aligned(r)
  {
    Goto(s, i, Idle).(pool := s.pool + {b}, homes := s.homes[b := Pool])
  }

  function IdleStep(s: State, i: nat, c: Choice): (r: State)
    requires Aligned(s) && i < |s.pcs|
    ensures Aligned(r)
  {
    match c
    case Look(p, alloc) => if p < |s.words| then Goto(s, i, See(p, alloc, s.words[p])) else s
    case Flip(p) => if p < |s.words| then FlipStep(s, i, p) else s
    case _ => s
  }

  /** One atomic step of agent `i`; an agent that must spin re-reads the word. */
  function Step(s: State, i: nat, c: Choice): (r: State)
    requires Aligned(s)
    ensures Aligned(r)
  {
    if i >= |s.pcs| then s else
    match s.pcs[i]
    case Idle => IdleStep(s, i, c)
    case See(p, alloc, ptr) =>
      if c.Leave? && s.mutex[p] then Goto(s, i, Idle) else SeeStep(s, i, p, alloc, ptr)
    case Alloc(p) => if c.Take? then AllocStep(s, i, p, c.b) else s
    case Inside(p, b, unshared) => InsideStep(s, i, p, b, unshared, c)
    case Clear(p, b, _) => ClearStep(s, i, p, b)
    case Publish(p, b, _) => PublishStep(s, i, p, b)
    case Dealloc(b) => DeallocStep(s, i, b)
  }

  /** Unused primitives, and a pool filled with empty blocks. */
  predicate Init(s: State) {
    && Aligned(s)
    && (forall p | 0 <= p < |s.words| :: s.words[p] == Null && s.holders[p] == Nobody)
    && (forall b | 0 <= b < |s.blocks| :: s.blocks[b] == [] && s.homes[b] == Pool && b in s.pool)
    && (forall b | b in s.pool :: b < |s.blocks|)
    && (forall i | 0 <= i < |s.pcs| :: s.pcs[i] == Idle)
  }

  function Run(s: State, schedule: seq<(nat, Choice)>): (r: State)
    requires Aligned(s)
    ensures Aligned(r)
  {
    if schedule == [] then s
    else
      var last := schedule[|schedule| - 1];
      Step(Run(s, schedule[..|schedule| - 1]), last.0, last.1)
  }
}

/**
  The barrier as a step protocol: a packed generation and arrival count, a leader per round that drains
  the waiters of its generation, and futures that withdraw their arrival when dropped.
 */
module Barrier {
  import opened WaitWord
  import opened WaitNodes
  import opened Generations

  /** The packed state word; every CAS compares both halves. */
  datatype Bits = Bits(gen: nat, arrived: nat)

  /** The only signal the barrier sends. */
  datatype Kind = All

  datatype Then = Done(g: nat) | Park(g: nat, future: bool) | WakeAll(g: nat) | SpinOn(g: nat) | Leave

  datatype Pc =
    | Idle
    | ArriveLoad(future: bool)
    | ArriveCas(future: bool, seen: Bits)
    | RelLock(g: nat)
    | RelTake(g: nat)
    | Signaling(g: nat)
    | EnqLock(g: nat, future: bool)
    | EnqCheck(g: nat, future: bool)
    | EnqPush(g: nat, future: bool)
    | Unlock(next: Then)
    | Waiting(g: nat, future: bool)
    | WdLoad(g: nat)
    | WdCas(g: nat, seen: Bits)
    | WdLock(g: nat)
    | WdRemove(g: nat)
    | Spin(g: nat)

  /** A finished wait: the generation it belonged to, and whether it was that round's leader. */
  datatype Result = Result(g: nat, leader: bool)

  /** `joins` and `quits` count arrivals and withdrawals per generation, `leaders` the completing agents. */
  datatype State = State(
    n: nat, bits: Bits, lock: Word, nodes: Nodes<Kind>, auxes: seq<nat>, pcs: seq<Pc>,
    joins: seq<nat>, quits: seq<nat>, leaders: seq<nat>, results: seq<Result>)

  /** `Spurious` is a weak compare-exchange failing for no reason; `Abandon` drops the future. */
  datatype Choice = Go | Begin(future: bool) | Spurious | Abandon

  /** A barrier of size zero behaves like one of size one. */
  function Parties(size: nat): nat { if size == 0 then 1 else size }

  predicate Aligned(s: State) {
    && |s.auxes| == |s.pcs| && |s.nodes.places| == |s.pcs| && |s.nodes.hands| == |s.pcs|
    && |s.joins| == s.bits.gen + 1 && |s.quits| == s.bits.gen + 1
  }

  function Goto(s: State, i: nat, pc: Pc): (r: State)
    requires Aligned(s) && i < |s.pcs|
    ensures Aligned(r) && |r.pcs| == |s.pcs|
  {
    s.(pcs := s.pcs[i := pc])
  }

  function Finish(s: State, i: nat, result: Result): (r: State)
    requires Aligned(s) && i < |s.pcs|
    ensures Aligned(r) && |r.pcs| == |s.pcs|
  {
    Goto(s, i, Idle).(results := s.results + [result])
  }

  function Bump(ledger: seq<nat>): (r: seq<nat>)
    requires ledger != []
    ensures |r| == |ledger|
  {
    ledger[|ledger| - 1 := ledger[|ledger| - 1] + 1]
  }

  /** The successful compare-exchange of `arrive`. */
  function Join(s: State, i: nat, future: bool): (r: State)
    requires Aligned(s) && i < |s.pcs|
    ensures Aligned(r) && |r.pcs| == |s.pcs|
  {
    if s.bits.arrived + 1 >= s.n then
      s.(pcs := s.pcs[i := RelLock(s.bits.gen)], bits := Bits(s.bits.gen + 1, 0),
         joins := Bump(s.joins) + [0], quits := s.quits + [0], leaders := s.leaders + [i])
    else
      Goto(s, i, EnqLock(s.bits.gen, future)).(bits := s.bits.(arrived := s.bits.arrived + 1), joins := Bump(s.joins))
  }

  function ArriveCasStep(s: State, i: nat, future: bool, seen: Bits, c: Choice): (r: State)
    requires Aligned(s) && i < |s.pcs|
    ensures Aligned(r) && |r.pcs| == |s.pcs|
  {
    if s.bits == seen && !c.Spurious? then Join(s, i, future)
    else Goto(s, i, ArriveCas(future, s.bits))
  }

  // ----- the leader -----

  function RelLockStep(s: State, i: nat, g: nat): (r: State)
    requires Aligned(s) && i < |s.pcs|
    ensures Aligned(r) && |r.pcs| == |s.pcs|
  {
    match s.lock
    case Held(_) => s
    case Null => Finish(s, i, Result(g, true))
    case Published => Goto(s, i, RelTake(g)).(lock := Held(i))
  }

  function RelTakeStep(s: State, i: nat, g: nat): (r: State)
    requires Aligned(s) && i < |s.pcs|
    ensures Aligned(r) && |r.pcs| == |s.pcs|
  {
    Goto(s, i, Unlock(WakeAll(g))).(nodes := Pop(s.nodes, i, While(Tags(s.nodes.queue, s.auxes), g), All))
  }

  function SignalStep(s: State, i: nat, g: nat): (r: State)
    requires Aligned(s) && i < |s.pcs|
    ensures Aligned(r) && |r.pcs| == |s.pcs|
  {
    if s.nodes.hands[i].chain == [] then Finish(s, i, Result(g, true))
    else s.(nodes := Signal(s.nodes, i))
  }

  // ----- the others -----

  function PushStep(s: State, i: nat, g: nat, future: bool): (r: State)
    requires Aligned(s) && i < |s.pcs|
    ensures Aligned(r) && |r.pcs| == |s.pcs|
  {
    Goto(s, i, Unlock(Park(g, future))).(auxes := s.auxes[i := g], nodes := Push(s.nodes, i))
  }

  function UnlockStep(s: State, i: nat, next: Then): (r: State)
    requires Aligned(s) && i < |s.pcs|
    ensures Aligned(r) && |r.pcs| == |s.pcs|
  {
    var freed := s.(lock := if s.nodes.queue == [] then Null else Published);
    match next
    case Done(g) => Finish(freed, i, Result(g, false))
    case Park(g, future) => Goto(freed, i, Waiting(g, future))
    case WakeAll(g) => Goto(freed, i, Signaling(g))
    case SpinOn(g) => Goto(freed, i, Spin(g))
    case Leave => Goto(freed, i, Idle)
  }

  function WaitStep(s: State, i: nat, g: nat, future: bool, c: Choice): (r: State)
    requires Aligned(s) && i < |s.pcs|
    ensures Aligned(r) && |r.pcs| == |s.pcs|
  {
    var dropped := c.Abandon? && future;
    if s.nodes.places[i].Signaled? then
      var woken := s.(nodes := Consume(s.nodes, i));
      if dropped then Goto(woken, i, Idle) else Finish(woken, i, Result(g, false))
    else if dropped then Goto(s, i, WdLoad(g))
    else s
  }

  /** A look at the state word: the round has completed, or try to take the arrival back. */
  function WithdrawOn(s: State, i: nat, g: nat): (r: State)
    requires Aligned(s) && i < |s.pcs|
    ensures Aligned(r) && |r.pcs| == |s.pcs|
  {
    Goto(s, i, if s.bits.gen == g then WdCas(g, s.bits) else Spin(g))
  }

  /** The code asserts in debug builds that there is an arrival to take back. */
  function WdCasStep(s: State, i: nat, g: nat, seen: Bits, c: Choice): (r: State)
    requires Aligned(s) && i < |s.pcs|
    ensures Aligned(r) && |r.pcs| == |s.pcs|
  {
    if s.bits == seen && s.bits.arrived > 0 && !c.Spurious? then
      Goto(s, i, WdLock(g)).(bits := s.bits.(arrived := s.bits.arrived - 1), quits := Bump(s.quits))
    else WithdrawOn(s, i, g)
  }

  function WdLockStep(s: State, i: nat, g: nat): (r: State)
    requires Aligned(s) && i < |s.pcs|
    ensures Aligned(r) && |r.pcs| == |s.pcs|
  {
    match s.lock
    case Held(_) => s
    case Null => Goto(s, i, Spin(g))
    case Published => Goto(s, i, WdRemove(g)).(lock := Held(i))
  }

  function WdRemoveStep(s: State, i: nat, g: nat): (r: State)
    requires Aligned(s) && i < |s.pcs|
    ensures Aligned(r) && |r.pcs| == |s.pcs|
  {
    if i in s.nodes.queue then Goto(s, i, Unlock(Leave)).(nodes := Remove(s.nodes, i))
    else Goto(s, i, Unlock(SpinOn(g)))
  }

  function SpinStep(s: State, i: nat): (r: State)
    requires Aligned(s) && i < |s.pcs|
    ensures Aligned(r) && |r.pcs| == |s.pcs|
  {
    if s.nodes.places[i].Signaled? then Goto(s, i, Idle).(nodes := Consume(s.nodes, i)) else s
  }

  /** One atomic step of agent `i`; an agent that must spin keeps the state as it is. */
  function Step(s: State, i: nat, c: Choice): (r: State)
    requires Aligned(s)
    ensures Aligned(r) && |r.pcs| == |s.pcs|
  {
    if i >= |s.pcs| then s else
    match s.pcs[i]
    case Idle => if c.Begin? then Goto(s, i, ArriveLoad(c.future)) else s
    case ArriveLoad(future) => Goto(s, i, ArriveCas(future, s.bits))
    case ArriveCas(future, seen) => ArriveCasStep(s, i, future, seen, c)
    case RelLock(g) => RelLockStep(s, i, g)
    case RelTake(g) => RelTakeStep(s, i, g)
    case Signaling(g) => SignalStep(s, i, g)
    case EnqLock(g, future) => if s.lock.Held? then s else Goto(s, i, EnqCheck(g, future)).(lock := Held(i))
    case EnqCheck(g, future) => Goto(s, i, if s.bits.gen == g then EnqPush(g, future) else Unlock(Done(g)))
    case EnqPush(g, future) => PushStep(s, i, g, future)
    case Unlock(next) => UnlockStep(s, i, next)
    case Waiting(g, future) => WaitStep(s, i, g, future, c)
    case WdLoad(g) => WithdrawOn(s, i, g)
    case WdCas(g, seen) => WdCasStep(s, i, g, seen, c)
    case WdLock(g) => WdLockStep(s, i, g)
    case WdRemove(g) => WdRemoveStep(s, i, g)
    case Spin(g) => SpinStep(s, i)
  }

  predicate Init(s: State) {
    && Aligned(s) && s.n >= 1
    && s.bits == Bits(0, 0) && s.lock == Null && s.nodes.queue == []
    && s.joins == [0] && s.quits == [0] && s.leaders == [] && s.results == []
    && forall i | 0 <= i < |s.pcs| :: s.pcs[i] == Idle && s.nodes.places[i] == Out && s.nodes.hands[i].chain == []
  }

  function Run(s: State, schedule: seq<(nat, Choice)>): (r: State)
    requires Aligned(s)
    ensures Aligned(r) && |r.pcs| == |s.pcs|
  {
    if schedule == [] then s
    else
      var last := schedule[|schedule| - 1];
      Step(Run(s, schedule[..|schedule| - 1]), last.0, last.1)
  }
}

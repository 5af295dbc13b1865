/**
  The handshake between a blocking waiter and its signaler, through the node's value word: a swap on each
  side, a park token, and a node that is gone as soon as the waiter returns.
 */
module ParkHandoff {

  datatype Value = Uninit | Waiting | Signaled

  /** `Look` is the spin before parking that the mutex does; `Check` re-reads the value after a park returned. */
  datatype Waiter = Look | Swap | Park | Check | Returned

  datatype Signaler = TakeHandle | Publish | Unpark | Finished

  /** `token` is the thread's park token, possibly left over from an earlier wait. */
  datatype State = State(value: Value, token: bool, waiter: Waiter, signaler: Signaler)

  /** `Waken` lets `park` return for no reason; `Quit` ends the spin. */
  datatype Choice = Wait | Waken | Quit | Signal

  function WaiterStep(s: State, c: Choice): State {
    match s.waiter
    case Look => if s.value == Signaled then s.(waiter := Returned) else if c.Quit? then s.(waiter := Swap) else s
    case Swap => s.(value := Waiting, waiter := if s.value == Signaled then Returned else Park)
    case Park => if s.token then s.(token := false, waiter := Check) else if c.Waken? then s.(waiter := Check) else s
    case Check => s.(waiter := if s.value == Signaled then Returned else Park)
    case Returned => s
  }

  function SignalerStep(s: State): State {
    match s.signaler
    case TakeHandle => s.(signaler := Publish)
    case Publish => s.(value := Signaled, signaler := if s.value == Waiting then Unpark else Finished)
    case Unpark => s.(token := true, signaler := Finished)
    case Finished => s
  }

  function Step(s: State, c: Choice): State {
    if c.Signal? then SignalerStep(s) else WaiterStep(s, c)
  }

  predicate Init(s: State) {
    s.value == Uninit && (s.waiter == Look || s.waiter == Swap) && s.signaler == TakeHandle
  }

  function Run(s: State, schedule: seq<Choice>): State {
    if schedule == [] then s else Step(Run(s, schedule[..|schedule| - 1]), schedule[|schedule| - 1])
  }

  /** The signaler's next step reads or writes the node. */
  predicate Touches(signaler: Signaler) { signaler == TakeHandle || signaler == Publish }

  predicate Inv(s: State) {
    && (Touches(s.signaler) ==> s.value == if s.waiter == Look || s.waiter == Swap then Uninit else Waiting)
    && (s.waiter == Returned ==> !Touches(s.signaler))
    && (!Touches(s.signaler) && s.waiter != Returned ==> s.value == Signaled)
    && (s.signaler == Finished && s.waiter == Park ==> s.token)
    && (s.signaler == Unpark ==> s.waiter != Look && s.waiter != Swap)
  }

  lemma {:induction false} RunHolds(s: State, schedule: seq<Choice>)
    requires Init(s)
    ensures Inv(Run(s, schedule))
  {
    if schedule != [] {
      RunHolds(s, schedule[..|schedule| - 1]);
    }
  }

  /**
    Once the signaler is done, the waiter has returned, or finds the signal in its next look, swap or check,
    or is parked with its token set; it never sleeps through the signal.
   */
  lemma NeverSleepsThrough(s: State, schedule: seq<Choice>)
    requires Init(s) && Run(s, schedule).signaler == Finished
    ensures var e := Run(s, schedule);
            match e.waiter
            case Returned => true
            case Park => e.token && e.value == Signaled && Step(Step(e, Wait), Wait).waiter == Returned
            case _ => Step(e, Wait).waiter == Returned
  {
    RunHolds(s, schedule);
  }

  /** Nobody returns before the signal is published, and the signaler leaves a returned waiter's node alone. */
  lemma NodeLeftAlone(s: State, schedule: seq<Choice>)
    requires Init(s) && Run(s, schedule).waiter == Returned
    ensures !Touches(Run(s, schedule).signaler)
  {
    RunHolds(s, schedule);
  }

  /**
    A step of the waiter: a look, swap or check returns if and only if the signal has been published; the spin
    ends only otherwise by choice; a park returns with the token, which it uses up, or for no reason.
   */
  predicate Waits(s: State, s': State, c: Choice) {
    && s'.signaler == s.signaler
    && var published := !Touches(s.signaler);
    match s.waiter
    case Look => s'.waiter == (if published then Returned else if c.Quit? then Swap else Look) && s'.token == s.token
    case Swap => s'.waiter == (if published then Returned else Park) && s'.token == s.token
    case Check => s'.waiter == (if published then Returned else Park) && s'.token == s.token
    case Park => s'.waiter == (if s.token || c.Waken? then Check else Park) && !s'.token
    case Returned => s' == s
  }

  lemma WaiterOutcome(s: State, schedule: seq<Choice>, c: Choice)
    requires Init(s) && !c.Signal?
    ensures Waits(Run(s, schedule), Step(Run(s, schedule), c), c)
  {
    RunHolds(s, schedule);
  }

  /** The signaler never waits: three steps of its own at most, whatever the waiter is doing, and the signal is out. */
  lemma SignalerNeverWaits(s: State, schedule: seq<Choice>)
    requires Init(s)
    ensures var e := Run(s, schedule);
            var e' := Step(Step(Step(e, Signal), Signal), Signal);
            e'.signaler == Finished && e'.waiter == e.waiter
  {
  }
}

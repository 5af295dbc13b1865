/**
  The order of handoffs: a history beside the mutex numbers requests when they are pushed, and records which
  were handed the lock and which left the queue.
 */
module MutexOrder {
  import opened WaitList
  import opened Generations
  import opened TicketOrder
  import opened Mutex
  import opened MutexProof

  /** `ticketOf[i]` is the ticket of the last push of agent `i`; `handed` is in the order of the pops. */
  datatype History = History(ticketOf: seq<nat>, tickets: nat, handed: seq<nat>, cancelled: set<nat>)

  /** What the step of agent `i` adds to the history. */
  function Record(h: History, s: State, i: nat): History {
    if i >= |s.agents| || i >= |h.ticketOf| then h else
    match s.agents[i].pc
    case Push(_, _) => h.(ticketOf := h.ticketOf[i := h.tickets], tickets := h.tickets + 1)
    case Remove(_) => if i in s.queue then h.(cancelled := h.cancelled + {h.ticketOf[i]}) else h
    case DropPop(_) =>
      if s.queue != [] && s.queue[0] < |h.ticketOf| then h.(handed := h.handed + [h.ticketOf[s.queue[0]]]) else h
    case _ => h
  }

  function Recorded(s: State, schedule: seq<(nat, Choice)>): History {
    if schedule == [] then History(seq(|s.agents|, _ => 0), 0, [], {})
    else
      var before := schedule[..|schedule| - 1];
      Record(Recorded(s, before), Run(s, before), schedule[|schedule| - 1].0)
  }

  /** The tickets of the queued requests, front to back. */
  function Line(h: History, s: State): (tickets: seq<nat>)
    ensures |tickets| == |s.queue|
  {
    Tags(s.queue, h.ticketOf)
  }

  predicate OrderInv(h: History, s: State) {
    |h.ticketOf| == |s.agents| && TicketInv(h.handed, Line(h, s), h.tickets, h.cancelled, {})
  }

  lemma PushOrder(h: History, s: State, i: nat, c: Choice)
    requires NodeInv(s) && OrderInv(h, s) && i < |s.agents| && s.agents[i].pc.Push?
    ensures OrderInv(Record(h, s, i), Step(s, i, c))
  {
    assert NodeOk(s, i);
    TicketPush(h.handed, Line(h, s), h.tickets, h.cancelled, {});
    TagsPush(s.queue, h.ticketOf, i, h.tickets);
  }

  lemma RemoveOrder(h: History, s: State, i: nat, a: nat)
    requires NodeInv(s) && OrderInv(h, s) && i < |s.agents| && s.agents[i].pc == Remove(a)
    ensures OrderInv(Record(h, s, i), RemoveStep(s, i, a))
  {
    if i in s.queue {
      var k := WithoutAt(s.queue, i);
      TicketDrop(h.handed, Line(h, s), h.tickets, h.cancelled, {}, k);
      assert Tags(Without(s.queue, i), h.ticketOf) == Line(h, s)[..k] + Line(h, s)[k + 1..];
    }
  }

  lemma PopOrder(h: History, s: State, i: nat, a: nat)
    requires NodeInv(s) && OrderInv(h, s) && i < |s.agents| && s.agents[i].pc == DropPop(a)
    ensures OrderInv(Record(h, s, i), DropPopStep(s, i, a))
  {
    if s.queue != [] {
      TicketGrant(h.handed, Line(h, s), h.tickets, h.cancelled, {}, 1);
      TagsPop(s.queue, h.ticketOf, 1);
      assert Line(h, s)[..1] == [h.ticketOf[s.queue[0]]];
    }
  }

  lemma OtherOrder(s: State, i: nat, c: Choice)
    requires i < |s.agents| && !s.agents[i].pc.Push? && !s.agents[i].pc.Remove? && !s.agents[i].pc.DropPop?
    ensures Step(s, i, c).queue == s.queue && |Step(s, i, c).agents| == |s.agents|
  {
  }

  lemma StepOrder(h: History, s: State, i: nat, c: Choice)
    requires NodeInv(s) && OrderInv(h, s)
    ensures OrderInv(Record(h, s, i), Step(s, i, c))
  {
    if i < |s.agents| {
      var pc := s.agents[i].pc;
      if pc.Push? {
        PushOrder(h, s, i, c);
      } else if pc.Remove? {
        RemoveOrder(h, s, i, pc.addr);
      } else if pc.DropPop? {
        PopOrder(h, s, i, pc.addr);
      } else {
        OtherOrder(s, i, c);
      }
    }
  }

  lemma {:induction false} RunOrder(s: State, schedule: seq<(nat, Choice)>)
    requires Init(s)
    ensures OrderInv(Recorded(s, schedule), Run(s, schedule))
    decreases |schedule|
  {
    if schedule == [] {
      assert Line(Recorded(s, []), s) == [];
    } else {
      var before := schedule[..|schedule| - 1];
      var last := schedule[|schedule| - 1];
      RunOrder(s, before);
      RunHolds(s, before);
      StepOrder(Recorded(s, before), Run(s, before), last.0, last.1);
    }
  }

  /** A request that was queued before one that got the lock got it earlier, or was cancelled. */
  lemma HandedInOrder(s: State, schedule: seq<(nat, Choice)>, earlier: nat, p: nat)
    requires Init(s)
    requires p < |Recorded(s, schedule).handed| && earlier < Recorded(s, schedule).handed[p]
    ensures var h := Recorded(s, schedule);
            earlier in h.handed[..p] || earlier in h.cancelled
  {
    RunOrder(s, schedule);
    var h := Recorded(s, schedule);
    ServedInOrder(h.handed, Line(h, Run(s, schedule)), h.tickets, h.cancelled, {}, earlier, p);
  }

  /** Whoever gets the lock by an uncontended compare-exchange does so with nobody queued. */
  lemma NoBarging(s: State, schedule: seq<(nat, Choice)>, i: nat, c: Choice)
    requires Init(s) && i < |Run(s, schedule).agents|
    requires var e := Run(s, schedule);
             (e.agents[i].pc.TryCas? || e.agents[i].pc.LockCas?) && Step(e, i, c).owner == Someone(i) != e.owner
    ensures Run(s, schedule).queue == []
  {
    RunHolds(s, schedule);
  }
}

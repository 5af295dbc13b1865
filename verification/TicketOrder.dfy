/** The order in which requests joined a line and were served: tickets are numbered in the order of joining. */
module TicketOrder {

  predicate Increasing(ts: seq<nat>) {
    forall a, b | 0 <= a < b < |ts| :: ts[a] < ts[b]
  }

  /** Ticket order is queue order and grant order, and no ticket is lost. */
  predicate TicketInv(granted: seq<nat>, waiting: seq<nat>, tickets: nat, cancelled: set<nat>, shut: set<nat>) {
    && Increasing(granted + waiting)
    && (forall k | 0 <= k < |granted| :: granted[k] < tickets)
    && (forall k | 0 <= k < |waiting| :: waiting[k] < tickets)
    && (forall t: nat | t < tickets :: t in granted || t in waiting || t in cancelled || t in shut)
  }

  lemma TicketPush(granted: seq<nat>, waiting: seq<nat>, tickets: nat, cancelled: set<nat>, shut: set<nat>)
    requires TicketInv(granted, waiting, tickets, cancelled, shut)
    ensures TicketInv(granted, waiting + [tickets], tickets + 1, cancelled, shut)
  {
    assert granted + (waiting + [tickets]) == (granted + waiting) + [tickets];
    assert tickets == (waiting + [tickets])[|waiting|];
    assert forall t | t in waiting :: t in waiting + [tickets];
  }

  lemma TicketDrop(granted: seq<nat>, waiting: seq<nat>, tickets: nat, cancelled: set<nat>, shut: set<nat>, k: nat)
    requires TicketInv(granted, waiting, tickets, cancelled, shut) && k < |waiting|
    ensures TicketInv(granted, waiting[..k] + waiting[k + 1..], tickets, cancelled + {waiting[k]}, shut)
  {
    var rest := waiting[..k] + waiting[k + 1..];
    var all, now := granted + waiting, granted + rest;
    assert forall m | 0 <= m < |now| :: now[m] == all[if m < |granted| + k then m else m + 1];
    forall t | t in waiting && t != waiting[k]
      ensures t in rest
    {
      var m :| 0 <= m < |waiting| && waiting[m] == t;
      assert rest[if m < k then m else m - 1] == t;
    }
  }

  lemma TicketGrant(granted: seq<nat>, waiting: seq<nat>, tickets: nat, cancelled: set<nat>, shut: set<nat>, k: nat)
    requires TicketInv(granted, waiting, tickets, cancelled, shut) && k <= |waiting|
    ensures TicketInv(granted + waiting[..k], waiting[k..], tickets, cancelled, shut)
  {
    assert (granted + waiting[..k]) + waiting[k..] == granted + waiting;
    assert waiting == waiting[..k] + waiting[k..];
  }

  /** Served in order: whoever joined before a served one was served earlier or has left the line. */
  lemma ServedInOrder(granted: seq<nat>, waiting: seq<nat>, tickets: nat, cancelled: set<nat>, shut: set<nat>,
                      earlier: nat, p: nat)
    requires TicketInv(granted, waiting, tickets, cancelled, shut) && p < |granted| && earlier < granted[p]
    ensures earlier in granted[..p] || earlier in cancelled || earlier in shut
  {
    var all := granted + waiting;
    assert all[p] == granted[p];
    forall k | 0 <= k < |waiting|
      ensures waiting[k] != earlier
    {
      assert all[|granted| + k] == waiting[k];
    }
    if earlier in granted {
      var k :| 0 <= k < |granted| && granted[k] == earlier;
      assert all[k] == earlier;
      assert k < p ==> granted[..p][k] == earlier;
    }
  }
}

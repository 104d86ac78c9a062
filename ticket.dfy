/**
 * The ticket model: its price with the card processor's fee passed on to the buyer, and the
 * events the ticket admits to.
 */
module TicketModel {
  import opened Wrappers
  import opened Collections
  import opened EventModel

  /** A `tickets` row; `validFrom`/`validTo` are `None` where `Date.parse` yields NaN. */
  datatype TicketRow = TicketRow(
    id: int, description: string, currency: string, cost: int, quantity: int,
    validFrom: Option<int>, validTo: Option<int>, ticketedEvents: seq<int>)

  datatype Ticket = Ticket(
    id: int, description: string, quantity: int, cost: int, currency: string,
    validFrom: Option<int>, validTo: Option<int>, events: seq<Option<Event>>)

  /**
   * `Math.round((cost + 30) / (1 - 0.029))` in exact arithmetic: the nearest integer to
   * (cost + 30) * 1000 / 971, halves rounded up (no exact half occurs, 971 being odd).
   */
  function Total(cost: int): (t: int)
    ensures 2000 * (cost + 30) - 971 <= 1942 * t < 2000 * (cost + 30) + 971
  {
    RoundingBounds(cost);
    (2000 * (cost + 30) + 971) / 1942
  }

  /** The quotient behind `Total`: never an exact half, so rounding leaves less than half a unit. */
  lemma RoundingBounds(cost: int)
    ensures var n := 2000 * (cost + 30) + 971;
      n - 1942 < 1942 * (n / 1942) < n
  {
    var n := 2000 * (cost + 30) + 971;
    var q, r := n / 1942, n % 1942;
    assert n == 1942 * q + r && 0 <= r < 1942;
    var k2 := 1000 * (cost + 30) + 485;
    assert n == 2 * k2 + 1;
    if r == 0 {
      assert false;
    }
  }

  /** What the buyer pays on top of the cost. */
  function StripeFee(cost: int): (f: int)
    ensures cost + f == Total(cost)
  {
    Total(cost) - cost
  }

  /** Passing the fee on never charges less than the cost plus the fixed 30. */
  lemma TotalCoversFixedFee(cost: int)
    requires cost + 30 >= 0
    ensures Total(cost) >= cost + 30
    ensures StripeFee(cost) >= 30
  {
  }

  /**
   * What is left after the processor keeps 2.9% of the total and 30 is the cost, less at most
   * half a unit of rounding: 0.971 * total - 30 >= cost - 0.5.
   */
  lemma TotalCoversPercentageFee(cost: int)
    ensures 971 * Total(cost) >= 1000 * (cost + 30) - 485
  {
  }

  lemma TotalMonotone(a: int, b: int)
    requires a <= b
    ensures Total(a) <= Total(b)
  {
  }

  function EventWithId(id: int): Event -> bool {
    (e: Event) => e.id == id
  }

  /** The ticket constructor's join: one entry per `ticketed_events` row, in row order. */
  function TicketEvents(eventIds: seq<int>, events: seq<Event>): (r: seq<Option<Event>>)
    ensures |r| == |eventIds|
  {
    seq(|eventIds|, i requires 0 <= i < |eventIds| => Find(events, EventWithId(eventIds[i])))
  }

  lemma TicketEventsAreFirstMatches(eventIds: seq<int>, events: seq<Event>)
    ensures forall i | 0 <= i < |eventIds| ::
      IsFirstMatch(events, EventWithId(eventIds[i]), TicketEvents(eventIds, events)[i])
  {
    forall i | 0 <= i < |eventIds|
      ensures IsFirstMatch(events, EventWithId(eventIds[i]), TicketEvents(eventIds, events)[i])
    {
      FindIsFirstMatch(events, EventWithId(eventIds[i]));
    }
  }

  /**
   * `new Ticket(json, events)`: the row's fields are copied, and the ticket's events are, row by
   * row of `ticketed_events`, the first loaded event with that id, or none.
   */
  function MakeTicket(row: TicketRow, events: seq<Event>): (t: Ticket)
    ensures t.id == row.id && t.cost == row.cost && t.validFrom == row.validFrom && t.validTo == row.validTo
    ensures t.description == row.description && t.quantity == row.quantity && t.currency == row.currency
    ensures t.events == TicketEvents(row.ticketedEvents, events)
    ensures |t.events| == |row.ticketedEvents|
    ensures forall i | 0 <= i < |row.ticketedEvents| ::
      IsFirstMatch(events, EventWithId(row.ticketedEvents[i]), t.events[i])
  {
    TicketEventsAreFirstMatches(row.ticketedEvents, events);
    Ticket(row.id, row.description, row.quantity, row.cost, row.currency, row.validFrom, row.validTo,
           TicketEvents(row.ticketedEvents, events))
  }
}

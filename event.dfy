/** The event document, as far as the booking service uses it: its id, its
    ticket price and the tickets sold for it. Title and date play no part in
    booking and are left out. */
module Events {
  import opened JavaLang
  import opened Tickets

  /** An event; every field may be `null`. The price is an exact amount in minor
      currency units. */
  datatype Event = Event(
    id: Option<string>,
    ticketPrice: Option<int>,
    tickets: Option<seq<Ticket>>)

  /** An `Event` object, as far as the service updates it in place. */
  class MutableEvent {
    var id: Option<string>
    var ticketPrice: Option<int>
    var tickets: Option<seq<Ticket>>

    function Value(): Event
      reads this
    {
      Event(id, ticketPrice, tickets)
    }

    constructor ()
      ensures Value() == Event(None, None, None)
    {
      id, ticketPrice, tickets := None, None, None;
    }

    method SetId(id: Option<string>)
      modifies this
      ensures Value() == old(Value()).(id := id)
    {
      this.id := id;
    }

    method SetTicketPrice(ticketPrice: Option<int>)
      modifies this
      ensures Value() == old(Value()).(ticketPrice := ticketPrice)
    {
      this.ticketPrice := ticketPrice;
    }

    method SetTickets(tickets: Option<seq<Ticket>>)
      modifies this
      ensures Value() == old(Value()).(tickets := tickets)
    {
      this.tickets := tickets;
    }
  }
}

/** An in-memory stand-in for the three Mongo repositories the service uses: the
    users and events keyed by id, the tickets in insertion order, and a counter
    from which fresh ticket ids are made. Storage errors are modelled by a fixed
    set of repository calls that raise. */
module Store {
  import opened JavaLang
  import opened Sequences
  import opened TicketIds
  import opened Paging
  import opened Tickets
  import opened Users
  import opened Events

  /** The repository calls the service makes. */
  datatype Call =
    | UsersExistsById | UsersFindById | UsersSave
    | EventsExistsById | EventsFindById | EventsSave
    | TicketsExistsBySeat | TicketsSave | TicketsDeleteById
    | TicketsByUserId | TicketsByEventId

  /** The reason a step raised a `RuntimeException`. */
  datatype Failure =
    | IllegalArgument(call: Call)  // a null id reached the repository
    | StoreError(call: Call)       // the repository call itself raised
    | UserNotFound
    | EventNotFound
    | AlreadyBooked
    | NullAmount                   // the account or the ticket price is null
    | NotEnoughMoney

  /** A value, or the exception raised instead of returning it. */
  datatype Result<+T> = Ok(value: T) | Err(error: Failure) {
    predicate IsFailure() {
      Err?
    }

    function PropagateFailure<U>(): Result<U>
      requires Err?
    {
      Err(error)
    }

    function Extract(): T
      requires Ok?
    {
      value
    }
  }

  /** A step that returns nothing, or the exception it raised. */
  datatype Outcome = Pass | Fail(error: Failure) {
    predicate IsFailure() {
      Fail?
    }

    function PropagateFailure<U>(): Result<U>
      requires Fail?
    {
      Err(error)
    }
  }

  /** What a repository call raises before touching the data: a `null` id is
      refused with `IllegalArgumentException`, and a call in `failing` raises a
      storage error. */
  function Raised(call: Call, id: Option<string>, failing: set<Call>): Option<Failure> {
    if id.None? then Some(IllegalArgument(call))
    else if call in failing then Some(StoreError(call))
    else None
  }

  /** The contents of the three repositories. */
  datatype StoreState = StoreState(
    users: map<string, User>,
    events: map<string, Event>,
    tickets: seq<Ticket>,
    nextId: nat)

  /** The seat a ticket occupies. */
  function Seat(t: Ticket): (Option<string>, Option<int>, Option<Category>) {
    (t.eventId, t.place, t.category)
  }

  function IdOf(t: Ticket): Option<string> {
    t.id
  }

  /** Whether `id` is one the store handed out before its counter reached `n`. */
  predicate IssuedBefore(id: Option<string>, n: nat) {
    id.Some? && ParseId(id.value).Some? && ParseId(id.value).value < n
  }

  /** The repositories' own invariant: documents are stored under their own id,
      and every ticket carries a distinct id the store issued. */
  predicate WellFormed(st: StoreState) {
    && (forall k :: k in st.users ==> st.users[k].id == Some(k))
    && (forall k :: k in st.events ==> st.events[k].id == Some(k))
    && (forall i :: 0 <= i < |st.tickets| ==> IssuedBefore(st.tickets[i].id, st.nextId))
    && KeysDistinct(st.tickets, IdOf)
  }

  /** `existsByEventIdAndPlaceAndCategory`: some ticket occupies the seat. */
  predicate SeatTaken(tickets: seq<Ticket>, eventId: Option<string>, place: int, category: Option<Category>) {
    exists i :: 0 <= i < |tickets| && Seat(tickets[i]) == (eventId, Some(place), category)
  }

  /** No seat is sold twice. */
  predicate SeatsUnique(tickets: seq<Ticket>) {
    KeysDistinct(tickets, Seat)
  }

  /** The selection `getAllByUserId` makes. */
  function OwnedBy(userId: Option<string>): Ticket -> bool {
    (t: Ticket) => t.userId == userId
  }

  /** The selection `getAllByEventId` makes. */
  function SoldFor(eventId: Option<string>): Ticket -> bool {
    (t: Ticket) => t.eventId == eventId
  }

  /** The tickets `deleteById(id)` keeps. */
  function NotWithId(id: string): Ticket -> bool {
    (t: Ticket) => t.id != Some(id)
  }

  /** Reads a user document into a new object, as the mapping layer does:
      the no-argument constructor, then the setters. */
  method LoadUser(u: User) returns (obj: MutableUser)
    ensures fresh(obj) && obj.Value() == u
  {
    obj := new MutableUser();
    obj.SetId(u.id);
    obj.SetName(u.name);
    obj.SetEmail(u.email);
    obj.SetTickets(u.tickets);
    obj.SetAccount(u.account);
  }

  /** Reads an event document into a new object. */
  method LoadEvent(e: Event) returns (obj: MutableEvent)
    ensures fresh(obj) && obj.Value() == e
  {
    obj := new MutableEvent();
    obj.SetId(e.id);
    obj.SetTicketPrice(e.ticketPrice);
    obj.SetTickets(e.tickets);
  }

  class Store {
    var users: map<string, User>
    var events: map<string, Event>
    var tickets: seq<Ticket>
    var nextId: nat
    /** The repository calls that raise a storage error. */
    const failing: set<Call>

    function State(): StoreState
      reads this
    {
      StoreState(users, events, tickets, nextId)
    }

    ghost predicate Valid()
      reads this
    {
      WellFormed(State())
    }

    constructor (initial: StoreState, failing: set<Call>)
      requires WellFormed(initial)
      ensures Valid() && State() == initial && this.failing == failing
    {
      users, events, tickets, nextId := initial.users, initial.events, initial.tickets, initial.nextId;
      this.failing := failing;
    }

    /** `userRepository.existsById`. */
    method ExistsUserById(id: Option<string>) returns (r: Result<bool>)
      ensures var f := Raised(UsersExistsById, id, failing);
              r == if f.Some? then Err(f.value) else Ok(id.value in users)
    {
      var f := Raised(UsersExistsById, id, failing);
      if f.Some? {
        return Err(f.value);
      }
      r := Ok(id.value in users);
    }

    /** `userRepository.findById`: a new object read from the stored document. */
    method FindUserById(id: Option<string>) returns (r: Result<Option<MutableUser>>)
      ensures var f := Raised(UsersFindById, id, failing);
              && (f.Some? ==> r == Err(f.value))
              && (f.None? ==> r.Ok? && (r.value.Some? <==> id.value in users))
              && (r.Ok? && r.value.Some? ==> fresh(r.value.value) && r.value.value.Value() == users[id.value])
    {
      var f := Raised(UsersFindById, id, failing);
      if f.Some? {
        return Err(f.value);
      }
      if id.value !in users {
        return Ok(None);
      }
      var u := LoadUser(users[id.value]);
      r := Ok(Some(u));
    }

    /** `userRepository.save` of a user that has an id: stores its document
        under that id. */
    method SaveUser(u: MutableUser) returns (r: Result<MutableUser>)
      requires Valid() && u.id.Some?
      modifies this
      ensures Valid()
      ensures UsersSave in failing ==> r == Err(StoreError(UsersSave)) && State() == old(State())
      ensures UsersSave !in failing ==>
                r == Ok(u) && State() == old(State()).(users := old(users)[u.id.value := u.Value()])
    {
      if UsersSave in failing {
        return Err(StoreError(UsersSave));
      }
      users := users[u.id.value := u.Value()];
      r := Ok(u);
    }

    /** `eventRepository.existsById`. */
    method ExistsEventById(id: Option<string>) returns (r: Result<bool>)
      ensures var f := Raised(EventsExistsById, id, failing);
              r == if f.Some? then Err(f.value) else Ok(id.value in events)
    {
      var f := Raised(EventsExistsById, id, failing);
      if f.Some? {
        return Err(f.value);
      }
      r := Ok(id.value in events);
    }

    /** `eventRepository.findById`: a new object read from the stored document. */
    method FindEventById(id: Option<string>) returns (r: Result<Option<MutableEvent>>)
      ensures var f := Raised(EventsFindById, id, failing);
              && (f.Some? ==> r == Err(f.value))
              && (f.None? ==> r.Ok? && (r.value.Some? <==> id.value in events))
              && (r.Ok? && r.value.Some? ==> fresh(r.value.value) && r.value.value.Value() == events[id.value])
    {
      var f := Raised(EventsFindById, id, failing);
      if f.Some? {
        return Err(f.value);
      }
      if id.value !in events {
        return Ok(None);
      }
      var e := LoadEvent(events[id.value]);
      r := Ok(Some(e));
    }

    /** `eventRepository.save` of an event that has an id. */
    method SaveEvent(e: MutableEvent) returns (r: Result<MutableEvent>)
      requires Valid() && e.id.Some?
      modifies this
      ensures Valid()
      ensures EventsSave in failing ==> r == Err(StoreError(EventsSave)) && State() == old(State())
      ensures EventsSave !in failing ==>
                r == Ok(e) && State() == old(State()).(events := old(events)[e.id.value := e.Value()])
    {
      if EventsSave in failing {
        return Err(StoreError(EventsSave));
      }
      events := events[e.id.value := e.Value()];
      r := Ok(e);
    }

    /** `ticketRepository.existsByEventIdAndPlaceAndCategory`. */
    method ExistsBySeat(eventId: Option<string>, place: int, category: Option<Category>) returns (r: Result<bool>)
      ensures r == if TicketsExistsBySeat in failing then Err(StoreError(TicketsExistsBySeat))
                   else Ok(SeatTaken(tickets, eventId, place, category))
    {
      if TicketsExistsBySeat in failing {
        return Err(StoreError(TicketsExistsBySeat));
      }
      r := Ok(SeatTaken(tickets, eventId, place, category));
    }

    /** `ticketRepository.save` of a new ticket: the store sets the next id on
        the object, appends its document and returns the same object. */
    method SaveNewTicket(t: MutableTicket) returns (r: Result<MutableTicket>)
      requires Valid() && t.id.None?
      modifies this, t
      ensures Valid()
      ensures TicketsSave in failing ==>
                r == Err(StoreError(TicketsSave)) && State() == old(State()) && t.Value() == old(t.Value())
      ensures TicketsSave !in failing ==>
                && r == Ok(t) && t.Value() == old(t.Value()).(id := Some(Decimal(old(nextId))))
                && State() == old(State()).(tickets := old(tickets) + [t.Value()], nextId := old(nextId) + 1)
    {
      if TicketsSave in failing {
        return Err(StoreError(TicketsSave));
      }
      t.SetId(Some(Decimal(nextId)));
      ParseDecimal(nextId);
      forall i | 0 <= i < |tickets| ensures IdOf(tickets[i]) != IdOf(t.Value()) {
        assert IssuedBefore(tickets[i].id, nextId);
      }
      tickets := tickets + [t.Value()];
      nextId := nextId + 1;
      r := Ok(t);
    }

    /** `ticketRepository.deleteById`: removes the ticket with that id, if any;
        an id no ticket has is not an error. */
    method DeleteTicketById(id: Option<string>) returns (r: Outcome)
      requires Valid()
      modifies this
      ensures Valid()
      ensures var f := Raised(TicketsDeleteById, id, failing);
              if f.Some? then r == Fail(f.value) && State() == old(State())
              else r == Pass && State() == old(State()).(tickets := Filter(old(tickets), NotWithId(id.value)))
    {
      var f := Raised(TicketsDeleteById, id, failing);
      if f.Some? {
        return Fail(f.value);
      }
      FilterKeepsKeysDistinct(tickets, NotWithId(id.value), IdOf);
      tickets := Filter(tickets, NotWithId(id.value));
      r := Pass;
    }

    /** `ticketRepository.getAllByUserId(pageable, userId)`: one page of the
        tickets whose userId equals `userId` (a `null` one selects tickets
        without a user). */
    method TicketsPageByUserId(pageIndex: nat, pageSize: nat, userId: Option<string>) returns (r: Result<seq<Ticket>>)
      requires pageSize >= 1
      ensures r == if TicketsByUserId in failing then Err(StoreError(TicketsByUserId))
                   else Ok(PageContent(Filter(tickets, OwnedBy(userId)), pageIndex, pageSize))
    {
      if TicketsByUserId in failing {
        return Err(StoreError(TicketsByUserId));
      }
      r := Ok(PageContent(Filter(tickets, OwnedBy(userId)), pageIndex, pageSize));
    }

    /** `ticketRepository.getAllByEventId(pageable, eventId)`. */
    method TicketsPageByEventId(pageIndex: nat, pageSize: nat, eventId: Option<string>) returns (r: Result<seq<Ticket>>)
      requires pageSize >= 1
      ensures r == if TicketsByEventId in failing then Err(StoreError(TicketsByEventId))
                   else Ok(PageContent(Filter(tickets, SoldFor(eventId)), pageIndex, pageSize))
    {
      if TicketsByEventId in failing {
        return Err(StoreError(TicketsByEventId));
      }
      r := Ok(PageContent(Filter(tickets, SoldFor(eventId)), pageIndex, pageSize));
    }

    /** Transaction rollback: the repositories return to a saved state. */
    method Restore(s: StoreState)
      requires WellFormed(s)
      modifies this
      ensures Valid() && State() == s
    {
      users, events, tickets, nextId := s.users, s.events, s.tickets, s.nextId;
    }
  }
}

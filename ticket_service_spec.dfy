/** What the ticket service does, as functions of the store's contents: the pure
    helpers of `TicketServiceImpl`, the order of the booking checks, the writes a
    booking makes, and the outcome of each public operation. */
module TicketServiceSpec {
  import opened JavaLang
  import opened Sequences
  import opened TicketIds
  import opened Paging
  import opened Tickets
  import opened Users
  import opened Events
  import opened Store

  /** The arguments of `bookTicket`. */
  datatype Request = Request(userId: Option<string>, eventId: Option<string>, place: int, category: Option<Category>)

  /** What `bookTicket` leaves behind: the store and the returned ticket
      (`None` for `null`). */
  datatype BookResult = BookResult(state: StoreState, ticket: Option<Ticket>)

  /** What `cancelTicket` leaves behind: the store and the returned flag. */
  datatype CancelResult = CancelResult(state: StoreState, deleted: bool)

  /** The repository calls a booking makes before its first write. */
  const ReadCalls: set<Call> :=
    {UsersExistsById, EventsExistsById, TicketsExistsBySeat, UsersFindById, EventsFindById}

  /** Every repository call a successful booking makes. */
  const BookingCalls: set<Call> := ReadCalls + {TicketsSave, UsersSave, EventsSave}

  // ---------------------------------------------------------------------------
  // The pure helpers of TicketServiceImpl

  /** `userHasEnoughMoneyForTicket`: `account.compareTo(price) > -1`, raising a
      `NullPointerException` when the account or the price is `null`. */
  function UserHasEnoughMoneyForTicket(user: User, event: Event): (r: Result<bool>)
    ensures r.Ok? <==> user.account.Some? && event.ticketPrice.Some?
    ensures r.Err? ==> r.error == NullAmount
    ensures r.Ok? ==> (r.value <==> user.account.value >= event.ticketPrice.value)
  {
    if user.account.None? || event.ticketPrice.None? then Err(NullAmount)
    else Ok(CompareTo(user.account.value, event.ticketPrice.value) > -1)
  }

  /** `throwRuntimeExceptionIfUserNotHaveEnoughMoney`. */
  function ThrowIfUserNotHaveEnoughMoney(user: User, event: Event): (o: Outcome)
    ensures o.Pass? <==> user.account.Some? && event.ticketPrice.Some?
                         && user.account.value >= event.ticketPrice.value
    ensures o.Fail? ==> o.error == if user.account.None? || event.ticketPrice.None? then NullAmount
                                   else NotEnoughMoney
  {
    match UserHasEnoughMoneyForTicket(user, event)
    case Err(e) => Fail(e)
    case Ok(enough) => if enough then Pass else Fail(NotEnoughMoney)
  }

  /** `subtractTicketPriceFromUserMoney`: the account after paying the price. */
  function SubtractTicketPriceFromUserMoney(user: User, event: Event): (r: int)
    requires user.account.Some? && event.ticketPrice.Some?
    ensures r + event.ticketPrice.value == user.account.value
    ensures r >= 0 <==> user.account.value >= event.ticketPrice.value
  {
    user.account.value - event.ticketPrice.value
  }

  /** The user as `buyTicket` leaves it: the account set to
      `subtractTicketPriceFromUserMoney(...)`. Only the account changes, so the
      user stays equal to itself. */
  function Debited(user: User, event: Event): (paid: User)
    requires user.account.Some? && event.ticketPrice.Some?
    ensures paid.account.Some? && paid.account.value + event.ticketPrice.value == user.account.value
    ensures paid.(account := user.account) == user
    ensures paid.Equals(Some(user))
  {
    user.(account := Some(SubtractTicketPriceFromUserMoney(user, event)))
  }

  /** `createNewTicket`: an unsaved ticket for the requested seat. */
  function CreateNewTicket(userId: Option<string>, eventId: Option<string>, place: int,
                           category: Option<Category>): (t: Ticket)
    ensures t.id.None? && t.userId == userId
    ensures Seat(t) == (eventId, Some(place), category)
  {
    Ticket.Unsaved(userId, eventId, place, category)
  }

  /** The ids in a user's ticket list; a `null` list is replaced by an empty one
      before the first id is added. */
  function TicketIdsOf(user: User): seq<string> {
    if user.tickets.None? then [] else user.tickets.value
  }

  /** The tickets in an event's list, `null` read as empty. */
  function TicketsOf(event: Event): seq<Ticket> {
    if event.tickets.None? then [] else event.tickets.value
  }

  /** The user as `saveBookedTicket` saves it: the new id appended to its list. */
  function LinkToUser(user: User, id: string): (u: User)
    ensures u.tickets == Some(TicketIdsOf(user) + [id])
    ensures u.(tickets := user.tickets) == user
  {
    user.(tickets := Some(TicketIdsOf(user) + [id]))
  }

  /** The event as `saveBookedTicket` saves it: the new ticket appended. */
  function LinkToEvent(event: Event, t: Ticket): (e: Event)
    ensures e.tickets == Some(TicketsOf(event) + [t])
    ensures e.(tickets := event.tickets) == event
  {
    event.(tickets := Some(TicketsOf(event) + [t]))
  }

  // ---------------------------------------------------------------------------
  // The booking

  /** The ticket `ticketRepository.save` returns for the booking. */
  function SavedTicket(st: StoreState, user: User, event: Event, place: int, category: Option<Category>): Ticket {
    CreateNewTicket(user.id, event.id, place, category).(id := Some(Decimal(st.nextId)))
  }

  /** The store after the first `n` of the three writes of `saveBookedTicket`
      (save the ticket, save the user, save the event). */
  function AfterWrites(st: StoreState, user: User, event: Event, place: int, category: Option<Category>,
                       n: nat): StoreState
    requires user.id.Some? && event.id.Some?
  {
    var t := SavedTicket(st, user, event, place, category);
    var s1 := if n >= 1 then st.(tickets := st.tickets + [t], nextId := st.nextId + 1) else st;
    var s2 := if n >= 2 then s1.(users := s1.users[user.id.value := LinkToUser(user, t.id.value)]) else s1;
    if n >= 3 then s2.(events := s2.events[event.id.value := LinkToEvent(event, t)]) else s2
  }

  /** How many writes succeed before one raises. */
  function WritesBefore(failing: set<Call>): nat {
    if TicketsSave in failing then 0
    else if UsersSave in failing then 1
    else if EventsSave in failing then 2
    else 3
  }

  /** The user and the event of the request are in the store. */
  predicate Resolves(st: StoreState, req: Request) {
    req.userId.Some? && req.userId.value in st.users && req.eventId.Some? && req.eventId.value in st.events
  }

  function Buyer(st: StoreState, req: Request): User
    requires Resolves(st, req)
  {
    st.users[req.userId.value]
  }

  function Venue(st: StoreState, req: Request): Event
    requires Resolves(st, req)
  {
    st.events[req.eventId.value]
  }

  /** Every business check of the booking passes: the user and the event exist,
      the seat is free, and the account covers the price. */
  predicate Bookable(st: StoreState, req: Request) {
    && Resolves(st, req)
    && !SeatTaken(st.tickets, req.eventId, req.place, req.category)
    && Buyer(st, req).account.Some? && Venue(st, req).ticketPrice.Some?
    && Buyer(st, req).account.value >= Venue(st, req).ticketPrice.value
  }

  /** The first exception `processBookingTicket` raises, in the order of its
      steps: user exists, event exists, seat free, load user, load event, funds,
      then the three writes. */
  function FirstFailure(st: StoreState, req: Request, failing: set<Call>): Option<Failure> {
    if Raised(UsersExistsById, req.userId, failing).Some? then Raised(UsersExistsById, req.userId, failing)
    else if req.userId.value !in st.users then Some(UserNotFound)
    else if Raised(EventsExistsById, req.eventId, failing).Some? then Raised(EventsExistsById, req.eventId, failing)
    else if req.eventId.value !in st.events then Some(EventNotFound)
    else if TicketsExistsBySeat in failing then Some(StoreError(TicketsExistsBySeat))
    else if SeatTaken(st.tickets, req.eventId, req.place, req.category) then Some(AlreadyBooked)
    else if UsersFindById in failing then Some(StoreError(UsersFindById))
    else if EventsFindById in failing then Some(StoreError(EventsFindById))
    else match ThrowIfUserNotHaveEnoughMoney(Buyer(st, req), Venue(st, req))
      case Fail(e) => Some(e)
      case Pass =>
        if TicketsSave in failing then Some(StoreError(TicketsSave))
        else if UsersSave in failing then Some(StoreError(UsersSave))
        else if EventsSave in failing then Some(StoreError(EventsSave))
        else None
  }

  /** The booking raises nothing exactly when every check passes and none of its
      repository calls fails. */
  lemma FirstFailureNoneIff(st: StoreState, req: Request, failing: set<Call>)
    ensures FirstFailure(st, req, failing).None? <==> Bookable(st, req) && BookingCalls !! failing
  {
  }

  /** The store `processBookingTicket` leaves behind, before any rollback: the
      writes made before the one that raised, or none when a check or a read
      raised. */
  function ProcessState(st: StoreState, req: Request, failing: set<Call>): StoreState
    requires WellFormed(st)
  {
    if Bookable(st, req) && ReadCalls !! failing then
      AfterWrites(st, Debited(Buyer(st, req), Venue(st, req)), Venue(st, req), req.place, req.category,
                  WritesBefore(failing))
    else st
  }

  /** `bookTicket`: all four changes (debit, new ticket, link to the user, link
      to the event) when every check passes and no repository call fails;
      otherwise the store as it was and `null`. */
  function Book(st: StoreState, req: Request, failing: set<Call>): BookResult
    requires WellFormed(st)
  {
    if Bookable(st, req) && BookingCalls !! failing then
      var paid := Debited(Buyer(st, req), Venue(st, req));
      BookResult(AfterWrites(st, paid, Venue(st, req), req.place, req.category, 3),
                 Some(SavedTicket(st, paid, Venue(st, req), req.place, req.category)))
    else BookResult(st, None)
  }

  // ---------------------------------------------------------------------------
  // Cancellation and the paged queries

  /** `cancelTicket`: the ticket record with that id is deleted and `true`
      returned, or nothing changes and `false` is returned when the delete
      raises. */
  function Cancel(st: StoreState, ticketId: Option<string>, failing: set<Call>): CancelResult {
    if Raised(TicketsDeleteById, ticketId, failing).Some? then CancelResult(st, false)
    else CancelResult(st.(tickets := Filter(st.tickets, NotWithId(ticketId.value))), true)
  }

  /** `getBookedTicketsByUserId`: page `pageNum - 1` of the user's tickets, or
      empty when the page request is invalid or the query raises. */
  function UserPage(st: StoreState, userId: Option<string>, pageSize: int, pageNum: int,
                    failing: set<Call>): seq<Ticket>
  {
    if !ValidPageRequest(pageNum - 1, pageSize) || TicketsByUserId in failing then []
    else PageContent(Filter(st.tickets, OwnedBy(userId)), pageNum - 1, pageSize)
  }

  /** `getBookedTickets`: the same, for the tickets of an event. */
  function EventPage(st: StoreState, eventId: Option<string>, pageSize: int, pageNum: int,
                     failing: set<Call>): seq<Ticket>
  {
    if !ValidPageRequest(pageNum - 1, pageSize) || TicketsByEventId in failing then []
    else PageContent(Filter(st.tickets, SoldFor(eventId)), pageNum - 1, pageSize)
  }
}

/** `TicketServiceImpl` over the in-memory store. Every exception the Java code
    raises and catches is a `Result`/`Outcome` failure here; `bookTicket`'s
    transaction is a snapshot of the store taken on entry and restored when the
    booking raised. */
module TicketService {
  import opened JavaLang
  import opened Paging
  import opened Tickets
  import opened Users
  import opened Events
  import opened Store
  import opened TicketServiceSpec

  class TicketServiceImpl {
    /** The user, event and ticket repositories. */
    const store: Store

    constructor (store: Store)
      ensures this.store == store
    {
      this.store := store;
    }

    /** `bookTicket`: runs the booking; when it raised, rolls the store back to
        where it was and returns `null`. */
    method BookTicket(userId: Option<string>, eventId: Option<string>, place: int, category: Option<Category>)
      returns (ticket: MutableTicket?)
      requires store.Valid()
      modifies store
      ensures store.Valid()
      ensures var r := Book(old(store.State()), Request(userId, eventId, place, category), store.failing);
              && store.State() == r.state
              && (ticket == null <==> r.ticket.None?)
              && (ticket != null ==> fresh(ticket) && ticket.Value() == r.ticket.value)
    {
      var before := store.State();
      var r := ProcessBookingTicket(userId, eventId, place, category);
      FirstFailureNoneIff(before, Request(userId, eventId, place, category), store.failing);
      if r.Err? {
        store.Restore(before);
        ticket := null;
      } else {
        ticket := r.value;
      }
    }

    /** `processBookingTicket`: the checks in order, then the debit and the
        writes. Raises the first failure; the writes made before it stay in the
        store until the caller rolls back. */
    method ProcessBookingTicket(userId: Option<string>, eventId: Option<string>, place: int,
                                category: Option<Category>) returns (r: Result<MutableTicket>)
      requires store.Valid()
      modifies store
      ensures store.Valid()
      ensures var st, req := old(store.State()), Request(userId, eventId, place, category);
              var f := FirstFailure(st, req, store.failing);
              && (r.Err? <==> f.Some?)
              && (r.Err? ==> r.error == f.value)
              && store.State() == ProcessState(st, req, store.failing)
              && (r.Ok? ==> Bookable(st, req) && fresh(r.value))
              && (r.Ok? && Bookable(st, req) ==>
                    r.value.Value() == SavedTicket(st, Debited(Buyer(st, req), Venue(st, req)), Venue(st, req),
                                                   place, category))
    {
      ghost var st, req := store.State(), Request(userId, eventId, place, category);
      :- ThrowIfUserNotExist(userId);
      :- ThrowIfEventNotExist(eventId);
      :- ThrowIfTicketAlreadyBooked(eventId, place, category);
      var user :- GetUserById(userId);
      var event :- GetEvent(eventId);
      :- ThrowIfUserNotHaveEnoughMoney(user.Value(), event.Value());
      assert Bookable(st, req) && ReadCalls !! store.failing && user.Value() == Buyer(st, req);
      BuyTicket(user, event);
      r := SaveBookedTicket(user, event, place, category);
    }

    /** `saveBookedTicket`: saves a new ticket, then the user with the ticket
        id appended to its list, then the event with the ticket appended to its
        list; a `null` list becomes a new one. Stops at the first save that
        raises. */
    method SaveBookedTicket(user: MutableUser, event: MutableEvent, place: int, category: Option<Category>)
      returns (r: Result<MutableTicket>)
      requires store.Valid() && user.id.Some? && event.id.Some?
      modifies store, user, event
      ensures store.Valid()
      ensures var n := WritesBefore(store.failing);
              var t := SavedTicket(old(store.State()), old(user.Value()), old(event.Value()), place, category);
              && store.State() == AfterWrites(old(store.State()), old(user.Value()), old(event.Value()),
                                              place, category, n)
              && user.Value() == (if n >= 1 then LinkToUser(old(user.Value()), t.id.value) else old(user.Value()))
              && event.Value() == (if n >= 2 then LinkToEvent(old(event.Value()), t) else old(event.Value()))
              && (n == 3 ==> r.Ok? && fresh(r.value) && r.value.Value() == t)
      ensures TicketsSave in store.failing ==> r == Err(StoreError(TicketsSave))
      ensures TicketsSave !in store.failing && UsersSave in store.failing ==> r == Err(StoreError(UsersSave))
      ensures TicketsSave !in store.failing && UsersSave !in store.failing && EventsSave in store.failing ==>
                r == Err(StoreError(EventsSave))
    {
      ghost var st, u0, e0 := store.State(), user.Value(), event.Value();
      ghost var t := SavedTicket(st, u0, e0, place, category);
      var created := new MutableTicket.Unsaved(user.id, event.id, place, category);  // createNewTicket
      var ticket :- store.SaveNewTicket(created);
      assert ticket.Value() == t && store.State() == AfterWrites(st, u0, e0, place, category, 1);
      if user.tickets.None? {
        user.SetTickets(Some([]));
      }
      user.tickets := Some(user.tickets.value + [ticket.id.value]);  // getTickets().add
      assert user.Value() == LinkToUser(u0, t.id.value);
      var savedUser :- store.SaveUser(user);
      assert store.State() == AfterWrites(st, u0, e0, place, category, 2);
      if event.tickets.None? {
        event.SetTickets(Some([]));
      }
      event.tickets := Some(event.tickets.value + [ticket.Value()]);  // getTickets().add
      assert event.Value() == LinkToEvent(e0, t);
      var savedEvent :- store.SaveEvent(event);
      r := Ok(ticket);
    }

    /** `buyTicket`: sets the user's account to
        `subtractTicketPriceFromUserMoney(user, event)`. */
    method BuyTicket(user: MutableUser, event: MutableEvent)
      requires user.account.Some? && event.ticketPrice.Some?
      modifies user
      ensures user.Value() == Debited(old(user.Value()), event.Value())
    {
      user.SetAccount(Some(SubtractTicketPriceFromUserMoney(user.Value(), event.Value())));
    }

    /** `throwRuntimeExceptionIfUserNotExist`. */
    method ThrowIfUserNotExist(userId: Option<string>) returns (o: Outcome)
      ensures var f := Raised(UsersExistsById, userId, store.failing);
              o == if f.Some? then Fail(f.value)
                   else if userId.value in store.users then Pass else Fail(UserNotFound)
    {
      var found := store.ExistsUserById(userId);
      if found.Err? {
        return Fail(found.error);
      }
      o := if found.value then Pass else Fail(UserNotFound);
    }

    /** `throwRuntimeExceptionIfEventNotExist`. */
    method ThrowIfEventNotExist(eventId: Option<string>) returns (o: Outcome)
      ensures var f := Raised(EventsExistsById, eventId, store.failing);
              o == if f.Some? then Fail(f.value)
                   else if eventId.value in store.events then Pass else Fail(EventNotFound)
    {
      var found := store.ExistsEventById(eventId);
      if found.Err? {
        return Fail(found.error);
      }
      o := if found.value then Pass else Fail(EventNotFound);
    }

    /** `throwRuntimeExceptionIfTicketAlreadyBooked`. */
    method ThrowIfTicketAlreadyBooked(eventId: Option<string>, place: int, category: Option<Category>)
      returns (o: Outcome)
      ensures o == if TicketsExistsBySeat in store.failing then Fail(StoreError(TicketsExistsBySeat))
                   else if SeatTaken(store.tickets, eventId, place, category) then Fail(AlreadyBooked)
                   else Pass
    {
      var taken := store.ExistsBySeat(eventId, place, category);
      if taken.Err? {
        return Fail(taken.error);
      }
      o := if taken.value then Fail(AlreadyBooked) else Pass;
    }

    /** `getUserById`: `findById(...).orElseThrow(...)`. */
    method GetUserById(userId: Option<string>) returns (r: Result<MutableUser>)
      ensures var f := Raised(UsersFindById, userId, store.failing);
              && (f.Some? ==> r == Err(f.value))
              && (f.None? && userId.value !in store.users ==> r == Err(UserNotFound))
              && (f.None? && userId.value in store.users ==>
                    r.Ok? && fresh(r.value) && r.value.Value() == store.users[userId.value])
    {
      var found :- store.FindUserById(userId);
      if found.None? {
        return Err(UserNotFound);
      }
      r := Ok(found.value);
    }

    /** `getEvent`: `findById(...).orElseThrow(...)`. */
    method GetEvent(eventId: Option<string>) returns (r: Result<MutableEvent>)
      ensures var f := Raised(EventsFindById, eventId, store.failing);
              && (f.Some? ==> r == Err(f.value))
              && (f.None? && eventId.value !in store.events ==> r == Err(EventNotFound))
              && (f.None? && eventId.value in store.events ==>
                    r.Ok? && fresh(r.value) && r.value.Value() == store.events[eventId.value])
    {
      var found :- store.FindEventById(eventId);
      if found.None? {
        return Err(EventNotFound);
      }
      r := Ok(found.value);
    }

    /** `cancelTicket`: deletes the ticket record and answers whether the delete
        went through. */
    method CancelTicket(ticketId: Option<string>) returns (deleted: bool)
      requires store.Valid()
      modifies store
      ensures store.Valid()
      ensures var c := Cancel(old(store.State()), ticketId, store.failing);
              store.State() == c.state && deleted == c.deleted
    {
      var o := store.DeleteTicketById(ticketId);
      deleted := o.Pass?;
    }

    /** `getBookedTicketsByUserId`: page `pageNum` (counted from 1) of the
        user's tickets; an invalid page request, a failing query and an empty
        page all give an empty list. */
    method GetBookedTicketsByUserId(userId: Option<string>, pageSize: int, pageNum: int)
      returns (tickets: seq<Ticket>)
      ensures tickets == UserPage(store.State(), userId, pageSize, pageNum, store.failing)
    {
      if !ValidPageRequest(pageNum - 1, pageSize) {
        return [];
      }
      var page := store.TicketsPageByUserId(pageNum - 1, pageSize, userId);
      if page.Err? || |page.value| == 0 {
        return [];
      }
      tickets := page.value;
    }

    /** `getBookedTickets`: the same for the tickets of an event. */
    method GetBookedTickets(eventId: Option<string>, pageSize: int, pageNum: int)
      returns (tickets: seq<Ticket>)
      ensures tickets == EventPage(store.State(), eventId, pageSize, pageNum, store.failing)
    {
      if !ValidPageRequest(pageNum - 1, pageSize) {
        return [];
      }
      var page := store.TicketsPageByEventId(pageNum - 1, pageSize, eventId);
      if page.Err? || |page.value| == 0 {
        return [];
      }
      tickets := page.value;
    }
  }
}

/** What the booking service guarantees, proved about the functions that
    specify its operations (the methods of `TicketServiceImpl` are proved equal
    to them): how each check rejects a booking, what a successful booking
    changes, seat uniqueness, rollback, cancellation and the paged queries. */
module TicketServiceProperties {
  import opened JavaLang
  import opened Sequences
  import opened TicketIds
  import opened Paging
  import opened Tickets
  import opened Users
  import opened Events
  import opened Store
  import opened TicketServiceSpec

  // ---------------------------------------------------------------------------
  // The checks, in order

  /** An unknown or `null` user id books nothing and changes nothing; with the
      user repository up, the reason is that the user does not exist. */
  lemma UnknownUserBooksNothing(st: StoreState, req: Request, failing: set<Call>)
    requires WellFormed(st)
    requires req.userId.None? || req.userId.value !in st.users
    ensures Book(st, req, failing) == BookResult(st, None)
    ensures req.userId.Some? && UsersExistsById !in failing ==> FirstFailure(st, req, failing) == Some(UserNotFound)
  {
  }

  /** A known user with an unknown or `null` event id books nothing. */
  lemma UnknownEventBooksNothing(st: StoreState, req: Request, failing: set<Call>)
    requires WellFormed(st)
    requires req.userId.Some? && req.userId.value in st.users
    requires req.eventId.None? || req.eventId.value !in st.events
    ensures Book(st, req, failing) == BookResult(st, None)
    ensures req.eventId.Some? && UsersExistsById !in failing && EventsExistsById !in failing ==>
              FirstFailure(st, req, failing) == Some(EventNotFound)
  {
  }

  /** A seat some ticket already occupies cannot be booked. */
  lemma TakenSeatBooksNothing(st: StoreState, req: Request, failing: set<Call>)
    requires WellFormed(st) && Resolves(st, req)
    requires SeatTaken(st.tickets, req.eventId, req.place, req.category)
    ensures Book(st, req, failing) == BookResult(st, None)
    ensures {UsersExistsById, EventsExistsById, TicketsExistsBySeat} !! failing ==>
              FirstFailure(st, req, failing) == Some(AlreadyBooked)
  {
  }

  /** Once user, event and seat are fine, the funds decide: the booking goes
      through exactly when the account is set and at least the price, so a
      balance equal to the price is enough; an unset account or price fails with
      a null reference, a smaller balance with too little money. */
  lemma FundsDecideBooking(st: StoreState, req: Request, failing: set<Call>)
    requires WellFormed(st) && Resolves(st, req)
    requires !SeatTaken(st.tickets, req.eventId, req.place, req.category)
    requires BookingCalls !! failing
    ensures var account, price := Buyer(st, req).account, Venue(st, req).ticketPrice;
            Book(st, req, failing).ticket.Some? <==> account.Some? && price.Some? && account.value >= price.value
    ensures Buyer(st, req).account.None? || Venue(st, req).ticketPrice.None? ==>
              FirstFailure(st, req, failing) == Some(NullAmount)
    ensures var account, price := Buyer(st, req).account, Venue(st, req).ticketPrice;
            account.Some? && price.Some? && account.value < price.value ==>
              FirstFailure(st, req, failing) == Some(NotEnoughMoney)
  {
  }

  /** A booking whose checks pass still fails, changing nothing, when any of its
      repository calls raises. */
  lemma StoreErrorBooksNothing(st: StoreState, req: Request, failing: set<Call>, c: Call)
    requires WellFormed(st) && c in BookingCalls && c in failing
    ensures Book(st, req, failing) == BookResult(st, None)
    ensures FirstFailure(st, req, failing).Some?
  {
  }

  // ---------------------------------------------------------------------------
  // A successful booking

  /** On success the user's account is debited by exactly the ticket price, is
      not negative afterwards, and the user keeps its identity under `equals`. */
  lemma BookingDebitsExactlyThePrice(st: StoreState, req: Request, failing: set<Call>)
    requires WellFormed(st)
    requires Book(st, req, failing).ticket.Some?
    ensures Bookable(st, req)
    ensures var after := Book(st, req, failing).state.users[req.userId.value];
            var before := st.users[req.userId.value];
            && after.account == Some(before.account.value - Venue(st, req).ticketPrice.value)
            && after.account.value >= 0
            && after.Equals(Some(before))
  {
  }

  /** On success the returned ticket is for the requested user, event, place and
      category, and its id is one no stored ticket has. */
  lemma BookedTicketIsTheRequestedSeat(st: StoreState, req: Request, failing: set<Call>)
    requires WellFormed(st)
    requires Book(st, req, failing).ticket.Some?
    ensures var t := Book(st, req, failing).ticket.value;
            && t.userId == req.userId && t.eventId == req.eventId
            && t.place == Some(req.place) && t.category == req.category
            && t.id.Some?
            && forall i :: 0 <= i < |st.tickets| ==> st.tickets[i].id != t.id
  {
    var t := Book(st, req, failing).ticket.value;
    ParseDecimal(st.nextId);
    forall i | 0 <= i < |st.tickets| ensures st.tickets[i].id != t.id {
      assert IssuedBefore(st.tickets[i].id, st.nextId);
    }
  }

  /** On success the ticket is appended to the ticket store, its id to the
      user's list and the ticket to the event's list (a missing list becoming a
      one-element list), and nothing else in the store changes. */
  lemma BookingLinksTicketEverywhere(st: StoreState, req: Request, failing: set<Call>)
    requires WellFormed(st)
    requires Book(st, req, failing).ticket.Some?
    ensures var r := Book(st, req, failing);
            var t, uid, eid := r.ticket.value, req.userId.value, req.eventId.value;
            && r.state.tickets == st.tickets + [t]
            && r.state.users.Keys == st.users.Keys && r.state.events.Keys == st.events.Keys
            && r.state.users[uid].tickets == Some(TicketIdsOf(st.users[uid]) + [t.id.value])
            && r.state.events[eid] == st.events[eid].(tickets := Some(TicketsOf(st.events[eid]) + [t]))
            && (forall k :: k in st.users && k != uid ==> r.state.users[k] == st.users[k])
            && (forall k :: k in st.events && k != eid ==> r.state.events[k] == st.events[k])
  {
  }

  /** Among the stored tickets, in insertion order, the user's tickets and the
      event's tickets after a booking are those before followed by the new one. */
  lemma BookedTicketIsListedLast(st: StoreState, req: Request, failing: set<Call>)
    requires WellFormed(st)
    requires Book(st, req, failing).ticket.Some?
    ensures var r := Book(st, req, failing);
            && Filter(r.state.tickets, OwnedBy(req.userId)) == Filter(st.tickets, OwnedBy(req.userId)) + [r.ticket.value]
            && Filter(r.state.tickets, SoldFor(req.eventId)) == Filter(st.tickets, SoldFor(req.eventId)) + [r.ticket.value]
  {
  }

  // ---------------------------------------------------------------------------
  // Invariants a booking preserves

  /** Booking keeps the repositories well formed: documents under their own id,
      ticket ids issued by the store and distinct. */
  lemma BookingPreservesWellFormed(st: StoreState, req: Request, failing: set<Call>)
    requires WellFormed(st)
    ensures WellFormed(Book(st, req, failing).state)
  {
    var r := Book(st, req, failing);
    if r.ticket.Some? {
      var t := r.ticket.value;
      BookedTicketIsTheRequestedSeat(st, req, failing);
      ParseDecimal(st.nextId);
      var s := r.state;
      assert s.tickets == st.tickets + [t];
      forall i | 0 <= i < |s.tickets| ensures IssuedBefore(s.tickets[i].id, s.nextId) {
        if i < |st.tickets| {
          assert s.tickets[i] == st.tickets[i];
          assert IssuedBefore(st.tickets[i].id, st.nextId);
        }
      }
      forall i, j | 0 <= i < j < |s.tickets| ensures IdOf(s.tickets[i]) != IdOf(s.tickets[j]) {
        if j < |st.tickets| {
          assert s.tickets[i] == st.tickets[i] && s.tickets[j] == st.tickets[j];
        }
      }
    }
  }

  /** Booking never sells a seat twice: if no two tickets share a seat before,
      none do after. */
  lemma BookingPreservesSeatUniqueness(st: StoreState, req: Request, failing: set<Call>)
    requires WellFormed(st) && SeatsUnique(st.tickets)
    ensures SeatsUnique(Book(st, req, failing).state.tickets)
  {
  }

  /** After a successful booking, every later booking of the same seat fails,
      for any user and whatever the repositories do. */
  lemma SameSeatCannotBeBookedTwice(st: StoreState, req: Request, failing: set<Call>,
                                    again: Request, failingLater: set<Call>)
    requires WellFormed(st)
    requires Book(st, req, failing).ticket.Some?
    requires again.eventId == req.eventId && again.place == req.place && again.category == req.category
    ensures WellFormed(Book(st, req, failing).state)
    ensures var after := Book(st, req, failing).state;
            Book(after, again, failingLater) == BookResult(after, None)
  {
    BookingPreservesWellFormed(st, req, failing);
    var r := Book(st, req, failing);
    var t := r.ticket.value;
    assert r.state.tickets[|st.tickets|] == t;
    assert SeatTaken(r.state.tickets, again.eventId, again.place, again.category);
  }

  /** Every ticket is linked from its user's ticket list and its event's ticket
      list. */
  predicate Linked(st: StoreState, t: Ticket) {
    && t.id.Some? && t.userId.Some? && t.eventId.Some?
    && t.userId.value in st.users && t.id.value in TicketIdsOf(st.users[t.userId.value])
    && t.eventId.value in st.events && t in TicketsOf(st.events[t.eventId.value])
  }

  predicate TicketsLinked(st: StoreState) {
    forall i :: 0 <= i < |st.tickets| ==> Linked(st, st.tickets[i])
  }

  /** Booking keeps every ticket linked from its user and its event: the new one
      because both lists are written with it, the old ones because lists only
      grow. */
  lemma BookingPreservesLinks(st: StoreState, req: Request, failing: set<Call>)
    requires WellFormed(st) && TicketsLinked(st)
    ensures TicketsLinked(Book(st, req, failing).state)
  {
  }

  // ---------------------------------------------------------------------------
  // All or nothing

  /** Without the rollback a failing write would leave a partial booking behind:
      when saving the user raises, the ticket is already stored but the user is
      neither debited nor linked; when saving the event raises, the user is
      debited but the event does not list the ticket. `bookTicket` discards both
      and leaves the store as it was. */
  lemma RollbackDiscardsPartialWrites(st: StoreState, req: Request, failing: set<Call>)
    requires WellFormed(st) && Bookable(st, req) && ReadCalls !! failing
    requires TicketsSave !in failing && (UsersSave in failing || EventsSave in failing)
    ensures var partial := ProcessState(st, req, failing);
            && |partial.tickets| == |st.tickets| + 1
            && (UsersSave in failing ==> partial.users == st.users)
            && (UsersSave !in failing ==>
                  partial.users[req.userId.value].account != st.users[req.userId.value].account
                  || Venue(st, req).ticketPrice.value == 0)
            && partial.events == st.events
    ensures Book(st, req, failing) == BookResult(st, None)
  {
  }

  /** `bookTicket` is all or nothing: it returns a ticket exactly when the store
      changed, and then the store holds every write `processBookingTicket` made;
      when it returns `null` the store is as it was. */
  lemma BookIsAllOrNothing(st: StoreState, req: Request, failing: set<Call>)
    requires WellFormed(st)
    ensures Book(st, req, failing).ticket.None? <==> Book(st, req, failing).state == st
    ensures Book(st, req, failing).ticket.Some? ==> Book(st, req, failing).state == ProcessState(st, req, failing)
  {
    var r := Book(st, req, failing);
    if r.ticket.Some? {
      assert |r.state.tickets| == |st.tickets| + 1;
    }
  }

  // ---------------------------------------------------------------------------
  // Cancellation

  /** `cancelTicket` answers `true` exactly when it got a non-`null` id and the
      delete did not raise; then only the ticket with that id is gone. Users,
      events and their ticket lists never change, and `false` leaves everything
      as it was. */
  lemma CancelDeletesOnlyTheTicket(st: StoreState, ticketId: Option<string>, failing: set<Call>)
    ensures var c := Cancel(st, ticketId, failing);
            && (c.deleted <==> ticketId.Some? && TicketsDeleteById !in failing)
            && (!c.deleted ==> c.state == st)
            && c.state.users == st.users && c.state.events == st.events && c.state.nextId == st.nextId
            && (c.deleted ==> forall k :: 0 <= k < |c.state.tickets| ==> c.state.tickets[k].id != ticketId)
            && (c.deleted ==> forall i :: 0 <= i < |st.tickets| && st.tickets[i].id != ticketId ==>
                                 st.tickets[i] in c.state.tickets)
  {
  }

  /** Deleting an id that no ticket has is not an error: the answer is `true`
      and the store is unchanged. */
  lemma CancelOfUnknownIdChangesNothing(st: StoreState, ticketId: string, failing: set<Call>)
    requires TicketsDeleteById !in failing
    requires forall i :: 0 <= i < |st.tickets| ==> st.tickets[i].id != Some(ticketId)
    ensures Cancel(st, Some(ticketId), failing) == CancelResult(st, true)
  {
    FilterKeepsAll(st.tickets, NotWithId(ticketId));
    assert st.(tickets := st.tickets) == st;
  }

  /** Cancellation keeps the repositories well formed, keeps seats unique and
      keeps every remaining ticket linked. */
  lemma CancelPreservesInvariants(st: StoreState, ticketId: Option<string>, failing: set<Call>)
    requires WellFormed(st)
    ensures WellFormed(Cancel(st, ticketId, failing).state)
    ensures SeatsUnique(st.tickets) ==> SeatsUnique(Cancel(st, ticketId, failing).state.tickets)
    ensures TicketsLinked(st) ==> TicketsLinked(Cancel(st, ticketId, failing).state)
  {
    var c := Cancel(st, ticketId, failing);
    if c.deleted {
      var p := NotWithId(ticketId.value);
      FilterKeepsKeysDistinct(st.tickets, p, IdOf);
      if SeatsUnique(st.tickets) {
        FilterKeepsKeysDistinct(st.tickets, p, Seat);
      }
      forall k | 0 <= k < |c.state.tickets| ensures IssuedBefore(c.state.tickets[k].id, st.nextId) {
        var m :| 0 <= m < |st.tickets| && st.tickets[m] == c.state.tickets[k];
      }
      if TicketsLinked(st) {
        forall k | 0 <= k < |c.state.tickets| ensures Linked(c.state, c.state.tickets[k]) {
          var m :| 0 <= m < |st.tickets| && st.tickets[m] == c.state.tickets[k];
        }
      }
    }
  }

  /** Cancelling a booked ticket frees its seat for a new booking. */
  lemma CancelFreesTheSeat(st: StoreState, i: nat, failing: set<Call>)
    requires WellFormed(st) && SeatsUnique(st.tickets) && i < |st.tickets|
    requires TicketsDeleteById !in failing
    ensures var t := st.tickets[i];
            var c := Cancel(st, t.id, failing);
            c.deleted && t.place.Some? ==> !SeatTaken(c.state.tickets, t.eventId, t.place.value, t.category)
  {
  }

  /** Cancellation does not unlink: the cancelled ticket's id stays in its
      user's list and the ticket in its event's list, though no stored ticket
      has that id any more. */
  lemma CancelLeavesLinksDangling(st: StoreState, i: nat, failing: set<Call>)
    requires WellFormed(st) && TicketsLinked(st) && i < |st.tickets|
    requires TicketsDeleteById !in failing
    ensures var t := st.tickets[i];
            var c := Cancel(st, t.id, failing);
            && c.deleted
            && t.id.value in TicketIdsOf(c.state.users[t.userId.value])
            && t in TicketsOf(c.state.events[t.eventId.value])
            && forall k :: 0 <= k < |c.state.tickets| ==> c.state.tickets[k].id != t.id
  {
  }

  // ---------------------------------------------------------------------------
  // The paged queries

  /** A page of a user's tickets holds at most `pageSize` stored tickets of that
      user; an invalid page request or a failing query gives an empty page. */
  lemma UserPageHoldsOnlyTheUsersTickets(st: StoreState, userId: Option<string>, pageSize: int, pageNum: int,
                                         failing: set<Call>)
    ensures var p := UserPage(st, userId, pageSize, pageNum, failing);
            && (forall k :: 0 <= k < |p| ==> p[k].userId == userId && p[k] in st.tickets)
            && (pageNum < 1 || pageSize < 1 || TicketsByUserId in failing ==> p == [])
            && |p| <= if pageSize < 1 then 0 else pageSize
  {
    var p := UserPage(st, userId, pageSize, pageNum, failing);
    if p != [] {
      var all := Filter(st.tickets, OwnedBy(userId));
      forall k | 0 <= k < |p| ensures p[k].userId == userId && p[k] in st.tickets {
        assert p[k] == all[(pageNum - 1) * pageSize + k];
        assert OwnedBy(userId)(p[k]);
      }
    }
  }

  /** A page of an event's tickets holds at most `pageSize` stored tickets of
      that event; an invalid page request or a failing query gives an empty
      page. */
  lemma EventPageHoldsOnlyTheEventsTickets(st: StoreState, eventId: Option<string>, pageSize: int, pageNum: int,
                                           failing: set<Call>)
    ensures var p := EventPage(st, eventId, pageSize, pageNum, failing);
            && (forall k :: 0 <= k < |p| ==> p[k].eventId == eventId && p[k] in st.tickets)
            && (pageNum < 1 || pageSize < 1 || TicketsByEventId in failing ==> p == [])
            && |p| <= if pageSize < 1 then 0 else pageSize
  {
    var p := EventPage(st, eventId, pageSize, pageNum, failing);
    if p != [] {
      var all := Filter(st.tickets, SoldFor(eventId));
      forall k | 0 <= k < |p| ensures p[k].eventId == eventId && p[k] in st.tickets {
        assert p[k] == all[(pageNum - 1) * pageSize + k];
        assert SoldFor(eventId)(p[k]);
      }
    }
  }

  /** Paging loses no ticket: the user's `k`-th ticket is item `k % pageSize` of
      page `k / pageSize + 1`. */
  lemma EveryUserTicketIsOnAPage(st: StoreState, userId: Option<string>, pageSize: int, failing: set<Call>, k: nat)
    requires pageSize >= 1 && TicketsByUserId !in failing
    requires k < |Filter(st.tickets, OwnedBy(userId))|
    ensures var p := UserPage(st, userId, pageSize, k / pageSize + 1, failing);
            k % pageSize < |p| && p[k % pageSize] == Filter(st.tickets, OwnedBy(userId))[k]
  {
    var all := Filter(st.tickets, OwnedBy(userId));
    var q := k / pageSize;
    assert UserPage(st, userId, pageSize, q + 1, failing) == PageContent(all, q, pageSize);
    ResultOnItsPage(all, pageSize, k);
  }

  /** Paging loses no ticket of an event either. */
  lemma EveryEventTicketIsOnAPage(st: StoreState, eventId: Option<string>, pageSize: int, failing: set<Call>, k: nat)
    requires pageSize >= 1 && TicketsByEventId !in failing
    requires k < |Filter(st.tickets, SoldFor(eventId))|
    ensures var p := EventPage(st, eventId, pageSize, k / pageSize + 1, failing);
            k % pageSize < |p| && p[k % pageSize] == Filter(st.tickets, SoldFor(eventId))[k]
  {
    var all := Filter(st.tickets, SoldFor(eventId));
    var q := k / pageSize;
    assert EventPage(st, eventId, pageSize, q + 1, failing) == PageContent(all, q, pageSize);
    ResultOnItsPage(all, pageSize, k);
  }

  /** When every ticket is linked, no ticket lacks a user, so asking for the
      tickets of a `null` user gives an empty list. */
  lemma NullUserHasNoTickets(st: StoreState, pageSize: int, pageNum: int, failing: set<Call>)
    requires TicketsLinked(st)
    ensures UserPage(st, None, pageSize, pageNum, failing) == []
  {
    forall i | 0 <= i < |st.tickets| ensures !OwnedBy(None)(st.tickets[i]) {
      assert Linked(st, st.tickets[i]);
    }
    FilterDropsAll(st.tickets, OwnedBy(None));
  }

  // ---------------------------------------------------------------------------
  // Worked examples

  function ExampleStore(balance: int): StoreState {
    StoreState(map["u1" := User.Of(Some("u1"), Some("Ann"), Some("ann@example.com")).(account := Some(balance))],
               map["e1" := Event(Some("e1"), Some(60), None)], [], 0)
  }

  const SeatFiveBar: Request := Request(Some("u1"), Some("e1"), 5, Some(Bar))

  /** A user with 100 books seat 5 (BAR) of an event priced 60: the balance
      becomes 40 and one ticket exists. Booking the seat again fails and leaves
      the balance at 40. A user with 10 cannot book at all. */
  lemma WorkedBookingExamples()
    ensures WellFormed(ExampleStore(100))
    ensures var first := Book(ExampleStore(100), SeatFiveBar, {});
            && first.ticket == Some(Ticket.Of(Some("0"), Some("u1"), Some("e1"), 5, Some(Bar)))
            && first.state.users["u1"].account == Some(40)
            && |first.state.tickets| == 1
            && WellFormed(first.state)
            && Book(first.state, SeatFiveBar, {}) == BookResult(first.state, None)
    ensures Book(ExampleStore(10), SeatFiveBar, {}) == BookResult(ExampleStore(10), None)
  {
    var st := ExampleStore(100);
    assert Decimal(0) == "0";
    BookingPreservesWellFormed(st, SeatFiveBar, {});
    SameSeatCannotBeBookedTwice(st, SeatFiveBar, {}, SeatFiveBar, {});
  }
}

# Ticket booking service, modelled in Dafny

This project models the booking core of a ticket-booking service built on
Spring and MongoDB: the service class `TicketServiceImpl` and the `Ticket` and
`User` documents it reads and writes.

- **Booking** (`bookTicket`). It first checks, in this order, that the user
  exists, that the event exists and that the seat (event, place, category) is
  free. It then loads the user and the event and checks that the account covers
  the ticket price. After that it debits the account, saves a new ticket, and
  saves the user and the event with the ticket appended to their lists. Any
  exception rolls the transaction back and returns `null`.
- **Cancelling** (`cancelTicket`). It deletes the ticket record only, and
  answers `false` only when the delete raises.
- **Paged queries** (`getBookedTicketsByUserId`, `getBookedTickets`). They
  return page `pageNum - 1` of the user's or the event's tickets. An invalid
  page request, a failing query and an empty page all give an empty list.

Structure:

- Modules `Tickets` (`ticket.dfy`), `Users` (`user.dfy`) and `Events`
  (`event.dfy`) hold two things for each entity:
  - a value datatype for the stored document, whose `null`-able fields are
    `Option`s;
  - a class for the mutable Java object, with constructors and setters that
    update its fields.

  `equals` and `hashCode` follow the Java definitions, including Java's 32-bit
  `String.hashCode` over UTF-16 code units and `Objects.hash` (module
  `JavaLang`).
- Module `Store` is one class standing for the three repositories:
  - users and events in maps keyed by id;
  - tickets in a sequence, in insertion order;
  - a counter from which fresh ticket ids are made (module `TicketIds`).

  Finders hand out new objects read from the stored documents, and saves store
  an object's current value. A fixed set `failing` of repository calls raises,
  which stands for storage errors. A `null` id handed to a repository raises
  `IllegalArgumentException`, as Spring Data does.
- Module `TicketService` holds the service class. Exceptions are `Result` and
  `Outcome` failures propagated with `:-`. The transaction is a snapshot of the
  store taken on entry to `bookTicket` and restored when the booking raised.
- Module `TicketServiceSpec` states each operation's outcome as a function of
  the store: `Book`, `Cancel`, `UserPage`, `EventPage`, the order of checks
  `FirstFailure`, and the partial writes `ProcessState`. The methods are proved
  equal to these functions.
- Module `TicketServiceProperties` proves what the service guarantees about
  those functions.

Money is an exact integer amount (minor units) where the source has
`BigDecimal`; `compareTo` and `subtract` on such amounts are exact.

`deleteById` of an id no ticket has does not raise, so `cancelTicket` answers
`true` for it (`CancelOfUnknownIdChangesNothing`).

## Model

| member | source | states |
|---|---|---|
| Tickets.Ticket.Blank | src/main/java/ua/epam/mishchenko/ticketbooking/model/Ticket.java:48-49 | `Ticket()` leaves all five fields `null`. |
| Tickets.Ticket.WithId | src/main/java/ua/epam/mishchenko/ticketbooking/model/Ticket.java:67-70 | `Ticket(String id)` sets the id only. |
| Tickets.Ticket.Of | src/main/java/ua/epam/mishchenko/ticketbooking/model/Ticket.java:59-65 | The five-argument constructor sets every field to its argument. |
| Tickets.Ticket.Unsaved | src/main/java/ua/epam/mishchenko/ticketbooking/model/Ticket.java:78-83 | The four-argument constructor leaves the id unset; giving it an id yields exactly the five-argument ticket with the same arguments. |
| Tickets.EqualsIffSameButUser | src/main/java/ua/epam/mishchenko/ticketbooking/model/Ticket.java:175-180 | `equals` holds exactly when id, eventId, place and category agree; userId is not compared. |
| Tickets.Ticket.Equals | src/main/java/ua/epam/mishchenko/ticketbooking/model/Ticket.java:175-180 | Every ticket equals itself, none equals `null`, and equal tickets have equal `Objects.hash(id, eventId, place, category)`. |
| Tickets.Ticket.HashCode | src/main/java/ua/epam/mishchenko/ticketbooking/model/Ticket.java:187-189 | `hashCode` is a Java `int`. |
| Tickets.EqualsIsEquivalence | src/main/java/ua/epam/mishchenko/ticketbooking/model/Ticket.java:175-180 | `equals` between tickets is symmetric and transitive. |
| Tickets.UnsavedSameSeatAreEqual | src/main/java/ua/epam/mishchenko/ticketbooking/model/Ticket.java:78-83 | Two unsaved tickets for the same seat are `equals` whoever booked them. |
| Tickets.SetUserIdKeepsIdentity | src/main/java/ua/epam/mishchenko/ticketbooking/model/Ticket.java:175-189 | Setting the userId changes neither `equals` nor `hashCode`. |
| Tickets.MutableTicket.constructor | src/main/java/ua/epam/mishchenko/ticketbooking/model/Ticket.java:48-49 | The no-argument constructor makes an object holding `Ticket()`. |
| Tickets.MutableTicket.WithId | src/main/java/ua/epam/mishchenko/ticketbooking/model/Ticket.java:67-70 | The one-argument constructor makes an object holding only the id. |
| Tickets.MutableTicket.Of | src/main/java/ua/epam/mishchenko/ticketbooking/model/Ticket.java:59-65 | The five-argument constructor makes an object holding the five values. |
| Tickets.MutableTicket.Unsaved | src/main/java/ua/epam/mishchenko/ticketbooking/model/Ticket.java:78-83 | The four-argument constructor makes an object without an id. |
| Tickets.MutableTicket.SetId | src/main/java/ua/epam/mishchenko/ticketbooking/model/Ticket.java:99-101 | `setId` changes the id and nothing else. |
| Tickets.MutableTicket.SetEventId | src/main/java/ua/epam/mishchenko/ticketbooking/model/Ticket.java:117-119 | `setEventId` changes the eventId and nothing else. |
| Tickets.MutableTicket.SetCategory | src/main/java/ua/epam/mishchenko/ticketbooking/model/Ticket.java:135-137 | `setCategory` changes the category and nothing else. |
| Tickets.MutableTicket.SetPlace | src/main/java/ua/epam/mishchenko/ticketbooking/model/Ticket.java:153-155 | `setPlace(int)` sets a non-null place and nothing else. |
| Tickets.MutableTicket.SetUserId | src/main/java/ua/epam/mishchenko/ticketbooking/model/Ticket.java:161-163 | `setUserId` changes the userId and nothing else. |
| Tickets.MutableTicket.SetPlaceBoxed | src/main/java/ua/epam/mishchenko/ticketbooking/model/Ticket.java:165-167 | `setPlace(Integer)` sets the place, possibly `null`, and nothing else. |
| Tickets.MutableTicket.Equals | src/main/java/ua/epam/mishchenko/ticketbooking/model/Ticket.java:175-180 | On objects, `equals` (with its `this == o` shortcut) is the field comparison, and equal objects have equal hash codes. |
| Tickets.MutableTicket.HashCode | src/main/java/ua/epam/mishchenko/ticketbooking/model/Ticket.java:187-189 | An object's `hashCode` is a Java `int`. |
| Users.User.Blank | src/main/java/ua/epam/mishchenko/ticketbooking/model/User.java:46 | `User()` leaves every field `null`, including the ticket list and the account. |
| Users.User.Of | src/main/java/ua/epam/mishchenko/ticketbooking/model/User.java:55-59 | `User(id, name, email)` sets those three fields only. |
| Users.User.Named | src/main/java/ua/epam/mishchenko/ticketbooking/model/User.java:67-70 | `User(name, email)` is the three-argument form without an id. |
| Users.EqualsIffSameButHoldings | src/main/java/ua/epam/mishchenko/ticketbooking/model/User.java:152-158 | `equals` holds exactly when id, name and email agree; tickets and account are not compared. |
| Users.User.Equals | src/main/java/ua/epam/mishchenko/ticketbooking/model/User.java:153-158 | Every user equals itself, none equals `null`, and equal users have equal `Objects.hash(id, name, email)`. |
| Users.User.HashCode | src/main/java/ua/epam/mishchenko/ticketbooking/model/User.java:166-168 | `hashCode` is a Java `int`. |
| Users.EqualsIsEquivalence | src/main/java/ua/epam/mishchenko/ticketbooking/model/User.java:153-158 | `equals` between users is symmetric and transitive. |
| Users.SetHoldingsKeepsIdentity | src/main/java/ua/epam/mishchenko/ticketbooking/model/User.java:153-168 | Changing the ticket list or the account changes neither `equals` nor `hashCode`. |
| Users.MutableUser.constructor | src/main/java/ua/epam/mishchenko/ticketbooking/model/User.java:46 | The no-argument constructor makes an object holding `User()`. |
| Users.MutableUser.Of | src/main/java/ua/epam/mishchenko/ticketbooking/model/User.java:55-59 | The three-argument constructor makes an object holding id, name and email only. |
| Users.MutableUser.Named | src/main/java/ua/epam/mishchenko/ticketbooking/model/User.java:67-70 | The two-argument constructor makes an object without an id. |
| Users.MutableUser.SetId | src/main/java/ua/epam/mishchenko/ticketbooking/model/User.java:86-88 | `setId` changes the id and nothing else. |
| Users.MutableUser.SetName | src/main/java/ua/epam/mishchenko/ticketbooking/model/User.java:104-106 | `setName` changes the name and nothing else. |
| Users.MutableUser.SetEmail | src/main/java/ua/epam/mishchenko/ticketbooking/model/User.java:122-124 | `setEmail` changes the email and nothing else. |
| Users.MutableUser.SetTickets | src/main/java/ua/epam/mishchenko/ticketbooking/model/User.java:134-136 | `setTickets` changes the ticket list and nothing else. |
| Users.MutableUser.SetAccount | src/main/java/ua/epam/mishchenko/ticketbooking/model/User.java:142-144 | `setAccount` changes the account and nothing else. |
| Users.MutableUser.Equals | src/main/java/ua/epam/mishchenko/ticketbooking/model/User.java:153-158 | On objects, `equals` (with its `this == o` shortcut) is the field comparison, and equal objects have equal hash codes. |
| Users.MutableUser.HashCode | src/main/java/ua/epam/mishchenko/ticketbooking/model/User.java:166-168 | An object's `hashCode` is a Java `int`. |
| Events.MutableEvent.SetTickets | src/main/java/ua/epam/mishchenko/ticketbooking/service/impl/TicketServiceImpl.java:94-96 | `setTickets` on an event changes its ticket list and nothing else. |
| JavaLang.CompareTo | src/main/java/ua/epam/mishchenko/ticketbooking/service/impl/TicketServiceImpl.java:149 | `compareTo` answers -1, 0 or 1, negative exactly when the first amount is smaller and positive exactly when it is larger. |
| JavaLang.StringHashCode | src/main/java/ua/epam/mishchenko/ticketbooking/model/Ticket.java:187-189 | The hash of a `String` field is a Java `int`. |
| JavaLang.SupplementaryCharHashesAsSurrogatePair | src/main/java/ua/epam/mishchenko/ticketbooking/model/Ticket.java:187-189 | A character outside the Basic Multilingual Plane is hashed as its two UTF-16 surrogates. |
| Store.Store.ExistsUserById | src/main/java/ua/epam/mishchenko/ticketbooking/service/impl/TicketServiceImpl.java:143 | `existsById` raises on a `null` id or a storage error, and otherwise answers whether the user is stored. |
| Store.Store.FindUserById | src/main/java/ua/epam/mishchenko/ticketbooking/service/impl/TicketServiceImpl.java:132 | `findById` raises on a `null` id or a storage error, and otherwise returns a new object holding the stored user, or empty. |
| Store.Store.SaveUser | src/main/java/ua/epam/mishchenko/ticketbooking/service/impl/TicketServiceImpl.java:93 | Saving a user replaces the document under its id and changes nothing else, or raises and changes nothing. |
| Store.Store.ExistsEventById | src/main/java/ua/epam/mishchenko/ticketbooking/service/impl/TicketServiceImpl.java:137 | `existsById` for events, with the same failure cases. |
| Store.Store.FindEventById | src/main/java/ua/epam/mishchenko/ticketbooking/service/impl/TicketServiceImpl.java:127 | `findById` for events returns a new object holding the stored event, or empty. |
| Store.Store.SaveEvent | src/main/java/ua/epam/mishchenko/ticketbooking/service/impl/TicketServiceImpl.java:99 | Saving an event replaces the document under its id and changes nothing else, or raises and changes nothing. |
| Store.Store.ExistsBySeat | src/main/java/ua/epam/mishchenko/ticketbooking/service/impl/TicketServiceImpl.java:121 | `existsByEventIdAndPlaceAndCategory` answers whether some stored ticket has that seat. |
| Store.Store.SaveNewTicket | src/main/java/ua/epam/mishchenko/ticketbooking/service/impl/TicketServiceImpl.java:87 | Saving a new ticket sets a fresh id on the same object, appends its document and keeps the store well formed. |
| Store.Store.DeleteTicketById | src/main/java/ua/epam/mishchenko/ticketbooking/service/impl/TicketServiceImpl.java:249 | `deleteById` removes every ticket with that id, an unknown id included, or raises and changes nothing. |
| Store.Store.TicketsPageByUserId | src/main/java/ua/epam/mishchenko/ticketbooking/service/impl/TicketServiceImpl.java:178-179 | `getAllByUserId` returns the requested page of the tickets of that user, in store order. |
| Store.Store.TicketsPageByEventId | src/main/java/ua/epam/mishchenko/ticketbooking/service/impl/TicketServiceImpl.java:215-216 | `getAllByEventId` returns the requested page of the tickets of that event, in store order. |
| Store.Store.Restore | src/main/java/ua/epam/mishchenko/ticketbooking/service/impl/TicketServiceImpl.java:66 | Rolling back puts all three repositories back to the saved state. |
| TicketIds.ParseDecimal | src/main/java/ua/epam/mishchenko/ticketbooking/service/impl/TicketServiceImpl.java:87 | Ids the store assigns parse back to the counter value they were made from, so a new id differs from all earlier ones. |
| Paging.PageContent | src/main/java/ua/epam/mishchenko/ticketbooking/service/impl/TicketServiceImpl.java:178-179 | Page `i` of size `n` holds the results at offsets `i*n` onwards, at most `n` of them, in order. |
| Paging.ResultOnItsPage | src/main/java/ua/epam/mishchenko/ticketbooking/service/impl/TicketServiceImpl.java:178-179 | Result `k` is item `k % n` of page `k / n`, so paging loses nothing. |
| Paging.PagePastEndIsEmpty | src/main/java/ua/epam/mishchenko/ticketbooking/service/impl/TicketServiceImpl.java:180-182 | A page past the last result has no content. |
| TicketServiceSpec.UserHasEnoughMoneyForTicket | src/main/java/ua/epam/mishchenko/ticketbooking/service/impl/TicketServiceImpl.java:148-150 | `compareTo(...) > -1` is true exactly when the account is at least the price; a `null` account or price raises. |
| TicketServiceSpec.ThrowIfUserNotHaveEnoughMoney | src/main/java/ua/epam/mishchenko/ticketbooking/service/impl/TicketServiceImpl.java:111-118 | The funds guard passes exactly when account and price are set and account >= price; otherwise it raises, with a null reference or with too little money. |
| TicketServiceSpec.SubtractTicketPriceFromUserMoney | src/main/java/ua/epam/mishchenko/ticketbooking/service/impl/TicketServiceImpl.java:107-109 | The new balance plus the price is the old balance, and it is not negative exactly when the old balance covered the price. |
| TicketServiceSpec.Debited | src/main/java/ua/epam/mishchenko/ticketbooking/service/impl/TicketServiceImpl.java:103-105 | After `buyTicket` only the account differs: it is the old one less the price, and the user is still `equals` to itself. |
| TicketServiceSpec.CreateNewTicket | src/main/java/ua/epam/mishchenko/ticketbooking/service/impl/TicketServiceImpl.java:161-163 | The new ticket has no id, the given userId and the requested seat. |
| TicketServiceSpec.LinkToUser | src/main/java/ua/epam/mishchenko/ticketbooking/service/impl/TicketServiceImpl.java:88-93 | The saved user's ticket list is the old list, or an empty one when it was `null`, with the id appended; nothing else changes. |
| TicketServiceSpec.LinkToEvent | src/main/java/ua/epam/mishchenko/ticketbooking/service/impl/TicketServiceImpl.java:94-99 | The saved event's ticket list is the old list, or an empty one when it was `null`, with the ticket appended; nothing else changes. |
| TicketServiceSpec.FirstFailureNoneIff | src/main/java/ua/epam/mishchenko/ticketbooking/service/impl/TicketServiceImpl.java:72-83 | The booking raises nothing exactly when every check passes and none of its repository calls fails. |
| TicketService.TicketServiceImpl.constructor | src/main/java/ua/epam/mishchenko/ticketbooking/service/impl/TicketServiceImpl.java:40-45 | The service holds the given repositories. |
| TicketService.TicketServiceImpl.BookTicket | src/main/java/ua/epam/mishchenko/ticketbooking/service/impl/TicketServiceImpl.java:56-70 | `bookTicket` leaves the store as `Book` says (all writes on success; the old store, after the rollback, on any exception) and returns the new ticket or `null`. |
| TicketService.TicketServiceImpl.ProcessBookingTicket | src/main/java/ua/epam/mishchenko/ticketbooking/service/impl/TicketServiceImpl.java:71-83 | The checks run in the Java order; it raises exactly the first failure, leaves the writes made before a failing save in the store, and on success returns the saved ticket for the debited user. |
| TicketService.TicketServiceImpl.SaveBookedTicket | src/main/java/ua/epam/mishchenko/ticketbooking/service/impl/TicketServiceImpl.java:85-101 | Ticket, user and event are saved in that order, and the writes stop at the first save that raises; on success it returns the ticket with its new id. |
| TicketService.TicketServiceImpl.BuyTicket | src/main/java/ua/epam/mishchenko/ticketbooking/service/impl/TicketServiceImpl.java:103-105 | `buyTicket` debits the user object's account by the ticket price. |
| TicketService.TicketServiceImpl.ThrowIfUserNotExist | src/main/java/ua/epam/mishchenko/ticketbooking/service/impl/TicketServiceImpl.java:142-146 | Passes exactly when the user exists; otherwise raises user-not-found, or the repository's own exception. |
| TicketService.TicketServiceImpl.ThrowIfEventNotExist | src/main/java/ua/epam/mishchenko/ticketbooking/service/impl/TicketServiceImpl.java:136-140 | Passes exactly when the event exists; otherwise raises event-not-found, or the repository's own exception. |
| TicketService.TicketServiceImpl.ThrowIfTicketAlreadyBooked | src/main/java/ua/epam/mishchenko/ticketbooking/service/impl/TicketServiceImpl.java:120-124 | Passes exactly when no ticket has the seat; otherwise raises already-booked, or the repository's own exception. |
| TicketService.TicketServiceImpl.GetUserById | src/main/java/ua/epam/mishchenko/ticketbooking/service/impl/TicketServiceImpl.java:131-134 | Returns a new object holding the stored user, or raises when it is absent or the lookup fails. |
| TicketService.TicketServiceImpl.GetEvent | src/main/java/ua/epam/mishchenko/ticketbooking/service/impl/TicketServiceImpl.java:126-129 | Returns a new object holding the stored event, or raises when it is absent or the lookup fails. |
| TicketService.TicketServiceImpl.CancelTicket | src/main/java/ua/epam/mishchenko/ticketbooking/service/impl/TicketServiceImpl.java:245-256 | `cancelTicket` leaves the store as `Cancel` says and returns its flag. |
| TicketService.TicketServiceImpl.GetBookedTicketsByUserId | src/main/java/ua/epam/mishchenko/ticketbooking/service/impl/TicketServiceImpl.java:173-190 | Returns `UserPage`: page `pageNum - 1` of the user's tickets, empty for an invalid page request, a failing query or no content. |
| TicketService.TicketServiceImpl.GetBookedTickets | src/main/java/ua/epam/mishchenko/ticketbooking/service/impl/TicketServiceImpl.java:210-227 | Returns `EventPage`: the same for an event's tickets. |
| TicketServiceProperties.UnknownUserBooksNothing | src/main/java/ua/epam/mishchenko/ticketbooking/service/impl/TicketServiceImpl.java:73 | An unknown or `null` user id books nothing and changes nothing; with the repository up, the reason is user-not-found. |
| TicketServiceProperties.UnknownEventBooksNothing | src/main/java/ua/epam/mishchenko/ticketbooking/service/impl/TicketServiceImpl.java:74 | A known user with an unknown or `null` event books nothing; with the repositories up, the reason is event-not-found. |
| TicketServiceProperties.TakenSeatBooksNothing | src/main/java/ua/epam/mishchenko/ticketbooking/service/impl/TicketServiceImpl.java:75 | A seat already sold books nothing; with the repositories up, the reason is already-booked. |
| TicketServiceProperties.FundsDecideBooking | src/main/java/ua/epam/mishchenko/ticketbooking/service/impl/TicketServiceImpl.java:111-118 | With user, event and seat fine, the booking succeeds exactly when account >= price, so an equal balance is enough; an unset account or price fails with a null reference, a smaller balance with too little money. |
| TicketServiceProperties.StoreErrorBooksNothing | src/main/java/ua/epam/mishchenko/ticketbooking/service/impl/TicketServiceImpl.java:61-69 | If any repository call of the booking raises, the store is unchanged and `null` is returned. |
| TicketServiceProperties.BookingDebitsExactlyThePrice | src/main/java/ua/epam/mishchenko/ticketbooking/service/impl/TicketServiceImpl.java:103-109 | On success the account is the old one less the price, not negative, and the user is still `equals` to its old self. |
| TicketServiceProperties.BookedTicketIsTheRequestedSeat | src/main/java/ua/epam/mishchenko/ticketbooking/service/impl/TicketServiceImpl.java:87 | On success the ticket carries the requested userId, eventId, place and category, and an id no stored ticket had. |
| TicketServiceProperties.BookingLinksTicketEverywhere | src/main/java/ua/epam/mishchenko/ticketbooking/service/impl/TicketServiceImpl.java:86-101 | On success the ticket is appended to the store, its id to the user's list and the ticket to the event's list (a `null` list becomes a one-element list); no other user or event changes. |
| TicketServiceProperties.BookedTicketIsListedLast | src/main/java/ua/epam/mishchenko/ticketbooking/service/impl/TicketServiceImpl.java:87 | On success the stored tickets of the user, and of the event, are those before followed by the new ticket. |
| TicketServiceProperties.BookingPreservesWellFormed | src/main/java/ua/epam/mishchenko/ticketbooking/service/impl/TicketServiceImpl.java:56-101 | Booking keeps documents under their own ids and ticket ids distinct. |
| TicketServiceProperties.BookingPreservesSeatUniqueness | src/main/java/ua/epam/mishchenko/ticketbooking/service/impl/TicketServiceImpl.java:75 | If no two tickets share a seat before a booking, none do after it. |
| TicketServiceProperties.SameSeatCannotBeBookedTwice | src/main/java/ua/epam/mishchenko/ticketbooking/service/impl/TicketServiceImpl.java:75 | After a successful booking, any later booking of the same seat fails, for any user. |
| TicketServiceProperties.BookingPreservesLinks | src/main/java/ua/epam/mishchenko/ticketbooking/service/impl/TicketServiceImpl.java:88-99 | Booking keeps every ticket listed by its user and by its event. |
| TicketServiceProperties.BookIsAllOrNothing | src/main/java/ua/epam/mishchenko/ticketbooking/service/impl/TicketServiceImpl.java:58-70 | `bookTicket` returns a ticket exactly when the store changed, and then holds every write of `processBookingTicket`; `null` leaves the store as it was. |
| TicketServiceProperties.RollbackDiscardsPartialWrites | src/main/java/ua/epam/mishchenko/ticketbooking/service/impl/TicketServiceImpl.java:66 | When the user or the event save raises, the writes already made would leave a partial booking (a ticket without the debit, or a debit without the event link); `bookTicket` leaves the store unchanged. |
| TicketServiceProperties.CancelDeletesOnlyTheTicket | src/main/java/ua/epam/mishchenko/ticketbooking/service/impl/TicketServiceImpl.java:246-256 | `cancelTicket` is `true` exactly when the id is not `null` and the delete does not raise. Then only tickets with that id are gone; users, events and their lists never change; `false` changes nothing. |
| TicketServiceProperties.CancelOfUnknownIdChangesNothing | src/main/java/ua/epam/mishchenko/ticketbooking/service/impl/TicketServiceImpl.java:249-251 | Cancelling an id no ticket has answers `true` and changes nothing. |
| TicketServiceProperties.CancelPreservesInvariants | src/main/java/ua/epam/mishchenko/ticketbooking/service/impl/TicketServiceImpl.java:249 | Cancelling keeps the store well formed, seats unique and the remaining tickets listed by their user and event. |
| TicketServiceProperties.CancelFreesTheSeat | src/main/java/ua/epam/mishchenko/ticketbooking/service/impl/TicketServiceImpl.java:249 | Cancelling a stored ticket frees its seat for a new booking. |
| TicketServiceProperties.CancelLeavesLinksDangling | src/main/java/ua/epam/mishchenko/ticketbooking/service/impl/TicketServiceImpl.java:249 | A cancelled ticket's id stays in its user's list and the ticket in its event's list, though no stored ticket has that id. |
| TicketServiceProperties.UserPageHoldsOnlyTheUsersTickets | src/main/java/ua/epam/mishchenko/ticketbooking/service/impl/TicketServiceImpl.java:174-190 | A page holds at most `pageSize` stored tickets of that user; an invalid page request or a failing query gives an empty list. |
| TicketServiceProperties.EventPageHoldsOnlyTheEventsTickets | src/main/java/ua/epam/mishchenko/ticketbooking/service/impl/TicketServiceImpl.java:211-227 | A page holds at most `pageSize` stored tickets of that event; an invalid request or a failing query gives an empty list. |
| TicketServiceProperties.EveryUserTicketIsOnAPage | src/main/java/ua/epam/mishchenko/ticketbooking/service/impl/TicketServiceImpl.java:178-185 | The user's `k`-th ticket is item `k % pageSize` of page `k / pageSize + 1`. |
| TicketServiceProperties.EveryEventTicketIsOnAPage | src/main/java/ua/epam/mishchenko/ticketbooking/service/impl/TicketServiceImpl.java:215-222 | The event's `k`-th ticket is item `k % pageSize` of page `k / pageSize + 1`. |
| TicketServiceProperties.NullUserHasNoTickets | src/main/java/ua/epam/mishchenko/ticketbooking/service/impl/TicketServiceImpl.java:178-182 | When every ticket is listed by its user, asking for the tickets of a `null` user gives an empty list. |
| TicketServiceProperties.WorkedBookingExamples | src/main/java/ua/epam/mishchenko/ticketbooking/service/impl/TicketServiceImpl.java:56-101 | Worked example: balance 100 and price 60 leave 40 and one ticket with id "0"; rebooking the seat fails; a balance of 10 books nothing. |

## Left out

- Spring's transaction machinery (`@Transactional`, `setRollbackOnly`): modelled as a snapshot of the store restored on failure, which is what the rollback achieves for one sequential caller.
- Logging: it has no effect on the state or the results.
- Concurrency: the model is sequential, so the race between the seat check and the ticket insert is not modelled.
- MongoDB configuration, the web controller and the service interface: these are bootstrap, presentation and signatures with no behaviour; `MongoDbConfig.java` and the controller are not part of this model.
- Spring Data `Page` and `PageRequest`: a page is a slice of the filtered ticket sequence, and a page request with a negative index or a size below one is the exception the service turns into an empty list.
- Ticket ids: MongoDB `ObjectId` strings are replaced by the decimal form of a counter. Only their freshness matters to the service.
- Saving a ticket that already has an id, and saving a user or an event without one: the service never does either, so `SaveNewTicket` requires a new ticket and `SaveUser`/`SaveEvent` require an id.
- Repository behaviour beyond the calls the service makes is not modelled.
- `equals` against objects of another class (the `getClass()` check): only the same class and `null` are modelled.
- `Category` is assumed to have the constants STANDARD, PREMIUM and BAR; `Category.java` is not part of this model. Java's enum `hashCode` is an identity hash that varies between runs; the model uses the ordinal in its place.
- `Event` is modelled only as far as the booking uses it: id, ticket price and ticket list. Title and date are left out, and `Event.java` is not part of this model.
- Getters: they are plain field reads. `getPlace()` unboxing a `null` place (a `NullPointerException`) is not modelled, because the core never calls it.
- `toString`, the unused private helpers `isUserNull`/`isEventNull`, and the Jackson/MongoDB annotations are left out.
- TicketService.TicketServiceImpl.GetBookedTicketsByUserId: `pageNum - 1` is computed on unbounded integers, so for `pageNum` equal to `Integer.MIN_VALUE` the model answers from an invalid request, where Java's subtraction wraps to a huge page index. Both give an empty list unless the store held more than 2^31 pages of tickets.
- TicketService.TicketServiceImpl.GetBookedTickets: the same integer caveat as for the user query.
- TicketServiceProperties.BookedTicketIsListedLast, TicketServiceProperties.EveryUserTicketIsOnAPage, TicketServiceProperties.EveryEventTicketIsOnAPage: the ticket repository is a sequence in insertion order, and the unsorted `getAllByUserId`/`getAllByEventId` queries return tickets in that order. MongoDB does not promise any order without a sort, so these three lemmas hold for insertion-order results only. The user's and the event's own ticket lists are Java lists appended in order; `BookingLinksTicketEverywhere` states those.
- `place` is an unbounded integer where Java has a 32-bit `int`. No arithmetic is done on it.
- Object identity: within one booking, the loaded user and event are the only references to those objects, so identity and aliasing beyond that are not modelled. `TicketService.TicketServiceImpl.BookTicket` returns the saved ticket object, whose value is stated, but object identity across later calls is not.

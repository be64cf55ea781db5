/** The ticket document: who booked which seat of which event. */
module Tickets {
  import opened JavaLang

  /** The seat categories. The enum itself is not part of this model; BAR and
      PREMIUM are the constants the service's tests use. */
  datatype Category = Standard | Premium | Bar

  /** The hash a `Category` argument contributes to `Objects.hash`. Java takes
      the enum constant's identity hash, which is fixed within one run; the
      ordinal stands in for it here. */
  function CategoryFieldHash(o: Option<Category>): int {
    match o
    case None => 0
    case Some(Standard) => 0
    case Some(Premium) => 1
    case Some(Bar) => 2
  }

  /** A ticket; every field may be `null`. The seat is the triple (eventId,
      place, category). */
  datatype Ticket = Ticket(
    id: Option<string>,
    userId: Option<string>,
    eventId: Option<string>,
    place: Option<int>,
    category: Option<Category>)
  {
    /** `Ticket()`: nothing set. */
    static function Blank(): (t: Ticket)
      ensures t.id.None? && t.userId.None? && t.eventId.None? && t.place.None? && t.category.None?
    {
      Ticket(None, None, None, None, None)
    }

    /** `Ticket(String id)`: only the id set. */
    static function WithId(id: Option<string>): (t: Ticket)
      ensures t == Blank().(id := id)
    {
      Ticket(id, None, None, None, None)
    }

    /** `Ticket(id, userId, eventId, place, category)`: all five fields set. */
    static function Of(id: Option<string>, userId: Option<string>, eventId: Option<string>,
                       place: int, category: Option<Category>): (t: Ticket)
      ensures t.id == id && t.userId == userId && t.eventId == eventId
      ensures t.place == Some(place) && t.category == category
    {
      Ticket(id, userId, eventId, Some(place), category)
    }

    /** `Ticket(userId, eventId, place, category)`: a ticket not yet saved, so
        without an id; saving it assigns one and yields the five-argument form. */
    static function Unsaved(userId: Option<string>, eventId: Option<string>, place: int,
                            category: Option<Category>): (t: Ticket)
      ensures t.id.None?
      ensures forall id :: t.(id := id) == Of(id, userId, eventId, place, category)
    {
      Ticket(None, userId, eventId, Some(place), category)
    }

    /** `equals(Object o)` against another ticket or `null`: compares id,
        eventId, place and category and ignores userId. Every ticket equals
        itself, none equals `null`, and equal tickets have equal hash codes. */
    predicate Equals(o: Option<Ticket>): (r: bool)
      ensures o == Some(this) ==> r
      ensures r ==> o.Some? && HashCode() == o.value.HashCode()
    {
      o.Some? && id == o.value.id && eventId == o.value.eventId
      && place == o.value.place && category == o.value.category
    }

    /** `hashCode()`: `Objects.hash(id, eventId, place, category)`, a Java `int`. */
    function HashCode(): (h: int)
      ensures IsInt(h)
    {
      ObjectsHash([StringFieldHash(id), StringFieldHash(eventId), IntegerFieldHash(place),
                   CategoryFieldHash(category)])
    }
  }

  /** Two tickets are equal exactly when they agree on everything but the
      userId. */
  lemma EqualsIffSameButUser(a: Ticket, b: Ticket)
    ensures a.Equals(Some(b)) <==> a.(userId := b.userId) == b
  {
  }

  /** `equals` between tickets is symmetric and transitive. */
  lemma EqualsIsEquivalence(a: Ticket, b: Ticket, c: Ticket)
    ensures a.Equals(Some(b)) ==> b.Equals(Some(a))
    ensures a.Equals(Some(b)) && b.Equals(Some(c)) ==> a.Equals(Some(c))
  {
  }

  /** Two unsaved tickets for the same seat compare equal whoever booked them,
      since neither has an id and the userId is not compared. */
  lemma UnsavedSameSeatAreEqual(u1: Option<string>, u2: Option<string>, eventId: Option<string>,
                                place: int, category: Option<Category>)
    ensures Ticket.Unsaved(u1, eventId, place, category).Equals(Some(Ticket.Unsaved(u2, eventId, place, category)))
  {
  }

  /** Setting the userId, as booking does, keeps the ticket equal to what it
      was and its hash unchanged. */
  lemma SetUserIdKeepsIdentity(t: Ticket, userId: Option<string>)
    ensures t.(userId := userId).Equals(Some(t))
    ensures t.(userId := userId).HashCode() == t.HashCode()
  {
  }

  /** A `Ticket` object: the five fields the setters update in place. */
  class MutableTicket {
    var id: Option<string>
    var userId: Option<string>
    var eventId: Option<string>
    var place: Option<int>
    var category: Option<Category>

    /** The document the object's fields make up. */
    function Value(): Ticket
      reads this
    {
      Ticket(id, userId, eventId, place, category)
    }

    /** `Ticket()`. */
    constructor ()
      ensures Value() == Ticket.Blank()
    {
      id, userId, eventId, place, category := None, None, None, None, None;
    }

    /** `Ticket(String id)`. */
    constructor WithId(id: Option<string>)
      ensures Value() == Ticket.WithId(id)
    {
      this.id, userId, eventId, place, category := id, None, None, None, None;
    }

    /** `Ticket(id, userId, eventId, place, category)`. */
    constructor Of(id: Option<string>, userId: Option<string>, eventId: Option<string>, place: int,
                   category: Option<Category>)
      ensures Value() == Ticket.Of(id, userId, eventId, place, category)
    {
      this.id, this.userId, this.eventId, this.place, this.category := id, userId, eventId, Some(place), category;
    }

    /** `Ticket(userId, eventId, place, category)`. */
    constructor Unsaved(userId: Option<string>, eventId: Option<string>, place: int, category: Option<Category>)
      ensures Value() == Ticket.Unsaved(userId, eventId, place, category)
    {
      this.id, this.userId, this.eventId, this.place, this.category := None, userId, eventId, Some(place), category;
    }

    method SetId(id: Option<string>)
      modifies this
      ensures Value() == old(Value()).(id := id)
    {
      this.id := id;
    }

    method SetUserId(userId: Option<string>)
      modifies this
      ensures Value() == old(Value()).(userId := userId)
    {
      this.userId := userId;
    }

    method SetEventId(eventId: Option<string>)
      modifies this
      ensures Value() == old(Value()).(eventId := eventId)
    {
      this.eventId := eventId;
    }

    /** `setPlace(int)`. */
    method SetPlace(place: int)
      modifies this
      ensures Value() == old(Value()).(place := Some(place))
    {
      this.place := Some(place);
    }

    /** `setPlace(Integer)`, which also accepts `null`. */
    method SetPlaceBoxed(place: Option<int>)
      modifies this
      ensures Value() == old(Value()).(place := place)
    {
      this.place := place;
    }

    method SetCategory(category: Option<Category>)
      modifies this
      ensures Value() == old(Value()).(category := category)
    {
      this.category := category;
    }

    /** `equals(Object o)` against another ticket object or `null`: the same
        object, or one whose id, eventId, place and category are equal. The
        identity shortcut agrees with the field comparison, and equal objects
        have equal hash codes. */
    predicate Equals(o: MutableTicket?): (r: bool)
      reads this, o
      ensures r <==> o != null && Value().Equals(Some(o.Value()))
      ensures r ==> o != null && HashCode() == o.HashCode()
    {
      this == o || (o != null && Value().Equals(Some(o.Value())))
    }

    /** `hashCode()` of the object's current fields, a Java `int`. */
    function HashCode(): (h: int)
      reads this
      ensures IsInt(h)
    {
      Value().HashCode()
    }
  }
}

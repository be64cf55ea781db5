/** The user document: identity, contact details, booked ticket ids and the
    prepaid account. */
module Users {
  import opened JavaLang

  /** A user; every field may be `null`. The account is an exact amount in minor
      currency units. */
  datatype User = User(
    id: Option<string>,
    name: Option<string>,
    email: Option<string>,
    tickets: Option<seq<string>>,
    account: Option<int>)
  {
    /** `User()`: nothing set, so neither a ticket list nor an account. */
    static function Blank(): (u: User)
      ensures u.id.None? && u.name.None? && u.email.None?
      ensures u.tickets.None? && u.account.None?
    {
      User(None, None, None, None, None)
    }

    /** `User(id, name, email)`: the identity fields only. */
    static function Of(id: Option<string>, name: Option<string>, email: Option<string>): (u: User)
      ensures u.id == id && u.name == name && u.email == email
      ensures u.tickets.None? && u.account.None?
    {
      User(id, name, email, None, None)
    }

    /** `User(name, email)`: no id yet. */
    static function Named(name: Option<string>, email: Option<string>): (u: User)
      ensures u == Of(None, name, email)
    {
      User(None, name, email, None, None)
    }

    /** `equals(Object o)` against another user or `null`: compares id, name
        and email and ignores tickets and account. Every user equals itself,
        none equals `null`, and equal users have equal hash codes. */
    predicate Equals(o: Option<User>): (r: bool)
      ensures o == Some(this) ==> r
      ensures r ==> o.Some? && HashCode() == o.value.HashCode()
    {
      o.Some? && id == o.value.id && name == o.value.name && email == o.value.email
    }

    /** `hashCode()`: `Objects.hash(id, name, email)`, a Java `int`. */
    function HashCode(): (h: int)
      ensures IsInt(h)
    {
      ObjectsHash([StringFieldHash(id), StringFieldHash(name), StringFieldHash(email)])
    }
  }

  /** Two users are equal exactly when they agree on everything but tickets and
      account. */
  lemma EqualsIffSameButHoldings(a: User, b: User)
    ensures a.Equals(Some(b)) <==> a.(tickets := b.tickets, account := b.account) == b
  {
  }

  /** `equals` between users is symmetric and transitive. */
  lemma EqualsIsEquivalence(a: User, b: User, c: User)
    ensures a.Equals(Some(b)) ==> b.Equals(Some(a))
    ensures a.Equals(Some(b)) && b.Equals(Some(c)) ==> a.Equals(Some(c))
  {
  }

  /** Changing the tickets or the account, as booking does, keeps the user
      equal to what it was and its hash unchanged. */
  lemma SetHoldingsKeepsIdentity(u: User, tickets: Option<seq<string>>, account: Option<int>)
    ensures u.(tickets := tickets, account := account).Equals(Some(u))
    ensures u.(tickets := tickets, account := account).HashCode() == u.HashCode()
  {
  }

  /** A `User` object: the fields the setters, and the service through
      `getTickets().add`, update in place. */
  class MutableUser {
    var id: Option<string>
    var name: Option<string>
    var email: Option<string>
    var tickets: Option<seq<string>>
    var account: Option<int>

    /** The document the object's fields make up. */
    function Value(): User
      reads this
    {
      User(id, name, email, tickets, account)
    }

    /** `User()`. */
    constructor ()
      ensures Value() == User.Blank()
    {
      id, name, email, tickets, account := None, None, None, None, None;
    }

    /** `User(id, name, email)`. */
    constructor Of(id: Option<string>, name: Option<string>, email: Option<string>)
      ensures Value() == User.Of(id, name, email)
    {
      this.id, this.name, this.email, tickets, account := id, name, email, None, None;
    }

    /** `User(name, email)`. */
    constructor Named(name: Option<string>, email: Option<string>)
      ensures Value() == User.Named(name, email)
    {
      this.id, this.name, this.email, tickets, account := None, name, email, None, None;
    }

    method SetId(id: Option<string>)
      modifies this
      ensures Value() == old(Value()).(id := id)
    {
      this.id := id;
    }

    method SetName(name: Option<string>)
      modifies this
      ensures Value() == old(Value()).(name := name)
    {
      this.name := name;
    }

    method SetEmail(email: Option<string>)
      modifies this
      ensures Value() == old(Value()).(email := email)
    {
      this.email := email;
    }

    method SetTickets(tickets: Option<seq<string>>)
      modifies this
      ensures Value() == old(Value()).(tickets := tickets)
    {
      this.tickets := tickets;
    }

    method SetAccount(account: Option<int>)
      modifies this
      ensures Value() == old(Value()).(account := account)
    {
      this.account := account;
    }

    /** `equals(Object o)` against another user object or `null`: the same
        object, or one whose id, name and email are equal. The identity
        shortcut agrees with the field comparison, and equal objects have equal
        hash codes. */
    predicate Equals(o: MutableUser?): (r: bool)
      reads this, o
      ensures r <==> o != null && Value().Equals(Some(o.Value()))
      ensures r ==> o != null && HashCode() == o.HashCode()
    {
      this == o || (o != null && Value().Equals(Some(o.Value())))
    }

    /** `hashCode()` of the object's current fields, a Java `int`. */
    function HashCode(): (h: int)
      reads this
      ensures IsInt(h)
    {
      Value().HashCode()
    }
  }
}

/**
 * The in-memory user API of jour_02/main.go: a `users` slice and a
 * `nextID` counter changed by the handlers, with the weak binding rules
 * of that exercise and no email-uniqueness check.
 */
module InMemoryUsers {
  import opened Wrappers
  import opened Strconv
  import opened Validation
  import opened UserStore

  /** The slice and the counter the program starts with. */
  function Initial(): State {
    State([User(1, "Noah Mvondo", "noah@example.com", 25),
           User(2, "Alice Dupont", "alice@example.com", 30)], 3)
  }

  function Rule(isEmail: EmailCheck): UserFields -> bool {
    f => BasicUser(f, isEmail)
  }

  /**
   * `createUser`: a body that binds is always appended under the next id;
   * nothing is compared with the users already stored.
   */
  function Create(s: State, body: Option<UserFields>, isEmail: EmailCheck): (o: Outcome)
    ensures o.reply.Created? <==> body.Some? && BasicUser(body.value, isEmail)
    ensures !o.reply.Created? ==> o == Outcome(s, Invalid)
    ensures o.reply.Created? ==>
      && o.reply.user == WithId(body.value, s.nextID)
      && o.state == State(s.users + [o.reply.user], s.nextID + 1)
  {
    if body.Some? && BasicUser(body.value, isEmail) then
      var u := WithId(body.value, s.nextID);
      Outcome(State(s.users + [u], s.nextID + 1), Created(u))
    else
      Outcome(s, Invalid)
  }

  /** Every handler keeps ids distinct and below `nextID`, starting from the initial slice. */
  lemma HandlersPreserveNumbered(s: State, idParam: string, body: Option<UserFields>, isEmail: EmailCheck)
    requires Numbered(s)
    ensures Numbered(Initial())
    ensures Numbered(Create(s, body, isEmail).state)
    ensures Numbered(Update(s, idParam, body, Rule(isEmail)).state)
    ensures Numbered(Delete(s, idParam).state)
  {
    if body.Some? {
      NumberedAppend(s, body.value);
    }
    UpdatePreservesNumbered(s, idParam, body, Rule(isEmail));
    DeletePreservesNumbered(s, idParam);
  }

  /** A new user's id is larger than every id already stored. */
  lemma CreateAssignsFreshId(s: State, body: Option<UserFields>, isEmail: EmailCheck)
    requires Numbered(s)
    requires Create(s, body, isEmail).reply.Created?
    ensures forall k :: 0 <= k < |s.users| ==> s.users[k].id < Create(s, body, isEmail).reply.user.id
  {
  }

  /** Round trip: after a create, `GET /users/<new id>` returns the new user. */
  lemma CreateThenLookup(s: State, body: Option<UserFields>, isEmail: EmailCheck)
    requires Numbered(s) && MinInt64 <= s.nextID <= MaxInt64
    requires Create(s, body, isEmail).reply.Created?
    ensures var o := Create(s, body, isEmail);
      Lookup(o.state, FormatInt(o.reply.user.id)) == Found(o.reply.user)
  {
    var o := Create(s, body, isEmail);
    NumberedAppend(s, body.value);
    LookupFindsEveryUser(o.state, |s.users|);
  }

  /** A second user with an email already stored is accepted. */
  lemma DuplicateEmailAccepted(isEmail: EmailCheck)
    requires isEmail("noah@example.com")
    ensures var o := Create(Initial(), Some(UserFields("Noah", "noah@example.com", 40)), isEmail);
      && o.reply.Created?
      && o.state.users[0].email == o.state.users[2].email
  {
    var b := UserFields("Noah", "noah@example.com", 40);
    assert BasicUser(b, isEmail);
  }

  class Store {
    var users: seq<User>
    var nextID: int

    function Snapshot(): State
      reads this
    {
      State(users, nextID)
    }

    ghost predicate Valid()
      reads this
    {
      Numbered(Snapshot())
    }

    constructor ()
      ensures Snapshot() == Initial() && Valid()
    {
      users := Initial().users;
      nextID := 3;
    }

    /** `getUsers`. */
    method GetUsers() returns (r: Reply)
      ensures r == Listed(users)
    {
      r := Listed(users);
    }

    /** `getUserByID`. */
    method GetUserByID(idParam: string) returns (r: Reply)
      ensures r == Lookup(Snapshot(), idParam)
    {
      var parsed := ParseInt(idParam);
      if parsed.None? {
        return BadId;
      }
      var found := ScanForId(users, parsed.value);
      if found.None? {
        return NotFound;
      }
      r := Found(users[found.value]);
    }

    /** `createUser`. */
    method CreateUser(body: Option<UserFields>, isEmail: EmailCheck) returns (r: Reply)
      requires Valid()
      modifies this
      ensures Valid()
      ensures Outcome(Snapshot(), r) == Create(old(Snapshot()), body, isEmail)
    {
      if !(body.Some? && BasicUser(body.value, isEmail)) {
        return Invalid;
      }
      var u := WithId(body.value, nextID);
      NumberedAppend(Snapshot(), body.value);
      nextID := nextID + 1;
      users := users + [u];
      r := Created(u);
    }

    /** `updateUser`. */
    method UpdateUser(idParam: string, body: Option<UserFields>, isEmail: EmailCheck) returns (r: Reply)
      requires Valid()
      modifies this
      ensures Valid()
      ensures Outcome(Snapshot(), r) == Update(old(Snapshot()), idParam, body, Rule(isEmail))
    {
      UpdatePreservesNumbered(Snapshot(), idParam, body, Rule(isEmail));
      var parsed := ParseInt(idParam);
      if parsed.None? {
        return BadId;
      }
      if !(body.Some? && BasicUser(body.value, isEmail)) {
        return Invalid;
      }
      var found := ScanForId(users, parsed.value);
      if found.None? {
        return NotFound;
      }
      var k := found.value;
      var u := WithId(body.value, users[k].id);
      users := users[k := u];
      r := Updated(u);
    }

    /** `deleteUser`. */
    method DeleteUser(idParam: string) returns (r: Reply)
      requires Valid()
      modifies this
      ensures Valid()
      ensures Outcome(Snapshot(), r) == Delete(old(Snapshot()), idParam)
    {
      DeletePreservesNumbered(Snapshot(), idParam);
      var parsed := ParseInt(idParam);
      if parsed.None? {
        return BadId;
      }
      var found := ScanForId(users, parsed.value);
      if found.None? {
        return NotFound;
      }
      var k := found.value;
      r := Deleted(users[k]);
      users := users[..k] + users[k + 1..];
    }
  }
}

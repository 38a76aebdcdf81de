/**
 * The validated user API of jour_03/main.go: the same `users` slice and
 * `nextID` counter, the stricter binding rules, and an exact,
 * case-sensitive email-uniqueness check on create (but not on update).
 */
module ValidatedUsers {
  import opened Wrappers
  import opened Strconv
  import opened Validation
  import opened UserStore

  /** The slice and the counter the program starts with. */
  function Initial(): State {
    State([User(1, "Noah Mvondo", "noah@example.com", 25),
           User(2, "Alice Dupont", "alice@example.com", 30),
           User(3, "Bob Martin", "bob@example.com", 28)], 4)
  }

  function Rule(isEmail: EmailCheck): UserFields -> bool {
    f => StrictUser(f, isEmail)
  }

  predicate EmailTaken(users: seq<User>, email: string) {
    exists k :: 0 <= k < |users| && users[k].email == email
  }

  ghost predicate EmailsUnique(users: seq<User>) {
    forall j, k :: 0 <= j < k < |users| ==> users[j].email != users[k].email
  }

  /**
   * `createUser`: the body is bound and checked first (400), then compared
   * with every stored email (409); only then does it get the next id and
   * go to the end of the slice. Both failures leave the state as it was.
   */
  function Create(s: State, body: Option<UserFields>, isEmail: EmailCheck): (o: Outcome)
    ensures !(body.Some? && StrictUser(body.value, isEmail)) ==> o == Outcome(s, Invalid)
    ensures body.Some? && StrictUser(body.value, isEmail) && EmailTaken(s.users, body.value.email) ==>
      o == Outcome(s, Conflict)
    ensures o.reply.Created? <==>
      body.Some? && StrictUser(body.value, isEmail) && !EmailTaken(s.users, body.value.email)
    ensures o.reply.Created? ==>
      && o.reply.user == WithId(body.value, s.nextID)
      && o.state == State(s.users + [o.reply.user], s.nextID + 1)
  {
    if !(body.Some? && StrictUser(body.value, isEmail)) then Outcome(s, Invalid)
    else if EmailTaken(s.users, body.value.email) then Outcome(s, Conflict)
    else
      var u := WithId(body.value, s.nextID);
      Outcome(State(s.users + [u], s.nextID + 1), Created(u))
  }

  /** Every handler keeps ids distinct and below `nextID`, starting from the initial slice. */
  lemma HandlersPreserveNumbered(s: State, idParam: string, body: Option<UserFields>, isEmail: EmailCheck)
    requires Numbered(s)
    ensures Numbered(Initial())
    ensures Numbered(Create(s, body, isEmail).state)
    ensures Numbered(Update(s, idParam, body, Rule(isEmail)).state)
    ensures Numbered(Delete(s, idParam).state)
  {
    if body.Some? {
      NumberedAppend(s, body.value);
    }
    UpdatePreservesNumbered(s, idParam, body, Rule(isEmail));
    DeletePreservesNumbered(s, idParam);
  }

  /** A new user's id is larger than every id already stored, and `nextID` grows by one. */
  lemma CreateAssignsFreshId(s: State, body: Option<UserFields>, isEmail: EmailCheck)
    requires Numbered(s)
    requires Create(s, body, isEmail).reply.Created?
    ensures forall k :: 0 <= k < |s.users| ==> s.users[k].id < Create(s, body, isEmail).reply.user.id
    ensures Create(s, body, isEmail).state.nextID == s.nextID + 1
  {
  }

  /** Create never introduces a second user with the same email. */
  lemma CreateKeepsEmailsUnique(s: State, body: Option<UserFields>, isEmail: EmailCheck)
    requires EmailsUnique(s.users)
    ensures EmailsUnique(Create(s, body, isEmail).state.users)
  {
    var o := Create(s, body, isEmail);
    if o.reply.Created? {
      var r := o.state.users;
      forall j, k | 0 <= j < k < |r| ensures r[j].email != r[k].email {
        if k == |s.users| {
          assert r[j] == s.users[j];
        }
      }
    }
  }

  lemma InitialEmailsUnique()
    ensures EmailsUnique(Initial().users)
  {
    var u := Initial().users;
    assert u[0].email[0] == 'n' && u[1].email[0] == 'a' && u[2].email[0] == 'b';
  }

  /** The comparison is exact: an email differing only in case is not a conflict. */
  lemma EmailCheckIsCaseSensitive(isEmail: EmailCheck)
    requires isEmail("Noah@example.com")
    ensures Create(Initial(), Some(UserFields("Noah", "Noah@example.com", 40)), isEmail).reply.Created?
  {
    var u := Initial().users;
    assert u[0].email[0] == 'n' && u[1].email[0] == 'a' && u[2].email[0] == 'b';
    assert !EmailTaken(u, "Noah@example.com");
  }

  /** `updateUser` compares no emails, so it can leave two users with one email. */
  lemma UpdateCanDuplicateEmail(isEmail: EmailCheck)
    requires isEmail("noah@example.com")
    ensures var o := Update(Initial(), "2", Some(UserFields("Alice", "noah@example.com", 30)), Rule(isEmail));
      && o.reply.Updated?
      && !EmailsUnique(o.state.users)
  {
    var s := Initial();
    assert "2"[..0] == "";
    assert ParseInt("2") == Some(2);
    assert FirstWithId(s.users, 2, 1);
    FirstWithIdUnique(s.users, 2, 1);
    var o := Update(s, "2", Some(UserFields("Alice", "noah@example.com", 30)), Rule(isEmail));
    assert o.state.users[0].email == o.state.users[1].email;
  }

  /** Round trip: after a create, `GET /users/<new id>` returns the new user. */
  lemma CreateThenLookup(s: State, body: Option<UserFields>, isEmail: EmailCheck)
    requires Numbered(s) && MinInt64 <= s.nextID <= MaxInt64
    requires Create(s, body, isEmail).reply.Created?
    ensures var o := Create(s, body, isEmail);
      Lookup(o.state, FormatInt(o.reply.user.id)) == Found(o.reply.user)
  {
    var o := Create(s, body, isEmail);
    NumberedAppend(s, body.value);
    LookupFindsEveryUser(o.state, |s.users|);
  }

  class Store {
    var users: seq<User>
    var nextID: int

    function Snapshot(): State
      reads this
    {
      State(users, nextID)
    }

    ghost predicate Valid()
      reads this
    {
      Numbered(Snapshot())
    }

    constructor ()
      ensures Snapshot() == Initial() && Valid() && EmailsUnique(users)
    {
      users := Initial().users;
      nextID := 4;
      InitialEmailsUnique();
    }

    /** `getUsers`: the slice; the reply's `total` is its length, `|r.all|`. */
    method GetUsers() returns (r: Reply)
      ensures r == Listed(users)
    {
      r := Listed(users);
    }

    /** `getUserByID`. */
    method GetUserByID(idParam: string) returns (r: Reply)
      ensures r == Lookup(Snapshot(), idParam)
    {
      var parsed := ParseInt(idParam);
      if parsed.None? {
        return BadId;
      }
      var found := ScanForId(users, parsed.value);
      if found.None? {
        return NotFound;
      }
      r := Found(users[found.value]);
    }

    /** `createUser`, with its email loop. */
    method CreateUser(body: Option<UserFields>, isEmail: EmailCheck) returns (r: Reply)
      requires Valid()
      modifies this
      ensures Valid()
      ensures Outcome(Snapshot(), r) == Create(old(Snapshot()), body, isEmail)
    {
      if !(body.Some? && StrictUser(body.value, isEmail)) {
        return Invalid;
      }
      var email := body.value.email;
      var i := 0;
      while i < |users|
        invariant 0 <= i <= |users|
        invariant forall j :: 0 <= j < i ==> users[j].email != email
      {
        if users[i].email == email {
          return Conflict;
        }
        i := i + 1;
      }
      var u := WithId(body.value, nextID);
      NumberedAppend(Snapshot(), body.value);
      nextID := nextID + 1;
      users := users + [u];
      r := Created(u);
    }

    /** `updateUser`. */
    method UpdateUser(idParam: string, body: Option<UserFields>, isEmail: EmailCheck) returns (r: Reply)
      requires Valid()
      modifies this
      ensures Valid()
      ensures Outcome(Snapshot(), r) == Update(old(Snapshot()), idParam, body, Rule(isEmail))
    {
      UpdatePreservesNumbered(Snapshot(), idParam, body, Rule(isEmail));
      var parsed := ParseInt(idParam);
      if parsed.None? {
        return BadId;
      }
      if !(body.Some? && StrictUser(body.value, isEmail)) {
        return Invalid;
      }
      var found := ScanForId(users, parsed.value);
      if found.None? {
        return NotFound;
      }
      var k := found.value;
      var u := WithId(body.value, users[k].id);
      users := users[k := u];
      r := Updated(u);
    }

    /** `deleteUser`. */
    method DeleteUser(idParam: string) returns (r: Reply)
      requires Valid()
      modifies this
      ensures Valid()
      ensures Outcome(Snapshot(), r) == Delete(old(Snapshot()), idParam)
    {
      DeletePreservesNumbered(Snapshot(), idParam);
      var parsed := ParseInt(idParam);
      if parsed.None? {
        return BadId;
      }
      var found := ScanForId(users, parsed.value);
      if found.None? {
        return NotFound;
      }
      var k := found.value;
      r := Deleted(users[k]);
      users := users[..k] + users[k + 1..];
    }
  }
}

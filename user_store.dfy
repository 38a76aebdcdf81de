/**
 * What the two in-memory user APIs (jour_02/main.go and jour_03/main.go)
 * share: the `User` record, the package-level `users` slice with its
 * `nextID` counter, the handlers' replies, and the three handlers whose
 * code is the same in both files (`getUserByID`, `updateUser`,
 * `deleteUser`), each specified as a function of the state.
 */
module UserStore {
  import opened Wrappers
  import opened Strconv
  import opened Validation

  datatype User = User(id: int, name: string, email: string, age: Int64)

  /** The globals `users` and `nextID`. */
  datatype State = State(users: seq<User>, nextID: int)

  /** What a handler answers: the status code and the error kind or payload. */
  datatype Reply =
    | Listed(all: seq<User>)
    | Found(user: User)
    | Created(user: User)
    | Updated(user: User)
    | Deleted(user: User)
    | BadId       // the `:id` segment is not an integer
    | Invalid     // the body does not bind or breaks a rule
    | NotFound
    | Conflict    // the email is already used

  function StatusCode(r: Reply): int {
    match r
    case Listed(_) => 200
    case Found(_) => 200
    case Created(_) => 201
    case Updated(_) => 200
    case Deleted(_) => 200
    case BadId => 400
    case Invalid => 400
    case NotFound => 404
    case Conflict => 409
  }

  /** A handler's effect: the state afterwards and the reply. */
  datatype Outcome = Outcome(state: State, reply: Reply)

  /** The body's fields under the given identity. */
  function WithId(f: UserFields, id: int): User {
    User(id, f.name, f.email, f.age)
  }

  /** `k` is the position the `range` loop stops at: the first user with this id. */
  ghost predicate FirstWithId(users: seq<User>, id: int, k: int) {
    0 <= k < |users| && users[k].id == id && forall j :: 0 <= j < k ==> users[j].id != id
  }

  ghost predicate NoneWithId(users: seq<User>, id: int) {
    forall j :: 0 <= j < |users| ==> users[j].id != id
  }

  /**
   * The store's invariant: every id was handed out before `nextID`, and no
   * two users share an id.
   */
  ghost predicate Numbered(s: State) {
    && (forall k :: 0 <= k < |s.users| ==> s.users[k].id < s.nextID)
    && (forall j, k :: 0 <= j < k < |s.users| ==> s.users[j].id != s.users[k].id)
  }

  function FindIndex(users: seq<User>, id: int): (r: Option<nat>)
    ensures r.Some? ==> FirstWithId(users, id, r.value)
    ensures r.None? ==> NoneWithId(users, id)
  {
    if |users| == 0 then None
    else if users[0].id == id then Some(0)
    else match FindIndex(users[1..], id)
      case None => None
      case Some(k) => Some(k + 1)
  }

  lemma FirstWithIdUnique(users: seq<User>, id: int, k: int)
    requires FirstWithId(users, id, k)
    ensures FindIndex(users, id) == Some(k)
  {
  }

  /** The `for i, user := range users { if user.ID == idInt ... }` loop. */
  method ScanForId(users: seq<User>, id: int) returns (r: Option<nat>)
    ensures r.Some? ==> FirstWithId(users, id, r.value)
    ensures r.None? ==> NoneWithId(users, id)
    ensures r == FindIndex(users, id)
  {
    var i := 0;
    while i < |users|
      invariant 0 <= i <= |users|
      invariant forall j :: 0 <= j < i ==> users[j].id != id
    {
      if users[i].id == id {
        FirstWithIdUnique(users, id, i);
        return Some(i);
      }
      i := i + 1;
    }
    r := None;
  }

  /** `getUserByID`. It never changes the state, so only a reply is returned. */
  function Lookup(s: State, idParam: string): (r: Reply)
    ensures ParseInt(idParam).None? ==> r == BadId
    ensures ParseInt(idParam).Some? ==>
      var id := ParseInt(idParam).value;
      && (NoneWithId(s.users, id) ==> r == NotFound)
      && (forall k :: FirstWithId(s.users, id, k) ==> r == Found(s.users[k]))
  {
    match ParseInt(idParam)
    case None => BadId
    case Some(id) =>
      match FindIndex(s.users, id)
      case None => NotFound
      case Some(k) => Found(s.users[k])
  }

  /**
   * `updateUser`: the id is parsed first, then the body is bound and
   * checked with `rule`; on a hit the body replaces the user in place and
   * keeps the stored id. No other user is compared with the body.
   */
  function Update(s: State, idParam: string, body: Option<UserFields>, rule: UserFields -> bool): (o: Outcome)
    ensures o.reply.Updated? || o.state == s
    ensures ParseInt(idParam).None? ==> o.reply == BadId
    ensures ParseInt(idParam).Some? && !(body.Some? && rule(body.value)) ==> o.reply == Invalid
    ensures ParseInt(idParam).Some? && body.Some? && rule(body.value) ==>
      var id := ParseInt(idParam).value;
      && (NoneWithId(s.users, id) ==> o.reply == NotFound)
      && (forall k :: FirstWithId(s.users, id, k) ==>
            var u := WithId(body.value, s.users[k].id);
            o == Outcome(State(s.users[k := u], s.nextID), Updated(u)))
  {
    match ParseInt(idParam)
    case None => Outcome(s, BadId)
    case Some(id) =>
      if !(body.Some? && rule(body.value)) then Outcome(s, Invalid)
      else
        match FindIndex(s.users, id)
        case None => Outcome(s, NotFound)
        case Some(k) =>
          var u := WithId(body.value, s.users[k].id);
          Outcome(State(s.users[k := u], s.nextID), Updated(u))
  }

  /** `deleteUser`: removes the first user with the id, the others keep their order. */
  function Delete(s: State, idParam: string): (o: Outcome)
    ensures o.reply.Deleted? || o.state == s
    ensures ParseInt(idParam).None? ==> o.reply == BadId
    ensures ParseInt(idParam).Some? ==>
      var id := ParseInt(idParam).value;
      && (NoneWithId(s.users, id) ==> o.reply == NotFound)
      && (forall k :: FirstWithId(s.users, id, k) ==>
            o == Outcome(State(s.users[..k] + s.users[k + 1..], s.nextID), Deleted(s.users[k])))
  {
    match ParseInt(idParam)
    case None => Outcome(s, BadId)
    case Some(id) =>
      match FindIndex(s.users, id)
      case None => Outcome(s, NotFound)
      case Some(k) => Outcome(State(s.users[..k] + s.users[k + 1..], s.nextID), Deleted(s.users[k]))
  }

  lemma NumberedAppend(s: State, f: UserFields)
    requires Numbered(s)
    ensures Numbered(State(s.users + [WithId(f, s.nextID)], s.nextID + 1))
    ensures forall k :: 0 <= k < |s.users| ==> s.users[k].id < WithId(f, s.nextID).id
  {
  }

  lemma NumberedReplace(s: State, k: int, u: User)
    requires Numbered(s) && 0 <= k < |s.users| && u.id == s.users[k].id
    ensures Numbered(State(s.users[k := u], s.nextID))
  {
  }

  lemma NumberedRemove(s: State, k: int)
    requires Numbered(s) && 0 <= k < |s.users|
    ensures Numbered(State(s.users[..k] + s.users[k + 1..], s.nextID))
    ensures NoneWithId(s.users[..k] + s.users[k + 1..], s.users[k].id)
    ensures |s.users[..k] + s.users[k + 1..]| == |s.users| - 1
  {
    var r := s.users[..k] + s.users[k + 1..];
    assert forall i :: 0 <= i < |r| ==> r[i] == if i < k then s.users[i] else s.users[i + 1];
  }

  lemma UpdatePreservesNumbered(s: State, idParam: string, body: Option<UserFields>, rule: UserFields -> bool)
    requires Numbered(s)
    ensures Numbered(Update(s, idParam, body, rule).state)
  {
    var o := Update(s, idParam, body, rule);
    if o.reply.Updated? {
      var k := FindIndex(s.users, ParseInt(idParam).value).value;
      NumberedReplace(s, k, WithId(body.value, s.users[k].id));
    }
  }

  /** With distinct ids, a successful delete leaves no user with that id. */
  lemma DeletePreservesNumbered(s: State, idParam: string)
    requires Numbered(s)
    ensures Numbered(Delete(s, idParam).state)
    ensures Delete(s, idParam).reply.Deleted? ==> NoneWithId(Delete(s, idParam).state.users, ParseInt(idParam).value)
    ensures Delete(s, idParam).reply.Deleted? ==> |Delete(s, idParam).state.users| == |s.users| - 1
  {
    var o := Delete(s, idParam);
    if o.reply.Deleted? {
      var k := FindIndex(s.users, ParseInt(idParam).value).value;
      NumberedRemove(s, k);
    }
  }

  /**
   * Round trip: in a well-numbered store, asking for a user's id, written
   * in decimal, finds exactly that user.
   */
  lemma LookupFindsEveryUser(s: State, k: int)
    requires Numbered(s) && 0 <= k < |s.users|
    requires MinInt64 <= s.users[k].id <= MaxInt64
    ensures Lookup(s, FormatInt(s.users[k].id)) == Found(s.users[k])
  {
    ParseFormat(s.users[k].id);
    assert FirstWithId(s.users, s.users[k].id, k);
  }
}

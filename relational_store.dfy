/**
 * The users/posts API of jour_04/main-mysql.go, with the SQL database
 * replaced by two tables keyed by primary key and their auto-increment
 * counters. What is modelled is what the handler code decides: the body
 * rules, the email check before inserting a user, the author check before
 * inserting a post, the order of deletes in `deleteUser`, and the status
 * logic of `getUserPosts`.
 */
module RelationalStore {
  import opened Wrappers
  import opened Strconv
  import opened Validation

  datatype UserRow = UserRow(name: string, email: string, age: Int64)
  datatype PostRow = PostRow(title: string, content: string, userId: nat)

  /** The `users` and `posts` tables and the next auto-increment value of each. */
  datatype Tables = Tables(
    users: map<nat, UserRow>,
    posts: map<nat, PostRow>,
    nextUserId: nat,
    nextPostId: nat)

  datatype Reply =
    | UserFound(id: nat, user: UserRow, posts: map<nat, PostRow>)   // 200, posts preloaded
    | PostFound(id: nat, post: PostRow, author: Option<UserRow>)    // 200, author preloaded
    | UserCreated(id: nat, user: UserRow)                           // 201
    | PostCreated(id: nat, post: PostRow)                           // 201
    | UserDeleted                                                   // 200
    | PostDeleted                                                   // 200
    | UserPosts(name: string, postsCount: nat, posts: map<nat, PostRow>)  // 200
    | BadId           // 400 "ID invalide"
    | Invalid         // 400 the body does not bind or breaks a rule
    | UnknownAuthor   // 400 "Utilisateur non trouvé"
    | NotFound        // 404
    | Conflict        // 409 "Email déjà utilisé"

  function StatusCode(r: Reply): int {
    match r
    case UserCreated(_, _) => 201
    case PostCreated(_, _) => 201
    case BadId => 400
    case Invalid => 400
    case UnknownAuthor => 400
    case NotFound => 404
    case Conflict => 409
    case _ => 200
  }

  datatype Outcome = Outcome(tables: Tables, reply: Reply)

  /**
   * What the database guarantees and every handler keeps: ids below the
   * next auto-increment value, each post's author present (the foreign
   * key), and no email twice (the unique index).
   */
  ghost predicate Consistent(t: Tables) {
    && 0 < t.nextUserId && 0 < t.nextPostId
    && (forall id :: id in t.users ==> 0 < id < t.nextUserId)
    && (forall id :: id in t.posts ==> 0 < id < t.nextPostId)
    && (forall id :: id in t.posts ==> t.posts[id].userId in t.users)
    && (forall a, b :: a in t.users && b in t.users && t.users[a].email == t.users[b].email ==> a == b)
  }

  /** `WHERE user_id = uid`. */
  function PostsOf(posts: map<nat, PostRow>, uid: nat): (mine: map<nat, PostRow>)
    ensures forall pid :: pid in mine <==> pid in posts && posts[pid].userId == uid
    ensures forall pid :: pid in mine ==> mine[pid] == posts[pid]
  {
    map pid | pid in posts && posts[pid].userId == uid :: posts[pid]
  }

  /** What is left after `DELETE ... WHERE user_id = uid`. */
  function PostsNotOf(posts: map<nat, PostRow>, uid: nat): (rest: map<nat, PostRow>)
    ensures forall pid :: pid in rest <==> pid in posts && posts[pid].userId != uid
    ensures forall pid :: pid in rest ==> rest[pid] == posts[pid]
  {
    map pid | pid in posts && posts[pid].userId != uid :: posts[pid]
  }

  /** `SELECT count(*) FROM users WHERE email = ?`. */
  function EmailCount(users: map<nat, UserRow>, email: string): (n: nat)
    ensures n > 0 <==> exists id :: id in users && users[id].email == email
  {
    var matching := set id | id in users && users[id].email == email;
    assert forall id :: id in users && users[id].email == email ==> id in matching;
    |matching|
  }

  function Row(f: UserFields): UserRow {
    UserRow(f.name, f.email, f.age)
  }

  function PostRowOf(f: PostFields): PostRow {
    PostRow(f.title, f.content, f.userId)
  }

  /** `getUserByID`: the row and, preloaded, the user's posts; 404 when absent. */
  function GetUser(t: Tables, id: nat): (r: Reply)
    ensures r.UserFound? <==> id in t.users
    ensures r.UserFound? ==> r.id == id && r.user == t.users[id]
    ensures r.UserFound? ==> forall pid :: pid in r.posts <==> pid in t.posts && t.posts[pid].userId == id
    ensures r.UserFound? ==> forall pid :: pid in r.posts ==> r.posts[pid] == t.posts[pid]
    ensures !r.UserFound? ==> r == NotFound
  {
    if id in t.users then UserFound(id, t.users[id], PostsOf(t.posts, id)) else NotFound
  }

  /** `getPostByID`: the row and, preloaded, its author; 404 when absent. */
  function GetPost(t: Tables, id: nat): (r: Reply)
    ensures r.PostFound? <==> id in t.posts
    ensures r.PostFound? ==> r.id == id && r.post == t.posts[id]
    ensures Consistent(t) && r.PostFound? ==> r.author == Some(t.users[r.post.userId])
    ensures !r.PostFound? ==> r == NotFound
  {
    if id in t.posts then
      var p := t.posts[id];
      PostFound(id, p, if p.userId in t.users then Some(t.users[p.userId]) else None)
    else NotFound
  }

  /**
   * `createUser`: the body is checked first (400), then the stored emails
   * are counted (409 if any is equal); only then is the row inserted under
   * the next id. Both failures leave the tables as they were.
   */
  function AddUser(t: Tables, body: Option<UserFields>, isEmail: EmailCheck): (o: Outcome)
    ensures !(body.Some? && StrictUser(body.value, isEmail)) ==> o == Outcome(t, Invalid)
    ensures (&& body.Some? && StrictUser(body.value, isEmail)
             && exists id :: id in t.users && t.users[id].email == body.value.email) ==> o == Outcome(t, Conflict)
    ensures o.reply.UserCreated? <==>
      (&& body.Some? && StrictUser(body.value, isEmail)
       && !(exists id :: id in t.users && t.users[id].email == body.value.email))
    ensures o.reply.UserCreated? || o.tables == t
    ensures StatusCode(o.reply) == (if o.reply.UserCreated? then 201 else if o.reply == Conflict then 409 else 400)
    ensures o.reply.UserCreated? ==>
      && o.reply == UserCreated(t.nextUserId, Row(body.value))
      && o.tables == t.(users := t.users[t.nextUserId := Row(body.value)], nextUserId := t.nextUserId + 1)
  {
    if !(body.Some? && StrictUser(body.value, isEmail)) then Outcome(t, Invalid)
    else if EmailCount(t.users, body.value.email) > 0 then Outcome(t, Conflict)
    else
      var id := t.nextUserId;
      Outcome(t.(users := t.users[id := Row(body.value)], nextUserId := id + 1), UserCreated(id, Row(body.value)))
  }

  /**
   * `createPost`: the body is checked first (400), then its author is
   * looked up (400 "Utilisateur non trouvé" if absent); only then is the
   * row inserted under the next id.
   */
  function AddPost(t: Tables, body: Option<PostFields>): (o: Outcome)
    ensures !(body.Some? && ValidPost(body.value)) ==> o == Outcome(t, Invalid)
    ensures body.Some? && ValidPost(body.value) && body.value.userId !in t.users ==> o == Outcome(t, UnknownAuthor)
    ensures o.reply.PostCreated? <==> body.Some? && ValidPost(body.value) && body.value.userId in t.users
    ensures o.reply.PostCreated? || o.tables == t
    ensures StatusCode(o.reply) == if o.reply.PostCreated? then 201 else 400
    ensures o.reply.PostCreated? ==>
      && o.reply == PostCreated(t.nextPostId, PostRowOf(body.value))
      && o.tables == t.(posts := t.posts[t.nextPostId := PostRowOf(body.value)], nextPostId := t.nextPostId + 1)
  {
    if !(body.Some? && ValidPost(body.value)) then Outcome(t, Invalid)
    else if body.value.userId !in t.users then Outcome(t, UnknownAuthor)
    else
      var id := t.nextPostId;
      Outcome(t.(posts := t.posts[id := PostRowOf(body.value)], nextPostId := id + 1), PostCreated(id, PostRowOf(body.value)))
  }

  lemma PostsPartition(posts: map<nat, PostRow>, uid: nat)
    ensures |PostsNotOf(posts, uid)| == |posts| - |PostsOf(posts, uid)|
  {
    var mine, others := PostsOf(posts, uid).Keys, PostsNotOf(posts, uid).Keys;
    assert posts.Keys == mine + others;
    assert mine * others == {};
    assert |posts.Keys| == |mine| + |others|;
  }

  /**
   * `deleteUser`: first every post of the user, then the user; there is no
   * not-found branch. Afterwards no post refers to the user, every other
   * post and user is as it was, and the posts table shrank by exactly the
   * user's posts.
   */
  function RemoveUser(t: Tables, id: nat): (o: Outcome)
    ensures o.reply == UserDeleted && StatusCode(o.reply) == 200
    ensures id !in o.tables.users
    ensures forall pid :: pid in o.tables.posts ==> o.tables.posts[pid].userId != id
    ensures forall pid :: pid in t.posts && t.posts[pid].userId != id ==>
      pid in o.tables.posts && o.tables.posts[pid] == t.posts[pid]
    ensures forall pid :: pid in o.tables.posts ==> pid in t.posts
    ensures forall uid :: uid in t.users && uid != id ==> uid in o.tables.users && o.tables.users[uid] == t.users[uid]
    ensures o.tables.users.Keys == t.users.Keys - {id}
    ensures |o.tables.posts| == |t.posts| - |PostsOf(t.posts, id)|
    ensures o.tables.nextUserId == t.nextUserId && o.tables.nextPostId == t.nextPostId
  {
    PostsPartition(t.posts, id);
    var withoutPosts := t.(posts := PostsNotOf(t.posts, id));
    Outcome(withoutPosts.(users := withoutPosts.users - {id}), UserDeleted)
  }

  /** `deletePost`: removes that post only; users are untouched; no not-found branch. */
  function RemovePost(t: Tables, id: nat): (o: Outcome)
    ensures o.reply == PostDeleted && StatusCode(o.reply) == 200
    ensures id !in o.tables.posts
    ensures forall pid :: pid in t.posts && pid != id ==> pid in o.tables.posts && o.tables.posts[pid] == t.posts[pid]
    ensures o.tables.posts.Keys == t.posts.Keys - {id}
    ensures o.tables.users == t.users
    ensures o.tables.nextUserId == t.nextUserId && o.tables.nextPostId == t.nextPostId
  {
    Outcome(t.(posts := t.posts - {id}), PostDeleted)
  }

  /**
   * `getUserPosts`: the id must be an unsigned decimal below 2^32 (400,
   * before any lookup), the user must exist (404); the answer carries the
   * user's name, exactly the posts whose author is that user, and their number.
   */
  function GetUserPosts(t: Tables, idParam: string): (r: Reply)
    ensures ParseUint32(idParam).None? ==> r == BadId
    ensures ParseUint32(idParam).Some? && ParseUint32(idParam).value !in t.users ==> r == NotFound
    ensures r.UserPosts? <==> ParseUint32(idParam).Some? && ParseUint32(idParam).value in t.users
    ensures StatusCode(r) == (if r.UserPosts? then 200 else if r == NotFound then 404 else 400)
    ensures r.UserPosts? ==>
      var id := ParseUint32(idParam).value;
      && r.name == t.users[id].name
      && r.postsCount == |r.posts|
      && (forall pid :: pid in r.posts <==> pid in t.posts && t.posts[pid].userId == id)
      && (forall pid :: pid in r.posts ==> r.posts[pid] == t.posts[pid])
  {
    match ParseUint32(idParam)
    case None => BadId
    case Some(id) =>
      if id !in t.users then NotFound
      else
        var posts := PostsOf(t.posts, id);
        UserPosts(t.users[id].name, |posts|, posts)
  }

  /** Inserting a user keeps the tables consistent: in particular no email appears twice. */
  lemma AddUserConsistent(t: Tables, body: Option<UserFields>, isEmail: EmailCheck)
    requires Consistent(t)
    ensures Consistent(AddUser(t, body, isEmail).tables)
  {
    var o := AddUser(t, body, isEmail);
    if o.reply.UserCreated? {
      assert forall id :: id in t.users ==> t.users[id].email != body.value.email;
    }
  }

  lemma AddPostConsistent(t: Tables, body: Option<PostFields>)
    requires Consistent(t)
    ensures Consistent(AddPost(t, body).tables)
  {
  }

  /** The cascade keeps every remaining post's author present. */
  lemma RemoveUserConsistent(t: Tables, id: nat)
    requires Consistent(t)
    ensures Consistent(RemoveUser(t, id).tables)
  {
  }

  lemma RemovePostConsistent(t: Tables, id: nat)
    requires Consistent(t)
    ensures Consistent(RemovePost(t, id).tables)
  {
  }

  /** A user just deleted can no longer author a post: 400 and nothing inserted. */
  lemma DeletedUserCannotAuthor(t: Tables, id: nat, body: Option<PostFields>)
    requires body.Some? && body.value.userId == id
    ensures var after := RemoveUser(t, id).tables;
      AddPost(after, body).tables == after && !AddPost(after, body).reply.PostCreated?
  {
  }

  /** After deleting a user, `GET /users/<id>/posts` answers 404 (for any id the route can parse). */
  lemma DeletedUserHasNoPosts(t: Tables, id: nat)
    requires id <= MaxUint32
    ensures GetUserPosts(RemoveUser(t, id).tables, FormatNat(id)) == NotFound
  {
    ParseUint32Format(id);
  }

  /** Round trip: a created user is found under its new id, with no posts yet. */
  lemma CreateUserThenGet(t: Tables, body: Option<UserFields>, isEmail: EmailCheck)
    requires Consistent(t)
    requires AddUser(t, body, isEmail).reply.UserCreated?
    ensures var o := AddUser(t, body, isEmail);
      GetUser(o.tables, o.reply.id) == UserFound(o.reply.id, o.reply.user, map[])
  {
    var o := AddUser(t, body, isEmail);
    assert PostsOf(o.tables.posts, o.reply.id) == map[];
  }

  /** Round trip: a created post is listed under its author, next to the author's earlier posts. */
  lemma CreatePostThenList(t: Tables, body: Option<PostFields>)
    requires Consistent(t)
    requires AddPost(t, body).reply.PostCreated?
    ensures var o := AddPost(t, body);
      PostsOf(o.tables.posts, body.value.userId) == PostsOf(t.posts, body.value.userId)[o.reply.id := o.reply.post]
      && o.reply.id !in t.posts
  {
  }

  class Db {
    var users: map<nat, UserRow>
    var posts: map<nat, PostRow>
    var nextUserId: nat
    var nextPostId: nat

    function Snapshot(): Tables
      reads this
    {
      Tables(users, posts, nextUserId, nextPostId)
    }

    ghost predicate Valid()
      reads this
    {
      Consistent(Snapshot())
    }

    /** The database as `AutoMigrate` leaves it: any consistent contents. */
    constructor (initial: Tables)
      requires Consistent(initial)
      ensures Snapshot() == initial && Valid()
    {
      users, posts := initial.users, initial.posts;
      nextUserId, nextPostId := initial.nextUserId, initial.nextPostId;
    }

    /** `getUserByID`: the row with its posts preloaded, or 404; nothing changes. */
    method GetUserByID(id: nat) returns (r: Reply)
      requires Valid()
      ensures r == GetUser(Snapshot(), id)
      ensures r.UserFound? ==> forall pid :: pid in r.posts ==> r.posts[pid].userId == id
    {
      if id !in users {
        return NotFound;
      }
      r := UserFound(id, users[id], PostsOf(posts, id));
    }

    /** `getPostByID`: the row with its author preloaded, or 404; nothing changes. */
    method GetPostByID(id: nat) returns (r: Reply)
      requires Valid()
      ensures r == GetPost(Snapshot(), id)
      ensures r.PostFound? ==> r.author.Some?
    {
      if id !in posts {
        return NotFound;
      }
      r := PostFound(id, posts[id], Some(users[posts[id].userId]));
    }

    /** `getUserPosts`; nothing changes. */
    method GetUserPostsOf(idParam: string) returns (r: Reply)
      requires Valid()
      ensures r == GetUserPosts(Snapshot(), idParam)
    {
      var id := ParseUint32(idParam);
      if id.None? {
        return BadId;
      }
      if id.value !in users {
        return NotFound;
      }
      var mine := PostsOf(posts, id.value);
      r := UserPosts(users[id.value].name, |mine|, mine);
    }

    /** `createUser`: bind, count, insert. */
    method CreateUser(body: Option<UserFields>, isEmail: EmailCheck) returns (r: Reply)
      requires Valid()
      modifies this
      ensures Valid()
      ensures Outcome(Snapshot(), r) == AddUser(old(Snapshot()), body, isEmail)
    {
      AddUserConsistent(Snapshot(), body, isEmail);
      if !(body.Some? && StrictUser(body.value, isEmail)) {
        return Invalid;
      }
      var count := EmailCount(users, body.value.email);
      if count > 0 {
        return Conflict;
      }
      var id := nextUserId;
      users := users[id := Row(body.value)];
      nextUserId := nextUserId + 1;
      r := UserCreated(id, Row(body.value));
    }

    /** `createPost`: bind, look up the author, insert. */
    method CreatePost(body: Option<PostFields>) returns (r: Reply)
      requires Valid()
      modifies this
      ensures Valid()
      ensures Outcome(Snapshot(), r) == AddPost(old(Snapshot()), body)
    {
      AddPostConsistent(Snapshot(), body);
      if !(body.Some? && ValidPost(body.value)) {
        return Invalid;
      }
      if body.value.userId !in users {
        return UnknownAuthor;
      }
      var id := nextPostId;
      posts := posts[id := PostRowOf(body.value)];
      nextPostId := nextPostId + 1;
      r := PostCreated(id, PostRowOf(body.value));
    }

    /** `deleteUser`: the user's posts first, then the user. */
    method DeleteUser(id: nat) returns (r: Reply)
      requires Valid()
      modifies this
      ensures Valid()
      ensures Outcome(Snapshot(), r) == RemoveUser(old(Snapshot()), id)
    {
      RemoveUserConsistent(Snapshot(), id);
      posts := PostsNotOf(posts, id);
      users := users - {id};
      r := UserDeleted;
    }

    /** `deletePost`. */
    method DeletePost(id: nat) returns (r: Reply)
      requires Valid()
      modifies this
      ensures Valid()
      ensures Outcome(Snapshot(), r) == RemovePost(old(Snapshot()), id)
    {
      RemovePostConsistent(Snapshot(), id);
      posts := posts - {id};
      r := PostDeleted;
    }
  }
}

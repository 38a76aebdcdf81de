/**
 * The route table of jour_03/main.go and what a request on a route does:
 * the global logger (no effect on the state), then, in the `/v2` and
 * `/admin` groups, the bearer-token gate, then the route's handler. The
 * same `getUsers` and `createUser` handlers serve the public `/v1` group
 * and the gated `/v2` group.
 */
module Routing {
  import opened Wrappers
  import opened Validation
  import opened UserStore
  import opened AuthGate
  import ValidatedUsers

  datatype Group = Root | V1 | V2 | Admin

  /** The groups that `Use(AuthMiddleware())`. */
  predicate Gated(g: Group) {
    g == V2 || g == Admin
  }

  datatype Verb = GET | POST | PUT | DELETE

  datatype Handler =
    | Home | ListUsers | GetUser | CreateUser | UpdateUser | DeleteUser
    | Profile | AdminStats | AdminUsers

  datatype Route = Route(group: Group, verb: Verb, path: string, handler: Handler)

  /** The registrations made in `main`, in order. */
  function Table(): seq<Route> {
    [ Route(Root, GET, "/", Home),
      Route(V1, GET, "/users", ListUsers),
      Route(V1, GET, "/users/:id", GetUser),
      Route(V1, POST, "/users", CreateUser),
      Route(V1, PUT, "/users/:id", UpdateUser),
      Route(V1, DELETE, "/users/:id", DeleteUser),
      Route(V2, GET, "/users", ListUsers),
      Route(V2, POST, "/users", CreateUser),
      Route(V2, GET, "/profile", Profile),
      Route(Admin, GET, "/stats", AdminStats),
      Route(Admin, GET, "/users", AdminUsers) ]
  }

  /** What a handler reads from the request: the header, the `:id` segment and the decoded body. */
  datatype Request = Request(authorization: string, id: string, body: Option<UserFields>)

  datatype Response =
    | Unauthorized(verdict: Verdict)   // from the gate; the handler did not run
    | Api(reply: Reply)                // from a store handler
    | Welcome                          // the static descriptor at "/"
    | ProfileOf(name: string)
    | Stats(totalUsers: nat, uptime: string, requestsHandled: nat)
    | AdminListing(users: seq<User>, total: nat)

  function StatusOf(r: Response): int {
    match r
    case Unauthorized(_) => StatusUnauthorized
    case Api(reply) => StatusCode(reply)
    case _ => 200
  }

  datatype Served = Served(state: State, response: Response)

  /** What each handler does to the store and answers once it runs. */
  function Handle(h: Handler, s: State, req: Request, isEmail: EmailCheck): Served {
    match h
    case Home => Served(s, Welcome)
    case ListUsers => Served(s, Api(Listed(s.users)))
    case GetUser => Served(s, Api(Lookup(s, req.id)))
    case CreateUser =>
      var o := ValidatedUsers.Create(s, req.body, isEmail);
      Served(o.state, Api(o.reply))
    case UpdateUser =>
      var o := Update(s, req.id, req.body, ValidatedUsers.Rule(isEmail));
      Served(o.state, Api(o.reply))
    case DeleteUser =>
      var o := Delete(s, req.id);
      Served(o.state, Api(o.reply))
    case Profile => Served(s, ProfileOf("Noah Mvondo"))
    case AdminStats => Served(s, Stats(|s.users|, "2h30m", 1523))
    case AdminUsers => Served(s, AdminListing(s.users, |s.users|))
  }

  /**
   * A request on a route: on a gated group, a header other than the one
   * accepted value is answered 401 and the handler never runs; otherwise
   * the handler runs, whatever the header says.
   */
  function Serve(route: Route, s: State, req: Request, isEmail: EmailCheck): (r: Served)
    ensures Gated(route.group) && req.authorization != Accepted ==>
      r == Served(s, Unauthorized(Authorize(req.authorization))) && StatusOf(r.response) == 401
    ensures !Gated(route.group) || req.authorization == Accepted ==>
      r == Handle(route.handler, s, req, isEmail)
  {
    GrantedIff(req.authorization);
    if Gated(route.group) && Authorize(req.authorization) != Granted then
      Served(s, Unauthorized(Authorize(req.authorization)))
    else
      Handle(route.handler, s, req, isEmail)
  }

  /** A request on a route, run against the store object. */
  method ServeOn(store: ValidatedUsers.Store, route: Route, req: Request, isEmail: EmailCheck) returns (resp: Response)
    requires store.Valid()
    modifies store
    ensures store.Valid()
    ensures Served(store.Snapshot(), resp) == Serve(route, old(store.Snapshot()), req, isEmail)
  {
    if Gated(route.group) {
      var verdict := Authorize(req.authorization);
      if verdict != Granted {
        return Unauthorized(verdict);
      }
    }
    match route.handler {
      case Home =>
        resp := Welcome;
      case ListUsers =>
        var reply := store.GetUsers();
        resp := Api(reply);
      case GetUser =>
        var reply := store.GetUserByID(req.id);
        resp := Api(reply);
      case CreateUser =>
        var reply := store.CreateUser(req.body, isEmail);
        resp := Api(reply);
      case UpdateUser =>
        var reply := store.UpdateUser(req.id, req.body, isEmail);
        resp := Api(reply);
      case DeleteUser =>
        var reply := store.DeleteUser(req.id);
        resp := Api(reply);
      case Profile =>
        resp := ProfileOf("Noah Mvondo");
      case AdminStats =>
        resp := Stats(|store.users|, "2h30m", 1523);
      case AdminUsers =>
        resp := AdminListing(store.users, |store.users|);
    }
  }

  ghost predicate Registered(g: Group, h: Handler) {
    exists i :: 0 <= i < |Table()| && Table()[i].group == g && Table()[i].handler == h
  }

  /** `getUsers` and `createUser` are each registered in the public and in the gated group. */
  lemma SharedHandlers()
    ensures Registered(V1, ListUsers) && Registered(V2, ListUsers)
    ensures Registered(V1, CreateUser) && Registered(V2, CreateUser)
  {
    assert Table()[1].group == V1 && Table()[1].handler == ListUsers;
    assert Table()[6].group == V2 && Table()[6].handler == ListUsers;
    assert Table()[3].group == V1 && Table()[3].handler == CreateUser;
    assert Table()[7].group == V2 && Table()[7].handler == CreateUser;
  }

  /** Updates and deletes are only registered in the public group. */
  lemma UpdateAndDeleteArePublic()
    ensures forall i :: 0 <= i < |Table()| && Table()[i].handler in {UpdateUser, DeleteUser} ==>
      Table()[i].group == V1 && !Gated(Table()[i].group)
  {
  }

  /** Behind the gate, the accepted token makes a shared handler behave exactly as in `/v1`. */
  lemma GatedMatchesPublic(verb: Verb, path: string, h: Handler, s: State, req: Request, isEmail: EmailCheck)
    requires req.authorization == Accepted
    ensures Serve(Route(V2, verb, path, h), s, req, isEmail) == Serve(Route(V1, verb, path, h), s, req, isEmail)
  {
  }

  /** Without the token, no gated route changes the store, whatever the handler would do. */
  lemma DeniedLeavesStore(route: Route, s: State, req: Request, isEmail: EmailCheck)
    requires route in Table() && Gated(route.group)
    requires req.authorization != Accepted
    ensures Serve(route, s, req, isEmail).state == s
    ensures Serve(route, s, req, isEmail).response.Unauthorized?
  {
  }

  /** On a public route the header is never looked at. */
  lemma PublicIgnoresHeader(route: Route, s: State, req: Request, header: string, isEmail: EmailCheck)
    requires !Gated(route.group)
    ensures Serve(route, s, req, isEmail) == Serve(route, s, req.(authorization := header), isEmail)
  {
  }
}

# Go web exercises: user stores, bearer gate, users/posts, foo/bar/baz

This project models the decision logic of four small Go programs:

- **jour_03**: a gin API over an in-memory slice of users with binding
  rules, an email-uniqueness check on create, and an `AuthMiddleware`
  that gates the `/v2` and `/admin` route groups behind
  `Authorization: Bearer secret-token-123`.
- **jour_02**: the same CRUD store with weaker rules and no uniqueness check.
- **jour_04**: a GORM/MySQL API over users and posts. Emails are checked
  before a user is inserted, a post's author is checked before the post
  is inserted, a user's posts are deleted before the user, and
  `getUserPosts` parses its id with `ParseUint(_, 10, 32)`.
- **leaning-go/first-book/runner.go**: the argument check and the
  `0..limite` loop that prints `baz`/`foo`/`bar`.

Layout:

- `Strconv`: the integer parsing the handlers use.
  - `ParseInt` is `strconv.Atoi`: an optional sign, one or more ASCII digits, int64 range.
  - `ParseUint32` is `strconv.ParseUint(s, 10, 32)`.
  - `FormatInt`/`FormatNat` are the partners for the round trips.
- `Strings`: `strings.Split` on one character, with `Join` as its inverse.
- `AuthGate`: the middleware's verdict on the header.
- `Validation`: the `binding:"..."` tags as predicates. The syntax check of the `email` tag is a parameter, `isEmail`.
- `UserStore`: the user, the state (`users`, `nextID`), and the `getUserByID`/`updateUser`/`deleteUser` logic shared by jour_02 and jour_03.
  - Each handler is a function from the old state to an outcome (new state and reply).
  - `ScanForId` is the `for ... range users` loop.
- `InMemoryUsers`, `ValidatedUsers`: jour_02 and jour_03.
  - Each has its `createUser` rule.
  - Each has a `Store` class whose fields are the package globals.
  - Its methods change the fields and are proved equal to the functions above.
- `Routing`: the jour_03 route table and what a request on a route does (gate, then handler), on values and on a `ValidatedUsers.Store`.
- `RelationalStore`: jour_04.
  - The two tables are maps from primary key to row, with their auto-increment counters.
  - The `Db` class holds them.
  - `Consistent` is what the unique index and the foreign key guarantee.
- `Runner`: `main` of runner.go. The printed lines are the method's result.

Two behaviours of the code are easy to miss, and the model keeps both:

- `updateUser` (jour_02, jour_03) has no email-uniqueness check, unlike `createUser` in jour_03. An update can therefore give two users the same email (`ValidatedUsers.UpdateCanDuplicateEmail`).
- The jour_04 `deleteUser` and `deletePost` have no not-found branch. They reply 200 whether or not the row existed.

## Model

| member | source | states |
|---|---|---|
| Strconv.ParseInt | jour_03/main.go:181-187 | `Atoi` accepts only an optional sign followed by digits, with a negative result only after `-`; every digit string in int64 range, with or without a sign, parses to its signed decimal value |
| Strconv.ParseFormat | jour_03/main.go:181 | every int64 written in decimal parses back to itself |
| Strconv.ParseIntIff | jour_03/main.go:181-187 | `Atoi` succeeds exactly when the text is an optional sign followed by one or more digits whose signed value is within int64; a bare sign, any other character and any out-of-range numeral (leading zeros or not) are rejected |
| Strconv.ParseIntRejectsOverflow | jour_03/main.go:181-187 | a decimal above 2^63-1, or its negation below -2^63, is rejected |
| Strconv.ParseIntRejects | jour_03/main.go:181-187 | the empty string, a bare `-`, trailing letters, leading space and decimals are rejected (so the handler answers 400) |
| Strconv.ParseIntAccepts | jour_03/main.go:181 | `+7`, `-42`, leading zeros and `-0` are accepted with their values |
| Strconv.ParseUint32 | jour_04/main-mysql.go:257-261 | accepted exactly when non-empty, all digits and at most 2^32-1; the value is the decimal one and agrees with `Atoi` |
| Strconv.ParseUint32Format | jour_04/main-mysql.go:257 | every number below 2^32 written in decimal parses back to itself |
| Strconv.ParseUint32RejectsSign | jour_04/main-mysql.go:257-261 | `+7` is refused by `ParseUint` although `Atoi` accepts it |
| Strconv.ValueOfFormat | jour_03/main.go:197 | the decimal digits written for a number denote that number |
| Strings.Split | jour_03/main.go:68 | one more piece than separators, no piece holds the separator, and joining the pieces gives the header back |
| Strings.SplitJoin | jour_03/main.go:68 | splitting what was joined from separator-free pieces gives the pieces back |
| AuthGate.Authorize | jour_03/main.go:53-89 | the middleware's verdict, in its order: empty header, then split on spaces into scheme and token, then the token; its meaning is stated by the lemmas below |
| AuthGate.Classification | jour_03/main.go:53-89 | empty header: missing; otherwise not `Bearer ` followed by one space-free word: bad format; otherwise a word other than the token: bad token; otherwise granted, each in both directions |
| AuthGate.GrantedIff | jour_03/main.go:53-89 | the request goes on to the handler exactly when the header is `Bearer secret-token-123` |
| AuthGate.BearerShapedSplit | jour_03/main.go:68-69 | a header of the form `Bearer <word>` splits into exactly the scheme and the word |
| AuthGate.TwoPiecesShaped | jour_03/main.go:68-69 | a header that splits into two pieces with first piece `Bearer` has that form |
| AuthGate.BareSchemeIsBadToken | jour_03/main.go:68-84 | `Bearer ` passes the format check and fails the token check |
| AuthGate.DoubleSpaceIsBadFormat | jour_03/main.go:68-75 | `Bearer  x` splits into the three pieces `Bearer`, an empty one and `x`, so it fails the format check |
| AuthGate.WrongTokenIsBadToken | jour_03/main.go:77-84 | `Bearer ` followed by any space-free word other than the token is refused as a bad token |
| AuthGate.LowerCaseSchemeIsBadFormat | jour_03/main.go:69 | the scheme is compared case-sensitively: `bearer ` followed by anything is a format error |
| AuthGate.TrailingSpaceIsBadFormat | jour_03/main.go:68-75 | a trailing space after the right token makes a third, empty piece, so the header fails the format check |
| Validation.StrictUser | jour_03/main.go:16-18 | the jour_03 and jour_04 user tags: name of 2 to 50 characters, email present and well-formed, age from 1 to 150 |
| Validation.BasicUser | jour_02/main.go:13-15 | the jour_02 user tags: name present, email present and well-formed, age unconstrained |
| Validation.ValidPost | jour_04/main-mysql.go:25-26 | the post tags: title of 3 to 100 characters, content of at least 10 |
| UserStore.StatusCode | jour_03/main.go:170-308 | the `http.Status...` each jour_02/jour_03 handler reply is sent with |
| UserStore.FindIndex | jour_03/main.go:189-194 | the index found is that of the first user with the id; none means no user has it |
| UserStore.ScanForId | jour_03/main.go:189-194 | the range loop stops at the first user with the id, or reports that none has it |
| UserStore.FirstWithIdUnique | jour_03/main.go:189-194 | the first matching index is the one the scan finds |
| UserStore.Lookup | jour_03/main.go:178-199 | a non-integer id gives 400 whatever the store holds; otherwise the first user with that id, or 404 |
| UserStore.Update | jour_03/main.go:243-280 | id parsed before the body; 400 on either failure; on a hit the body replaces that user and keeps its id, with length and every other user unchanged; 404 on a miss; only a hit changes the state |
| UserStore.Delete | jour_03/main.go:283-308 | 400 on a bad id; on a hit, exactly the first matching user is removed and the rest keep their order; 404 and no change on a miss |
| UserStore.NumberedAppend | jour_03/main.go:229-234 | appending under `nextID` and incrementing it keeps ids distinct and below `nextID`, and the new id exceeds every earlier one |
| UserStore.NumberedReplace | jour_03/main.go:265-268 | replacing a user by one with the same id keeps ids distinct and below `nextID` |
| UserStore.NumberedRemove | jour_03/main.go:294-297 | removing one user keeps ids distinct and below `nextID`, leaves no user with the removed id, and shortens the slice by one |
| UserStore.UpdatePreservesNumbered | jour_03/main.go:243-280 | `updateUser` keeps ids distinct and below `nextID` |
| UserStore.DeletePreservesNumbered | jour_03/main.go:283-308 | `deleteUser` keeps ids distinct and below `nextID`; after a delete no user has the id and the slice is one shorter |
| UserStore.LookupFindsEveryUser | jour_03/main.go:178-194 | every stored user is found by its id written in decimal |
| InMemoryUsers.Initial | jour_02/main.go:19-24 | the seeded slice (ids 1 and 2) and `nextID` 3 |
| InMemoryUsers.Create | jour_02/main.go:83-100 | created exactly when the body binds (name and email present, email well-formed); the new user gets the old `nextID`, goes to the end, and `nextID` grows by one; otherwise 400 and no change |
| InMemoryUsers.HandlersPreserveNumbered | jour_02/main.go:19-24 | the initial slice has distinct ids below `nextID`, and create, update and delete keep it so |
| InMemoryUsers.CreateAssignsFreshId | jour_02/main.go:92-97 | a created user's id exceeds every stored id |
| InMemoryUsers.CreateThenLookup | jour_02/main.go:62-100 | a created user is then found by its id |
| InMemoryUsers.DuplicateEmailAccepted | jour_02/main.go:83-100 | for example, creating a second user with `noah@example.com`, already stored, succeeds |
| InMemoryUsers.Store.constructor | jour_02/main.go:19-24 | the store starts with the two seeded users and `nextID` 3 |
| InMemoryUsers.Store.GetUsers | jour_02/main.go:57-59 | the reply is the whole slice |
| InMemoryUsers.Store.GetUserByID | jour_02/main.go:62-80 | the loop answers as `Lookup` and changes nothing |
| InMemoryUsers.Store.CreateUser | jour_02/main.go:83-100 | the globals change as `Create` says |
| InMemoryUsers.Store.UpdateUser | jour_02/main.go:103-129 | the loop and in-place assignment change the globals as `Update` says |
| InMemoryUsers.Store.DeleteUser | jour_02/main.go:132-151 | the loop and the re-slicing change the globals as `Delete` says |
| ValidatedUsers.Initial | jour_03/main.go:22-28 | the seeded slice (ids 1 to 3) and `nextID` 4 |
| ValidatedUsers.EmailTaken | jour_03/main.go:220-227 | the email loop's condition: some stored user has exactly that email |
| ValidatedUsers.Create | jour_03/main.go:202-240 | 400 and no change when the body breaks a rule (name 2..50, email, age 1..150), checked before the emails; 409 and no change when an equal email is stored; otherwise the user gets the old `nextID`, goes to the end and `nextID` grows by one |
| ValidatedUsers.HandlersPreserveNumbered | jour_03/main.go:22-28 | the initial slice has distinct ids below `nextID`, and create, update and delete keep it so |
| ValidatedUsers.CreateAssignsFreshId | jour_03/main.go:229-231 | a created user's id exceeds every stored id and `nextID` grows by exactly one |
| ValidatedUsers.CreateKeepsEmailsUnique | jour_03/main.go:219-234 | if no email appears twice before a create, none does after |
| ValidatedUsers.InitialEmailsUnique | jour_03/main.go:22-26 | the seeded users have distinct emails |
| ValidatedUsers.EmailCheckIsCaseSensitive | jour_03/main.go:220-221 | for example, `Noah@example.com` is created although `noah@example.com` is stored: the comparison is case-sensitive |
| ValidatedUsers.UpdateCanDuplicateEmail | jour_03/main.go:243-280 | updating user 2 with user 1's email succeeds and leaves two users with that email |
| ValidatedUsers.CreateThenLookup | jour_03/main.go:178-240 | a created user is then found by its id |
| ValidatedUsers.Store.constructor | jour_03/main.go:22-28 | the store starts with the three seeded users, `nextID` 4 and distinct emails |
| ValidatedUsers.Store.GetUsers | jour_03/main.go:170-175 | the reply is the whole slice |
| ValidatedUsers.Store.GetUserByID | jour_03/main.go:178-199 | the loop answers as `Lookup` and changes nothing |
| ValidatedUsers.Store.CreateUser | jour_03/main.go:202-240 | the email loop and the append change the globals as `Create` says |
| ValidatedUsers.Store.UpdateUser | jour_03/main.go:243-280 | the loop and in-place assignment change the globals as `Update` says |
| ValidatedUsers.Store.DeleteUser | jour_03/main.go:283-308 | the loop and the re-slicing change the globals as `Delete` says |
| Routing.Table | jour_03/main.go:99-155 | the eleven registrations of `main`, with group, verb, path and handler |
| Routing.Handle | jour_03/main.go:99-155 | each handler of the table: the store handlers as `UserStore` and `ValidatedUsers` specify them, and the static `/`, `/v2/profile`, `/admin/stats` and `/admin/users` answers |
| Routing.Serve | jour_03/main.go:111-155 | on a `/v2` or `/admin` route, any header but the accepted one gives 401 and leaves the store unchanged; otherwise the route's handler runs |
| Routing.ServeOn | jour_03/main.go:111-155 | serving a request on the store changes it and answers as `Serve` says |
| Routing.SharedHandlers | jour_03/main.go:115-127 | the list and create handlers are registered in both `/v1` and `/v2` |
| Routing.UpdateAndDeleteArePublic | jour_03/main.go:112-155 | update and delete are registered only in the ungated `/v1` group |
| Routing.GatedMatchesPublic | jour_03/main.go:115-127 | with the accepted header, a `/v2` route behaves like the same handler on `/v1` |
| Routing.DeniedLeavesStore | jour_03/main.go:123-155 | a refused request on a gated route gets 401 and changes nothing |
| Routing.PublicIgnoresHeader | jour_03/main.go:111-120 | on an ungated route the header makes no difference |
| RelationalStore.PostsOf | jour_04/main-mysql.go:166 | exactly the posts whose `user_id` is the user, with their stored rows (also what `Preload("Posts")` loads) |
| RelationalStore.StatusCode | jour_04/main-mysql.go:106-277 | the `http.Status...` each jour_04 reply is sent with |
| RelationalStore.PostsNotOf | jour_04/main-mysql.go:166 | exactly the posts whose `user_id` is not the user, with their stored rows: what `DELETE ... WHERE user_id = ?` leaves |
| RelationalStore.EmailCount | jour_04/main-mysql.go:130-131 | the count is positive exactly when a stored user has the email |
| RelationalStore.GetUser | jour_04/main-mysql.go:106-119 | the row with exactly the user's posts, each with its stored contents, preloaded; 404 when absent |
| RelationalStore.GetPost | jour_04/main-mysql.go:187-200 | the row with its author preloaded; 404 when absent |
| RelationalStore.AddUser | jour_04/main-mysql.go:121-143 | 400 and no change when the body breaks a rule, before any lookup; 409 and no change when a stored user has the email; created (201) exactly when neither happens, the row going in under the next id |
| RelationalStore.AddPost | jour_04/main-mysql.go:202-223 | 400 and no change when the body breaks a rule (title 3..100, content at least 10); 400 and no change when the author is absent; created (201) exactly when neither happens, the row going in under the next id |
| RelationalStore.RemoveUser | jour_04/main-mysql.go:162-174 | always 200; the user and all their posts are gone, other users and other users' posts are untouched, and the post count drops by exactly the user's posts |
| RelationalStore.RemovePost | jour_04/main-mysql.go:242-251 | only that post is gone; users are untouched; the reply is 200 whether or not it existed |
| RelationalStore.GetUserPosts | jour_04/main-mysql.go:255-277 | 400 before any lookup when the id is not an unsigned decimal below 2^32; 404 for a missing user; otherwise 200 with the name, exactly the user's posts, and their number |
| RelationalStore.PostsPartition | jour_04/main-mysql.go:166 | the posts not by a user are all posts minus that user's posts |
| RelationalStore.AddUserConsistent | jour_04/main-mysql.go:121-143 | creating a user keeps ids below the counters, the foreign key and the unique emails |
| RelationalStore.AddPostConsistent | jour_04/main-mysql.go:202-223 | creating a post keeps the tables consistent |
| RelationalStore.RemoveUserConsistent | jour_04/main-mysql.go:162-174 | deleting posts first, then the user, keeps the foreign key |
| RelationalStore.RemovePostConsistent | jour_04/main-mysql.go:242-251 | deleting a post keeps the tables consistent |
| RelationalStore.DeletedUserCannotAuthor | jour_04/main-mysql.go:162-215 | after a user is deleted, a post naming them is refused and nothing is inserted |
| RelationalStore.DeletedUserHasNoPosts | jour_04/main-mysql.go:162-174 | after a user is deleted, listing their posts answers 404 |
| RelationalStore.CreateUserThenGet | jour_04/main-mysql.go:106-143 | a created user is found under its new id with no posts |
| RelationalStore.CreatePostThenList | jour_04/main-mysql.go:202-223 | a created post gets a fresh id and joins its author's posts |
| RelationalStore.Db.constructor | jour_04/main-mysql.go:13-29 | the database starts from any consistent contents |
| RelationalStore.Db.GetUserByID | jour_04/main-mysql.go:106-119 | answers as `GetUser`; every preloaded post is by that user |
| RelationalStore.Db.GetPostByID | jour_04/main-mysql.go:187-200 | answers as `GetPost`; a found post always has its author |
| RelationalStore.Db.GetUserPostsOf | jour_04/main-mysql.go:255-277 | answers as `GetUserPosts` and changes nothing |
| RelationalStore.Db.CreateUser | jour_04/main-mysql.go:121-143 | count, then insert, changes the tables as `AddUser` says and keeps them consistent |
| RelationalStore.Db.CreatePost | jour_04/main-mysql.go:202-223 | author lookup, then insert, changes the tables as `AddPost` says |
| RelationalStore.Db.DeleteUser | jour_04/main-mysql.go:162-174 | posts first, then the user, as `RemoveUser` says |
| RelationalStore.Db.DeletePost | jour_04/main-mysql.go:242-251 | removes the post as `RemovePost` says |
| Runner.Classify | leaning-go/first-book/runner.go:26-33 | the switch prints a word exactly when 3 or 5 divides the number |
| Runner.Lines | leaning-go/first-book/runner.go:25-34 | the lines printed for 0..n in order; the lemmas below state their properties |
| Runner.Run | leaning-go/first-book/runner.go:9-35 | only the usage line unless there is exactly one argument; only the error line when it is not an integer; otherwise the classified lines for 0..limite in increasing order |
| Runner.SmallMultiples | leaning-go/first-book/runner.go:27 | below 15, only 0 is divisible by both 3 and 5 |
| Runner.ShiftByFifteen | leaning-go/first-book/runner.go:27-31 | adding a multiple of 15 changes neither remainder |
| Runner.BazIffFifteen | leaning-go/first-book/runner.go:26-33 | a number gets `baz` exactly when 15 divides it, so multiples of 15 never get `foo` or `bar` |
| Runner.FirstLineIsBaz | leaning-go/first-book/runner.go:25-28 | for a limit of at least 0 the first line is `baz` |
| Runner.LinesGrowAtTheEnd | leaning-go/first-book/runner.go:25 | the output for a smaller limit is a prefix of the output for a larger one |
| Runner.OnlyThreeWords | leaning-go/first-book/runner.go:26-33 | every line is `foo`, `bar` or `baz` |
| Runner.LineCount | leaning-go/first-book/runner.go:25-34 | the number of lines is the number of i in 0..limite divisible by 3 or 5 |

## Left out

- Server plumbing is not modelled: `r.Run`, gin's default Logger/Recovery, JSON encoding and decoding, and message texts. A body is `Some(fields)` when it binds and `None` when it does not.
- `LoggerMiddleware` (jour_03, jour_04) is not modelled. It always calls `Next`, and its timing and printing are clock and I/O.
- gin's route matching and its `Next`/`Abort` chain are not modelled. A route is given directly, and a gated handler runs exactly when the gate grants.
- AuthGate: the gate is modelled from the value `GetHeader` returns. net/http already trims surrounding spaces from an HTTP/1.x header value, so a header sent as `Bearer ` arrives as `Bearer` and fails the format check rather than the token check (AuthGate.BareSchemeIsBadToken), and one sent as `Bearer secret-token-123 ` arrives without its trailing space and is granted (AuthGate.TrailingSpaceIsBadFormat).
- The syntax check of the `email` binding rule is a library; it appears as the `isEmail` parameter.
- Several GORM details are not modelled:
  - connection, DSN and `AutoMigrate`;
  - `Preload` beyond its result;
  - every 500 "Erreur BD" branch, as the database is assumed not to fail.
- jour_04 `updateUser` and `updatePost` are not modelled. Their effect depends on GORM's zero-value rules for `Updates`.
- RelationalStore.GetUser, RelationalStore.GetPost, RelationalStore.RemoveUser, RelationalStore.RemovePost: GORM's handling of the raw string id is not modelled. The id is taken as already a number.
- RelationalStore.AddUser, RelationalStore.AddPost: an `id` given in the JSON body would go to GORM. The model always uses the next auto-increment value.
- RelationalStore.AddPost: `Post` embeds a `User` value with no `binding:"-"`, so gin's validator also applies the user tags to the nested `user` object of a post body, and GORM's `Create` saves that nested user and sets `user_id` from it. The model checks only the post's own fields and inserts the post under the given `user_id`, leaving users untouched; these framework behaviours are not modelled.
- Validation.ValidPost: states only the tags of `Post`'s own fields; the validation of the nested `User` struct described above is not modelled.
- RelationalStore.AddUser: a `posts` array in a user body would be inserted by GORM's `Create` along with the user. The model inserts only the user row.
- RelationalStore.AddUser: email equality is modelled as exact. A case-insensitive MySQL collation would make the check coarser.
- RelationalStore: the row order of tables and of preloaded lists is not modelled. Tables are maps keyed by primary key.
- jour_04 `getAllUsers` and `getAllPosts` are not modelled. They only return the tables.
- Concurrency is not modelled. Handlers mutate the globals without locks, and the model is sequential.
- `nextID` and the auto-increment counters are unbounded. Go's `int`/`uint` wrap-around is not modelled.
- Runner.Run: for a limit of 2^63-1 the Go loop counter wraps and the program never stops. The model's integers are unbounded, so it ends after 2^63 steps.
- Validation: lengths count characters; go-playground counts runes. They are the same for the strings modelled here, which are sequences of Unicode characters.
- Validation has no aggregated per-field error details. Every binding failure is one `Invalid` reply.
- jour_01 and jour_05 are not part of this model. They hold static responses and framework hooks with no decision logic.

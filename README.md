# Todo API: verified model of the todo handlers and the user model

This project models the two pieces of decision logic in a small Express and
Mongoose REST backend for todos and users:

- the todo routes of `server/server.js` (POST, GET list, GET by id, DELETE
  and PATCH of `/todos`), run against an in-memory todo collection (a map
  from document id to `{text, completed, completedAt}` plus the collection's
  natural order). PATCH applies the completion rule: a todo that is already
  completed cannot be completed again (404), completing a todo stamps it
  with the current time, and anything else resets it to "not completed"
  with no completion time. The catch block maps a thrown `{status}` to that
  status and anything else to 400;
- the user model of `server/models/user.js`: the schema validators
  (required, unique email accepted by the email predicate; required password
  of at least six characters), `toJSON` (only `_id` and `email` are
  rendered), `generateAuthToken` (appends `{access: 'auth', token}` and
  saves), the pre-save hook (rehashes the password only when it was
  modified), `findByToken` and `findByCredentials`.

The files:

- `common.dfy`: `Wrappers` (Option, Result), `Json` (JSON values and
  lodash's `_.pick`), `Seqs` (distinct sequences and removal, used for a
  collection's natural order).
- `todos.dfy`: module `TodoApi`, with the pure completion rule `PatchTodo`
  and the class `TodoStore`, whose methods are the route handlers.
- `users.dfy`: module `UserModel`, with the pure lookups and rendering and
  the classes `UserDoc` (a user document in memory) and `UserStore` (the
  user collection).

Foreign services are parameters. `ObjectID.isValid` is `validId`;
`validator.isEmail` is `isEmail`; the current time of PATCH is `now`; the
salt that `bcrypt.genSalt` draws is `salt`; a query that the database
rejects is `fault`; jsonwebtoken is a `Jwt` value (`sign`, `verify`) and
bcryptjs a `Bcrypt` value (`hash`, `compare`). What the model relies on is
stated as predicates: `Jwt.RoundTrips` (verifying a token with the secret
it was signed with gives back its payload) and `Bcrypt.Verifies`
(`compare(p, hash(p, salt))` holds). Lemmas that need them take them as
preconditions. The signing secret `'abc123'` is the constant
`UserModel.Secret`.

Points where the code's behaviour may be unexpected, and what the model does:

- `server/server.js` has no authentication middleware and no per-user
  (`_creator`) scoping of todos, and it has no `/users` routes. Todos are
  therefore modelled as one shared collection.
- A successful PATCH replies with the updated document itself
  (`server/server.js:96`), while the test at
  `server/tests/server.test.js:160-161` reads `res.body.todo`. The model
  sends the bare document (`TodoDoc`), as the code does.
- `server/models/user.js` has no operation that removes a token, so token
  revocation is not modelled.

`server/models/todo.js` is not part of this model. The todo schema is taken
to require `text` (a non-empty string), with `completed` defaulting to
`false` and `completedAt` to `null`.

## Model

| member | source | states |
|---|---|---|
| `TodoApi.PatchTodo` | server/server.js:70-89 | PATCH fails with 404 "todo is already set to completed!" exactly when the stored todo is completed and the request's `completed` is the boolean `true`. Otherwise, a request with `completed: true` gives `completed = true`, `completedAt = now`. Any other request gives `completed = false`, `completedAt = null`, whatever the prior state. `text` is replaced exactly when a string text is given. The result always has a completion time exactly when it is completed. |
| `TodoApi.PatchOnlyReadsTextAndCompleted` | server/server.js:70 | Two requests that agree on `text` and `completed` have the same effect. A caller-supplied `completedAt` or any other field is dropped. |
| `TodoApi.CompletingTwiceFails` | server/server.js:78-84 | After a PATCH that completes a todo, the same request is refused with 404 "already completed". |
| `TodoApi.TodoStore.Create` | server/server.js:16-23 | POST succeeds (200, the new document) exactly when `text` is a non-empty string and the save is not rejected. It then adds exactly one todo under the new id, with that text, `completed = false` and `completedAt = null`, and appends that id to the order. Otherwise it replies 400 and the collection is unchanged. |
| `TodoApi.TodoStore.List` | server/server.js:25-31 | GET /todos replies 200 with every stored todo, once each, in the collection's natural order, as many as the collection holds. A database rejection gives 400. |
| `TodoApi.TodoStore.SizeIsOrderLength` | server/server.js:26-27 | The collection holds exactly as many todos as its natural order lists, so the listing's length is the number of todos. |
| `TodoApi.TodoStore.Get` | server/server.js:33-47 | An invalid id gives 404 before any lookup. A database rejection gives 400 `{}`. A valid but absent id gives 404 "Requested id not found!". A present id gives 200 `{todo}` with the stored todo. |
| `TodoApi.TodoStore.Delete` | server/server.js:49-63 | An invalid id gives 404 before any store access. An absent id gives 404 "Could not delete id!". In both cases, and on a database rejection (400), the collection is unchanged. A present id is removed from the map and from the order, and the reply carries the removed todo. |
| `TodoApi.TodoStore.Patch` | server/server.js:65-106 | The reply is 400 exactly on a database rejection of a valid id. It is 404 exactly when the id is invalid, absent, or names a completed todo that the request completes again. It is 200 in every other case. An invalid id gives 404. A database rejection gives 400 `{}`. An absent id gives 404 "Could not find todo with id to update!". A present id gets exactly the result of `PatchTodo`: either the thrown status and error, with the collection unchanged, or 200 with the updated todo stored under that id and every other todo unchanged. Every todo keeps `completedAt` non-null exactly when `completed` (`Valid`). |
| `TodoApi.CreateThenGet` | server/server.js:16-47 | A todo created by POST is returned by GET /todos/:id with the same text, `completed = false` and `completedAt = null`. |
| `TodoApi.CompleteTwice` | server/server.js:78-92 | Completing a not-yet-completed todo stamps it with the current time. Repeating the request gives 404 "todo is already set to completed!" and changes nothing. |
| `UserModel.ToJson` | server/models/user.js:41-45 | The rendering of a user has no keys other than `_id` and `email`. It never contains `password`, `tokens` or `name`. `_id` is the user's id, and `email` is present exactly when the user has one. |
| `UserModel.ToJsonHidesSecrets` | server/models/user.js:41-45 | Two users with the same id and email render identically, whatever their passwords and tokens. |
| `UserModel.RenderedUser` | server/models/user.js:41-45 | A user holding an email renders as exactly `{_id, email}`. |
| `UserModel.UserDoc.GenerateAuthToken` | server/models/user.js:47-55 | Exactly one entry `{access: 'auth', token}` is appended at the end of `tokens`, and every earlier entry is kept in order. The token is the signature of `{_id, access: 'auth'}`. The save that follows succeeds exactly when the document with its new entry validates, is new exactly when its id is not stored, and no other user holds its email. On success it settles with that same token. It stores the document under its id and appends the id to the order only if the document was new. It leaves the document saved and its password unmodified. A refusal as invalid leaves the password as it was; any other outcome leaves it as the pre-save hook makes it. A refused save leaves the collection, its order and the document's flags unchanged. With a sound `Jwt`, the returned token finds this user. |
| `UserModel.UserDoc.PreSave` | server/models/user.js:57-75 | On save, the password becomes `hash(password, salt)` only when it was modified. Otherwise it is left unchanged. |
| `UserModel.PasswordAfterSave` | server/models/user.js:57-75 | An unmodified password is kept as it is. A password is present after the save exactly when it was present before. |
| `UserModel.SavedPasswordStillMatches` | server/models/user.js:64-68 | With a sound `Bcrypt`, the plaintext compares equal to the stored hash. A later save without a modification does not hash it again. |
| `UserModel.UserStore.Save` | server/models/user.js:13-38 | A save is refused as invalid exactly when a validator fails: email required, at least one character and accepted by `isEmail`; password required and at least six characters; name at least one character when given; token entries with non-empty fields. Lengths are counted in UTF-16 code units. A valid document is then passed through the pre-save hook. A new document whose id is already stored is refused as a duplicate id. A stored document whose id is no longer stored is refused as not found. Otherwise it is refused as a duplicate email exactly when another user holds the email. On success the document is stored under its id, its id is appended to the order exactly when it was new, and it is marked saved and unmodified. A refusal changes neither the collection nor the order. The collection keeps ids as keys and emails unique. |
| `UserModel.Utf16Length` | server/models/user.js:10-27 | The length that `minlength` checks is between the number of characters and twice that number. It is zero only for the empty string. |
| `UserModel.AstralPasswordLength` | server/models/user.js:24-28 | A password of three characters outside the Basic Multilingual Plane has length six, so it meets the minimum length. |
| `UserModel.FindByToken` | server/models/user.js:77-92 | It rejects exactly when verification fails. Otherwise it returns only the user whose `_id` is the decoded id, whose `tokens` contain that exact token string, and which has an entry with access `auth`. When no such user exists, it resolves with no user. |
| `UserModel.IssuedTokenFindsOwner` | server/models/user.js:50-91 | A token issued for a user and still in that user's list finds that user, and no other. |
| `UserModel.AccessMatchedSeparately` | server/models/user.js:87-91 | The token condition and the access condition are matched independently. For any access in the decoded claims, a token is accepted when its own entry has an access other than `auth` and some other entry of the user has access `auth`. |
| `UserModel.FirstWithEmail` | server/models/user.js:97 | `findOne({email})` finds a user holding the email, or reports that no user in the collection holds it. |
| `UserModel.FindByCredentials` | server/models/user.js:94-112 | It rejects when no user has the email. It resolves with a user only when that user holds the email and `compare(password, storedHash)` holds. Otherwise it rejects because the password does not match. |
| `UserModel.CredentialsDecideLogin` | server/models/user.js:97-110 | With unique emails, the user holding the email is the one looked at. The call resolves with that user exactly when `compare(password, storedHash)` holds. |
| `UserModel.LoginAfterRegistration` | server/models/user.js:64-110 | A user stored with the hash of a plaintext logs in with that plaintext. |
| `UserModel.RegisterThenLogin` | server/models/user.js:41-112 | Registering under an unused id succeeds exactly when the new document validates, no other user holds the email, and the document with its hashed password and first token validates again. It is never refused as a duplicate id or as not found. After a new user is saved and issued a token, that token finds the user, the email and plaintext password log the user in, and the user renders as exactly `{_id, email}`. |

## Left out

- Express routing, body parsing, `app.listen` and the HTTP response objects. Handlers return a `Reply` (status and payload) instead.
- MongoDB and the Mongoose connection. The collections are in-memory maps with their natural order. In the todo routes, any rejection of a query by the database is one boolean parameter, `fault`, and its cause is not modelled.
- UserModel.FindByToken, UserModel.FindByCredentials, UserModel.UserStore.Save: a database rejection of a user query is not modelled. The `findOne` of `findByToken` and of `findByCredentials` and the write of `save()` can reject for reasons other than a failed verification or the two unique indexes; the model treats the user database as one that never fails, so "rejects exactly when verification fails" holds only for such a database.
- The concurrent interleavings of a request's two queries. Between PATCH's `findById` and `findOneAndUpdate`, another request could delete the todo. Only then does the "Could not update todo at id" 404 (`server/server.js:93-95`) happen, so the sequential model never takes it. The uncaught rejection of that inner update is not modelled either.
- The internals of jsonwebtoken and bcryptjs, including the bcrypt error branches that never call `next()`. They are the abstract `Jwt` and `Bcrypt` values, and the randomness of `genSalt` is the `salt` parameter.
- `ObjectID.isValid` and `validator.isEmail`: left uninterpreted, as the parameters `validId` and `isEmail`.
- `new Date().getTime()`: replaced by the parameter `now`. JSON numbers are integers, because the only number the core produces is this timestamp.
- Mongoose's string casting. `TodoApi.TodoStore.Create` treats a `text` that is not a JSON string as invalid (400), while Mongoose would cast a number or boolean to its string form.
- `TodoApi.PatchTodo`: a `text` in the PATCH body that is not a JSON string is ignored. Mongoose would cast a number or boolean, and because `findOneAndUpdate` runs no validators by default, `text: null` would be stored as null.
- The `trim: true` setters on `name` and `email` are not modelled. Values are stored as given.
- The `__v` version key and the `_id` of each token subdocument in `toObject()`. `toJSON` picks neither.
- `TodoApi.TodoStore.Get`, `TodoApi.TodoStore.Delete`, `TodoApi.TodoStore.Patch`: the path id is looked up exactly as given. Mongoose casts a valid id string to an ObjectID, so another spelling of a stored id (upper-case hex, say) finds the todo in the source but gives 404 in the model.
- `UserModel.FindByToken`: the cast of the decoded `_id` to an ObjectID is not modelled. A decoded id that is not a valid ObjectID would make the query reject rather than resolve with no user.
- The `playground/` scripts, `server/config/config.js` (environment selection) and the test harness and fixtures.

/** The user model of server/models/user.js over an in-memory user collection.
    jsonwebtoken, bcryptjs and `validator.isEmail` are foreign libraries: they
    appear as function-valued parameters (`Jwt`, `Bcrypt`, `isEmail`), and
    what the model needs of them is stated as predicates on those values.
    The salt `bcrypt.genSalt` would draw is the parameter `salt`. */
module UserModel {
  import opened Wrappers
  import opened Json
  import opened Seqs

  type Id = string

  /** The signing secret hard-coded in the model. */
  const Secret := "abc123"
  /** The only access scope tokens are issued for. */
  const AuthAccess := "auth"
  /** The schema's `minlength` for `password`. */
  const MinPasswordLength := 6

  datatype Token = Token(access: string, token: string)

  /** A user document as stored. Absent optional fields are `None`. */
  datatype User = User(
    id: Id,
    name: Option<string>,
    email: Option<string>,
    password: Option<string>,
    tokens: seq<Token>)

  /** The payload signed into a token: `{_id, access}`. */
  datatype Claims = Claims(id: Id, access: string)

  /** `jwt.sign(payload, secret)` and `jwt.verify(token, secret)`; a verify
      that throws is `None`. */
  datatype Jwt = Jwt(sign: (Claims, string) -> string, verify: (string, string) -> Option<Claims>) {
    /** Verifying with the secret a token was signed with gives back its payload. */
    ghost predicate RoundTrips() {
      forall c: Claims, key: string :: verify(sign(c, key), key) == Some(c)
    }
  }

  /** `bcrypt.hash(plaintext, salt)` and `bcrypt.compare(plaintext, hash)`. */
  datatype Bcrypt = Bcrypt(hash: (string, string) -> string, compare: (string, string) -> bool) {
    /** A plaintext compares equal to any hash made from it. */
    ghost predicate Verifies() {
      forall plain: string, salt: string :: compare(plain, hash(plain, salt))
    }
  }

  // ---------------------------------------------------------------------------
  // Schema constraints
  // ---------------------------------------------------------------------------

  /** The length JavaScript reports for a string: UTF-16 code units, so a
      character outside the Basic Multilingual Plane counts twice. Mongoose's
      `minlength` compares against this length. */
  function Utf16Length(s: string): (n: nat)
    ensures |s| <= n <= 2 * |s|
    ensures n == 0 <==> s == []
  {
    if s == [] then 0 else (if s[0] as int > 0xFFFF then 2 else 1) + Utf16Length(s[1..])
  }

  /** Three characters outside the Basic Multilingual Plane make a password
      of length six. */
  lemma AstralPasswordLength()
    ensures Utf16Length("\U{1F600}\U{1F600}\U{1F600}") == MinPasswordLength
  {
  }

  /** The schema's validators: `name` is at least one character when given;
      `email` is required, at least one character and accepted by `isEmail`;
      `password` is required and at least six characters; every token entry
      has a non-empty `access` and `token` (a required string may not be empty). */
  predicate Validates(u: User, isEmail: string -> bool) {
    && (u.name.Some? ==> Utf16Length(u.name.value) >= 1)
    && u.email.Some? && Utf16Length(u.email.value) >= 1 && isEmail(u.email.value)
    && u.password.Some? && Utf16Length(u.password.value) >= MinPasswordLength
    && forall i :: 0 <= i < |u.tokens| ==> u.tokens[i].access != "" && u.tokens[i].token != ""
  }

  /** Some other user already holds `email` (the unique index on `email`). */
  predicate EmailTaken(users: map<Id, User>, id: Id, email: string) {
    exists k :: k in users && k != id && users[k].email == Some(email)
  }

  /** Every user is stored under its own `_id`. */
  ghost predicate KeyedById(users: map<Id, User>) {
    forall k :: k in users ==> users[k].id == k
  }

  /** No two users share an email. */
  ghost predicate UniqueEmails(users: map<Id, User>) {
    forall a, b :: a in users && b in users && users[a].email.Some? && users[a].email == users[b].email ==> a == b
  }

  // ---------------------------------------------------------------------------
  // toJSON
  // ---------------------------------------------------------------------------

  function TokenObject(t: Token): Json {
    JObj(map["access" := JStr(t.access), "token" := JStr(t.token)])
  }

  function TokenArray(ts: seq<Token>): (r: seq<Json>)
    ensures |r| == |ts|
    ensures forall i :: 0 <= i < |ts| ==> r[i] == TokenObject(ts[i])
  {
    if ts == [] then [] else [TokenObject(ts[0])] + TokenArray(ts[1..])
  }

  function WithOptional(obj: Object, key: string, v: Option<string>): Object {
    if v.Some? then obj[key := JStr(v.value)] else obj
  }

  /** `user.toObject()`: every field of the document as a plain object. */
  function ToObject(u: User): (o: Object)
    ensures "password" in o <==> u.password.Some?
    ensures "tokens" in o
  {
    var base := map["_id" := JStr(u.id), "tokens" := JArr(TokenArray(u.tokens))];
    WithOptional(WithOptional(WithOptional(base, "name", u.name), "email", u.email), "password", u.password)
  }

  /** `toJSON`: the rendering of a user sent to clients. */
  function ToJson(u: User): (r: Object)
    ensures r.Keys <= {"_id", "email"}
    ensures "password" !in r && "tokens" !in r && "name" !in r
    ensures "_id" in r && r["_id"] == JStr(u.id)
    ensures "email" in r <==> u.email.Some?
    ensures u.email.Some? ==> r["email"] == JStr(u.email.value)
  {
    Pick(ToObject(u), {"_id", "email"})
  }

  /** Nothing but the id and the email reaches the rendering: two users that
      agree on those render the same, whatever their password and tokens. */
  lemma ToJsonHidesSecrets(u: User, v: User)
    requires u.id == v.id && u.email == v.email
    ensures ToJson(u) == ToJson(v)
  {
  }

  // ---------------------------------------------------------------------------
  // generateAuthToken and findByToken
  // ---------------------------------------------------------------------------

  /** The token `generateAuthToken` issues for the user with id `id`. */
  function IssuedToken(jwt: Jwt, id: Id): string {
    jwt.sign(Claims(id, AuthAccess), Secret)
  }

  /** Some entry of the user's list carries exactly this token string. */
  predicate HoldsToken(u: User, token: string) {
    exists i :: 0 <= i < |u.tokens| && u.tokens[i].token == token
  }

  /** Some entry of the user's list has access `auth`. */
  predicate HasAuthEntry(u: User) {
    exists j :: 0 <= j < |u.tokens| && u.tokens[j].access == AuthAccess
  }

  /** What `findByToken` settles to: rejected, resolved with null, or resolved with a user. */
  datatype TokenLookup = Rejected | NoMatch | Match(user: User)

  /** `findByToken`: verify the token, then look for the user whose `_id` is
      the decoded id, whose tokens include this token string, and which has
      an entry with access `auth`. The two array conditions are separate
      queries on `tokens`, not one query on a single entry. */
  function FindByToken(users: map<Id, User>, token: string, jwt: Jwt): (r: TokenLookup)
    requires KeyedById(users)
    ensures r.Rejected? <==> jwt.verify(token, Secret).None?
    ensures r.Match? ==>
      && r.user.id == jwt.verify(token, Secret).value.id
      && r.user.id in users && users[r.user.id] == r.user
      && HoldsToken(r.user, token) && HasAuthEntry(r.user)
    ensures r.NoMatch? ==> forall k :: k in users && users[k].id == jwt.verify(token, Secret).value.id ==>
      !(HoldsToken(users[k], token) && HasAuthEntry(users[k]))
  {
    match jwt.verify(token, Secret)
    case None => Rejected
    case Some(c) =>
      if c.id in users && HoldsToken(users[c.id], token) && HasAuthEntry(users[c.id])
      then Match(users[c.id])
      else NoMatch
  }

  /** A token issued for a user, and still in that user's list, finds that
      user and no other. */
  lemma IssuedTokenFindsOwner(users: map<Id, User>, id: Id, jwt: Jwt)
    requires jwt.RoundTrips() && KeyedById(users)
    requires id in users && Token(AuthAccess, IssuedToken(jwt, id)) in users[id].tokens
    ensures FindByToken(users, IssuedToken(jwt, id), jwt) == Match(users[id])
  {
  }

  /** A token is accepted when its own entry has some other access, as long as
      another entry of the same user has access `auth`. */
  lemma AccessMatchedSeparately(users: map<Id, User>, id: Id, access: string, token: string, jwt: Jwt)
    requires KeyedById(users) && id in users
    requires jwt.verify(token, Secret) == Some(Claims(id, access))
    requires exists i :: (0 <= i < |users[id].tokens| && users[id].tokens[i].token == token
      && users[id].tokens[i].access != AuthAccess)
    requires exists j :: 0 <= j < |users[id].tokens| && users[id].tokens[j].access == AuthAccess
    ensures FindByToken(users, token, jwt) == Match(users[id])
  {
  }

  // ---------------------------------------------------------------------------
  // findByCredentials
  // ---------------------------------------------------------------------------

  /** `findOne({email})`: the first user in the collection's order holding `email`. */
  function FirstWithEmail(users: map<Id, User>, order: seq<Id>, email: string): (r: Option<Id>)
    requires forall i :: 0 <= i < |order| ==> order[i] in users
    ensures r.Some? ==> r.value in order && users[r.value].email == Some(email)
    ensures r.None? ==> forall i :: 0 <= i < |order| ==> users[order[i]].email != Some(email)
  {
    if order == [] then None
    else if users[order[0]].email == Some(email) then Some(order[0])
    else FirstWithEmail(users, order[1..], email)
  }

  /** What `findByCredentials` settles to. Both failures are the same bare
      rejection to the caller. */
  datatype Login = NoSuchEmail | WrongPassword | LoggedIn(user: User)

  /** `findByCredentials`: the user holding `email`, when `compare` accepts
      `password` against that user's stored hash. */
  function FindByCredentials(users: map<Id, User>, order: seq<Id>, email: string, password: string, bcrypt: Bcrypt)
    : (r: Login)
    requires forall i :: 0 <= i < |order| ==> order[i] in users
    ensures r.NoSuchEmail? <==> forall i :: 0 <= i < |order| ==> users[order[i]].email != Some(email)
    ensures r.LoggedIn? ==>
      && r.user in users.Values && r.user.email == Some(email)
      && r.user.password.Some? && bcrypt.compare(password, r.user.password.value)
    ensures r.WrongPassword? ==> exists k :: (k in users && users[k].email == Some(email)
      && !(users[k].password.Some? && bcrypt.compare(password, users[k].password.value)))
  {
    match FirstWithEmail(users, order, email)
    case None => NoSuchEmail
    case Some(k) =>
      var doc := users[k];
      if doc.password.Some? && bcrypt.compare(password, doc.password.value) then LoggedIn(doc) else WrongPassword
  }

  /** With unique emails, the user holding `email` is the one found, and the
      login succeeds exactly when `compare` accepts the password. */
  lemma CredentialsDecideLogin(
    users: map<Id, User>, order: seq<Id>, id: Id, password: string, bcrypt: Bcrypt)
    requires forall k :: k in users <==> k in order
    requires UniqueEmails(users)
    requires id in users && users[id].email.Some?
    ensures var u := users[id];
      FindByCredentials(users, order, u.email.value, password, bcrypt) ==
        if u.password.Some? && bcrypt.compare(password, u.password.value) then LoggedIn(u) else WrongPassword
  {
  }

  // ---------------------------------------------------------------------------
  // The pre('save') hook
  // ---------------------------------------------------------------------------

  /** The password a save leaves: the hash of the plaintext when the
      password was modified, the stored value otherwise. */
  function PasswordAfterSave(password: Option<string>, modified: bool, bcrypt: Bcrypt, salt: string)
    : (r: Option<string>)
    ensures !modified ==> r == password
    ensures r.None? <==> password.None?
  {
    if modified && password.Some? then Some(bcrypt.hash(password.value, salt)) else password
  }

  /** A password hashed on save still logs the user in; one left alone is
      never hashed twice. */
  lemma SavedPasswordStillMatches(plain: string, salt: string, bcrypt: Bcrypt)
    requires bcrypt.Verifies()
    ensures var stored := PasswordAfterSave(Some(plain), true, bcrypt, salt);
      stored.Some? && bcrypt.compare(plain, stored.value)
    ensures var stored := PasswordAfterSave(Some(plain), true, bcrypt, salt);
      PasswordAfterSave(stored, false, bcrypt, salt) == stored
  {
  }

  /** How `save()` settles. */
  datatype SaveOutcome = Saved | Invalid | DuplicateId | NotFound | DuplicateEmail

  /** A user document in memory, with the `isModified('password')` flag that
      decides whether the pre-save hook rehashes, and the `isNew` flag that
      decides whether `save()` inserts or updates. */
  class UserDoc {
    const id: Id
    var name: Option<string>
    var email: Option<string>
    var password: Option<string>
    var tokens: seq<Token>
    var passwordModified: bool
    var isNew: bool

    /** `new User({...})`: a fresh document, not yet inserted, whose
        password, when given, is not hashed yet. */
    constructor (id: Id, name: Option<string>, email: Option<string>, password: Option<string>)
      ensures this.id == id && this.name == name && this.email == email && this.password == password
      ensures tokens == [] && passwordModified == password.Some? && isNew
    {
      this.id := id;
      this.name := name;
      this.email := email;
      this.password := password;
      this.tokens := [];
      this.passwordModified := password.Some?;
      this.isNew := true;
    }

    /** The document as the database would store it. */
    function Snapshot(): User
      reads this
    {
      User(id, name, email, password, tokens)
    }

    /** The pre('save') hook. */
    method PreSave(bcrypt: Bcrypt, salt: string)
      modifies this`password
      ensures password == PasswordAfterSave(old(password), passwordModified, bcrypt, salt)
    {
      if passwordModified && password.Some? {
        password := Some(bcrypt.hash(password.value, salt));
      }
    }

    /** `generateAuthToken`: append `{access: 'auth', token}` to the token
        list, save, and settle with that token. */
    method GenerateAuthToken(store: UserStore, jwt: Jwt, bcrypt: Bcrypt, salt: string, isEmail: string -> bool)
      returns (r: Result<string, SaveOutcome>)
      requires store.Valid()
      modifies this, store
      ensures store.Valid()
      ensures name == old(name) && email == old(email)
      ensures !old(passwordModified) ==> password == old(password) && !passwordModified
      ensures tokens == old(tokens) + [Token(AuthAccess, IssuedToken(jwt, id))]
      // the save that follows the append decides the outcome
      ensures r.Ok? <==>
        && Validates(User(id, old(name), old(email), old(password), tokens), isEmail)
        && (old(isNew) <==> id !in old(store.users))
        && !EmailTaken(old(store.users), id, old(email).value)
      ensures r.Err? ==> r.error != Saved
      ensures r == Err(Invalid) <==> !Validates(User(id, old(name), old(email), old(password), tokens), isEmail)
      ensures r == Err(Invalid) ==> password == old(password)
      ensures r != Err(Invalid) ==> password == PasswordAfterSave(old(password), old(passwordModified), bcrypt, salt)
      ensures r.Ok? ==>
        && r.value == IssuedToken(jwt, id)
        && store.users == old(store.users)[id := Snapshot()]
        && store.order == (if old(isNew) then old(store.order) + [id] else old(store.order))
        && !passwordModified && !isNew
      ensures r.Err? ==>
        && store.users == old(store.users) && store.order == old(store.order)
        && passwordModified == old(passwordModified) && isNew == old(isNew)
      ensures r.Ok? && jwt.RoundTrips() ==> FindByToken(store.users, r.value, jwt) == Match(Snapshot())
    {
      var token := IssuedToken(jwt, id);
      tokens := tokens + [Token(AuthAccess, token)];
      var outcome := store.Save(this, bcrypt, salt, isEmail);
      if outcome == Saved {
        r := Ok(token);
        assert Snapshot().tokens[|tokens| - 1] == Token(AuthAccess, token);
        if jwt.RoundTrips() {
          IssuedTokenFindsOwner(store.users, id, jwt);
        }
      } else {
        r := Err(outcome);
      }
    }
  }

  /** The user collection: documents by id and their natural order. */
  class UserStore {
    var users: map<Id, User>
    var order: seq<Id>

    ghost predicate Valid()
      reads this
    {
      && Distinct(order)
      && (forall k :: k in users <==> k in order)
      && KeyedById(users)
      && UniqueEmails(users)
    }

    constructor ()
      ensures Valid() && users == map[] && order == []
    {
      users := map[];
      order := [];
    }

    /** `save()`: validate, run the pre('save') hook, then insert a new
        document or update a stored one. The insert is refused when the id is
        already stored, the update when it is not, and either when another
        user already holds the email (the unique indexes). */
    method Save(doc: UserDoc, bcrypt: Bcrypt, salt: string, isEmail: string -> bool) returns (outcome: SaveOutcome)
      requires Valid()
      modifies this, doc
      ensures Valid()
      ensures doc.name == old(doc.name) && doc.email == old(doc.email) && doc.tokens == old(doc.tokens)
      ensures outcome == Invalid <==> !Validates(old(doc.Snapshot()), isEmail)
      ensures outcome == Invalid ==> doc.password == old(doc.password)
      ensures outcome != Invalid ==>
        doc.password == PasswordAfterSave(old(doc.password), old(doc.passwordModified), bcrypt, salt)
      ensures outcome == DuplicateId <==>
        Validates(old(doc.Snapshot()), isEmail) && old(doc.isNew) && doc.id in old(users)
      ensures outcome == NotFound <==>
        Validates(old(doc.Snapshot()), isEmail) && !old(doc.isNew) && doc.id !in old(users)
      ensures outcome == DuplicateEmail <==>
        && Validates(old(doc.Snapshot()), isEmail)
        && (old(doc.isNew) <==> doc.id !in old(users))
        && EmailTaken(old(users), doc.id, old(doc.email).value)
      ensures outcome == Saved ==>
        && users == old(users)[doc.id := doc.Snapshot()]
        && order == (if old(doc.isNew) then old(order) + [doc.id] else old(order))
        && !doc.passwordModified && !doc.isNew
      ensures outcome != Saved ==>
        && users == old(users) && order == old(order)
        && doc.passwordModified == old(doc.passwordModified) && doc.isNew == old(doc.isNew)
    {
      if !Validates(doc.Snapshot(), isEmail) {
        return Invalid;
      }
      doc.PreSave(bcrypt, salt);
      if doc.isNew && doc.id in users {
        return DuplicateId;
      }
      if !doc.isNew && doc.id !in users {
        return NotFound;
      }
      var email := doc.email.value;
      if EmailTaken(users, doc.id, email) {
        return DuplicateEmail;
      }
      if doc.isNew {
        order := order + [doc.id];
      }
      users := users[doc.id := doc.Snapshot()];
      doc.passwordModified := false;
      doc.isNew := false;
      outcome := Saved;
    }
  }

  /** A user stored with the hash of `plain` logs in with `plain`. */
  lemma LoginAfterRegistration(
    users: map<Id, User>, order: seq<Id>, id: Id, email: string, plain: string, salt: string, bcrypt: Bcrypt)
    requires forall k :: k in users <==> k in order
    requires UniqueEmails(users) && bcrypt.Verifies()
    requires id in users && users[id].email == Some(email)
    requires users[id].password == Some(bcrypt.hash(plain, salt))
    ensures FindByCredentials(users, order, email, plain, bcrypt) == LoggedIn(users[id])
  {
  }

  /** The rendering of a user holding an email is exactly `{_id, email}`. */
  lemma RenderedUser(u: User, email: string)
    requires u.email == Some(email)
    ensures ToJson(u) == map["_id" := JStr(u.id), "email" := JStr(email)]
  {
  }

  /** Registration followed by login: a user saved with a fresh password and
      given a token is found by that token and by its email and password,
      and renders without password or tokens. */
  method RegisterThenLogin(
    store: UserStore, id: Id, email: string, plain: string,
    jwt: Jwt, bcrypt: Bcrypt, salt: string, isEmail: string -> bool)
    returns (token: Result<string, SaveOutcome>, rendered: Option<Object>)
    requires store.Valid() && id !in store.users
    requires jwt.RoundTrips() && bcrypt.Verifies()
    modifies store
    ensures store.Valid()
    ensures token != Err(DuplicateId) && token != Err(NotFound)
    // registration succeeds exactly when both saves validate and the email is free
    ensures token.Ok? <==>
      && Validates(User(id, None, Some(email), Some(plain), []), isEmail)
      && !EmailTaken(old(store.users), id, email)
      && Validates(User(id, None, Some(email), Some(bcrypt.hash(plain, salt)),
                        [Token(AuthAccess, IssuedToken(jwt, id))]), isEmail)
    ensures token.Ok? ==> id in store.users && store.users[id].email == Some(email)
    ensures token.Ok? ==> FindByToken(store.users, token.value, jwt) == Match(store.users[id])
    ensures token.Ok? ==> FindByCredentials(store.users, store.order, email, plain, bcrypt) == LoggedIn(store.users[id])
    ensures token.Ok? ==> rendered == Some(map["_id" := JStr(id), "email" := JStr(email)])
  {
    var doc := new UserDoc(id, None, Some(email), Some(plain));
    var outcome := store.Save(doc, bcrypt, salt, isEmail);
    if outcome != Saved {
      return Err(outcome), None;
    }
    assert doc.password == Some(bcrypt.hash(plain, salt));
    token := doc.GenerateAuthToken(store, jwt, bcrypt, salt, isEmail);
    rendered := None;
    if token.Ok? {
      assert store.users[id] == doc.Snapshot();
      LoginAfterRegistration(store.users, store.order, id, email, plain, salt, bcrypt);
      RenderedUser(store.users[id], email);
      rendered := Some(ToJson(store.users[id]));
    }
  }
}

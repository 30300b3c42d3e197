/**
 * The account handlers: `registerUser`, `loginUser`, `getCurrentUser` and `logoutUser`.
 * `generateToken` is the parameter `issue`, bcrypt is the `Crypto` pair.
 */
module AuthController {
  import opened Wrappers
  import opened Strings
  import opened Http
  import opened Validation
  import opened UserModel
  import AuthMiddleware

  /** One week in milliseconds: 7 * 24 * 60 * 60 * 1000. */
  const TokenMaxAge: nat := 604800000

  /** The session cookie set on register and login. */
  function TokenCookie(token: string): Cookie {
    SetCookie("token", token, true, "strict", TokenMaxAge)
  }

  /** The `{ _id, name, email }` reply body of a stored user; the password is never part of it. */
  function PublicView(id: Id, u: User): PublicUser {
    PublicUser(id, u.name, u.email)
  }

  /** `{ name, email, password }` of a registration request; "" stands for a missing field. */
  datatype Registration = Registration(name: string, email: string, password: string)

  /** `{ email, password }` of a login request. */
  datatype Credentials = Credentials(email: string, password: string)

  const UserExists: Reply<PublicUser> := Reply(400, Message("User already exists"))
  const InvalidCredentials: Reply<PublicUser> := Reply(401, Message("Invalid email or password"))

  /**
   * Look the email up, refuse a taken one, otherwise create the user (validation, then the
   * hashing hook) and answer 201 with the public view and the session cookie. A validation
   * error is caught and answered 500.
   */
  method RegisterUser(store: UserStore, body: Registration, crypto: Crypto, issue: Id -> string)
    returns (r: Reply<PublicUser>, cookie: Cookie)
    requires store.Valid()
    modifies store
    ensures store.Valid()
    ensures
      var candidate := NewUser(body.name, body.email, body.password);
      && (EmailTaken(old(store.users), Lowercase(body.email)) ==>
            r == UserExists && cookie == NoCookie
            && store.users == old(store.users) && store.nextId == old(store.nextId))
      && (!EmailTaken(old(store.users), Lowercase(body.email)) && UserErrors(candidate) != [] ==>
            r == Reply(500, ServerFailure("Server error", ValidationMessage("User", UserErrors(candidate))))
            && cookie == NoCookie
            && store.users == old(store.users) && store.nextId == old(store.nextId))
      && (!EmailTaken(old(store.users), Lowercase(body.email)) && UserErrors(candidate) == [] ==>
            var id := old(store.nextId);
            r == Reply(201, Data(PublicUser(id, body.name, Lowercase(body.email))))
            && cookie == TokenCookie(issue(id))
            && id !in old(store.users)
            && store.users == old(store.users)[id := candidate.(password := crypto.hash(body.password))]
            && store.nextId == old(store.nextId) + 1)
  {
    var existing := store.FindOne(body.email);
    if existing.Some? {
      return UserExists, NoCookie;
    }
    var doc := new UserDocument.Create(body.name, body.email, body.password);
    var saved := store.Save(doc, None, crypto.hash);
    if saved.Failure? {
      return Reply(500, ServerFailure("Server error", saved.error)), NoCookie;
    }
    cookie := TokenCookie(issue(saved.value));
    r := Reply(201, Data(PublicUser(saved.value, doc.name, doc.email)));
  }

  /** Some stored user has this email (after the query's lowercasing) and bcrypt accepts the password. */
  ghost predicate LoginAccepted(users: map<Id, User>, body: Credentials, compare: (string, string) -> bool) {
    exists id :: id in users && users[id].email == Lowercase(body.email) && compare(body.password, users[id].password)
  }

  /**
   * 200 with the public view and the session cookie exactly when the email is known and the
   * password matches; an unknown email and a wrong password get the same 401.
   */
  method LoginUser(store: UserStore, body: Credentials, crypto: Crypto, issue: Id -> string)
    returns (r: Reply<PublicUser>, cookie: Cookie)
    requires store.Valid()
    ensures r.status == 200 <==> LoginAccepted(store.users, body, crypto.compare)
    ensures r.status == 200 ==>
      exists id :: id in store.users && store.users[id].email == Lowercase(body.email)
        && r == Reply(200, Data(PublicView(id, store.users[id]))) && cookie == TokenCookie(issue(id))
    ensures r.status != 200 ==> r == InvalidCredentials && cookie == NoCookie
  {
    var found := store.FindOne(body.email);
    if found.Some? && crypto.compare(body.password, store.users[found.value].password) {
      var id := found.value;
      return Reply(200, Data(PublicView(id, store.users[id]))), TokenCookie(issue(id));
    }
    // The email index is unique, so the user found is the only candidate.
    forall id | id in store.users && store.users[id].email == Lowercase(body.email)
      ensures !crypto.compare(body.password, store.users[id].password)
    {
      assert found.Some? && found.value == id;
    }
    r, cookie := InvalidCredentials, NoCookie;
  }

  /** `GET /me` behind `protect`: 401 when `req.user` is null, else its public view. */
  function GetCurrentUser(reqUser: Option<SessionUser>): (r: Reply<PublicUser>)
    ensures r.status == 401 <==> reqUser.None?
    ensures r.status != 401 ==>
      r.status == 200 && r.payload == Data(PublicUser(reqUser.value.id, reqUser.value.name, reqUser.value.email))
  {
    if reqUser.None? then Reply(401, Message("Not authorized"))
    else Reply(200, Data(PublicUser(reqUser.value.id, reqUser.value.name, reqUser.value.email)))
  }

  /** Logging out always answers 200 and clears the session cookie with the options it was set with. */
  method LogoutUser() returns (r: Reply<()>, cookie: Cookie)
    ensures r == Reply(200, Message("Logged out successfully"))
    ensures cookie.ClearCookie? && cookie.name == TokenCookie("").name
    ensures cookie.httpOnly == TokenCookie("").httpOnly && cookie.sameSite == TokenCookie("").sameSite
  {
    cookie := ClearCookie("token", true, "strict");
    r := Reply(200, Message("Logged out successfully"));
  }

  /**
   * The session `protect` attaches for a stored user answers `/me` with the same view login and
   * register return; a session whose user was deleted gets 401 here.
   */
  lemma CurrentUserIsPublicView(users: map<Id, User>, id: Id)
    ensures id in users ==> GetCurrentUser(AuthMiddleware.Lookup(users, id)) == Reply(200, Data(PublicView(id, users[id])))
    ensures id !in users ==> GetCurrentUser(AuthMiddleware.Lookup(users, id)) == Reply(401, Message("Not authorized"))
  {
  }

  /**
   * A freshly registered user can log in with the password they registered with, provided
   * bcrypt accepts a password against its own hash.
   */
  lemma {:induction false} RegisteredUserCanLogIn(users: map<Id, User>, id: Id, body: Registration, crypto: Crypto)
    requires crypto.compare(body.password, crypto.hash(body.password))
    ensures
      var stored := NewUser(body.name, body.email, body.password).(password := crypto.hash(body.password));
      LoginAccepted(users[id := stored], Credentials(body.email, body.password), crypto.compare)
  {
    var stored := NewUser(body.name, body.email, body.password).(password := crypto.hash(body.password));
    var after := users[id := stored];
    assert id in after && after[id].email == Lowercase(body.email);
  }
}

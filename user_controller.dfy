/**
 * `updateUserProfile`: load the caller's record, overwrite name and email with the truthy body
 * fields, change the password only after checking the current one, then `save()` (validation,
 * the hashing hook, the unique email index).
 */
module UserController {
  import opened Wrappers
  import opened Strings
  import opened Http
  import opened Validation
  import opened UserModel

  /** The request body; "" stands for a missing (falsy) field. */
  datatype ProfileBody = ProfileBody(name: string, email: string, currentPassword: string, newPassword: string)

  const UserNotFound: Reply<PublicUser> := Reply(404, Message("User not found"))
  const CurrentPasswordRequired: Reply<PublicUser> := Reply(400, Message("Current password required"))
  const CurrentPasswordIncorrect: Reply<PublicUser> := Reply(401, Message("Current password is incorrect"))

  /** The record as the handler leaves it in memory before `save()`: truthy fields replace stored ones. */
  function ProfileEdit(u: User, body: ProfileBody): (e: User)
    requires IsLower(u.email)
    ensures e.name == (if body.name != "" then body.name else u.name)
    ensures e.email == (if body.email != "" then Lowercase(body.email) else u.email)
    ensures e.password == (if body.newPassword != "" then body.newPassword else u.password)
    ensures e.role == u.role && e.dietary == u.dietary && e.householdId == u.householdId
    ensures IsLower(e.email)
  {
    LowercaseOfLower(u.email);
    User(if body.name != "" then body.name else u.name,
         Lowercase(if body.email != "" then body.email else u.email),
         if body.newPassword != "" then body.newPassword else u.password,
         u.role, u.dietary, u.householdId)
  }

  /** The password guard: a new password needs the current one, and bcrypt must accept it. */
  function PasswordGuard(u: User, body: ProfileBody, compare: (string, string) -> bool): (r: Option<Reply<PublicUser>>)
    ensures body.newPassword == "" ==> r.None?
    ensures r.None? <==> body.newPassword == "" || (body.currentPassword != "" && compare(body.currentPassword, u.password))
    ensures body.newPassword != "" && body.currentPassword == "" ==> r == Some(CurrentPasswordRequired)
    ensures body.newPassword != "" && body.currentPassword != "" && !compare(body.currentPassword, u.password) ==>
      r == Some(CurrentPasswordIncorrect)
  {
    if body.newPassword == "" then None
    else if body.currentPassword == "" then Some(CurrentPasswordRequired)
    else if !compare(body.currentPassword, u.password) then Some(CurrentPasswordIncorrect)
    else None
  }

  /** The record `save()` writes: a password that changed is stored hashed, an unchanged one as is. */
  function StoredProfile(u: User, body: ProfileBody, hash: string -> string): (s: User)
    requires IsLower(u.email)
    ensures body.newPassword == "" ==> s.password == u.password
    ensures body.newPassword != "" && body.newPassword != u.password ==> s.password == hash(body.newPassword)
    ensures s == ProfileEdit(u, body).(password := s.password)
  {
    var e := ProfileEdit(u, body);
    e.(password := if e.password != u.password then hash(e.password) else u.password)
  }

  /** Rewriting a record with an email no other record holds keeps emails unique. */
  lemma RewriteKeepsEmailsUnique(users: map<Id, User>, id: Id, x: User)
    requires EmailsUnique(users) && !EmailClash(users, id, x.email)
    ensures EmailsUnique(users[id := x])
  {
    var after := users[id := x];
    forall a, b | a in after && b in after && after[a].email == after[b].email ensures a == b {
      if a == id || b == id {
        assert !EmailClash(users, id, x.email);
      }
    }
  }

  /**
   * What `updateUserProfile` answers and the users collection it leaves: the null-user TypeError,
   * 404, the password guard, then `save()` with its validation and unique-index failures.
   */
  function ProfileUpdate(users: map<Id, User>, reqUser: Option<SessionUser>, body: ProfileBody, crypto: Crypto)
    : (out: (Reply<PublicUser>, map<Id, User>))
    requires forall id :: id in users ==> IsLower(users[id].email)
    ensures reqUser.None? ==> out == (Reply(500, Message(NullUserMessage)), users)
    ensures reqUser.Some? && reqUser.value.id !in users ==> out == (UserNotFound, users)
    ensures reqUser.Some? && reqUser.value.id in users ==>
      var u := users[reqUser.value.id];
      var guard := PasswordGuard(u, body, crypto.compare);
      var e := ProfileEdit(u, body);
      && (guard.Some? ==> out.0 == guard.value)
      && (guard.None? && UserErrors(e) != [] ==> out.0 == Reply(500, Message(ValidationMessage("User", UserErrors(e)))))
      && (guard.None? && UserErrors(e) == [] && EmailClash(users, reqUser.value.id, e.email) ==>
            out.0 == Reply(500, Message(DuplicateKeyMessage(e.email))))
    // A request that is not answered 200 writes nothing, not even the name and email edits.
    ensures out.0.status != 200 ==> out.1 == users
    ensures out.0.status == 200 ==>
      && reqUser.Some? && reqUser.value.id in users
      && var id := reqUser.value.id;
      && var e := ProfileEdit(users[id], body);
      && PasswordGuard(users[id], body, crypto.compare).None?
      && UserErrors(e) == [] && !EmailClash(users, id, e.email)
      && out.0.payload == Data(PublicUser(id, e.name, e.email))
      && out.1 == users[id := StoredProfile(users[id], body, crypto.hash)]
    // A password changes only when bcrypt accepted the current one.
    ensures out.0.status == 200 && body.newPassword != "" ==>
      body.currentPassword != "" && crypto.compare(body.currentPassword, users[reqUser.value.id].password)
    // The unique email index and the lowercase setter keep holding.
    ensures EmailsUnique(users) ==> EmailsUnique(out.1)
    ensures forall id :: id in out.1 ==> IsLower(out.1[id].email)
  {
    if reqUser.None? then (Reply(500, Message(NullUserMessage)), users)
    else if reqUser.value.id !in users then (UserNotFound, users)
    else
      var id := reqUser.value.id;
      var u := users[id];
      var e := ProfileEdit(u, body);
      var guard := PasswordGuard(u, body, crypto.compare);
      if guard.Some? then (guard.value, users)
      else if UserErrors(e) != [] then (Reply(500, Message(ValidationMessage("User", UserErrors(e)))), users)
      else if EmailClash(users, id, e.email) then (Reply(500, Message(DuplicateKeyMessage(e.email))), users)
      else
        var after := users[id := StoredProfile(u, body, crypto.hash)];
        assert EmailsUnique(users) ==> EmailsUnique(after) by {
          if EmailsUnique(users) {
            RewriteKeepsEmailsUnique(users, id, after[id]);
          }
        }
        assert forall k :: k in after ==> IsLower(after[k].email) by {
          assert IsLower(after[id].email);
        }
        (Reply(200, Data(PublicUser(id, e.name, e.email))), after)
  }

  /**
   * The in-memory edits of `updateUserProfile`: the truthy name and email, then, for a new
   * password, the current-password check and the assignment. A refusal leaves nothing to save.
   */
  method EditProfile(doc: UserDocument, body: ProfileBody, compare: (string, string) -> bool)
    returns (refusal: Option<Reply<PublicUser>>)
    requires IsLower(doc.email) && !doc.passwordModified
    modifies doc
    ensures refusal == PasswordGuard(old(doc.Value()), body, compare)
    ensures refusal.None? ==>
      doc.Value() == ProfileEdit(old(doc.Value()), body)
      && doc.passwordModified == (doc.password != old(doc.password))
  {
    ghost var u := doc.Value();
    doc.name := if body.name != "" then body.name else doc.name;
    doc.SetEmail(if body.email != "" then body.email else doc.email);
    if body.newPassword != "" {
      if body.currentPassword == "" {
        return Some(CurrentPasswordRequired);
      }
      var isMatch := doc.MatchPassword(body.currentPassword, compare);
      if !isMatch {
        return Some(CurrentPasswordIncorrect);
      }
      doc.SetPassword(body.newPassword);
    }
    assert doc.Value() == ProfileEdit(u, body);
    refusal := None;
  }

  method UpdateUserProfile(store: UserStore, reqUser: Option<SessionUser>, body: ProfileBody, crypto: Crypto)
    returns (r: Reply<PublicUser>)
    requires store.Valid()
    modifies store
    ensures store.Valid() && store.nextId == old(store.nextId)
    ensures (r, store.users) == ProfileUpdate(old(store.users), reqUser, body, crypto)
  {
    if reqUser.None? {
      return Reply(500, Message(NullUserMessage));
    }
    var id := reqUser.value.id;
    if id !in store.users {
      return UserNotFound;
    }
    var u := store.users[id];
    var doc := new UserDocument.Load(u);
    var refusal := EditProfile(doc, body, crypto.compare);
    if refusal.Some? {
      return refusal.value;
    }
    var saved := store.Save(doc, Some(id), crypto.hash);
    if saved.Failure? {
      return Reply(500, Message(saved.error));
    }
    r := Reply(200, Data(PublicUser(id, doc.name, doc.email)));
  }
}

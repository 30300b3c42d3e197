/**
 * The User model: the schema's required/enum/default/lowercase/minlength rules, the document
 * whose `pre("save")` hook hashes a modified password, `matchPassword`, and the users
 * collection with its unique email index.
 */
module UserModel {
  import opened Wrappers
  import opened Strings
  import opened Http
  import opened Validation

  const Roles: seq<string> := ["user", "admin"]
  const DietaryOptions: seq<string> := ["none", "vegetarian", "vegan", "halal", "kosher"]
  const PasswordMinLength: nat := 6

  datatype User = User(
    name: string,
    email: string,
    password: string,
    role: string,
    dietary: string,
    householdId: Option<Id>)

  /** `bcrypt.hash(p, 10)` and `bcrypt.compare(p, hash)`, supplied from outside the model. */
  datatype Crypto = Crypto(hash: string -> string, compare: (string, string) -> bool)

  /** A user as `findById(id).select("-password")` yields it. */
  datatype SessionUser = SessionUser(
    id: Id,
    name: string,
    email: string,
    role: string,
    dietary: string,
    householdId: Option<Id>)

  /** The `{ _id, name, email }` view the account handlers send back. */
  datatype PublicUser = PublicUser(id: Id, name: string, email: string)

  function WithoutPassword(id: Id, u: User): SessionUser {
    SessionUser(id, u.name, u.email, u.role, u.dietary, u.householdId)
  }

  /** The failing paths of a user document in schema order, at most one error per path. */
  function UserErrors(u: User): (r: seq<FieldError>)
    ensures r == [] <==>
      && u.name != "" && u.email != "" && |u.password| >= PasswordMinLength
      && u.role in Roles && u.dietary in DietaryOptions
    ensures 0 < |u.password| < PasswordMinLength ==> TooShort("password", u.password, PasswordMinLength) in r
    ensures u.name == "" ==> Required("name", "Please enter your name") in r
    ensures u.email == "" ==> Required("email", "Please enter your email") in r
    ensures u.password == "" ==> Required("password", "Please enter a password") in r
  {
    RequireString("name", "Please enter your name", Some(u.name))
    + RequireString("email", "Please enter your email", Some(u.email))
    + (if u.password == "" then [Required("password", "Please enter a password")]
       else if |u.password| < PasswordMinLength then [TooShort("password", u.password, PasswordMinLength)]
       else [])
    + CheckEnum("role", Roles, Some(u.role))
    + CheckEnum("preferences.dietary", DietaryOptions, Some(u.dietary))
  }

  /** The document `User.create({ name, email, password })` builds before its hooks run. */
  function NewUser(name: string, email: string, password: string): (u: User)
    ensures IsLower(u.email) && u.role == "user" && u.dietary == "none" && u.householdId == None
    ensures u.name == name && u.password == password && u.email == Lowercase(email)
  {
    User(name, Lowercase(email), password, "user", "none", None)
  }

  /** Some other stored user already holds `email` (the unique index on `email`). */
  predicate EmailClash(users: map<Id, User>, self: Id, email: string) {
    exists other :: other in users && other != self && users[other].email == email
  }

  predicate EmailTaken(users: map<Id, User>, email: string) {
    exists id :: id in users && users[id].email == email
  }

  predicate EmailsUnique(users: map<Id, User>) {
    forall a, b :: a in users && b in users && users[a].email == users[b].email ==> a == b
  }

  const DuplicateKeyPrefix: string := "E11000 duplicate key error collection: users index: email_1 dup key: { email: \""
  const DuplicateKeySuffix: string := "\" }"

  function DuplicateKeyMessage(email: string): string {
    DuplicateKeyPrefix + email + DuplicateKeySuffix
  }

  /** A mongoose User document held in memory between loading and `save()`. */
  class UserDocument {
    var name: string
    var email: string
    var password: string
    var role: string
    var dietary: string
    var householdId: Option<Id>
    /** `isModified("password")`. */
    var passwordModified: bool

    function Value(): User
      reads this
    {
      User(name, email, password, role, dietary, householdId)
    }

    /** A new document: defaults filled in, email lowercased, every path counts as modified. */
    constructor Create(name: string, email: string, password: string)
      ensures Value() == NewUser(name, email, password) && passwordModified
    {
      this.name := name;
      this.email := Lowercase(email);
      this.password := password;
      this.role := "user";
      this.dietary := "none";
      this.householdId := None;
      this.passwordModified := true;
    }

    /** A document read from the collection: nothing modified yet. */
    constructor Load(u: User)
      ensures Value() == u && !passwordModified
    {
      name, email, password := u.name, u.email, u.password;
      role, dietary, householdId := u.role, u.dietary, u.householdId;
      passwordModified := false;
    }

    /** `doc.email = e`: the schema's `lowercase` setter runs on every assignment. */
    method SetEmail(e: string)
      modifies this`email
      ensures email == Lowercase(e)
    {
      email := Lowercase(e);
    }

    /** `doc.password = p`: the path becomes modified only when the value changes. */
    method SetPassword(p: string)
      modifies this`password, this`passwordModified
      ensures password == p
      ensures passwordModified == (old(passwordModified) || p != old(password))
    {
      passwordModified := passwordModified || p != password;
      password := p;
    }

    /** The `pre("save")` hook: rehash only a modified password, so a stored hash is never hashed twice. */
    method PreSave(hash: string -> string)
      modifies this`password
      ensures passwordModified ==> password == hash(old(password))
      ensures !passwordModified ==> password == old(password)
    {
      if !passwordModified {
        return;
      }
      password := hash(password);
    }

    /** `matchPassword(entered)`: bcrypt's verdict on the entered password against the stored one. */
    function MatchPassword(entered: string, compare: (string, string) -> bool): (r: bool)
      reads this
      ensures r <==> compare(entered, Value().password)
    {
      compare(entered, password)
    }
  }

  /** The users collection. */
  class UserStore {
    var users: map<Id, User>
    /** The next fresh ObjectId. */
    var nextId: Id

    /** Ids are fresh, emails are unique (the index) and lowercase (the setter). */
    ghost predicate Valid()
      reads this
    {
      && (forall id :: id in users ==> id < nextId)
      && EmailsUnique(users)
      && (forall id :: id in users ==> IsLower(users[id].email))
    }

    constructor ()
      ensures Valid() && users == map[]
    {
      users := map[];
      nextId := 0;
    }

    /** `User.findOne({ email })`; the query runs the same lowercase setter on `email`. */
    method FindOne(email: string) returns (found: Option<Id>)
      ensures found.None? <==> !EmailTaken(users, Lowercase(email))
      ensures found.Some? ==> found.value in users && users[found.value].email == Lowercase(email)
    {
      var e := Lowercase(email);
      if id :| id in users && users[id].email == e {
        found := Some(id);
      } else {
        found := None;
      }
    }

    /**
     * `doc.save()` as a new document (`at == None`) or over the record `at`: validation on the
     * values as assigned, then the pre-save hook, then the unique email index, then the write.
     */
    method Save(doc: UserDocument, at: Option<Id>, hash: string -> string) returns (r: Result<Id, string>)
      requires Valid()
      requires at.Some? ==> at.value in users
      requires IsLower(doc.email)
      modifies this, doc`password
      ensures Valid()
      ensures
        var candidate := old(doc.Value());
        var target := if at.Some? then at.value else old(nextId);
        var stored := candidate.(password := if doc.passwordModified then hash(candidate.password) else candidate.password);
        && (UserErrors(candidate) != [] ==>
              r == Failure(ValidationMessage("User", UserErrors(candidate)))
              && users == old(users) && nextId == old(nextId))
        && (UserErrors(candidate) == [] && EmailClash(old(users), target, candidate.email) ==>
              r == Failure(DuplicateKeyMessage(candidate.email))
              && users == old(users) && nextId == old(nextId))
        && (UserErrors(candidate) == [] && !EmailClash(old(users), target, candidate.email) ==>
              r == Success(target)
              && users == old(users)[target := stored]
              && nextId == (if at.Some? then old(nextId) else old(nextId) + 1))
    {
      var errors := UserErrors(doc.Value());
      if errors != [] {
        return Failure(ValidationMessage("User", errors));
      }
      doc.PreSave(hash);
      var target := if at.Some? then at.value else nextId;
      if EmailClash(users, target, doc.email) {
        return Failure(DuplicateKeyMessage(doc.email));
      }
      users := users[target := doc.Value()];
      if at.None? {
        nextId := nextId + 1;
      }
      r := Success(target);
    }
  }
}

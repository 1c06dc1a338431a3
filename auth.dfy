/** Registration, login and profile lookup over the user store. Password
    hashing, password comparison and token signing are supplied by the caller
    as functions: they stand for the bcrypt and JWT libraries. */
module Auth {
  import opened Wrappers

  type UserId = string

  datatype User = User(id: UserId, name: string, email: string, password: string, createdAt: int)

  /** The user object sent back to the client: it has no password field. */
  datatype PublicUser = PublicUser(id: UserId, name: string, email: string)

  datatype Profile = Profile(id: UserId, name: string, email: string, createdAt: int)

  /** The payload a token is generated from. */
  datatype Claims = Claims(id: UserId, email: string)

  datatype Session = Session(token: string, user: PublicUser)

  /** A JSON response: `success: true` with a status, an optional message and
      the data, or `success: false` with a status and a message. */
  datatype Reply<T> = Success(status: int, notice: Option<string>, data: T) | Failure(status: int, message: string)

  /** A request body field: `None` when it is missing. */
  predicate Given(field: Option<string>)
  {
    field.Some? && field.value != ""
  }

  function PublicView(u: User): PublicUser
  {
    PublicUser(u.id, u.name, u.email)
  }

  /** `User.findOne({ email })`: the first stored user with that email. */
  function FindByEmail(users: seq<User>, email: string): (r: Option<User>)
    ensures r.Some? ==> r.value in users && r.value.email == email
    ensures r.None? <==> forall i :: 0 <= i < |users| ==> users[i].email != email
  {
    if users == [] then None
    else if users[0].email == email then Some(users[0])
    else FindByEmail(users[1..], email)
  }

  /** `User.findById(id)`: the first stored user with that id. */
  function FindById(users: seq<User>, id: UserId): (r: Option<User>)
    ensures r.Some? ==> r.value in users && r.value.id == id
    ensures r.None? <==> forall i :: 0 <= i < |users| ==> users[i].id != id
  {
    if users == [] then None
    else if users[0].id == id then Some(users[0])
    else FindById(users[1..], id)
  }

  /** No two stored users share an email or an id. */
  ghost predicate Distinct(users: seq<User>)
  {
    forall i, j :: 0 <= i < j < |users| ==> users[i].email != users[j].email && users[i].id != users[j].id
  }

  /** A user added after all the others is found by its email. */
  lemma {:induction false} FindAppended(users: seq<User>, u: User)
    requires FindByEmail(users, u.email).None?
    ensures FindByEmail(users + [u], u.email) == Some(u)
    ensures FindById(users + [u], u.id) == (if FindById(users, u.id).Some? then FindById(users, u.id) else Some(u))
  {
    if users != [] {
      assert (users + [u])[1..] == users[1..] + [u];
      FindAppended(users[1..], u);
    }
  }

  /** `login`. */
  function Login(users: seq<User>, email: Option<string>, password: Option<string>,
                 compare: (string, string) -> bool, sign: Claims -> string): (r: Reply<Session>)
    ensures r.Success? ==>
      && r.status == 200 && Given(email) && Given(password)
      && FindByEmail(users, email.value).Some?
      && compare(password.value, FindByEmail(users, email.value).value.password)
      && r.data.user == PublicView(FindByEmail(users, email.value).value)
    ensures r.Failure? ==> (r.status == 400 <==> !Given(email) || !Given(password))
    ensures r.Failure? ==> r.status == 400 || r.status == 401
  {
    if !Given(email) || !Given(password) then
      Failure(400, "Please provide email and password")
    else
      match FindByEmail(users, email.value)
      case None => Failure(401, "Invalid email or password")
      case Some(user) =>
        if !compare(password.value, user.password) then Failure(401, "Invalid email or password")
        else Success(200, Some("Login successful"), Session(sign(Claims(user.id, user.email)), PublicView(user)))
  }

  /** A login without an email or a password is a 400. */
  lemma LoginNeedsBoth(users: seq<User>, email: Option<string>, password: Option<string>,
                       compare: (string, string) -> bool, sign: Claims -> string)
    requires !Given(email) || !Given(password)
    ensures Login(users, email, password, compare, sign) == Failure(400, "Please provide email and password")
  {
  }

  /** Login succeeds exactly when a user with the email exists and the
      password matches its stored hash; it then returns a token made from the
      user's id and email. An unknown email and a wrong password give the same
      401, so the reply does not tell which check failed. */
  lemma LoginSpec(users: seq<User>, email: string, password: string,
                  compare: (string, string) -> bool, sign: Claims -> string)
    requires email != "" && password != ""
    ensures var r := Login(users, Some(email), Some(password), compare, sign);
      && (r.Success? <==>
            exists i :: 0 <= i < |users| && users[i].email == email
              && FindByEmail(users, email) == Some(users[i]) && compare(password, users[i].password))
      && (r.Success? ==>
            var u := FindByEmail(users, email).value;
            r == Success(200, Some("Login successful"), Session(sign(Claims(u.id, u.email)), PublicView(u))))
      && (r.Failure? ==> r == Failure(401, "Invalid email or password"))
  {
    var f := FindByEmail(users, email);
    if f.Some? {
      var i :| 0 <= i < |users| && users[i] == f.value;
    }
  }

  /** `getProfile`: the profile of the authenticated user, without the
      password. */
  function GetProfile(users: seq<User>, id: UserId): (r: Reply<Profile>)
    ensures r.Failure? <==> forall i :: 0 <= i < |users| ==> users[i].id != id
    ensures r.Failure? ==> r == Failure(404, "User not found")
    ensures r.Success? ==>
      exists i :: 0 <= i < |users| && users[i].id == id
        && r == Success(200, None, Profile(id, users[i].name, users[i].email, users[i].createdAt))
  {
    match FindById(users, id)
    case None => Failure(404, "User not found")
    case Some(u) => Success(200, None, Profile(u.id, u.name, u.email, u.createdAt))
  }

  /** In a store without duplicate emails or ids, each stored user is the
      one both lookups find. */
  lemma {:induction false} DistinctLookups(users: seq<User>, u: User)
    requires Distinct(users) && u in users
    ensures FindByEmail(users, u.email) == Some(u)
    ensures FindById(users, u.id) == Some(u)
  {
    if users[0] != u {
      var j :| 0 <= j < |users| && users[j] == u;
      assert j > 0;
      assert users[1..][j - 1] == u;
      assert Distinct(users[1..]) by {
        forall i, k | 0 <= i < k < |users[1..]|
          ensures users[1..][i].email != users[1..][k].email && users[1..][i].id != users[1..][k].id
        {
          assert users[1..][i] == users[i + 1] && users[1..][k] == users[k + 1];
        }
      }
      DistinctLookups(users[1..], u);
    }
  }

  /** In a store without duplicate ids, the profile read for a stored
      user's id is that user's. */
  lemma ProfileOfStoredUser(users: seq<User>, u: User)
    requires Distinct(users) && u in users
    ensures GetProfile(users, u.id) == Success(200, None, Profile(u.id, u.name, u.email, u.createdAt))
  {
    DistinctLookups(users, u);
  }

  /** The user collection. */
  class UserStore {
    var users: seq<User>

    ghost predicate Valid()
      reads this
    {
      Distinct(users)
    }

    constructor ()
      ensures Valid() && users == []
    {
      users := [];
    }

    /** `register`. `newId` is the id the database gives the new record and
        `now` its creation time. */
    method Register(name: Option<string>, email: Option<string>, password: Option<string>,
                    hash: string -> string, sign: Claims -> string, newId: UserId, now: int)
      returns (reply: Reply<Session>)
      requires Valid()
      requires FindById(users, newId).None?
      modifies this
      ensures Valid()
      ensures !Given(name) || !Given(email) || !Given(password) ==>
        reply == Failure(400, "Please provide name, email, and password") && users == old(users)
      ensures Given(name) && Given(email) && Given(password) && FindByEmail(old(users), email.value).Some? ==>
        reply == Failure(400, "User with this email already exists") && users == old(users)
      ensures Given(name) && Given(email) && Given(password) && FindByEmail(old(users), email.value).None? ==>
        && users == old(users) + [User(newId, name.value, email.value, hash(password.value), now)]
        && reply == Success(201, Some("User registered successfully"),
                            Session(sign(Claims(newId, email.value)), PublicUser(newId, name.value, email.value)))
    {
      if !Given(name) || !Given(email) || !Given(password) {
        return Failure(400, "Please provide name, email, and password");
      }
      var existing := FindByEmail(users, email.value);
      if existing.Some? {
        return Failure(400, "User with this email already exists");
      }
      var hashed := hash(password.value);
      var user := User(newId, name.value, email.value, hashed, now);
      users := users + [user];
      var token := sign(Claims(user.id, user.email));
      reply := Success(201, Some("User registered successfully"), Session(token, PublicView(user)));
    }
  }

  /** After a registration, logging in with the same email and password
      succeeds for the new user, provided the password comparison accepts the
      password against its own hash (the bcrypt guarantee). */
  lemma LoginAfterRegister(users: seq<User>, u: User, password: string,
                           hash: string -> string, compare: (string, string) -> bool, sign: Claims -> string)
    requires FindByEmail(users, u.email).None? && u.email != "" && password != ""
    requires u.password == hash(password) && compare(password, hash(password))
    ensures Login(users + [u], Some(u.email), Some(password), compare, sign)
         == Success(200, Some("Login successful"), Session(sign(Claims(u.id, u.email)), PublicView(u)))
  {
    FindAppended(users, u);
  }
}

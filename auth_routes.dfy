/** The server's register, login and current-user routes. The user collection is a list in
    insertion order, so `findOne` returns the first match; bcrypt and JWT are function parameters:
    `hash` for bcrypt.hash, `compare(plain, hashed)` for bcrypt.compare, `sign(userId)` for jwt.sign,
    and `verify(token)` for jwt.verify, None when the token does not verify. */
module AuthRoutes {
  import opened Wrappers
  import opened Text

  datatype UserRole = RoleUser | RoleAdmin

  /** A stored user; `avatarUrl` is "" when unset. */
  datatype UserDoc = UserDoc(id: nat, name: string, email: string, password: string, avatarUrl: string, role: UserRole)

  /** A user without the password field. */
  datatype Profile = Profile(id: nat, name: string, email: string, avatarUrl: string, role: UserRole)

  /** The `{ id, name, email }` returned by register. */
  datatype UserSummary = UserSummary(id: nat, name: string, email: string)

  datatype Body =
    | Message(message: string)
    | Registered(token: string, user: UserSummary)
    | LoggedIn(token: string, profile: Profile)
    | ProfileJson(profile: Profile)

  datatype Response = Response(status: nat, body: Body)

  const MissingFields := "Please provide all required fields"
  const UserExists := "User already exists with this email"
  const MissingCredentials := "Please provide email and password"
  const InvalidCredentials := "Invalid credentials"
  const NoToken := "No token provided"
  const BadToken := "Invalid or expired token"
  const UserNotFound := "User not found"

  /** The document without its password: `toObject()` then `delete userData.password`. */
  function ProfileOf(u: UserDoc): (r: Profile)
    ensures r.id == u.id && r.name == u.name && r.email == u.email && r.avatarUrl == u.avatarUrl && r.role == u.role
  {
    Profile(u.id, u.name, u.email, u.avatarUrl, u.role)
  }

  /** `User.findOne({ email })`. */
  function FindByEmail(users: seq<UserDoc>, email: string): (r: Option<UserDoc>)
    ensures r.None? <==> forall i :: 0 <= i < |users| ==> users[i].email != email
    ensures r.Some? ==> r.value in users && r.value.email == email
  {
    if users == [] then None
    else if users[0].email == email then Some(users[0])
    else FindByEmail(users[1..], email)
  }

  /** `User.findById(id)`. */
  function FindById(users: seq<UserDoc>, id: nat): (r: Option<UserDoc>)
    ensures r.None? <==> forall i :: 0 <= i < |users| ==> users[i].id != id
    ensures r.Some? ==> r.value in users && r.value.id == id
  {
    if users == [] then None
    else if users[0].id == id then Some(users[0])
    else FindById(users[1..], id)
  }

  /** The two early exits of register (fields are "" when missing or falsy): missing fields first,
      then a taken email; None when the user may be created. */
  function RegisterGuard(users: seq<UserDoc>, name: string, email: string, password: string): (r: Option<Response>)
    ensures name == "" || email == "" || password == "" ==> r == Some(Response(400, Message(MissingFields)))
    ensures name != "" && email != "" && password != "" ==>
      (r == Some(Response(400, Message(UserExists))) <==> exists i :: 0 <= i < |users| && users[i].email == email)
    ensures r.None? <==> name != "" && email != "" && password != "" && forall i :: 0 <= i < |users| ==> users[i].email != email
  {
    if name == "" || email == "" || password == "" then Some(Response(400, Message(MissingFields)))
    else if FindByEmail(users, email).Some? then Some(Response(400, Message(UserExists)))
    else None
  }

  /** The login route. Missing fields give 400; an unknown email and a wrong password give the
      same 400; otherwise 200 with a token and the user without password. */
  function LoginResponse(users: seq<UserDoc>, email: string, password: string,
                         compare: (string, string) -> bool, sign: nat -> string): (r: Response)
    ensures r.status == 200 || r.status == 400
    ensures email == "" || password == "" ==> r == Response(400, Message(MissingCredentials))
    ensures email != "" && password != "" && r.status == 400 ==> r == Response(400, Message(InvalidCredentials))
    ensures r.status == 200 <==>
      email != "" && password != "" && FindByEmail(users, email).Some? && compare(password, FindByEmail(users, email).value.password)
    ensures r.status == 200 ==> var u := FindByEmail(users, email).value; r == Response(200, LoggedIn(sign(u.id), ProfileOf(u)))
  {
    if email == "" || password == "" then Response(400, Message(MissingCredentials))
    else
      match FindByEmail(users, email)
      case None => Response(400, Message(InvalidCredentials))
      case Some(u) =>
        if !compare(password, u.password) then Response(400, Message(InvalidCredentials))
        else Response(200, LoggedIn(sign(u.id), ProfileOf(u)))
  }

  /** `req.headers.authorization?.split(' ')[1]`, "" when there is no header or no second piece. */
  function BearerToken(authorization: Option<string>): string
  {
    if authorization.None? then ""
    else
      var parts := Split(authorization.value, ' ');
      if |parts| >= 2 then parts[1] else ""
  }

  /** A `Bearer <token>` header yields the token. */
  lemma BearerTokenOf(token: string)
    requires ' ' !in token
    ensures BearerToken(Some("Bearer " + token)) == token
  {
    assert "Bearer " + token == "Bearer" + [' '] + token;
    SplitAtSep("Bearer", ' ', token);
    SplitNoSep(token, ' ');
  }

  /** The /me route: 401 without a token or with one that does not verify, 404 for a verified id
      with no user, otherwise the user without password. */
  function MeResponse(users: seq<UserDoc>, authorization: Option<string>, verify: string -> Option<nat>): (r: Response)
    ensures BearerToken(authorization) == "" ==> r == Response(401, Message(NoToken))
    ensures BearerToken(authorization) != "" && verify(BearerToken(authorization)).None? ==> r == Response(401, Message(BadToken))
    ensures r.status == 404 <==>
      BearerToken(authorization) != "" && verify(BearerToken(authorization)).Some?
      && forall i :: 0 <= i < |users| ==> users[i].id != verify(BearerToken(authorization)).value
    ensures r.status == 200 ==> exists i :: 0 <= i < |users| && r == Response(200, ProfileJson(ProfileOf(users[i])))
    ensures r.status == 200 <==>
      BearerToken(authorization) != "" && verify(BearerToken(authorization)).Some?
      && exists i :: 0 <= i < |users| && users[i].id == verify(BearerToken(authorization)).value
    ensures r.status == 200 ==>
      r == Response(200, ProfileJson(ProfileOf(FindById(users, verify(BearerToken(authorization)).value).value)))
  {
    var token := BearerToken(authorization);
    if token == "" then Response(401, Message(NoToken))
    else
      match verify(token)
      case None => Response(401, Message(BadToken))
      case Some(id) =>
        match FindById(users, id)
        case None => Response(404, Message(UserNotFound))
        case Some(u) => Response(200, ProfileJson(ProfileOf(u)))
  }

  /** No two users share an email (the schema's unique index). */
  predicate UniqueEmails(users: seq<UserDoc>)
  {
    forall i, j :: 0 <= i < j < |users| ==> users[i].email != users[j].email
  }

  /** A user who registered with a free email logs in with the same password, provided bcrypt
      accepts a password against its own hash. */
  lemma RegisterThenLogin(users: seq<UserDoc>, id: nat, name: string, email: string, password: string,
                          hash: string -> string, compare: (string, string) -> bool, sign: nat -> string)
    requires RegisterGuard(users, name, email, password).None?
    requires compare(password, hash(password))
    ensures var u := UserDoc(id, name, email, hash(password), "", RoleUser);
      LoginResponse(users + [u], email, password, compare, sign) == Response(200, LoggedIn(sign(id), ProfileOf(u)))
  {
    var u := UserDoc(id, name, email, hash(password), "", RoleUser);
    FindByEmailAppend(users, u, email);
  }

  lemma {:induction false} FindByEmailAppend(users: seq<UserDoc>, u: UserDoc, email: string)
    requires forall i :: 0 <= i < |users| ==> users[i].email != email
    requires u.email == email
    ensures FindByEmail(users + [u], email) == Some(u)
  {
    if users != [] {
      assert (users + [u])[1..] == users[1..] + [u];
      FindByEmailAppend(users[1..], u, email);
    } else {
      assert users + [u] == [u];
    }
  }

  class UserStore {
    var users: seq<UserDoc>
    var nextId: nat

    predicate Valid()
      reads this
    {
      UniqueEmails(users) && forall i :: 0 <= i < |users| ==> users[i].id < nextId
    }

    constructor ()
      ensures Valid() && users == []
    {
      users := [];
      nextId := 0;
    }

    /** handleRegister: an early exit writes nothing; otherwise exactly one user is saved with the
        hashed password and the default role, and 201 carries a token and `{ id, name, email }` only. */
    method Register(name: string, email: string, password: string, hash: string -> string, sign: nat -> string)
      returns (response: Response)
      requires Valid()
      modifies this
      ensures Valid()
      ensures RegisterGuard(old(users), name, email, password).Some? ==>
        response == RegisterGuard(old(users), name, email, password).value && users == old(users) && nextId == old(nextId)
      ensures RegisterGuard(old(users), name, email, password).None? ==>
        var id := old(nextId);
        && users == old(users) + [UserDoc(id, name, email, hash(password), "", RoleUser)]
        && nextId == id + 1
        && response == Response(201, Registered(sign(id), UserSummary(id, name, email)))
    {
      var guard := RegisterGuard(users, name, email, password);
      if guard.Some? {
        return guard.value;
      }
      var id := nextId;
      var user := UserDoc(id, name, email, hash(password), "", RoleUser);
      users := users + [user];
      nextId := nextId + 1;
      response := Response(201, Registered(sign(id), UserSummary(id, name, email)));
    }
  }
}

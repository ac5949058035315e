/** The client-side mock authentication service of the app copy: a user list with passwords, the
    signed-in user, and its copy in local storage (kept here as a plain field holding the stored user). */
module AuthService {
  import opened Wrappers
  import opened Text

  datatype AuthUser = AuthUser(id: string, name: string, email: string, avatarUrl: string, role: string, password: string)

  /** An AuthUser with its password field taken out. */
  datatype User = User(id: string, name: string, email: string, avatarUrl: string, role: string)

  const InvalidLogin := "Invalid email or password"
  const EmailTaken := "User with this email already exists"
  const AvatarSeedPrefix := "https://api.dicebear.com/7.x/avataaars/svg?seed="

  /** `const { password, ...userWithoutPassword } = user`. */
  function WithoutPassword(u: AuthUser): (r: User)
    ensures r.id == u.id && r.name == u.name && r.email == u.email && r.avatarUrl == u.avatarUrl && r.role == u.role
  {
    User(u.id, u.name, u.email, u.avatarUrl, u.role)
  }

  /** `users.find(u => u.email === email && u.password === password)`. */
  function FindByCredentials(users: seq<AuthUser>, email: string, password: string): (r: Option<AuthUser>)
    ensures r.None? <==> forall i :: 0 <= i < |users| ==> !(users[i].email == email && users[i].password == password)
    ensures r.Some? ==> exists i :: 0 <= i < |users| && users[i] == r.value && r.value.email == email && r.value.password == password
                                    && forall j :: 0 <= j < i ==> !(users[j].email == email && users[j].password == password)
  {
    if users == [] then None
    else if users[0].email == email && users[0].password == password then Some(users[0])
    else
      var r := FindByCredentials(users[1..], email, password);
      assert forall i :: 0 <= i < |users[1..]| ==> users[1..][i] == users[i + 1];
      r
  }

  /** `users.some(u => u.email === email)`. */
  predicate EmailInUse(users: seq<AuthUser>, email: string)
  {
    exists i :: 0 <= i < |users| && users[i].email == email
  }

  /** The account signup creates: the next numeric id, the avatar seeded by the raw email, role "user". */
  function NewAccount(users: seq<AuthUser>, name: string, email: string, password: string): (r: AuthUser)
    ensures r.email == email && r.password == password && r.name == name && r.role == "user"
    ensures r.avatarUrl == AvatarSeedPrefix + email
  {
    AuthUser(NatToString(|users| + 1), name, email, AvatarSeedPrefix + email, "user", password)
  }

  /** No two accounts share an email. */
  predicate UniqueEmails(users: seq<AuthUser>)
  {
    forall i, j :: 0 <= i < j < |users| ==> users[i].email != users[j].email
  }

  /** The ids are "1", "2", ... in list order, as signup numbers them. */
  predicate NumberedIds(users: seq<AuthUser>)
  {
    forall i :: 0 <= i < |users| ==> users[i].id == NatToString(i + 1)
  }

  /** Numbered ids are pairwise distinct. */
  lemma NumberedIdsDistinct(users: seq<AuthUser>, i: nat, j: nat)
    requires NumberedIds(users) && i < j < |users|
    ensures users[i].id != users[j].id
  {
    if users[i].id == users[j].id {
      NatToStringInjective(i + 1, j + 1);
    }
  }

  /** Signing up with a free email keeps the emails unique and the ids numbered, and the new
      credentials then log in as the new account. */
  lemma SignupThenLogin(users: seq<AuthUser>, name: string, email: string, password: string)
    requires !EmailInUse(users, email)
    ensures var users' := users + [NewAccount(users, name, email, password)];
      && (UniqueEmails(users) ==> UniqueEmails(users'))
      && (NumberedIds(users) ==> NumberedIds(users'))
      && FindByCredentials(users', email, password) == Some(NewAccount(users, name, email, password))
  {
    var u := NewAccount(users, name, email, password);
    var users' := users + [u];
    assert users'[|users|] == u;
    assert forall i :: 0 <= i < |users| ==> users'[i] == users[i];
  }

  class AuthService {
    var users: seq<AuthUser>
    var currentUser: Option<User>
    /** The value under the storage key `projexia_current_user`, None when absent. */
    var storedUser: Option<User>

    /** The constructor starts from the bundled users and restores a stored user. */
    constructor (bundled: seq<AuthUser>, stored: Option<User>)
      ensures users == bundled && currentUser == stored && storedUser == stored
    {
      users := bundled;
      currentUser := stored;
      storedUser := stored;
    }

    function GetCurrentUser(): (r: Option<User>)
      reads this
      ensures r == currentUser
    {
      currentUser
    }

    predicate IsAuthenticated()
      reads this
    {
      currentUser.Some?
    }

    /** login: succeeds exactly for a user with both the email and the password; the returned and
        stored user lack the password. A failure changes nothing. */
    method Login(email: string, password: string) returns (r: Result<User>)
      modifies this
      ensures users == old(users)
      ensures r.Success? <==> exists i :: 0 <= i < |users| && users[i].email == email && users[i].password == password
      ensures r.Success? ==>
        && r.value == WithoutPassword(FindByCredentials(users, email, password).value)
        && currentUser == Some(r.value) && storedUser == Some(r.value)
        && IsAuthenticated() && GetCurrentUser() == Some(r.value)
      ensures r.Failure? ==> r.error == InvalidLogin && currentUser == old(currentUser) && storedUser == old(storedUser)
    {
      var found := FindByCredentials(users, email, password);
      if found.None? {
        return Failure(InvalidLogin);
      }
      var u := WithoutPassword(found.value);
      currentUser := Some(u);
      storedUser := Some(u);
      r := Success(u);
    }

    /** signup: an email already in use fails with nothing changed; otherwise exactly one account is
        appended and becomes the signed-in user, without its password. */
    method Signup(name: string, email: string, password: string) returns (r: Result<User>)
      modifies this
      ensures EmailInUse(old(users), email) ==>
        r == Failure(EmailTaken) && users == old(users) && currentUser == old(currentUser) && storedUser == old(storedUser)
      ensures !EmailInUse(old(users), email) ==>
        && users == old(users) + [NewAccount(old(users), name, email, password)]
        && users[|old(users)|].id == NatToString(|old(users)| + 1)
        && r == Success(WithoutPassword(NewAccount(old(users), name, email, password)))
        && currentUser == Some(r.value) && storedUser == Some(r.value)
        && IsAuthenticated() && GetCurrentUser() == Some(r.value)
    {
      if EmailInUse(users, email) {
        return Failure(EmailTaken);
      }
      var account := NewAccount(users, name, email, password);
      users := users + [account];
      var u := WithoutPassword(account);
      currentUser := Some(u);
      storedUser := Some(u);
      r := Success(u);
    }

    /** logout: nobody is signed in and the stored user is removed. */
    method Logout()
      modifies this
      ensures users == old(users) && currentUser == None && storedUser == None
      ensures !IsAuthenticated() && GetCurrentUser() == None
    {
      currentUser := None;
      storedUser := None;
    }
  }
}

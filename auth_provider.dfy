/** The session: who is signed in, kept in the browser's key/value storage so
    that it survives a reload. */
module AuthProvider {
  import opened Wrappers

  /** The signed-in user. */
  datatype User = User(id: string, email: string, name: string, role: string)

  /** The user part of a login response; absent fields are `None`. */
  datatype ApiUser = ApiUser(userId: Option<string>, name: Option<string>,
                             phoneNo: Option<string>, role: Option<string>)

  datatype LoginResponse = LoginResponse(success: bool, token: Option<string>, user: Option<ApiUser>)

  /** `value || fallback` for a string that may be absent. */
  function Or(value: Option<string>, fallback: string): (r: string)
    ensures value.Some? && value.value != "" ==> r == value.value
    ensures (value.None? || value.value == "") ==> r == fallback
  {
    if value.Some? && value.value != "" then value.value else fallback
  }

  /** `response.user?.<field>`: absent when the response has no user. */
  function UserId(resp: LoginResponse): Option<string> {
    if resp.user.Some? then resp.user.value.userId else None
  }
  function UserName(resp: LoginResponse): Option<string> {
    if resp.user.Some? then resp.user.value.name else None
  }
  function UserPhone(resp: LoginResponse): Option<string> {
    if resp.user.Some? then resp.user.value.phoneNo else None
  }
  function UserRole(resp: LoginResponse): Option<string> {
    if resp.user.Some? then resp.user.value.role else None
  }

  /** A stored value, `null` (`None`) when the key is absent. */
  function Get(storage: map<string, string>, key: string): Option<string> {
    if key in storage then Some(storage[key]) else None
  }

  predicate Truthy(v: Option<string>) {
    v.Some? && v.value != ""
  }

  /** The keys a session occupies. */
  const SessionKeys: set<string> := {"token", "userEmail", "userName", "userPhone", "userRole"}

  /** The user `initializeAuth` restores: present only when a token and an
      e-mail are stored, with name and role defaults. */
  function RestoredUser(storage: map<string, string>): (r: Option<User>)
    ensures r.Some? <==> Truthy(Get(storage, "token")) && Truthy(Get(storage, "userEmail"))
    ensures r.Some? ==> r.value.email == storage["userEmail"] && r.value.name != "" && r.value.role != ""
  {
    if Truthy(Get(storage, "token")) && Truthy(Get(storage, "userEmail")) then
      Some(User("1", storage["userEmail"], Or(Get(storage, "userName"), "User"),
                Or(Get(storage, "userRole"), "--")))
    else None
  }

  /** A login is accepted when the response says so and carries a token. */
  predicate Accepted(resp: LoginResponse) {
    resp.success && Truthy(resp.token)
  }

  /** What a login writes to storage. */
  function LoginStorage(storage: map<string, string>, email: string, resp: LoginResponse): map<string, string>
    requires Accepted(resp)
  {
    storage["token" := resp.token.value]["userEmail" := email]
           ["userName" := Or(UserName(resp), "User")]
           ["userPhone" := Or(UserPhone(resp), "--")]
           ["userRole" := Or(UserRole(resp), "--")]
  }

  /** The user a login signs in: the role defaults to "" here. */
  function LoginUser(email: string, resp: LoginResponse): User {
    User(Or(UserId(resp), "1"), email,
         Or(UserName(resp), "User"), Or(UserRole(resp), ""))
  }

  /** After a login a reload restores the same e-mail and name; the role comes
      back the same only when the server gave one, and as "--" otherwise. */
  lemma LoginSurvivesReload(storage: map<string, string>, email: string, resp: LoginResponse)
    requires Accepted(resp) && email != ""
    ensures var r := RestoredUser(LoginStorage(storage, email, resp));
            var u := LoginUser(email, resp);
            r.Some? && r.value.email == u.email && r.value.name == u.name &&
            (Truthy(UserRole(resp)) ==> r.value.role == u.role) &&
            (!Truthy(UserRole(resp)) ==> r.value.role == "--" && u.role == "")
  {
  }

  /** After a logout nothing is restored. */
  lemma LogoutForgets(storage: map<string, string>)
    ensures RestoredUser(storage - SessionKeys) == None
  {
    assert "token" in SessionKeys;
  }

  class AuthStore {
    var storage: map<string, string>
    var user: Option<User>
    var isLoading: bool

    /** Before `initializeAuth` has run: no user, loading. */
    constructor(storage: map<string, string>)
      ensures this.storage == storage && user == None && isLoading
    {
      this.storage := storage;
      user := None;
      isLoading := true;
    }

    predicate IsAuthenticated()
      reads this
    {
      user.Some?
    }

    /** `initializeAuth`: restore the user if the storage holds a session; stop
        loading in every case. */
    method Initialize()
      modifies this
      ensures user == (if RestoredUser(storage).Some? then RestoredUser(storage) else old(user))
      ensures !isLoading && storage == old(storage)
    {
      var restored := RestoredUser(storage);
      if restored.Some? {
        user := restored;
      }
      isLoading := false;
    }

    /** `login`: an accepted response writes the session and signs the user in;
        any other response is an error and changes nothing. */
    method Login(email: string, resp: LoginResponse) returns (ok: bool)
      modifies this
      ensures ok <==> Accepted(resp)
      ensures ok ==> storage == LoginStorage(old(storage), email, resp) && user == Some(LoginUser(email, resp))
      ensures !ok ==> storage == old(storage) && user == old(user)
      ensures isLoading == old(isLoading)
    {
      ok := resp.success && resp.token.Some? && resp.token.value != "";
      if ok {
        storage := storage["token" := resp.token.value];
        storage := storage["userEmail" := email];
        storage := storage["userName" := Or(UserName(resp), "User")];
        storage := storage["userPhone" := Or(UserPhone(resp), "--")];
        storage := storage["userRole" := Or(UserRole(resp), "--")];
        user := Some(LoginUser(email, resp));
      }
    }

    /** `logout`: whatever the server answers, the session keys go and the user
        is signed out. */
    method Logout()
      modifies this
      ensures storage == old(storage) - SessionKeys && user == None
      ensures isLoading == old(isLoading)
    {
      storage := storage - {"token"};
      storage := storage - {"userEmail"};
      storage := storage - {"userName"};
      storage := storage - {"userPhone"};
      storage := storage - {"userRole"};
      user := None;
    }
  }
}

/** LoginPage.js: default-user seeding, the credential check and the login handler. */
module LoginPage {
  import opened Wrappers
  import opened DataModels
  import opened Lists
  import opened Storage
  import opened AuthContext

  /** The two users written to storage on first use (numeric ids, plaintext passwords). */
  const DefaultUsers: seq<User> := [
    User(NumId(1), None, None, "admin", "ugtromen@gmail.com", "admin123", None, ["admin"]),
    User(NumId(2), None, None, "user", "user@example.com", "user123", None, ["user"])
  ]

  const InvalidCredentials: string := "Invalid credentials, please try again."
  const LoginFailed: string := "An error occurred during login."

  /** The seeding effect: the defaults are written only when 'users' is missing or empty text. */
  function SeededItems(items: map<string, Value>): (r: map<string, Value>)
    ensures UsersKey in r
    ensures UsersKey in items && items[UsersKey] != Raw("") ==> r == items
    ensures !(UsersKey in items && items[UsersKey] != Raw("")) ==>
      r == items[UsersKey := Stringify(JUsers(DefaultUsers))]
  {
    if IsFalsy(if UsersKey in items then Some(items[UsersKey]) else None)
    then items[UsersKey := Stringify(JUsers(DefaultUsers))]
    else items
  }

  /** The parsed 'users' value, the defaults when it is null, and whether a search can run on it. */
  function UsersForLogin(stored: Option<Value>): (r: Result<seq<User>, string>)
    ensures Parse(stored) == Ok(JNull) ==> r == Ok(DefaultUsers)
    ensures forall us :: Parse(stored) == Ok(JUsers(us)) ==> r == Ok(us)
    ensures r.Err? <==> Parse(stored).Err? || Parse(stored).value.JProfiles? || Parse(stored).value.JSession?
  {
    match Parse(stored)
    case Err(e) => Err(e)
    case Ok(JNull) => Ok(DefaultUsers)
    case Ok(JUsers(us)) => Ok(us)
    case Ok(_) => Err("TypeError")
  }

  /** The record handed to `login`: username, first role, email and id, never the password. */
  function SafeUserData(u: User): (r: SessionUser)
    ensures r.username == u.username && r.email == u.email && r.userid == u.userid
    ensures r.role.Some? <==> |u.roles| > 0
    ensures r.role.Some? ==> r.role.value == u.roles[0]
  {
    SessionUser(u.username, if |u.roles| > 0 then Some(u.roles[0]) else None, u.email, u.userid)
  }

  /** Whether `i` is the index of the first user with this username. */
  ghost predicate FirstWithUsername(users: seq<User>, username: string, i: int) {
    0 <= i < |users| && users[i].username == username &&
    forall j :: 0 <= j < i ==> users[j].username != username
  }

  /**
   * The credential check: the first user with the entered username, and only that
   * user, is compared against the entered password.
   */
  function Authenticate(users: seq<User>, username: string, password: string): (r: Option<SessionUser>)
    ensures r.Some? <==> exists i :: FirstWithUsername(users, username, i) && users[i].password == password
    ensures r.Some? ==> exists i :: FirstWithUsername(users, username, i) && r.value == SafeUserData(users[i])
  {
    match FindIndex(users, (u: User) => u.username == username)
    case None => None
    case Some(i) => if users[i].password == password then Some(SafeUserData(users[i])) else None
  }

  /** A later user with the same username is never consulted, even when its password is the entered one. */
  lemma {:induction false} LaterDuplicateIgnored(users: seq<User>, username: string, password: string, i: int, k: int)
    requires FirstWithUsername(users, username, i) && users[i].password != password
    requires i < k < |users| && users[k].username == username && users[k].password == password
    ensures Authenticate(users, username, password) == None
  {
  }

  /** The session record holds exactly the safe fields of the matched user. */
  lemma {:induction false} SessionOmitsPassword(users: seq<User>, username: string, password: string)
    requires Authenticate(users, username, password).Some?
    ensures var s := Authenticate(users, username, password).value;
            exists i :: 0 <= i < |users| && users[i].username == username && users[i].password == password &&
                        s.username == username && s.email == users[i].email && s.userid == users[i].userid &&
                        s.role == (if |users[i].roles| > 0 then Some(users[i].roles[0]) else None)
  {
    var s := Authenticate(users, username, password).value;
    var i :| FirstWithUsername(users, username, i) && s == SafeUserData(users[i]);
  }

  datatype LoginOutcome = LoggedIn(session: SessionUser) | BadCredentials | LoginError

  /** One login attempt against the stored 'users' text. */
  function AttemptLogin(stored: Option<Value>, username: string, password: string): (r: LoginOutcome)
    ensures r.LoginError? <==> UsersForLogin(stored).Err?
    ensures r.LoggedIn? <==> UsersForLogin(stored).Ok? && Authenticate(UsersForLogin(stored).value, username, password).Some?
    ensures r.LoggedIn? ==> r.session == Authenticate(UsersForLogin(stored).value, username, password).value
  {
    match UsersForLogin(stored)
    case Err(_) => LoginError
    case Ok(users) =>
      match Authenticate(users, username, password)
      case Some(s) => LoggedIn(s)
      case None => BadCredentials
  }

  /** The message shown after an attempt. */
  function ErrorMessage(outcome: LoginOutcome): (r: string)
    ensures r == "" <==> outcome.LoggedIn?
    ensures r == InvalidCredentials <==> outcome.BadCredentials?
    ensures outcome.LoginError? ==> r == LoginFailed
  {
    match outcome
    case LoggedIn(_) => ""
    case BadCredentials => InvalidCredentials
    case LoginError => LoginFailed
  }

  /** The default users' roles are lower-case, so neither names a declared role. */
  lemma {:induction false} DefaultRolesAreNotDeclaredRoles()
    ensures forall i :: 0 <= i < |DefaultUsers| ==> |DefaultUsers[i].roles| > 0 && RoleNamed(DefaultUsers[i].roles[0]).None?
  {
  }

  /** When 'users' is absent or null, the built-in admin account logs in with its default password. */
  lemma {:induction false} DefaultAdminLogsIn(stored: Option<Value>)
    requires stored.None? || stored == Some(Raw("null"))
    ensures AttemptLogin(stored, "admin", "admin123") ==
            LoggedIn(SessionUser("admin", Some("admin"), "ugtromen@gmail.com", NumId(1)))
  {
    assert UsersForLogin(stored) == Ok(DefaultUsers);
    assert FindIndex(DefaultUsers, (u: User) => u.username == "admin") == Some(0);
  }

  /** The redirect effect: a logged-in visitor goes to `location.state.from`, or to the home page when it is missing or empty. */
  function RedirectTarget(user: Option<SessionUser>, from: Option<string>): (r: Option<string>)
    ensures r.Some? <==> user.Some?
    ensures r.Some? && from.Some? && from.value != "" ==> r.value == from.value
    ensures r.Some? && (from.None? || from == Some("")) ==> r.value == "/"
  {
    if user.None? then None
    else if from.Some? && from.value != "" then from
    else Some("/")
  }

  class LoginPage {
    var username: string
    var password: string
    var errorMessage: string
    var isLoading: bool

    constructor()
      ensures username == "" && password == "" && errorMessage == "" && !isLoading
    {
      username, password, errorMessage, isLoading := "", "", "", false;
    }

    /** The mount effect that seeds the user list. */
    method SeedDefaultUsers(storage: LocalStorage)
      modifies storage
      ensures storage.items == SeededItems(old(storage.items))
    {
      var stored := storage.GetItem(UsersKey);
      if IsFalsy(stored) {
        storage.SetItem(UsersKey, Stringify(JUsers(DefaultUsers)));
      }
    }

    /**
     * `handleLogin`: clears the previous error, checks the credentials, logs in on
     * success (and navigates to '/'), and always ends with loading off.
     */
    method HandleLogin(storage: LocalStorage, auth: AuthProvider) returns (navigateTo: Option<string>)
      modifies this`isLoading, this`errorMessage, storage, auth
      ensures var outcome := AttemptLogin(old(storage.GetItem(UsersKey)), username, password);
              && !isLoading
              && errorMessage == ErrorMessage(outcome)
              && (outcome.LoggedIn? ==>
                    auth.user == Some(outcome.session) && navigateTo == Some("/") &&
                    storage.items == old(storage.items)[SessionKey := Stringify(JSession(outcome.session))])
              && (!outcome.LoggedIn? ==>
                    auth.user == old(auth.user) && navigateTo == None && storage.items == old(storage.items))
    {
      isLoading := true;
      errorMessage := "";
      var outcome := AttemptLogin(storage.GetItem(UsersKey), username, password);
      navigateTo := None;
      match outcome {
        case LoggedIn(s) =>
          auth.Login(storage, s);
          navigateTo := Some("/");
        case BadCredentials =>
          errorMessage := InvalidCredentials;
        case LoginError =>
          errorMessage := LoginFailed;
      }
      isLoading := false;
    }
  }
}

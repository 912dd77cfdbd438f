/** SetPasswordPage.js: the password-strength validator and the change-password handler. */
module SetPasswordPage {
  import opened Wrappers
  import opened DataModels
  import opened Lists
  import opened Storage

  /** The character classes of the validator's regular expressions. */
  datatype CharClass = Upper | Lower | Digit | Special

  /** The eight characters the special-character requirement accepts. */
  const Specials: string := "!@#$%^&*"

  predicate InClass(c: char, k: CharClass) {
    match k
    case Upper => 'A' <= c <= 'Z'
    case Lower => 'a' <= c <= 'z'
    case Digit => '0' <= c <= '9'
    case Special => c in Specials
  }

  /** The regular-expression test: scans `s` for a character of the class. */
  function Contains(s: string, k: CharClass): (r: bool)
    ensures r <==> exists i :: 0 <= i < |s| && InClass(s[i], k)
  {
    if |s| == 0 then false
    else if InClass(s[0], k) then true
    else
      var rest := Contains(s[1..], k);
      assert forall i :: 1 <= i < |s| ==> s[i] == s[1..][i - 1];
      rest
  }

  /** `validatePassword`: every one of the five requirements holds. */
  function ValidatePassword(p: string): (r: bool)
    ensures r <==>
      && |p| >= 8
      && (exists i :: 0 <= i < |p| && 'A' <= p[i] <= 'Z')
      && (exists i :: 0 <= i < |p| && 'a' <= p[i] <= 'z')
      && (exists i :: 0 <= i < |p| && '0' <= p[i] <= '9')
      && (exists i :: 0 <= i < |p| && p[i] in {'!', '@', '#', '$', '%', '^', '&', '*'})
  {
    |p| >= 8 && Contains(p, Upper) && Contains(p, Lower) && Contains(p, Digit) && Contains(p, Special)
  }

  /** Characters outside the eight listed ones (such as '-', '_', '?') never count as special. */
  lemma {:induction false} OnlyListedSpecials(p: string)
    requires forall i :: 0 <= i < |p| ==> p[i] !in Specials
    ensures !ValidatePassword(p)
  {
    assert !Contains(p, Special);
  }

  /** "Abcdefg1!" is accepted; replacing its '!' by '-' makes it fail. */
  lemma {:induction false} ExampleSpecials()
    ensures ValidatePassword("Abcdefg1!") && !ValidatePassword("Abcdefg1-")
  {
    var ok := "Abcdefg1!";
    assert InClass(ok[0], Upper) && InClass(ok[1], Lower) && InClass(ok[7], Digit) && InClass(ok[8], Special);
    var bad := "Abcdefg1-";
    forall i | 0 <= i < |bad| ensures bad[i] !in Specials {
      assert bad[i] in "Abcdefg1-";
    }
    OnlyListedSpecials(bad);
  }

  /** The user list with the password of every record whose id matches the logged-in id replaced. */
  function WithPassword(users: seq<User>, loggedIn: Option<Value>, password: string): (r: seq<User>)
    ensures |r| == |users|
    ensures forall i :: 0 <= i < |users| ==>
      r[i] == if IdMatches(users[i].userid, loggedIn) then users[i].(password := password) else users[i]
  {
    if |users| == 0 then []
    else
      var head := if IdMatches(users[0].userid, loggedIn) then users[0].(password := password) else users[0];
      [head] + WithPassword(users[1..], loggedIn, password)
  }

  /** The alert the page shows. */
  datatype PasswordAlert = InvalidCurrent | Mismatch | Requirements | Updated

  datatype ChangeOutcome =
    | Rejected(alert: PasswordAlert)
    | Changed(users: seq<User>)
    | Crashed  // an exception escaped the handler; nothing was written

  /** The parsed 'users' value (an empty list when the text is falsy), and whether a search can run on it. */
  function UsersForChange(stored: Option<Value>): (r: Result<seq<User>, string>)
    ensures IsFalsy(stored) ==> r == Ok([])
    ensures forall us :: stored == Some(Stringify(JUsers(us))) ==> r == Ok(us)
    ensures r.Err? <==> !IsFalsy(stored) && !(Parse(stored).Ok? && Parse(stored).value.JUsers?)
  {
    if IsFalsy(stored) then Ok([])
    else
      match Parse(stored)
      case Ok(JUsers(us)) => Ok(us)
      case Ok(_) => Err("TypeError")
      case Err(e) => Err(e)
  }

  /**
   * `handleSubmit`, as a function of the stored logged-in id and users text and the
   * three form fields. The guards run in order: current password, confirmation,
   * strength.
   */
  function ChangePassword(loggedIn: Option<Value>, stored: Option<Value>, current: string, password: string, confirm: string): (r: ChangeOutcome)
    ensures r.Crashed? <==> UsersForChange(stored).Err?
    ensures UsersForChange(stored).Ok? ==>
      var users := UsersForChange(stored).value;
      var found := FindIndex(users, (u: User) => IdMatches(u.userid, loggedIn));
      && (found.None? || users[found.value].password != current ==> r == Rejected(InvalidCurrent))
      && (found.Some? && users[found.value].password == current ==>
            && (password != confirm ==> r == Rejected(Mismatch))
            && (password == confirm && !ValidatePassword(password) ==> r == Rejected(Requirements))
            && (password == confirm && ValidatePassword(password) ==> r == Changed(WithPassword(users, loggedIn, password))))
  {
    match UsersForChange(stored)
    case Err(_) => Crashed
    case Ok(users) =>
      match FindIndex(users, (u: User) => IdMatches(u.userid, loggedIn))
      case None => Rejected(InvalidCurrent)
      case Some(i) =>
        if users[i].password != current then Rejected(InvalidCurrent)
        else if password != confirm then Rejected(Mismatch)
        else if !ValidatePassword(password) then Rejected(Requirements)
        else Changed(WithPassword(users, loggedIn, password))
  }

  /**
   * After a successful change the list keeps its length and order, exactly the
   * records with the logged-in id get the new password, nothing else changes, and
   * the logged-in user's stored password is the confirmed, valid new one.
   */
  lemma {:induction false} ChangeRewritesOnlyLoggedInUser(loggedIn: Option<Value>, stored: Option<Value>, current: string, password: string, confirm: string)
    requires ChangePassword(loggedIn, stored, current, password, confirm).Changed?
    ensures var before := UsersForChange(stored).value;
            var after := ChangePassword(loggedIn, stored, current, password, confirm).users;
            && |after| == |before|
            && (forall i :: 0 <= i < |before| && !IdMatches(before[i].userid, loggedIn) ==> after[i] == before[i])
            && (forall i :: 0 <= i < |before| && IdMatches(before[i].userid, loggedIn) ==>
                  after[i] == before[i].(password := password))
            && (exists i :: 0 <= i < |after| && IdMatches(after[i].userid, loggedIn) && after[i].password == password)
            && password == confirm && ValidatePassword(password)
  {
    var before := UsersForChange(stored).value;
    var k := FindIndex(before, (u: User) => IdMatches(u.userid, loggedIn)).value;
    var after := WithPassword(before, loggedIn, password);
    assert IdMatches(after[k].userid, loggedIn) && after[k].password == password;
  }

  /** Without a 'users' entry there is no one to match: the result is always the invalid-current error. */
  lemma {:induction false} MissingUsersRejected(loggedIn: Option<Value>, current: string, password: string, confirm: string)
    ensures ChangePassword(loggedIn, None, current, password, confirm) == Rejected(InvalidCurrent)
  {
  }

  /**
   * The seeded default users carry numeric ids, which never equal the string the
   * page reads from 'loggedInUserId'; so against the seeded list every change is
   * refused as an invalid current password.
   */
  lemma {:induction false} NumericIdsNeverMatch(loggedIn: Option<Value>, users: seq<User>, current: string, password: string, confirm: string)
    requires forall i :: 0 <= i < |users| ==> users[i].userid.NumId?
    ensures ChangePassword(loggedIn, Some(Stringify(JUsers(users))), current, password, confirm) == Rejected(InvalidCurrent)
  {
    assert FindIndex(users, (u: User) => IdMatches(u.userid, loggedIn)).None?;
  }

  class SetPasswordPage {
    var currentPassword: string
    var password: string
    var confirmPassword: string
    var alert: Option<PasswordAlert>
    var loading: bool

    constructor()
      ensures currentPassword == "" && password == "" && confirmPassword == ""
      ensures alert.None? && !loading
    {
      currentPassword, password, confirmPassword := "", "", "";
      alert, loading := None, false;
    }

    /** The submit button is enabled only when not saving and all three fields are filled in. */
    predicate SubmitEnabled()
      reads this
      ensures SubmitEnabled() <==> !loading && currentPassword != "" && password != "" && confirmPassword != ""
    {
      !(loading || currentPassword == "" || password == "" || confirmPassword == "")
    }

    /**
     * `handleSubmit`: on a rejected guard only the alert changes; on success the
     * rewritten list is stored, the success alert is shown and the page navigates
     * to '/settings'. An exception leaves everything as it was.
     */
    method HandleSubmit(storage: LocalStorage) returns (navigateTo: Option<string>)
      modifies this`alert, this`loading, storage
      ensures var r := ChangePassword(old(storage.GetItem(LoggedInUserIdKey)), old(storage.GetItem(UsersKey)),
                                      currentPassword, password, confirmPassword);
              && loading == (if r.Changed? then false else old(loading))
              && (r.Crashed? ==> alert == old(alert) && storage.items == old(storage.items) && navigateTo.None?)
              && (r.Rejected? ==> alert == Some(r.alert) && storage.items == old(storage.items) && navigateTo.None?)
              && (r.Changed? ==>
                    && alert == Some(Updated) && navigateTo == Some("/settings")
                    && storage.items == old(storage.items)[UsersKey := Stringify(JUsers(r.users))])
    {
      navigateTo := None;
      var r := ChangePassword(storage.GetItem(LoggedInUserIdKey), storage.GetItem(UsersKey),
                              currentPassword, password, confirmPassword);
      match r {
        case Crashed =>
        case Rejected(a) =>
          alert := Some(a);
        case Changed(users) =>
          loading := true;
          storage.SetItem(UsersKey, Stringify(JUsers(users)));
          alert := Some(Updated);
          navigateTo := Some("/settings");
          loading := false;
      }
    }
  }
}

/**
 * The frozen enumerations and the record constructors of dataModels.js.
 *
 * JavaScript fields may hold `undefined`; every field that the pages read with
 * optional chaining (`?.`) or that records written by other code may lack is an
 * `Option`.
 */
module DataModels {
  import opened Wrappers

  /** Roles: a frozen object with exactly four values. */
  datatype Role = Admin | Student | Faculty | Guest

  function RoleName(r: Role): string {
    match r
    case Admin => "Admin"
    case Student => "Student"
    case Faculty => "Faculty"
    case Guest => "Guest"
  }

  /** The inverse of RoleName: which frozen value, if any, has this name. */
  function RoleNamed(name: string): (r: Option<Role>)
    ensures r.Some? ==> RoleName(r.value) == name
    ensures r.None? ==> forall x :: RoleName(x) != name
  {
    if name == "Admin" then Some(Admin)
    else if name == "Student" then Some(Student)
    else if name == "Faculty" then Some(Faculty)
    else if name == "Guest" then Some(Guest)
    else None
  }

  /** Languages: English and French. */
  datatype Language = English | French

  function LanguageName(l: Language): string {
    match l
    case English => "English"
    case French => "French"
  }

  function LanguageNamed(name: string): (r: Option<Language>)
    ensures r.Some? ==> LanguageName(r.value) == name
    ensures r.None? ==> forall x :: LanguageName(x) != name
  {
    if name == "English" then Some(English)
    else if name == "French" then Some(French)
    else None
  }

  /** DisplayThemes: Dark and Bright (the settings page writes "Light", which is not one of them). */
  datatype DisplayTheme = Dark | Bright

  function DisplayThemeName(d: DisplayTheme): string {
    match d
    case Dark => "Dark"
    case Bright => "Bright"
  }

  function DisplayThemeNamed(name: string): (r: Option<DisplayTheme>)
    ensures r.Some? ==> DisplayThemeName(r.value) == name
    ensures r.None? ==> forall x :: DisplayThemeName(x) != name
  {
    if name == "Dark" then Some(Dark)
    else if name == "Bright" then Some(Bright)
    else None
  }

  /**
   * A stored `userid`: a number in the seeded default users, a string in sessions
   * and in the raw 'loggedInUserId' item. Strict equality never equates a number
   * with a string.
   */
  datatype UserId = NumId(n: int) | StrId(s: string)

  /** A Preferences record: display theme, language and font size. */
  datatype Preferences = Preferences(displayTheme: Option<string>, language: Option<string>, fontSize: Option<string>)

  /** A Privacy record; `lastOnline` is an ISO timestamp. */
  datatype Privacy = Privacy(
    profileVisibility: Option<bool>,
    onlineStatus: Option<bool>,
    lastOnline: Option<string>,
    blockedUsers: Option<seq<string>>)

  /** A Profile record. */
  datatype Profile = Profile(
    biography: Option<string>,
    interests: Option<seq<string>>,
    skills: Option<seq<string>>,
    profilePic: Option<string>,
    preferences: Option<Preferences>,
    privacy: Option<Privacy>)

  /** A User record, and every user record held in the `users` list of local storage. */
  datatype User = User(
    userid: UserId,
    firstname: Option<string>,
    lastname: Option<string>,
    username: string,
    email: string,
    password: string,
    profile: Option<Profile>,
    roles: seq<string>)

  /** The default `preferences` argument of the Profile constructor. */
  function DefaultPreferences(): Preferences {
    Preferences(Some(DisplayThemeName(Bright)), Some(LanguageName(English)), Some("medium"))
  }

  /** The default `privacy` argument of the Profile constructor, built at time `now`. */
  function DefaultPrivacy(now: string): Privacy {
    Privacy(Some(true), Some(true), Some(now), Some([]))
  }

  /**
   * The Profile constructor. An argument left `undefined` (None) for `preferences`
   * or `privacy` takes the default; every other argument is stored as given.
   */
  function NewProfile(
    biography: Option<string>, interests: Option<seq<string>>, skills: Option<seq<string>>,
    profilePic: Option<string>, preferences: Option<Preferences>, privacy: Option<Privacy>,
    now: string): (p: Profile)
    ensures p.biography == biography && p.interests == interests
    ensures p.skills == skills && p.profilePic == profilePic
    ensures preferences.Some? ==> p.preferences == preferences
    ensures preferences.None? ==>
      p.preferences == Some(Preferences(Some("Bright"), Some("English"), Some("medium")))
    ensures privacy.Some? ==> p.privacy == privacy
    ensures privacy.None? ==> p.privacy == Some(Privacy(Some(true), Some(true), Some(now), Some([])))
  {
    Profile(biography, interests, skills, profilePic,
            Some(preferences.GetOr(DefaultPreferences())),
            Some(privacy.GetOr(DefaultPrivacy(now))))
  }
}

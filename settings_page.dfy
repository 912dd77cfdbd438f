/** SettingsPage.js: the settings form, loading it from the user list, editing it, and saving it back. */
module SettingsPage {
  import opened Wrappers
  import opened DataModels
  import opened Lists
  import opened Storage
  import opened ThemeContext
  import opened LanguageContext

  datatype AccountSettings = AccountSettings(username: string, email: string, password: string)
  datatype PreferenceSettings = PreferenceSettings(theme: string, language: string, fontSize: string)
  datatype PrivacySettings = PrivacySettings(profileVisibility: bool, onlineStatus: bool)

  /** The page's `settings` state: three categories of named settings. */
  datatype Settings = Settings(account: AccountSettings, preferences: PreferenceSettings, privacy: PrivacySettings)

  /** The value of each category/setting pair of the form. */
  datatype SettingKey =
    | AccountUsername | AccountEmail | AccountPassword
    | PreferencesTheme | PreferencesLanguage | PreferencesFontSize
    | PrivacyProfileVisibility | PrivacyOnlineStatus

  datatype SettingValue = Text(s: string) | Flag(b: bool)

  /** Text inputs and selects give strings; the two privacy switches give booleans. */
  predicate Fits(k: SettingKey, v: SettingValue) {
    if k == PrivacyProfileVisibility || k == PrivacyOnlineStatus then v.Flag? else v.Text?
  }

  function Get(s: Settings, k: SettingKey): (v: SettingValue)
    ensures Fits(k, v)
  {
    match k
    case AccountUsername => Text(s.account.username)
    case AccountEmail => Text(s.account.email)
    case AccountPassword => Text(s.account.password)
    case PreferencesTheme => Text(s.preferences.theme)
    case PreferencesLanguage => Text(s.preferences.language)
    case PreferencesFontSize => Text(s.preferences.fontSize)
    case PrivacyProfileVisibility => Flag(s.privacy.profileVisibility)
    case PrivacyOnlineStatus => Flag(s.privacy.onlineStatus)
  }

  /** The eight settings make up the whole form: two forms that agree on all of them are equal. */
  lemma {:induction false} SettingsDetermined(s: Settings, t: Settings)
    requires forall k :: Get(s, k) == Get(t, k)
    ensures s == t
  {
    assert Get(s, AccountUsername) == Get(t, AccountUsername);
    assert Get(s, AccountEmail) == Get(t, AccountEmail);
    assert Get(s, AccountPassword) == Get(t, AccountPassword);
    assert Get(s, PreferencesTheme) == Get(t, PreferencesTheme);
    assert Get(s, PreferencesLanguage) == Get(t, PreferencesLanguage);
    assert Get(s, PreferencesFontSize) == Get(t, PreferencesFontSize);
    assert Get(s, PrivacyProfileVisibility) == Get(t, PrivacyProfileVisibility);
    assert Get(s, PrivacyOnlineStatus) == Get(t, PrivacyOnlineStatus);
  }

  /** The updater of `handleSettingChange`: exactly the named setting becomes `v`. */
  function WithSetting(s: Settings, k: SettingKey, v: SettingValue): (r: Settings)
    requires Fits(k, v)
    ensures Get(r, k) == v
    ensures forall j :: j != k ==> Get(r, j) == Get(s, j)
  {
    match k
    case AccountUsername => s.(account := s.account.(username := v.s))
    case AccountEmail => s.(account := s.account.(email := v.s))
    case AccountPassword => s.(account := s.account.(password := v.s))
    case PreferencesTheme => s.(preferences := s.preferences.(theme := v.s))
    case PreferencesLanguage => s.(preferences := s.preferences.(language := v.s))
    case PreferencesFontSize => s.(preferences := s.preferences.(fontSize := v.s))
    case PrivacyProfileVisibility => s.(privacy := s.privacy.(profileVisibility := v.b))
    case PrivacyOnlineStatus => s.(privacy := s.privacy.(onlineStatus := v.b))
  }

  /** The initial state, before the load effect runs. */
  function InitialSettings(darkMode: bool, language: string): (s: Settings)
    ensures s.preferences.theme == (if darkMode then "dark" else "light")
    ensures s.preferences.language == (if language == "" then "en" else language)
    ensures s.preferences.fontSize == "medium"
    ensures s.account == AccountSettings("", "", "") && s.privacy == PrivacySettings(true, true)
  {
    Settings(
      AccountSettings("", "", ""),
      PreferenceSettings(if darkMode then "dark" else "light", if language == "" then "en" else language, "medium"),
      PrivacySettings(true, true))
  }

  function LowerChar(c: char): char {
    if 'A' <= c <= 'Z' then (c as int - 'A' as int + 'a' as int) as char else c
  }

  /** Lower-casing, on ASCII letters. */
  function ToLower(s: string): (r: string)
    ensures |r| == |s|
    ensures forall i :: 0 <= i < |s| ==> r[i] == LowerChar(s[i])
  {
    if |s| == 0 then "" else [LowerChar(s[0])] + ToLower(s[1..])
  }

  /** An optional string or a fallback: undefined and '' both give the fallback. */
  function OrElse(value: Option<string>, fallback: string): string {
    if value.Some? && value.value != "" then value.value else fallback
  }

  /** The stored preferences of a user, if the profile and its preferences exist. */
  function StoredPreferences(u: User): Option<Preferences> {
    if u.profile.Some? then u.profile.value.preferences else None
  }

  function StoredPrivacy(u: User): Option<Privacy> {
    if u.profile.Some? then u.profile.value.privacy else None
  }

  /** The stored display theme, lowercased, or 'light' when it is missing or empty. */
  function ThemeSetting(displayTheme: Option<string>): (r: string)
    ensures displayTheme.None? || displayTheme == Some("") ==> r == "light"
    ensures displayTheme.Some? && displayTheme.value != "" ==> r == ToLower(displayTheme.value)
    ensures r != ""
  {
    if displayTheme.None? || ToLower(displayTheme.value) == "" then "light" else ToLower(displayTheme.value)
  }

  /**
   * `loadUserSettings` for a found user: the theme lowercased (or 'light'), the
   * language (or 'en'), the font size (or 'medium'), the privacy switches kept
   * unless null or undefined (a stored false stays false), and an empty password.
   */
  function SettingsFromUser(u: User): (s: Settings)
    ensures s.account == AccountSettings(u.username, u.email, "")
    ensures StoredPreferences(u).None? ==> s.preferences == PreferenceSettings("light", "en", "medium")
    ensures StoredPreferences(u).Some? ==>
      var p := StoredPreferences(u).value;
      && s.preferences.theme == ThemeSetting(p.displayTheme)
      && s.preferences.language == (if p.language.Some? && p.language.value != "" then p.language.value else "en")
      && s.preferences.fontSize == (if p.fontSize.Some? && p.fontSize.value != "" then p.fontSize.value else "medium")
    ensures StoredPrivacy(u).Some? && StoredPrivacy(u).value.profileVisibility.Some? ==>
      s.privacy.profileVisibility == StoredPrivacy(u).value.profileVisibility.value
    ensures StoredPrivacy(u).Some? && StoredPrivacy(u).value.onlineStatus.Some? ==>
      s.privacy.onlineStatus == StoredPrivacy(u).value.onlineStatus.value
    ensures StoredPrivacy(u).Some? && StoredPrivacy(u).value.profileVisibility.None? ==> s.privacy.profileVisibility
    ensures StoredPrivacy(u).Some? && StoredPrivacy(u).value.onlineStatus.None? ==> s.privacy.onlineStatus
    ensures StoredPrivacy(u).None? ==> s.privacy == PrivacySettings(true, true)
  {
    var prefs := StoredPreferences(u);
    var privacy := StoredPrivacy(u);
    Settings(
      AccountSettings(u.username, u.email, ""),
      PreferenceSettings(
        ThemeSetting(if prefs.Some? then prefs.value.displayTheme else None),
        OrElse(if prefs.Some? then prefs.value.language else None, "en"),
        OrElse(if prefs.Some? then prefs.value.fontSize else None, "medium")),
      PrivacySettings(
        (if privacy.Some? then privacy.value.profileVisibility else None).GetOr(true),
        (if privacy.Some? then privacy.value.onlineStatus else None).GetOr(true)))
  }

  /** The declared theme 'Bright' loads as 'bright', which is neither option of the theme select. */
  lemma {:induction false} BrightThemeDrift(u: User)
    requires StoredPreferences(u).Some? && StoredPreferences(u).value.displayTheme == Some(DisplayThemeName(Bright))
    ensures SettingsFromUser(u).preferences.theme == "bright"
  {
    var b := ToLower("Bright");
    assert b[0] == 'b' && b[1] == 'r' && b[2] == 'i' && b[3] == 'g' && b[4] == 'h' && b[5] == 't';
    assert b == "bright";
  }

  datatype SettingsAlert = SettingsSaved | SettingsError

  /** `loadUserSettings`: Err when the user list cannot be read (also when it is missing), else the new form. */
  function LoadSettings(loggedIn: Option<Value>, stored: Option<Value>, current: Settings): (r: Result<Settings, string>)
    ensures r.Err? <==> !(Parse(stored).Ok? && Parse(stored).value.JUsers?)
    ensures r.Ok? ==>
      var users := Parse(stored).value.users;
      var found := FindIndex(users, (u: User) => IdMatches(u.userid, loggedIn));
      && (found.None? ==> r.value == current)
      && (found.Some? ==> r.value == SettingsFromUser(users[found.value]))
  {
    match Parse(stored)
    case Ok(JUsers(users)) =>
      (match FindIndex(users, (u: User) => IdMatches(u.userid, loggedIn))
       case None => Ok(current)
       case Some(i) => Ok(SettingsFromUser(users[i])))
    case Ok(_) => Err("TypeError")
    case Err(e) => Err(e)
  }

  /** The display theme written back: 'Dark' for the dark setting, 'Light' for anything else. */
  function SavedDisplayTheme(theme: string): (r: string)
    ensures r == "Dark" <==> theme == "dark"
    ensures r == "Light" <==> theme != "dark"
    ensures DisplayThemeNamed(r).Some? <==> theme == "dark"
  {
    if theme == "dark" then "Dark" else "Light"
  }

  /**
   * The rewrite of the matched record. A record without a profile makes the
   * privacy spread throw. Otherwise username and email come from the form, the
   * preferences are replaced, and of the privacy fields only visibility, online
   * status and last-online change; everything else is kept.
   */
  function SavedUser(u: User, s: Settings, now: string): (r: Result<User, string>)
    ensures r.Err? <==> u.profile.None?
    ensures r.Ok? ==>
      var v := r.value;
      && v.userid == u.userid && v.password == u.password && v.roles == u.roles
      && v.firstname == u.firstname && v.lastname == u.lastname
      && v.username == s.account.username && v.email == s.account.email
      && v.profile.Some?
      && v.profile.value.biography == u.profile.value.biography
      && v.profile.value.interests == u.profile.value.interests
      && v.profile.value.skills == u.profile.value.skills
      && v.profile.value.profilePic == u.profile.value.profilePic
      && v.profile.value.preferences ==
           Some(Preferences(Some(SavedDisplayTheme(s.preferences.theme)), Some(s.preferences.language), Some(s.preferences.fontSize)))
      && v.profile.value.privacy.Some?
      && v.profile.value.privacy.value.profileVisibility == Some(s.privacy.profileVisibility)
      && v.profile.value.privacy.value.onlineStatus == Some(s.privacy.onlineStatus)
      && v.profile.value.privacy.value.lastOnline == Some(now)
      && v.profile.value.privacy.value.blockedUsers ==
           (if u.profile.value.privacy.Some? then u.profile.value.privacy.value.blockedUsers else None)
  {
    match u.profile
    case None => Err("TypeError")
    case Some(p) =>
      var blocked := if p.privacy.Some? then p.privacy.value.blockedUsers else None;
      var prefs := Preferences(Some(SavedDisplayTheme(s.preferences.theme)), Some(s.preferences.language), Some(s.preferences.fontSize));
      var privacy := Privacy(Some(s.privacy.profileVisibility), Some(s.privacy.onlineStatus), Some(now), blocked);
      Ok(u.(username := s.account.username, email := s.account.email,
            profile := Some(p.(preferences := Some(prefs), privacy := Some(privacy)))))
  }

  datatype SaveOutcome =
    | SaveFailed            // the list could not be read, or the record had no profile
    | NoMatch               // no user has the logged-in id: nothing is written, no alert
    | Saved(users: seq<User>)

  /** `handleSubmit`: replaces only the entry at the first matching index. */
  function SaveSettings(loggedIn: Option<Value>, stored: Option<Value>, s: Settings, now: string): (r: SaveOutcome)
    ensures !(Parse(stored).Ok? && Parse(stored).value.JUsers?) ==> r == SaveFailed
    ensures Parse(stored).Ok? && Parse(stored).value.JUsers? ==>
      var users := Parse(stored).value.users;
      var found := FindIndex(users, (u: User) => IdMatches(u.userid, loggedIn));
      && (found.None? ==> r == NoMatch)
      && (found.Some? && users[found.value].profile.None? ==> r == SaveFailed)
      && (found.Some? && users[found.value].profile.Some? ==>
            && r.Saved? && |r.users| == |users|
            && r.users[found.value] == SavedUser(users[found.value], s, now).value
            && forall j :: 0 <= j < |users| && j != found.value ==> r.users[j] == users[j])
  {
    match Parse(stored)
    case Ok(JUsers(users)) =>
      (match FindIndex(users, (u: User) => IdMatches(u.userid, loggedIn))
       case None => NoMatch
       case Some(i) =>
         match SavedUser(users[i], s, now)
         case Err(_) => SaveFailed
         case Ok(v) => Saved(users[i := v]))
    case Ok(_) => SaveFailed
    case Err(_) => SaveFailed
  }

  /** What a save followed by a load gives back: the form, with the theme reduced to 'dark'/'light' and the password blank. */
  function Reloaded(s: Settings): Settings {
    Settings(
      AccountSettings(s.account.username, s.account.email, ""),
      PreferenceSettings(
        if s.preferences.theme == "dark" then "dark" else "light",
        if s.preferences.language == "" then "en" else s.preferences.language,
        if s.preferences.fontSize == "" then "medium" else s.preferences.fontSize),
      s.privacy)
  }

  /** Saving the form into a user record and loading it again round-trips, up to Reloaded. */
  lemma {:induction false} SaveThenLoad(u: User, s: Settings, now: string)
    requires u.profile.Some?
    ensures SettingsFromUser(SavedUser(u, s, now).value) == Reloaded(s)
  {
    var d := ToLower("Dark");
    assert d[0] == 'd' && d[1] == 'a' && d[2] == 'r' && d[3] == 'k';
    assert d == "dark";
    var l := ToLower("Light");
    assert l[0] == 'l' && l[1] == 'i' && l[2] == 'g' && l[3] == 'h' && l[4] == 't';
    assert l == "light";
  }

  class SettingsPage {
    var settings: Settings
    var alert: Option<SettingsAlert>
    var loading: bool

    constructor(theme: ThemeProvider, lang: LanguageProvider)
      ensures settings == InitialSettings(theme.darkMode, lang.language)
      ensures alert.None? && !loading
    {
      settings := InitialSettings(theme.darkMode, lang.language);
      alert := None;
      loading := false;
    }

    /** The load effect; a failure shows the error alert and keeps the form. */
    method LoadUserSettings(storage: LocalStorage)
      modifies this`settings, this`alert
      ensures var r := LoadSettings(storage.GetItem(LoggedInUserIdKey), storage.GetItem(UsersKey), old(settings));
              && (r.Ok? ==> settings == r.value && alert == old(alert))
              && (r.Err? ==> settings == old(settings) && alert == Some(SettingsError))
    {
      var r := LoadSettings(storage.GetItem(LoggedInUserIdKey), storage.GetItem(UsersKey), settings);
      if r.Ok? {
        settings := r.value;
      } else {
        alert := Some(SettingsError);
      }
    }

    /**
     * `handleSettingChange`. Any change of the theme toggles dark mode once,
     * whatever value was chosen; a language change sets the language and persists it.
     */
    method HandleSettingChange(k: SettingKey, v: SettingValue, theme: ThemeProvider, lang: LanguageProvider, storage: LocalStorage)
      requires Fits(k, v)
      modifies this`settings, theme, lang, storage
      ensures settings == WithSetting(old(settings), k, v)
      ensures theme.darkMode == (if k == PreferencesTheme then !old(theme.darkMode) else old(theme.darkMode))
      ensures theme.fontSize == old(theme.fontSize)
      ensures k == PreferencesLanguage ==>
        lang.language == v.s && storage.items == old(storage.items)[LanguageKey := Raw(v.s)]
      ensures k != PreferencesLanguage ==>
        lang.language == old(lang.language) && storage.items == old(storage.items)
    {
      settings := WithSetting(settings, k, v);
      if k == PreferencesTheme {
        theme.ToggleDarkMode();
      }
      if k == PreferencesLanguage {
        lang.SetLanguage(v.s);
        storage.SetItem(LanguageKey, Raw(v.s));
      }
    }

    /** `handleSubmit`: writes the list back only when a record was rewritten, and always ends with loading off. */
    method HandleSubmit(storage: LocalStorage, now: string)
      modifies this`alert, this`loading, storage
      ensures !loading
      ensures var r := SaveSettings(old(storage.GetItem(LoggedInUserIdKey)), old(storage.GetItem(UsersKey)), settings, now);
              && (r.Saved? ==> storage.items == old(storage.items)[UsersKey := Stringify(JUsers(r.users))] && alert == Some(SettingsSaved))
              && (r.NoMatch? ==> storage.items == old(storage.items) && alert == old(alert))
              && (r.SaveFailed? ==> storage.items == old(storage.items) && alert == Some(SettingsError))
    {
      loading := true;
      var r := SaveSettings(storage.GetItem(LoggedInUserIdKey), storage.GetItem(UsersKey), settings, now);
      match r {
        case Saved(users) =>
          storage.SetItem(UsersKey, Stringify(JUsers(users)));
          alert := Some(SettingsSaved);
        case NoMatch =>
        case SaveFailed =>
          alert := Some(SettingsError);
      }
      loading := false;
    }
  }
}

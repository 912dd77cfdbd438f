/**
 * The browser's localStorage, reduced to a map from keys to stored values, and
 * the shapes the pages write under each key.
 *
 * A stored value is either a raw text written without JSON (the language
 * preference, the logged-in user id) or the JSON text of a value this model knows.
 * JSON.parse of a raw text is a parse failure, except for the text "null", which
 * parses to null.
 */
module Storage {
  import opened Wrappers
  import opened DataModels

  const UsersKey: string := "users"
  const ProfilesKey: string := "userProfiles"
  const SessionKey: string := "user"
  const LoggedInUserIdKey: string := "loggedInUserId"
  const LanguageKey: string := "languagePreference"

  /** The session record the login page builds: a user without the password. */
  datatype SessionUser = SessionUser(username: string, role: Option<string>, email: string, userid: UserId)

  /** A profile as the profile pages hold it in their form state and store it under its owner's email. */
  datatype ProfileData = ProfileData(
    username: string,
    bio: string,
    email: string,
    location: string,
    joined: Option<string>,
    interests: seq<string>,
    skills: seq<string>,
    profilePicture: string,
    lastUpdated: Option<string>)

  /** The JSON values stored by this application. */
  datatype Json =
    | JNull
    | JUsers(users: seq<User>)
    | JProfiles(profiles: map<string, ProfileData>)
    | JSession(session: SessionUser)

  datatype Value = Raw(text: string) | Stringified(json: Json)

  /** The text setItem stores for a serialised value. */
  function Stringify(j: Json): Value {
    Stringified(j)
  }

  /**
   * JSON parsing of what getItem returned for a key (`text`).
   * A missing key gives null (getItem's null is parsed as the text "null").
   */
  function Parse(text: Option<Value>): (r: Result<Json, string>)
    ensures text.None? ==> r == Ok(JNull)
    ensures text == Some(Raw("null")) ==> r == Ok(JNull)
    ensures r.Err? <==> text.Some? && text.value.Raw? && text.value.text != "null"
  {
    match text
    case None => Ok(JNull)
    case Some(Raw(t)) => if t == "null" then Ok(JNull) else Err("SyntaxError")
    case Some(Stringified(j)) => Ok(j)
  }

  /** Whether getItem's result is falsy in JavaScript: null or the empty string. */
  predicate IsFalsy(text: Option<Value>) {
    text.None? || text == Some(Raw(""))
  }

  lemma {:induction false} ParseStringify(j: Json)
    ensures Parse(Some(Stringify(j))) == Ok(j) && !IsFalsy(Some(Stringify(j)))
  {
  }

  /**
   * Strict comparison of a stored id with the 'loggedInUserId' item: getItem returns a string
   * or null, so only a string id equal to the stored raw text matches.
   */
  predicate IdMatches(id: UserId, loggedIn: Option<Value>)
    ensures id.NumId? || loggedIn.None? ==> !IdMatches(id, loggedIn)
    ensures IdMatches(id, loggedIn) ==> !IsFalsy(loggedIn) || id == StrId("")
  {
    id.StrId? && loggedIn == Some(Raw(id.s))
  }

  /** The browser store itself: one origin's key/value map. */
  class LocalStorage {
    var items: map<string, Value>

    constructor(initial: map<string, Value>)
      ensures items == initial
    {
      items := initial;
    }

    /** getItem: null when the key is absent. */
    function GetItem(key: string): (r: Option<Value>)
      reads this
      ensures r.Some? <==> key in items
      ensures r.Some? ==> r.value == items[key]
    {
      if key in items then Some(items[key]) else None
    }

    /** setItem: stores `v` under `key`. */
    method SetItem(key: string, v: Value)
      modifies this
      ensures items == old(items)[key := v]
    {
      items := items[key := v];
    }

    /** removeItem: deletes `key`. */
    method RemoveItem(key: string)
      modifies this
      ensures items == old(items) - {key}
    {
      items := items - {key};
    }
  }
}

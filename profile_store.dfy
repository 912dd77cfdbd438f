/**
 * The 'userProfiles' entry shared by ProfilePage.js and ProfileCustomizationPage.js:
 * a JSON object from a session user's email to that user's profile.
 */
module ProfileStore {
  import opened Wrappers
  import opened Storage

  /** The parsed 'userProfiles' map, empty when the key is missing or null; a value of another shape counts as a failure. */
  function ReadProfiles(stored: Option<Value>): (r: Result<map<string, ProfileData>, string>)
    ensures Parse(stored) == Ok(JNull) ==> r == Ok(map[])
    ensures forall m :: stored == Some(Stringify(JProfiles(m))) ==> r == Ok(m)
    ensures r.Err? <==> Parse(stored).Err? || !(Parse(stored).value.JNull? || Parse(stored).value.JProfiles?)
  {
    match Parse(stored)
    case Err(e) => Err(e)
    case Ok(JNull) => Ok(map[])
    case Ok(JProfiles(m)) => Ok(m)
    case Ok(_) => Err("TypeError")
  }

  /** A session whose email is present and non-empty. */
  predicate HasEmail(session: Option<SessionUser>)
    ensures HasEmail(session) ==> session.Some? && |session.value.email| > 0
  {
    session.Some? && session.value.email != ""
  }

  /**
   * The load effect of both profile pages, applied to the current form state. With
   * no session email nothing is loaded; a stored profile for the session email
   * replaces the state wholesale; otherwise the state keeps its values with email
   * and username taken from the session.
   */
  function LoadedProfile(session: Option<SessionUser>, stored: Option<Value>, current: ProfileData): (r: Result<ProfileData, string>)
    ensures !HasEmail(session) ==> r == Ok(current)
    ensures HasEmail(session) ==> (r.Err? <==> ReadProfiles(stored).Err?)
    ensures HasEmail(session) && ReadProfiles(stored).Ok? ==>
      var profiles := ReadProfiles(stored).value;
      var email := session.value.email;
      && (email in profiles ==> r == Ok(profiles[email]))
      && (email !in profiles ==>
            && r.Ok? && r.value.email == email && r.value.username == session.value.username
            && r.value.bio == current.bio && r.value.location == current.location
            && r.value.joined == current.joined && r.value.interests == current.interests
            && r.value.skills == current.skills && r.value.profilePicture == current.profilePicture
            && r.value.lastUpdated == current.lastUpdated)
  {
    if !HasEmail(session) then Ok(current)
    else
      match ReadProfiles(stored)
      case Err(e) => Err(e)
      case Ok(profiles) =>
        var email := session.value.email;
        if email in profiles then Ok(profiles[email])
        else Ok(current.(email := email, username := session.value.username))
  }

  /** The profile map with `data`, stamped with `now`, stored under `email`. */
  function Upserted(profiles: map<string, ProfileData>, email: string, data: ProfileData, now: string): (r: map<string, ProfileData>)
    ensures r.Keys == profiles.Keys + {email}
    ensures r[email] == data.(lastUpdated := Some(now))
    ensures forall k :: k in profiles && k != email ==> r[k] == profiles[k]
  {
    profiles[email := data.(lastUpdated := Some(now))]
  }

  datatype SaveOutcome =
    | NotSaved                                 // no session email: nothing happens
    | Saved(profiles: map<string, ProfileData>) // the map written back under 'userProfiles'
    | SaveCrashed                              // parsing threw; nothing is written

  /**
   * The save step of both pages: the profile is written under the SESSION email,
   * whatever email the profile itself now holds.
   */
  function SaveProfile(session: Option<SessionUser>, stored: Option<Value>, data: ProfileData, now: string): (r: SaveOutcome)
    ensures r.NotSaved? <==> !HasEmail(session)
    ensures r.SaveCrashed? <==> HasEmail(session) && ReadProfiles(stored).Err?
    ensures r.Saved? ==> r.profiles == Upserted(ReadProfiles(stored).value, session.value.email, data, now)
  {
    if !HasEmail(session) then NotSaved
    else
      match ReadProfiles(stored)
      case Err(_) => SaveCrashed
      case Ok(profiles) => Saved(Upserted(profiles, session.value.email, data, now))
  }

  /** Saving and loading again under the same session gives back the saved data, stamped. */
  lemma {:induction false} SaveThenLoad(session: Option<SessionUser>, stored: Option<Value>, data: ProfileData, now: string, current: ProfileData)
    requires SaveProfile(session, stored, data, now).Saved?
    ensures var written := Stringify(JProfiles(SaveProfile(session, stored, data, now).profiles));
            LoadedProfile(session, Some(written), current) == Ok(data.(lastUpdated := Some(now)))
  {
    ParseStringify(JProfiles(SaveProfile(session, stored, data, now).profiles));
  }

  /** Editing the profile's email does not move its key: it is still stored under the session email. */
  lemma {:induction false} KeyIsSessionEmail(session: Option<SessionUser>, stored: Option<Value>, data: ProfileData, now: string)
    requires SaveProfile(session, stored, data, now).Saved? && data.email != session.value.email
    ensures session.value.email in SaveProfile(session, stored, data, now).profiles
    ensures SaveProfile(session, stored, data, now).profiles[session.value.email].email == data.email
    ensures forall k :: k in ReadProfiles(stored).value && k != session.value.email ==>
              k in SaveProfile(session, stored, data, now).profiles &&
              SaveProfile(session, stored, data, now).profiles[k] == ReadProfiles(stored).value[k]
  {
  }
}

/** ProfilePage.js: showing the session user's profile, changing its picture, and logging out. */
module ProfilePage {
  import opened Wrappers
  import opened Storage
  import opened ProfileStore
  import opened AuthContext

  const InitialProfile: ProfileData :=
    ProfileData("", "", "", "", Some("January 2024"), [], [], "/api/placeholder/150/150", None)

  /** The shown profile with its picture replaced. */
  function WithPicture(data: ProfileData, picture: string): (r: ProfileData)
    ensures r.profilePicture == picture
    ensures r.(profilePicture := data.profilePicture) == data
  {
    data.(profilePicture := picture)
  }

  /**
   * A saved picture change: the stored entry is the displayed profile with only the
   * picture replaced, stamped with `now`; every other key of the map is unchanged.
   */
  lemma {:induction false} PictureChangeStored(session: Option<SessionUser>, stored: Option<Value>, data: ProfileData, picture: string, now: string)
    requires SaveProfile(session, stored, WithPicture(data, picture), now).Saved?
    ensures var before := ReadProfiles(stored).value;
            var after := SaveProfile(session, stored, WithPicture(data, picture), now).profiles;
            var email := session.value.email;
            && after[email].profilePicture == picture
            && after[email].(profilePicture := data.profilePicture, lastUpdated := data.lastUpdated) == data
            && after[email].(lastUpdated := WithPicture(data, picture).lastUpdated) == WithPicture(data, picture)
            && after[email].lastUpdated == Some(now)
            && after.Keys == before.Keys + {email}
            && (forall k :: k in before && k != email ==> after[k] == before[k])
  {
  }

  class ProfilePage {
    var profileData: ProfileData

    constructor()
      ensures profileData == InitialProfile
    {
      profileData := InitialProfile;
    }

    /** The load effect. A parse failure is caught, so the page keeps what it shows. */
    method Load(auth: AuthProvider, storage: LocalStorage)
      modifies this
      ensures var r := LoadedProfile(auth.user, storage.GetItem(ProfilesKey), old(profileData));
              profileData == (if r.Ok? then r.value else old(profileData))
    {
      var r := LoadedProfile(auth.user, storage.GetItem(ProfilesKey), profileData);
      if r.Ok? {
        profileData := r.value;
      }
    }

    /** handleEditProfile: goes to the customization page and changes nothing. */
    method HandleEditProfile() returns (navigateTo: string)
      ensures navigateTo == "/profile-customization"
    {
      navigateTo := "/profile-customization";
    }

    /** handleLogout: ends the session, then goes to the login page. */
    method HandleLogout(auth: AuthProvider, storage: LocalStorage) returns (navigateTo: string)
      modifies auth, storage
      ensures auth.user == None && storage.items == old(storage.items) - {SessionKey}
      ensures navigateTo == "/login"
    {
      auth.Logout(storage);
      navigateTo := "/login";
    }

    /**
     * The picture input, once FileReader has produced a data URL (`dataUrl`). Without
     * a file or a session email nothing happens; otherwise the profile with the new
     * picture is stored under the session email and then shown. Parsing is not
     * guarded: if it throws, neither the store nor the page changes.
     */
    method HandleProfilePictureChange(dataUrl: Option<string>, auth: AuthProvider, storage: LocalStorage, now: string)
      modifies this, storage
      ensures dataUrl.None? || !HasEmail(auth.user) ==>
        profileData == old(profileData) && storage.items == old(storage.items)
      ensures dataUrl.Some? ==>
        var outcome := SaveProfile(auth.user, old(storage.GetItem(ProfilesKey)), WithPicture(old(profileData), dataUrl.value), now);
        && (outcome.Saved? ==>
              && profileData == WithPicture(old(profileData), dataUrl.value)
              && storage.items == old(storage.items)[ProfilesKey := Stringify(JProfiles(outcome.profiles))])
        && (!outcome.Saved? ==> profileData == old(profileData) && storage.items == old(storage.items))
    {
      if dataUrl.Some? && HasEmail(auth.user) {
        var newProfileData := WithPicture(profileData, dataUrl.value);
        var outcome := SaveProfile(auth.user, storage.GetItem(ProfilesKey), newProfileData, now);
        if outcome.Saved? {
          storage.SetItem(ProfilesKey, Stringify(JProfiles(outcome.profiles)));
          profileData := newProfileData;
        }
      }
    }
  }
}

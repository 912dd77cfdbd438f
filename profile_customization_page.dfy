/** ProfileCustomizationPage.js: the editable profile form, its tag lists, and saving it. */
module ProfileCustomizationPage {
  import opened Wrappers
  import opened Storage
  import opened ProfileStore
  import opened AuthContext

  /** The text inputs, by their `name` attribute. */
  datatype TextField = Username | Bio | Email | Location

  /** The two tag lists. */
  datatype TagList = Interests | Skills

  function Text(form: ProfileData, f: TextField): string {
    match f
    case Username => form.username
    case Bio => form.bio
    case Email => form.email
    case Location => form.location
  }

  function Tags(form: ProfileData, l: TagList): seq<string> {
    match l
    case Interests => form.interests
    case Skills => form.skills
  }

  /** The fields no handler of this page names. */
  predicate SameUnnamedFields(a: ProfileData, b: ProfileData) {
    a.joined == b.joined && a.profilePicture == b.profilePicture && a.lastUpdated == b.lastUpdated
  }

  const InitialForm: ProfileData :=
    ProfileData("", "", "", "", None, [], [], "/api/placeholder/150/150", None)

  /** The list with every occurrence of `value` dropped, order kept. */
  function Without(items: seq<string>, value: string): (r: seq<string>)
    ensures value !in r
    ensures multiset(r) == multiset(items)[value := 0]
    ensures |r| <= |items|
  {
    if |items| == 0 then []
    else
      assert items == [items[0]] + items[1..];
      if items[0] == value then Without(items[1..], value)
      else [items[0]] + Without(items[1..], value)
  }

  /** Filtering works piecewise, so the kept elements stay in their order. */
  lemma {:induction false} WithoutDistributes(a: seq<string>, b: seq<string>, value: string)
    ensures Without(a + b, value) == Without(a, value) + Without(b, value)
  {
    if |a| == 0 {
      assert a + b == b;
    } else {
      assert (a + b)[1..] == a[1..] + b;
      WithoutDistributes(a[1..], b, value);
    }
  }

  /** Removing an absent value changes nothing. */
  lemma {:induction false} WithoutAbsent(items: seq<string>, value: string)
    requires value !in items
    ensures Without(items, value) == items
  {
    if |items| > 0 {
      assert value !in items[1..];
      WithoutAbsent(items[1..], value);
      assert items == [items[0]] + items[1..];
    }
  }

  /** Removing twice is removing once. */
  lemma {:induction false} WithoutIdempotent(items: seq<string>, value: string)
    ensures Without(Without(items, value), value) == Without(items, value)
  {
    WithoutAbsent(Without(items, value), value);
  }

  predicate NoDuplicates(items: seq<string>) {
    forall i, j :: 0 <= i < j < |items| ==> items[i] != items[j]
  }

  lemma {:induction false} WithoutKeepsNoDuplicates(items: seq<string>, value: string)
    requires NoDuplicates(items)
    ensures NoDuplicates(Without(items, value))
  {
    if |items| > 0 {
      assert NoDuplicates(items[1..]) by {
        forall i, j | 0 <= i < j < |items[1..]| ensures items[1..][i] != items[1..][j] {
          assert items[1..][i] == items[i + 1] && items[1..][j] == items[j + 1];
        }
      }
      WithoutKeepsNoDuplicates(items[1..], value);
      if items[0] != value {
        var rest := Without(items[1..], value);
        assert items[0] !in items[1..];
        assert multiset(items[1..])[items[0]] == 0;
        assert multiset(rest)[items[0]] == 0;
        var r := [items[0]] + rest;
        forall i, j | 0 <= i < j < |r| ensures r[i] != r[j] {
          if i == 0 { assert r[j] == rest[j - 1]; }
          else { assert r[i] == rest[i - 1] && r[j] == rest[j - 1]; }
        }
      }
    }
  }

  /** The tag-toggle step on one list: remove every occurrence if present, else append at the end. */
  function Toggled(items: seq<string>, value: string): (r: seq<string>)
    ensures value in items ==> value !in r && multiset(r) == multiset(items)[value := 0]
    ensures value in items ==> r == Without(items, value)
    ensures value !in items ==> r == items + [value]
  {
    if value in items then Without(items, value) else items + [value]
  }

  /** Toggling an absent value twice restores the list. */
  lemma {:induction false} ToggleTwiceRestores(items: seq<string>, value: string)
    requires value !in items
    ensures Toggled(Toggled(items, value), value) == items
  {
    WithoutDistributes(items, [value], value);
    WithoutAbsent(items, value);
    assert Without([value], value) == [];
  }

  /** Toggling keeps a duplicate-free list duplicate-free. */
  lemma {:induction false} ToggleKeepsNoDuplicates(items: seq<string>, value: string)
    requires NoDuplicates(items)
    ensures NoDuplicates(Toggled(items, value))
  {
    if value in items {
      WithoutKeepsNoDuplicates(items, value);
    }
  }

  /** `handleInputChange`: only the named text field changes. */
  function WithText(form: ProfileData, f: TextField, value: string): (r: ProfileData)
    ensures Text(r, f) == value
    ensures forall g :: g != f ==> Text(r, g) == Text(form, g)
    ensures forall l :: Tags(r, l) == Tags(form, l)
    ensures SameUnnamedFields(r, form)
  {
    match f
    case Username => form.(username := value)
    case Bio => form.(bio := value)
    case Email => form.(email := value)
    case Location => form.(location := value)
  }

  function WithTags(form: ProfileData, l: TagList, items: seq<string>): (r: ProfileData)
    ensures Tags(r, l) == items
    ensures forall m :: m != l ==> Tags(r, m) == Tags(form, m)
    ensures forall g :: Text(r, g) == Text(form, g)
    ensures SameUnnamedFields(r, form)
  {
    match l
    case Interests => form.(interests := items)
    case Skills => form.(skills := items)
  }

  class ProfileCustomizationPage {
    var formState: ProfileData

    constructor()
      ensures formState == InitialForm
    {
      formState := InitialForm;
    }

    /** The load effect. Parsing is not guarded, so a parse failure throws and the form stays as it was. */
    method Load(auth: AuthProvider, storage: LocalStorage) returns (ok: bool)
      modifies this
      ensures var r := LoadedProfile(auth.user, storage.GetItem(ProfilesKey), old(formState));
              && ok == r.Ok?
              && formState == (if r.Ok? then r.value else old(formState))
    {
      var r := LoadedProfile(auth.user, storage.GetItem(ProfilesKey), formState);
      ok := r.Ok?;
      if ok {
        formState := r.value;
      }
    }

    /** `handleInputChange`. */
    method HandleInputChange(f: TextField, value: string)
      modifies this
      ensures formState == WithText(old(formState), f, value)
    {
      formState := WithText(formState, f, value);
    }

    /** The picture input, once FileReader has produced a data URL (`dataUrl`); no file selected changes nothing. */
    method HandleProfilePictureChange(dataUrl: Option<string>)
      modifies this
      ensures dataUrl.Some? ==> formState == old(formState).(profilePicture := dataUrl.value)
      ensures dataUrl.None? ==> formState == old(formState)
    {
      if dataUrl.Some? {
        formState := formState.(profilePicture := dataUrl.value);
      }
    }

    /** `handleTagToggle`. */
    method HandleTagToggle(l: TagList, value: string)
      modifies this
      ensures formState == WithTags(old(formState), l, Toggled(Tags(old(formState), l), value))
    {
      formState := WithTags(formState, l, Toggled(Tags(formState, l), value));
    }

    /** `handleTagRemove`. */
    method HandleTagRemove(l: TagList, value: string)
      modifies this
      ensures formState == WithTags(old(formState), l, Without(Tags(old(formState), l), value))
    {
      formState := WithTags(formState, l, Without(Tags(formState, l), value));
    }

    /** `handleSubmit`: stores the form, stamped with `now`, under the session email. */
    method HandleSubmit(auth: AuthProvider, storage: LocalStorage, now: string) returns (outcome: SaveOutcome)
      modifies storage
      ensures outcome == SaveProfile(auth.user, old(storage.GetItem(ProfilesKey)), formState, now)
      ensures outcome.Saved? ==> storage.items == old(storage.items)[ProfilesKey := Stringify(JProfiles(outcome.profiles))]
      ensures !outcome.Saved? ==> storage.items == old(storage.items)
    {
      outcome := SaveProfile(auth.user, storage.GetItem(ProfilesKey), formState, now);
      if outcome.Saved? {
        storage.SetItem(ProfilesKey, Stringify(JProfiles(outcome.profiles)));
      }
    }
  }
}

# Community platform: pages, contexts and local storage

This project models the client of the community-engagement platform (UserProfileSystem). It covers:

- the React pages that read and write the browser's local storage: login, set password, profile customization, profile and settings;
- the three contexts: authentication, theme and language;
- the navbar;
- the record constructors of `dataModels.js`.

The browser's `localStorage` is a class holding a map from keys to stored values. The keys are 'users', 'userProfiles', 'user', 'loggedInUserId' and 'languagePreference'.

A stored value is one of two kinds:

- raw text: the language code the navbar and the settings page write under 'languagePreference', the logged-in id under 'loggedInUserId', or anything else written outside the pages;
- a value the pages serialised themselves.

JSON parsing is restricted to these kinds of value (the browser's parser would also accept texts such as "[]", "0" or "true"; see "## Left out"):

- a missing key reads as `null`;
- the raw text "null" parses to null;
- any other raw text is malformed;
- a serialised value parses back to itself.

Every page handler that computes new state from its inputs and storage is modelled twice (the pure navigation handlers `ProfilePage.ProfilePage.HandleEditProfile` and `ProfilePage.ProfilePage.HandleLogout`, and `ProfileCustomizationPage.ProfileCustomizationPage.HandleProfilePictureChange`, which only sets one field, are methods alone):

- as a pure function of the inputs and the stored values, which states its guards, error paths and new contents;
- as a method of a class whose fields are the component's state. The method's `ensures` tie its new state and the storage's new contents to that function.

Lemmas state what the pages promise across calls. Examples: login hands out no password; a saved profile loads back; saved settings reload to their saved form (password blank, theme reduced to dark or light, an empty language or font size defaulted); toggling an absent tag twice restores the list. A password change rewrites only the logged-in user. Two toggles of dark mode restore the theme.

Some parts of the code disagree with each other. The model reproduces each disagreement as written:

- The settings page writes the display theme "Light", which is not one of the data model's themes (Dark, Bright).
- The default users' roles are "admin" and "user", and the pages keep language codes "en" and "fr"; neither matches the names the data model declares.
- The settings page reads the stored theme back lowercased, so "Bright" appears as "bright".
- The pages compare stored user ids against the text of 'loggedInUserId' with strict equality. The default users carry numeric ids, so they never match. The model keeps numeric and string ids apart so that this shows.
- The navbar brand reads the key `platform`, which neither translation table has.

Module layout, one file per source file plus two shared files:

- `wrappers.dfy`: Option/Result and array search.
- `storage.dfy`: local storage and JSON values.
- `data_models.dfy`
- `auth_context.dfy`, `theme_context.dfy`, `language_context.dfy`
- `navbar.dfy`
- `login_page.dfy`, `set_password_page.dfy`
- `profile_store.dfy`: the profile map shared by both profile pages.
- `profile_customization_page.dfy`, `profile_page.dfy`, `settings_page.dfy`

## Model

All source paths are under `community-platform/src/`.

| member | source | states |
|---|---|---|
| Lists.FindIndex | community-platform/src/pages/SettingsPage.js:303 | the result is the first index whose element satisfies the predicate: it satisfies it and none before it does; None exactly when no element does |
| DataModels.RoleNamed | community-platform/src/dataModels.js:1-6 | a role is found only for one of the four role names, and every name that is not a role name gives None |
| DataModels.LanguageNamed | community-platform/src/dataModels.js:8-11 | only "English" and "French" name a language |
| DataModels.DisplayThemeNamed | community-platform/src/dataModels.js:13-16 | only "Dark" and "Bright" name a display theme |
| DataModels.NewProfile | community-platform/src/dataModels.js:35-44 | a missing preferences argument defaults to Bright/English/medium; a missing privacy argument defaults to visible, online, last online now, nobody blocked; every other argument is stored unchanged |
| Storage.Parse | community-platform/src/context/AuthContext.js:13 | a missing key and the text "null" parse to null; parsing fails exactly on raw text other than "null" |
| Storage.ParseStringify | community-platform/src/context/AuthContext.js:11-21 | a value the pages stored parses back to itself and is never falsy |
| Storage.LocalStorage.GetItem | community-platform/src/context/AuthContext.js:10 | a key is present exactly when it holds a value, and reading gives that value |
| Storage.LocalStorage.SetItem | community-platform/src/context/AuthContext.js:20 | only the written key changes, to the written value |
| Storage.LocalStorage.RemoveItem | community-platform/src/context/AuthContext.js:26 | only the removed key disappears |
| Storage.IdMatches | community-platform/src/pages/SetPasswordPage.js:229 | a numeric id, or a missing 'loggedInUserId', never matches; a match needs a non-empty stored id unless the id itself is empty |
| AuthContext.RestoredSession | community-platform/src/context/AuthContext.js:9-16 | a missing or empty 'user' keeps the current session; stored null clears it; a stored session is restored; a restored session is either the current one or the stored one; it fails exactly when 'user' is present but malformed or holds a user list or profile map |
| AuthContext.AuthProvider.constructor | community-platform/src/context/AuthContext.js:6 | the provider starts with no session |
| AuthContext.AuthProvider.Restore | community-platform/src/context/AuthContext.js:9-16 | the session becomes the restored one when 'user' parses, and is unchanged when it does not |
| AuthContext.AuthProvider.Login | community-platform/src/context/AuthContext.js:18-22 | the session becomes the given record and exactly that record is stored under 'user' |
| AuthContext.AuthProvider.Logout | community-platform/src/context/AuthContext.js:24-27 | the session is cleared and only 'user' is removed |
| AuthContext.LoginThenRestore | community-platform/src/context/AuthContext.js:9-22 | after login, a reload restores exactly the logged-in record |
| AuthContext.LogoutThenRestore | community-platform/src/context/AuthContext.js:9-27 | after logout, a reload keeps no session |
| ThemeContext.ThemeProvider.constructor | community-platform/src/context/ThemeContext.js:6-7 | light mode and font size 16 |
| ThemeContext.ThemeProvider.ToggleDarkMode | community-platform/src/context/ThemeContext.js:9-11 | dark mode is negated and the font size is kept |
| ThemeContext.ThemeProvider.ChangeFontSize | community-platform/src/context/ThemeContext.js:13-15 | the font size is set and dark mode is kept |
| ThemeContext.ToggleTwiceRestores | community-platform/src/context/ThemeContext.js:9-11 | two toggles restore the theme |
| ThemeContext.UseTheme | community-platform/src/context/ThemeContext.js:24-29 | fails, with the source's message, exactly outside a provider, and otherwise gives the provider |
| LanguageContext.TableFor | community-platform/src/context/LanguageContext.js:100 | "fr" selects the French table and every other code the English one |
| LanguageContext.TablesHaveSameKeys | community-platform/src/context/LanguageContext.js:3-94 | both tables translate the same key paths, and every text is non-empty |
| LanguageContext.EveryLanguageResolvesEnglishKeys | community-platform/src/context/LanguageContext.js:3-100 | every key path of the English table resolves in whatever language is selected |
| LanguageContext.DeclaredLanguagesAreNotCodes | community-platform/src/context/LanguageContext.js:99-100 | neither code the pages use names a declared language, and a declared language name used as a code selects the English table |
| LanguageContext.LanguageProvider.constructor | community-platform/src/context/LanguageContext.js:99 | the provider starts in English |
| LanguageContext.LanguageProvider.T | community-platform/src/context/LanguageContext.js:100 | the provided table is the one for the current language |
| LanguageContext.LanguageProvider.SetLanguage | community-platform/src/context/LanguageContext.js:99-103 | any code becomes the current language |
| LanguageContext.UseLanguage | community-platform/src/context/LanguageContext.js:109-114 | fails, with the source's message, exactly outside a provider |
| Navbar.NextLanguage | community-platform/src/components/Navbar.js:20 | the result is French exactly when the current code is English |
| Navbar.NextLanguageCycles | community-platform/src/components/Navbar.js:19-24 | applying the toggle twice gives English from English and French from anything else; on {en, fr} it is an involution |
| Navbar.ToggleLabel | community-platform/src/components/Navbar.js:73 | the dropdown entry names the language it switches to: "Français" when the current code is English, "English" otherwise |
| Navbar.IsHidden | community-platform/src/components/Navbar.js:15-17 | the navbar is hidden only on the login page, which no nav item leads to |
| Navbar.IsActive | community-platform/src/components/Navbar.js:47-49 | an item is active when the current path is its target |
| Navbar.NavItemsActive | community-platform/src/components/Navbar.js:47-49 | some item is active exactly when the current path is one of the nav targets, at most one item is active, and none on the hidden login page |
| Navbar.NavbarState.constructor | community-platform/src/components/Navbar.js:8-9 | the menu and the dropdown start closed |
| Navbar.NavbarState.ToggleLanguageDropdown | community-platform/src/components/Navbar.js:54 | only the dropdown flag is negated |
| Navbar.NavbarState.ToggleMobileMenu | community-platform/src/components/Navbar.js:84 | only the menu flag is negated |
| Navbar.NavbarState.ToggleLanguage | community-platform/src/components/Navbar.js:19-24 | the provider switches to the next language, only 'languagePreference' is written, with that code, and the dropdown closes |
| Navbar.NavbarState.CloseMobileMenu | community-platform/src/components/Navbar.js:26-28 | the menu closes and the dropdown is kept |
| Navbar.BrandKeyMissing | community-platform/src/components/Navbar.js:41 | the key the brand reads is in no table, while the brand text's own key is in every one |
| LoginPage.SeededItems | community-platform/src/pages/LoginPage.js:40-45 | a missing or empty 'users' becomes the two default users; anything else is left as it was |
| LoginPage.UsersForLogin | community-platform/src/pages/LoginPage.js:53 | stored null falls back to the default users; a stored list is used as is; malformed text or a non-list fails |
| LoginPage.Authenticate | community-platform/src/pages/LoginPage.js:54-56 | a session is issued exactly when the first user with that username has that password, and it is that user's safe record |
| LoginPage.LaterDuplicateIgnored | community-platform/src/pages/LoginPage.js:54 | a later user with the same username can never log in, whatever password is given |
| LoginPage.SessionOmitsPassword | community-platform/src/pages/LoginPage.js:58-63 | an issued session carries the user's username, email, id and first role, taken from a stored user with the given password |
| LoginPage.AttemptLogin | community-platform/src/pages/LoginPage.js:47-72 | an unreadable user list is a login error; otherwise the outcome is a login exactly when the credentials authenticate |
| LoginPage.DefaultAdminLogsIn | community-platform/src/pages/LoginPage.js:6-21 | with no stored user list, admin/admin123 logs in as admin with numeric id 1 |
| LoginPage.SafeUserData | community-platform/src/pages/LoginPage.js:58-63 | the session record carries the user's username, email and id, and the first role exactly when the user has one; it has no password field |
| LoginPage.ErrorMessage | community-platform/src/pages/LoginPage.js:67-72 | the message is empty exactly after a login, and is the invalid-credentials text exactly after bad credentials and is the login-error text after an error |
| LoginPage.DefaultRolesAreNotDeclaredRoles | community-platform/src/pages/LoginPage.js:6-21 | each default user has a first role, and none of those roles is a name the data model declares |
| LoginPage.RedirectTarget | community-platform/src/pages/LoginPage.js:33-38 | only a logged-in visitor is redirected: to the given origin, or home when it is missing or empty |
| LoginPage.LoginPage.constructor | community-platform/src/pages/LoginPage.js:25-28 | empty fields, no error, not loading |
| LoginPage.LoginPage.SeedDefaultUsers | community-platform/src/pages/LoginPage.js:40-45 | storage becomes the seeded items |
| LoginPage.LoginPage.HandleLogin | community-platform/src/pages/LoginPage.js:47-76 | loading ends off; on success the session is stored and the page goes home; otherwise the matching message is shown and nothing else changes |
| SetPasswordPage.Contains | community-platform/src/pages/SetPasswordPage.js:217-220 | true exactly when some character of the text is in the class |
| SetPasswordPage.ValidatePassword | community-platform/src/pages/SetPasswordPage.js:214-223 | valid exactly when at least 8 characters long with an upper-case letter, a lower-case letter, a digit and one of the eight listed specials |
| SetPasswordPage.OnlyListedSpecials | community-platform/src/pages/SetPasswordPage.js:220 | a password with no listed special is rejected, whatever else it holds |
| SetPasswordPage.ExampleSpecials | community-platform/src/pages/SetPasswordPage.js:214-223 | "Abcdefg1!" is accepted and "Abcdefg1-" is rejected |
| SetPasswordPage.WithPassword | community-platform/src/pages/SetPasswordPage.js:249-254 | same length; each matching record gets the new password with every other field kept; other records are unchanged |
| SetPasswordPage.UsersForChange | community-platform/src/pages/SetPasswordPage.js:228 | falsy text reads as the empty list; a stored list is used as is; null, malformed text or a non-list fails |
| SetPasswordPage.ChangePassword | community-platform/src/pages/SetPasswordPage.js:225-256 | unreadable users crash; the guards fire in order (wrong current password or no matching user, mismatch, requirements); only then is the list rewritten |
| SetPasswordPage.ChangeRewritesOnlyLoggedInUser | community-platform/src/pages/SetPasswordPage.js:236-256 | after a change, only records with the logged-in id carry the new password; all others are untouched |
| SetPasswordPage.MissingUsersRejected | community-platform/src/pages/SetPasswordPage.js:228-234 | with no stored user list the change is rejected as an invalid current password |
| SetPasswordPage.NumericIdsNeverMatch | community-platform/src/pages/SetPasswordPage.js:227-234 | users whose ids are numbers, as the default users' are, can never change their password |
| SetPasswordPage.SetPasswordPage.constructor | community-platform/src/pages/SetPasswordPage.js:206-210 | empty fields, no alert, not loading |
| SetPasswordPage.SetPasswordPage.SubmitEnabled | community-platform/src/pages/SetPasswordPage.js:320 | submit is enabled exactly when not loading and all three fields are filled |
| SetPasswordPage.SetPasswordPage.HandleSubmit | community-platform/src/pages/SetPasswordPage.js:225-268 | a rejection sets only the alert; a change stores the rewritten list, reports success, ends with loading off and goes to settings; a crash changes nothing |
| ProfileStore.ReadProfiles | community-platform/src/pages/ProfileCustomizationPage.js:442 | a missing or null map reads as empty; a stored map is used as is; anything else fails |
| ProfileStore.HasEmail | community-platform/src/pages/ProfileCustomizationPage.js:380 | a session passes the email guard only when it exists and its email is non-empty |
| ProfileStore.LoadedProfile | community-platform/src/pages/ProfileCustomizationPage.js:379-396 | without a session email the form is kept; with one, the stored profile is shown, or the form with the session's email and username |
| ProfileStore.Upserted | community-platform/src/pages/ProfileCustomizationPage.js:443-446 | the email key maps to the data stamped with the time; every other key is unchanged |
| ProfileStore.SaveProfile | community-platform/src/pages/ProfileCustomizationPage.js:438-449 | nothing is saved without a session email; an unreadable map crashes; otherwise the map with the entry upserted |
| ProfileStore.SaveThenLoad | community-platform/src/pages/ProfileCustomizationPage.js:379-449 | after a save, loading shows the saved form with its new timestamp |
| ProfileStore.KeyIsSessionEmail | community-platform/src/pages/ProfileCustomizationPage.js:443 | when the edited email differs from the session's, the entry still lands under the session email holding the edited email, and every other email's profile is kept as it was |
| ProfileCustomizationPage.Without | community-platform/src/pages/ProfileCustomizationPage.js:434 | the value no longer occurs; every other element keeps its count; the list gets no longer |
| ProfileCustomizationPage.WithoutDistributes | community-platform/src/pages/ProfileCustomizationPage.js:434 | filtering a concatenation filters each part, so the order is kept |
| ProfileCustomizationPage.WithoutAbsent | community-platform/src/pages/ProfileCustomizationPage.js:431-436 | removing an absent value changes nothing |
| ProfileCustomizationPage.WithoutIdempotent | community-platform/src/pages/ProfileCustomizationPage.js:431-436 | removing twice is removing once |
| ProfileCustomizationPage.WithoutKeepsNoDuplicates | community-platform/src/pages/ProfileCustomizationPage.js:417-421 | removal keeps a list free of duplicates |
| ProfileCustomizationPage.Toggled | community-platform/src/pages/ProfileCustomizationPage.js:414-429 | a present value is removed everywhere, the other tags keeping their counts and their order; an absent one is appended at the end |
| ProfileCustomizationPage.ToggleTwiceRestores | community-platform/src/pages/ProfileCustomizationPage.js:414-429 | toggling a value absent from the list twice restores the list |
| ProfileCustomizationPage.ToggleKeepsNoDuplicates | community-platform/src/pages/ProfileCustomizationPage.js:414-429 | toggling keeps a list free of duplicates |
| ProfileCustomizationPage.WithText | community-platform/src/pages/ProfileCustomizationPage.js:398-401 | the named text field takes the value; every other field is unchanged |
| ProfileCustomizationPage.WithTags | community-platform/src/pages/ProfileCustomizationPage.js:414-436 | the named tag list takes the items; every other field is unchanged |
| ProfileCustomizationPage.ProfileCustomizationPage.constructor | community-platform/src/pages/ProfileCustomizationPage.js:363-371 | the initial form: empty texts and lists, placeholder picture |
| ProfileCustomizationPage.ProfileCustomizationPage.Load | community-platform/src/pages/ProfileCustomizationPage.js:379-396 | the form becomes the loaded profile; an unreadable map changes nothing |
| ProfileCustomizationPage.ProfileCustomizationPage.HandleInputChange | community-platform/src/pages/ProfileCustomizationPage.js:398-401 | only the named field changes |
| ProfileCustomizationPage.ProfileCustomizationPage.HandleProfilePictureChange | community-platform/src/pages/ProfileCustomizationPage.js:403-412 | with a file only the picture changes, to its data URL; without one nothing changes |
| ProfileCustomizationPage.ProfileCustomizationPage.HandleTagToggle | community-platform/src/pages/ProfileCustomizationPage.js:414-429 | the named list is toggled; nothing else changes |
| ProfileCustomizationPage.ProfileCustomizationPage.HandleTagRemove | community-platform/src/pages/ProfileCustomizationPage.js:431-436 | the value is removed from the named list; nothing else changes |
| ProfileCustomizationPage.ProfileCustomizationPage.HandleSubmit | community-platform/src/pages/ProfileCustomizationPage.js:438-449 | storage changes exactly when the profile map is saved, and only its key |
| ProfilePage.WithPicture | community-platform/src/pages/ProfilePage.js:299-302 | only the picture changes |
| ProfilePage.PictureChangeStored | community-platform/src/pages/ProfilePage.js:294-311 | a picture change stores the shown profile with the new picture under the session email, and leaves every other email's profile unchanged |
| ProfilePage.ProfilePage.constructor | community-platform/src/pages/ProfilePage.js:253-262 | the initial profile, joined "January 2024" |
| ProfilePage.ProfilePage.Load | community-platform/src/pages/ProfilePage.js:264-283 | the shown profile becomes the loaded one; a read error is swallowed and changes nothing |
| ProfilePage.ProfilePage.HandleEditProfile | community-platform/src/pages/ProfilePage.js:285-287 | goes to the customization page |
| ProfilePage.ProfilePage.HandleLogout | community-platform/src/pages/ProfilePage.js:289-292 | the session ends, only 'user' is removed, and the page goes to login |
| ProfilePage.ProfilePage.HandleProfilePictureChange | community-platform/src/pages/ProfilePage.js:294-315 | with a file and a session email, the map is saved with the new picture and shown; otherwise nothing changes |
| SettingsPage.SettingsDetermined | community-platform/src/pages/SettingsPage.js:217-232 | two settings with equal values under every key are equal, so the keys cover the whole form |
| SettingsPage.WithSetting | community-platform/src/pages/SettingsPage.js:276-283 | the changed key reads the new value; every other key reads its old value |
| SettingsPage.InitialSettings | community-platform/src/pages/SettingsPage.js:217-232 | empty account fields; dark or light theme from the theme context; the context language, or "en" when it is empty; medium font; visible and online |
| SettingsPage.ToLower | community-platform/src/pages/SettingsPage.js:252 | same length; each character is lowercased |
| SettingsPage.ThemeSetting | community-platform/src/pages/SettingsPage.js:252 | a missing or empty theme gives "light"; otherwise the lowercased theme |
| SettingsPage.SettingsFromUser | community-platform/src/pages/SettingsPage.js:244-260 | username and email (or empty), password always empty; preferences and privacy from the profile, each missing or empty text at its default and each missing privacy flag true (a stored false stays false) |
| SettingsPage.BrightThemeDrift | community-platform/src/pages/SettingsPage.js:252 | a user with the data model's "Bright" theme loads as "bright", which is neither the page's "light" nor "dark" |
| SettingsPage.LoadSettings | community-platform/src/pages/SettingsPage.js:237-269 | a missing, null, malformed or non-list user list is an error; a matching user replaces the form; otherwise the form is kept |
| SettingsPage.SavedDisplayTheme | community-platform/src/pages/SettingsPage.js:313 | "Dark" exactly for "dark", else "Light"; the result is a declared display theme exactly for "dark" |
| SettingsPage.SavedUser | community-platform/src/pages/SettingsPage.js:306-323 | fails exactly when the record has no profile; otherwise it takes the form's username, email, preferences and privacy flags, stamped now, and keeps the password, roles, id, other profile fields and blocked users |
| SettingsPage.SaveSettings | community-platform/src/pages/SettingsPage.js:300-328 | an unreadable list or a record without profile fails; no match saves nothing; otherwise only the first matching record is rewritten |
| SettingsPage.SaveThenLoad | community-platform/src/pages/SettingsPage.js:244-323 | a saved record loads back the saved form, with the password field emptied and the theme as the page writes it, lowercased |
| SettingsPage.SettingsPage.constructor | community-platform/src/pages/SettingsPage.js:217-235 | the initial settings from the contexts, no alert, not loading |
| SettingsPage.SettingsPage.LoadUserSettings | community-platform/src/pages/SettingsPage.js:237-269 | the form becomes the loaded settings, or an error alert is shown |
| SettingsPage.SettingsPage.HandleSettingChange | community-platform/src/pages/SettingsPage.js:276-294 | the setting changes; a theme change toggles dark mode once; a language change sets the language and writes only 'languagePreference' |
| SettingsPage.SettingsPage.HandleSubmit | community-platform/src/pages/SettingsPage.js:296-335 | storage changes only on a save; success or error alert accordingly; loading always ends off |

## Left out

- Rendering, styled components, icons, modals and the route table: they have no state the handlers depend on.
- `App.js`, `index.js`, `LoginModal.js`, `HomePage.js`, `MyContext.js` and `ProtectedRoute.js` are not part of this model.
- The legacy login screen, the two-factor step and other routes not in the pages above are not part of this model.
- JSON text: serialisation is the value itself, and a stored text is only "null", some other text, or a value the pages wrote. Every other raw text counts as malformed, although the browser's parser accepts texts such as "[]", "0" or "true".
- A stored value of the wrong shape for its key (a user list under 'userProfiles', say) counts as a parse failure. The source does not always throw there:
  - the auth provider sets any parsed value as the user;
  - the profile pages index an array or a session object by email, get undefined, and fall back to the defaults;
  - a profile save onto an array is silently dropped when the array is serialised again.
  These behaviours are not modelled.
- FileReader, timers, dates and navigation are inputs or outputs. The data URL is a parameter (None when no file is chosen), the ISO timestamp is a parameter `now`, the timeouts that clear alerts or delay navigation are not modelled, and a navigation is a returned path.
- Alerts and error messages are modelled by kind, not by their translated text. The exceptions are the two login messages and the context errors, which are stated literally.
- Storage quota errors from setItem are not modelled. So the error alert inside the try block of the set-password submit is unreachable in the model.
- React's batching of state updates and re-rendering order are not modelled. Each handler applies its updates in one step.
- Concurrency between tabs sharing storage is not modelled.
- Debug and error logging to the console (AuthContext.js:11-21, LoginPage.js:71, ProfilePage.js:280, SettingsPage.js:263 and 330) is not modelled; it changes no state.
- LanguageContext.TableFor: a code that names a built-in object property ("constructor", "toString", "__proto__") would select a truthy non-table in the source, and the pages would then fail on their first lookup; the model gives the English table for every code other than "fr". The pages themselves only ever set "en" or "fr".
- SettingsPage.ToLower: lowercases ASCII letters only. JavaScript's toLowerCase also folds other Unicode letters.
- SetPasswordPage.ValidatePassword: length counts characters, while JavaScript counts UTF-16 code units, so characters outside the basic plane count once instead of twice.
- SettingsPage.SettingsPage.HandleSettingChange: takes one of the eight settings the form shows, with a value of the matching type (`Fits`). The source accepts any category/setting pair.
- ThemeContext.ThemeProvider.ChangeFontSize: takes an integer; the source stores whatever value it is given.
- LoginPage.RedirectTarget: the origin is an optional string; the source's location state may hold any value.
- DataModels.NewProfile: only `undefined` selects a default; passing null (which the source stores as null) is not modelled.
- User records always have a username, email, password and roles list in the model. Records lacking them are not modelled: the settings page would show empty fields, and login would throw on the first role of a record without roles.
- useAuth is a bare context read in the source, with no provider check; it is not modelled separately from AuthContext.AuthProvider.

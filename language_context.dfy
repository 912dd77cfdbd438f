/**
 * LanguageContext.js: the current language code and the translation table `t`
 * derived from it. A nested translation object is flattened into a map from key
 * paths (`["account", "title"]` for `t.account.title`) to texts.
 */
module LanguageContext {
  import opened Wrappers
  import DataModels

  type Table = map<seq<string>, string>

  /** The English table. */
  const English: Table := map[
    ["communityEngagementPlatform"] := "Community Engagement Platform",
    ["home"] := "Home",
    ["profile"] := "Profile",
    ["settings"] := "Settings",
    ["settingsTitle"] := "Settings",
    ["account", "title"] := "Account Settings",
    ["account", "username"] := "Username",
    ["account", "email"] := "Email",
    ["account", "password"] := "Password",
    ["preferences", "title"] := "Preferences",
    ["preferences", "theme"] := "Display Theme",
    ["preferences", "themes", "light"] := "Light",
    ["preferences", "themes", "dark"] := "Dark",
    ["preferences", "language"] := "Language",
    ["preferences", "languages", "english"] := "English",
    ["preferences", "languages", "french"] := "French",
    ["preferences", "fontSize"] := "Font Size",
    ["preferences", "fontSizes", "small"] := "Small",
    ["preferences", "fontSizes", "medium"] := "Medium",
    ["preferences", "fontSizes", "large"] := "Large",
    ["privacy", "title"] := "Privacy",
    ["privacy", "profileVisibility"] := "Profile Visibility",
    ["privacy", "onlineStatus"] := "Online Status",
    ["buttons", "save"] := "Save Changes",
    ["buttons", "goToProfile"] := "View Profile",
    ["alerts", "success"] := "Settings updated successfully!",
    ["alerts", "error"] := "An error occurred while saving settings."
  ]

  /** The French table. */
  const French: Table := map[
    ["communityEngagementPlatform"] := "Plateforme d'engagement communautaire",
    ["home"] := "Accueil",
    ["profile"] := "Profil",
    ["settings"] := "Paramètres",
    ["settingsTitle"] := "Paramètres",
    ["account", "title"] := "Paramètres du compte",
    ["account", "username"] := "Nom d'utilisateur",
    ["account", "email"] := "Email",
    ["account", "password"] := "Mot de passe",
    ["preferences", "title"] := "Préférences",
    ["preferences", "theme"] := "Thème d'affichage",
    ["preferences", "themes", "light"] := "Clair",
    ["preferences", "themes", "dark"] := "Sombre",
    ["preferences", "language"] := "Langue",
    ["preferences", "languages", "english"] := "Anglais",
    ["preferences", "languages", "french"] := "Français",
    ["preferences", "fontSize"] := "Taille de police",
    ["preferences", "fontSizes", "small"] := "Petit",
    ["preferences", "fontSizes", "medium"] := "Moyen",
    ["preferences", "fontSizes", "large"] := "Grand",
    ["privacy", "title"] := "Confidentialité",
    ["privacy", "profileVisibility"] := "Visibilité du profil",
    ["privacy", "onlineStatus"] := "Statut en ligne",
    ["buttons", "save"] := "Sauvegarder les modifications",
    ["buttons", "goToProfile"] := "Voir le profil",
    ["alerts", "success"] := "Paramètres mis à jour avec succès!",
    ["alerts", "error"] := "Une erreur est survenue lors de la sauvegarde des paramètres."
  ]

  /** The table of a language code; codes without a table fall back to English. */
  function TableFor(language: string): (t: Table)
    ensures language == "fr" ==> t == French
    ensures language != "fr" ==> t == English
  {
    if language == "en" then English
    else if language == "fr" then French
    else English
  }

  /** The two tables have the same nested key structure, and every text is non-empty. */
  lemma {:induction false} TablesHaveSameKeys()
    ensures English.Keys == French.Keys
    ensures forall k :: k in English ==> English[k] != ""
    ensures forall k :: k in French ==> French[k] != ""
  {
  }

  /** So a key path found in English resolves, whatever the language code. */
  lemma {:induction false} EveryLanguageResolvesEnglishKeys(language: string, path: seq<string>)
    requires path in English
    ensures path in TableFor(language)
  {
    TablesHaveSameKeys();
  }

  /**
   * The pages keep language codes ("en", "fr"), while the data model declares the
   * names "English" and "French": no code is a declared language, and a declared
   * name used as a code shows the English table.
   */
  lemma {:induction false} DeclaredLanguagesAreNotCodes(l: DataModels.Language)
    ensures DataModels.LanguageNamed("en").None? && DataModels.LanguageNamed("fr").None?
    ensures TableFor(DataModels.LanguageName(l)) == English
  {
  }

  class LanguageProvider {
    var language: string

    /** The provider starts in English. */
    constructor()
      ensures language == "en"
    {
      language := "en";
    }

    /** The provided `t`. */
    function T(): (t: Table)
      reads this
      ensures t == TableFor(language)
    {
      TableFor(language)
    }

    /** setLanguage: any code is accepted; an unknown one shows the English table. */
    method SetLanguage(l: string)
      modifies this
      ensures language == l
    {
      language := l;
    }
  }

  /** useLanguage: the provider's value, or the error thrown outside a provider. */
  function UseLanguage(context: Option<LanguageProvider>): (r: Result<LanguageProvider, string>)
    ensures r.Err? <==> context.None?
    ensures r.Ok? ==> r.value == context.value
    ensures r.Err? ==> r.error == "useLanguage must be used within a LanguageProvider"
  {
    match context
    case Some(p) => Ok(p)
    case None => Err("useLanguage must be used within a LanguageProvider")
  }
}

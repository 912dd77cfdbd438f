/** Navbar.js: the language toggle, the mobile menu and language dropdown cells, and the path predicates. */
module Navbar {
  import opened Storage
  import opened LanguageContext

  /** The navbar renders nothing on the login page. */
  predicate IsHidden(pathname: string)
    ensures IsHidden(pathname) ==> pathname !in NavTargets
  {
    pathname == "/login"
  }

  /** A nav item is highlighted exactly when the current path is its target. */
  predicate IsActive(pathname: string, target: string) {
    pathname == target
  }

  /** The code the toggle switches to: English goes to French, any other code to English. */
  function NextLanguage(language: string): (r: string)
    ensures r == "fr" <==> language == "en"
    ensures r == "en" <==> language != "en"
  {
    if language == "en" then "fr" else "en"
  }

  /** Two toggles come back to "en" from "en" and reach "fr" from any other code; on "en" and "fr" toggling is an involution. */
  lemma {:induction false} NextLanguageCycles(language: string)
    ensures NextLanguage(NextLanguage(language)) == (if language == "en" then "en" else "fr")
    ensures language in {"en", "fr"} ==> NextLanguage(NextLanguage(language)) == language
  {
  }

  /** The label of the toggle button, in the language it switches to. */
  function ToggleLabel(language: string): (r: string)
    ensures r == (if NextLanguage(language) == "fr" then "Français" else "English")
  {
    if language == "en" then "Français" else "English"
  }

  /** The nav items of the desktop and the mobile menu, with their targets. */
  const NavTargets: seq<string> := ["/", "/profile", "/settings"]

  /**
   * An item is active exactly on its own path, so at most one item is active at a
   * time; on the login page, where the navbar is hidden, none would be.
   */
  lemma {:induction false} NavItemsActive(pathname: string)
    ensures (exists i :: 0 <= i < |NavTargets| && IsActive(pathname, NavTargets[i])) <==> pathname in NavTargets
    ensures forall i, j :: 0 <= i < j < |NavTargets| ==> !(IsActive(pathname, NavTargets[i]) && IsActive(pathname, NavTargets[j]))
    ensures IsHidden(pathname) ==> forall i :: 0 <= i < |NavTargets| ==> !IsActive(pathname, NavTargets[i])
  {
  }

  class NavbarState {
    var isMobileMenuOpen: bool
    var isLanguageDropdownOpen: bool

    constructor()
      ensures !isMobileMenuOpen && !isLanguageDropdownOpen
    {
      isMobileMenuOpen := false;
      isLanguageDropdownOpen := false;
    }

    /** The globe button: opens or closes the language dropdown. */
    method ToggleLanguageDropdown()
      modifies this
      ensures isLanguageDropdownOpen == !old(isLanguageDropdownOpen)
      ensures isMobileMenuOpen == old(isMobileMenuOpen)
    {
      isLanguageDropdownOpen := !isLanguageDropdownOpen;
    }

    /** The menu button: opens or closes the mobile menu. */
    method ToggleMobileMenu()
      modifies this
      ensures isMobileMenuOpen == !old(isMobileMenuOpen)
      ensures isLanguageDropdownOpen == old(isLanguageDropdownOpen)
    {
      isMobileMenuOpen := !isMobileMenuOpen;
    }

    /** toggleLanguage: switches en/fr, persists the new code, closes the dropdown. */
    method ToggleLanguage(lang: LanguageProvider, storage: LocalStorage)
      modifies this, lang, storage
      ensures lang.language == NextLanguage(old(lang.language))
      ensures storage.items == old(storage.items)[LanguageKey := Raw(lang.language)]
      ensures !isLanguageDropdownOpen && isMobileMenuOpen == old(isMobileMenuOpen)
    {
      var newLang := NextLanguage(lang.language);
      lang.SetLanguage(newLang);
      storage.SetItem(LanguageKey, Raw(newLang));
      isLanguageDropdownOpen := false;
    }

    /** closeMobileMenu, run when any nav item is clicked. */
    method CloseMobileMenu()
      modifies this
      ensures !isMobileMenuOpen && isLanguageDropdownOpen == old(isLanguageDropdownOpen)
    {
      isMobileMenuOpen := false;
    }
  }

  /**
   * The brand reads `t?.platform`, a key neither table has (the tables call it
   * communityEngagementPlatform), so the brand is blank in every language.
   */
  lemma {:induction false} BrandKeyMissing(language: string)
    ensures ["platform"] !in TableFor(language)
    ensures ["communityEngagementPlatform"] in TableFor(language)
  {
    TablesHaveSameKeys();
    assert English[["communityEngagementPlatform"]] == "Community Engagement Platform";
  }
}

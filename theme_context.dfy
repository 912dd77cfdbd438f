/** ThemeContext.js: the dark-mode and font-size cells shared by every page. */
module ThemeContext {
  import opened Wrappers

  class ThemeProvider {
    var darkMode: bool
    var fontSize: int

    /** Initial state: light mode, font size 16. */
    constructor()
      ensures !darkMode && fontSize == 16
    {
      darkMode := false;
      fontSize := 16;
    }

    /** toggleDarkMode: negates darkMode and leaves the font size alone. */
    method ToggleDarkMode()
      modifies this
      ensures darkMode == !old(darkMode) && fontSize == old(fontSize)
    {
      darkMode := !darkMode;
    }

    /** changeFontSize: sets the font size exactly and leaves darkMode alone. */
    method ChangeFontSize(size: int)
      modifies this
      ensures fontSize == size && darkMode == old(darkMode)
    {
      fontSize := size;
    }
  }

  /** Two toggles restore the state a component saw before them. */
  method ToggleTwiceRestores(t: ThemeProvider)
    modifies t
    ensures t.darkMode == old(t.darkMode) && t.fontSize == old(t.fontSize)
  {
    t.ToggleDarkMode();
    t.ToggleDarkMode();
  }

  /** useTheme: the provider's value, or the error thrown outside a provider. */
  function UseTheme(context: Option<ThemeProvider>): (r: Result<ThemeProvider, string>)
    ensures r.Err? <==> context.None?
    ensures r.Ok? ==> r.value == context.value
    ensures r.Err? ==> r.error == "useTheme must be used within a ThemeProvider"
  {
    match context
    case Some(p) => Ok(p)
    case None => Err("useTheme must be used within a ThemeProvider")
  }
}

/**
 * The `theme` slice: the chosen theme and whether the page is dark. The browser is an
 * input: whether a window exists, and the system colour-scheme preference. The saved
 * theme entry and the `dark` class on the root element are fields the slice writes.
 */
module ThemeSlice {
  import opened Wrappers

  datatype Theme = Light | Dark | System {
    /** The stored string. */
    function Name(): string {
      match this
      case Light => "light"
      case Dark => "dark"
      case System => "system"
    }
  }

  /** The browser as the slice sees it at the moment of a call. */
  datatype Env = Env(hasWindow: bool, prefersDark: bool)

  /** `getSystemTheme()`: the media query's answer, or dark when there is no window. */
  function SystemPrefersDark(env: Env): (b: bool)
    ensures !env.hasWindow ==> b
    ensures env.hasWindow ==> b == env.prefersDark
  {
    if env.hasWindow then env.prefersDark else true
  }

  /** The theme a stored string names, if it is one of the three. */
  function ThemeNamed(s: string): (t: Option<Theme>)
    ensures t.Some? ==> t.value.Name() == s
    ensures t.None? ==> s !in {"light", "dark", "system"}
  {
    if s == "light" then Some(Light)
    else if s == "dark" then Some(Dark)
    else if s == "system" then Some(System)
    else None
  }

  /** `getInitialTheme()`: the saved value when it names a theme, else dark. */
  function InitialTheme(env: Env, saved: Option<string>): (t: Theme)
    ensures env.hasWindow && saved.Some? && ThemeNamed(saved.value).Some? ==> t == ThemeNamed(saved.value).value
    ensures !env.hasWindow || saved.None? || ThemeNamed(saved.value).None? ==> t == Dark
  {
    if env.hasWindow && saved.Some? && ThemeNamed(saved.value).Some? then ThemeNamed(saved.value).value
    else Dark
  }

  /** `getIsDark(theme)`. */
  function IsDark(env: Env, t: Theme): (b: bool)
    ensures t == Dark ==> b
    ensures t == Light ==> !b
    ensures t == System ==> b == SystemPrefersDark(env)
  {
    match t
    case Dark => true
    case Light => false
    case System => SystemPrefersDark(env)
  }

  /** The theme `toggleTheme` moves to: light goes to dark, dark and system go to light. */
  function Toggled(t: Theme): (r: Theme)
    ensures t == Light <==> r == Dark
    ensures r != System
  {
    if t == Light then Dark else Light
  }

  /** A theme saved by `setTheme` or `toggleTheme` is the one the next start-up reads back. */
  lemma SavedThemeIsRestored(env: Env, t: Theme)
    requires env.hasWindow
    ensures InitialTheme(env, Some(t.Name())) == t
  {
    assert ThemeNamed(t.Name()) == Some(t);
  }

  /** Toggling twice returns to the start exactly when the start was not `system`. */
  lemma ToggleTwice(t: Theme)
    ensures Toggled(Toggled(t)) == t <==> t != System
  {
  }

  /** The slice state with the two browser-side slots it writes. */
  class ThemeStore {
    var theme: Theme
    var isDark: bool
    /** The saved theme entry in local storage. */
    var saved: Option<string>
    /** Whether the root element carries the `dark` class. */
    var htmlDark: bool

    /** The module's start-up: the initial state, applied to the page when there is a window. */
    constructor (env: Env, saved: Option<string>, htmlDarkBefore: bool)
      ensures theme == InitialTheme(env, saved)
      ensures isDark == IsDark(env, theme)
      ensures this.saved == saved
      ensures htmlDark == (if env.hasWindow then isDark else htmlDarkBefore)
    {
      theme := InitialTheme(env, saved);
      isDark := IsDark(env, InitialTheme(env, saved));
      this.saved := saved;
      htmlDark := if env.hasWindow then IsDark(env, InitialTheme(env, saved)) else htmlDarkBefore;
    }

    /** `setTheme(t)`: the state follows `t`; with a window, `t` is saved and applied. */
    method SetTheme(env: Env, t: Theme)
      modifies this
      ensures theme == t && isDark == IsDark(env, t)
      ensures env.hasWindow ==> saved == Some(t.Name()) && htmlDark == isDark
      ensures !env.hasWindow ==> saved == old(saved) && htmlDark == old(htmlDark)
    {
      theme := t;
      isDark := IsDark(env, t);
      if env.hasWindow {
        saved := Some(t.Name());
        htmlDark := isDark;
      }
    }

    /** `toggleTheme()`. */
    method ToggleTheme(env: Env)
      modifies this
      ensures theme == Toggled(old(theme)) && isDark == IsDark(env, theme)
      ensures isDark <==> old(theme) == Light
      ensures env.hasWindow ==> saved == Some(theme.Name()) && htmlDark == isDark
      ensures !env.hasWindow ==> saved == old(saved) && htmlDark == old(htmlDark)
    {
      var newTheme := if theme == Light then Dark else Light;
      theme := newTheme;
      isDark := IsDark(env, newTheme);
      if env.hasWindow {
        saved := Some(newTheme.Name());
        htmlDark := isDark;
      }
    }

    /** `initializeTheme()`: re-applies `isDark` to the page; the state is unchanged. */
    method InitializeTheme(env: Env)
      modifies this
      ensures theme == old(theme) && isDark == old(isDark) && saved == old(saved)
      ensures htmlDark == (if env.hasWindow then isDark else old(htmlDark))
    {
      if env.hasWindow {
        htmlDark := isDark;
      }
    }
  }
}

// The theme store of src/lib/stores/theme.svelte.js. The cookie it writes
// is left out, and the browser's colour-scheme preference is a parameter.

module Theme {
  import opened Wrappers

  /** The theme toggleTheme switches to. */
  function Toggled(theme: string): (r: string)
    ensures r == "dark" <==> theme == "light"
    ensures r == "light" || r == "dark"
  {
    if theme == "light" then "dark" else "light"
  }

  /** Toggling twice from light or dark comes back to it. */
  lemma ToggleTwice(theme: string)
    requires theme == "light" || theme == "dark"
    ensures Toggled(Toggled(theme)) == theme
  {
  }

  /**
   * The theme initTheme settles on. `cookie` is None for null; `prefersDark`
   * is None when there is no window, else whether the browser prefers dark.
   */
  function InitialTheme(current: string, cookie: Option<string>, prefersDark: Option<bool>): (r: string)
    ensures cookie == Some("light") || cookie == Some("dark") ==> r == cookie.value
    ensures !(cookie == Some("light") || cookie == Some("dark")) && prefersDark.None? ==> r == current
    ensures !(cookie == Some("light") || cookie == Some("dark")) && prefersDark.Some? ==>
              r == (if prefersDark.value then "dark" else "light")
  {
    if cookie == Some("light") || cookie == Some("dark") then cookie.value
    else if prefersDark.Some? then (if prefersDark.value then "dark" else "light")
    else current
  }

  class ThemeStore {
    var theme: string

    constructor()
      ensures theme == "light"
    {
      theme := "light";
    }

    method SetTheme(value: string)
      modifies this
      ensures theme == value
    {
      theme := value;
    }

    method ToggleTheme()
      modifies this
      ensures theme == Toggled(old(theme))
    {
      SetTheme(Toggled(theme));
    }

    method InitTheme(cookie: Option<string>, prefersDark: Option<bool>)
      modifies this
      ensures theme == InitialTheme(old(theme), cookie, prefersDark)
    {
      if cookie == Some("light") || cookie == Some("dark") {
        theme := cookie.value;
      } else if prefersDark.Some? {
        theme := if prefersDark.value then "dark" else "light";
      }
    }
  }
}

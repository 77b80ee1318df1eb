/** The theme provider: it starts light, restores the saved choice from the
    `"appTheme"` entry, and toggles between the light and dark themes,
    persisting `"dark"` or `"light"`. */
module ThemeContext {
  import opened Wrappers
  import opened Storage
  import opened Themes

  const ThemeKey := "appTheme"

  /** `theme.dark ? LightTheme : DarkTheme`. */
  function NextTheme(current: Theme): (next: Theme)
    ensures next.dark == !current.dark
    ensures next == LightTheme || next == DarkTheme
  {
    if current.dark then LightTheme else DarkTheme
  }

  /** `next.dark ? "dark" : "light"`. */
  function EncodeTheme(t: Theme): (s: string)
    ensures s == "dark" <==> t.dark
    ensures s == "dark" || s == "light"
  {
    if t.dark then "dark" else "light"
  }

  /** The restore rule: only a stored `"dark"` selects the dark theme. */
  function RestoredTheme(stored: Option<string>): (t: Theme)
    ensures t == DarkTheme <==> stored == Some("dark")
    ensures t == LightTheme <==> stored != Some("dark")
  {
    if stored == Some("dark") then DarkTheme else LightTheme
  }

  /** Restoring what a toggle persisted yields the theme the toggle chose. */
  lemma ToggleThenRestore(current: Theme)
    ensures RestoredTheme(Some(EncodeTheme(NextTheme(current)))) == NextTheme(current)
  {
  }

  /** Toggling twice returns to the light or the dark theme. */
  lemma ToggleTwice(current: Theme)
    requires current == LightTheme || current == DarkTheme
    ensures NextTheme(NextTheme(current)) == current
  {
  }

  class ThemeProvider {
    var theme: Theme
    const storage: Store<string>

    /** The provider only ever holds the light or the dark theme. */
    ghost predicate Valid()
      reads this
    {
      theme == LightTheme || theme == DarkTheme
    }

    constructor (storage: Store<string>)
      ensures Valid()
      ensures this.storage == storage
      ensures theme == LightTheme
    {
      this.storage := storage;
      theme := LightTheme;
    }

    /** The start-up effect. */
    method Restore()
      modifies this`theme
      ensures Valid()
      ensures theme == RestoredTheme(Lookup(storage.entries, ThemeKey))
    {
      var stored := storage.GetItem(ThemeKey);
      if stored == Some("dark") {
        theme := DarkTheme;
      } else {
        theme := LightTheme;
      }
    }

    /** `toggleTheme`: the other theme becomes current and its encoding is
        saved. */
    method ToggleTheme()
      modifies this`theme, storage
      ensures Valid()
      ensures theme == NextTheme(old(theme))
      ensures storage.entries == old(storage.entries)[ThemeKey := EncodeTheme(theme)]
    {
      var next := if theme.dark then LightTheme else DarkTheme;
      theme := next;
      storage.SetItem(ThemeKey, if next.dark then "dark" else "light");
    }
  }
}

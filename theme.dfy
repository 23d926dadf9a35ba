/**
 * The colour theme: a module-level current theme, mirrored into the
 * `data-theme` attribute of the document element and persisted in local
 * storage under `intuition-theme`.
 */
module Theme {
  import opened Wrappers

  const ThemeKey := "intuition-theme"
  const Dark := "dark"
  const Light := "light"

  /**
   * The system preference: dark exactly when `window.matchMedia` exists and
   * reports `prefers-color-scheme: dark`. `matchMedia` is None when the
   * browser has no `matchMedia`, else whether the dark query matches.
   */
  function SystemTheme(matchMedia: Option<bool>): (t: string)
    ensures t == Dark <==> matchMedia == Some(true)
    ensures t == Dark || t == Light
  {
    if matchMedia.Some? && matchMedia.value then Dark else Light
  }

  /** The theme `toggleTheme` switches to: light from dark, dark from anything else. */
  function Toggled(theme: string): (t: string)
    ensures t == Dark || t == Light
    ensures t == Light <==> theme == Dark
  {
    if theme == Dark then Light else Dark
  }

  /** Toggling twice restores dark or light; any other value ends at light. */
  lemma ToggleTwice(theme: string)
    ensures theme == Dark || theme == Light ==> Toggled(Toggled(theme)) == theme
    ensures theme != Dark && theme != Light ==> Toggled(Toggled(theme)) == Light
  {
  }

  /**
   * The theme `initTheme` applies: the stored value when it is non-empty,
   * taken as it is without checking it names a theme; the system theme otherwise.
   */
  function PreferredTheme(storage: map<string, string>, matchMedia: Option<bool>): (t: string)
    ensures t != ""
    ensures ThemeKey in storage && storage[ThemeKey] != "" ==> t == storage[ThemeKey]
    ensures !(ThemeKey in storage && storage[ThemeKey] != "") ==> t == SystemTheme(matchMedia)
  {
    if ThemeKey in storage && storage[ThemeKey] != "" then storage[ThemeKey] else SystemTheme(matchMedia)
  }

  /**
   * A theme that was set is the theme the next start-up applies, and applying
   * the preferred theme again changes nothing.
   */
  lemma PersistedThemeRestored(storage: map<string, string>, matchMedia: Option<bool>, theme: string)
    ensures theme != "" ==> PreferredTheme(storage[ThemeKey := theme], matchMedia) == theme
    ensures var t := PreferredTheme(storage, matchMedia);
            PreferredTheme(storage[ThemeKey := t], matchMedia) == t
  {
  }

  /** The document element's `data-theme` attribute, local storage and `matchMedia`. */
  class Environment {
    var dataTheme: Option<string>
    var storage: map<string, string>
    const matchMedia: Option<bool>

    constructor(storage: map<string, string>, matchMedia: Option<bool>)
      ensures dataTheme == None && this.storage == storage && this.matchMedia == matchMedia
    {
      dataTheme := None;
      this.storage := storage;
      this.matchMedia := matchMedia;
    }
  }

  /** What one `useTheme()` call returns: its `theme` is the module-level ref itself. */
  class ThemeHandle {
    const state: ThemeState

    constructor(shared: ThemeState)
      ensures state == shared
    {
      state := shared;
    }

    /** The `theme` ref this caller reads. */
    function Theme(): string
      reads this, state
    {
      state.currentTheme
    }
  }

  /** The module-level `currentTheme` ref, shared by every `useTheme()` caller. */
  class ThemeState {
    var currentTheme: string
    const env: Environment

    /** Module load: the theme starts dark; the document and storage are untouched. */
    constructor(env: Environment)
      ensures currentTheme == Dark && this.env == env
    {
      currentTheme := Dark;
      this.env := env;
    }

    /** The current theme, the attribute and the stored value agree. */
    ghost predicate Applied()
      reads this, env
    {
      env.dataTheme == Some(currentTheme) && ThemeKey in env.storage && env.storage[ThemeKey] == currentTheme
    }

    /** `setTheme(theme)`: the ref, the attribute and the stored value all become `theme`. */
    method SetTheme(theme: string)
      modifies this, env
      ensures currentTheme == theme && Applied()
      ensures env.storage == old(env.storage)[ThemeKey := theme]
    {
      currentTheme := theme;
      env.dataTheme := Some(theme);
      env.storage := env.storage[ThemeKey := theme];
    }

    method ToggleTheme()
      modifies this, env
      ensures currentTheme == Toggled(old(currentTheme)) && Applied()
      ensures env.storage == old(env.storage)[ThemeKey := currentTheme]
    {
      var newTheme := if currentTheme == Dark then Light else Dark;
      SetTheme(newTheme);
    }

    /** `initTheme()`: applies the saved theme, or the system theme when none is saved. */
    method InitTheme()
      modifies this, env
      ensures currentTheme == PreferredTheme(old(env.storage), env.matchMedia) && Applied()
      ensures env.storage == old(env.storage)[ThemeKey := currentTheme]
    {
      var savedTheme: Option<string> := if ThemeKey in env.storage then Some(env.storage[ThemeKey]) else None;
      var preferredTheme := if savedTheme.Some? && savedTheme.value != "" then savedTheme.value else SystemTheme(env.matchMedia);
      SetTheme(preferredTheme);
    }

    /** `useTheme()`: a new handle whose `theme` is this one module-level ref. */
    method UseTheme() returns (h: ThemeHandle)
      ensures fresh(h) && h.state == this
    {
      h := new ThemeHandle(this);
    }

    /** A toggle through one caller's handle is what another caller's `theme` shows. */
    method ToggleSeenByOthers() returns (seenBySecond: string)
      modifies this, env
      ensures seenBySecond == Toggled(old(currentTheme)) && seenBySecond == currentTheme && Applied()
      ensures env.storage == old(env.storage)[ThemeKey := currentTheme]
    {
      var first := UseTheme();
      var second := UseTheme();
      first.state.ToggleTheme();
      seenBySecond := second.Theme();
    }
  }
}

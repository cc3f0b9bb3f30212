/**
 * The theme preference (src/store/themeStore.ts): a stored mode, its
 * resolution to an actual light or dark theme, and the `dark` class on the
 * document's root element. Whether the system prefers a dark scheme (the
 * `prefers-color-scheme: dark` media query) is a parameter.
 */
module ThemeStore {

  datatype ThemeMode = Light | Dark | System

  datatype ResolvedTheme = LightTheme | DarkTheme

  const DarkClass := "dark"

  /** `getResolvedTheme(mode)`: `system` follows the system preference, the others stand for themselves. */
  function GetResolvedTheme(mode: ThemeMode, systemPrefersDark: bool): (r: ResolvedTheme)
    ensures r == DarkTheme <==> mode == Dark || (mode == System && systemPrefersDark)
  {
    match mode
    case System => if systemPrefersDark then DarkTheme else LightTheme
    case Light => LightTheme
    case Dark => DarkTheme
  }

  /** The mode that names a resolved theme. */
  function ModeOf(t: ResolvedTheme): ThemeMode {
    match t
    case LightTheme => Light
    case DarkTheme => Dark
  }

  /**
   * An explicit mode resolves to itself whatever the system prefers, and a
   * resolved theme chosen as the mode resolves to that same theme.
   */
  lemma ResolutionOfExplicitModes(mode: ThemeMode, t: ResolvedTheme, systemPrefersDark: bool)
    ensures mode != System ==> ModeOf(GetResolvedTheme(mode, systemPrefersDark)) == mode
    ensures GetResolvedTheme(ModeOf(t), systemPrefersDark) == t
  {
  }

  /** The class set `applyTheme` leaves: `dark` added for a dark theme and removed otherwise. */
  function ThemedClasses(classes: set<string>, t: ResolvedTheme): (r: set<string>)
    ensures DarkClass in r <==> t == DarkTheme
    ensures r - {DarkClass} == classes - {DarkClass}
  {
    if t == DarkTheme then classes + {DarkClass} else classes - {DarkClass}
  }

  /** Applying a theme a second time changes nothing. */
  lemma ThemedClassesIdempotent(classes: set<string>, t: ResolvedTheme)
    ensures ThemedClasses(ThemedClasses(classes, t), t) == ThemedClasses(classes, t)
  {
  }

  /** The zustand store holding the mode. */
  class ThemeState {
    var mode: ThemeMode

    constructor ()
      ensures mode == System
    {
      mode := System;
    }

    method SetMode(m: ThemeMode)
      modifies this
      ensures mode == m
    {
      mode := m;
    }
  }

  /** `document.documentElement` and the classes in its `classList`. */
  class DocumentElement {
    var classList: set<string>

    constructor (classes: set<string>)
      ensures classList == classes
    {
      classList := classes;
    }
  }

  /** `applyTheme(mode)`. */
  method ApplyTheme(root: DocumentElement, mode: ThemeMode, systemPrefersDark: bool)
    modifies root
    ensures root.classList == ThemedClasses(old(root.classList), GetResolvedTheme(mode, systemPrefersDark))
  {
    var resolved := GetResolvedTheme(mode, systemPrefersDark);
    if resolved == DarkTheme {
      root.classList := root.classList + {DarkClass};
    } else {
      root.classList := root.classList - {DarkClass};
    }
  }

  /** The theme store's own usage scenarios, from the contracts alone. */
  method UsageScenarios(systemPrefersDark: bool)
  {
    var store := new ThemeState();
    assert store.mode == System;
    store.SetMode(Dark);
    assert store.mode == Dark;

    var root := new DocumentElement({"app"});
    ApplyTheme(root, Dark, systemPrefersDark);
    assert DarkClass in root.classList && "app" in root.classList;
    ApplyTheme(root, Light, systemPrefersDark);
    assert DarkClass !in root.classList && "app" in root.classList;
    ApplyTheme(root, System, false);
    assert DarkClass !in root.classList;
  }
}

/** The `useTheme` hook (src/hooks/useTheme.ts): the mode, its resolution, and the toggle. */
module UseTheme {
  import opened ThemeStore

  /** The mode `toggleTheme` moves to: system, then light, then dark, then system again. */
  function NextMode(m: ThemeMode): (n: ThemeMode)
    ensures m == System ==> n == Light
    ensures m == Light ==> n == Dark
    ensures m == Dark ==> n == System
    ensures n != m
  {
    if m == System then Light
    else if m == Light then Dark
    else System
  }

  /** Three toggles bring the mode back; one or two never do. */
  lemma ToggleCycle(m: ThemeMode)
    ensures NextMode(NextMode(NextMode(m))) == m
    ensures NextMode(NextMode(m)) != m
  {
  }

  /** Every mode is reached from every other by toggling. */
  lemma ToggleReachesAll(m: ThemeMode, target: ThemeMode)
    ensures target == m || target == NextMode(m) || target == NextMode(NextMode(m))
  {
  }

  /** `toggleTheme()`: the store's mode moves one step along the cycle. */
  method ToggleTheme(store: ThemeState)
    modifies store
    ensures store.mode == NextMode(old(store.mode))
  {
    if store.mode == System {
      store.SetMode(Light);
    } else if store.mode == Light {
      store.SetMode(Dark);
    } else {
      store.SetMode(System);
    }
  }

  /** What the hook returns besides its two actions. */
  datatype ThemeHook = ThemeHook(mode: ThemeMode, resolvedTheme: ResolvedTheme, isDark: bool)

  function UseThemeValues(mode: ThemeMode, systemPrefersDark: bool): (h: ThemeHook)
    ensures h.mode == mode
    ensures h.resolvedTheme == GetResolvedTheme(mode, systemPrefersDark)
    ensures h.isDark <==> mode == Dark || (mode == System && systemPrefersDark)
  {
    var resolved := GetResolvedTheme(mode, systemPrefersDark);
    ThemeHook(mode, resolved, resolved == DarkTheme)
  }
}

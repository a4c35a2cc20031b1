/** The theme provider (`ThemeContext`): the chosen mode (light, dark or
    follow the system), the scheme it resolves to, the saved preference and
    the toggle. */
module Theme {
  import opened Seqs
  import opened Storage

  datatype ThemeMode = Light | Dark | System

  /** A colour scheme; `Appearance` may also report none, which is read as light. */
  datatype Scheme = LightScheme | DarkScheme

  const ThemeStorageKey := "@aureum_theme_preference"

  /** `colorScheme || 'light'` */
  function SchemeOrLight(s: Option<Scheme>): (r: Scheme)
    ensures s.Some? ==> r == s.value
    ensures s.None? ==> r == LightScheme
  {
    if s.Some? then s.value else LightScheme
  }

  /** The switch on the mode: a fixed scheme, or the system's for 'system'.
      The scheme is dark exactly when the mode is dark or follows a dark system. */
  function Resolve(mode: ThemeMode, system: Scheme): (r: Scheme)
    ensures r == DarkScheme <==> mode == Dark || (mode == System && system == DarkScheme)
  {
    match mode
    case Light => LightScheme
    case Dark => DarkScheme
    case System => system
  }

  /** The name a mode is saved under. */
  function ModeName(mode: ThemeMode): string {
    match mode
    case Light => "light"
    case Dark => "dark"
    case System => "system"
  }

  /** `loadThemePreference`: a saved name of one of the three modes, otherwise 'system'. */
  function SavedMode(saved: Option<string>): (mode: ThemeMode)
    ensures saved.Some? && saved.value == "light" ==> mode == Light
    ensures saved.Some? && saved.value == "dark" ==> mode == Dark
    ensures saved.None? || saved.value !in {"light", "dark"} ==> mode == System
  {
    if saved == Some("light") then Light
    else if saved == Some("dark") then Dark
    else System
  }

  /** Every mode reads back as itself once saved, and no other text reads as light or dark. */
  lemma SavedModeRoundTrip(mode: ThemeMode, text: string)
    ensures SavedMode(Some(ModeName(mode))) == mode
    ensures SavedMode(Some(text)) != System ==> text == ModeName(SavedMode(Some(text)))
  {
  }

  /** `toggleTheme`: 'light' becomes 'dark' and anything else 'light'; the
      result is always a fixed mode, and a fixed mode always changes. */
  function NextMode(mode: ThemeMode): (r: ThemeMode)
    ensures r != System
    ensures mode != System ==> r != mode
  {
    if mode == Light then Dark else Light
  }

  /** Two toggles restore a fixed mode, a toggle from 'system' always lands on
      light, and a toggle from a fixed mode flips the scheme. */
  lemma ToggleProperties(mode: ThemeMode, system: Scheme)
    ensures mode != System ==> NextMode(NextMode(mode)) == mode
    ensures NextMode(System) == Light && NextMode(NextMode(System)) == Dark
    ensures NextMode(mode) != System
    ensures mode != System ==> Resolve(NextMode(mode), system) != Resolve(mode, system)
  {
  }

  class ThemeProvider {
    var theme: Scheme
    var themeMode: ThemeMode
    var isLoading: bool
    var systemTheme: Scheme

    /** Once loading is over, the theme is the one the mode resolves to. */
    ghost predicate Valid()
      reads this
    {
      !isLoading ==> theme == Resolve(themeMode, systemTheme)
    }

    /** The provider's first state: light, mode 'system', loading, and the system scheme read now. */
    constructor(initialSystem: Option<Scheme>)
      ensures Valid()
      ensures theme == LightScheme && themeMode == System && isLoading
      ensures systemTheme == SchemeOrLight(initialSystem)
    {
      theme := LightScheme;
      themeMode := System;
      isLoading := true;
      systemTheme := SchemeOrLight(initialSystem);
    }

    /** The effect that recomputes the theme; it does nothing while loading. */
    method UpdateTheme()
      modifies this
      ensures Valid()
      ensures old(isLoading) ==> theme == old(theme)
      ensures !old(isLoading) ==> theme == Resolve(themeMode, systemTheme)
      ensures themeMode == old(themeMode) && isLoading == old(isLoading) && systemTheme == old(systemTheme)
    {
      if isLoading {
        return;
      }
      var newTheme := Resolve(themeMode, systemTheme);
      if newTheme != theme {
        theme := newTheme;
      }
    }

    /** The `Appearance` listener: the system scheme changes (none is light), then the effect runs. */
    method OnSystemChange(colorScheme: Option<Scheme>)
      requires Valid()
      modifies this
      ensures Valid()
      ensures systemTheme == SchemeOrLight(colorScheme)
      ensures themeMode == old(themeMode) && isLoading == old(isLoading)
      ensures isLoading ==> theme == old(theme)
    {
      systemTheme := SchemeOrLight(colorScheme);
      UpdateTheme();
    }

    /** `loadThemePreference`: the mode becomes the saved one if it names a mode,
        otherwise (or when reading fails) 'system'; loading ends and the effect runs. */
    method LoadThemePreference(store: Store, readFails: bool)
      modifies this
      ensures Valid()
      ensures themeMode == if readFails then System else SavedMode(store.Get(ThemeStorageKey))
      ensures !isLoading && systemTheme == old(systemTheme)
      ensures theme == Resolve(themeMode, systemTheme)
    {
      isLoading := true;
      if readFails {
        themeMode := System;
      } else {
        var saved := store.Get(ThemeStorageKey);
        themeMode := SavedMode(saved);
      }
      isLoading := false;
      UpdateTheme();
    }

    /** `setThemeMode`: the mode is set and exactly that mode is saved (unless the write fails). */
    method SetThemeMode(store: Store, mode: ThemeMode, writeFails: bool)
      requires Valid()
      modifies this, store
      ensures Valid()
      ensures themeMode == mode && isLoading == old(isLoading) && systemTheme == old(systemTheme)
      ensures old(isLoading) ==> theme == old(theme)
      ensures !old(isLoading) ==> theme == Resolve(mode, systemTheme)
      ensures store.items == if writeFails then old(store.items) else old(store.items)[ThemeStorageKey := ModeName(mode)]
    {
      themeMode := mode;
      if !writeFails {
        store.SetItem(ThemeStorageKey, ModeName(mode));
      }
      UpdateTheme();
    }

    /** `toggleTheme`: the next mode is set and saved as `setThemeMode` does. */
    method ToggleTheme(store: Store, writeFails: bool)
      requires Valid()
      modifies this, store
      ensures Valid()
      ensures themeMode == NextMode(old(themeMode)) && isLoading == old(isLoading) && systemTheme == old(systemTheme)
      ensures old(isLoading) ==> theme == old(theme)
      ensures !old(isLoading) ==> theme == Resolve(themeMode, systemTheme)
      ensures store.items == if writeFails then old(store.items) else old(store.items)[ThemeStorageKey := ModeName(themeMode)]
    {
      SetThemeMode(store, NextMode(themeMode), writeFails);
    }

    /** `isDarkMode` of the context value: once loading is over, dark exactly
        when the mode is dark or follows a dark system. */
    function IsDarkMode(): (r: bool)
      reads this
      ensures Valid() && !isLoading ==>
        (r <==> themeMode == Dark || (themeMode == System && systemTheme == DarkScheme))
    {
      theme == DarkScheme
    }

    /** `isSystemTheme` of the context value: once loading is over, a theme
        that follows the system is the system's scheme. */
    function IsSystemTheme(): (r: bool)
      reads this
      ensures Valid() && !isLoading && r ==> theme == systemTheme
      ensures Valid() && !isLoading && !r ==> theme == (if themeMode == Dark then DarkScheme else LightScheme)
    {
      themeMode == System
    }
  }
}

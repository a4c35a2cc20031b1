/** The older `useDarkMode` hook: one flag, read from the 'darkMode' entry
    (or the system scheme when there is none) and saved as "true"/"false". */
module DarkMode {
  import opened Seqs
  import opened Storage
  import opened Theme

  const DarkModeKey := "darkMode"

  /** `newMode.toString()` */
  function BoolText(b: bool): string {
    if b then "true" else "false"
  }

  /** The flag `loadDarkModePreference` settles on: a saved entry is dark
      exactly when it is "true"; without one, the system's scheme decides; a
      failed read gives light. */
  function Loaded(saved: Option<string>, system: Option<Scheme>, readFails: bool): (dark: bool)
    ensures readFails ==> !dark
    ensures !readFails && saved.Some? ==> (dark <==> saved.value == "true")
    ensures !readFails && saved.None? ==> (dark <==> system == Some(DarkScheme))
  {
    if readFails then false
    else if saved.Some? then saved.value == "true"
    else system == Some(DarkScheme)
  }

  /** A saved flag reads back as itself, whatever the system scheme. */
  lemma BoolTextRoundTrip(b: bool, system: Option<Scheme>)
    ensures Loaded(Some(BoolText(b)), system, false) == b
  {
  }

  class DarkModeHook {
    var isDarkMode: bool

    constructor()
      ensures !isDarkMode
    {
      isDarkMode := false;
    }

    /** `loadDarkModePreference` */
    method LoadDarkModePreference(store: Store, system: Option<Scheme>, readFails: bool)
      modifies this
      ensures isDarkMode == Loaded(store.Get(DarkModeKey), system, readFails)
    {
      if readFails {
        isDarkMode := false;
      } else {
        var savedMode := store.Get(DarkModeKey);
        if savedMode.Some? {
          isDarkMode := savedMode.value == "true";
        } else {
          isDarkMode := system == Some(DarkScheme);
        }
      }
    }

    /** `toggleDarkMode`: the flag flips even if the write then fails; otherwise
        the new flag is what the entry holds. */
    method ToggleDarkMode(store: Store, writeFails: bool)
      modifies this, store
      ensures isDarkMode == !old(isDarkMode)
      ensures store.items == if writeFails then old(store.items) else old(store.items)[DarkModeKey := BoolText(isDarkMode)]
    {
      var newMode := !isDarkMode;
      isDarkMode := newMode;
      if !writeFails {
        store.SetItem(DarkModeKey, BoolText(newMode));
      }
    }
  }

  /** A toggle that was saved survives a reload: a fresh hook loading the
      same storage afterwards shows the toggled flag. */
  method ReloadAfterToggle(store: Store, system: Option<Scheme>) returns (before: bool, after: bool)
    modifies store
    ensures before == Loaded(old(store.Get(DarkModeKey)), system, false)
    ensures after == !before
    ensures store.items == old(store.items)[DarkModeKey := BoolText(after)]
  {
    var hook := new DarkModeHook();
    hook.LoadDarkModePreference(store, system, false);
    before := hook.isDarkMode;
    hook.ToggleDarkMode(store, false);
    var again := new DarkModeHook();
    again.LoadDarkModePreference(store, system, false);
    BoolTextRoundTrip(!before, system);
    after := again.isDarkMode;
  }
}

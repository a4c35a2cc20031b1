/** The i18n set-up: the supported languages, the device language, the
    language chosen at start-up, the change of language and its saved copy. */
module I18n {
  import opened Seqs
  import opened Storage

  const LanguageStorageKey := "@aureum_language_preference"
  const SupportedLanguages: seq<string> := ["en", "es"]

  predicate Supported(lang: string) {
    lang in SupportedLanguages
  }

  /** `getDeviceLanguage`: the language code of the first device locale when it
      is supported, otherwise English. `None` stands for a failing locale query. */
  function DeviceLanguage(locales: Option<seq<string>>): (lang: string)
    ensures Supported(lang)
    ensures locales.Some? && |locales.value| > 0 && Supported(locales.value[0]) ==> lang == locales.value[0]
    ensures !(locales.Some? && |locales.value| > 0 && Supported(locales.value[0])) ==> lang == "en"
  {
    if locales.Some? && |locales.value| > 0 && Supported(locales.value[0]) then locales.value[0] else "en"
  }

  /** Whether start-up keeps the saved language (a missing or empty entry is not kept). */
  predicate KeepsSaved(saved: Option<string>) {
    saved.Some? && saved.value != "" && Supported(saved.value)
  }

  /** The language `initializeI18n` starts with: a supported saved one, else
      the device's; English when the read or the write of the choice fails. */
  function StartLanguage(saved: Option<string>, locales: Option<seq<string>>, readFails: bool, writeFails: bool): (lang: string)
    ensures Supported(lang)
    ensures !readFails && KeepsSaved(saved) ==> lang == saved.value
    ensures !readFails && !KeepsSaved(saved) && !writeFails ==> lang == DeviceLanguage(locales)
    ensures readFails || (!KeepsSaved(saved) && writeFails) ==> lang == "en"
  {
    if readFails then "en"
    else if KeepsSaved(saved) then saved.value
    else if writeFails then "en"
    else DeviceLanguage(locales)
  }

  /** A language saved by a start-up or a change is the one the next start-up
      picks, whatever the device reports by then. */
  lemma StartLanguageStable(lang: string, locales: Option<seq<string>>, later: Option<seq<string>>)
    requires Supported(lang)
    ensures StartLanguage(Some(lang), later, false, false) == lang
    ensures var first := StartLanguage(None, locales, false, false);
      StartLanguage(Some(first), later, false, false) == first
  {
  }

  datatype LanguageInfo = LanguageInfo(code: string, name: string, nativeName: string)

  function Info(code: string): LanguageInfo {
    LanguageInfo(code, if code == "en" then "English" else "Spanish", if code == "en" then "English" else "Español")
  }

  /** `getSupportedLanguages`: one entry per supported code, in order, named
      in English and in the language itself. */
  function GetSupportedLanguages(): (r: seq<LanguageInfo>)
    ensures |r| == |SupportedLanguages|
    ensures forall i :: 0 <= i < |r| ==> r[i].code == SupportedLanguages[i]
    ensures r[0] == LanguageInfo("en", "English", "English")
    ensures r[1] == LanguageInfo("es", "Spanish", "Español")
  {
    seq(|SupportedLanguages|, i requires 0 <= i < |SupportedLanguages| => Info(SupportedLanguages[i]))
  }

  /** The i18next instance: its current language, empty before start-up. */
  class I18nState {
    var language: string

    constructor()
      ensures language == ""
    {
      language := "";
    }

    /** `initializeI18n`: the start language, and the device's choice saved
        when nothing supported was saved before. */
    method InitializeI18n(store: Store, locales: Option<seq<string>>, readFails: bool, writeFails: bool)
      modifies this, store
      ensures language == StartLanguage(old(store.Get(LanguageStorageKey)), locales, readFails, writeFails)
      ensures store.items ==
        if readFails || KeepsSaved(old(store.Get(LanguageStorageKey))) || writeFails then old(store.items)
        else old(store.items)[LanguageStorageKey := DeviceLanguage(locales)]
    {
      if readFails {
        language := "en";
        return;
      }
      var savedLanguage := store.Get(LanguageStorageKey);
      if KeepsSaved(savedLanguage) {
        language := savedLanguage.value;
      } else {
        var initialLanguage := DeviceLanguage(locales);
        if writeFails {
          language := "en";
        } else {
          store.SetItem(LanguageStorageKey, initialLanguage);
          language := initialLanguage;
        }
      }
    }

    /** `changeLanguage`: a supported language becomes current and is saved
        (unless the write fails); any other request changes nothing. */
    method ChangeLanguage(store: Store, lang: string, writeFails: bool)
      modifies this, store
      ensures language == if Supported(lang) then lang else old(language)
      ensures store.items == if Supported(lang) && !writeFails then old(store.items)[LanguageStorageKey := lang] else old(store.items)
    {
      if Supported(lang) {
        language := lang;
        if !writeFails {
          store.SetItem(LanguageStorageKey, lang);
        }
      }
    }

    /** `getCurrentLanguage`: English until a language is set. */
    function GetCurrentLanguage(): (r: string)
      reads this
      ensures r != ""
      ensures language != "" ==> r == language
    {
      if language != "" then language else "en"
    }
  }
}

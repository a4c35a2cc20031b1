/** The settings screen: the three stored switches, their load and save, and
    the language picker. */
module Settings {
  import opened Seqs
  import opened Json
  import opened Storage
  import opened I18n

  /** The three switches. Their state holds whatever `JSON.parse` gave for the
      stored text, so it is a JSON value rather than a boolean. */
  datatype Flags = Flags(email: Json, push: Json, sync: Json)

  /** e-mail notifications off, push notifications and automatic sync on */
  const DefaultFlags := Flags(JBool(false), JBool(true), JBool(true))

  datatype Setting = EmailNotifications | PushNotifications | AutoSync

  function Key(s: Setting): string {
    match s
    case EmailNotifications => "notificacionesEmail"
    case PushNotifications => "notificacionesPush"
    case AutoSync => "sincronizacionAutomatica"
  }

  function FlagOf(f: Flags, s: Setting): Json {
    match s
    case EmailNotifications => f.email
    case PushNotifications => f.push
    case AutoSync => f.sync
  }

  function SetFlag(f: Flags, s: Setting, v: Json): Flags {
    match s
    case EmailNotifications => f.(email := v)
    case PushNotifications => f.(push := v)
    case AutoSync => f.(sync := v)
  }

  /** One step of `cargarConfiguraciones`: a stored entry that parses sets the
      switch; `None` when it does not parse, which throws and ends the load. */
  function LoadOne(f: Flags, s: Setting, saved: Option<string>): (r: Option<Flags>)
    ensures saved.None? ==> r == Some(f)
    ensures saved.Some? ==> (r.None? <==> Parse(saved.value).None?)
    ensures r.Some? && saved.Some? ==> r.value == SetFlag(f, s, Parse(saved.value).value)
  {
    if saved.None? then Some(f)
    else match Parse(saved.value)
      case None => None
      case Some(v) => Some(SetFlag(f, s, v))
  }

  /** `cargarConfiguraciones` once the three entries are read: the entries
      are applied in order and the first that does not parse stops the rest.
      Each switch either keeps its value or shows what its own entry parses
      to; with nothing stored, or a first entry that does not parse, nothing
      changes. */
  function LoadFlags(f: Flags, e: Option<string>, p: Option<string>, s: Option<string>): (r: Flags)
    ensures r.email == f.email || (e.Some? && Parse(e.value) == Some(r.email))
    ensures r.push == f.push || (p.Some? && Parse(p.value) == Some(r.push))
    ensures r.sync == f.sync || (s.Some? && Parse(s.value) == Some(r.sync))
    ensures e.None? && p.None? && s.None? ==> r == f
    ensures e.Some? && Parse(e.value).None? ==> r == f
  {
    match LoadOne(f, EmailNotifications, e)
    case None => f
    case Some(f1) =>
      match LoadOne(f1, PushNotifications, p)
      case None => f1
      case Some(f2) =>
        match LoadOne(f2, AutoSync, s)
        case None => f2
        case Some(f3) => f3
  }

  /** Entries the switches saved read back as those switches, missing
      entries keep what is shown, and an entry that does not parse leaves the
      switches after it as they were. */
  lemma LoadFlagsProperties(f: Flags, a: bool, b: bool, c: bool, bad: string, p: Option<string>, s: Option<string>)
    requires Parse(bad).None?
    ensures LoadFlags(f, Some(Stringify(JBool(a))), Some(Stringify(JBool(b))), Some(Stringify(JBool(c))))
      == Flags(JBool(a), JBool(b), JBool(c))
    ensures LoadFlags(f, None, None, None) == f
    ensures LoadFlags(f, Some(bad), p, s) == f
    ensures LoadFlags(f, None, Some(bad), s) == f
  {
  }

  /** The value a switch shows after a load in which every stored entry parses. */
  function Shown(f: Flags, saved: Option<string>, t: Setting): Json {
    if saved.Some? && Parse(saved.value).Some? then Parse(saved.value).value else FlagOf(f, t)
  }

  /** When every stored entry parses, each switch shows its own entry, or
      keeps its value when it has none. */
  lemma LoadFlagsWhenAllParse(f: Flags, e: Option<string>, p: Option<string>, s: Option<string>)
    requires e.Some? ==> Parse(e.value).Some?
    requires p.Some? ==> Parse(p.value).Some?
    requires s.Some? ==> Parse(s.value).Some?
    ensures var r := LoadFlags(f, e, p, s);
      && r.email == Shown(f, e, EmailNotifications)
      && r.push == Shown(f, p, PushNotifications)
      && r.sync == Shown(f, s, AutoSync)
  {
  }

  // ----- the language picker ------------------------------------------------

  datatype LanguageMode = Auto | En | Es

  /** The value `changeLanguage` is called with. */
  function ModeCode(m: LanguageMode): string {
    match m
    case Auto => "auto"
    case En => "en"
    case Es => "es"
  }

  /** An entry of the picker: its code and the key of its translated label. */
  datatype LanguageOption = LanguageOption(code: LanguageMode, labelKey: string)

  /** The first entry of the picker, the fallback of `getCurrentLanguageOption`. */
  const FirstOption := LanguageOption(Auto, "language.automatic")

  const LanguageOptions: seq<LanguageOption> := [
    FirstOption,
    LanguageOption(En, "language.english"),
    LanguageOption(Es, "language.spanish")]

  /** `options.find(option => option.code === mode)` */
  function Find(options: seq<LanguageOption>, mode: LanguageMode): (r: Option<nat>)
    ensures r.Some? ==>
      && r.value < |options| && options[r.value].code == mode
      && forall j :: 0 <= j < r.value ==> options[j].code != mode
    ensures r.None? ==> forall j :: 0 <= j < |options| ==> options[j].code != mode
  {
    if options == [] then None
    else if options[0].code == mode then Some(0)
    else
      var rest := Find(options[1..], mode);
      if rest.Some? then Some(rest.value + 1) else None
  }

  /** `getCurrentLanguageOption`: the entry of the mode, the first entry if
      none. Every mode has its entry, so the one shown is always the mode's. */
  function CurrentLanguageOption(mode: LanguageMode): (r: LanguageOption)
    ensures r.code == mode && r in LanguageOptions
  {
    var i := match mode case Auto => 0 case En => 1 case Es => 2;
    assert LanguageOptions[i].code == mode;
    var k := Find(LanguageOptions, mode);
    if k.Some? then LanguageOptions[k.value] else assert false; FirstOption
  }

  /** Every mode has its entry, so the fallback to the first is never taken. */
  lemma CurrentOptionMatchesMode(mode: LanguageMode)
    ensures CurrentLanguageOption(mode).code == mode
    ensures Find(LanguageOptions, mode).Some?
  {
    var i := match mode case Auto => 0 case En => 1 case Es => 2;
    assert LanguageOptions[i].code == mode;
  }

  /** Only 'en' and 'es' are languages `changeLanguage` accepts; 'auto' is not. */
  lemma AutoIsNoLanguage()
    ensures !Supported(ModeCode(Auto))
    ensures Supported(ModeCode(En)) && Supported(ModeCode(Es))
  {
  }

  class SettingsScreen {
    var flags: Flags
    var showLanguageModal: bool
    var currentLanguageMode: LanguageMode
    var languageLoading: bool

    constructor()
      ensures flags == DefaultFlags && !showLanguageModal && currentLanguageMode == Auto && !languageLoading
    {
      flags := DefaultFlags;
      showLanguageModal := false;
      currentLanguageMode := Auto;
      languageLoading := false;
    }

    /** `cargarConfiguraciones`; a failing read throws before any switch is set. */
    method CargarConfiguraciones(store: Store, readFails: bool)
      modifies this
      ensures flags == if readFails then old(flags)
        else LoadFlags(old(flags), store.Get(Key(EmailNotifications)), store.Get(Key(PushNotifications)), store.Get(Key(AutoSync)))
      ensures showLanguageModal == old(showLanguageModal) && currentLanguageMode == old(currentLanguageMode)
      ensures languageLoading == old(languageLoading)
    {
      if readFails {
        return;
      }
      var notifEmail := store.Get(Key(EmailNotifications));
      var notifPush := store.Get(Key(PushNotifications));
      var sincronAuto := store.Get(Key(AutoSync));
      flags := LoadFlags(flags, notifEmail, notifPush, sincronAuto);
    }

    /** The three toggle handlers: the switch shows the new value, which is
        stored as JSON unless the write fails. */
    method HandleToggle(s: Setting, valor: bool, store: Store, writeFails: bool)
      modifies this, store
      ensures flags == SetFlag(old(flags), s, JBool(valor))
      ensures store.items == if writeFails then old(store.items) else old(store.items)[Key(s) := Stringify(JBool(valor))]
      ensures showLanguageModal == old(showLanguageModal) && currentLanguageMode == old(currentLanguageMode)
      ensures languageLoading == old(languageLoading)
    {
      flags := SetFlag(flags, s, JBool(valor));
      if !writeFails {
        store.SetItem(Key(s), Stringify(JBool(valor)));
      }
    }

    /** `handleLanguageChange`: `changeLanguage` switches to and saves 'en' or
        'es' and ignores 'auto'; the picker then shows the chosen mode either
        way, the modal closes and the loading flag ends off. */
    method HandleLanguageChange(mode: LanguageMode, i18n: I18nState, store: Store, writeFails: bool)
      modifies this, i18n, store
      ensures currentLanguageMode == mode && !showLanguageModal && !languageLoading
      ensures flags == old(flags)
      ensures mode == Auto ==> i18n.language == old(i18n.language) && store.items == old(store.items)
      ensures mode != Auto ==> i18n.language == ModeCode(mode)
      ensures mode != Auto ==>
        store.items == if writeFails then old(store.items) else old(store.items)[LanguageStorageKey := ModeCode(mode)]
    {
      languageLoading := true;
      i18n.ChangeLanguage(store, ModeCode(mode), writeFails);
      currentLanguageMode := mode;
      showLanguageModal := false;
      languageLoading := false;
    }
  }

  /** A switch that was toggled and saved is what the next load of the
      screen shows, as long as no stored switch holds text that does not parse. */
  method ToggleThenReload(s: Setting, valor: bool, store: Store) returns (shown: Json)
    requires forall t :: Key(t) in store.items ==> Parse(store.items[Key(t)]).Some?
    modifies store
    ensures shown == JBool(valor)
  {
    var screen := new SettingsScreen();
    screen.HandleToggle(s, valor, store, false);
    assert forall t :: Key(t) in store.items ==> Parse(store.items[Key(t)]).Some? by {
      forall t | Key(t) in store.items
        ensures Parse(store.items[Key(t)]).Some?
      {
        if t != s {
          assert Key(t) != Key(s);
        }
      }
    }
    var again := new SettingsScreen();
    again.CargarConfiguraciones(store, false);
    LoadFlagsWhenAllParse(DefaultFlags, store.Get(Key(EmailNotifications)), store.Get(Key(PushNotifications)), store.Get(Key(AutoSync)));
    shown := FlagOf(again.flags, s);
  }
}

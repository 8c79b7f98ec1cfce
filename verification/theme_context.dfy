/** The theme context: the colour mode the user picked (light, dark or
    follow the system), the mode actually applied, the interface language
    and the text direction it implies, all kept in browser storage. */
module ThemeContext {

  /** `ThemeMode`: the user's choice. */
  datatype ThemeMode = Light | Dark | Auto

  datatype Direction = Ltr | Rtl

  /** Browser storage: string values under string keys. */
  type Storage = map<string, string>

  const ModeKey: string := "themeMode"
  const LanguageKey: string := "i18nextLng"

  function ModeName(m: ThemeMode): string {
    match m
    case Light => "light"
    case Dark => "dark"
    case Auto => "auto"
  }

  /** The mode read back at start-up: a stored `light`, `dark` or `auto`
      is taken as is; anything else, or nothing, means `auto`. */
  function StoredMode(storage: Storage): (m: ThemeMode)
    ensures ModeKey in storage && storage[ModeKey] in {"light", "dark", "auto"} ==>
              ModeName(m) == storage[ModeKey]
    ensures !(ModeKey in storage && storage[ModeKey] in {"light", "dark", "auto"}) ==> m == Auto
  {
    if ModeKey in storage && storage[ModeKey] == "light" then Light
    else if ModeKey in storage && storage[ModeKey] == "dark" then Dark
    else Auto
  }

  /** The language read back at start-up: the stored one, or `en` when none
      (or an empty one) is stored. */
  function StoredLanguage(storage: Storage): (lang: string)
    ensures lang != ""
    ensures LanguageKey in storage && storage[LanguageKey] != "" ==> lang == storage[LanguageKey]
    ensures !(LanguageKey in storage && storage[LanguageKey] != "") ==> lang == "en"
  {
    if LanguageKey in storage && storage[LanguageKey] != "" then storage[LanguageKey] else "en"
  }

  /** `resolvedMode`: an explicit choice wins; `auto` follows the system. */
  function Resolve(mode: ThemeMode, prefersDark: bool): (r: ThemeMode)
    ensures r != Auto
    ensures mode != Auto ==> r == mode
    ensures mode == Auto ==> (r == Dark <==> prefersDark)
  {
    if mode == Auto then (if prefersDark then Dark else Light) else mode
  }

  /** Right-to-left exactly for Arabic. */
  function DirectionOf(language: string): (d: Direction)
    ensures d == Rtl <==> language == "ar"
  {
    if language == "ar" then Rtl else Ltr
  }

  /** The provider's state, with the two document attributes it writes. */
  datatype ThemeState = ThemeState(
    mode: ThemeMode,
    language: string,
    storage: Storage,
    documentDir: Direction,
    documentLang: string)

  /** The state right after start-up, read from storage. */
  function Init(storage: Storage): (st: ThemeState)
    ensures st.mode == StoredMode(storage) && st.language == StoredLanguage(storage)
    ensures st.storage == storage
    ensures st.documentDir == DirectionOf(st.language) && st.documentLang == st.language
  {
    var lang := StoredLanguage(storage);
    ThemeState(StoredMode(storage), lang, storage, DirectionOf(lang), lang)
  }

  /** `setThemeMode`: applies the mode and stores its name. */
  function SetThemeMode(st: ThemeState, mode: ThemeMode): (r: ThemeState)
    ensures r.mode == mode
    ensures r.language == st.language && r.documentDir == st.documentDir
    ensures forall k :: k in st.storage && k != ModeKey ==> k in r.storage && r.storage[k] == st.storage[k]
  {
    st.(mode := mode, storage := st.storage[ModeKey := ModeName(mode)])
  }

  /** `setLanguage`: switches the language, stores it, and sets the document's
      direction by the same rule as `direction`. */
  function SetLanguage(st: ThemeState, lang: string): (r: ThemeState)
    ensures r.language == lang && r.documentLang == lang
    ensures r.documentDir == DirectionOf(lang)
    ensures r.mode == st.mode
    ensures forall k :: k in st.storage && k != LanguageKey ==> k in r.storage && r.storage[k] == st.storage[k]
  {
    st.(language := lang,
        storage := st.storage[LanguageKey := lang],
        documentDir := if lang == "ar" then Rtl else Ltr,
        documentLang := lang)
  }

  /** A chosen mode survives a reload. */
  lemma ModeSurvivesReload(st: ThemeState, mode: ThemeMode)
    ensures Init(SetThemeMode(st, mode).storage).mode == mode
  {
  }

  /** A chosen language survives a reload, except the empty one, which reloads as `en`. */
  lemma LanguageSurvivesReload(st: ThemeState, lang: string)
    ensures lang != "" ==> Init(SetLanguage(st, lang).storage).language == lang
    ensures lang == "" ==> Init(SetLanguage(st, lang).storage).language == "en"
  {
  }

  /** Choosing a mode does not disturb the stored language, and vice versa. */
  lemma SettingsIndependent(st: ThemeState, mode: ThemeMode, lang: string)
    ensures Init(SetThemeMode(st, mode).storage).language == Init(st.storage).language
    ensures Init(SetLanguage(st, lang).storage).mode == Init(st.storage).mode
  {
  }
}

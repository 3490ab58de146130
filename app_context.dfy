/**
 * The application-wide preferences (theme and language), restored from
 * local storage on mount, written back on every change, and reflected on
 * the document root; the context that hands them to the pages, and the
 * route gate that every page reaches them through.
 *
 * The source types theme and language as two-value enums, but a stored
 * value is taken as it is, without checking it against those values; so
 * both are plain strings here.
 */
module AppContext {
  import opened Common
  import Browser
  import ProtectedRoute
  import Messages

  const DefaultTheme := "light"
  const DefaultLanguage := "pt-BR"
  const ThemeKey := "theme"
  const LanguageKey := "language"
  const MissingProvider := "useAppContext must be used within an AppProvider"

  /** The `toggleTheme` update: light becomes dark, anything else becomes light. */
  function NextTheme(theme: string): (r: string)
    ensures r == "light" || r == "dark"
    ensures r == "dark" <==> theme == "light"
  {
    if theme == "light" then "dark" else "light"
  }

  /** Toggling twice is the identity exactly on the two real themes. */
  lemma ToggleTwiceIffKnownTheme(theme: string)
    ensures NextTheme(NextTheme(theme)) == theme <==> theme == "light" || theme == "dark"
  {
  }

  /** The mount effect for one key: a stored value replaces the current one only if it is present and not empty. */
  function Restore(saved: Option<string>, current: string): (r: string)
    ensures saved.Some? && saved.value != "" ==> r == saved.value
    ensures saved.None? || saved.value == "" ==> r == current
  {
    if saved.Some? && saved.value != "" then saved.value else current
  }

  /**
   * A stored language outside the two the app knows is adopted as it is,
   * and then the messages page's translation table has no entry of its
   * own for it: the lookup finds an inherited member when the string is
   * an `Object.prototype` name, and nothing otherwise.
   */
  lemma StoredLanguageNotValidated(v: string)
    requires v != "" && v != "pt-BR" && v != "en-US"
    ensures Restore(Some(v), DefaultLanguage) == v
    ensures !Messages.Translations(Restore(Some(v), DefaultLanguage)).Entry?
    ensures v !in Messages.ObjectPrototypeMembers ==> Messages.Translations(Restore(Some(v), DefaultLanguage)).Missing?
  {
  }

  /** What the context carries (the two setters are left implicit). */
  datatype ContextValue = ContextValue(theme: string, language: string)

  datatype Result<T> = Ok(value: T) | Err(message: string)

  /** `useAppContext`: fails outside a provider. */
  function UseAppContext(provided: Option<ContextValue>): (r: Result<ContextValue>)
    ensures r.Ok? <==> provided.Some?
    ensures r.Ok? ==> r.value == provided.value
    ensures r.Err? ==> r.message == MissingProvider
  {
    match provided
    case Some(v) => Ok(v)
    case None => Err(MissingProvider)
  }

  /**
   * The root layout wraps every page in the provider, and the provider
   * puts the context inside the route gate. `None` here means that the
   * gate shows its spinner, so no page (and no call of `useAppContext`)
   * is rendered at all; it does not stand for a missing provider.
   */
  function ProvidedBehindGate(isMounted: bool, loading: bool, value: ContextValue): (r: Option<ContextValue>)
    ensures r.Some? <==> ProtectedRoute.Render(isMounted, loading) == ProtectedRoute.Children
    ensures r.Some? ==> r.value == value
  {
    if ProtectedRoute.Render(isMounted, loading) == ProtectedRoute.Children then Some(value) else None
  }

  /**
   * Page code runs only once the gate renders its children, which is
   * exactly when it is mounted and done loading; then `useAppContext`
   * returns the provider's value, so in this app it never throws.
   */
  lemma ContextOnlyBehindGate(isMounted: bool, loading: bool, value: ContextValue)
    ensures ProvidedBehindGate(isMounted, loading, value).Some? <==> isMounted && !loading
    ensures ProtectedRoute.Render(isMounted, loading) == ProtectedRoute.Children ==>
              UseAppContext(ProvidedBehindGate(isMounted, loading, value)) == Ok(value)
  {
  }

  /** The provider component's state, with the storage and document it writes to. */
  class AppProvider {
    var theme: string
    var language: string
    const storage: Browser.Storage
    const doc: Browser.Document

    /** What the two persisting effects establish after each change. */
    ghost predicate Synced()
      reads this, storage, doc
    {
      && ThemeKey in storage.entries && storage.entries[ThemeKey] == theme
      && (doc.darkClass <==> theme == "dark")
      && LanguageKey in storage.entries && storage.entries[LanguageKey] == language
      && doc.lang == language
    }

    /** The first render's state, before any effect runs. */
    constructor (storage: Browser.Storage, doc: Browser.Document)
      ensures theme == DefaultTheme && language == DefaultLanguage
      ensures this.storage == storage && this.doc == doc
    {
      theme := DefaultTheme;
      language := DefaultLanguage;
      this.storage := storage;
      this.doc := doc;
    }

    /**
     * The mount: the saved values are read before anything is written,
     * then both preferences are persisted and reflected; no other key is
     * touched.
     */
    method Mount()
      modifies this, storage, doc
      ensures theme == Restore(old(storage.GetItem(ThemeKey)), old(theme))
      ensures language == Restore(old(storage.GetItem(LanguageKey)), old(language))
      ensures storage.entries == old(storage.entries)[ThemeKey := theme][LanguageKey := language]
      ensures Synced()
    {
      var savedTheme := storage.GetItem(ThemeKey);
      theme := Restore(savedTheme, theme);
      var savedLanguage := storage.GetItem(LanguageKey);
      language := Restore(savedLanguage, language);
      storage.SetItem(ThemeKey, theme);
      doc.ToggleDark(theme == "dark");
      storage.SetItem(LanguageKey, language);
      doc.SetLang(language);
    }

    /** `toggleTheme`, followed by the theme effect. */
    method ToggleTheme()
      requires Synced()
      modifies this, storage, doc
      ensures theme == NextTheme(old(theme)) && language == old(language)
      ensures storage.entries == old(storage.entries)[ThemeKey := theme]
      ensures Synced()
    {
      theme := NextTheme(theme);
      storage.SetItem(ThemeKey, theme);
      doc.ToggleDark(theme == "dark");
    }

    /** `setLanguage`, followed by the language effect when the value changed. */
    method SetLanguage(lang: string)
      requires Synced()
      modifies this, storage, doc
      ensures language == lang && theme == old(theme)
      ensures storage.entries == old(storage.entries)[LanguageKey := lang]
      ensures Synced()
    {
      if lang != language {
        language := lang;
        storage.SetItem(LanguageKey, language);
        doc.SetLang(language);
      }
    }
  }
}

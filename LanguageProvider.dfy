/**
 * The language preference: a provider that seeds its language from durable
 * client storage (browser `localStorage`, modelled as a string map held by a
 * `Storage` object) and whose setter writes storage and memory together, and
 * the context default seen outside any provider.
 */
module LanguageProvider {
  import opened Wrappers

  /** The six supported languages. */
  datatype Language = En | De | Ja | Es | Cn | Ru

  const DefaultLanguage := "en"
  const DefaultStorageKey := "app-language"

  /** The language code the source uses as the value of a `Language`. */
  function Code(l: Language): string {
    match l
    case En => "en"
    case De => "de"
    case Ja => "ja"
    case Es => "es"
    case Cn => "cn"
    case Ru => "ru"
  }

  /** The language whose code is `s`, if any: the inverse of `Code`. */
  function ParseCode(s: string): (r: Option<Language>)
    ensures r.Some? ==> Code(r.value) == s
  {
    if s == "en" then Some(En)
    else if s == "de" then Some(De)
    else if s == "ja" then Some(Ja)
    else if s == "es" then Some(Es)
    else if s == "cn" then Some(Cn)
    else if s == "ru" then Some(Ru)
    else None
  }

  /** Every language's code parses back to that language, and codes are never empty. */
  lemma CodeRoundTrip(l: Language)
    ensures ParseCode(Code(l)) == Some(l)
    ensures Code(l) != ""
  {
  }

  /** `localStorage`, shared by every provider of the page. */
  class Storage {
    var entries: map<string, string>

    constructor (initial: map<string, string>)
      ensures entries == initial
    {
      entries := initial;
    }

    /** `getItem`: the stored string, or None for `null`. */
    function GetItem(key: string): (r: Option<string>)
      reads this
      ensures r.Some? <==> key in entries
      ensures r.Some? ==> r.value == entries[key]
    {
      if key in entries then Some(entries[key]) else None
    }

    /** `setItem` */
    method SetItem(key: string, value: string)
      modifies this
      ensures entries == old(entries)[key := value]
    {
      entries := entries[key := value];
    }
  }

  /**
   * The initial language: the stored string when it is present and
   * non-empty (`getItem(key) || defaultLanguage`), otherwise the default.
   * The stored string is adopted unchecked; it need not be one of the six codes.
   */
  function InitialLanguage(entries: map<string, string>, storageKey: string, defaultLanguage: string): (r: string)
    ensures storageKey in entries && entries[storageKey] != "" ==> r == entries[storageKey]
    ensures storageKey !in entries || entries[storageKey] == "" ==> r == defaultLanguage
  {
    if storageKey in entries && entries[storageKey] != "" then entries[storageKey] else defaultLanguage
  }

  class LanguageProvider {
    const store: Storage
    const storageKey: string
    /** The in-memory language; a string, because the stored value is cast rather than checked. */
    var language: string

    /** Mounting a provider reads its language once from storage. */
    constructor (store: Storage, storageKey: string, defaultLanguage: Language)
      ensures this.store == store && this.storageKey == storageKey
      ensures language == InitialLanguage(store.entries, storageKey, Code(defaultLanguage))
    {
      this.store := store;
      this.storageKey := storageKey;
      var stored := store.GetItem(storageKey);
      language := if stored.Some? && stored.value != "" then stored.value else Code(defaultLanguage);
    }

    /** `setLanguage`: write storage under the provider's key, then the in-memory value. */
    method SetLanguage(l: Language)
      modifies this, store
      ensures language == Code(l)
      ensures store.entries == old(store.entries)[storageKey := Code(l)]
    {
      store.SetItem(storageKey, Code(l));
      language := Code(l);
    }
  }

  // ---------------------------------------------------------------- lemmas

  /** After `setLanguage(l)`, a fresh provider over the same storage and key starts with `l`, whatever the default. */
  lemma SetThenReload(entries: map<string, string>, storageKey: string, l: Language, defaultLanguage: string)
    ensures InitialLanguage(entries[storageKey := Code(l)], storageKey, defaultLanguage) == Code(l)
  {
    CodeRoundTrip(l);
  }

  /** With no stored value, or an empty one, the provider starts with the default. */
  lemma UnsetUsesDefault(entries: map<string, string>, storageKey: string, defaultLanguage: string)
    requires storageKey !in entries || entries[storageKey] == ""
    ensures InitialLanguage(entries, storageKey, defaultLanguage) == defaultLanguage
  {
  }

  /** A stored non-code such as "xx" is adopted as the language. */
  lemma UncheckedStoredValue(entries: map<string, string>)
    requires entries == map["app-language" := "xx"]
    ensures InitialLanguage(entries, DefaultStorageKey, DefaultLanguage) == "xx"
    ensures ParseCode(InitialLanguage(entries, DefaultStorageKey, DefaultLanguage)).None?
  {
  }

  /** Two consecutive `setLanguage` calls: the last one wins in memory and in storage, and no other key is touched. */
  method LastWriteWins(p: LanguageProvider, a: Language, b: Language)
    modifies p, p.store
    ensures p.language == Code(b)
    ensures p.store.entries == old(p.store.entries)[p.storageKey := Code(b)]
  {
    p.SetLanguage(a);
    p.SetLanguage(b);
  }

  /** What `useLanguage` receives: the provider's state, or the context's default outside any provider. */
  datatype LanguageContext = LanguageContext(language: string, persists: bool)

  /** The context default: English with a setter that does nothing. */
  const InitialContext := LanguageContext("en", false)

  /**
   * `useLanguage`: the nearest provider's context or else the default
   * (`useContext`), and an error only when that is undefined. The default
   * is never undefined, so the error is unreachable.
   */
  function UseLanguage(provided: Option<LanguageContext>): (r: Result<LanguageContext, string>)
    ensures r.Ok?
    ensures provided.None? ==> r.value.language == "en" && !r.value.persists
    ensures provided.Some? ==> r.value == provided.value
  {
    var context: Option<LanguageContext> := if provided.Some? then provided else Some(InitialContext);
    if context.None? then Err("useLanguage must be used within a LanguageProvider")
    else Ok(context.value)
  }
}

/**
 * context/LanguageContext.tsx: the language list and descriptors, the
 * translation function each render creates, and the provider's language
 * state with its persistence to local storage, a cookie and a window event.
 */
module LanguageContext {
  import opened Wrappers
  import opened Strings
  import opened TranslationTree
  import opened Translations

  /** LANGUAGES, in declaration order: the provider's `availableLanguages`. */
  function Languages(): (codes: seq<string>)
    ensures forall i :: 0 <= i < |codes| ==> ParseLang(codes[i]).Some?
    ensures forall l: Lang :: Code(l) in codes
  {
    [Code(En), Code(Tr)]
  }

  /** isValidLanguage: membership in LANGUAGES. */
  function IsValidLanguage(s: string): (ok: bool)
    ensures ok <==> s in Languages()
    ensures ok <==> ParseLang(s).Some?
  {
    s == "en" || s == "tr"
  }

  datatype LanguageInfo = LanguageInfo(code: string, name: string, nativeName: string, isRTL: bool)

  /** LANGUAGE_INFO */
  function Info(l: Lang): (info: LanguageInfo)
    ensures info.code == Code(l) && ParseLang(info.code) == Some(l) && !info.isRTL
    ensures (info.name == info.nativeName) <==> l == En
  {
    match l
    case En => LanguageInfo("en", "English", "English", false)
    case Tr => LanguageInfo("tr", "Turkish", "Türkçe", false)
  }

  /** A field of a serialised descriptor. */
  datatype JsonField = Text(key: string, text: string) | Flag(key: string, flag: bool)

  /** The `toJSON` of an entry of getAvailableLanguages: no `isRTL`, native name for Turkish. */
  function AvailableJson(info: LanguageInfo): seq<JsonField> {
    [Text("code", info.code),
     Text("name", if info.code == "tr" then info.nativeName else info.name),
     Text("nativeName", info.nativeName)]
  }

  /** The `toJSON` of getCurrentLanguageInfo: the same fields and `isRTL`. */
  function CurrentJson(info: LanguageInfo): seq<JsonField> {
    AvailableJson(info) + [Flag("isRTL", info.isRTL)]
  }

  /** getAvailableLanguages: one descriptor per language, in LANGUAGE_INFO order. */
  function AvailableLanguageInfos(): (infos: seq<LanguageInfo>)
    ensures |infos| == |Languages()|
    ensures forall i :: 0 <= i < |infos| ==> infos[i].code == Languages()[i]
  {
    [Info(En), Info(Tr)]
  }

  /**
   * Both serialised forms show each language under its native name, and only
   * the current-language form carries `isRTL`.
   */
  lemma DescriptorFacts(l: Lang)
    ensures AvailableJson(Info(l))[1] == Text("name", Info(l).nativeName)
    ensures CurrentJson(Info(l))[..3] == AvailableJson(Info(l))
    ensures CurrentJson(Info(l))[3] == Flag("isRTL", false)
    ensures forall f :: f in AvailableJson(Info(l)) ==> f.key != "isRTL"
  {
  }

  // ---------------------------------------------------------------------------
  // The translation function of the context

  /** One reduce step of getNestedValue: `current && typeof current === 'object' ? current[key] : undefined`. */
  function Step(current: Option<Node>, key: string): Option<Node> {
    match current
    case None => None
    case Some(n) => Child(n, key)
  }

  /** getNestedValue: `path.split('.').reduce(Step, obj)`, a left fold over the segments. */
  function FoldPath(start: Option<Node>, keys: seq<string>): Option<Node>
    decreases |keys|
  {
    if keys == [] then start else Step(FoldPath(start, keys[..|keys| - 1]), keys[|keys| - 1])
  }

  function GetNestedValue(obj: Node, path: string): (r: Option<Node>)
    ensures r == Walk(obj, Split(path, '.'))
  {
    FoldWalk(obj, Split(path, '.'));
    FoldPath(Some(obj), Split(path, '.'))
  }

  /** The fold reaches the node the walk of utils/translations.ts reaches. */
  lemma {:induction false} FoldWalk(n: Node, keys: seq<string>)
    ensures FoldPath(Some(n), keys) == Walk(n, keys)
    decreases |keys|
  {
    if keys != [] {
      var init := keys[..|keys| - 1];
      var last := keys[|keys| - 1];
      FoldWalk(n, init);
      assert init + [last] == keys;
      WalkAppend(n, init, [last]);
      match Walk(n, init)
      case None =>
      case Some(m) =>
        assert [last][1..] == [];
    }
  }

  /** The `translationErrors` array the context's translation function shares with `getErrors`. */
  class ErrorLog {
    var items: seq<TranslationError>

    constructor ()
      ensures items == []
    {
      items := [];
    }
  }

  /** createTranslationFunction(currentLanguage, fallbackLanguage = 'en'). */
  class ContextTranslator {
    const store: Bundle
    const currentLanguage: Lang
    const fallbackLanguage: Lang
    const log: ErrorLog

    constructor (store: Bundle, currentLanguage: Lang, fallbackLanguage: Lang)
      ensures this.store == store && this.currentLanguage == currentLanguage
      ensures this.fallbackLanguage == fallbackLanguage
      ensures fresh(log) && log.items == []
    {
      this.store := store;
      this.currentLanguage := currentLanguage;
      this.fallbackLanguage := fallbackLanguage;
      log := new ErrorLog();
    }

    method LogTranslationError(key: string, language: Lang, fallback: string)
      modifies log
      ensures log.items == old(log.items) + [TranslationError(key, language, fallback)]
    {
      log.items := log.items + [TranslationError(key, language, fallback)];
    }

    /** translateFunction: the same lookup order as the type-safe translator, through getNestedValue. */
    method Translate(key: string, fallback: string) returns (r: string)
      modifies log
      ensures r == Resolve(store, currentLanguage, fallbackLanguage, key, fallback).text
      ensures log.items == old(log.items) + Logged(Resolve(store, currentLanguage, fallbackLanguage, key, fallback))
    {
      if key == "" {
        return fallback;
      }
      var currentTranslation := GetNestedValue(store.Of(currentLanguage), key);
      if currentTranslation.Some? && currentTranslation.value.Str? {
        return currentTranslation.value.s;
      }
      if currentLanguage != fallbackLanguage {
        var fallbackTranslation := GetNestedValue(store.Of(fallbackLanguage), key);
        if fallbackTranslation.Some? && fallbackTranslation.value.Str? {
          LogTranslationError(key, currentLanguage, fallbackTranslation.value.s);
          return fallbackTranslation.value.s;
        }
      }
      var finalFallback := OrElse(fallback, key);
      LogTranslationError(key, currentLanguage, finalFallback);
      return finalFallback;
    }

    /** getErrors hands out the log itself, not a copy. */
    method GetErrors() returns (errors: ErrorLog)
      ensures errors == log
    {
      errors := log;
    }

    method ClearErrors()
      modifies log
      ensures log.items == []
    {
      log.items := [];
    }
  }

  /** The context translator and the type-safe translator answer and log alike. */
  method TranslatorsAgree(store: Bundle, language: Lang, fallbackLanguage: Lang, key: string, fallback: string)
    returns (a: string, b: string, logA: seq<TranslationError>, logB: seq<TranslationError>)
    ensures a == b && logA == logB
    ensures logA == Logged(Resolve(store, language, fallbackLanguage, key, fallback))
  {
    var c := new ContextTranslator(store, language, fallbackLanguage);
    var t := new TypeSafeTranslator(store, language, fallbackLanguage);
    a := c.Translate(key, fallback);
    b := t.Translate(key, fallback);
    logA := c.log.items;
    logB := t.errors;
  }

  /** A log obtained before a lookup shows the error that lookup records. */
  method LiveLogSeesLaterErrors(t: ContextTranslator, key: string, fallback: string) returns (view: ErrorLog)
    modifies t.log
    ensures view == t.log
    ensures view.items == old(t.log.items) + Logged(Resolve(t.store, t.currentLanguage, t.fallbackLanguage, key, fallback))
  {
    view := t.GetErrors();
    var _ := t.Translate(key, fallback);
  }

  // ---------------------------------------------------------------------------
  // The provider

  const StorageKey := "preferred-language"
  const OneYearInSeconds := 60 * 60 * 24 * 365

  const LoadWarning := "Failed to load language preference from localStorage:"
  const SaveWarning := "Failed to save language preference to localStorage:"

  function InvalidLanguageWarning(s: string): string {
    "Invalid language: " + s
  }

  /** The cookie setLanguage writes so that server-rendered metadata can read the choice. */
  function LanguageCookie(l: Lang): string {
    StorageKey + "=" + Code(l) + "; path=/; max-age=" + NatToString(OneYearInSeconds)
  }

  /** The language a stored value selects on mount, if it is a language at all. */
  function SavedLanguage(storage: map<string, string>): (saved: Option<Lang>)
    ensures saved.Some? <==> StorageKey in storage && IsValidLanguage(storage[StorageKey])
    ensures saved.Some? ==> Code(saved.value) == storage[StorageKey]
  {
    if StorageKey in storage then ParseLang(storage[StorageKey]) else None
  }

  function Other(l: Lang): (o: Lang)
    ensures o != l
  {
    match l
    case En => Tr
    case Tr => En
  }

  /**
   * LanguageProvider's state: the `language` and `isLoading` states, its
   * props, and the browser state it writes (local storage, the cookie, the
   * `languageChange` events dispatched, the `onLanguageChange` calls made and
   * the console warnings).
   */
  class LanguageProvider {
    var language: Lang
    var isLoading: bool
    const persistLanguage: bool
    const hasCallback: bool
    var storage: map<string, string>
    var cookie: string
    var events: seq<Lang>
    var callbacks: seq<Lang>
    var warnings: seq<string>

    /** First render: `initialLanguage || 'en'`, loading while a stored choice may still be read. */
    constructor (initialLanguage: Option<Lang>, persistLanguage: bool, hasCallback: bool, storage: map<string, string>)
      ensures language == initialLanguage.GetOr(En) && isLoading == persistLanguage
      ensures this.persistLanguage == persistLanguage && this.hasCallback == hasCallback
      ensures this.storage == storage && cookie == ""
      ensures events == [] && callbacks == [] && warnings == []
    {
      language := initialLanguage.GetOr(En);
      isLoading := persistLanguage;
      this.persistLanguage := persistLanguage;
      this.hasCallback := hasCallback;
      this.storage := storage;
      cookie := "";
      events := [];
      callbacks := [];
      warnings := [];
    }

    /** The mount effect: adopt a stored valid language; `readThrows` stands for a failing getItem. */
    method Mount(readThrows: bool)
      modifies this
      ensures !isLoading
      ensures language == (if persistLanguage && !readThrows && SavedLanguage(storage).Some?
                           then SavedLanguage(storage).value else old(language))
      ensures warnings == old(warnings) + (if persistLanguage && readThrows then [LoadWarning] else [])
      ensures storage == old(storage) && cookie == old(cookie)
      ensures events == old(events) && callbacks == old(callbacks)
    {
      if !persistLanguage {
        isLoading := false;
        return;
      }
      if readThrows {
        warnings := warnings + [LoadWarning];
      } else if StorageKey in storage {
        var savedLanguage := storage[StorageKey];
        if savedLanguage != "" && IsValidLanguage(savedLanguage) {
          language := ParseLang(savedLanguage).value;
        }
      }
      isLoading := false;
    }

    /**
     * setLanguage(newLanguage).  `writeThrows` stands for a failing setItem (the
     * cookie and the event are then skipped), `cookieThrows` for a cookie write
     * that fails and is ignored.
     */
    method SetLanguage(newLanguage: string, writeThrows: bool, cookieThrows: bool)
      modifies this
      ensures ParseLang(newLanguage).None? ==>
        && language == old(language) && storage == old(storage) && cookie == old(cookie)
        && events == old(events) && callbacks == old(callbacks)
        && warnings == old(warnings) + [InvalidLanguageWarning(newLanguage)]
      ensures ParseLang(newLanguage).Some? ==>
        var l := ParseLang(newLanguage).value;
        var persisted := persistLanguage && !writeThrows;
        && language == l
        && callbacks == old(callbacks) + (if hasCallback then [l] else [])
        && storage == (if persisted then old(storage)[StorageKey := newLanguage] else old(storage))
        && cookie == (if persisted && !cookieThrows then LanguageCookie(l) else old(cookie))
        && events == old(events) + (if persisted then [l] else [])
        && warnings == old(warnings) + (if persistLanguage && writeThrows then [SaveWarning] else [])
      ensures isLoading == old(isLoading)
    {
      if !IsValidLanguage(newLanguage) {
        warnings := warnings + [InvalidLanguageWarning(newLanguage)];
        return;
      }
      var l := ParseLang(newLanguage).value;
      language := l;
      if hasCallback {
        callbacks := callbacks + [l];
      }
      if !persistLanguage {
        return;
      }
      if writeThrows {
        warnings := warnings + [SaveWarning];
        return;
      }
      storage := storage[StorageKey := newLanguage];
      if !cookieThrows {
        cookie := LanguageCookie(l);
      }
      events := events + [l];
    }

    /** toggleLanguage: switch to the other language through setLanguage. */
    method ToggleLanguage(writeThrows: bool, cookieThrows: bool)
      modifies this
      ensures language == Other(old(language))
      ensures callbacks == old(callbacks) + (if hasCallback then [language] else [])
      ensures storage == (if persistLanguage && !writeThrows then old(storage)[StorageKey := Code(language)] else old(storage))
      ensures cookie == (if persistLanguage && !writeThrows && !cookieThrows then LanguageCookie(language) else old(cookie))
      ensures events == old(events) + (if persistLanguage && !writeThrows then [language] else [])
      ensures warnings == old(warnings) + (if persistLanguage && writeThrows then [SaveWarning] else [])
      ensures isLoading == old(isLoading)
    {
      var newLanguage := if language == En then Tr else En;
      SetLanguage(Code(newLanguage), writeThrows, cookieThrows);
    }

    /** getCurrentLanguageInfo */
    function CurrentLanguageInfo(): (info: LanguageInfo)
      reads this
      ensures info.code == Code(language)
    {
      Info(language)
    }

    /** `t` of the context value: a new translation function for the current language, with an empty log. */
    method CurrentTranslator(store: Bundle) returns (t: ContextTranslator)
      ensures fresh(t) && fresh(t.log) && t.log.items == []
      ensures t.store == store && t.currentLanguage == language && t.fallbackLanguage == En
    {
      t := new ContextTranslator(store, language, En);
    }
  }

  /** Toggling twice comes back to the starting language. */
  method ToggleTwice(p: LanguageProvider)
    modifies p
    ensures p.language == old(p.language)
  {
    p.ToggleLanguage(false, false);
    p.ToggleLanguage(false, false);
  }

  /**
   * A language saved by setLanguage is the one a later provider adopts on
   * mount, whatever its initial language.
   */
  method PersistenceRoundTrip(p: LanguageProvider, l: Lang, initial: Option<Lang>) returns (q: LanguageProvider)
    requires p.persistLanguage
    modifies p
    ensures fresh(q) && q.language == l && !q.isLoading
  {
    p.SetLanguage(Code(l), false, false);
    q := new LanguageProvider(initial, true, false, p.storage);
    assert SavedLanguage(q.storage) == Some(l);
    q.Mount(false);
  }

  /** The stored language is always a language code after setLanguage succeeds. */
  lemma SavedLanguageOfCode(storage: map<string, string>, l: Lang)
    ensures SavedLanguage(storage[StorageKey := Code(l)]) == Some(l)
  {
  }
}

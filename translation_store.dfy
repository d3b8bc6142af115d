/**
 * data/translations/index.ts: the two language files, the language list, the
 * default language and two lookups by dotted key path that do not fall back
 * to another language.  Its `languageInfo` table holds the same descriptors
 * as LanguageContext.Info.
 */
module TranslationStore {
  import opened Wrappers
  import opened Strings
  import opened TranslationTree
  import opened Translations

  /** availableLanguages */
  const AvailableLanguages: seq<Lang> := [En, Tr]

  /** defaultLanguage */
  const DefaultLanguage: Lang := En

  lemma LanguageListIsComplete()
    ensures forall l: Lang :: l in AvailableLanguages
    ensures DefaultLanguage in AvailableLanguages
    ensures |AvailableLanguages| == 2 && AvailableLanguages[0] != AvailableLanguages[1]
  {
    forall l: Lang ensures l in AvailableLanguages {
      match l
      case En => assert AvailableLanguages[0] == l;
      case Tr => assert AvailableLanguages[1] == l;
    }
  }

  /**
   * getTranslation(language, keyPath, fallback): the string at the path, or
   * `fallback || keyPath` when a segment is missing or the path ends at an
   * array or an object.  An omitted fallback is the empty string.
   */
  function GetTranslation(store: Bundle, language: Lang, keyPath: string, fallback: string): (text: string)
    ensures StringAt(store.Of(language), keyPath).Some? ==> text == StringAt(store.Of(language), keyPath).value
    ensures StringAt(store.Of(language), keyPath).None? ==> text == OrElse(fallback, keyPath)
    ensures StringAt(store.Of(language), keyPath).None? && keyPath != "" ==> text != ""
  {
    match Walk(store.Of(language), Split(keyPath, '.'))
    case Some(Str(s)) => s
    case _ => OrElse(fallback, keyPath)
  }

  /** getNestedTranslation(language, keyPath): the node at the path, or None for `null`. */
  function GetNestedTranslation(store: Bundle, language: Lang, keyPath: string): (node: Option<Node>)
    ensures (node.Some? && node.value.Str?) <==> StringAt(store.Of(language), keyPath).Some?
    ensures node.Some? && node.value.Str? ==> StringAt(store.Of(language), keyPath) == Some(node.value.s)
  {
    Walk(store.Of(language), Split(keyPath, '.'))
  }

  /** Where the nested lookup finds a string, getTranslation returns it whatever the fallback. */
  lemma NestedStringIsTranslation(store: Bundle, language: Lang, keyPath: string, fallback: string)
    ensures GetNestedTranslation(store, language, keyPath).Some? && GetNestedTranslation(store, language, keyPath).value.Str? ==>
      GetTranslation(store, language, keyPath, fallback) == GetNestedTranslation(store, language, keyPath).value.s
    ensures !(GetNestedTranslation(store, language, keyPath).Some? && GetNestedTranslation(store, language, keyPath).value.Str?) ==>
      GetTranslation(store, language, keyPath, fallback) == OrElse(fallback, keyPath)
  {
  }

  /** Both lookups read the requested language's file and no other. */
  lemma LookupsReadOneLanguage(a: Bundle, b: Bundle, language: Lang, keyPath: string, fallback: string)
    requires a.Of(language) == b.Of(language)
    ensures GetTranslation(a, language, keyPath, fallback) == GetTranslation(b, language, keyPath, fallback)
    ensures GetNestedTranslation(a, language, keyPath) == GetNestedTranslation(b, language, keyPath)
  {
  }

  /** In a well-formed file no key is empty, so the empty path finds nothing. */
  lemma EmptyPathFindsNothing(root: Node)
    requires root.Obj? && WellFormed(root)
    ensures StringAt(root, "") == None
  {
    assert Split("", '.') == [""];
    assert FindIndex(root.entries, "") == None;
  }

  /**
   * getTranslation answers what the translation function answers when the
   * fallback language is the language itself: the two differ only in that
   * the translation function also falls back to English.
   */
  lemma GetTranslationAgreesWithResolve(store: Bundle, language: Lang, keyPath: string, fallback: string)
    requires WellFormed(store.Of(language))
    ensures GetTranslation(store, language, keyPath, fallback)
      == Resolve(store, language, language, keyPath, fallback).text
  {
    if keyPath == "" {
      EmptyPathFindsNothing(store.Of(language));
    }
  }

  /**
   * For Turkish the translation function shows the English string where the
   * Turkish file lacks one; getTranslation shows `fallback || keyPath`.
   */
  lemma NoCrossLanguageFallback(store: Bundle, keyPath: string, fallback: string, english: string)
    requires keyPath != ""
    requires StringAt(store.Of(Tr), keyPath) == None && StringAt(store.Of(En), keyPath) == Some(english)
    ensures GetTranslation(store, Tr, keyPath, fallback) == OrElse(fallback, keyPath)
    ensures Resolve(store, Tr, En, keyPath, fallback).text == english
  {
  }
}

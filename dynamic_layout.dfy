/**
 * components/DynamicLayout.tsx: the `<html>` element whose `lang` attribute
 * follows the stored language.  On mount it reads the stored choice
 * (accepting only 'tr', anything else giving 'en'); on each `storage` or
 * `languageChange` event it adopts the stored value without checking it.
 */
module DynamicLayout {
  import opened Wrappers
  import opened Strings
  import opened TranslationTree
  import opened LanguageContext

  const UpdateWarning := "Failed to update language:"

  /** getInitialLanguage(): 'tr' exactly when the stored value is 'tr'; 'en' otherwise and when the read throws. */
  function InitialLanguage(storage: map<string, string>, readThrows: bool): (l: string)
    ensures l == "tr" <==> !readThrows && StorageKey in storage && storage[StorageKey] == "tr"
    ensures l == "tr" || l == "en"
  {
    if readThrows then "en"
    else if StorageKey in storage && storage[StorageKey] == "tr" then "tr"
    else "en"
  }

  /** `localStorage.getItem('preferred-language') || 'en'`: any non-empty stored string, unchecked. */
  function StoredLanguage(storage: map<string, string>): (l: string)
    ensures l != ""
    ensures StorageKey in storage && storage[StorageKey] != "" ==> l == storage[StorageKey]
    ensures !(StorageKey in storage && storage[StorageKey] != "") ==> l == "en"
  {
    OrElse(if StorageKey in storage then storage[StorageKey] else "", "en")
  }

  /** On a stored language code the two reads agree; they differ on any other stored string. */
  lemma ReadsAgreeOnCodes(storage: map<string, string>, l: Lang)
    requires StorageKey in storage && storage[StorageKey] == Code(l)
    ensures InitialLanguage(storage, false) == StoredLanguage(storage) == Code(l)
  {
  }

  class Layout {
    var language: string
    /** `document.documentElement.lang` */
    var htmlLang: string
    var listening: bool
    var warnings: seq<string>

    /** The rendered `<html lang>` and the document's `lang` are the same. */
    predicate Valid()
      reads this
    {
      htmlLang == language
    }

    /** First render: English, no listeners yet. */
    constructor ()
      ensures Valid() && language == "en" && !listening && warnings == []
    {
      language := "en";
      htmlLang := "en";
      listening := false;
      warnings := [];
    }

    /** The mount effect: set the initial language and start listening. */
    method Mount(storage: map<string, string>, readThrows: bool)
      requires Valid()
      modifies this
      ensures Valid()
      ensures language == InitialLanguage(storage, readThrows) && listening
      ensures warnings == old(warnings)
    {
      var initialLanguage := InitialLanguage(storage, readThrows);
      language := initialLanguage;
      htmlLang := initialLanguage;
      listening := true;
    }

    /** handleLanguageChange: adopt the stored value; a throwing read warns and changes nothing. */
    method HandleLanguageChange(storage: map<string, string>, readThrows: bool)
      requires Valid() && listening
      modifies this
      ensures Valid() && listening
      ensures readThrows ==> language == old(language) && warnings == old(warnings) + [UpdateWarning]
      ensures !readThrows ==> language == StoredLanguage(storage) && warnings == old(warnings)
    {
      if readThrows {
        warnings := warnings + [UpdateWarning];
        return;
      }
      var currentLanguage := StoredLanguage(storage);
      language := currentLanguage;
      htmlLang := currentLanguage;
    }

    /** The effect's cleanup: stop listening. */
    method Unmount()
      requires Valid()
      modifies this
      ensures Valid() && !listening && language == old(language) && warnings == old(warnings)
    {
      listening := false;
    }
  }

  /**
   * The layout follows the provider: after a persisted setLanguage the
   * `languageChange` event makes the document language the new code.
   */
  method LayoutFollowsProvider(p: LanguageProvider, layout: Layout, l: Lang)
    requires p.persistLanguage && layout.Valid() && layout.listening
    modifies p, layout
    ensures layout.Valid() && layout.language == Code(l) && layout.htmlLang == Code(l)
    ensures p.language == l && |p.events| == |old(p.events)| + 1
  {
    p.SetLanguage(Code(l), false, false);
    layout.HandleLanguageChange(p.storage, false);
  }

  /** An event adopts a stored string no language check would accept. */
  method EventAcceptsAnyStoredString(layout: Layout, storage: map<string, string>)
    requires layout.Valid() && layout.listening
    requires StorageKey in storage && storage[StorageKey] == "xx"
    modifies layout
    ensures layout.language == "xx" && !IsValidLanguage(layout.language)
  {
    layout.HandleLanguageChange(storage, false);
  }
}

/**
 * components/LanguageToggle.tsx: the EN/TR switch.  It derives its labels
 * from the provider's language, shows only a loading indicator while the
 * stored choice is being read, and otherwise toggles the provider's
 * language on a click or on Enter and Space.
 */
module LanguageToggle {
  import opened TranslationTree
  import opened LanguageContext

  datatype ToggleView =
    | Indicator
    | Switch(ariaLabel: string, ariaPressed: bool, ariaChecked: bool, current: string, target: string)

  /** The name of the language a click switches to. */
  function TargetName(language: Lang): (name: string)
    ensures name == Info(Other(language)).name
  {
    if language == En then "Turkish" else "English"
  }

  /** What the toggle renders for the provider's state. */
  function Render(language: Lang, isLoading: bool): (v: ToggleView)
    ensures v.Indicator? <==> isLoading
    ensures v.Switch? ==> v.ariaLabel == "Switch to " + Info(Other(language)).name
    ensures v.Switch? ==> (v.ariaPressed <==> language == Tr) && v.ariaChecked == v.ariaPressed
    ensures v.Switch? ==> v.current == Info(language).name && v.target == Info(Other(language)).name
  {
    if isLoading then Indicator
    else
      var current := if language == En then "English" else "Turkish";
      Switch("Switch to " + TargetName(language), language == Tr, language == Tr, current, TargetName(language))
  }

  /** After a toggle the label offers the language that was current before. */
  lemma LabelFlipsOnToggle(language: Lang)
    ensures Render(Other(language), false).ariaLabel == "Switch to " + Info(language).name
    ensures Render(Other(language), false).ariaPressed != Render(language, false).ariaPressed
  {
  }

  /** handleToggle: nothing while loading, otherwise toggleLanguage with all of its writes. */
  method HandleToggle(p: LanguageProvider, writeThrows: bool, cookieThrows: bool)
    modifies p
    ensures old(p.isLoading) ==> unchanged(p)
    ensures !old(p.isLoading) ==>
      var persisted := p.persistLanguage && !writeThrows;
      && p.language == Other(old(p.language))
      && p.isLoading == old(p.isLoading)
      && p.callbacks == old(p.callbacks) + (if p.hasCallback then [p.language] else [])
      && p.storage == (if persisted then old(p.storage)[StorageKey := Code(p.language)] else old(p.storage))
      && p.cookie == (if persisted && !cookieThrows then LanguageCookie(p.language) else old(p.cookie))
      && p.events == old(p.events) + (if persisted then [p.language] else [])
      && p.warnings == old(p.warnings) + (if p.persistLanguage && writeThrows then [SaveWarning] else [])
  {
    if p.isLoading {
      return;
    }
    p.ToggleLanguage(writeThrows, cookieThrows);
  }

  /** handleKeyDown: Enter and Space act as a click; any other key changes nothing. */
  method HandleKeyDown(p: LanguageProvider, key: string, writeThrows: bool, cookieThrows: bool)
    modifies p
    ensures key != "Enter" && key != " " ==> unchanged(p)
    ensures (key == "Enter" || key == " ") && old(p.isLoading) ==> unchanged(p)
    ensures (key == "Enter" || key == " ") && !old(p.isLoading) ==>
      var persisted := p.persistLanguage && !writeThrows;
      && p.language == Other(old(p.language))
      && p.isLoading == old(p.isLoading)
      && p.callbacks == old(p.callbacks) + (if p.hasCallback then [p.language] else [])
      && p.storage == (if persisted then old(p.storage)[StorageKey := Code(p.language)] else old(p.storage))
      && p.cookie == (if persisted && !cookieThrows then LanguageCookie(p.language) else old(p.cookie))
      && p.events == old(p.events) + (if persisted then [p.language] else [])
      && p.warnings == old(p.warnings) + (if p.persistLanguage && writeThrows then [SaveWarning] else [])
  {
    if key == "Enter" || key == " " {
      HandleToggle(p, writeThrows, cookieThrows);
    }
  }

  /** A click from English switches to Turkish and stores 'tr'. */
  method ClickFromEnglish(p: LanguageProvider)
    requires p.language == En && !p.isLoading && p.persistLanguage
    modifies p
    ensures p.language == Tr && StorageKey in p.storage && p.storage[StorageKey] == "tr"
    ensures Render(p.language, p.isLoading) == Switch("Switch to English", true, true, "Turkish", "English")
  {
    HandleToggle(p, false, false);
  }
}

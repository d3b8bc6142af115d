/**
 * utils/translations.ts: key validation and lookup over a language file, the
 * type-safe translation function with its error log, the completeness check
 * between two languages, interpolation, pluralisation and the key builder.
 */
module Translations {
  import opened Wrappers
  import opened Strings
  import opened TranslationTree

  // ---------------------------------------------------------------------------
  // Key lookup

  /**
   * getTranslationValue: split the key at '.', then advance a cursor one segment
   * at a time while it is an object holding that segment.
   */
  method GetTranslationValue(translations: Node, key: string) returns (r: Option<Node>)
    ensures r == Walk(translations, Split(key, '.'))
  {
    var keys := Split(key, '.');
    var current := translations;
    var i := 0;
    while i < |keys|
      invariant 0 <= i <= |keys|
      invariant Walk(translations, keys) == Walk(current, keys[i..])
    {
      var next := Child(current, keys[i]);
      if next.None? {
        return None;
      }
      current := next.value;
      i := i + 1;
    }
    return Some(current);
  }

  /** validateTranslationKey: the same walk, answering whether it ends at a string. */
  method ValidateTranslationKey(key: string, translations: Node) returns (ok: bool)
    ensures ok <==> Walk(translations, Split(key, '.')).Some? && Walk(translations, Split(key, '.')).value.Str?
  {
    var keys := Split(key, '.');
    var current := translations;
    for i := 0 to |keys|
      invariant Walk(translations, keys) == Walk(current, keys[i..])
    {
      var next := Child(current, keys[i]);
      if next.None? {
        return false;
      }
      current := next.value;
    }
    return current.Str?;
  }

  /** hasTranslationKey: validateTranslationKey against one language's file. */
  method HasTranslationKey(store: Bundle, key: string, language: Lang) returns (ok: bool)
    ensures ok <==> exists s :: Walk(store.Of(language), Split(key, '.')) == Some(Str(s))
  {
    ok := ValidateTranslationKey(key, store.Of(language));
    if ok {
      var v := Walk(store.Of(language), Split(key, '.')).value;
      assert v == Str(v.s);
    }
  }

  // ---------------------------------------------------------------------------
  // The translation function

  /** A degraded lookup: the key, the language that could not supply it, the text shown. */
  datatype TranslationError = TranslationError(key: string, language: Lang, fallback: string)

  /** What one call of the translation function returns and logs. */
  datatype Resolution = Resolution(text: string, error: Option<TranslationError>)

  function Logged(r: Resolution): seq<TranslationError> {
    match r.error
    case None => []
    case Some(e) => [e]
  }

  /** The string at `key` in a tree, if the walk ends at a string. */
  function StringAt(root: Node, key: string): Option<string> {
    match Walk(root, Split(key, '.'))
    case Some(Str(s)) => Some(s)
    case _ => None
  }

  /**
   * `t(key, fallback)`: the active language first, then the fallback language
   * (unless it is the active one), then `fallback || key`.  Every degraded
   * answer is recorded, with the active language.
   */
  function Resolve(store: Bundle, language: Lang, fallbackLanguage: Lang, key: string, fallback: string): (r: Resolution)
    ensures r.error.None? <==> key == "" || StringAt(store.Of(language), key).Some?
    ensures r.error.Some? ==> r.error.value == TranslationError(key, language, r.text)
    ensures key != "" && r.text == "" ==>
      StringAt(store.Of(language), key) == Some("") || StringAt(store.Of(fallbackLanguage), key) == Some("")
  {
    if key == "" then Resolution(fallback, None)
    else match StringAt(store.Of(language), key)
      case Some(s) => Resolution(s, None)
      case None =>
        var viaFallback := if language != fallbackLanguage then StringAt(store.Of(fallbackLanguage), key) else None;
        match viaFallback
        case Some(s) => Resolution(s, Some(TranslationError(key, language, s)))
        case None =>
          var finalFallback := OrElse(fallback, key);
          Resolution(finalFallback, Some(TranslationError(key, language, finalFallback)))
  }

  /** The four outcomes of a lookup, and that each call logs at most one error. */
  lemma ResolveOutcomes(store: Bundle, language: Lang, fallbackLanguage: Lang, key: string, fallback: string)
    ensures var r := Resolve(store, language, fallbackLanguage, key, fallback);
      && |Logged(r)| <= 1
      && (key == "" ==> r == Resolution(fallback, None))
      && (key != "" && StringAt(store.Of(language), key).Some? ==>
            r == Resolution(StringAt(store.Of(language), key).value, None))
      && (key != "" && StringAt(store.Of(language), key).None? && language != fallbackLanguage
            && StringAt(store.Of(fallbackLanguage), key).Some? ==>
            var s := StringAt(store.Of(fallbackLanguage), key).value;
            r == Resolution(s, Some(TranslationError(key, language, s))))
      && (key != "" && StringAt(store.Of(language), key).None?
            && (language == fallbackLanguage || StringAt(store.Of(fallbackLanguage), key).None?) ==>
            r == Resolution(OrElse(fallback, key), Some(TranslationError(key, language, OrElse(fallback, key)))))
      && (r.error.None? <==> key == "" || StringAt(store.Of(language), key).Some?)
  {
  }

  /**
   * The function returned by createTypeSafeTranslationFunction, with the
   * `errors` array its closure owns.
   */
  class TypeSafeTranslator {
    const store: Bundle
    const language: Lang
    const fallbackLanguage: Lang
    var errors: seq<TranslationError>

    constructor (store: Bundle, language: Lang, fallbackLanguage: Lang)
      ensures this.store == store && this.language == language && this.fallbackLanguage == fallbackLanguage
      ensures errors == []
    {
      this.store := store;
      this.language := language;
      this.fallbackLanguage := fallbackLanguage;
      errors := [];
    }

    method LogError(key: string, lang: Lang, fallback: string)
      modifies this
      ensures errors == old(errors) + [TranslationError(key, lang, fallback)]
    {
      errors := errors + [TranslationError(key, lang, fallback)];
    }

    /** translateFunction(key, fallback = '') */
    method Translate(key: string, fallback: string) returns (r: string)
      modifies this
      ensures r == Resolve(store, language, fallbackLanguage, key, fallback).text
      ensures errors == old(errors) + Logged(Resolve(store, language, fallbackLanguage, key, fallback))
    {
      if key == "" {
        return fallback;
      }
      var currentValue := GetTranslationValue(store.Of(language), key);
      if currentValue.Some? && currentValue.value.Str? {
        return currentValue.value.s;
      }
      if language != fallbackLanguage {
        var fallbackValue := GetTranslationValue(store.Of(fallbackLanguage), key);
        if fallbackValue.Some? && fallbackValue.value.Str? {
          LogError(key, language, fallbackValue.value.s);
          return fallbackValue.value.s;
        }
      }
      var finalFallback := OrElse(fallback, key);
      LogError(key, language, finalFallback);
      return finalFallback;
    }

    /** getErrors returns a copy: a value that later calls cannot change. */
    method GetErrors() returns (snapshot: seq<TranslationError>)
      ensures snapshot == errors
    {
      snapshot := errors;
    }

    method ClearErrors()
      modifies this
      ensures errors == []
    {
      errors := [];
    }

    /** hasErrors */
    function HasErrors(): (has: bool)
      reads this
      ensures has <==> errors != []
    {
      |errors| > 0
    }
  }

  /** A snapshot taken before a lookup still shows the log as it was then. */
  method SnapshotIsStable(t: TypeSafeTranslator, key: string, fallback: string) returns (before: seq<TranslationError>)
    modifies t
    ensures before == old(t.errors)
    ensures t.errors == before + Logged(Resolve(t.store, t.language, t.fallbackLanguage, key, fallback))
    ensures t.HasErrors() <==> before != [] || Logged(Resolve(t.store, t.language, t.fallbackLanguage, key, fallback)) != []
  {
    before := t.GetErrors();
    var _ := t.Translate(key, fallback);
  }

  // ---------------------------------------------------------------------------
  // Completeness between two languages

  /**
   * getAllKeys: the recursive `for...in` collection of leaf paths (arrays count
   * as leaves, plain objects are descended into).
   */
  method GetAllKeys(obj: Node, prefix: string) returns (keys: seq<string>)
    requires obj.Obj?
    ensures keys == LeafPathsFrom(obj, 0, prefix)
    decreases obj
  {
    keys := [];
    var i := 0;
    while i < |obj.entries|
      invariant 0 <= i <= |obj.entries|
      invariant LeafPathsFrom(obj, 0, prefix) == keys + LeafPathsFrom(obj, i, prefix)
    {
      var key := obj.entries[i].0;
      var value := obj.entries[i].1;
      var fullKey := FullKey(prefix, key);
      var here: seq<string>;
      if value.Obj? {
        here := GetAllKeys(value, fullKey);
      } else {
        here := [fullKey];
      }
      LeafPathsStep(obj, i, prefix, here);
      assert keys + (here + LeafPathsFrom(obj, i + 1, prefix)) == (keys + here) + LeafPathsFrom(obj, i + 1, prefix);
      keys := keys + here;
      i := i + 1;
    }
  }

  /** A key missing from the secondary language, with the primary's value (`value || ''`). */
  datatype MissingKeyError = MissingKeyError(key: string, language: Lang, fallback: Node)

  datatype CompletenessResult = CompletenessResult(
    isValid: bool,
    missingKeys: seq<string>,
    extraKeys: seq<string>,
    errors: seq<MissingKeyError>)

  /** `getTranslationValue(primary, key) as string || ''`: an absent or empty value becomes ''. */
  function PrimaryValueOrEmpty(v: Option<Node>): Node {
    match v
    case None => Str("")
    case Some(n) => if n == Str("") then Str("") else n
  }

  function NotIn(keys: seq<string>): string -> bool {
    k => k !in keys
  }

  /** validateTranslationCompleteness(primaryLang, secondaryLang) */
  method ValidateTranslationCompleteness(store: Bundle, primaryLang: Lang, secondaryLang: Lang)
    returns (res: CompletenessResult)
    ensures res.missingKeys == Filter(LeafPaths(store.Of(primaryLang)), NotIn(LeafPaths(store.Of(secondaryLang))))
    ensures res.extraKeys == Filter(LeafPaths(store.Of(secondaryLang)), NotIn(LeafPaths(store.Of(primaryLang))))
    ensures |res.errors| == |res.missingKeys|
    ensures forall i :: 0 <= i < |res.errors| ==>
      res.errors[i] == MissingKeyError(res.missingKeys[i], secondaryLang,
        PrimaryValueOrEmpty(Walk(store.Of(primaryLang), Split(res.missingKeys[i], '.'))))
    ensures res.isValid <==> res.missingKeys == [] && res.extraKeys == []
  {
    var primaryTranslations := store.Of(primaryLang);
    var secondaryTranslations := store.Of(secondaryLang);
    var primaryKeys := GetAllKeys(primaryTranslations, "");
    var secondaryKeys := GetAllKeys(secondaryTranslations, "");
    var missingKeys, errors := CollectMissing(primaryTranslations, primaryKeys, secondaryKeys, secondaryLang);
    var extraKeys := CollectExtra(secondaryKeys, primaryKeys);
    res := CompletenessResult(missingKeys == [] && extraKeys == [], missingKeys, extraKeys, errors);
  }

  /** The first loop of validateTranslationCompleteness: primary keys absent from the secondary list. */
  method CollectMissing(primaryTranslations: Node, primaryKeys: seq<string>, secondaryKeys: seq<string>, secondaryLang: Lang)
    returns (missingKeys: seq<string>, errors: seq<MissingKeyError>)
    ensures missingKeys == Filter(primaryKeys, NotIn(secondaryKeys))
    ensures |errors| == |missingKeys|
    ensures forall j :: 0 <= j < |errors| ==>
      errors[j] == MissingKeyError(missingKeys[j], secondaryLang,
        PrimaryValueOrEmpty(Walk(primaryTranslations, Split(missingKeys[j], '.'))))
  {
    missingKeys := [];
    errors := [];
    assert primaryKeys[0..] == primaryKeys;
    for i := 0 to |primaryKeys|
      invariant missingKeys + Filter(primaryKeys[i..], NotIn(secondaryKeys)) == Filter(primaryKeys, NotIn(secondaryKeys))
      invariant |errors| == |missingKeys|
      invariant forall j :: 0 <= j < |errors| ==>
        errors[j] == MissingKeyError(missingKeys[j], secondaryLang,
          PrimaryValueOrEmpty(Walk(primaryTranslations, Split(missingKeys[j], '.'))))
    {
      var key := primaryKeys[i];
      FilterStep(primaryKeys, i, NotIn(secondaryKeys));
      if key !in secondaryKeys {
        assert NotIn(secondaryKeys)(key);
        var value := GetTranslationValue(primaryTranslations, key);
        missingKeys := missingKeys + [key];
        errors := errors + [MissingKeyError(key, secondaryLang, PrimaryValueOrEmpty(value))];
      } else {
        assert !NotIn(secondaryKeys)(key);
      }
    }
    assert primaryKeys[|primaryKeys|..] == [];
  }

  /** The second loop of validateTranslationCompleteness: secondary keys absent from the primary list. */
  method CollectExtra(secondaryKeys: seq<string>, primaryKeys: seq<string>) returns (extraKeys: seq<string>)
    ensures extraKeys == Filter(secondaryKeys, NotIn(primaryKeys))
  {
    extraKeys := [];
    assert secondaryKeys[0..] == secondaryKeys;
    for j := 0 to |secondaryKeys|
      invariant extraKeys + Filter(secondaryKeys[j..], NotIn(primaryKeys)) == Filter(secondaryKeys, NotIn(primaryKeys))
    {
      var key := secondaryKeys[j];
      FilterStep(secondaryKeys, j, NotIn(primaryKeys));
      if key !in primaryKeys {
        assert NotIn(primaryKeys)(key);
        extraKeys := extraKeys + [key];
      } else {
        assert !NotIn(primaryKeys)(key);
      }
    }
    assert secondaryKeys[|secondaryKeys|..] == [];
  }

  /** Nothing passes a filter that rejects every element. */
  lemma {:induction false} FilterNone(s: seq<string>, keys: seq<string>)
    requires forall i :: 0 <= i < |s| ==> s[i] in keys
    ensures Filter(s, NotIn(keys)) == []
  {
    if s != [] {
      FilterNone(s[1..], keys);
    }
  }

  /** A language compared with itself has neither missing nor extra keys. */
  lemma SelfCompletenessIsValid(store: Bundle, l: Lang)
    ensures Filter(LeafPaths(store.Of(l)), NotIn(LeafPaths(store.Of(l)))) == []
  {
    FilterNone(LeafPaths(store.Of(l)), LeafPaths(store.Of(l)));
  }

  /** getAvailableTranslationKeys(language) */
  method GetAvailableTranslationKeys(store: Bundle, language: Lang) returns (keys: seq<string>)
    ensures keys == LeafPaths(store.Of(language))
  {
    keys := GetAllKeys(store.Of(language), "");
  }

  /** getTranslationStats(language) without its `completeness` percentage. */
  datatype TranslationStats = TranslationStats(totalKeys: nat, missingKeys: nat, extraKeys: nat, isComplete: bool)

  /** The language's own key count, and its missing and extra keys measured against English. */
  method GetTranslationStats(store: Bundle, language: Lang) returns (stats: TranslationStats)
    ensures stats.totalKeys == |LeafPaths(store.Of(language))|
    ensures stats.missingKeys == |Filter(LeafPaths(store.Of(En)), NotIn(LeafPaths(store.Of(language))))|
    ensures stats.extraKeys == |Filter(LeafPaths(store.Of(language)), NotIn(LeafPaths(store.Of(En))))|
    ensures stats.isComplete <==> stats.missingKeys == 0 && stats.extraKeys == 0
    ensures stats.missingKeys <= |LeafPaths(store.Of(En))| && stats.extraKeys <= stats.totalKeys
  {
    var keys := GetAvailableTranslationKeys(store, language);
    var validation := ValidateTranslationCompleteness(store, En, language);
    stats := TranslationStats(|keys|, |validation.missingKeys|, |validation.extraKeys|, validation.isValid);
  }

  /** English measured against itself is complete. */
  method EnglishStatsAreComplete(store: Bundle) returns (stats: TranslationStats)
    ensures stats.isComplete && stats.missingKeys == 0 && stats.extraKeys == 0
    ensures stats.totalKeys == |LeafPaths(store.en)|
  {
    stats := GetTranslationStats(store, En);
    SelfCompletenessIsValid(store, En);
  }

  /** findUnusedTranslationKeys: the available keys not listed as used, in order. */
  method FindUnusedTranslationKeys(store: Bundle, usedKeys: seq<string>, language: Lang) returns (unused: seq<string>)
    ensures unused == Filter(LeafPaths(store.Of(language)), NotIn(usedKeys))
    ensures forall i :: 0 <= i < |unused| ==> unused[i] !in usedKeys && unused[i] in LeafPaths(store.Of(language))
  {
    var allKeys := GetAvailableTranslationKeys(store, language);
    unused := Filter(allKeys, NotIn(usedKeys));
    FilterMembers(allKeys, NotIn(usedKeys));
  }

  // ---------------------------------------------------------------------------
  // Interpolation

  /** `\w`: ASCII letters, digits and underscore. */
  predicate IsWordChar(c: char) {
    'A' <= c <= 'Z' || 'a' <= c <= 'z' || '0' <= c <= '9' || c == '_'
  }

  /** Length of the run of word characters at the start of `s`. */
  function WordRun(s: string): (n: nat)
    ensures n <= |s|
    ensures forall i :: 0 <= i < n ==> IsWordChar(s[i])
    ensures n < |s| ==> !IsWordChar(s[n])
  {
    if s == [] || !IsWordChar(s[0]) then 0 else 1 + WordRun(s[1..])
  }

  /** Length of a `{{word}}` placeholder at the start of `s`, or 0 when there is none. */
  function PlaceholderAt(s: string): (n: nat)
    ensures n == 0 || (5 <= n <= |s| && s[0] == '{' && s[1] == '{' && s[n - 2] == '}' && s[n - 1] == '}')
  {
    if |s| >= 2 && s[0] == '{' && s[1] == '{' then
      var w := WordRun(s[2..]);
      if w > 0 && 4 + w <= |s| && s[2 + w] == '}' && s[3 + w] == '}' then 4 + w else 0
    else 0
  }

  /**
   * `template.replace(/\{\{(\w+)\}\}/g, (match, key) => variables[key]?.toString() || match)`,
   * as a left-to-right scan: at each position either a whole placeholder is
   * matched and replaced, or one character is copied.  `variables` maps each
   * name to its string form.
   */
  function Interpolate(template: string, variables: map<string, string>): (r: string)
    ensures r == [] <==> template == []
    decreases |template|
  {
    if template == [] then []
    else
      var n := PlaceholderAt(template);
      if n == 0 then [template[0]] + Interpolate(template[1..], variables)
      else
        var name := template[2..n - 2];
        var replacement := if name in variables && variables[name] != "" then variables[name] else template[..n];
        replacement + Interpolate(template[n..], variables)
  }

  predicate HasOpening(s: string) {
    exists i :: 0 <= i < |s| - 1 && s[i] == '{' && s[i + 1] == '{'
  }

  /** A template without "{{" comes back unchanged. */
  lemma {:induction false} InterpolateWithoutPlaceholder(template: string, variables: map<string, string>)
    requires !HasOpening(template)
    ensures Interpolate(template, variables) == template
    decreases |template|
  {
    if template != [] {
      assert PlaceholderAt(template) == 0;
      var rest := template[1..];
      forall i | 0 <= i < |rest| - 1
        ensures !(rest[i] == '{' && rest[i + 1] == '{')
      {
        assert rest[i] == template[i + 1] && rest[i + 1] == template[i + 2];
      }
      InterpolateWithoutPlaceholder(rest, variables);
      assert [template[0]] + rest == template;
    }
  }

  /** With no usable variable every placeholder is left verbatim. */
  lemma {:induction false} InterpolateNoVariables(template: string, variables: map<string, string>)
    requires forall name :: name in variables ==> variables[name] == ""
    ensures Interpolate(template, variables) == template
    decreases |template|
  {
    if template != [] {
      var n := PlaceholderAt(template);
      if n == 0 {
        InterpolateNoVariables(template[1..], variables);
        assert [template[0]] + template[1..] == template;
      } else {
        InterpolateNoVariables(template[n..], variables);
        assert template[..n] + template[n..] == template;
      }
    }
  }

  /** A lone placeholder whose variable has a non-empty value becomes that value. */
  lemma InterpolatePlaceholder(name: string, variables: map<string, string>)
    requires name != [] && forall i :: 0 <= i < |name| ==> IsWordChar(name[i])
    requires name in variables && variables[name] != ""
    ensures Interpolate("{{" + name + "}}", variables) == variables[name]
  {
    var t := "{{" + name + "}}";
    assert t[2..] == name + "}}";
    assert WordRun(t[2..]) == |name| by {
      WordRunPrefix(name, "}}");
    }
    assert t[2..|t| - 2] == name;
    assert t[|t|..] == [];
  }

  /** Text without '{' is copied through, and interpolation carries on after it. */
  lemma {:induction false} InterpolateLiteralPrefix(a: string, b: string, variables: map<string, string>)
    requires forall i :: 0 <= i < |a| ==> a[i] != '{'
    ensures Interpolate(a + b, variables) == a + Interpolate(b, variables)
    decreases |a|
  {
    if a != [] {
      assert (a + b)[0] == a[0] && PlaceholderAt(a + b) == 0;
      assert (a + b)[1..] == a[1..] + b;
      InterpolateLiteralPrefix(a[1..], b, variables);
      assert [a[0]] + a[1..] == a;
    } else {
      assert a + b == b;
    }
  }

  /**
   * A placeholder at the front becomes its variable's non-empty value, or
   * stays verbatim when the name is unknown or its value is empty; the rest
   * of the template is interpolated after it.
   */
  lemma InterpolatePlaceholderThen(name: string, b: string, variables: map<string, string>)
    requires name != [] && forall i :: 0 <= i < |name| ==> IsWordChar(name[i])
    ensures Interpolate("{{" + name + "}}" + b, variables)
      == (if name in variables && variables[name] != "" then variables[name] else "{{" + name + "}}") + Interpolate(b, variables)
  {
    var t := "{{" + name + "}}" + b;
    var n := 4 + |name|;
    assert t[2..] == name + ("}}" + b);
    WordRunPrefix(name, "}}" + b);
    assert PlaceholderAt(t) == n;
    assert t[2..n - 2] == name;
    assert t[..n] == "{{" + name + "}}";
    assert t[n..] == b;
  }

  /**
   * Text before a placeholder, as in the usage example "Hello {{name}}": the
   * text is kept and the placeholder is replaced by its non-empty value.
   */
  lemma InterpolateGreeting(greeting: string, name: string, variables: map<string, string>)
    requires forall i :: 0 <= i < |greeting| ==> greeting[i] != '{'
    requires name != [] && forall i :: 0 <= i < |name| ==> IsWordChar(name[i])
    requires name in variables && variables[name] != ""
    ensures Interpolate(greeting + ("{{" + name + "}}"), variables) == greeting + variables[name]
  {
    var placeholder := "{{" + name + "}}";
    InterpolateLiteralPrefix(greeting, placeholder, variables);
    InterpolatePlaceholderThen(name, "", variables);
    assert placeholder + "" == placeholder;
  }

  /** An unknown name stays verbatim even when other variables have values. */
  lemma InterpolateUnknownName(name: string, b: string, variables: map<string, string>)
    requires name != [] && forall i :: 0 <= i < |name| ==> IsWordChar(name[i])
    requires name !in variables
    ensures Interpolate("{{" + name + "}}" + b, variables) == "{{" + name + "}}" + Interpolate(b, variables)
  {
    InterpolatePlaceholderThen(name, b, variables);
  }

  lemma {:induction false} WordRunPrefix(w: string, tail: string)
    requires forall i :: 0 <= i < |w| ==> IsWordChar(w[i])
    requires tail != [] && !IsWordChar(tail[0])
    ensures WordRun(w + tail) == |w|
    decreases |w|
  {
    if w == [] {
      assert w + tail == tail;
    } else {
      assert (w + tail)[1..] == w[1..] + tail;
      WordRunPrefix(w[1..], tail);
    }
  }

  // ---------------------------------------------------------------------------
  // Pluralisation

  /** pluralize(count, singular, plural?, language) */
  function Pluralize(count: int, singular: string, plural: Option<string>, language: Lang): (r: string)
    ensures count == 1 ==> r == singular
    ensures count != 1 && plural.Some? && plural.value != "" ==> r == plural.value
    ensures count != 1 && (plural.None? || plural.value == "") ==> r == (if language == En then singular + "s" else singular)
  {
    if count == 1 then singular
    else if plural.Some? && plural.value != "" then plural.value
    else match language
      case En => singular + "s"
      case Tr => singular
  }

  /** The string formatTranslationWithCount builds from `t(key)` and `t('common.pluralSuffix')`. */
  function WithCount(count: int, translation: string, pluralSuffix: string, language: Lang): (s: string)
    ensures language == Tr ==> s == IntToString(count) + " " + translation
    ensures language == En ==> s == IntToString(count) + " " + translation + (if count == 1 then "" else pluralSuffix)
  {
    if language == Tr then IntToString(count) + " " + translation
    else IntToString(count) + " " + (if count == 1 then translation else translation + pluralSuffix)
  }

  /** formatTranslationWithCount(t, key, count, language): both lookups go through `t` and its log. */
  method FormatTranslationWithCount(t: TypeSafeTranslator, key: string, count: int, language: Lang) returns (s: string)
    modifies t
    ensures s == WithCount(count,
      Resolve(t.store, t.language, t.fallbackLanguage, key, "").text,
      Resolve(t.store, t.language, t.fallbackLanguage, "common.pluralSuffix", "").text,
      language)
    ensures t.errors == old(t.errors)
      + Logged(Resolve(t.store, t.language, t.fallbackLanguage, key, ""))
      + Logged(Resolve(t.store, t.language, t.fallbackLanguage, "common.pluralSuffix", ""))
  {
    var translation := t.Translate(key, "");
    var pluralSuffix := t.Translate("common.pluralSuffix", "");
    if language == Tr {
      return IntToString(count) + " " + translation;
    }
    var pluralized := if count == 1 then translation else translation + pluralSuffix;
    return IntToString(count) + " " + pluralized;
  }

  // ---------------------------------------------------------------------------
  // Key builder

  /** TranslationKeyBuilder: collects segments and joins them with '.'. */
  class TranslationKeyBuilder {
    var parts: seq<string>

    /** TranslationKeyBuilder.create() */
    constructor ()
      ensures parts == []
    {
      parts := [];
    }

    method Push(segment: string) returns (self: TranslationKeyBuilder)
      modifies this
      ensures parts == old(parts) + [segment] && self == this
    {
      parts := parts + [segment];
      self := this;
    }

    method Navigation() returns (self: TranslationKeyBuilder)
      modifies this
      ensures parts == old(parts) + ["navigation"] && self == this
    {
      self := Push("navigation");
    }

    method Projects() returns (self: TranslationKeyBuilder)
      modifies this
      ensures parts == old(parts) + ["projects"] && self == this
    {
      self := Push("projects");
    }

    method ProjectDetails() returns (self: TranslationKeyBuilder)
      modifies this
      ensures parts == old(parts) + ["projectDetails"] && self == this
    {
      self := Push("projectDetails");
    }

    method Common() returns (self: TranslationKeyBuilder)
      modifies this
      ensures parts == old(parts) + ["common"] && self == this
    {
      self := Push("common");
    }

    method Accessibility() returns (self: TranslationKeyBuilder)
      modifies this
      ensures parts == old(parts) + ["accessibility"] && self == this
    {
      self := Push("accessibility");
    }

    method Key(key: string) returns (self: TranslationKeyBuilder)
      modifies this
      ensures parts == old(parts) + [key] && self == this
    {
      self := Push(key);
    }

    /** build(): the dotted key, which splits back into exactly the collected segments. */
    method Build() returns (key: string)
      ensures key == Join(parts, ".")
      ensures |parts| >= 1 && (forall i :: 0 <= i < |parts| ==> '.' !in parts[i]) ==> Split(key, '.') == parts
    {
      key := Join(parts, ".");
      if |parts| >= 1 && (forall i :: 0 <= i < |parts| ==> '.' !in parts[i]) {
        SplitJoin(parts, '.');
      }
    }
  }

  /** `tk().navigation().key('home').build()` is "navigation.home". */
  method BuildNavigationHome() returns (key: string)
    ensures key == "navigation.home"
  {
    var b := new TranslationKeyBuilder();
    var b1 := b.Navigation();
    var b2 := b1.Key("home");
    key := b2.Build();
  }
}

/**
 * utils/translationTesting.ts: a mock translation function over a flat table,
 * and the helpers that check key existence, translation answers,
 * interpolation and pluralisation.
 */
module TranslationTesting {
  import opened Wrappers
  import opened Strings
  import opened TranslationTree
  import opened Translations

  /** createMockTranslationFunction(mockTranslations): its table and its `errors` array. */
  class MockTranslator {
    const mockTranslations: map<string, string>
    var errors: seq<TranslationError>

    constructor (mockTranslations: map<string, string>)
      ensures this.mockTranslations == mockTranslations && errors == []
    {
      this.mockTranslations := mockTranslations;
      errors := [];
    }

    /** mockT(key, fallback = ''): a non-empty table entry, else `fallback || key`, logged against 'en'. */
    method Translate(key: string, fallback: string) returns (r: string)
      modifies this
      ensures key in mockTranslations && mockTranslations[key] != "" ==>
        r == mockTranslations[key] && errors == old(errors)
      ensures !(key in mockTranslations && mockTranslations[key] != "") ==>
        r == OrElse(fallback, key) && errors == old(errors) + [TranslationError(key, En, r)]
    {
      if key in mockTranslations && mockTranslations[key] != "" {
        return mockTranslations[key];
      }
      errors := errors + [TranslationError(key, En, OrElse(fallback, key))];
      return OrElse(fallback, key);
    }

    /** getErrors: a copy. */
    method GetErrors() returns (snapshot: seq<TranslationError>)
      ensures snapshot == errors
    {
      snapshot := errors;
    }

    method ClearErrors()
      modifies this
      ensures errors == []
    {
      errors := [];
    }

    function HasErrors(): (has: bool)
      reads this
      ensures has <==> errors != []
    {
      |errors| > 0
    }
  }

  /** A miss through the mock always shows a non-empty text when the key is non-empty, and is logged. */
  method MockMissIsLogged(m: MockTranslator, key: string, fallback: string) returns (r: string)
    requires !(key in m.mockTranslations && m.mockTranslations[key] != "") && key != ""
    modifies m
    ensures r != "" && m.HasErrors()
    ensures m.errors[|m.errors| - 1] == TranslationError(key, En, r)
  {
    r := m.Translate(key, fallback);
  }

  // ---------------------------------------------------------------------------
  // Key existence

  function In(keys: seq<string>): string -> bool {
    k => k in keys
  }

  /**
   * testTranslationKeyExistence(keys, languages): for each language, the
   * given keys that validateTranslationCompleteness('en', language) reports
   * missing, in the order given.
   */
  method TestTranslationKeyExistence(store: Bundle, keys: seq<string>, languages: seq<Lang>)
    returns (results: map<Lang, seq<string>>)
    ensures forall l :: l in results <==> l in languages
    ensures forall l :: l in results ==>
      results[l] == Filter(keys, In(Filter(LeafPaths(store.Of(En)), NotIn(LeafPaths(store.Of(l))))))
  {
    results := map[];
    for i := 0 to |languages|
      invariant forall l :: l in results <==> l in languages[..i]
      invariant forall l :: l in results ==>
        results[l] == Filter(keys, In(Filter(LeafPaths(store.Of(En)), NotIn(LeafPaths(store.Of(l))))))
    {
      var language := languages[i];
      var validation := ValidateTranslationCompleteness(store, En, language);
      var missingKeys := Filter(keys, In(validation.missingKeys));
      results := results[language := missingKeys];
      assert languages[..i + 1] == languages[..i] + [language];
    }
    assert languages[..|languages|] == languages;
  }

  lemma {:induction false} FilterNothingIn(keys: seq<string>)
    ensures Filter(keys, In([])) == []
  {
    if keys != [] {
      FilterNothingIn(keys[1..]);
    }
  }

  /** English is never reported missing anything: it is compared with itself. */
  lemma EnglishMissesNothing(store: Bundle, keys: seq<string>)
    ensures Filter(keys, In(Filter(LeafPaths(store.Of(En)), NotIn(LeafPaths(store.Of(En)))))) == []
  {
    SelfCompletenessIsValid(store, En);
    FilterNothingIn(keys);
  }

  // ---------------------------------------------------------------------------
  // Translation function checks

  datatype TestCase = TestCase(key: string, expected: Option<string>, fallback: Option<string>, description: string)

  datatype TestOutcome = TestOutcome(key: string, expected: Option<string>, actual: string, passed: bool, description: string)

  /** One case: `expected` (when truthy) must be matched, otherwise the answer must differ from the key. */
  function RunCase(t: (string, string) -> string, c: TestCase): TestOutcome {
    var actual := t(c.key, c.fallback.GetOr(""));
    var passed := if c.expected.Some? && c.expected.value != "" then actual == c.expected.value else actual != c.key;
    TestOutcome(c.key, c.expected, actual, passed, c.description)
  }

  /** testTranslationFunction(t, testCases): one outcome per case, in order. */
  function TestTranslationFunction(t: (string, string) -> string, testCases: seq<TestCase>): (outcomes: seq<TestOutcome>)
    ensures |outcomes| == |testCases|
    ensures forall i :: 0 <= i < |testCases| ==>
      outcomes[i].key == testCases[i].key && outcomes[i].description == testCases[i].description
      && outcomes[i] == RunCase(t, testCases[i])
  {
    if testCases == [] then [] else [RunCase(t, testCases[0])] + TestTranslationFunction(t, testCases[1..])
  }

  /** The answers of a translator, as a function of key and fallback (its log aside). */
  function Answer(store: Bundle, language: Lang): (string, string) -> string {
    (key, fallback) => Resolve(store, language, En, key, fallback).text
  }

  /**
   * The suite's checks on the real translation function: an empty key with a
   * fallback passes, and a key neither language holds passes with a fallback
   * given as expected.
   */
  lemma TranslationFunctionChecks(store: Bundle, language: Lang, key: string, fallback: string, description: string)
    requires fallback != ""
    ensures RunCase(Answer(store, language), TestCase("", Some(fallback), Some(fallback), description)).passed
    ensures key != "" && StringAt(store.Of(language), key).None? && StringAt(store.Of(En), key).None? ==>
      RunCase(Answer(store, language), TestCase(key, Some(fallback), Some(fallback), description)).passed
  {
  }

  /** testTranslationInterpolation: the interpolation of the template is exactly `expected`. */
  function TestTranslationInterpolation(template: string, variables: map<string, string>, expected: string): (passed: bool)
    ensures passed ==> (expected == [] <==> template == [])
  {
    Interpolate(template, variables) == expected
  }

  lemma InterpolationChecks(template: string, variables: map<string, string>, name: string)
    ensures !HasOpening(template) ==> TestTranslationInterpolation(template, variables, template)
    ensures (forall n :: n in variables ==> variables[n] == "") ==> TestTranslationInterpolation(template, variables, template)
    ensures name != [] && (forall i :: 0 <= i < |name| ==> IsWordChar(name[i])) && name in variables && variables[name] != "" ==>
      TestTranslationInterpolation("{{" + name + "}}", variables, variables[name])
  {
    if !HasOpening(template) {
      InterpolateWithoutPlaceholder(template, variables);
    }
    if forall n :: n in variables ==> variables[n] == "" {
      InterpolateNoVariables(template, variables);
    }
    if name != [] && (forall i :: 0 <= i < |name| ==> IsWordChar(name[i])) && name in variables && variables[name] != "" {
      InterpolatePlaceholder(name, variables);
    }
  }

  // ---------------------------------------------------------------------------
  // Pluralisation checks

  datatype PluralCase = PluralCase(count: int, singular: string, plural: Option<string>, expected: string)

  datatype PluralOutcome = PluralOutcome(count: int, singular: string, plural: Option<string>, expected: string,
                                         actual: string, passed: bool)

  /** The form testPluralization computes for one case. */
  function PluralActual(language: Lang, c: PluralCase): string {
    if c.count == 1 then c.singular
    else if c.plural.Some? && c.plural.value != "" then c.plural.value
    else if language == En then c.singular + "s"
    else c.singular
  }

  /** testPluralization(language, testCases) */
  function TestPluralization(language: Lang, testCases: seq<PluralCase>): (outcomes: seq<PluralOutcome>)
    ensures |outcomes| == |testCases|
    ensures forall i :: 0 <= i < |testCases| ==>
      var c := testCases[i];
      outcomes[i] == PluralOutcome(c.count, c.singular, c.plural, c.expected,
        Pluralize(c.count, c.singular, c.plural, language),
        Pluralize(c.count, c.singular, c.plural, language) == c.expected)
  {
    if testCases == [] then []
    else
      var c := testCases[0];
      var actual := PluralActual(language, c);
      PluralActualIsPluralize(language, c);
      [PluralOutcome(c.count, c.singular, c.plural, c.expected, actual, actual == c.expected)]
        + TestPluralization(language, testCases[1..])
  }

  /** The test helper computes the same form as pluralize. */
  lemma PluralActualIsPluralize(language: Lang, c: PluralCase)
    ensures PluralActual(language, c) == Pluralize(c.count, c.singular, c.plural, language)
  {
  }
}

/**
 * utils/translationValidation.ts: every leaf path of the English file is
 * looked up in another language and classified as missing, empty, of another
 * type, or valid; errors, warnings and counters are collected on the way.
 */
module TranslationValidation {
  import opened Wrappers
  import opened Strings
  import opened TranslationTree
  import TranslationStore

  // ---------------------------------------------------------------------------
  // Paths

  /** getObjectPaths(obj, prefix): one path per string or array leaf, in `for...in` order. */
  method GetObjectPaths(obj: Node, prefix: string) returns (paths: seq<string>)
    requires obj.Obj?
    ensures paths == LeafPathsFrom(obj, 0, prefix)
    decreases obj
  {
    paths := [];
    var i := 0;
    while i < |obj.entries|
      invariant 0 <= i <= |obj.entries|
      invariant LeafPathsFrom(obj, 0, prefix) == paths + LeafPathsFrom(obj, i, prefix)
    {
      var key := obj.entries[i].0;
      var value := obj.entries[i].1;
      var currentPath := FullKey(prefix, key);
      var emitted: seq<string>;
      if value.Obj? {
        emitted := GetObjectPaths(value, currentPath);
      } else {
        emitted := [currentPath];
      }
      LeafPathsStep(obj, i, prefix, emitted);
      assert paths + (emitted + LeafPathsFrom(obj, i + 1, prefix)) == (paths + emitted) + LeafPathsFrom(obj, i + 1, prefix);
      paths := paths + emitted;
      i := i + 1;
    }
  }

  /** getValueByPath(obj, path): the node at the dotted path, None for `undefined`. */
  method GetValueByPath(obj: Node, path: string) returns (r: Option<Node>)
    ensures r == Walk(obj, Split(path, '.'))
  {
    var keys := Split(path, '.');
    var current := obj;
    for i := 0 to |keys|
      invariant Walk(obj, keys) == Walk(current, keys[i..])
    {
      var next := Child(current, keys[i]);
      if next.None? {
        return None;
      }
      current := next.value;
    }
    return Some(current);
  }

  /** The paths getObjectPaths emits lead back to their leaves, none of which is an object. */
  lemma ObjectPathsLeadToLeaves(root: Root)
    requires WellFormed(root)
    ensures forall j :: 0 <= j < |LeafPaths(root)| ==>
      Walk(root, Split(LeafPaths(root)[j], '.')).Some? && !Walk(root, Split(LeafPaths(root)[j], '.')).value.Obj?
  {
    LeafPathsResolve(root);
  }

  // ---------------------------------------------------------------------------
  // Classification of one path

  /** The characters `String.prototype.trim` removes. */
  predicate IsJsWhitespace(c: char) {
    || c == '\t' || c == '\n' || c == '\U{000B}' || c == '\U{000C}' || c == '\r' || c == ' '
    || c == '\U{00A0}' || c == '\U{1680}' || ('\U{2000}' <= c <= '\U{200A}')
    || c == '\U{2028}' || c == '\U{2029}' || c == '\U{202F}' || c == '\U{205F}'
    || c == '\U{3000}' || c == '\U{FEFF}'
  }

  /** `s.trim() === ''` */
  predicate IsBlank(s: string) {
    forall i :: 0 <= i < |s| ==> IsJsWhitespace(s[i])
  }

  datatype KeyClass = Missing | Empty | Mismatch | Valid

  /** The checks of both validators, in their order. */
  function Classify(referenceValue: Option<Node>, currentValue: Option<Node>): (c: KeyClass)
    ensures c == Missing <==> currentValue.None?
    ensures c == Empty <==> currentValue.Some? && currentValue.value.Str? && IsBlank(currentValue.value.s)
    ensures c == Mismatch <==>
      currentValue.Some? && !(currentValue.value.Str? && IsBlank(currentValue.value.s))
      && TypeOf(referenceValue) != TypeOf(currentValue)
    ensures c == Valid ==> currentValue.Some? && TypeOf(referenceValue) == TypeOf(currentValue)
  {
    if currentValue.None? then Missing
    else if currentValue.value.Str? && IsBlank(currentValue.value.s) then Empty
    else if TypeOf(referenceValue) != TypeOf(currentValue) then Mismatch
    else Valid
  }

  datatype ErrorKind = MissingKey | TypeMismatch | EmptyValue | StructureMismatch

  datatype ValidationError = ValidationError(
    kind: ErrorKind,
    language: Lang,
    keyPath: string,
    expected: Option<string>,
    actual: Option<string>,
    message: string)

  datatype Summary = Summary(totalKeys: nat, validKeys: nat, missingKeys: nat, emptyValues: nat)

  datatype ValidationResult = ValidationResult(
    isValid: bool,
    errors: seq<ValidationError>,
    warnings: seq<ValidationError>,
    summary: Summary)

  /**
   * The two validators differ in their messages (validateTranslations names the
   * language) and in the array-length warning only validateTranslations issues.
   */
  datatype Style = PerLanguage | AllLanguages

  function InLanguage(style: Style, language: Lang): string {
    if style == AllLanguages then " in " + Code(language) else ""
  }

  /** What one path adds: its class and its errors and warnings. */
  datatype PathOutcome = PathOutcome(cls: KeyClass, errors: seq<ValidationError>, warnings: seq<ValidationError>)

  function Outcome(style: Style, reference: Node, current: Node, language: Lang, path: string): PathOutcome {
    OutcomeOf(style, language, path, Walk(reference, Split(path, '.')), Walk(current, Split(path, '.')))
  }

  /** The outcome of a path from the two looked-up values. */
  function OutcomeOf(style: Style, language: Lang, path: string, referenceValue: Option<Node>, currentValue: Option<Node>)
    : PathOutcome
  {
    var where := path + InLanguage(style, language);
    match Classify(referenceValue, currentValue)
    case Missing =>
      PathOutcome(Missing, [ValidationError(MissingKey, language, path, None, None,
        "Missing translation key: " + where)], [])
    case Empty =>
      PathOutcome(Empty, [], [ValidationError(EmptyValue, language, path, None, None,
        "Empty translation value for key: " + where)])
    case Mismatch =>
      PathOutcome(Mismatch, [ValidationError(TypeMismatch, language, path,
        Some(TypeOf(referenceValue)), Some(TypeOf(currentValue)),
        "Type mismatch for key: " + where + ". Expected " + TypeOf(referenceValue) + ", got " + TypeOf(currentValue))], [])
    case Valid =>
      PathOutcome(Valid, [], LengthWarning(style, language, path, where, referenceValue, currentValue))
  }

  /** validateTranslations' warning for two arrays of different lengths. */
  function LengthWarning(style: Style, language: Lang, path: string, where: string,
                         referenceValue: Option<Node>, currentValue: Option<Node>): seq<ValidationError>
  {
    if style == AllLanguages && referenceValue.Some? && referenceValue.value.Arr?
      && currentValue.Some? && currentValue.value.Arr?
      && |referenceValue.value.items| != |currentValue.value.items|
    then
      var expected := NatToString(|referenceValue.value.items|);
      var actual := NatToString(|currentValue.value.items|);
      [ValidationError(StructureMismatch, language, path,
        Some("array length " + expected), Some("array length " + actual),
        "Array length mismatch for key: " + where + ". Expected " + expected + " items, got " + actual)]
    else []
  }

  /** The four branches of OutcomeOf, one at a time. */
  lemma OutcomeBranches(style: Style, language: Lang, path: string, referenceValue: Option<Node>, currentValue: Option<Node>)
    ensures var o := OutcomeOf(style, language, path, referenceValue, currentValue);
      var where := path + InLanguage(style, language);
      && (currentValue.None? ==>
            o == PathOutcome(Missing, [ValidationError(MissingKey, language, path, None, None,
              "Missing translation key: " + where)], []))
      && (currentValue.Some? && currentValue.value.Str? && IsBlank(currentValue.value.s) ==>
            o == PathOutcome(Empty, [], [ValidationError(EmptyValue, language, path, None, None,
              "Empty translation value for key: " + where)]))
      && (currentValue.Some? && !(currentValue.value.Str? && IsBlank(currentValue.value.s))
          && TypeOf(referenceValue) != TypeOf(currentValue) ==>
            o == PathOutcome(Mismatch, [ValidationError(TypeMismatch, language, path,
              Some(TypeOf(referenceValue)), Some(TypeOf(currentValue)),
              "Type mismatch for key: " + where + ". Expected " + TypeOf(referenceValue) + ", got " + TypeOf(currentValue))], []))
      && (currentValue.Some? && !(currentValue.value.Str? && IsBlank(currentValue.value.s))
          && TypeOf(referenceValue) == TypeOf(currentValue) ==>
            o == PathOutcome(Valid, [], LengthWarning(style, language, path, where, referenceValue, currentValue)))
  {
  }

  // ---------------------------------------------------------------------------
  // Collecting over the reference paths

  /** The arrays and counters the validators accumulate. */
  datatype Tally = Tally(errors: seq<ValidationError>, warnings: seq<ValidationError>, valid: nat, missing: nat, empty: nat)

  const Zero := Tally([], [], 0, 0, 0)

  function Add(t: Tally, o: PathOutcome): Tally {
    Tally(t.errors + o.errors, t.warnings + o.warnings,
      t.valid + (if o.cls == Valid then 1 else 0),
      t.missing + (if o.cls == Missing then 1 else 0),
      t.empty + (if o.cls == Empty then 1 else 0))
  }

  /** The loop over the reference paths, continuing from `start`. */
  function Run(start: Tally, style: Style, reference: Node, current: Node, language: Lang, paths: seq<string>): (t: Tally)
    ensures start.errors <= t.errors && start.warnings <= t.warnings
    ensures start.valid <= t.valid && start.missing <= t.missing && start.empty <= t.empty
    ensures t.valid + t.missing + t.empty <= start.valid + start.missing + start.empty + |paths|
    decreases |paths|
  {
    if paths == [] then start
    else Run(Add(start, Outcome(style, reference, current, language, paths[0])), style, reference, current, language, paths[1..])
  }

  /** One turn of either validator's inner loop, from the two looked-up values. */
  lemma RunStep(start: Tally, style: Style, reference: Node, current: Node, language: Lang, paths: seq<string>, i: nat,
                referenceValue: Option<Node>, currentValue: Option<Node>)
    requires i < |paths|
    requires referenceValue == Walk(reference, Split(paths[i], '.')) && currentValue == Walk(current, Split(paths[i], '.'))
    ensures Run(start, style, reference, current, language, paths[i..])
      == Run(Add(start, OutcomeOf(style, language, paths[i], referenceValue, currentValue)),
             style, reference, current, language, paths[i + 1..])
  {
    assert paths[i..][0] == paths[i] && paths[i..][1..] == paths[i + 1..];
  }

  /** The outer loop of validateTranslations over the language list, skipping English. */
  function RunLanguages(start: Tally, store: Bundle, paths: seq<string>, languages: seq<Lang>): Tally
    decreases |languages|
  {
    if languages == [] then start
    else
      var next := if languages[0] == En then start else Run(start, AllLanguages, store.Of(En), store.Of(languages[0]), languages[0], paths);
      RunLanguages(next, store, paths, languages[1..])
  }

  function ResultOf(t: Tally, totalKeys: nat): ValidationResult {
    ValidationResult(|t.errors| == 0, t.errors, t.warnings, Summary(totalKeys, t.valid, t.missing, t.empty))
  }

  /** validateLanguage(language) */
  method ValidateLanguage(store: Bundle, language: Lang) returns (res: ValidationResult)
    ensures var paths := LeafPaths(store.Of(En));
      res == ResultOf(Run(Zero, PerLanguage, store.Of(En), store.Of(language), language, paths), |paths|)
  {
    var referenceTranslation := store.Of(En);
    var currentTranslation := store.Of(language);
    var referencePaths := GetObjectPaths(referenceTranslation, "");
    var errors: seq<ValidationError> := [];
    var warnings: seq<ValidationError> := [];
    var validKeys: nat, missingKeys: nat, emptyValues: nat := 0, 0, 0;
    assert referencePaths[0..] == referencePaths;
    for i := 0 to |referencePaths|
      invariant Run(Zero, PerLanguage, referenceTranslation, currentTranslation, language, referencePaths)
        == Run(Tally(errors, warnings, validKeys, missingKeys, emptyValues), PerLanguage,
               referenceTranslation, currentTranslation, language, referencePaths[i..])
    {
      var path := referencePaths[i];
      var referenceValue := GetValueByPath(referenceTranslation, path);
      var currentValue := GetValueByPath(currentTranslation, path);
      RunStep(Tally(errors, warnings, validKeys, missingKeys, emptyValues), PerLanguage,
        referenceTranslation, currentTranslation, language, referencePaths, i, referenceValue, currentValue);
      errors, warnings, validKeys, missingKeys, emptyValues :=
        CheckLanguagePath(language, path, referenceValue, currentValue, errors, warnings, validKeys, missingKeys, emptyValues);
    }
    res := ValidationResult(|errors| == 0, errors, warnings,
      Summary(|referencePaths|, validKeys, missingKeys, emptyValues));
  }

  /** The body of validateLanguage's loop for one reference path. */
  method CheckLanguagePath(language: Lang, path: string, referenceValue: Option<Node>, currentValue: Option<Node>,
                           errors: seq<ValidationError>, warnings: seq<ValidationError>,
                           validKeys: nat, missingKeys: nat, emptyValues: nat)
    returns (errors': seq<ValidationError>, warnings': seq<ValidationError>,
             validKeys': nat, missingKeys': nat, emptyValues': nat)
    ensures Tally(errors', warnings', validKeys', missingKeys', emptyValues')
      == Add(Tally(errors, warnings, validKeys, missingKeys, emptyValues),
             OutcomeOf(PerLanguage, language, path, referenceValue, currentValue))
  {
    OutcomeBranches(PerLanguage, language, path, referenceValue, currentValue);
    assert path + InLanguage(PerLanguage, language) == path;
    errors', warnings', validKeys', missingKeys', emptyValues' := errors, warnings, validKeys, missingKeys, emptyValues;
    if currentValue.None? {
      errors' := errors + [ValidationError(MissingKey, language, path, None, None,
        "Missing translation key: " + path)];
      missingKeys' := missingKeys + 1;
    } else if currentValue.value.Str? && IsBlank(currentValue.value.s) {
      warnings' := warnings + [ValidationError(EmptyValue, language, path, None, None,
        "Empty translation value for key: " + path)];
      emptyValues' := emptyValues + 1;
    } else if TypeOf(referenceValue) != TypeOf(currentValue) {
      errors' := errors + [ValidationError(TypeMismatch, language, path,
        Some(TypeOf(referenceValue)), Some(TypeOf(currentValue)),
        "Type mismatch for key: " + path + ". Expected " + TypeOf(referenceValue) + ", got " + TypeOf(currentValue))];
    } else {
      validKeys' := validKeys + 1;
    }
  }

  /** validateTranslations(): every language of the list but English against English. */
  method ValidateTranslations(store: Bundle) returns (res: ValidationResult)
    ensures var paths := LeafPaths(store.Of(En));
      res == ResultOf(RunLanguages(Zero, store, paths, TranslationStore.AvailableLanguages), |paths|)
  {
    var referenceTranslation := store.Of(En);
    var referencePaths := GetObjectPaths(referenceTranslation, "");
    var errors: seq<ValidationError> := [];
    var warnings: seq<ValidationError> := [];
    var validKeys: nat, missingKeys: nat, emptyValues: nat := 0, 0, 0;
    var languages := TranslationStore.AvailableLanguages;
    assert languages[0..] == languages;
    for k := 0 to |languages|
      invariant RunLanguages(Zero, store, referencePaths, languages)
        == RunLanguages(Tally(errors, warnings, validKeys, missingKeys, emptyValues), store, referencePaths, languages[k..])
    {
      var language := languages[k];
      assert languages[k..][0] == language && languages[k..][1..] == languages[k + 1..];
      if language != En {
        var currentTranslation := store.Of(language);
        ghost var start := Tally(errors, warnings, validKeys, missingKeys, emptyValues);
        assert referencePaths[0..] == referencePaths;
        for i := 0 to |referencePaths|
          invariant Run(start, AllLanguages, referenceTranslation, currentTranslation, language, referencePaths)
            == Run(Tally(errors, warnings, validKeys, missingKeys, emptyValues), AllLanguages,
                   referenceTranslation, currentTranslation, language, referencePaths[i..])
        {
          var path := referencePaths[i];
          var referenceValue := GetValueByPath(referenceTranslation, path);
          var currentValue := GetValueByPath(currentTranslation, path);
          RunStep(Tally(errors, warnings, validKeys, missingKeys, emptyValues), AllLanguages,
            referenceTranslation, currentTranslation, language, referencePaths, i, referenceValue, currentValue);
          errors, warnings, validKeys, missingKeys, emptyValues :=
            CheckTranslationPath(language, path, referenceValue, currentValue, errors, warnings, validKeys, missingKeys, emptyValues);
        }
      }
    }
    res := ValidationResult(|errors| == 0, errors, warnings,
      Summary(|referencePaths|, validKeys, missingKeys, emptyValues));
  }

  /** The body of validateTranslations' inner loop for one reference path. */
  method CheckTranslationPath(language: Lang, path: string, referenceValue: Option<Node>, currentValue: Option<Node>,
                              errors: seq<ValidationError>, warnings: seq<ValidationError>,
                              validKeys: nat, missingKeys: nat, emptyValues: nat)
    returns (errors': seq<ValidationError>, warnings': seq<ValidationError>,
             validKeys': nat, missingKeys': nat, emptyValues': nat)
    ensures Tally(errors', warnings', validKeys', missingKeys', emptyValues')
      == Add(Tally(errors, warnings, validKeys, missingKeys, emptyValues),
             OutcomeOf(AllLanguages, language, path, referenceValue, currentValue))
  {
    OutcomeBranches(AllLanguages, language, path, referenceValue, currentValue);
    errors', warnings', validKeys', missingKeys', emptyValues' := errors, warnings, validKeys, missingKeys, emptyValues;
    var where := path + " in " + Code(language);
    assert where == path + InLanguage(AllLanguages, language);
    if currentValue.None? {
      errors' := errors + [ValidationError(MissingKey, language, path, None, None,
        "Missing translation key: " + where)];
      missingKeys' := missingKeys + 1;
      return;
    }
    if currentValue.value.Str? && IsBlank(currentValue.value.s) {
      warnings' := warnings + [ValidationError(EmptyValue, language, path, None, None,
        "Empty translation value for key: " + where)];
      emptyValues' := emptyValues + 1;
      return;
    }
    if TypeOf(referenceValue) != TypeOf(currentValue) {
      errors' := errors + [ValidationError(TypeMismatch, language, path,
        Some(TypeOf(referenceValue)), Some(TypeOf(currentValue)),
        "Type mismatch for key: " + where + ". Expected " + TypeOf(referenceValue) + ", got " + TypeOf(currentValue))];
      return;
    }
    if referenceValue.Some? && referenceValue.value.Arr? && currentValue.value.Arr? {
      if |referenceValue.value.items| != |currentValue.value.items| {
        var expected := NatToString(|referenceValue.value.items|);
        var actual := NatToString(|currentValue.value.items|);
        warnings' := warnings + [ValidationError(StructureMismatch, language, path,
          Some("array length " + expected), Some("array length " + actual),
          "Array length mismatch for key: " + where + ". Expected " + expected + " items, got " + actual)];
      }
    }
    validKeys' := validKeys + 1;
  }

  /** findMissingKeys(language): the reference paths the language cannot walk. */
  method FindMissingKeys(store: Bundle, language: Lang) returns (missingKeys: seq<string>)
    ensures missingKeys == Filter(LeafPaths(store.Of(En)), IsMissingIn(store.Of(language)))
  {
    var currentTranslation := store.Of(language);
    var referencePaths := GetObjectPaths(store.Of(En), "");
    var missing := IsMissingIn(currentTranslation);
    missingKeys := [];
    assert referencePaths[0..] == referencePaths;
    for i := 0 to |referencePaths|
      invariant missingKeys + Filter(referencePaths[i..], missing) == Filter(referencePaths, missing)
    {
      FilterSuffixStep(missingKeys, referencePaths, i, missing);
      missingKeys := AddIfMissing(missingKeys, currentTranslation, referencePaths[i]);
    }
    assert referencePaths[|referencePaths|..] == [];
  }

  /** The body of findMissingKeys' loop: append the path when the language cannot walk it. */
  method AddIfMissing(missingKeys: seq<string>, current: Node, path: string) returns (r: seq<string>)
    ensures r == missingKeys + (if IsMissingIn(current)(path) then [path] else [])
  {
    var currentValue := GetValueByPath(current, path);
    if currentValue.None? {
      r := missingKeys + [path];
    } else {
      r := missingKeys;
    }
  }

  /** `getValueByPath(current, path) === undefined` */
  predicate MissingAt(current: Node, path: string) {
    Walk(current, Split(path, '.')).None?
  }

  function IsMissingIn(current: Node): string -> bool {
    path => MissingAt(current, path)
  }

  // ---------------------------------------------------------------------------
  // What the collected result means

  function CountKind(errors: seq<ValidationError>, kind: ErrorKind): nat {
    if errors == [] then 0 else (if errors[0].kind == kind then 1 else 0) + CountKind(errors[1..], kind)
  }

  function KeyPathsOf(errors: seq<ValidationError>, kind: ErrorKind): seq<string> {
    if errors == [] then [] else (if errors[0].kind == kind then [errors[0].keyPath] else []) + KeyPathsOf(errors[1..], kind)
  }

  lemma {:induction false} CountKindAppend(a: seq<ValidationError>, b: seq<ValidationError>, kind: ErrorKind)
    ensures CountKind(a + b, kind) == CountKind(a, kind) + CountKind(b, kind)
    ensures KeyPathsOf(a + b, kind) == KeyPathsOf(a, kind) + KeyPathsOf(b, kind)
  {
    if a == [] {
      assert a + b == b;
    } else {
      assert (a + b)[1..] == a[1..] + b;
      CountKindAppend(a[1..], b, kind);
    }
  }

  /** One path adds one error for a missing or mistyped key and none otherwise. */
  lemma OutcomeErrors(style: Style, reference: Node, current: Node, language: Lang, path: string)
    ensures var o := Outcome(style, reference, current, language, path);
      && CountKind(o.errors, TypeMismatch) == (if o.cls == Mismatch then 1 else 0)
      && CountKind(o.errors, MissingKey) == (if o.cls == Missing then 1 else 0)
      && KeyPathsOf(o.errors, MissingKey) == (if o.cls == Missing then [path] else [])
      && |o.errors| == (if o.cls == Missing || o.cls == Mismatch then 1 else 0)
      && (o.cls == Missing <==> IsMissingIn(current)(path))
  {
  }

  /** Every path lands in exactly one class, so the four counts add up to the number of paths. */
  lemma {:induction false} RunCounts(start: Tally, style: Style, reference: Node, current: Node, language: Lang, paths: seq<string>)
    ensures var t := Run(start, style, reference, current, language, paths);
      t.valid + t.missing + t.empty + CountKind(t.errors, TypeMismatch)
        == start.valid + start.missing + start.empty + CountKind(start.errors, TypeMismatch) + |paths|
    ensures var t := Run(start, style, reference, current, language, paths);
      t.missing - start.missing == CountKind(t.errors, MissingKey) - CountKind(start.errors, MissingKey)
    ensures var t := Run(start, style, reference, current, language, paths);
      t.missing >= start.missing && CountKind(t.errors, MissingKey) >= CountKind(start.errors, MissingKey)
    decreases |paths|
  {
    if paths != [] {
      var o := Outcome(style, reference, current, language, paths[0]);
      var next := Add(start, o);
      OutcomeErrors(style, reference, current, language, paths[0]);
      CountKindAppend(start.errors, o.errors, TypeMismatch);
      CountKindAppend(start.errors, o.errors, MissingKey);
      RunCounts(next, style, reference, current, language, paths[1..]);
    }
  }

  /**
   * validateLanguage's counters: valid, missing, empty and type-mismatched
   * keys add up to the total, the missing count is the number of missing-key
   * errors, and the result is valid exactly when there is no error.
   */
  lemma ValidateLanguageSummary(store: Bundle, language: Lang)
    ensures var paths := LeafPaths(store.Of(En));
      var r := ResultOf(Run(Zero, PerLanguage, store.Of(En), store.Of(language), language, paths), |paths|);
      && r.summary.validKeys + r.summary.missingKeys + r.summary.emptyValues + CountKind(r.errors, TypeMismatch)
           == r.summary.totalKeys
      && r.summary.missingKeys == CountKind(r.errors, MissingKey)
      && (r.isValid <==> r.errors == [])
  {
    RunCounts(Zero, PerLanguage, store.Of(En), store.Of(language), language, LeafPaths(store.Of(En)));
  }

  /** The missing-key errors name exactly the paths the language cannot walk, in order. */
  lemma MissingStep(start: Tally, style: Style, reference: Node, current: Node, language: Lang, path: string)
    ensures KeyPathsOf(Add(start, Outcome(style, reference, current, language, path)).errors, MissingKey)
      == KeyPathsOf(start.errors, MissingKey) + (if IsMissingIn(current)(path) then [path] else [])
  {
    var o := Outcome(style, reference, current, language, path);
    OutcomeErrors(style, reference, current, language, path);
    CountKindAppend(start.errors, o.errors, MissingKey);
  }

  lemma {:induction false} RunMissingPaths(start: Tally, style: Style, reference: Node, current: Node, language: Lang, paths: seq<string>)
    ensures KeyPathsOf(Run(start, style, reference, current, language, paths).errors, MissingKey)
      == KeyPathsOf(start.errors, MissingKey) + Filter(paths, IsMissingIn(current))
    decreases |paths|
  {
    var before := KeyPathsOf(start.errors, MissingKey);
    if paths == [] {
      assert before + [] == before;
    } else {
      var next := Add(start, Outcome(style, reference, current, language, paths[0]));
      RunMissingPaths(next, style, reference, current, language, paths[1..]);
      MissingStep(start, style, reference, current, language, paths[0]);
      FilterSuffixStep(before, paths, 0, IsMissingIn(current));
      assert paths[0..] == paths;
    }
  }

  /** findMissingKeys(l) lists the key paths of validateLanguage(l)'s missing-key errors. */
  lemma FindMissingKeysMatchesErrors(store: Bundle, language: Lang)
    ensures Filter(LeafPaths(store.Of(En)), IsMissingIn(store.Of(language)))
      == KeyPathsOf(Run(Zero, PerLanguage, store.Of(En), store.Of(language), language, LeafPaths(store.Of(En))).errors, MissingKey)
  {
    RunMissingPaths(Zero, PerLanguage, store.Of(En), store.Of(language), language, LeafPaths(store.Of(En)));
  }

  /**
   * Only the reference paths are looked up: two translations that agree on
   * them validate identically, whatever else either holds.
   */
  lemma {:induction false} OnlyReferencePathsMatter(start: Tally, style: Style, reference: Node, a: Node, b: Node,
                                                     language: Lang, paths: seq<string>)
    requires forall i :: 0 <= i < |paths| ==> Walk(a, Split(paths[i], '.')) == Walk(b, Split(paths[i], '.'))
    ensures Run(start, style, reference, a, language, paths) == Run(start, style, reference, b, language, paths)
    decreases |paths|
  {
    if paths != [] {
      assert Outcome(style, reference, a, language, paths[0]) == Outcome(style, reference, b, language, paths[0]);
      OnlyReferencePathsMatter(Add(start, Outcome(style, reference, a, language, paths[0])), style, reference, a, b,
        language, paths[1..]);
    }
  }

  /** English checked against itself: every path is valid unless its string is blank. */
  lemma {:induction false} ReferenceAgainstItself(start: Tally, reference: Node, paths: seq<string>)
    requires forall i :: 0 <= i < |paths| ==> Walk(reference, Split(paths[i], '.')).Some?
    ensures Run(start, PerLanguage, reference, reference, En, paths).errors == start.errors
    ensures Run(start, PerLanguage, reference, reference, En, paths).missing == start.missing
    decreases |paths|
  {
    if paths != [] {
      var o := Outcome(PerLanguage, reference, reference, En, paths[0]);
      assert o.errors == [];
      assert start.errors + o.errors == start.errors;
      ReferenceAgainstItself(Add(start, o), reference, paths[1..]);
    }
  }

  /**
   * validateTranslations walks only Turkish, so its counters and its verdict
   * are those of validateLanguage('tr'); only messages and array-length
   * warnings differ.
   */
  lemma {:induction false} StylesCountAlike(s1: Tally, s2: Tally, reference: Node, current: Node, language: Lang, paths: seq<string>)
    requires s1.valid == s2.valid && s1.missing == s2.missing && s1.empty == s2.empty && |s1.errors| == |s2.errors|
    ensures var t1 := Run(s1, AllLanguages, reference, current, language, paths);
      var t2 := Run(s2, PerLanguage, reference, current, language, paths);
      t1.valid == t2.valid && t1.missing == t2.missing && t1.empty == t2.empty && |t1.errors| == |t2.errors|
    decreases |paths|
  {
    if paths != [] {
      var o1 := Outcome(AllLanguages, reference, current, language, paths[0]);
      var o2 := Outcome(PerLanguage, reference, current, language, paths[0]);
      assert o1.cls == o2.cls && |o1.errors| == |o2.errors|;
      StylesCountAlike(Add(s1, o1), Add(s2, o2), reference, current, language, paths[1..]);
    }
  }

  lemma ValidateTranslationsIsTurkish(store: Bundle)
    ensures var paths := LeafPaths(store.Of(En));
      var all := ResultOf(RunLanguages(Zero, store, paths, TranslationStore.AvailableLanguages), |paths|);
      var tr := ResultOf(Run(Zero, PerLanguage, store.Of(En), store.Of(Tr), Tr, paths), |paths|);
      all.summary == tr.summary && all.isValid == tr.isValid
  {
    var paths := LeafPaths(store.Of(En));
    assert RunLanguages(Zero, store, paths, TranslationStore.AvailableLanguages)
      == Run(Zero, AllLanguages, store.Of(En), store.Of(Tr), Tr, paths);
    StylesCountAlike(Zero, Zero, store.Of(En), store.Of(Tr), Tr, paths);
  }
}

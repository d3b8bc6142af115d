/**
 * types/validators.ts: runtime checks on untyped values.  A check that throws
 * in the source returns `Failure(message)` here; one that returns its input
 * returns `Success(input)`.
 */
module Validators {
  import opened Wrappers
  import opened Strings
  import opened TranslationTree
  import Projects

  /** A JavaScript value as the checks see it; numbers are modelled by integers. */
  datatype JsValue =
    | Undefined
    | Null
    | JStr(s: string)
    | JNum(n: int)
    | JBool(b: bool)
    | JArr(items: seq<JsValue>)
    | JObj(fields: seq<(string, JsValue)>)

  /** isValidLanguage(value): a string among 'en' and 'tr'. */
  predicate IsValidLanguage(value: JsValue): (ok: bool)
    ensures ok <==> value.JStr? && ParseLang(value.s).Some?
    ensures ok <==> value == JStr("en") || value == JStr("tr")
  {
    value.JStr? && value.s in ["en", "tr"]
  }

  /** isValidPlatform(value): a string among 'web', 'android', 'ios' and 'all'. */
  predicate IsValidPlatform(value: JsValue): (ok: bool)
    ensures ok <==> value.JStr? && Projects.ParsePlatformFilter(value.s).Some?
  {
    value.JStr? && value.s in ["web", "android", "ios", "all"]
  }

  /** The check accepts the code of every platform filter value. */
  lemma IsValidPlatformNamesFilter()
    ensures forall f: Projects.PlatformFilter :: IsValidPlatform(JStr(Projects.FilterCode(f)))
  {
    forall f: Projects.PlatformFilter ensures IsValidPlatform(JStr(Projects.FilterCode(f))) {
      match f
      case AllPlatforms =>
      case Only(p) => match p { case Web => case Android => case Ios => }
    }
  }

  /** validateRequired(value, fieldName): fails exactly on null and undefined. */
  function ValidateRequired(value: JsValue, fieldName: string): (r: Result<JsValue>)
    ensures r.Failure? <==> value == Null || value == Undefined
    ensures r.Success? ==> r.value == value
    ensures r.Failure? ==> r.error == fieldName + " is required"
  {
    if value == Null || value == Undefined then Failure(fieldName + " is required") else Success(value)
  }

  /** The bound `Infinity` is `None`. */
  predicate AtMost(n: int, max: Option<int>) {
    max.None? || n <= max.value
  }

  /** validateString(value, fieldName, minLength = 0, maxLength = Infinity) */
  function ValidateString(value: JsValue, fieldName: string, minLength: int, maxLength: Option<int>): (r: Result<string>)
    ensures r.Success? <==> value.JStr? && minLength <= |value.s| && AtMost(|value.s|, maxLength)
    ensures r.Success? ==> r.value == value.s
    ensures !value.JStr? ==> r == Failure(fieldName + " must be a string")
    ensures value.JStr? && |value.s| < minLength ==>
      r == Failure(fieldName + " must be at least " + IntToString(minLength) + " characters long")
    ensures value.JStr? && minLength <= |value.s| && !AtMost(|value.s|, maxLength) ==>
      r == Failure(fieldName + " must be at most " + IntToString(maxLength.value) + " characters long")
  {
    if !value.JStr? then Failure(fieldName + " must be a string")
    else if |value.s| < minLength then Failure(fieldName + " must be at least " + IntToString(minLength) + " characters long")
    else if !AtMost(|value.s|, maxLength) then Failure(fieldName + " must be at most " + IntToString(maxLength.value) + " characters long")
    else Success(value.s)
  }

  /** validateNumber(value, fieldName, min = -Infinity, max = Infinity) */
  function ValidateNumber(value: JsValue, fieldName: string, min: Option<int>, max: Option<int>): (r: Result<int>)
    ensures r.Success? <==> value.JNum? && (min.None? || min.value <= value.n) && AtMost(value.n, max)
    ensures r.Success? ==> r.value == value.n
    ensures !value.JNum? ==> r == Failure(fieldName + " must be a valid number")
  {
    if !value.JNum? then Failure(fieldName + " must be a valid number")
    else if min.Some? && value.n < min.value then Failure(fieldName + " must be at least " + IntToString(min.value))
    else if !AtMost(value.n, max) then Failure(fieldName + " must be at most " + IntToString(max.value))
    else Success(value.n)
  }

  /** validateBoolean(value, fieldName) */
  function ValidateBoolean(value: JsValue, fieldName: string): (r: Result<bool>)
    ensures r.Success? <==> value.JBool?
    ensures r.Success? ==> r.value == value.b
  {
    if value.JBool? then Success(value.b) else Failure(fieldName + " must be a boolean")
  }

  /** The message an item failure is rethrown with: `<field>[<index>]: <message>`. */
  function ItemMessage(fieldName: string, index: nat, message: string): string {
    fieldName + "[" + NatToString(index) + "]: " + message
  }

  /** Item `i` is the first at or after `k` that its validator rejects. */
  predicate FirstFailure<T>(items: seq<JsValue>, itemValidator: (JsValue, nat) -> Result<T>, k: nat, i: int) {
    k <= i < |items| && itemValidator(items[i], i).Failure?
    && forall j :: k <= j < i ==> itemValidator(items[j], j).Success?
  }

  /**
   * `value.map(itemValidator)` from position `k`, stopping at the first item
   * whose validator fails and rethrowing its message with the item's position.
   */
  function MapItems<T>(items: seq<JsValue>, fieldName: string, itemValidator: (JsValue, nat) -> Result<T>, k: nat): (r: Result<seq<T>>)
    requires k <= |items|
    ensures r.Success? <==> forall i :: k <= i < |items| ==> itemValidator(items[i], i).Success?
    ensures r.Success? ==> |r.value| == |items| - k
    ensures r.Success? ==> forall i :: k <= i < |items| ==> r.value[i - k] == itemValidator(items[i], i).value
    ensures r.Failure? ==>
      exists i :: FirstFailure(items, itemValidator, k, i) && r.error == ItemMessage(fieldName, i, itemValidator(items[i], i).error)
    decreases |items| - k
  {
    if k == |items| then Success([])
    else match itemValidator(items[k], k)
      case Failure(message) => Failure(ItemMessage(fieldName, k, message))
      case Success(v) =>
        match MapItems(items, fieldName, itemValidator, k + 1)
        case Failure(message) => Failure(message)
        case Success(rest) => Success([v] + rest)
  }

  /**
   * validateArray(value, fieldName, itemValidator, minLength = 0, maxLength = Infinity):
   * the bounds first, then the items in order.  Without an item validator
   * the array itself is returned.
   */
  function ValidateArray(value: JsValue, fieldName: string, itemValidator: Option<(JsValue, nat) -> Result<JsValue>>,
                         minLength: int, maxLength: Option<int>): (r: Result<seq<JsValue>>)
    ensures !value.JArr? ==> r == Failure(fieldName + " must be an array")
    ensures value.JArr? && |value.items| < minLength ==>
      r == Failure(fieldName + " must have at least " + IntToString(minLength) + " items")
    ensures value.JArr? && minLength <= |value.items| && !AtMost(|value.items|, maxLength) ==>
      r == Failure(fieldName + " must have at most " + IntToString(maxLength.value) + " items")
    ensures value.JArr? && itemValidator.None? && minLength <= |value.items| && AtMost(|value.items|, maxLength) ==>
      r == Success(value.items)
    ensures value.JArr? && itemValidator.Some? && minLength <= |value.items| && AtMost(|value.items|, maxLength) ==>
      r == MapItems(value.items, fieldName, itemValidator.value, 0)
  {
    if !value.JArr? then Failure(fieldName + " must be an array")
    else if |value.items| < minLength then Failure(fieldName + " must have at least " + IntToString(minLength) + " items")
    else if !AtMost(|value.items|, maxLength) then Failure(fieldName + " must have at most " + IntToString(maxLength.value) + " items")
    else if itemValidator.Some? then MapItems(value.items, fieldName, itemValidator.value, 0)
    else Success(value.items)
  }

  /**
   * With an item validator and within bounds, the array check succeeds
   * exactly when every item passes, with the validated items in order;
   * otherwise it reports the first failing item.
   */
  lemma ValidateArrayItems(items: seq<JsValue>, fieldName: string, itemValidator: (JsValue, nat) -> Result<JsValue>)
    ensures var r := ValidateArray(JArr(items), fieldName, Some(itemValidator), 0, None);
      (r.Success? <==> forall i :: 0 <= i < |items| ==> itemValidator(items[i], i).Success?)
      && (r.Success? ==> |r.value| == |items| && forall i :: 0 <= i < |items| ==> r.value[i] == itemValidator(items[i], i).value)
      && (r.Failure? ==>
            exists i :: FirstFailure(items, itemValidator, 0, i) && r.error == ItemMessage(fieldName, i, itemValidator(items[i], i).error))
  {
    var r := MapItems(items, fieldName, itemValidator, 0);
    if r.Success? {
      forall i | 0 <= i < |items| ensures r.value[i] == itemValidator(items[i], i).value {
        assert r.value[i - 0] == itemValidator(items[i], i).value;
      }
    }
  }

  /**
   * validateObject(value, fieldName, validator): `typeof value === 'object'`
   * holds for arrays too; a failure of the validator is rethrown prefixed by
   * the field name.
   */
  function ValidateObject<T>(value: JsValue, fieldName: string, validator: JsValue -> Result<T>): (r: Result<T>)
    ensures !(value.JObj? || value.JArr?) ==> r == Failure(fieldName + " must be an object")
    ensures (value.JObj? || value.JArr?) && validator(value).Success? ==> r == validator(value)
    ensures (value.JObj? || value.JArr?) && validator(value).Failure? ==>
      r == Failure(fieldName + ": " + validator(value).error)
  {
    if !(value.JObj? || value.JArr?) then Failure(fieldName + " must be an object")
    else match validator(value)
      case Success(v) => Success(v)
      case Failure(message) => Failure(fieldName + ": " + message)
  }

  /** validateEnum(value, fieldName, allowedValues) */
  function ValidateEnum(value: JsValue, fieldName: string, allowedValues: seq<string>): (r: Result<string>)
    ensures r.Success? <==> value.JStr? && value.s in allowedValues
    ensures r.Success? ==> r.value == value.s
    ensures r.Failure? ==> r.error == fieldName + " must be one of: " + Join(allowedValues, ", ")
  {
    if value.JStr? && value.s in allowedValues then Success(value.s)
    else Failure(fieldName + " must be one of: " + Join(allowedValues, ", "))
  }

  /** Checking a validated value again gives the same answer: each check returns its input. */
  lemma ChecksAreIdempotent(value: JsValue, fieldName: string, minLength: int, maxLength: Option<int>, allowedValues: seq<string>)
    ensures ValidateString(value, fieldName, minLength, maxLength).Success? ==>
      ValidateString(JStr(ValidateString(value, fieldName, minLength, maxLength).value), fieldName, minLength, maxLength)
        == ValidateString(value, fieldName, minLength, maxLength)
    ensures ValidateEnum(value, fieldName, allowedValues).Success? ==>
      ValidateEnum(JStr(ValidateEnum(value, fieldName, allowedValues).value), fieldName, allowedValues)
        == ValidateEnum(value, fieldName, allowedValues)
    ensures ValidateRequired(value, fieldName).Success? ==>
      ValidateRequired(ValidateRequired(value, fieldName).value, fieldName) == ValidateRequired(value, fieldName)
  {
  }

  // ---------------------------------------------------------------------------
  // ValidationContext

  /** ValidationError and ValidationWarning. */
  datatype Issue = Issue(field: string, message: string, value: JsValue, code: string)

  /** ValidationResult: copies of both lists. */
  datatype ValidationResult = ValidationResult(isValid: bool, errors: seq<Issue>, warnings: seq<Issue>)

  const DefaultErrorCode: string := "VALIDATION_ERROR"
  const DefaultWarningCode: string := "VALIDATION_WARNING"

  /** The dotted path an issue is filed under. */
  function PathString(path: seq<string>): string {
    Join(path, ".")
  }

  /** Descending one level appends the segment to the dotted path. */
  lemma PathStringPush(path: seq<string>, segment: string)
    ensures PathString(path + [segment]) == if path == [] then segment else PathString(path) + "." + segment
  {
    if path != [] {
      JoinSnoc(path, segment, ".");
    } else {
      assert path + [segment] == [segment];
    }
  }

  /** A path of dot-free non-empty segments reads back from its dotted form. */
  lemma PathStringReadsBack(path: seq<string>)
    requires path != []
    requires forall i :: 0 <= i < |path| ==> '.' !in path[i]
    ensures Split(PathString(path), '.') == path
  {
    SplitJoin(path, '.');
  }

  class ValidationContext {
    var errors: seq<Issue>
    var warnings: seq<Issue>
    var path: seq<string>

    constructor ()
      ensures errors == [] && warnings == [] && path == []
    {
      errors, warnings, path := [], [], [];
    }

    method PushPath(segment: string)
      modifies this
      ensures path == old(path) + [segment]
      ensures errors == old(errors) && warnings == old(warnings)
      ensures GetCurrentPath() == if old(path) == [] then segment else old(GetCurrentPath()) + "." + segment
    {
      PathStringPush(path, segment);
      path := path + [segment];
    }

    /** popPath(): `Array.prototype.pop` on an empty stack changes nothing. */
    method PopPath()
      modifies this
      ensures path == if old(path) == [] then [] else old(path)[..|old(path)| - 1]
      ensures errors == old(errors) && warnings == old(warnings)
    {
      if path != [] {
        path := path[..|path| - 1];
      }
    }

    function GetCurrentPath(): (p: string)
      reads this
      ensures path == [] ==> p == ""
      ensures path != [] && (forall i :: 0 <= i < |path| ==> '.' !in path[i]) ==> Split(p, '.') == path
    {
      if path != [] && (forall i :: 0 <= i < |path| ==> '.' !in path[i]) then
        PathStringReadsBack(path);
        PathString(path)
      else PathString(path)
    }

    method AddError(message: string, value: JsValue, code: string)
      modifies this
      ensures errors == old(errors) + [Issue(old(GetCurrentPath()), message, value, code)]
      ensures warnings == old(warnings) && path == old(path)
    {
      errors := errors + [Issue(GetCurrentPath(), message, value, code)];
    }

    method AddWarning(message: string, value: JsValue, code: string)
      modifies this
      ensures warnings == old(warnings) + [Issue(old(GetCurrentPath()), message, value, code)]
      ensures errors == old(errors) && path == old(path)
    {
      warnings := warnings + [Issue(GetCurrentPath(), message, value, code)];
    }

    method GetResult() returns (result: ValidationResult)
      ensures result.isValid <==> errors == []
      ensures result.errors == errors && result.warnings == warnings
    {
      result := ValidationResult(|errors| == 0, errors, warnings);
    }

    method Reset()
      modifies this
      ensures errors == [] && warnings == [] && path == []
    {
      errors, warnings, path := [], [], [];
    }
  }

  /** pushPath followed by popPath leaves the path, and so the current path, as it was. */
  method PushThenPop(ctx: ValidationContext, segment: string)
    modifies ctx
    ensures ctx.path == old(ctx.path) && ctx.GetCurrentPath() == old(ctx.GetCurrentPath())
    ensures ctx.errors == old(ctx.errors) && ctx.warnings == old(ctx.warnings)
  {
    ctx.PushPath(segment);
    ctx.PopPath();
    assert (old(ctx.path) + [segment])[..|old(ctx.path)|] == old(ctx.path);
  }

  /** An error filed one level down carries the dotted field name, and the result is then invalid. */
  method NestedErrorField(ctx: ValidationContext, segment: string, message: string, value: JsValue)
    returns (result: ValidationResult)
    requires ctx.path != []
    modifies ctx
    ensures !result.isValid && |result.errors| == |old(ctx.errors)| + 1
    ensures result.errors[|result.errors| - 1].field == old(ctx.GetCurrentPath()) + "." + segment
    ensures result.errors[|result.errors| - 1].code == DefaultErrorCode
  {
    ctx.PushPath(segment);
    ctx.AddError(message, value, DefaultErrorCode);
    result := ctx.GetResult();
  }
}

/**
 * The JavaScript values the client inspects, their truthiness, property reads,
 * the `<` comparison used by the cache-expiry tests, `Array.prototype.join`,
 * and the errors the client throws.
 */
module Values {
  import opened Strings

  datatype Option<+T> = None | Some(value: T)

  datatype Result<+T, +E> = Success(value: T) | Failure(error: E)

  /** The completion of a call that returns nothing: normal, or by a throw. */
  datatype Outcome<+E> = Pass | Fail(error: E)

  /** A JavaScript value. Numbers are integral; `NaN` is kept apart because
      it is falsy and compares false with everything. */
  datatype Js =
    | Undefined
    | Null
    | Bool(b: bool)
    | Num(n: int)
    | NaN
    | Str(s: string)
    | Arr(items: seq<Js>)
    | Obj(props: map<string, Js>)

  /** JavaScript truthiness: `undefined`, `null`, `false`, `0`, `NaN` and `""` are falsy. */
  predicate Truthy(v: Js)
    ensures Truthy(v) <==> v !in {Undefined, Null, NaN, Bool(false), Num(0), Str("")}
  {
    match v
    case Undefined | Null | NaN => false
    case Bool(b) => b
    case Num(n) => n != 0
    case Str(s) => s != ""
    case Arr(_) | Obj(_) => true
  }

  predicate Nullish(v: Js)
  {
    v.Undefined? || v.Null?
  }

  /** `v[key]` on a value that is not `undefined` or `null`: an own property of
      an object, `undefined` otherwise. */
  function Field(v: Js, key: string): (r: Js)
    ensures !v.Obj? || key !in v.props ==> r == Undefined
    ensures v.Obj? && key in v.props ==> r == v.props[key]
  {
    if v.Obj? && key in v.props then v.props[key] else Undefined
  }

  /** `Number(s)` for a string: the empty string is 0, an optionally signed
      run of decimal digits is its value, and anything else is `NaN` (`None`). */
  function NumericText(s: string): Option<int>
  {
    if s == "" then Some(0)
    else if s[0] == '-' || s[0] == '+' then
      if |s| > 1 && forall i :: 1 <= i < |s| ==> IsDigit(s[i]) then
        var magnitude: int := DigitsValue(s[1..]);
        Some(if s[0] == '-' then -magnitude else magnitude)
      else None
    else if forall i :: 0 <= i < |s| ==> IsDigit(s[i]) then Some(DigitsValue(s))
    else None
  }

  /** `String(n)` read back with `Number` gives `n`. */
  lemma TextNumberRoundTrip(n: int)
    ensures NumericText(DecimalText(n)) == Some(n)
  {
    if n < 0 {
      DigitsRoundTrip(-n);
      assert DecimalText(n)[1..] == Digits(-n);
    } else {
      DigitsRoundTrip(n);
      assert IsDigit(Digits(n)[0]);
    }
  }

  /** JavaScript's `ToNumber`, with `NaN` as `None`: `null` is 0, booleans
      are 0 and 1, strings are read as numbers, and an array is read as the
      string `join` makes of it. */
  function ToNumber(v: Js): Option<int>
  {
    match v
    case Undefined | NaN | Obj(_) => None
    case Null => Some(0)
    case Bool(b) => Some(if b then 1 else 0)
    case Num(n) => Some(n)
    case Str(s) => NumericText(s)
    case Arr(items) => NumericText(Join(items, ","))
  }

  /** `now < v`: `v` is converted to a number first, and `NaN` compares
      false. */
  predicate Below(now: int, v: Js)
  {
    ToNumber(v).Some? && now < ToNumber(v).value
  }

  /** A number written as a string, or wrapped in a one-element array,
      compares as the number itself. */
  lemma BelowNumericText(now: int, n: int)
    ensures Below(now, Str(DecimalText(n))) <==> now < n
    ensures Below(now, Arr([Num(n)])) <==> now < n
  {
    TextNumberRoundTrip(n);
    assert Join([Num(n)], ",") == DecimalText(n);
  }

  /** `undefined`, `NaN` and plain objects are never above the clock; `null`
      counts as 0 and booleans as 0 or 1. */
  lemma BelowOtherValues(now: int, props: map<string, Js>)
    ensures !Below(now, Undefined) && !Below(now, NaN) && !Below(now, Obj(props))
    ensures Below(now, Null) <==> now < 0
    ensures Below(now, Bool(true)) <==> now < 1
    ensures Below(now, Bool(false)) <==> now < 0
  {
  }

  /** The constructor of a thrown error object. */
  datatype ErrorClass = Error | TypeError | ReferenceError

  /** Why an error was thrown. */
  datatype Reason =
    | MissingTag                                   // tag is falsy
    | TagNotString                                 // tag is truthy but not a string
    | InvalidTagCharacter                          // a character outside the tag alphabet
    | RateLimitExceeded(limit: int, window: int)   // the sliding-window limiter refused
    | RequestsTooFast                              // the header-driven gate refused
    | KeysWithExclude                              // both `keys` and `exclude` given
    | KeysNotArray
    | ExcludeNotArray
    | NotAFunction                                 // a call of an undefined method
    | PropertyOfNullish                            // a property read of undefined or null
    | UndeclaredName                               // a read of a variable that is not declared

  /** What a failing operation throws: an error object raised by the client
      itself, a rejection from the HTTP layer, or the body of that rejection. */
  datatype Thrown =
    | Raised(cls: ErrorClass, reason: Reason)
    | HttpError(response: Js)
    | ErrorBody(body: Js)

  /** `String(v)` as `Array.prototype.join` applies it to each element:
      `undefined` and `null` become the empty string. */
  function ElementTexts(items: seq<Js>): (r: seq<string>)
    ensures |r| == |items|
    ensures forall i :: 0 <= i < |items| && Nullish(items[i]) ==> r[i] == ""
    ensures forall i :: 0 <= i < |items| && items[i].Str? ==> r[i] == items[i].s
    ensures forall i :: 0 <= i < |items| && items[i].Num? ==> r[i] == DecimalText(items[i].n)
    ensures forall i :: 0 <= i < |items| && items[i].Bool? ==> r[i] == if items[i].b then "true" else "false"
    decreases items
  {
    if items == [] then []
    else
      var head := match items[0]
        case Undefined | Null => ""
        case Bool(b) => if b then "true" else "false"
        case Num(n) => DecimalText(n)
        case NaN => "NaN"
        case Str(s) => s
        case Arr(inner) => JoinText(ElementTexts(inner), ",")
        case Obj(_) => "[object Object]";
      var rest := ElementTexts(items[1..]);
      assert forall i :: 1 <= i < |items| ==> items[1..][i - 1] == items[i];
      [head] + rest
  }

  /** `items.join(sep)`. */
  function Join(items: seq<Js>, sep: string): string
  {
    JoinText(ElementTexts(items), sep)
  }
}

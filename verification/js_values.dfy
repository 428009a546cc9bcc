/**
 * The JavaScript values a JSON payload can decode to, and the few language
 * operations the ingestion code applies to them: truthiness (`!x`),
 * `typeof x === 'number'`, `Array.isArray`, property reads, and the
 * conversion of a value to a property key.
 */
module JsValues {
  import opened Wrappers

  /**
   * A JSON number. Floating point is not modelled: a number literal is read
   * as the exact real it denotes, so NaN and the infinities do not occur.
   */
  type Num = real

  /** The time value of a valid JS `Date` (milliseconds since the epoch). */
  type Instant = int

  datatype JsValue =
    | JsUndefined
    | JsNull
    | JsBool(b: bool)
    | JsNumber(n: Num)
    | JsString(s: string)
    | JsArray(items: seq<JsValue>)
    | JsObject(props: map<string, JsValue>)

  /** JS truthiness: `!v` is false exactly for these values. */
  predicate Truthy(v: JsValue) {
    match v
    case JsUndefined => false
    case JsNull => false
    case JsBool(b) => b
    case JsNumber(n) => n != 0.0
    case JsString(s) => s != ""
    case JsArray(_) => true
    case JsObject(_) => true
  }

  /** `typeof v === 'number'`. */
  predicate IsNumber(v: JsValue) {
    v.JsNumber?
  }

  /** `Array.isArray(v)`. */
  predicate IsArray(v: JsValue) {
    v.JsArray?
  }

  /** `null` or `undefined`: the values whose property reads throw a TypeError. */
  predicate IsNullish(v: JsValue) {
    v.JsUndefined? || v.JsNull?
  }

  /**
   * The value of `v[key]` when `v` is not nullish, for the keys the ingestion
   * code reads (`uid`, `at`, `data`, `type`, `value`, `unit`): an own property
   * of a parsed object, and `undefined` otherwise. Arrays and strings do
   * inherit a method named `at`; reading it instead of `undefined` changes no
   * outcome, because such a receiver has neither a `uid` nor a `data`.
   */
  function Prop(v: JsValue, key: string): JsValue {
    if v.JsObject? && key in v.props then v.props[key] else JsUndefined
  }

  /**
   * Whether converting `v` to a primitive returns instead of throwing. A
   * parsed JSON value holds nothing callable. An object with an own
   * `toString` key therefore hides the inherited method behind a
   * non-function, and its inherited `valueOf` gives back the object itself,
   * so `String(v)`, a property key `obj[v]` and `new Date(v)` all throw a
   * TypeError for it. Any other object converts through the inherited
   * `toString`. An array converts through `join`, which converts each
   * element that is not nullish.
   */
  predicate Stringable(v: JsValue) {
    match v
    case JsArray(items) => forall i :: 0 <= i < |items| ==> Stringable(items[i])
    case JsObject(props) => "toString" !in props
    case _ => true
  }

  /** Joins strings with `,`, as `Array.prototype.join` does by default. */
  function Join(parts: seq<string>): string {
    if |parts| == 0 then ""
    else if |parts| == 1 then parts[0]
    else parts[0] + "," + Join(parts[1..])
  }

  /**
   * `String(v)`, which is also the property key `v` stands for in `obj[v]`,
   * or None when the conversion throws. Number formatting belongs to the JS
   * engine and is the parameter `fmt`. An array is the join of its
   * elements, with nullish elements written as the empty string, so a
   * one-element array whose element is not nullish has the key of that
   * element.
   */
  function ToStr(fmt: Num -> string, v: JsValue): (r: Option<string>)
    ensures r.Some? <==> Stringable(v)
    ensures v.JsArray? && |v.items| == 1 && !IsNullish(v.items[0]) ==> r == ToStr(fmt, v.items[0])
    decreases v
  {
    match v
    case JsUndefined => Some("undefined")
    case JsNull => Some("null")
    case JsBool(b) => Some(if b then "true" else "false")
    case JsNumber(n) => Some(fmt(n))
    case JsString(s) => Some(s)
    case JsArray(items) =>
      var parts := seq(|items|, i requires 0 <= i < |items| =>
        if IsNullish(items[i]) then Some("") else ToStr(fmt, items[i]));
      assert forall i :: 0 <= i < |items| ==> (parts[i].Some? <==> Stringable(items[i]));
      if forall i :: 0 <= i < |parts| ==> parts[i].Some? then
        Some(Join(seq(|parts|, i requires 0 <= i < |parts| => if parts[i].Some? then parts[i].value else "")))
      else None
    case JsObject(props) => if "toString" in props then None else Some("[object Object]")
  }
}

/**
 * The fragment of JavaScript's value model that the price scanner relies on:
 * decoded JSON values, truthiness, `String(v)`, `Number(v)`, `typeof`,
 * `Object.keys`, ASCII `toLowerCase` and `String.prototype.includes`.
 * `String(v)` and `Number(v)` give a `Completion`: decoded JSON is never
 * callable, so an object with its own `toString` key makes the conversion
 * throw a `TypeError`, and so does an array with such an element.
 *
 * The parts that depend on floating point or on a real regular-expression
 * engine are not defined here; they are the fields of a `Host`, a record of
 * total functions that every operation takes as a parameter, so every
 * property proved holds for every choice of them.
 */
module JsRuntime {

  /** A JavaScript number: NaN, a finite value (both zeros are 0.0) or an infinity. */
  datatype JsNumber = NaN | Finite(value: real) | Infinity(negative: bool)

  /** `!!n`: a number is falsy exactly when it is NaN or zero. */
  predicate NumberTruthy(n: JsNumber) {
    match n
    case NaN => false
    case Finite(x) => x != 0.0
    case Infinity(_) => true
  }

  /**
   * A value produced by `res.json()`. The fields of an object are listed in
   * the order `Object.keys` enumerates them.
   */
  datatype Value =
    | Null
    | Bool(b: bool)
    | Num(n: JsNumber)
    | Str(s: string)
    | Arr(items: seq<Value>)
    | Obj(fields: seq<(string, Value)>)

  /** The foreign operations the scripts call, left abstract. */
  datatype Host = Host(
    /** `String(n)` for a number. */
    numberToString: JsNumber -> string,
    /** `Number(s)` for a string. */
    parseNumber: string -> JsNumber,
    /** `JSON.stringify(v)`. */
    stringify: Value -> string,
    /** The matches of `/(\d{2,3}\.\d{2})/g`, in order; `[]` where `match` gives null. */
    matchTwoDecimals: string -> seq<string>,
    /** The matches of `/(\d{2,3}\.\d{1,2})/g`, in order; `[]` where `match` gives null. */
    matchUpToTwoDecimals: string -> seq<string>)

  /** `typeof v === 'object'`, which also holds for null. */
  predicate IsObjectType(v: Value) {
    v.Null? || v.Arr? || v.Obj?
  }

  /** `v && typeof v === 'object'`: the values that have own keys to walk. */
  predicate HasKeys(v: Value) {
    v.Arr? || v.Obj?
  }

  /** `Object.keys(v).length`. */
  function KeyCount(v: Value): nat {
    match v
    case Arr(items) => |items|
    case Obj(fields) => |fields|
    case _ => 0
  }

  /** The `i`-th key of `Object.keys(v)`; an array's keys are its indices in decimal. */
  function KeyAt(v: Value, i: nat): string
    requires i < KeyCount(v)
  {
    match v
    case Arr(_) => DecimalString(i)
    case Obj(fields) => fields[i].0
  }

  /** `v[Object.keys(v)[i]]`. */
  function ChildAt(v: Value, i: nat): Value
    requires i < KeyCount(v)
  {
    match v
    case Arr(items) => items[i]
    case Obj(fields) => fields[i].1
  }

  predicate IsDigit(c: char) {
    '0' <= c <= '9'
  }

  /** The decimal numeral of `n`, as `String(n)` gives it for an array index. */
  function DecimalString(n: nat): (s: string)
    ensures |s| > 0
    ensures forall i :: 0 <= i < |s| ==> IsDigit(s[i])
  {
    var d := ['0' + (n % 10) as char];
    if n < 10 then d else DecimalString(n / 10) + d
  }

  /** `/^\d/.test(s)`: `\d` without the `u` flag is the ASCII digits only. */
  predicate StartsWithDigit(s: string) {
    |s| > 0 && IsDigit(s[0])
  }

  predicate IsUpper(c: char) {
    'A' <= c <= 'Z'
  }

  function LowerChar(c: char): (r: char)
    ensures !IsUpper(r)
    ensures !IsUpper(c) ==> r == c
  {
    if IsUpper(c) then (c as int - 'A' as int + 'a' as int) as char else c
  }

  /** `s.toLowerCase()` on the ASCII letters. */
  function Lower(s: string): (r: string)
    ensures |r| == |s|
    ensures forall i :: 0 <= i < |s| ==> r[i] == LowerChar(s[i])
  {
    seq(|s|, i requires 0 <= i < |s| => LowerChar(s[i]))
  }

  /** `s.includes(sub)`. */
  predicate Contains(s: string, sub: string)
    decreases |s|
  {
    |sub| <= |s| && (s[..|sub|] == sub || Contains(s[1..], sub))
  }

  /** Whether `v` is an object with its own key `key`. */
  predicate HasOwnKey(v: Value, key: string) {
    v.Obj? && exists i :: 0 <= i < |v.fields| && v.fields[i].0 == key
  }

  /** The completion of a conversion: a value, or a thrown `TypeError`. */
  datatype Completion<+T> = Normal(value: T) | Throw

  /**
   * `String(v)`. An array is joined with commas, its null elements as empty
   * text. A decoded object converts to "[object Object]" unless it has its
   * own `toString` key: a decoded value is never callable, and `valueOf`
   * returns the object itself, so `OrdinaryToPrimitive` throws.
   */
  function ToJsString(host: Host, v: Value): (r: Completion<string>)
    decreases v, KeyCount(v) + 1
    ensures !HasKeys(v) ==> r.Normal?
    ensures v.Obj? ==> (r.Throw? <==> HasOwnKey(v, "toString"))
  {
    match v
    case Null => Normal("null")
    case Bool(b) => Normal(if b then "true" else "false")
    case Num(n) => Normal(host.numberToString(n))
    case Str(s) => Normal(s)
    case Arr(_) => JoinFrom(host, v, 0)
    case Obj(_) => if HasOwnKey(v, "toString") then Throw else Normal("[object Object]")
  }

  /** `String(v[i]) + "," + ...` for the elements of array `v` from index `i` on; throws if one of them does. */
  function JoinFrom(host: Host, v: Value, i: nat): Completion<string>
    requires v.Arr? && i <= |v.items|
    decreases v, KeyCount(v) - i
  {
    if i == |v.items| then Normal("")
    else
      var e := v.items[i];
      var head := if e.Null? then Normal("") else ToJsString(host, e);
      var tail := JoinFrom(host, v, i + 1);
      if head.Throw? || tail.Throw? then Throw
      else Normal((if i == 0 then "" else ",") + head.value + tail.value)
  }

  /**
   * `Number(v)`. An array or an object converts through its string form, as
   * `ToPrimitive` does for values whose `valueOf` returns themselves.
   */
  function ToNumber(host: Host, v: Value): (r: Completion<JsNumber>)
    ensures r.Throw? <==> ToJsString(host, v).Throw?
    ensures v.Num? ==> r == Normal(v.n)
  {
    match v
    case Null => Normal(Finite(0.0))
    case Bool(b) => Normal(Finite(if b then 1.0 else 0.0))
    case Num(n) => Normal(n)
    case Str(s) => Normal(host.parseNumber(s))
    case _ =>
      match ToJsString(host, v)
      case Normal(s) => Normal(host.parseNumber(s))
      case Throw => Throw
  }

  /** `typeof v === 'number' || /^\d/.test(String(v))`, which throws when `String(v)` does. */
  function NumericTest(host: Host, v: Value): (r: Completion<bool>)
    ensures r.Throw? <==> !v.Num? && ToJsString(host, v).Throw?
    ensures r == Normal(true) ==> ToNumber(host, v).Normal?
  {
    if v.Num? then Normal(true)
    else
      match ToJsString(host, v)
      case Normal(s) => Normal(StartsWithDigit(s))
      case Throw => Throw
  }
}

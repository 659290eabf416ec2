/**
 * The parts of JavaScript value semantics the server and client code rely on:
 * truthiness, `a || b`, destructuring defaults, property reads that throw on
 * `null`/`undefined`, and the string conversion a template literal applies.
 * Numbers are modelled as integers.
 */
module Js {
  import opened Wrappers

  datatype JsValue =
    | Undefined
    | Null
    | Bool(b: bool)
    | Num(n: int)
    | Str(s: string)
    | Arr(items: seq<JsValue>)
    | Obj(props: map<string, JsValue>)

  /** JavaScript truthiness: undefined, null, false, 0 and "" are falsy. */
  predicate Truthy(v: JsValue)
  {
    match v
    case Undefined => false
    case Null => false
    case Bool(b) => b
    case Num(n) => n != 0
    case Str(s) => s != ""
    case _ => true
  }

  predicate Nullish(v: JsValue)
  {
    v.Undefined? || v.Null?
  }

  /** `a || b`: the left operand when it is truthy, the right one otherwise. */
  function Or(a: JsValue, b: JsValue): (r: JsValue)
    ensures Truthy(a) ==> r == a
    ensures !Truthy(a) ==> r == b
  {
    if Truthy(a) then a else b
  }

  /** A destructuring default `{ x = d }`: applies only when the value is undefined, not for null or other falsy values. */
  function Default(v: JsValue, d: JsValue): (r: JsValue)
    ensures v.Undefined? ==> r == d
    ensures !v.Undefined? ==> r == v
  {
    if v.Undefined? then d else v
  }

  /** A string that may be absent (an environment variable, a request header): undefined when absent. */
  function FromOption(o: Option<string>): (v: JsValue)
    ensures Truthy(v) <==> o.Some? && o.value != ""
  {
    match o
    case None => Undefined
    case Some(s) => Str(s)
  }

  /** Reading a named key of a parsed request body (a JSON object): undefined when absent. */
  function Field(body: map<string, JsValue>, key: string): (v: JsValue)
    ensures key !in body ==> v.Undefined?
    ensures key in body ==> v == body[key]
  {
    if key in body then body[key] else Undefined
  }

  /** The message V8 gives the TypeError thrown by reading `key` of null or undefined. */
  function ReadError(v: JsValue, key: string): string
  {
    "Cannot read properties of " + (if v.Null? then "null" else "undefined") + " (reading '" + key + "')"
  }

  /**
   * `v.key`: throws a TypeError on null and undefined, yields the property of an
   * object, and undefined for any other value (prototype members such as
   * `length` are not modelled).
   */
  function GetProp(v: JsValue, key: string): (r: Result<JsValue, string>)
    ensures r.Failure? <==> Nullish(v)
    ensures r.Failure? ==> r.error == ReadError(v, key)
    ensures v.Obj? && key in v.props ==> r == Success(v.props[key])
    ensures (v.Obj? && key !in v.props) || v.Bool? || v.Num? || v.Str? || v.Arr? ==> r == Success(Undefined)
  {
    match v
    case Undefined => Failure(ReadError(v, key))
    case Null => Failure(ReadError(v, key))
    case Obj(p) => Success(if key in p then p[key] else Undefined)
    case _ => Success(Undefined)
  }

  function DigitChar(d: nat): (c: char)
    requires d < 10
  {
    "0123456789"[d]
  }

  function DigitValue(c: char): (d: nat)
  {
    if '0' <= c <= '9' then (c - '0') as nat else 0
  }

  predicate IsDigits(s: string)
  {
    forall i :: 0 <= i < |s| ==> '0' <= s[i] <= '9'
  }

  /** The decimal spelling of a natural number, most significant digit first, without leading zeros. */
  function NatToStr(n: nat): (s: string)
    ensures |s| > 0 && IsDigits(s)
    ensures s[0] == '0' ==> n == 0
    decreases n
  {
    if n < 10 then [DigitChar(n)] else NatToStr(n / 10) + [DigitChar(n % 10)]
  }

  /** The value a string of decimal digits denotes. */
  function DigitsValue(s: string): nat
    decreases |s|
  {
    if s == [] then 0 else 10 * DigitsValue(s[..|s| - 1]) + DigitValue(s[|s| - 1])
  }

  /** Decimal spelling is injective: reading the digits back gives the number. */
  lemma {:induction false} NatToStrRoundTrip(n: nat)
    ensures DigitsValue(NatToStr(n)) == n
    decreases n
  {
    var s := NatToStr(n);
    if n >= 10 {
      NatToStrRoundTrip(n / 10);
      assert s[..|s| - 1] == NatToStr(n / 10);
    }
  }

  /** `String(n)` for an integer, as `${n}` in a template literal produces it. */
  function IntToStr(n: int): (s: string)
    ensures n >= 0 ==> s == NatToStr(n)
    ensures n < 0 ==> s == "-" + NatToStr(-n)
  {
    if n < 0 then "-" + NatToStr(-n) else NatToStr(n)
  }

  /** `parts.join(sep)`. */
  function Join(parts: seq<string>, sep: string): string
    decreases |parts|
  {
    if parts == [] then "" else if |parts| == 1 then parts[0] else parts[0] + sep + Join(parts[1..], sep)
  }

  /**
   * `String(v)`, the conversion `${v}` applies in a template literal: arrays
   * join their elements with "," (null and undefined elements become empty),
   * plain objects become "[object Object]".
   */
  function ToStr(v: JsValue): (s: string)
    ensures v.Str? ==> s == v.s
    ensures v.Num? && v.n >= 0 ==> s == NatToStr(v.n)
    decreases v
  {
    match v
    case Undefined => "undefined"
    case Null => "null"
    case Bool(b) => if b then "true" else "false"
    case Num(n) => IntToStr(n)
    case Str(s) => s
    case Arr(items) =>
      Join(seq(|items|, i requires 0 <= i < |items| =>
        if Nullish(items[i]) then "" else ToStr(items[i])), ",")
    case Obj(_) => "[object Object]"
  }
}

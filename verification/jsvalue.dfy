/** An abstract JavaScript value, as far as the plugin inspects parsed JSON
    bodies: numbers are integers and objects are finite maps from keys to
    values (key order is not modelled). */
module JsValue {
  import opened Wrappers

  datatype Value =
    | Undefined
    | Null
    | Bool(b: bool)
    | Num(n: int)
    | Str(s: string)
    | Arr(items: seq<Value>)
    | Obj(fields: map<string, Value>)

  /** JavaScript truthiness: `undefined`, `null`, `false`, `0` and `""` are
      falsy; every other value, including every array and object, is truthy. */
  predicate Truthy(v: Value)
  {
    match v
    case Undefined => false
    case Null => false
    case Bool(b) => b
    case Num(n) => n != 0
    case Str(s) => |s| > 0
    case Arr(_) => true
    case Obj(_) => true
  }

  /** The text of the TypeError a property read on `null` or `undefined`
      raises (the wording of the V8 engine). */
  function ReadError(v: Value, key: string): string
    requires v.Undefined? || v.Null?
  {
    "Cannot read properties of " + (if v.Null? then "null" else "undefined") + " (reading '" + key + "')"
  }

  /** `v[key]` for a key that names no built-in property of strings, arrays,
      numbers, booleans or plain objects: an own field of an object, or
      `undefined`; reading from `null` or `undefined` fails with a
      TypeError. */
  function Get(v: Value, key: string): (r: Result<Value, string>)
    ensures r.Failure? <==> v.Undefined? || v.Null?
    ensures v.Obj? && key in v.fields ==> r == Success(v.fields[key])
    ensures !v.Obj? && r.Success? ==> r.value == Undefined
  {
    match v
    case Undefined => Failure(ReadError(v, key))
    case Null => Failure(ReadError(v, key))
    case Obj(m) => Success(if key in m then m[key] else Undefined)
    case _ => Success(Undefined)
  }

  /** The decimal digit for `d`. */
  function Digit(d: nat): char
    requires d < 10
  {
    "0123456789"[d]
  }

  /** The decimal text of a natural number, without leading zeros. */
  function NatText(n: nat): string
    decreases n
  {
    if n < 10 then [Digit(n)] else NatText(n / 10) + [Digit(n % 10)]
  }

  /** The decimal text of an integer, with a leading '-' when negative. */
  function IntText(n: int): string
  {
    if n < 0 then "-" + NatText(-n) else NatText(n)
  }

  /** `parts.join(",")`. */
  function JoinComma(parts: seq<string>): string
  {
    if |parts| == 0 then ""
    else if |parts| == 1 then parts[0]
    else parts[0] + "," + JoinComma(parts[1..])
  }

  /** `String(v)`, the text a template literal inserts for `v`: an array
      joins its elements with commas, writing `null` and `undefined`
      elements as empty text, and a plain object reads "[object Object]". */
  function Display(v: Value): string
    decreases v
  {
    match v
    case Undefined => "undefined"
    case Null => "null"
    case Bool(b) => if b then "true" else "false"
    case Num(n) => IntText(n)
    case Str(s) => s
    case Obj(_) => "[object Object]"
    case Arr(items) =>
      JoinComma(seq(|items|, i requires 0 <= i < |items| =>
        if items[i].Null? || items[i].Undefined? then "" else Display(items[i])))
  }
}

/** JavaScript values as the tool handlers see them (decoded JSON arguments and
    response bodies), the exceptions they raise, and the few JavaScript
    operators the handlers apply: truthiness, `||`, destructuring defaults,
    property reads, object spread and property assignment, template-literal
    conversion and `Array.prototype.join`. Numbers are integers only, and an
    object is a map from keys to values (the order of its keys is not kept). */
module Js {

  datatype Value =
    | Undef
    | Null
    | Bool(b: bool)
    | Num(n: int)
    | Str(s: string)
    | Arr(items: seq<Value>)
    | Obj(fields: map<string, Value>)

  datatype Option<+T> = None | Some(value: T)

  /** A thrown JavaScript error. Errors raised by the handlers themselves carry
      no HTTP information; errors from the remote services carry whatever the
      client library attached (`status`, `statusCode`, `response`). The stack
      is kept as its first line only. */
  datatype Fault = Fault(
    name: string,
    message: string,
    status: Value,
    statusCode: Value,
    response: Value,
    stack: string)

  /** Outcome of a computation that may throw; usable with `:-`. */
  datatype Result<+T> = Ok(value: T) | Err(fault: Fault) {
    predicate IsFailure() { Err? }

    function PropagateFailure<U>(): Result<U>
      requires Err?
    {
      Err(fault)
    }

    function Extract(): T
      requires Ok?
    {
      value
    }
  }

  /** `new Error(message)` */
  function Raise(message: string): Fault {
    Fault("Error", message, Undef, Undef, Undef, "Error: " + message)
  }

  /** A TypeError raised by the JavaScript engine itself. */
  function TypeError(message: string): Fault {
    Fault("TypeError", message, Undef, Undef, Undef, "TypeError: " + message)
  }

  predicate Nullish(v: Value) {
    v.Undef? || v.Null?
  }

  /** ECMAScript ToBoolean. */
  predicate Truthy(v: Value) {
    match v
    case Undef => false
    case Null => false
    case Bool(b) => b
    case Num(n) => n != 0
    case Str(s) => s != ""
    case Arr(_) => true
    case Obj(_) => true
  }

  /** `a || b` */
  function Or(a: Value, b: Value): Value {
    if Truthy(a) then a else b
  }

  /** A destructuring default `{ x = d } = args`: it applies to `undefined` only. */
  function Default(v: Value, d: Value): Value {
    if v.Undef? then d else v
  }

  /** `v?.k` and, on a non-nullish `v`, `v.k`: absent properties read as undefined. */
  function Get(v: Value, k: string): Value {
    if v.Obj? && k in v.fields then v.fields[k] else Undef
  }

  /** `v.k`, which throws on a nullish `v`. */
  function Member(v: Value, k: string): Result<Value> {
    if Nullish(v) then
      Err(TypeError("Cannot read properties of " + Show(v) + " (reading '" + k + "')"))
    else
      Ok(Get(v, k))
  }

  /** `const { ... } = v`, which throws on a nullish `v`. */
  function Destructure(v: Value): Result<Value> {
    if Nullish(v) then
      Err(TypeError("Cannot destructure '" + Show(v) + "' as it is " + Show(v) + "."))
    else
      Ok(v)
  }

  /** `if (cond) o[k] = v` on an object with fields `m`: the property is set
      only when the condition holds */
  function PutIf(m: map<string, Value>, cond: bool, k: string, v: Value): (r: map<string, Value>)
    ensures forall j :: j in r <==> j in m || (cond && j == k)
    ensures cond ==> r[k] == v
    ensures forall j :: j in m && j != k ==> r[j] == m[j]
  {
    if cond then m[k := v] else m
  }

  /** `v.length` on a non-nullish value. */
  function LengthOf(v: Value): Value {
    match v
    case Arr(items) => Num(|items|)
    case Str(s) => Num(|s|)
    case Obj(fields) => Get(v, "length")
    case _ => Undef
  }

  /** `v && v.length > 0` used as a condition. */
  predicate NonEmpty(v: Value) {
    Truthy(v) && LengthOf(v).Num? && LengthOf(v).n > 0
  }

  /** `v[0]` on a non-nullish value. */
  function First(v: Value): Value {
    match v
    case Arr(items) => if |items| > 0 then items[0] else Undef
    case Str(s) => if |s| > 0 then Str([s[0]]) else Undef
    case Obj(fields) => Get(v, "0")
    case _ => Undef
  }

  /** The own enumerable properties that `{ ...v }` copies, for the values the
      handlers spread: response bodies, which are objects. */
  function Own(v: Value): map<string, Value> {
    if v.Obj? then v.fields else map[]
  }

  function Digit(d: nat): char
    requires d < 10
  {
    "0123456789"[d]
  }

  function NatToString(n: nat): string {
    if n < 10 then [Digit(n)] else NatToString(n / 10) + [Digit(n % 10)]
  }

  /** Template-literal conversion `${v}` (ECMAScript ToString). */
  function Show(v: Value): string {
    match v
    case Undef => "undefined"
    case Null => "null"
    case Bool(b) => if b then "true" else "false"
    case Num(n) => if n < 0 then "-" + NatToString(-n) else NatToString(n)
    case Str(s) => s
    case Arr(items) => JoinValues(items, ",")
    case Obj(_) => "[object Object]"
  }

  /** `Array.prototype.join`: nullish elements print as the empty string. */
  function JoinValues(items: seq<Value>, sep: string): string {
    if |items| == 0 then ""
    else
      var head := if Nullish(items[0]) then "" else Show(items[0]);
      if |items| == 1 then head else head + sep + JoinValues(items[1..], sep)
  }

  /** `strings.join(sep)` over plain strings. */
  function Join(parts: seq<string>, sep: string): string {
    if |parts| == 0 then ""
    else if |parts| == 1 then parts[0]
    else parts[0] + sep + Join(parts[1..], sep)
  }

  function StrValues(parts: seq<string>): seq<Value> {
    seq(|parts|, i requires 0 <= i < |parts| => Str(parts[i]))
  }

  /** `String.prototype.toLowerCase`, for ASCII letters. */
  function LowerChar(c: char): char {
    if 'A' <= c <= 'Z' then (c as int + 32) as char else c
  }

  function Lower(s: string): string {
    seq(|s|, i requires 0 <= i < |s| => LowerChar(s[i]))
  }

  /** `v.toLowerCase()`: only strings have the method. */
  function ToLowerCase(v: Value): Result<string> {
    if Nullish(v) then Err(TypeError("Cannot read properties of " + Show(v) + " (reading 'toLowerCase')"))
    else if v.Str? then Ok(Lower(v.s))
    else Err(TypeError(Show(v) + ".toLowerCase is not a function"))
  }
}

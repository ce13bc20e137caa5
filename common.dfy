/** JavaScript values as the client code sees them, and the small conversions the code
    relies on: truthiness (`||`, `if (x)`), `String(x)` and `padStart`. */
module Common {

  datatype Option<T> = None | Some(value: T)

  /** A scalar field of a JSON object or of a request body. `Undefined` is a field that is
      absent (reading it gives `undefined`; `JSON.stringify` omits it). */
  datatype Val = Str(s: string) | Num(n: int) | Dec(r: real) | Bool(b: bool) | Null | Undefined

  /** A JSON object, or a request body built by the client. */
  type Row = map<string, Val>

  /** A JSON scalar other than `null`: null and `undefined` documents have their own
      constructors below, so each document has one encoding. */
  type Scalar = v: Val | !v.Null? && !v.Undefined? witness Str("")

  /** A parsed JSON document. `JUndefined` is never produced by parsing: it is what
      indexing an empty array yields. */
  datatype Json = JObject(row: Row) | JArray(items: seq<Json>) | JPrimitive(v: Scalar) | JNull | JUndefined

  /** Why a promise rejected: an `Error` the code itself throws with a chosen message, or an
      error raised by the runtime (transport failure, JSON syntax error, TypeError), whose
      message the runtime chooses. */
  datatype Failure = Thrown(message: string) | Runtime(message: string)

  datatype Outcome<T> = Ok(value: T) | Fail(failure: Failure)

  /** `obj.field`, with a missing key reading as `undefined`. */
  function Get(row: Row, key: string): Val
  {
    if key in row then row[key] else Undefined
  }

  /** JavaScript truthiness of a scalar (NaN is not modelled). */
  predicate Truthy(v: Val)
  {
    match v
    case Str(s) => s != ""
    case Num(n) => n != 0
    case Dec(r) => r != 0.0
    case Bool(b) => b
    case Null => false
    case Undefined => false
  }

  /** Truthiness of an optional string (`null`/`undefined` or text). */
  predicate Present(s: Option<string>)
  {
    s.Some? && s.value != ""
  }

  /** `s || fallback` on an optional string. */
  function OrElse(s: Option<string>, fallback: string): (r: string)
    ensures fallback != "" ==> r != ""
    ensures Present(s) ==> r == s.value
    ensures !Present(s) ==> r == fallback
  {
    if Present(s) then s.value else fallback
  }

  function Digit(d: nat): (c: char)
    requires d < 10
    ensures '0' <= c <= '9'
  {
    (48 + d) as char
  }

  /** Decimal rendering of a natural number, as `String(n)` gives it. */
  function NatToString(n: nat): (r: string)
    ensures |r| >= 1
    ensures n < 10 <==> |r| == 1
    decreases n
  {
    if n < 10 then [Digit(n)] else NatToString(n / 10) + [Digit(n % 10)]
  }

  /** Every character of `String(n)` is a decimal digit. */
  lemma {:induction false} NatToStringDigits(n: nat)
    ensures forall i :: 0 <= i < |NatToString(n)| ==> '0' <= NatToString(n)[i] <= '9'
    decreases n
  {
    if n >= 10 {
      NatToStringDigits(n / 10);
      var r := NatToString(n);
      assert r == NatToString(n / 10) + [Digit(n % 10)];
    }
  }

  function IntToString(i: int): (r: string)
    ensures r != ""
  {
    if i < 0 then "-" + NatToString(-i) else NatToString(i)
  }

  /** `String(v)`, as template literals and `new Error(v)` convert a value to text.
      A non-integral number is rendered by a placeholder: decimal formatting of floats is not modelled. */
  function ValText(v: Val): string
  {
    match v
    case Str(s) => s
    case Num(n) => IntToString(n)
    case Dec(r) => if r == r.Floor as real then IntToString(r.Floor) else "<decimal>"
    case Bool(b) => if b then "true" else "false"
    case Null => "null"
    case Undefined => "undefined"
  }

  /** `s.padStart(width, c)` for a one-character pad string. */
  function PadStart(s: string, width: nat, c: char): (r: string)
    ensures |s| >= width ==> r == s
    ensures |s| < width ==> |r| == width && r[width - |s|..] == s
    ensures forall i :: 0 <= i < |r| - |s| ==> r[i] == c
  {
    if |s| >= width then s else seq(width - |s|, _ => c) + s
  }

  /** The message of the TypeError the engine raises for reading `field` of `null` or
      `undefined` (`what`); its exact wording is the engine's. */
  function TypeErrorMessage(field: string, what: string): string
  {
    "Cannot read property '" + field + "' of " + what
  }
}

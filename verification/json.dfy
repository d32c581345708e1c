/** JSON-shaped JavaScript values as the frontend sees them after `JSON.parse`,
    together with the parts of the JavaScript runtime applied to them:
    truthiness, property access, `Object.values`, the string conversion
    `Array.prototype.join` performs and `JSON.stringify`. */
module Json {
  import opened Wrappers
  import Strings

  /** A JSON value. `JObject` lists the object's own properties in
      enumeration order; in every value JavaScript produces its keys are
      distinct. Numbers are integers: floating point is outside the model. */
  datatype Value =
    | JNull
    | JBool(b: bool)
    | JNumber(n: int)
    | JString(s: string)
    | JArray(elems: seq<Value>)
    | JObject(members: seq<(string, Value)>)

  /** The error `Object.values` raises on `null`. */
  datatype Error = TypeError

  /** `typeof v === 'object'`: true of objects, arrays and `null`. */
  predicate IsObjectType(v: Value) {
    v.JObject? || v.JArray? || v.JNull?
  }

  /** JavaScript truthiness: `null`, `false`, `0` and `""` are falsy. */
  predicate Truthy(v: Value) {
    match v
    case JNull => false
    case JBool(b) => b
    case JNumber(n) => n != 0
    case JString(s) => s != ""
    case JArray(_) => true
    case JObject(_) => true
  }

  /** Position of the first property named `key`, if any. */
  function FindKey(members: seq<(string, Value)>, key: string): (r: Option<nat>)
    ensures r.Some? ==> r.value < |members| && members[r.value].0 == key
    ensures r.Some? ==> forall i :: 0 <= i < r.value ==> members[i].0 != key
    ensures r.None? ==> forall i :: 0 <= i < |members| ==> members[i].0 != key
  {
    if |members| == 0 then None
    else if members[0].0 == key then Some(0)
    else match FindKey(members[1..], key)
      case None => None
      case Some(i) => Some(i + 1)
  }

  /** `v[key]` for a property name: `None` stands for `undefined`. Only
      objects carry named properties among JSON values. */
  function Property(v: Value, key: string): (r: Option<Value>)
    ensures r.Some? ==> v.JObject? && exists i :: 0 <= i < |v.members| && v.members[i] == (key, r.value)
    ensures v.JObject? && (exists i :: 0 <= i < |v.members| && v.members[i].0 == key) ==> r.Some?
  {
    match v
    case JObject(ms) =>
      (match FindKey(ms, key)
       case None => None
       case Some(i) => Some(ms[i].1))
    case _ => None
  }

  /** `Object.values(v)`: an object's property values, an array's elements,
      a string's characters, nothing for numbers and booleans; `null` throws. */
  function ObjectValues(v: Value): (r: Result<seq<Value>, Error>)
    ensures r.Failure? <==> v.JNull?
    ensures v.JObject? ==> r.Success? && |r.value| == |v.members|
                           && forall i :: 0 <= i < |v.members| ==> r.value[i] == v.members[i].1
    ensures v.JArray? ==> r == Success(v.elems)
  {
    match v
    case JNull => Failure(TypeError)
    case JBool(_) => Success([])
    case JNumber(_) => Success([])
    case JString(s) => Success(seq(|s|, i requires 0 <= i < |s| => JString([s[i]])))
    case JArray(es) => Success(es)
    case JObject(ms) => Success(seq(|ms|, i requires 0 <= i < |ms| => ms[i].1))
  }

  /** Decimal digits of a natural number, most significant first. */
  function NatText(n: nat): (r: string)
    ensures |r| > 0 && forall i :: 0 <= i < |r| ==> '0' <= r[i] <= '9'
  {
    if n < 10 then [Digit(n)] else NatText(n / 10) + [Digit(n % 10)]
  }

  function Digit(d: nat): (c: char)
    requires d < 10
    ensures '0' <= c <= '9'
  {
    ['0', '1', '2', '3', '4', '5', '6', '7', '8', '9'][d]
  }

  /** `String(n)` for an integer. */
  function NumberText(n: int): (r: string)
    ensures |r| > 0 && (r[0] == '-' || '0' <= r[0] <= '9')
  {
    if n < 0 then "-" + NatText(-n) else NatText(n)
  }

  /** How `Array.prototype.join` renders one element: `null` as the empty
      string, arrays by joining their own elements with ",", plain objects
      as "[object Object]". */
  function JoinText(v: Value): string {
    match v
    case JNull => ""
    case JBool(b) => if b then "true" else "false"
    case JNumber(n) => NumberText(n)
    case JString(s) => s
    case JArray(es) => Strings.Join(seq(|es|, i requires 0 <= i < |es| => JoinText(es[i])), ",")
    case JObject(_) => "[object Object]"
  }

  /** `values.join(sep)`. */
  function JoinValues(values: seq<Value>, sep: string): string {
    Strings.Join(seq(|values|, i requires 0 <= i < |values| => JoinText(values[i])), sep)
  }

  /** Lower-case hexadecimal digit. */
  function HexDigit(d: nat): (c: char)
    requires d < 16
  {
    "0123456789abcdef"[d]
  }

  /** How `JSON.stringify` writes one character inside a string literal
      (ECMA-262, QuoteJSONString). */
  function EscapeChar(c: char): (r: string)
    ensures |r| >= 1
    ensures r[0] == '\\' || (r == [c] && c != '"' && c != '\\' && c >= ' ')
  {
    if c == '\U{0008}' then "\\b"
    else if c == '\t' then "\\t"
    else if c == '\n' then "\\n"
    else if c == '\U{000C}' then "\\f"
    else if c == '\r' then "\\r"
    else if c == '"' then "\\\""
    else if c == '\\' then "\\\\"
    else if c < ' ' then "\\u00" + [HexDigit(c as int / 16), HexDigit(c as int % 16)]
    else [c]
  }

  function EscapeString(s: string): string {
    if s == [] then "" else EscapeChar(s[0]) + EscapeString(s[1..])
  }

  function Quote(s: string): (r: string)
    ensures |r| >= 2 && r[0] == '"' && r[|r| - 1] == '"'
  {
    "\"" + EscapeString(s) + "\""
  }

  /** `JSON.stringify(v)` without indentation. */
  function Stringify(v: Value): (r: string)
    ensures |r| > 0
    ensures r[0] == '{' <==> v.JObject?
  {
    match v
    case JNull => "null"
    case JBool(b) => if b then "true" else "false"
    case JNumber(n) => NumberText(n)
    case JString(s) => Quote(s)
    case JArray(es) =>
      "[" + Strings.Join(seq(|es|, i requires 0 <= i < |es| => Stringify(es[i])), ",") + "]"
    case JObject(ms) =>
      "{" + Strings.Join(seq(|ms|, i requires 0 <= i < |ms| => Quote(ms[i].0) + ":" + Stringify(ms[i].1)), ",") + "}"
  }
}

/**
 * The JavaScript primitives that reach the inventory code, with the few
 * pieces of JavaScript semantics it relies on: truthiness, `||`,
 * destructuring defaults, `Number(...)`, template-literal rendering and
 * `toLowerCase`.
 */
module JsValues {
  import opened Wrappers

  /** A JSON/JavaScript primitive. Numbers are integers (no NaN, no fractions). */
  datatype Value = Undefined | Null | Bool(b: bool) | Num(n: int) | Str(s: string)

  /** `if (v)` / `!v` */
  predicate Truthy(v: Value) {
    match v
    case Undefined => false
    case Null => false
    case Bool(b) => b
    case Num(n) => n != 0
    case Str(s) => s != ""
  }

  /** `a || b` */
  function Or(a: Value, b: Value): (r: Value) {
    if Truthy(a) then a else b
  }

  /** A destructuring default `{x = d}`: it applies only when the value is undefined. */
  function OrDefault(v: Value, default: Value): (r: Value) {
    if v.Undefined? then default else v
  }

  predicate IsDigit(c: char) {
    '0' <= c <= '9'
  }

  predicate AllDigits(s: string) {
    forall i | 0 <= i < |s| :: IsDigit(s[i])
  }

  function DigitsValue(s: string): (n: nat)
    requires AllDigits(s)
  {
    if s == [] then 0
    else DigitsValue(s[..|s| - 1]) * 10 + (s[|s| - 1] as int - '0' as int)
  }

  /** `Number(s)` for strings: "" is 0, an optionally signed digit string is its value, anything else NaN (None). */
  function StringToNumber(s: string): (r: Option<int>) {
    if s == "" then Some(0)
    else if AllDigits(s) then Some(DigitsValue(s))
    else if |s| > 1 && (s[0] == '+' || s[0] == '-') && AllDigits(s[1..]) then
      Some(if s[0] == '-' then -(DigitsValue(s[1..]) as int) else DigitsValue(s[1..]))
    else None
  }

  /** `Number(v)`, with None standing for NaN. */
  function ToNumber(v: Value): (r: Option<int>) {
    match v
    case Undefined => None
    case Null => Some(0)
    case Bool(b) => Some(if b then 1 else 0)
    case Num(n) => Some(n)
    case Str(s) => StringToNumber(s)
  }

  /** `!isNaN(Number(v))` */
  predicate IsNumeric(v: Value) {
    ToNumber(v).Some?
  }

  function DigitChar(d: nat): (c: char)
    requires d < 10
  {
    ('0' as int + d) as char
  }

  function NatToString(n: nat): (digits: string) {
    if n < 10 then [DigitChar(n)] else NatToString(n / 10) + [DigitChar(n % 10)]
  }

  /** How a template literal `${v}` renders a primitive. */
  function Render(v: Value): (text: string) {
    match v
    case Undefined => "undefined"
    case Null => "null"
    case Bool(b) => if b then "true" else "false"
    case Num(n) => if n < 0 then "-" + NatToString(-n) else NatToString(n)
    case Str(s) => s
  }

  function LowerChar(c: char): (lower: char) {
    if 'A' <= c <= 'Z' then (c as int + 32) as char else c
  }

  /** `s.toLowerCase()` restricted to ASCII letters. */
  function ToLowerCase(s: string): (lower: string) {
    seq(|s|, i requires 0 <= i < |s| => LowerChar(s[i]))
  }
}

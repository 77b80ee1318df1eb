/** The JavaScript values the core inspects: the scalar field values a
    parsed record can hold, parsed objects, `String(...)` conversion and the
    truthiness of `string | null`. Nested objects and arrays, fractional
    numbers and exponent notation are not modelled (see README). */
module JsValues {
  import opened Wrappers

  /** A JSON-compatible value as it can appear in a field of a parsed object. */
  datatype JsValue = Undefined | Null | Bool(b: bool) | Num(n: int) | Str(s: string)

  /** A parsed JSON object: field names to values. */
  type JsObject = map<string, JsValue>

  /** A thrown or rejected error (the source's `err: any`), kept by its message. */
  datatype JsError = JsError(message: string)

  /** `obj[name]`: a field that is absent reads as `undefined`. */
  function Field(obj: JsObject, name: string): (v: JsValue)
    ensures name in obj ==> v == obj[name]
    ensures name !in obj ==> v == Undefined
  {
    if name in obj then obj[name] else Undefined
  }

  /** Truthiness of a `string | null` value: `null` and `""` are falsy. */
  predicate Truthy(s: Option<string>)
  {
    s.Some? && s.value != ""
  }

  function Digit(d: nat): (c: char)
    requires d < 10
    ensures '0' <= c <= '9'
  {
    (48 + d) as char
  }

  /** Decimal digits of a natural number, without leading zeros. */
  function NatDigits(n: nat): (r: string)
    ensures |r| > 0
    ensures |r| == 1 <==> n < 10
    ensures forall i :: 0 <= i < |r| ==> '0' <= r[i] <= '9'
  {
    if n < 10 then [Digit(n)] else NatDigits(n / 10) + [Digit(n % 10)]
  }

  /** `String(n)` for an integer `n`. */
  function DecimalString(n: int): (r: string)
    ensures |r| > 0
    ensures r[0] == '-' <==> n < 0
  {
    if n < 0 then "-" + NatDigits(-n) else NatDigits(n)
  }

  /** `String(v)` for a field value. */
  function ToJsString(v: JsValue): string
  {
    match v
    case Undefined => "undefined"
    case Null => "null"
    case Bool(b) => if b then "true" else "false"
    case Num(n) => DecimalString(n)
    case Str(s) => s
  }

  /** Distinct natural numbers have distinct decimal representations. */
  lemma {:induction false} NatDigitsInjective(a: nat, b: nat)
    requires NatDigits(a) == NatDigits(b)
    ensures a == b
  {
    var ra, rb := NatDigits(a), NatDigits(b);
    if a < 10 || b < 10 {
      assert |ra| == 1 && |rb| == 1;
      assert ra[0] == Digit(a) && rb[0] == Digit(b);
    } else {
      assert ra[|ra| - 1] == Digit(a % 10);
      assert rb[|rb| - 1] == Digit(b % 10);
      assert ra[..|ra| - 1] == NatDigits(a / 10);
      assert rb[..|rb| - 1] == NatDigits(b / 10);
      NatDigitsInjective(a / 10, b / 10);
    }
  }

  /** `String(a) === String(b)` holds of two integers only when they are equal. */
  lemma DecimalStringInjective(a: int, b: int)
    requires DecimalString(a) == DecimalString(b)
    ensures a == b
  {
    if a < 0 && b < 0 {
      assert DecimalString(a)[1..] == NatDigits(-a);
      assert DecimalString(b)[1..] == NatDigits(-b);
      NatDigitsInjective(-a, -b);
    } else if a >= 0 && b >= 0 {
      NatDigitsInjective(a, b);
    }
  }
}

/**
 * Scalar field values of the JSON records, and how Python renders them
 * when an f-string interpolates them (`str()`).
 */
module Json {
  import opened Optional

  /**
   * A record field value as Python holds it after `json.load`, limited to
   * null, booleans, integers and strings: floats, arrays and objects are not
   * represented.
   */
  datatype Value = Null | Bool(b: bool) | Int(i: int) | Str(s: string)

  function Digit(d: nat): (c: char)
    requires d < 10
    ensures '0' <= c <= '9'
  {
    "0123456789"[d]
  }

  function DigitValue(c: char): nat
  {
    if '0' <= c <= '9' then (c as int - '0' as int) as nat else 0
  }

  /** Decimal rendering of a natural number, most significant digit first. */
  function NatToString(n: nat): (r: string)
    ensures |r| > 0
    ensures forall k | 0 <= k < |r| :: '0' <= r[k] <= '9'
    decreases n
  {
    if n < 10 then [Digit(n)] else NatToString(n / 10) + [Digit(n % 10)]
  }

  /** Reads a string of decimal digits back as a number. */
  function ParseDecimal(s: string): nat
  {
    if s == [] then 0 else ParseDecimal(s[..|s| - 1]) * 10 + DigitValue(s[|s| - 1])
  }

  /** The decimal rendering is faithful: reading it back gives the number. */
  lemma {:induction false} NatToStringRoundTrip(n: nat)
    ensures ParseDecimal(NatToString(n)) == n
    decreases n
  {
    if n >= 10 {
      NatToStringRoundTrip(n / 10);
      var r := NatToString(n);
      assert r[..|r| - 1] == NatToString(n / 10);
    }
  }

  /** Python's `str()` of a JSON scalar, which is what an f-string field shows. */
  function Show(v: Value): string
  {
    match v
    case Null => "None"
    case Bool(b) => if b then "True" else "False"
    case Int(i) => if i < 0 then "-" + NatToString(-i) else NatToString(i)
    case Str(s) => s
  }

  /** Python truthiness of a JSON scalar (`if value:`). */
  predicate Truthy(v: Value)
  {
    match v
    case Null => false
    case Bool(b) => b
    case Int(i) => i != 0
    case Str(s) => s != []
  }

  /** `f"{record.get(key, fallback)}"`. */
  function Render(field: Option<Value>, fallback: string): string
  {
    match field
    case None => fallback
    case Some(v) => Show(v)
  }

  /** `f"{record.get(key)}"`: a missing key shows as Python's `None`. */
  function RenderOrNone(field: Option<Value>): string
  {
    Show(field.GetOr(Null))
  }

  /** A field that a helper passes on as a value: `record.get(key, fallback)`. */
  function ValueOr(field: Option<Value>, fallback: string): Value
  {
    field.GetOr(Str(fallback))
  }
}

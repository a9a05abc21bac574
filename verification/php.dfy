/**
 * PHP's loose handling of request values, as the catalog API relies on it:
 * empty(), floatval(), intval(), boolval() and is_numeric() on the scalar
 * values a JSON body or a query string can carry.
 */
module Php {
  import opened Wrappers
  import Text

  /** A JSON scalar in a request body; `null` and a missing key are both `None` at the use site. */
  datatype Scalar = Number(n: real) | Str(s: string) | Flag(b: bool)

  /** empty() of a text value that may be missing: missing, "" and "0" are empty. */
  predicate EmptyText(v: Option<string>) {
    v.None? || v.value == "" || v.value == "0"
  }

  /** empty() of a scalar that may be missing or null. */
  predicate EmptyScalar(v: Option<Scalar>) {
    match v
    case None => true
    case Some(Number(n)) => n == 0.0
    case Some(Str(s)) => s == "" || s == "0"
    case Some(Flag(b)) => !b
  }

  /** floatval() of a string: the decimal number after leading whitespace, 0 when there is none. */
  function FloatVal(s: string): real {
    Text.DecimalPrefix(Text.TrimStart(s, Text.IsPhpSpace)).GetOr(0.0)
  }

  /** is_numeric() of a string: optional leading and trailing whitespace around a signed decimal. */
  predicate IsNumericText(s: string) {
    var d := Text.ScanDecimal(Text.TrimStart(s, Text.IsPhpSpace));
    d.HasDigits() && forall i :: 0 <= i < |d.rest| ==> Text.IsPhpSpace(d.rest[i])
  }

  predicate IsNumeric(v: Scalar) {
    match v
    case Number(_) => true
    case Str(s) => IsNumericText(s)
    case Flag(_) => false
  }

  /** floatval() of a value that may be missing or null (both give 0). */
  function ToFloat(v: Option<Scalar>): real {
    match v
    case None => 0.0
    case Some(Number(n)) => n
    case Some(Str(s)) => FloatVal(s)
    case Some(Flag(b)) => if b then 1.0 else 0.0
  }

  /** Conversion of a float to int, discarding the fraction toward zero. */
  function Truncate(x: real): (n: int)
    ensures 0.0 <= x ==> 0 <= n && n as real <= x < n as real + 1.0
    ensures x < 0.0 ==> n <= 0 && n as real - 1.0 < x <= n as real
  {
    if x >= 0.0 then x.Floor else -((-x).Floor)
  }

  /** intval() of a value that may be missing or null. */
  function ToInt(v: Option<Scalar>): int {
    match v
    case Some(Flag(b)) => if b then 1 else 0
    case _ => Truncate(ToFloat(v))
  }

  /** boolval(): a value is true exactly when it is not empty(). */
  function ToBool(v: Option<Scalar>): bool {
    !EmptyScalar(v)
  }

  /** A non-empty string that does not start with a digit, sign, '.' or whitespace converts to 0. */
  lemma FloatValOfText(s: string)
    requires s != [] && !(Text.IsDigit(s[0]) || s[0] == '.' || s[0] == '-' || s[0] == '+' || Text.IsPhpSpace(s[0]))
    ensures FloatVal(s) == 0.0
    ensures !IsNumericText(s)
  {
    assert Text.TrimStart(s, Text.IsPhpSpace) == s;
    Text.NoNumberWithoutDigit(s);
    assert Text.DigitRun(s) == 0;
  }
}

/**
 * Character-level string operations the catalog relies on: ASCII case
 * folding (PHP's strtolower), substring search (strpos, String.includes),
 * whitespace trimming, byte-wise ordering (strcmp) and the scan of a leading
 * decimal number that floatval, is_numeric and parseFloat share.
 */
module Text {
  import opened Wrappers

  predicate IsDigit(c: char) {
    '0' <= c <= '9'
  }

  /** ASCII upper-case letters map to lower case; every other character is kept. */
  function LowerChar(c: char): (d: char)
    ensures 'A' <= c <= 'Z' ==> 'a' <= d <= 'z' && d as int - c as int == 32
    ensures !('A' <= c <= 'Z') ==> d == c
  {
    if 'A' <= c <= 'Z' then (c as int + 32) as char else c
  }

  /** Lower-cases a string character by character. */
  function Lower(s: string): (r: string)
    ensures |r| == |s|
    ensures forall i :: 0 <= i < |s| ==> r[i] == LowerChar(s[i])
  {
    if s == [] then [] else [LowerChar(s[0])] + Lower(s[1..])
  }

  /** Lower-casing twice is lower-casing once. */
  lemma LowerIdempotent(s: string)
    ensures Lower(Lower(s)) == Lower(s)
  {
  }

  /** Every character is its own lower case. */
  predicate IsLower(t: string) {
    forall k :: 0 <= k < |t| ==> LowerChar(t[k]) == t[k]
  }

  lemma LowerIsLower(s: string)
    ensures IsLower(Lower(s))
  {
  }

  /** Lower-casing a lower-case string changes nothing. */
  lemma LowerOfLower(t: string)
    requires IsLower(t)
    ensures Lower(t) == t
  {
  }

  /** `needle` occurs in `hay` at some position. */
  predicate Contains(hay: string, needle: string) {
    exists i | 0 <= i <= |hay| - |needle| :: OccursAt(hay, needle, i)
  }

  predicate OccursAt(hay: string, needle: string, i: nat) {
    i + |needle| <= |hay| && hay[i..i + |needle|] == needle
  }

  /** Whitespace skipped by PHP's numeric-string rules: space, \t, \n, \v, \f, \r. */
  predicate IsPhpSpace(c: char) {
    c == ' ' || 9 <= c as int <= 13
  }

  /** The characters PHP's trim() removes by default: space, \t, \n, \r, \0 and \v. */
  predicate IsPhpTrimmed(c: char) {
    c == ' ' || c as int == 0 || c as int == 9 || c as int == 10 || c as int == 11 || c as int == 13
  }

  /** ECMAScript WhiteSpace and LineTerminator code points, removed by trim() and skipped by parseFloat(). */
  predicate IsJsSpace(c: char) {
    var n := c as int;
    n == 32 || 9 <= n <= 13 || n == 0xA0 || n == 0x1680 || 0x2000 <= n <= 0x200A
    || n == 0x2028 || n == 0x2029 || n == 0x202F || n == 0x205F || n == 0x3000 || n == 0xFEFF
  }

  /** How many `space` characters `s` starts with. */
  function LeadingSpaces(s: string, space: char -> bool): (n: nat)
    ensures n <= |s|
    ensures forall i :: 0 <= i < n ==> space(s[i])
    ensures n < |s| ==> !space(s[n])
  {
    if s == [] || !space(s[0]) then 0
    else
      var n := LeadingSpaces(s[1..], space);
      assert forall i :: 1 <= i <= n ==> s[i] == s[1..][i - 1];
      n + 1
  }

  /** How many `space` characters `s` ends with. */
  function TrailingSpaces(s: string, space: char -> bool): (n: nat)
    ensures n <= |s|
    ensures forall i :: |s| - n <= i < |s| ==> space(s[i])
    ensures n < |s| ==> !space(s[|s| - n - 1])
  {
    if s == [] || !space(s[|s| - 1]) then 0
    else
      var n := TrailingSpaces(s[..|s| - 1], space);
      assert forall i :: |s| - 1 - n <= i < |s| - 1 ==> s[i] == s[..|s| - 1][i];
      n + 1
  }

  /** `s` without its leading run of `space` characters. */
  function TrimStart(s: string, space: char -> bool): (r: string)
    ensures |r| <= |s| && r == s[|s| - |r|..]
    ensures forall i :: 0 <= i < |s| - |r| ==> space(s[i])
    ensures r == [] || !space(r[0])
  {
    s[LeadingSpaces(s, space)..]
  }

  /** `s` without its trailing run of `space` characters. */
  function TrimEnd(s: string, space: char -> bool): (r: string)
    ensures |r| <= |s| && r == s[..|r|]
    ensures forall i :: |r| <= i < |s| ==> space(s[i])
    ensures r == [] || !space(r[|r| - 1])
  {
    s[..|s| - TrailingSpaces(s, space)]
  }

  /** `s` without leading and trailing `space` characters. */
  function Trim(s: string, space: char -> bool): (r: string)
    ensures |r| <= |s|
    ensures r == [] || (!space(r[0]) && !space(r[|r| - 1]))
  {
    TrimEnd(TrimStart(s, space), space)
  }

  /** Trim keeps a slice of `s` and cuts off only `space` characters on either side. */
  lemma TrimSlice(s: string, space: char -> bool)
    ensures var r := Trim(s, space);
      var i := |s| - |TrimStart(s, space)|;
      i + |r| <= |s| && r == s[i..i + |r|]
      && (forall k :: 0 <= k < i ==> space(s[k]))
      && (forall k :: i + |r| <= k < |s| ==> space(s[k]))
  {
    var t := TrimStart(s, space);
    TrimEndSlice(s, t, Trim(s, space), space);
  }

  /** What TrimEnd keeps of the suffix `t` of `s` is a slice of `s` followed by `space` characters only. */
  lemma TrimEndSlice(s: string, t: string, r: string, space: char -> bool)
    requires |t| <= |s| && t == s[|s| - |t|..]
    requires r == TrimEnd(t, space)
    ensures var i := |s| - |t|;
      i + |r| <= |s| && r == s[i..i + |r|]
      && (forall k :: i + |r| <= k < |s| ==> space(s[k]))
  {
    var i := |s| - |t|;
    assert r == s[i..i + |r|] by {
      assert r == t[..|r|];
    }
    forall k | i + |r| <= k < |s|
      ensures space(s[k])
    {
      assert s[k] == t[k - i];
    }
  }

  /** A string that neither starts nor ends with `space` is left as it is by Trim. */
  lemma TrimTrimmed(s: string, space: char -> bool)
    requires s == [] || (!space(s[0]) && !space(s[|s| - 1]))
    ensures Trim(s, space) == s
  {
    assert TrimStart(s, space) == s;
    assert TrimEnd(s, space) == s;
  }

  /** Trimming twice is trimming once. */
  lemma TrimIdempotent(s: string, space: char -> bool)
    ensures Trim(Trim(s, space), space) == Trim(s, space)
  {
    TrimTrimmed(Trim(s, space), space);
  }

  /** Trimming a lower-cased string leaves it lower case. */
  lemma TrimmedLowerIsLower(s: string, space: char -> bool)
    ensures Lower(Trim(Lower(s), space)) == Trim(Lower(s), space)
  {
    var lowered := Lower(s);
    LowerIsLower(s);
    var t := TrimStart(lowered, space);
    TrimStartKeepsLower(lowered, space);
    TrimEndKeepsLower(t, space);
    assert Trim(lowered, space) == TrimEnd(t, space);
    LowerOfLower(TrimEnd(t, space));
  }

  lemma TrimStartKeepsLower(s: string, space: char -> bool)
    requires IsLower(s)
    ensures IsLower(TrimStart(s, space))
  {
    var r := TrimStart(s, space);
    SliceKeepsLower(s, |s| - |r|, |s|);
    assert r == s[|s| - |r|..|s|];
  }

  lemma TrimEndKeepsLower(s: string, space: char -> bool)
    requires IsLower(s)
    ensures IsLower(TrimEnd(s, space))
  {
    var r := TrimEnd(s, space);
    SliceKeepsLower(s, 0, |r|);
  }

  /** A slice of a lower-case string is lower case. */
  lemma SliceKeepsLower(s: string, i: nat, j: nat)
    requires IsLower(s) && i <= j <= |s|
    ensures IsLower(s[i..j])
  {
    var r := s[i..j];
    forall k | 0 <= k < |r|
      ensures LowerChar(r[k]) == r[k]
    {
      assert r[k] == s[i + k];
    }
  }

  /**
   * Byte-wise lexicographic order, strcmp(a, b) <= 0. On UTF-8 text the
   * order of code points and the order of their encodings agree.
   */
  predicate LexLe(a: string, b: string)
    decreases |a|
  {
    a == [] || (b != [] && (a[0] < b[0] || (a[0] == b[0] && LexLe(a[1..], b[1..]))))
  }

  lemma {:induction false} LexLeTotal(a: string, b: string)
    ensures LexLe(a, b) || LexLe(b, a)
    decreases |a|
  {
    if a != [] && b != [] && a[0] == b[0] {
      LexLeTotal(a[1..], b[1..]);
    }
  }

  lemma {:induction false} LexLeTransitive(a: string, b: string, c: string)
    requires LexLe(a, b) && LexLe(b, c)
    ensures LexLe(a, c)
    decreases |a|
  {
    if a != [] && b != [] && c != [] && a[0] == b[0] && b[0] == c[0] {
      LexLeTransitive(a[1..], b[1..], c[1..]);
    }
  }

  /** strcmp returns 0 only on equal strings. */
  lemma {:induction false} LexLeAntisymmetric(a: string, b: string)
    requires LexLe(a, b) && LexLe(b, a)
    ensures a == b
    decreases |a|
  {
    if a != [] {
      LexLeAntisymmetric(a[1..], b[1..]);
      assert a == [a[0]] + a[1..] && b == [b[0]] + b[1..];
    }
  }

  /** Length of the run of decimal digits at the front of `s`. */
  function DigitRun(s: string): (n: nat)
    ensures n <= |s|
    ensures forall i :: 0 <= i < n ==> IsDigit(s[i])
    ensures n < |s| ==> !IsDigit(s[n])
  {
    if s != [] && IsDigit(s[0]) then 1 + DigitRun(s[1..]) else 0
  }

  predicate AllDigits(ds: string) {
    forall i :: 0 <= i < |ds| ==> IsDigit(ds[i])
  }

  lemma RunOfDigits(s: string)
    ensures AllDigits(s[..DigitRun(s)])
  {
    var n := DigitRun(s);
    forall i | 0 <= i < n
      ensures IsDigit(s[..n][i])
    {
      assert s[..n][i] == s[i];
    }
  }

  /** The natural number a string of decimal digits denotes. */
  function DigitsValue(ds: string): nat
    requires AllDigits(ds)
  {
    if ds == [] then 0 else 10 * DigitsValue(ds[..|ds| - 1]) + (ds[|ds| - 1] as int - '0' as int)
  }

  function Pow10(n: nat): (p: nat)
    ensures p >= 1
  {
    if n == 0 then 1 else 10 * Pow10(n - 1)
  }

  /** The parts of a decimal number found at the front of a string, and what follows it. */
  datatype DecimalScan = DecimalScan(negative: bool, whole: string, fraction: string, rest: string)
  {
    predicate HasDigits() {
      whole != [] || fraction != []
    }
    predicate WellFormed() {
      AllDigits(whole) && AllDigits(fraction)
    }
    /** The value of the scanned digits: sign, whole part and decimal fraction. */
    function Value(): real
      requires WellFormed()
    {
      var magnitude := DigitsValue(whole) as real + DigitsValue(fraction) as real / Pow10(|fraction|) as real;
      if negative then -magnitude else magnitude
    }
  }

  /**
   * Scans an optional sign, a run of digits, and an optional '.' followed by
   * a run of digits, from the front of `s`.
   */
  function ScanDecimal(s: string): (d: DecimalScan)
    ensures d.WellFormed()
    ensures |d.rest| <= |s|
  {
    var negative := s != [] && s[0] == '-';
    var unsigned := if s != [] && (s[0] == '-' || s[0] == '+') then s[1..] else s;
    var w := DigitRun(unsigned);
    RunOfDigits(unsigned);
    var afterWhole := unsigned[w..];
    if afterWhole != [] && afterWhole[0] == '.' then
      var tail := afterWhole[1..];
      var f := DigitRun(tail);
      RunOfDigits(tail);
      DecimalScan(negative, unsigned[..w], tail[..f], tail[f..])
    else
      DecimalScan(negative, unsigned[..w], "", afterWhole)
  }

  /** The decimal number at the front of `s` (no leading whitespace), or None when no digit is found. */
  function DecimalPrefix(s: string): Option<real>
  {
    var d := ScanDecimal(s);
    if d.HasDigits() then Some(d.Value()) else None
  }

  /** Text that starts with anything but a digit, a sign or a '.' holds no number. */
  lemma NoNumberWithoutDigit(s: string)
    requires s == [] || !(IsDigit(s[0]) || s[0] == '.' || s[0] == '-' || s[0] == '+')
    ensures DecimalPrefix(s) == None
  {
    assert DigitRun(s) == 0;
  }

  /** Text that starts with a digit holds a non-negative number. */
  lemma DigitStartsNumber(s: string)
    requires s != [] && IsDigit(s[0])
    ensures DecimalPrefix(s).Some? && DecimalPrefix(s).value >= 0.0
  {
    assert DigitRun(s) >= 1;
    var d := ScanDecimal(s);
    assert !d.negative && d.whole != [];
    UnsignedValue(d);
  }

  /** Without a minus sign the scanned value is not negative. */
  lemma UnsignedValue(d: DecimalScan)
    requires d.WellFormed() && !d.negative
    ensures d.Value() >= 0.0
  {
    var x := DigitsValue(d.fraction) as real;
    var y := Pow10(|d.fraction|) as real;
    assert x >= 0.0 && y >= 1.0;
    assert x / y >= 0.0;
  }
}

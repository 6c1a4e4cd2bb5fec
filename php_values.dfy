/**
 * The few pieces of PHP value semantics that the relationship-creation path depends on:
 * loose comparison with null, truthiness of a nullable string, string conversion of null,
 * and the decimal rendering of an integer id when it is concatenated into a path.
 */
module PhpValues {
  import opened Wrappers

  /**
   * `$v == null` under loose comparison: a string compared with null is compared with "",
   * so the empty string counts as null too, whereas `isset` counts only null.
   */
  function LooselyNull(v: Option<string>): (b: bool)
    ensures b <==> !IsSet(v) || |v.value| == 0
    ensures IsSet(v) && v.value != "" ==> !b
  {
    v == None || v == Some("")
  }

  /** `isset($v)`: true for every value except null. */
  predicate IsSet<T>(v: Option<T>) {
    v.Some?
  }

  /** `!$v` for a nullable string: null, "" and "0" are falsy. */
  function Falsy(v: Option<string>): (b: bool)
    ensures LooselyNull(v) ==> b
    ensures b <==> LooselyNull(v) || v.value == "0"
  {
    v == None || v == Some("") || v == Some("0")
  }

  /** Concatenating a nullable string: null contributes the empty string. */
  function Text(v: Option<string>): string {
    if v.Some? then v.value else ""
  }

  predicate IsDigit(c: char) {
    '0' <= c <= '9'
  }

  predicate AllDigits(s: string) {
    forall i :: 0 <= i < |s| ==> IsDigit(s[i])
  }

  function DigitChar(d: nat): (c: char)
    requires d < 10
    ensures IsDigit(c)
  {
    ('0' as int + d) as char
  }

  function DigitValue(c: char): (d: nat)
    requires IsDigit(c)
    ensures d < 10 && DigitChar(d) == c
  {
    c as int - '0' as int
  }

  /** The string PHP produces for a non-negative integer: decimal, no leading zeros. */
  function DecimalString(n: nat): (s: string)
    ensures |s| > 0 && AllDigits(s)
    ensures s[0] == '0' ==> n == 0 && s == "0"
  {
    if n < 10 then [DigitChar(n)] else DecimalString(n / 10) + [DigitChar(n % 10)]
  }

  /** Reads a string of decimal digits back as a number. */
  function ParseDecimal(s: string): nat
    requires AllDigits(s)
  {
    if |s| == 0 then 0 else 10 * ParseDecimal(s[..|s| - 1]) + DigitValue(s[|s| - 1])
  }

  lemma {:induction false} ParseDecimalString(n: nat)
    ensures ParseDecimal(DecimalString(n)) == n
  {
    var s := DecimalString(n);
    if n >= 10 {
      ParseDecimalString(n / 10);
      assert s[..|s| - 1] == DecimalString(n / 10);
    }
  }

  /** Distinct ids render as distinct strings. */
  lemma DecimalStringInjective(m: nat, n: nat)
    ensures DecimalString(m) == DecimalString(n) ==> m == n
  {
    ParseDecimalString(m);
    ParseDecimalString(n);
  }

  /** A digit string that does not start with '0' reads as a positive number. */
  lemma {:induction false} ParsePositive(s: string)
    requires |s| > 0 && AllDigits(s) && s[0] != '0'
    ensures ParseDecimal(s) > 0
  {
    if |s| > 1 {
      ParsePositive(s[..|s| - 1]);
    }
  }

  /**
   * A digit string without a leading zero is the rendering of the number it reads as, so
   * rendering and reading are inverse on such strings.
   */
  lemma {:induction false} DecimalStringOfParse(s: string)
    requires |s| > 0 && AllDigits(s) && (s[0] == '0' ==> |s| == 1)
    ensures DecimalString(ParseDecimal(s)) == s
  {
    var n := ParseDecimal(s);
    if |s| == 1 {
      assert s == [s[0]];
    } else {
      var prefix := s[..|s| - 1];
      ParsePositive(prefix);
      DecimalStringOfParse(prefix);
      assert n / 10 == ParseDecimal(prefix) && n % 10 == DigitValue(s[|s| - 1]);
      assert s == prefix + [s[|s| - 1]];
    }
  }

  /** Concatenating a nullable id: null contributes the empty string. */
  function IdText(id: Option<nat>): string {
    if id.Some? then DecimalString(id.value) else ""
  }
}

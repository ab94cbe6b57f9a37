/**
 * PHP's scalar conversions that the client and the entity model rely on: the decimal
 * string of an integer (used by `implode`, by string interpolation and for integer
 * array keys), the canonical integer-key strings, string truthiness and `implode`.
 * Integers are unbounded here; PHP's 64-bit integer range is not modelled.
 */
module PhpScalars {

  predicate IsDigit(c: char) {
    '0' <= c <= '9'
  }

  predicate AllDigits(s: string) {
    forall i :: 0 <= i < |s| ==> IsDigit(s[i])
  }

  function DigitChar(d: nat): (c: char)
    requires d < 10
    ensures IsDigit(c) && c as int - '0' as int == d
  {
    ('0' as int + d) as char
  }

  /** The decimal digits of a natural number, most significant first. */
  function Digits(n: nat): string
    decreases n
  {
    if n < 10 then [DigitChar(n)] else Digits(n / 10) + [DigitChar(n % 10)]
  }

  /** PHP's `(string) $n` for an integer `$n`. */
  function Decimal(n: int): string {
    if n < 0 then "-" + Digits(-n) else Digits(n)
  }

  /** A non-empty digit string without a superfluous leading zero. */
  predicate CanonicalDigits(s: string) {
    |s| > 0 && AllDigits(s) && (s[0] == '0' ==> |s| == 1)
  }

  /**
   * A key that PHP stores as an integer key: the canonical decimal form of an integer.
   * ("5" and 5 are the same key of a PHP array; "05", "-0" and "+5" are string keys.)
   */
  predicate IsIntegerKey(s: string) {
    CanonicalDigits(s) || (|s| >= 2 && s[0] == '-' && s[1] != '0' && CanonicalDigits(s[1..]))
  }

  function DigitsValue(s: string): nat
    requires AllDigits(s)
    decreases |s|
  {
    if s == [] then 0 else DigitsValue(s[..|s| - 1]) * 10 + (s[|s| - 1] as int - '0' as int)
  }

  /** The integer that an integer key stands for. */
  function IntegerValue(s: string): int
    requires IsIntegerKey(s)
  {
    if s[0] == '-' then -(DigitsValue(s[1..]) as int) else DigitsValue(s)
  }

  lemma {:induction false} DigitsCanonical(n: nat)
    ensures CanonicalDigits(Digits(n))
    ensures n > 0 ==> Digits(n)[0] != '0'
    ensures DigitsValue(Digits(n)) == n
    decreases n
  {
    if n >= 10 {
      DigitsCanonical(n / 10);
      var p := Digits(n / 10);
      var s := p + [DigitChar(n % 10)];
      assert s[..|s| - 1] == p;
      assert s[0] == p[0];
    }
  }

  /** Every integer's decimal string is an integer key that reads back as the integer. */
  lemma DecimalRoundTrip(n: int)
    ensures IsIntegerKey(Decimal(n))
    ensures IntegerValue(Decimal(n)) == n
  {
    if n < 0 {
      DigitsCanonical(-n);
      assert Decimal(n)[1..] == Digits(-n);
    } else {
      DigitsCanonical(n);
    }
  }

  lemma {:induction false} LeadingDigitPositive(s: string)
    requires CanonicalDigits(s) && s[0] != '0'
    ensures DigitsValue(s) >= 1
    ensures |s| > 1 ==> DigitsValue(s) >= 10
    decreases |s|
  {
    if |s| > 1 {
      var p := s[..|s| - 1];
      assert p[0] == s[0];
      LeadingDigitPositive(p);
    }
  }

  lemma {:induction false} DigitsOfValue(s: string)
    requires CanonicalDigits(s)
    ensures Digits(DigitsValue(s)) == s
    decreases |s|
  {
    if |s| > 1 {
      var p := s[..|s| - 1];
      assert p[0] == s[0];
      LeadingDigitPositive(p);
      DigitsOfValue(p);
      var v := DigitsValue(s);
      var d := s[|s| - 1] as int - '0' as int;
      assert v == DigitsValue(p) * 10 + d;
      assert v / 10 == DigitsValue(p) && v % 10 == d;
      assert DigitChar(d) == s[|s| - 1];
      assert s == p + [s[|s| - 1]];
    }
  }

  /** Every integer key is the decimal string of the integer it stands for. */
  lemma IntegerKeyRoundTrip(s: string)
    requires IsIntegerKey(s)
    ensures Decimal(IntegerValue(s)) == s
  {
    if s[0] == '-' {
      var t := s[1..];
      LeadingDigitPositive(t);
      DigitsOfValue(t);
      assert s == "-" + t;
    } else {
      DigitsOfValue(s);
    }
  }

  /** PHP's truthiness of a string: only "" and "0" are falsy. */
  predicate TruthyString(s: string) {
    s != "" && s != "0"
  }

  /** PHP's `implode(glue, parts)`. */
  function Implode(glue: string, parts: seq<string>): string {
    if |parts| == 0 then ""
    else if |parts| == 1 then parts[0]
    else parts[0] + glue + Implode(glue, parts[1..])
  }
}

/**
 * The parts of Go's `strconv` package that the backend relies on: `Atoi`
 * for query parameters and integer settings, `ParseBool` for boolean
 * settings, and decimal formatting (`%d`) of a 64-bit integer.
 */
module Strconv {
  import opened Base

  /** The range of Go's 64-bit `int`. */
  const MinInt64: int := -0x8000_0000_0000_0000
  const MaxInt64: int := 0x7FFF_FFFF_FFFF_FFFF

  predicate IsDigit(c: char) {
    '0' <= c <= '9'
  }

  predicate AllDigits(s: string) {
    forall i :: 0 <= i < |s| ==> IsDigit(s[i])
  }

  function DigitValue(c: char): (d: nat)
    requires IsDigit(c)
    ensures d < 10
  {
    c as int - '0' as int
  }

  function DigitChar(d: nat): (c: char)
    requires d < 10
    ensures IsDigit(c) && DigitValue(c) == d
  {
    ('0' as int + d) as char
  }

  /** The value of a string of decimal digits, most significant first. */
  function DecimalValue(s: string): nat
    requires AllDigits(s)
  {
    if s == [] then 0 else DecimalValue(s[..|s| - 1]) * 10 + DigitValue(s[|s| - 1])
  }

  /** Optional sign, then one or more decimal digits: the syntax `Atoi` accepts. */
  predicate IsDecimalSyntax(s: string) {
    if |s| > 0 && (s[0] == '-' || s[0] == '+') then |s| > 1 && AllDigits(s[1..])
    else |s| > 0 && AllDigits(s)
  }

  /** The signed value of a string in `IsDecimalSyntax`. */
  function SignedValue(s: string): int
    requires IsDecimalSyntax(s)
  {
    if s[0] == '-' then -(DecimalValue(s[1..]) as int)
    else if s[0] == '+' then DecimalValue(s[1..])
    else DecimalValue(s)
  }

  /**
   * `strconv.Atoi`: a syntax error for anything but an optional sign and
   * decimal digits, a range error outside the 64-bit range.
   */
  function Atoi(s: string): (r: Result<int>)
    ensures r.Ok? <==> IsDecimalSyntax(s) && MinInt64 <= SignedValue(s) <= MaxInt64
    ensures r.Ok? ==> r.value == SignedValue(s)
  {
    if !IsDecimalSyntax(s) then Err("strconv.Atoi: parsing " + s + ": invalid syntax")
    else if SignedValue(s) < MinInt64 || MaxInt64 < SignedValue(s) then Err("strconv.Atoi: parsing " + s + ": value out of range")
    else Ok(SignedValue(s))
  }

  /** `strconv.ParseBool`: the six spellings of true and of false. */
  function ParseBool(s: string): (r: Result<bool>)
    ensures r == Ok(true) <==> s in {"1", "t", "T", "TRUE", "true", "True"}
    ensures r == Ok(false) <==> s in {"0", "f", "F", "FALSE", "false", "False"}
  {
    if s in {"1", "t", "T", "TRUE", "true", "True"} then Ok(true)
    else if s in {"0", "f", "F", "FALSE", "false", "False"} then Ok(false)
    else Err("strconv.ParseBool: parsing " + s + ": invalid syntax")
  }

  /** The decimal digits of a natural number, without leading zeros. */
  function Digits(n: nat): (s: string)
    ensures |s| > 0 && AllDigits(s)
    ensures s[0] == '0' <==> n == 0
    ensures |s| == 1 <==> n < 10
    decreases n
  {
    if n < 10 then [DigitChar(n)] else Digits(n / 10) + [DigitChar(n % 10)]
  }

  /** Decimal formatting of an integer, as `fmt`'s `%d` and `strconv.Itoa` do. */
  function Itoa(n: int): (s: string)
    ensures IsDecimalSyntax(s) && SignedValue(s) == n
    ensures s[0] == '-' <==> n < 0
  {
    if n < 0 then
      DigitsValue(-n);
      var s := "-" + Digits(-n);
      assert s[1..] == Digits(-n);
      s
    else
      DigitsValue(n);
      Digits(n)
  }

  lemma {:induction false} DigitsValue(n: nat)
    ensures DecimalValue(Digits(n)) == n
    decreases n
  {
    if n >= 10 {
      DigitsValue(n / 10);
      var s := Digits(n);
      assert s[..|s| - 1] == Digits(n / 10);
    }
  }

  /** Formatting a 64-bit integer and parsing it back with `Atoi` gives the integer. */
  lemma ItoaAtoiRoundTrip(n: int)
    requires MinInt64 <= n <= MaxInt64
    ensures Atoi(Itoa(n)) == Ok(n)
  {
    var s := Itoa(n);
    if n < 0 {
      DigitsValue(-n);
      assert s[1..] == Digits(-n);
      assert s[0] == '-';
    } else {
      DigitsValue(n);
      assert IsDigit(s[0]);
    }
  }
}

/**
 * The two integer conversions the scalers rely on: Go's `strconv.Atoi` on a
 * 64-bit platform (decimal text to `int`), and the conversion `int32(x)`,
 * which keeps the low 32 bits in two's complement.
 */
module Strconv {
  import opened Wrappers

  const MinInt64: int := -0x8000_0000_0000_0000
  const MaxInt64: int := 0x7FFF_FFFF_FFFF_FFFF
  const MaxUint64: int := 0xFFFF_FFFF_FFFF_FFFF
  const MinInt32: int := -0x8000_0000
  const MaxInt32: int := 0x7FFF_FFFF
  const TwoTo32: int := 0x1_0000_0000

  /** Go's `int` (64 bits) and `int64`. */
  type Int64 = x: int | MinInt64 <= x <= MaxInt64

  /** Go's `int32`. */
  type Int32 = x: int | MinInt32 <= x <= MaxInt32

  /** The two errors `strconv.Atoi` reports: `strconv.ErrSyntax` and `strconv.ErrRange`. */
  datatype NumErrorKind = InvalidSyntax | OutOfRange

  predicate IsDigit(c: char) {
    '0' <= c <= '9'
  }

  predicate AllDigits(s: string) {
    forall i :: 0 <= i < |s| ==> IsDigit(s[i])
  }

  function DigitValue(c: char): (d: nat)
    requires IsDigit(c)
    ensures d < 10
  {
    (c as int) - ('0' as int)
  }

  function DigitChar(d: nat): (c: char)
    requires d < 10
    ensures IsDigit(c) && DigitValue(c) == d
  {
    (('0' as int) + d) as char
  }

  /** The value of a run of decimal digits, most significant digit first. */
  function DigitsValue(s: string): nat
    requires AllDigits(s)
  {
    if s == [] then 0 else DigitsValue(s[..|s| - 1]) * 10 + DigitValue(s[|s| - 1])
  }

  /** The longest prefix of `s` made of decimal digits. */
  function LeadingDigits(s: string): (r: string)
    ensures |r| <= |s| && r == s[..|r|]
    ensures AllDigits(r)
    ensures |r| < |s| ==> !IsDigit(s[|r|])
    ensures AllDigits(s) ==> r == s
  {
    if s == [] || !IsDigit(s[0]) then [] else [s[0]] + LeadingDigits(s[1..])
  }

  /** `s` without its optional leading sign. */
  function Unsigned(s: string): string {
    if |s| > 0 && (s[0] == '+' || s[0] == '-') then s[1..] else s
  }

  predicate IsNegative(s: string) {
    |s| > 0 && s[0] == '-'
  }

  /** The mathematical value of a well-formed decimal text, with no range limit. */
  function SignedValue(s: string): int
    requires AllDigits(Unsigned(s))
  {
    var magnitude: int := DigitsValue(Unsigned(s));
    if IsNegative(s) then -magnitude else magnitude
  }

  /**
   * `strconv.Atoi(s)`. The text is an optional '+' or '-' followed by at least one
   * decimal digit; its value must fit in 64 bits. For texts shorter than 19 bytes
   * Go takes a fast path with the same outcome. On the general path the digits are
   * scanned left to right and the scan stops with a range error as soon as the digits
   * read so far exceed the largest `uint64`, so such an overflow is reported even
   * when a non-digit follows.
   */
  function Atoi(s: string): (r: Result<Int64, NumErrorKind>)
    ensures r.Success? <==>
              Unsigned(s) != [] && AllDigits(Unsigned(s)) && MinInt64 <= SignedValue(s) <= MaxInt64
    ensures r.Success? ==> r.value == SignedValue(s)
    ensures Unsigned(s) == [] ==> r == Failure(InvalidSyntax)
  {
    var body := Unsigned(s);
    var run := LeadingDigits(body);
    if body == [] then Failure(InvalidSyntax)
    else if DigitsValue(run) > MaxUint64 then Failure(OutOfRange)
    else if run != body then Failure(InvalidSyntax)
    else
      var v := SignedValue(s);
      if MinInt64 <= v <= MaxInt64 then Success(v) else Failure(OutOfRange)
  }

  /** Decimal digits of `n`, without leading zeros (`strconv.Itoa` for non-negative values). */
  function Digits(n: nat): string
  {
    if n < 10 then [DigitChar(n)] else Digits(n / 10) + [DigitChar(n % 10)]
  }

  /** `strconv.FormatInt(v, 10)`: the canonical text of `v`. */
  function FormatInt(v: Int64): string
  {
    if v < 0 then "-" + Digits(-(v as int)) else Digits(v)
  }

  lemma {:induction false} DigitsValueOfDigits(n: nat)
    ensures |Digits(n)| > 0 && AllDigits(Digits(n))
    ensures DigitsValue(Digits(n)) == n
  {
    if n >= 10 {
      DigitsValueOfDigits(n / 10);
      var s := Digits(n);
      assert s[..|s| - 1] == Digits(n / 10);
      assert AllDigits(s) by {
        forall i | 0 <= i < |s| ensures IsDigit(s[i]) {
          if i < |s| - 1 {
            assert s[i] == Digits(n / 10)[i];
          }
        }
      }
    }
  }

  /** Every 64-bit integer survives a round trip through its decimal text. */
  lemma AtoiFormatInt(v: Int64)
    ensures Atoi(FormatInt(v)) == Success(v)
  {
    var s := FormatInt(v);
    var n: nat := if v < 0 then -(v as int) else v;
    DigitsValueOfDigits(n);
    var digits := Digits(n);
    assert IsDigit(digits[0]);
    if v < 0 {
      assert s == "-" + digits;
      assert Unsigned(s) == digits;
      assert SignedValue(s) == v;
    } else {
      assert s == digits;
      assert Unsigned(s) == digits;
      assert SignedValue(s) == v;
    }
  }

  /** `int32(x)` in Go: the low 32 bits of `x`, read as a two's-complement number. */
  function ToInt32(x: int): (r: Int32)
    ensures (x - r) % TwoTo32 == 0
    ensures MinInt32 <= x <= MaxInt32 ==> r == x
  {
    var low := x % TwoTo32;
    if low > MaxInt32 then low - TwoTo32 else low
  }
}

/** strings.go: the two conversions the agent applies to environment variables.

    `stringToInt` defers to `strconv.Atoi`, which on a 64-bit target behaves as
    `strconv.ParseInt(s, 10, 64)`: an optional sign, then decimal digits scanned left to right
    with an overflow check against 2^64 - 1, then a check against the int64 range. */
module Strings {
  import opened Wrappers

  const MinInt64: int := -0x8000_0000_0000_0000
  const MaxInt64: int := 0x7FFF_FFFF_FFFF_FFFF
  const MaxUint64: int := 0xFFFF_FFFF_FFFF_FFFF
  /** The bound past which one more digit would overflow a uint64 (strconv's `cutoff`). */
  const Cutoff: int := MaxUint64 / 10 + 1

  /** strconv's two error kinds: `ErrSyntax` and `ErrRange`. */
  datatype NumError = ErrSyntax | ErrRange

  /** `stringToBool`: only the exact, lower-case string "true" is true. */
  function StringToBool(s: string): (b: bool)
    ensures b <==> s == "true"
  {
    s == "true"
  }

  // ---------------------------------------------------------------------------
  // The reference reading of a decimal numeral.

  predicate IsDigit(c: char) { '0' <= c <= '9' }

  function DigitValue(c: char): nat
    requires IsDigit(c)
  {
    c as int - '0' as int
  }

  predicate AllDigits(s: string) {
    forall i :: 0 <= i < |s| ==> IsDigit(s[i])
  }

  /** The number a string of decimal digits denotes. */
  function DigitsValue(s: string): nat
    requires AllDigits(s)
  {
    if |s| == 0 then 0 else DigitsValue(s[..|s| - 1]) * 10 + DigitValue(s[|s| - 1])
  }

  predicate HasSign(s: string) {
    |s| > 0 && (s[0] == '+' || s[0] == '-')
  }

  /** The digits after an optional sign. */
  function Magnitude(s: string): string {
    if HasSign(s) then s[1..] else s
  }

  /** An optional `+` or `-` followed by at least one decimal digit. */
  predicate IsNumeral(s: string) {
    |Magnitude(s)| > 0 && AllDigits(Magnitude(s))
  }

  function NumeralValue(s: string): int
    requires IsNumeral(s)
  {
    var v: int := DigitsValue(Magnitude(s));
    if s[0] == '-' then -v else v
  }

  // ---------------------------------------------------------------------------
  // strconv as it computes.

  /** The digit loop of `strconv.ParseUint(s, 10, 64)` from position `i` with accumulator `n`. */
  function ScanDigits(s: string, i: nat, n: nat): Result<nat, NumError>
    requires i <= |s|
    decreases |s| - i
  {
    if i == |s| then Success(n)
    else if !IsDigit(s[i]) then Failure(ErrSyntax)
    else if n >= Cutoff then Failure(ErrRange)
    else
      var n1 := n * 10 + DigitValue(s[i]);
      if n1 > MaxUint64 then Failure(ErrRange) else ScanDigits(s, i + 1, n1)
  }

  /** `strconv.ParseUint(s, 10, 64)`. */
  function ParseUint(s: string): (r: Result<nat, NumError>)
    ensures r.Success? <==> |s| > 0 && AllDigits(s) && DigitsValue(s) <= MaxUint64
    ensures r.Success? ==> r.value == DigitsValue(s)
    ensures r.Failure? && |s| > 0 && AllDigits(s) ==> r.error == ErrRange
  {
    if |s| == 0 then Failure(ErrSyntax)
    else
      assert s[..0] == [];
      ScanCorrect(s, 0, 0);
      ScanDigits(s, 0, 0)
  }

  /** `strconv.Atoi` on a 64-bit target, i.e. `strconv.ParseInt(s, 10, 64)`. */
  function Atoi(s: string): Result<int, NumError> {
    if |s| == 0 then Failure(ErrSyntax)
    else
      var neg := s[0] == '-';
      var digits := if s[0] == '+' || s[0] == '-' then s[1..] else s;
      match ParseUint(digits)
      case Failure(e) => Failure(if e == ErrRange then ErrRange else ErrSyntax)
      case Success(un) =>
        if !neg && un >= 0x8000_0000_0000_0000 then Failure(ErrRange)
        else if neg && un > 0x8000_0000_0000_0000 then Failure(ErrRange)
        else
          var v: int := un;
          Success(if neg then -v else v)
  }

  /** `stringToInt`: a value exactly when `s` is a numeral within the int64 range; the
      `(*int, error)` pair of the source is a Result, so exactly one side is present. */
  function StringToInt(s: string): (r: Result<int, NumError>)
    ensures r.Success? <==> IsNumeral(s) && MinInt64 <= NumeralValue(s) <= MaxInt64
    ensures r.Success? ==> r.value == NumeralValue(s)
    ensures r.Failure? && IsNumeral(s) ==> r.error == ErrRange
  {
    Atoi(s)
  }

  // ---------------------------------------------------------------------------
  // Proofs.

  lemma {:induction false} DigitsPrefix(s: string, j: nat)
    requires AllDigits(s) && j <= |s|
    ensures AllDigits(s[..j]) && DigitsValue(s[..j]) <= DigitsValue(s)
  {
    if j < |s| {
      var s' := s[..|s| - 1];
      assert s'[..j] == s[..j];
      DigitsPrefix(s', j);
    } else {
      assert s[..j] == s;
    }
  }

  lemma {:induction false} ScanCorrect(s: string, i: nat, n: nat)
    requires i <= |s| && AllDigits(s[..i]) && n == DigitsValue(s[..i]) && n <= MaxUint64
    ensures ScanDigits(s, i, n).Success? <==> AllDigits(s) && DigitsValue(s) <= MaxUint64
    ensures ScanDigits(s, i, n).Success? ==> ScanDigits(s, i, n).value == DigitsValue(s)
    ensures ScanDigits(s, i, n).Failure? && AllDigits(s) ==> ScanDigits(s, i, n).error == ErrRange
    decreases |s| - i
  {
    if i == |s| {
      assert s[..i] == s;
    } else if !IsDigit(s[i]) {
    } else {
      var t := s[..i + 1];
      assert t[..i] == s[..i];
      assert AllDigits(t);
      assert DigitsValue(t) == n * 10 + DigitValue(s[i]);
      if n >= Cutoff || n * 10 + DigitValue(s[i]) > MaxUint64 {
        if AllDigits(s) {
          DigitsPrefix(s, i + 1);
        }
      } else {
        ScanCorrect(s, i + 1, n * 10 + DigitValue(s[i]));
      }
    }
  }

  // ---------------------------------------------------------------------------
  // The inverse: decimal formatting, as `strconv.Itoa` writes it.

  function DigitChar(d: nat): char
    requires d < 10
  {
    ('0' as int + d) as char
  }

  function NatToDecimal(n: nat): string
    decreases n
  {
    if n < 10 then [DigitChar(n)] else NatToDecimal(n / 10) + [DigitChar(n % 10)]
  }

  function Itoa(i: int): string {
    if i < 0 then "-" + NatToDecimal(-i) else NatToDecimal(i)
  }

  lemma {:induction false} NatToDecimalDigits(n: nat)
    ensures |NatToDecimal(n)| > 0 && AllDigits(NatToDecimal(n))
    ensures DigitsValue(NatToDecimal(n)) == n
    decreases n
  {
    if n >= 10 {
      NatToDecimalDigits(n / 10);
      var s := NatToDecimal(n);
      assert s[..|s| - 1] == NatToDecimal(n / 10);
    }
  }

  /** Every int64 survives formatting and `stringToInt` unchanged. */
  lemma ItoaRoundTrip(i: int)
    requires MinInt64 <= i <= MaxInt64
    ensures StringToInt(Itoa(i)) == Success(i)
  {
    var d := NatToDecimal(if i < 0 then -i else i);
    NatToDecimalDigits(if i < 0 then -i else i);
    if i < 0 {
      assert Magnitude(Itoa(i)) == d;
    } else {
      assert !HasSign(d) by { assert IsDigit(d[0]); }
    }
  }

  /** strings_test.go: "12" gives 12, "bla" gives an error. */
  lemma StringToIntExamples()
    ensures StringToInt("12") == Success(12) && StringToInt("120") == Success(120)
    ensures StringToInt("bla") == Failure(ErrSyntax)
    ensures StringToInt("+7") == Success(7) && StringToInt("-7") == Success(-7)
    ensures StringToInt("").Failure? && StringToInt("-").Failure? && StringToInt("1_0").Failure?
  {
    assert Magnitude("12") == "12" && Magnitude("120") == "120";
    assert !IsDigit("bla"[0]);
    assert Magnitude("+7") == "7" && Magnitude("-7") == "7";
    assert !IsDigit("1_0"[1]);
  }
}

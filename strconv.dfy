/** The two conversions of Go's `strconv` package the program uses:
    `Itoa` (decimal rendering) and `Atoi` (decimal parsing on a 64-bit
    platform). */
module Strconv {
  import opened Wrappers

  const MaxInt64: int := 0x7fff_ffff_ffff_ffff
  const MinInt64: int := -0x8000_0000_0000_0000

  predicate IsDigit(c: char) {
    '0' <= c <= '9'
  }

  predicate AllDigits(s: string) {
    forall i :: 0 <= i < |s| ==> IsDigit(s[i])
  }

  function DigitChar(d: nat): (c: char)
    requires d < 10
    ensures IsDigit(c)
  {
    ('0' as int + d) as char
  }

  /** Decimal digits of a natural number, most significant first, without
      leading zeros. */
  function Decimal(n: nat): (r: string)
    ensures 1 <= |r|
    ensures AllDigits(r)
    ensures r[0] == '0' ==> n == 0 && r == "0"
    decreases n
  {
    if n < 10 then [DigitChar(n)] else Decimal(n / 10) + [DigitChar(n % 10)]
  }

  /** `strconv.Itoa`: a minus sign for negative numbers, then the digits. */
  function Itoa(n: int): (r: string)
    ensures r != [] && (r[0] == '-' <==> n < 0)
    ensures AllDigits(if n < 0 then r[1..] else r)
  {
    if n < 0 then "-" + Decimal(-n) else Decimal(n)
  }

  /** The value of a string of decimal digits, read from the right. */
  function DigitsValue(s: string): nat
    requires AllDigits(s)
  {
    if s == [] then 0
    else DigitsValue(s[..|s| - 1]) * 10 + (s[|s| - 1] as int - '0' as int)
  }

  /** The syntax `strconv.ParseInt(s, 10, 64)` accepts, without its range
      limit: an optional sign followed by at least one decimal digit (base
      10 admits no underscores). */
  function ParseDecimal(s: string): (r: Option<int>)
  {
    if |s| > 0 && (s[0] == '+' || s[0] == '-') then
      var digits := s[1..];
      if |digits| > 0 && AllDigits(digits) then
        var v: int := DigitsValue(digits);
        Some(if s[0] == '-' then -v else v)
      else None
    else if |s| > 0 && AllDigits(s) then Some(DigitsValue(s))
    else None
  }

  /** The largest value `strconv.ParseUint` accepts with bit size 64. */
  const MaxUint64: int := 0xffff_ffff_ffff_ffff

  /** The outcome of `strconv.ParseUint(s, 10, 64)`: a syntax error, a
      range error (whose value is MaxUint64), or the parsed value. */
  datatype UintScan = SyntaxError | RangeError | Parsed(value: nat)

  /** ParseUint's loop from accumulated value `n` over the rest `s`. Each
      character is first checked to be a digit; then, before the value is
      multiplied, it is compared with the cutoff MaxUint64 / 10 + 1. So an
      overflow is reported at the digit that causes it, before any later
      character is looked at. */
  function ScanUint(s: string, n: nat): UintScan
    requires n <= MaxUint64
    decreases |s|
  {
    if s == [] then Parsed(n)
    else if !IsDigit(s[0]) then SyntaxError
    else if n >= MaxUint64 / 10 + 1 then RangeError
    else
      var n1 := n * 10 + (s[0] as int - '0' as int);
      if n1 > MaxUint64 then RangeError else ScanUint(s[1..], n1)
  }

  /** `strconv.ParseUint(s, 10, 64)`: the empty string is a syntax error. */
  function ParseUint(s: string): UintScan {
    if s == [] then SyntaxError else ScanUint(s, 0)
  }

  /** The text after an optional leading sign. */
  function Unsigned(s: string): string {
    if |s| > 0 && (s[0] == '+' || s[0] == '-') then s[1..] else s
  }

  /** `strconv.Atoi` (that is, `ParseInt(s, 10, 64)` on a 64-bit platform)
      with its error ignored, as every caller here does: a syntax error
      gives 0; a range error of ParseUint, or a magnitude beyond the int64
      range, gives the bound on the side of the sign. */
  function Atoi(s: string): (r: int)
    ensures MinInt64 <= r <= MaxInt64
  {
    if s == [] then 0
    else
      var neg := s[0] == '-';
      match ParseUint(Unsigned(s))
      case SyntaxError => 0
      case RangeError => if neg then MinInt64 else MaxInt64
      case Parsed(u) =>
        var v: int := u;
        if !neg && v > MaxInt64 then MaxInt64
        else if neg && v > -MinInt64 then MinInt64
        else if neg then -v else v
  }

  /** A value cut to the int64 range. */
  function Clamp64(v: int): int {
    if v > MaxInt64 then MaxInt64 else if v < MinInt64 then MinInt64 else v
  }

  /** The longest prefix of `s` made of decimal digits. */
  function DigitRun(s: string): (r: string)
    ensures AllDigits(r) && r <= s
    ensures |r| < |s| ==> !IsDigit(s[|r|])
  {
    if s == [] || !IsDigit(s[0]) then []
    else
      var t := DigitRun(s[1..]);
      assert forall i :: 1 <= i < |s| ==> s[1..][i - 1] == s[i];
      [s[0]] + t
  }

  /** The value of digits read from the left onto an accumulated `n`, as
      ParseUint reads them, but without any bound. */
  function LeftValue(n: nat, s: string): nat
    requires AllDigits(s)
    decreases |s|
  {
    if s == [] then n else LeftValue(n * 10 + (s[0] as int - '0' as int), s[1..])
  }

  lemma {:induction false} LeftValueGrows(n: nat, s: string)
    requires AllDigits(s)
    ensures LeftValue(n, s) >= n
    decreases |s|
  {
    if s != [] {
      LeftValueGrows(n * 10 + (s[0] as int - '0' as int), s[1..]);
    }
  }

  lemma {:induction false} LeftValueSnoc(n: nat, s: string, c: char)
    requires AllDigits(s) && IsDigit(c)
    ensures LeftValue(n, s + [c]) == LeftValue(n, s) * 10 + (c as int - '0' as int)
    decreases |s|
  {
    if s != [] {
      assert (s + [c])[1..] == s[1..] + [c];
      LeftValueSnoc(n * 10 + (s[0] as int - '0' as int), s[1..], c);
    }
  }

  /** Reading from the left and from the right agree. */
  lemma {:induction false} LeftValueIsDigitsValue(s: string)
    requires AllDigits(s)
    ensures LeftValue(0, s) == DigitsValue(s)
    decreases |s|
  {
    if s != [] {
      var init := s[..|s| - 1];
      LeftValueIsDigitsValue(init);
      assert init + [s[|s| - 1]] == s;
      LeftValueSnoc(0, init, s[|s| - 1]);
    }
  }

  /** ParseUint's loop, by what it meets: a range error exactly when the
      run of digits up to the first non-digit already exceeds MaxUint64;
      otherwise a syntax error when there is such a non-digit, and the
      value of the digits when there is none. */
  lemma {:induction false} ScanUintSpec(s: string, n: nat)
    requires n <= MaxUint64
    ensures var v := LeftValue(n, DigitRun(s));
            ScanUint(s, n) == if v > MaxUint64 then RangeError
                              else if DigitRun(s) == s then Parsed(v) else SyntaxError
    decreases |s|
  {
    if s != [] && IsDigit(s[0]) {
      var n1 := n * 10 + (s[0] as int - '0' as int);
      var t := DigitRun(s[1..]);
      assert DigitRun(s) == [s[0]] + t;
      assert ([s[0]] + t)[1..] == t;
      assert LeftValue(n, DigitRun(s)) == LeftValue(n1, t);
      LeftValueGrows(n1, t);
      if n1 <= MaxUint64 && n < MaxUint64 / 10 + 1 {
        ScanUintSpec(s[1..], n1);
        assert DigitRun(s) == s <==> t == s[1..];
      }
    }
  }

  /** On text of the form optional sign then digits, Atoi is the value cut
      to the int64 range. */
  lemma AtoiWellFormed(s: string)
    requires ParseDecimal(s).Some?
    ensures Atoi(s) == Clamp64(ParseDecimal(s).value)
  {
    var d := Unsigned(s);
    ScanUintSpec(d, 0);
    LeftValueIsDigitsValue(d);
    assert DigitRun(d) == d;
  }

  /** On any other text Atoi is 0, unless the digits that follow the sign
      already overflow 64 bits before the first non-digit: then Go's range
      error comes first and Atoi gives the bound on the side of the sign. */
  lemma AtoiMalformed(s: string)
    requires ParseDecimal(s).None?
    ensures var v := DigitsValue(DigitRun(Unsigned(s)));
            Atoi(s) == if v <= MaxUint64 then 0 else if s[0] == '-' then MinInt64 else MaxInt64
  {
    var d := Unsigned(s);
    ScanUintSpec(d, 0);
    LeftValueIsDigitsValue(DigitRun(d));
  }

  /** Twenty nines overflow at the twentieth digit, so a trailing
      non-digit is never reached: Atoi gives MaxInt64, not 0. */
  lemma NinesThenJunk(s: string)
    requires |s| == 21 && !IsDigit(s[20])
    requires forall i :: 0 <= i < 20 ==> s[i] == '9'
    ensures Atoi(s) == MaxInt64
  {
    AtoiMalformed(s);
    var run := DigitRun(s);
    assert |run| == 20 by {
      if |run| < 20 {
        assert false;
      }
    }
    NinesValue(run);
    TwentyDigitsOverflow();
  }

  lemma TwentyDigitsOverflow()
    ensures Pow10(20) - 1 > MaxUint64
  {
    Pow10Add(10, 10);
    assert Pow10(10) == 10_000_000_000;
  }

  /** Nineteen nines exceed MaxInt64 but not 2^64-1, so the scan reaches
      the trailing non-digit and reports a syntax error: Atoi gives 0. */
  lemma NineteenNinesThenJunk(s: string)
    requires |s| == 20 && !IsDigit(s[19])
    requires forall i :: 0 <= i < 19 ==> s[i] == '9'
    ensures Atoi(s) == 0
  {
    assert Unsigned(s) == s;
    var run := DigitRun(s);
    assert |run| == 19 by {
      if |run| < 19 {
        assert false;
      }
    }
    NinesValue(run);
    NineteenDigitsFit();
    assert DigitsValue(run) <= MaxUint64;
    assert ParseDecimal(s).None? by {
      assert !AllDigits(s);
    }
    AtoiMalformed(s);
  }

  lemma NineteenDigitsFit()
    ensures MaxInt64 < Pow10(19) - 1 <= MaxUint64
  {
    Pow10Add(10, 9);
    assert Pow10(10) == 10_000_000_000;
    assert Pow10(9) == 1_000_000_000;
  }

  lemma AtoiUintRangeThenJunk()
    ensures 9_999_999_999_999_999_999 > MaxInt64
    ensures Atoi("9999999999999999999x") == 0
  {
    NineteenNinesThenJunk("9999999999999999999x");
  }

  lemma AtoiOverflowBeforeJunk()
    ensures Atoi("99999999999999999999x") == MaxInt64
  {
    NinesThenJunk("99999999999999999999x");
  }

  function Pow10(k: nat): nat {
    if k == 0 then 1 else 10 * Pow10(k - 1)
  }

  lemma {:induction false} Pow10Add(a: nat, b: nat)
    ensures Pow10(a + b) == Pow10(a) * Pow10(b)
    decreases a
  {
    if a > 0 {
      Pow10Add(a - 1, b);
    }
  }

  /** k nines are worth 10^k - 1. */
  lemma {:induction false} NinesValue(s: string)
    requires forall i :: 0 <= i < |s| ==> s[i] == '9'
    ensures AllDigits(s) && DigitsValue(s) == Pow10(|s|) - 1
    decreases |s|
  {
    if s != [] {
      NinesValue(s[..|s| - 1]);
    }
  }

  lemma {:induction false} DigitsOfDecimal(n: nat)
    ensures DigitsValue(Decimal(n)) == n
    decreases n
  {
    var r := Decimal(n);
    if n >= 10 {
      DigitsOfDecimal(n / 10);
      assert r[..|r| - 1] == Decimal(n / 10);
    }
  }

  /** Reading back what Itoa wrote gives the number again. */
  lemma ParseItoa(n: int)
    ensures ParseDecimal(Itoa(n)) == Some(n)
  {
    DigitsOfDecimal(if n < 0 then -n else n);
    if n < 0 {
      assert Itoa(n)[1..] == Decimal(-n);
    }
  }

  /** Atoi inverts Itoa on the 64-bit range. */
  lemma AtoiItoa(n: int)
    requires MinInt64 <= n <= MaxInt64
    ensures Atoi(Itoa(n)) == n
  {
    ParseItoa(n);
    AtoiWellFormed(Itoa(n));
  }

  /** Distinct numbers render as distinct strings. */
  lemma ItoaInjective(a: int, b: int)
    requires Itoa(a) == Itoa(b)
    ensures a == b
  {
    ParseItoa(a);
    ParseItoa(b);
  }

  /** Itoa's output is canonical: it never starts with `+`, and it starts
      with `0` only when it is "0" itself. So "01", "+1" and "-0" are
      rendered by no number, although Atoi reads them as 1, 1 and 0. */
  lemma ItoaCanonical(n: int)
    ensures Itoa(n) != [] && Itoa(n)[0] != '+'
    ensures Itoa(n)[0] == '0' ==> Itoa(n) == "0"
    ensures Itoa(n) != "-0"
  {
    if n < 0 {
      assert Itoa(n)[1..] == Decimal(-n);
    }
  }
}

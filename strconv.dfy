/**
 * strconv.Atoi for a 64-bit `int`, and strconv.Itoa as its inverse: the
 * handle cells of the spreadsheet go through Atoi before SetFrame is called.
 */
module Strconv {
  import opened Wrappers
  import opened Text

  /** The range of Go's `int` on a 64-bit platform. */
  const MinInt: int := -0x8000_0000_0000_0000
  const MaxInt: int := 0x7fff_ffff_ffff_ffff

  predicate AllDigits(s: string) { forall i :: 0 <= i < |s| ==> IsDigit(s[i]) }

  function DigitValue(c: char): (d: nat)
    requires IsDigit(c)
    ensures d < 10
  {
    c as int - '0' as int
  }

  function DigitChar(d: nat): (c: char)
    requires d < 10
    ensures IsDigit(c) && DigitValue(c) == d
  {
    ('0' as int + d) as char
  }

  /** The value of a string of decimal digits, most significant digit first. */
  function Decimal(s: string): nat
    requires AllDigits(s)
    decreases |s|
  {
    if s == [] then 0 else Decimal(s[..|s| - 1]) * 10 + DigitValue(s[|s| - 1])
  }

  /** A longer run of digits is worth at least as much as any of its prefixes. */
  lemma {:induction false} DecimalPrefix(s: string, j: nat)
    requires AllDigits(s) && j <= |s|
    ensures Decimal(s[..j]) <= Decimal(s)
    decreases |s|
  {
    if j < |s| {
      var init := s[..|s| - 1];
      DecimalPrefix(init, j);
      assert init[..j] == s[..j];
    } else {
      assert s[..j] == s;
    }
  }

  function Pow10(e: nat): nat
  {
    if e == 0 then 1 else 10 * Pow10(e - 1)
  }

  /** A run of n nines is worth 10^n - 1. */
  lemma {:induction false} DecimalNines(s: string)
    requires forall i :: 0 <= i < |s| ==> s[i] == '9'
    ensures AllDigits(s) && Decimal(s) == Pow10(|s|) - 1
    decreases |s|
  {
    if s != [] {
      var init := s[..|s| - 1];
      DecimalNines(init);
      assert Pow10(|s|) == 10 * Pow10(|init|);
    }
  }

  /** The largest uint64: ParseUint's accumulator may not go past it. */
  const MaxUint: int := 0xffff_ffff_ffff_ffff

  /** The number of decimal digits at the start of `s`. */
  function LeadingDigits(s: string): (n: nat)
    ensures n <= |s|
    ensures forall i :: 0 <= i < n ==> IsDigit(s[i])
    ensures n < |s| ==> !IsDigit(s[n])
    decreases |s|
  {
    if s == [] || !IsDigit(s[0]) then 0 else 1 + LeadingDigits(s[1..])
  }

  /** The value of the digits at the start of `s`, before its first non-digit. */
  function LeadingValue(s: string): nat
  {
    var k := LeadingDigits(s);
    assert AllDigits(s[..k]);
    Decimal(s[..k])
  }

  lemma LeadingAll(s: string)
    requires AllDigits(s)
    ensures LeadingDigits(s) == |s| && LeadingValue(s) == Decimal(s)
  {
    assert s[..|s|] == s;
  }

  /** Whether the text starts with a sign. */
  predicate Signed(s: string) { |s| > 0 && (s[0] == '+' || s[0] == '-') }

  /** The text after its optional sign. */
  function Unsigned(s: string): string { if Signed(s) then s[1..] else s }

  /** The syntax Atoi accepts: an optional '+' or '-', then one or more decimal digits. */
  predicate IsInteger(s: string) { |Unsigned(s)| > 0 && AllDigits(Unsigned(s)) }

  /** The number an integer text denotes, with no range limit. */
  function SignedValue(s: string): int
    requires IsInteger(s)
  {
    if s[0] == '-' then -(Decimal(Unsigned(s)) as int) else Decimal(Unsigned(s))
  }

  /** The text of a *strconv.NumError produced by Atoi (strconv.Quote reduced to plain quotes). */
  function AtoiError(s: string, reason: string): string
  {
    "strconv.Atoi: parsing \"" + s + "\": " + reason
  }

  lemma AtoiMessagesDiffer(s: string)
    ensures AtoiError(s, "invalid syntax") != AtoiError(s, "value out of range")
  {
    assert |AtoiError(s, "invalid syntax")| < |AtoiError(s, "value out of range")|;
  }

  /** How ParseUint's scan of base-10 digits ends. */
  datatype Scan = Value(n: nat) | SyntaxError | RangeError

  /**
   * ParseUint's loop from index `i`, the digits before `i` having added up to
   * `n`: a non-digit is a syntax error, a digit that takes the value past
   * MaxUint is a range error, whichever the scan meets first.
   */
  function ScanUint(d: string, i: nat, n: nat): Scan
    requires i <= |d|
    decreases |d| - i
  {
    if i == |d| then Value(n)
    else if !IsDigit(d[i]) then SyntaxError
    else if n * 10 + DigitValue(d[i]) > MaxUint then RangeError
    else ScanUint(d, i + 1, n * 10 + DigitValue(d[i]))
  }

  /**
   * The scan, read as a whole: a range error exactly when the leading digits
   * are worth more than MaxUint, otherwise a syntax error when a non-digit
   * follows them, otherwise their value.
   */
  lemma {:induction false} ScanUintLeading(d: string, i: nat, n: nat)
    requires i <= LeadingDigits(d) && AllDigits(d[..i]) && n == Decimal(d[..i]) && n <= MaxUint
    ensures ScanUint(d, i, n) ==
      if LeadingValue(d) > MaxUint then RangeError
      else if LeadingDigits(d) < |d| then SyntaxError
      else Value(Decimal(d))
    decreases |d| - i
  {
    var k := LeadingDigits(d);
    assert AllDigits(d[..k]);
    if i == |d| {
      assert d[..i] == d[..k] == d;
    } else if !IsDigit(d[i]) {
      assert k == i;
    } else {
      var m := n * 10 + DigitValue(d[i]);
      assert d[..i + 1][..i] == d[..i];
      assert m == Decimal(d[..i + 1]);
      if m > MaxUint {
        DecimalPrefix(d[..k], i + 1);
        assert d[..k][..i + 1] == d[..i + 1];
      } else {
        ScanUintLeading(d, i + 1, m);
      }
    }
  }

  /**
   * strconv.Atoi for a 64-bit `int`: an optional sign, then ParseUint's scan
   * of the digits, then the signed range check. (Go takes a shortcut for
   * texts under 19 bytes; no such text can overflow, so it agrees with this.)
   */
  function Atoi(s: string): (r: Result<int, string>)
    ensures r.Ok? <==> IsInteger(s) && MinInt <= SignedValue(s) <= MaxInt
    ensures r.Ok? ==> r.value == SignedValue(s)
    ensures r == Err(AtoiError(s, "value out of range")) <==>
      LeadingValue(Unsigned(s)) > MaxUint || (IsInteger(s) && !(MinInt <= SignedValue(s) <= MaxInt))
    ensures r.Err? ==> r.error == AtoiError(s, "invalid syntax") || r.error == AtoiError(s, "value out of range")
  {
    var neg := Signed(s) && s[0] == '-';
    var digits := Unsigned(s);
    AtoiMessagesDiffer(s);
    if digits == [] then Err(AtoiError(s, "invalid syntax"))
    else
      ScanUintLeading(digits, 0, 0);
      match ScanUint(digits, 0, 0)
      case SyntaxError =>
        assert !IsDigit(digits[LeadingDigits(digits)]);
        assert !IsInteger(s) && LeadingValue(digits) <= MaxUint;
        Err(AtoiError(s, "invalid syntax"))
      case RangeError =>
        assert IsInteger(s) ==> Decimal(digits) > MaxUint by {
          if IsInteger(s) {
            LeadingAll(digits);
          }
        }
        Err(AtoiError(s, "value out of range"))
      case Value(u) =>
        if !neg && u > MaxInt then Err(AtoiError(s, "value out of range"))
        else if neg && u > -MinInt then Err(AtoiError(s, "value out of range"))
        else Ok(if neg then -(u as int) else u)
  }

  /**
   * Digits already worth more than MaxUint make a range error, whatever
   * follows them: the scan meets the overflow before any later non-digit.
   */
  lemma AtoiRangeBeforeSyntax(p: string, t: string)
    requires AllDigits(p) && Decimal(p) > MaxUint
    ensures Atoi(p + t) == Err(AtoiError(p + t, "value out of range"))
  {
    var s := p + t;
    assert p != [] && !Signed(s) && Unsigned(s) == s;
    var k := LeadingDigits(s);
    assert k >= |p|;
    assert s[..k][..|p|] == p;
    DecimalPrefix(s[..k], |p|);
  }

  /** A handle cell of twenty nines and an 'x' overflows before its 'x' is read. */
  lemma AtoiOverflowExample()
    ensures Atoi("99999999999999999999x") == Err(AtoiError("99999999999999999999x", "value out of range"))
  {
    var p := "99999999999999999999";
    TwentyNines(p);
    assert p + "x" == "99999999999999999999x";
    AtoiRangeBeforeSyntax(p, "x");
  }

  /** Twenty nines are more than a uint64 holds. */
  lemma TwentyNines(p: string)
    requires |p| == 20 && forall i :: 0 <= i < |p| ==> p[i] == '9'
    ensures AllDigits(p) && Decimal(p) > MaxUint
  {
    DecimalNines(p);
    assert Pow10(5) == 100_000;
    assert Pow10(10) == 10_000_000_000;
    assert Pow10(15) == 1_000_000_000_000_000;
    assert Pow10(20) == 100_000_000_000_000_000_000;
  }

  /** The decimal digits of a natural number, without leading zeros. */
  function Utoa(n: nat): (s: string)
    decreases n
  {
    if n < 10 then [DigitChar(n)] else Utoa(n / 10) + [DigitChar(n % 10)]
  }

  /** strconv.Itoa: a '-' for negative numbers, then the digits of the magnitude. */
  function Itoa(n: int): string
  {
    if n < 0 then "-" + Utoa(-n) else Utoa(n)
  }

  lemma {:induction false} UtoaDigits(n: nat)
    ensures |Utoa(n)| > 0 && AllDigits(Utoa(n)) && Decimal(Utoa(n)) == n
    decreases n
  {
    if n >= 10 {
      UtoaDigits(n / 10);
      var s := Utoa(n);
      assert s[..|s| - 1] == Utoa(n / 10);
    }
  }

  /** Every number of the 64-bit range survives Itoa followed by Atoi. */
  lemma AtoiItoa(n: int)
    requires MinInt <= n <= MaxInt
    ensures Atoi(Itoa(n)) == Ok(n)
  {
    var s := Itoa(n);
    var m: nat := if n < 0 then -n else n;
    UtoaDigits(m);
    assert Unsigned(s) == Utoa(m) by {
      if n < 0 {
        assert s[1..] == Utoa(m);
      } else {
        assert !IsDigit('+') && !IsDigit('-');
        assert IsDigit(s[0]);
      }
    }
    assert IsInteger(s) && SignedValue(s) == n;
  }
}

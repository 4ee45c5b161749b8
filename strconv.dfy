/**
 * Go's `strconv.Atoi` on a 64-bit platform, which hands the text to
 * `ParseInt(s, 10, 0)`: an optional `+` or `-` sign, then `ParseUint` reads the
 * digits left to right. A non-digit stops it with a syntax error (value 0); a
 * digit that takes the magnitude past 2^64 - 1 stops it with a range error
 * before any later character is looked at. A magnitude outside the int64 range
 * is a range error too; either range error carries the bound with the text's sign.
 * (Atoi's fast path for texts shorter than 19 bytes gives the same results.)
 */
module Strconv {
  const MinInt64: int := -0x8000_0000_0000_0000
  const MaxInt64: int := 0x7fff_ffff_ffff_ffff
  const MaxUint64: int := 0xffff_ffff_ffff_ffff

  datatype AtoiResult = Parsed(value: int) | SyntaxError | RangeError(clamped: int)

  predicate IsDigit(c: char) { '0' <= c <= '9' }

  predicate AllDigits(s: string) { forall i :: 0 <= i < |s| ==> IsDigit(s[i]) }

  function DigitValue(c: char): nat
    requires IsDigit(c)
  {
    c as int - '0' as int
  }

  /** The value of a run of decimal digits, most significant first. */
  function DigitsValue(s: string): nat
    requires AllDigits(s)
  {
    if s == [] then 0 else DigitsValue(s[..|s| - 1]) * 10 + DigitValue(s[|s| - 1])
  }

  /** A longer run of digits never has a smaller value. */
  lemma {:induction false} PrefixValueMonotone(s: string, i: nat, j: nat)
    requires i <= j <= |s| && AllDigits(s[..j])
    ensures AllDigits(s[..i]) && DigitsValue(s[..i]) <= DigitsValue(s[..j])
  {
    if i < j {
      assert s[..j][..j - 1] == s[..j - 1];
      PrefixValueMonotone(s, i, j - 1);
    }
  }

  /** The longest prefix of `s` made of digits. */
  function LeadingDigits(s: string): (p: string)
    ensures AllDigits(p)
  {
    if s == [] || !IsDigit(s[0]) then [] else [s[0]] + LeadingDigits(s[1..])
  }

  /** The leading run is a prefix of `s`, stops at a non-digit, and is all of `s` exactly when `s` is digits. */
  lemma {:induction false} LeadingDigitsFacts(s: string)
    ensures var p := LeadingDigits(s);
      && |p| <= |s| && p == s[..|p|]
      && (|p| < |s| ==> !IsDigit(s[|p|]))
      && (AllDigits(s) <==> p == s)
  {
    if s != [] && IsDigit(s[0]) {
      var t := s[1..];
      LeadingDigitsFacts(t);
      var q := LeadingDigits(t);
      assert LeadingDigits(s) == [s[0]] + q;
      assert s[..|q| + 1] == [s[0]] + t[..|q|];
      assert AllDigits(s) <==> AllDigits(t) by {
        forall k | 0 <= k < |t| ensures t[k] == s[k + 1] { }
        if AllDigits(t) {
          forall k | 0 <= k < |s| ensures IsDigit(s[k]) {
            if k > 0 { assert s[k] == t[k - 1]; }
          }
        }
      }
      assert [s[0]] + t == s;
    }
  }

  /** A prefix made of digits lies within the leading run. */
  lemma {:induction false} LeadingDigitsCover(s: string, i: nat)
    requires i <= |s| && AllDigits(s[..i])
    ensures i <= |LeadingDigits(s)|
  {
    if i > 0 {
      assert IsDigit(s[..i][0]);
      var t := s[1..];
      assert t[..i - 1] == s[..i][1..];
      LeadingDigitsCover(t, i - 1);
    }
  }

  /** What `ParseUint`'s digit loop reports. */
  datatype ScanResult = Scanned(n: nat) | BadDigit | Overflow

  /**
   * `ParseUint`'s loop from index `i`, with `n` the value of the digits read so
   * far: a non-digit is a syntax error, a digit taking the value past 2^64 - 1 a
   * range error, and the end of the text yields the value.
   */
  function ScanDigits(s: string, i: nat, n: nat): (r: ScanResult)
    requires i <= |s| && AllDigits(s[..i]) && n == DigitsValue(s[..i]) && n <= MaxUint64
    ensures r.Overflow? <==> DigitsValue(LeadingDigits(s)) > MaxUint64
    ensures r.Scanned? <==> AllDigits(s) && DigitsValue(s) <= MaxUint64
    ensures r.Scanned? ==> AllDigits(s) && r.n == DigitsValue(s)
    decreases |s| - i
  {
    var p := LeadingDigits(s);
    LeadingDigitsFacts(s);
    LeadingDigitsCover(s, i);
    if i == |s| then
      assert s[..i] == s;
      Scanned(n)
    else if !IsDigit(s[i]) then
      assert p == s[..i];
      BadDigit
    else
      assert s[..i + 1][..i] == s[..i];
      var next := n * 10 + DigitValue(s[i]);
      assert AllDigits(s[..i + 1]) && DigitsValue(s[..i + 1]) == next;
      if next > MaxUint64 then
        LeadingDigitsCover(s, i + 1);
        PrefixValueMonotone(s, i + 1, |p|);
        Overflow
      else
        ScanDigits(s, i + 1, next)
  }

  predicate Negative(s: string) { |s| > 0 && s[0] == '-' }

  /** The text after an optional leading sign. */
  function Unsigned(s: string): string
  {
    if |s| > 0 && (s[0] == '+' || s[0] == '-') then s[1..] else s
  }

  /** The syntax Atoi accepts: a sign is optional, at least one digit is not. */
  predicate WellFormed(s: string)
  {
    |Unsigned(s)| > 0 && AllDigits(Unsigned(s))
  }

  /** The value of the digits right after the sign, up to the first non-digit. */
  function LeadingValue(s: string): nat
  {
    DigitsValue(LeadingDigits(Unsigned(s)))
  }

  /** The integer a well-formed text denotes, whatever its size. */
  function SignedValue(s: string): int
    requires WellFormed(s)
  {
    if Negative(s) then -(DigitsValue(Unsigned(s)) as int) else DigitsValue(Unsigned(s))
  }

  predicate InRange(s: string)
  {
    WellFormed(s) && MinInt64 <= SignedValue(s) <= MaxInt64
  }

  function Atoi(s: string): (r: AtoiResult)
    ensures r.SyntaxError? <==> !WellFormed(s) && LeadingValue(s) <= MaxUint64
    ensures r.Parsed? <==> InRange(s)
    ensures r.Parsed? ==> InRange(s) && r.value == SignedValue(s)
    ensures r.RangeError? ==> r.clamped == (if Negative(s) then MinInt64 else MaxInt64)
  {
    var u := Unsigned(s);
    LeadingDigitsFacts(u);
    var scan := if u == [] then BadDigit else ScanDigits(u, 0, 0);
    match scan
    case BadDigit => SyntaxError
    case Overflow => RangeError(if Negative(s) then MinInt64 else MaxInt64)
    case Scanned(magnitude) =>
      if !Negative(s) && magnitude > MaxInt64 then RangeError(MaxInt64)
      else if Negative(s) && magnitude > -MinInt64 then RangeError(MinInt64)
      else Parsed(if Negative(s) then -(magnitude as int) else magnitude)
  }

  /** The integer Atoi hands back when the caller discards its error (`n, _ := strconv.Atoi(s)`). */
  function AtoiValue(s: string): (n: int)
    ensures MinInt64 <= n <= MaxInt64
    ensures !WellFormed(s) && LeadingValue(s) <= MaxUint64 ==> n == 0
    ensures InRange(s) ==> n == SignedValue(s)
    ensures !InRange(s) && (WellFormed(s) || LeadingValue(s) > MaxUint64) ==>
      n == (if Negative(s) then MinInt64 else MaxInt64)
  {
    match Atoi(s)
    case Parsed(v) => v
    case SyntaxError => 0
    case RangeError(c) => c
  }

  function DigitChar(d: nat): char
    requires d < 10
  {
    ('0' as int + d) as char
  }

  /** Canonical decimal text of a natural number (no sign, no leading zeros). */
  function FormatNat(n: nat): string
  {
    if n < 10 then [DigitChar(n)] else FormatNat(n / 10) + [DigitChar(n % 10)]
  }

  /** Canonical decimal text of an integer, as `strconv.Itoa` writes it. */
  function FormatInt(n: int): string
  {
    if n < 0 then "-" + FormatNat(-n) else FormatNat(n)
  }

  lemma {:induction false} FormatNatDigits(n: nat)
    ensures |FormatNat(n)| > 0 && AllDigits(FormatNat(n))
    ensures DigitsValue(FormatNat(n)) == n
  {
    var s := FormatNat(n);
    if n >= 10 {
      FormatNatDigits(n / 10);
      assert s[..|s| - 1] == FormatNat(n / 10);
    }
  }

  /** Every int64 survives a trip through its decimal text. */
  lemma AtoiFormatInt(n: int)
    requires MinInt64 <= n <= MaxInt64
    ensures Atoi(FormatInt(n)) == Parsed(n)
  {
    var s := FormatInt(n);
    if n < 0 {
      FormatNatDigits(-n);
      assert Unsigned(s) == FormatNat(-n);
    } else {
      FormatNatDigits(n);
      assert Unsigned(s) == FormatNat(n);
    }
  }

  /**
   * Overflow is reported before the text is finished: digits worth more than
   * 2^64 - 1 give a range error and the bound whatever follows them, even a
   * letter (`"99999999999999999999x"` gives 9223372036854775807).
   */
  lemma OverflowBeforeNonDigit(n: nat, rest: string)
    requires n > MaxUint64
    ensures Atoi(FormatNat(n) + rest) == RangeError(MaxInt64)
    ensures AtoiValue(FormatNat(n) + rest) == MaxInt64
  {
    var digits := FormatNat(n);
    var s := digits + rest;
    FormatNatDigits(n);
    assert s[..|digits|] == digits;
    assert IsDigit(s[0]);
    assert Unsigned(s) == s;
    LeadingDigitsCover(s, |digits|);
    LeadingDigitsFacts(s);
    var p := LeadingDigits(s);
    PrefixValueMonotone(s, |digits|, |p|);
    assert LeadingValue(s) > MaxUint64;
    if WellFormed(s) {
      assert p == s;
    }
  }

  /** Text that Atoi accepts never starts with a letter: the key name `locates` is not a number. */
  lemma LettersAreNotNumbers(s: string)
    requires |s| > 0 && 'a' <= s[0] <= 'z'
    ensures Atoi(s).SyntaxError?
  {
    assert Unsigned(s) == s;
    assert !IsDigit(s[0]);
  }
}

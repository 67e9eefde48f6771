/** Base-10 conversions between 64-bit integers and their text form, as Go's
    strconv.FormatInt(n, 10) and strconv.ParseInt(s, 10, 64) perform them. The
    crawler stores every account ID as text and converts it at the API boundary. */
module Strconv {

  const MinInt64: int := -0x8000_0000_0000_0000
  const MaxInt64: int := 0x7fff_ffff_ffff_ffff
  const MaxUint64: int := 0xffff_ffff_ffff_ffff

  type Int64 = x: int | MinInt64 <= x <= MaxInt64

  predicate IsDigit(c: char) { '0' <= c <= '9' }

  function DigitChar(d: nat): (c: char)
    requires d < 10
    ensures IsDigit(c)
  {
    ('0' as int + d) as char
  }

  function DigitValue(c: char): (d: nat)
    requires IsDigit(c)
    ensures d < 10
  {
    c as int - '0' as int
  }

  /** The decimal digits of n, most significant first, without leading zeros. */
  function Digits(n: nat): (s: string)
    ensures |s| > 0 && IsDigit(s[0])
    ensures forall i :: 0 <= i < |s| ==> IsDigit(s[i])
  {
    if n < 10 then [DigitChar(n)] else Digits(n / 10) + [DigitChar(n % 10)]
  }

  /** strconv.FormatInt(n, 10): a minus sign for negative values, then the digits. */
  function FormatInt(n: int): (s: string)
    ensures |s| > 0
    ensures n >= 0 ==> IsDigit(s[0])
    ensures n < 0 ==> s[0] == '-'
  {
    if n < 0 then "-" + Digits(-n) else Digits(n)
  }

  /** Outcome of strconv.ParseInt: the value, or the NumError reason. */
  datatype Parsed = Parsed(value: Int64) | SyntaxError | RangeError

  /** Outcome of the unsigned scan that strconv.ParseUint performs. */
  datatype UintScan = Uint(u: nat) | BadSyntax | OutOfRange

  /** strconv.ParseUint(s, 10, 64), left to right from the accumulated value acc:
      the first non-digit is a syntax error, and the first digit that would take
      the value above 2^64-1 is a range error, whichever comes first. */
  function ScanUint(s: string, acc: nat): (r: UintScan)
    requires acc <= MaxUint64
    ensures r.Uint? ==> r.u <= MaxUint64
    decreases |s|
  {
    if s == [] then Uint(acc)
    else if !IsDigit(s[0]) then BadSyntax
    else if acc * 10 + DigitValue(s[0]) > MaxUint64 then OutOfRange
    else ScanUint(s[1..], acc * 10 + DigitValue(s[0]))
  }

  /** strconv.ParseInt(s, 10, 64): an optional '+' or '-' sign, then the unsigned
      scan of the rest (which must not be empty); a scanned value beyond the int64
      range for that sign is a range error. */
  function ParseInt(s: string): (r: Parsed)
    ensures r.Parsed? ==> |s| > 0
    ensures r.Parsed? && r.value < 0 ==> s[0] == '-'
  {
    if s == [] then SyntaxError
    else
      var neg := s[0] == '-';
      var body := if s[0] == '+' || s[0] == '-' then s[1..] else s;
      if body == [] then SyntaxError
      else
        match ScanUint(body, 0)
        case BadSyntax => SyntaxError
        case OutOfRange => RangeError
        case Uint(u) =>
          if !neg && u > MaxInt64 then RangeError
          else if neg && u > -MinInt64 then RangeError
          else if neg then Parsed(-(u as int)) else Parsed(u)
  }

  // ---------------------------------------------------------------------------
  // Round trip: ParseInt(FormatInt(n)) == n for every int64 n.

  lemma {:induction false} ScanAppendDigit(s: string, c: char, acc: nat)
    requires acc <= MaxUint64 && IsDigit(c)
    requires ScanUint(s, acc).Uint?
    requires ScanUint(s, acc).u * 10 + DigitValue(c) <= MaxUint64
    ensures ScanUint(s + [c], acc) == Uint(ScanUint(s, acc).u * 10 + DigitValue(c))
    decreases |s|
  {
    if s == [] {
      assert s + [c] == [c];
      assert [c][1..] == [];
    } else {
      assert (s + [c])[0] == s[0];
      assert (s + [c])[1..] == s[1..] + [c];
      ScanAppendDigit(s[1..], c, acc * 10 + DigitValue(s[0]));
    }
  }

  lemma {:induction false} ScanDigitsOfValue(n: nat)
    requires n <= MaxUint64
    ensures ScanUint(Digits(n), 0) == Uint(n)
    decreases n
  {
    if n < 10 {
      assert Digits(n) == [DigitChar(n)];
      assert Digits(n)[1..] == [];
    } else {
      ScanDigitsOfValue(n / 10);
      ScanAppendDigit(Digits(n / 10), DigitChar(n % 10), 0);
    }
  }

  /** Formatting then parsing an int64 gives it back, so distinct IDs format to
      distinct strings. */
  lemma FormatParseRoundTrip(n: Int64)
    ensures ParseInt(FormatInt(n)) == Parsed(n)
  {
    var s := FormatInt(n);
    if n < 0 {
      assert s[0] == '-' && s[1..] == Digits(-(n as int));
      ScanDigitsOfValue(-(n as int));
    } else {
      assert s[0] != '-' && s[0] != '+';
      ScanDigitsOfValue(n);
    }
  }

  lemma FormatIntInjective(a: Int64, b: Int64)
    ensures FormatInt(a) == FormatInt(b) <==> a == b
  {
    FormatParseRoundTrip(a);
    FormatParseRoundTrip(b);
  }
}

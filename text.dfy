/**
 * The string primitives the capture-file parser is built from: Python's
 * `str.strip()`, `str.split(',')`, `str.startswith('T')`, the substring test
 * `"File I/O" in s`, `str.upper()`, the two regular expressions, `float()`
 * and the code-point order that `sorted()` applies to strings.
 */
module Text {
  import opened Wrappers

  // ---------------------------------------------------------------------------
  // Whitespace and strip
  // ---------------------------------------------------------------------------

  /** The characters Python's `str.isspace()` accepts, which `str.strip()` removes. */
  predicate IsSpace(c: char) {
    ('\t' <= c <= '\r') || ('\U{1c}' <= c <= ' ') || c == '\U{85}' || c == '\U{a0}'
    || c == '\U{1680}' || ('\U{2000}' <= c <= '\U{200a}') || c == '\U{2028}' || c == '\U{2029}'
    || c == '\U{202f}' || c == '\U{205f}' || c == '\U{3000}'
  }

  function StripLeft(s: string): (r: string)
    ensures |r| <= |s| && r == s[|s| - |r|..]
    ensures r == [] || !IsSpace(r[0])
    ensures forall k :: 0 <= k < |s| - |r| ==> IsSpace(s[k])
  {
    if |s| > 0 && IsSpace(s[0]) then StripLeft(s[1..]) else s
  }

  function StripRight(s: string): (r: string)
    ensures |r| <= |s| && r == s[..|r|]
    ensures r == [] || !IsSpace(r[|r| - 1])
    ensures forall k :: |r| <= k < |s| ==> IsSpace(s[k])
  {
    if |s| > 0 && IsSpace(s[|s| - 1]) then StripRight(s[..|s| - 1]) else s
  }

  /** Python's `s.strip()`: the widest slice of `s` with no white space at either end. */
  function Strip(s: string): (r: string)
    ensures |r| <= |s|
    ensures r == [] || (!IsSpace(r[0]) && !IsSpace(r[|r| - 1]))
  {
    StripRight(StripLeft(s))
  }

  /**
   * `s.strip()` removes white space only: the result is the slice of `s`
   * starting at `i`, everything before and after it is white space, and the
   * result is empty exactly when `s` is all white space.
   */
  lemma StripSlice(s: string) returns (i: nat)
    ensures i + |Strip(s)| <= |s| && Strip(s) == s[i..i + |Strip(s)|]
    ensures forall k :: 0 <= k < i ==> IsSpace(s[k])
    ensures forall k :: i + |Strip(s)| <= k < |s| ==> IsSpace(s[k])
    ensures Strip(s) == [] <==> forall k :: 0 <= k < |s| ==> IsSpace(s[k])
  {
    var left := StripLeft(s);
    i := |s| - |left|;
    assert left == s[i..];
  }

  /** Stripping twice is stripping once, so `float(x.strip())` and `float(x)` agree. */
  lemma StripIdempotent(s: string)
    ensures Strip(Strip(s)) == Strip(s)
  {
    var r := Strip(s);
    assert StripLeft(r) == r;
    assert StripRight(r) == r;
  }

  // ---------------------------------------------------------------------------
  // Split and its inverse
  // ---------------------------------------------------------------------------

  /** Python's `s.split(',')`: every comma separates two (possibly empty) fields. */
  function Split(s: string): (r: seq<string>)
    ensures |r| >= 1
    ensures forall k :: 0 <= k < |r| ==> ',' !in r[k]
    decreases |s|
  {
    if |s| == 0 then [""]
    else
      var rest := Split(s[1..]);
      if s[0] == ',' then [""] + rest
      else [[s[0]] + rest[0]] + rest[1..]
  }

  /** Python's `','.join(parts)`. */
  function Join(parts: seq<string>): string
    requires |parts| >= 1
    decreases |parts|
  {
    if |parts| == 1 then parts[0] else parts[0] + "," + Join(parts[1..])
  }

  /** Splitting at commas loses nothing: joining the fields gives the line back. */
  lemma {:induction false} JoinSplit(s: string)
    ensures Join(Split(s)) == s
    decreases |s|
  {
    if |s| > 0 {
      var rest := Split(s[1..]);
      JoinSplit(s[1..]);
      if s[0] == ',' {
        assert Split(s) == [""] + rest;
        assert ([""] + rest)[1..] == rest;
        assert Join(Split(s)) == "" + "," + Join(rest);
      } else {
        assert Split(s) == [[s[0]] + rest[0]] + rest[1..];
        if |rest| == 1 {
          assert Join(Split(s)) == [s[0]] + rest[0];
        } else {
          assert Join(rest) == rest[0] + "," + Join(rest[1..]);
          assert ([[s[0]] + rest[0]] + rest[1..])[1..] == rest[1..];
        }
      }
      assert s == [s[0]] + s[1..];
    }
  }

  /** Splitting a comma-free string yields that string as the only field. */
  lemma {:induction false} SplitCommaFree(s: string)
    requires ',' !in s
    ensures Split(s) == [s]
    decreases |s|
  {
    if |s| > 0 {
      assert ',' !in s[1..] by {
        forall k | 0 <= k < |s[1..]| ensures s[1..][k] != ',' { assert s[1..][k] == s[k + 1]; }
      }
      SplitCommaFree(s[1..]);
      assert s == [s[0]] + s[1..];
    }
  }

  // ---------------------------------------------------------------------------
  // Prefix and substring tests
  // ---------------------------------------------------------------------------

  /** `s.startswith('T')`: how every section but TOP recognises a data row. */
  predicate StartsWithT(s: string) {
    |s| > 0 && s[0] == 'T'
  }

  /** Python's `pattern in s` for strings. */
  predicate Contains(s: string, pattern: string)
    decreases |s|
  {
    (|pattern| <= |s| && s[..|pattern|] == pattern) || (|s| > 0 && Contains(s[1..], pattern))
  }

  // ---------------------------------------------------------------------------
  // The two regular expressions
  // ---------------------------------------------------------------------------

  predicate IsDigit(c: char) {
    '0' <= c <= '9'
  }

  predicate IsUpperLetter(c: char) {
    'A' <= c <= 'Z'
  }

  predicate AllDigits(s: string)
    decreases |s|
  {
    |s| == 0 || (IsDigit(s[0]) && AllDigits(s[1..]))
  }

  /** `str.upper` on one character, for ASCII letters. */
  function UpperChar(c: char): char {
    if 'a' <= c <= 'z' then (c as int - 32) as char else c
  }

  /** `str.upper()` on the ASCII letters. */
  function Upper(s: string): (r: string)
    ensures |r| == |s|
    ensures forall i :: 0 <= i < |s| ==> r[i] == UpperChar(s[i])
  {
    seq(|s|, i requires 0 <= i < |s| => UpperChar(s[i]))
  }

  /** The date check `^\d{2}-[A-Z]{3}-\d{4}$`, as in `07-JAN-2025`. */
  predicate IsDatePattern(s: string) {
    |s| == 11
    && IsDigit(s[0]) && IsDigit(s[1]) && s[2] == '-'
    && IsUpperLetter(s[3]) && IsUpperLetter(s[4]) && IsUpperLetter(s[5]) && s[6] == '-'
    && IsDigit(s[7]) && IsDigit(s[8]) && IsDigit(s[9]) && IsDigit(s[10])
  }

  /** The date check applied to the upper-cased text, one character at a time. */
  predicate IsDateText(s: string) {
    |s| == 11
    && IsDigit(s[0]) && IsDigit(s[1]) && s[2] == '-'
    && IsUpperLetter(UpperChar(s[3])) && IsUpperLetter(UpperChar(s[4])) && IsUpperLetter(UpperChar(s[5])) && s[6] == '-'
    && IsDigit(s[7]) && IsDigit(s[8]) && IsDigit(s[9]) && IsDigit(s[10])
  }

  /** Upper-casing leaves digits and '-' alone, so the date check can be made on the text itself. */
  lemma DateTextIsPattern(s: string)
    ensures IsDateText(s) <==> IsDatePattern(Upper(s))
  {
    if |s| == 11 {
      var u := Upper(s);
      assert u[0] == UpperChar(s[0]) && u[1] == UpperChar(s[1]) && u[2] == UpperChar(s[2]);
      assert u[3] == UpperChar(s[3]) && u[4] == UpperChar(s[4]) && u[5] == UpperChar(s[5]);
      assert u[6] == UpperChar(s[6]) && u[7] == UpperChar(s[7]) && u[8] == UpperChar(s[8]);
      assert u[9] == UpperChar(s[9]) && u[10] == UpperChar(s[10]);
    }
  }

  /** The per-core key check `^CPU\d+$`, as in `CPU01`. */
  predicate IsCoreKey(key: string) {
    |key| > 3 && key[0] == 'C' && key[1] == 'P' && key[2] == 'U' && AllDigits(key[3..])
  }

  // ---------------------------------------------------------------------------
  // Decimal numbers: Python's float() on the literals a capture file holds
  // ---------------------------------------------------------------------------

  function DigitValue(c: char): nat
    requires IsDigit(c)
  {
    (c as int - '0' as int) as nat
  }

  function Pow10(n: nat): (r: nat)
    ensures r >= 1
  {
    if n == 0 then 1 else 10 * Pow10(n - 1)
  }

  /** Where the scanner of a decimal literal stands. */
  datatype Phase =
    | Start       // nothing read, or only the sign
    | Whole       // inside the integer digits
    | Point       // just after the decimal point
    | Fraction    // inside the fraction digits
    | Mark        // just after `e` or `E`
    | MarkSign    // just after the exponent's sign
    | Exponent    // inside the exponent digits
    | Rejected

  /**
   * The scanner's state: the digits read so far as one integer `mantissa`,
   * how many of them follow the point, whether any digit was read, and the
   * exponent.
   */
  datatype Scan = Scan(phase: Phase, negative: bool, mantissa: nat, fractionDigits: nat, sawDigit: bool,
                       exponentNegative: bool, exponent: nat)

  /** Reads one character of `[+-]digits[.digits][(e|E)[+-]digits]`. */
  function Advance(s: Scan, c: char, first: bool): Scan {
    match s.phase
    case Start =>
      if first && (c == '+' || c == '-') then s.(negative := c == '-')
      else if IsDigit(c) then s.(phase := Whole, mantissa := DigitValue(c), sawDigit := true)
      else if c == '.' then s.(phase := Point)
      else s.(phase := Rejected)
    case Whole =>
      if IsDigit(c) then s.(mantissa := s.mantissa * 10 + DigitValue(c))
      else if c == '.' then s.(phase := Point)
      else if c == 'e' || c == 'E' then s.(phase := Mark)
      else s.(phase := Rejected)
    case Point =>
      if IsDigit(c) then s.(phase := Fraction, mantissa := s.mantissa * 10 + DigitValue(c), fractionDigits := 1, sawDigit := true)
      else if (c == 'e' || c == 'E') && s.sawDigit then s.(phase := Mark)
      else s.(phase := Rejected)
    case Fraction =>
      if IsDigit(c) then s.(mantissa := s.mantissa * 10 + DigitValue(c), fractionDigits := s.fractionDigits + 1)
      else if c == 'e' || c == 'E' then s.(phase := Mark)
      else s.(phase := Rejected)
    case Mark =>
      if c == '+' || c == '-' then s.(phase := MarkSign, exponentNegative := c == '-')
      else if IsDigit(c) then s.(phase := Exponent, exponent := DigitValue(c))
      else s.(phase := Rejected)
    case MarkSign =>
      if IsDigit(c) then s.(phase := Exponent, exponent := DigitValue(c)) else s.(phase := Rejected)
    case Exponent =>
      if IsDigit(c) then s.(exponent := s.exponent * 10 + DigitValue(c)) else s.(phase := Rejected)
    case Rejected => s
  }

  /** The value read, when the literal ended in a phase where it may end. */
  function Finish(s: Scan): Option<real> {
    if s.sawDigit && (s.phase == Whole || s.phase == Point || s.phase == Fraction || s.phase == Exponent) then
      var magnitude := s.mantissa as real / Pow10(s.fractionDigits) as real;
      var scaled := if s.exponentNegative then magnitude / Pow10(s.exponent) as real else magnitude * Pow10(s.exponent) as real;
      Some(if s.negative then -scaled else scaled)
    else None
  }

  function ScanFrom(t: string, i: nat, s: Scan): Option<real>
    requires i <= |t|
    decreases |t| - i
  {
    if i == |t| || s.phase == Rejected then Finish(s) else ScanFrom(t, i + 1, Advance(s, t[i], i == 0))
  }

  /**
   * Python's `float(s)` on decimal literals: surrounding white space is
   * ignored, a sign may lead, and `None` stands for the `ValueError` that any
   * other text raises.
   */
  function ParseNum(s: string): (r: Option<real>)
    ensures Strip(s) == [] ==> r == None
  {
    ScanFrom(Strip(s), 0, Scan(Start, false, 0, 0, false, false, 0))
  }

  // ---------------------------------------------------------------------------
  // The order `sorted()` puts strings in
  // ---------------------------------------------------------------------------

  /** Python's `a < b` on strings: code point by code point, a proper prefix first. */
  predicate StrLess(a: string, b: string)
    decreases |a|
  {
    if |a| == 0 then |b| > 0
    else |b| > 0 && (a[0] < b[0] || (a[0] == b[0] && StrLess(a[1..], b[1..])))
  }

  lemma {:induction false} StrLessIrreflexive(a: string)
    ensures !StrLess(a, a)
    decreases |a|
  {
    if |a| > 0 { StrLessIrreflexive(a[1..]); }
  }

  lemma {:induction false} StrLessTransitive(a: string, b: string, c: string)
    requires StrLess(a, b) && StrLess(b, c)
    ensures StrLess(a, c)
    decreases |a|
  {
    if |a| > 0 && a[0] == b[0] && b[0] == c[0] {
      StrLessTransitive(a[1..], b[1..], c[1..]);
    }
  }

  lemma {:induction false} StrLessTotal(a: string, b: string)
    requires a != b
    ensures StrLess(a, b) || StrLess(b, a)
    decreases |a|
  {
    if |a| > 0 && |b| > 0 && a[0] == b[0] {
      assert a == [a[0]] + a[1..] && b == [b[0]] + b[1..];
      StrLessTotal(a[1..], b[1..]);
    }
  }

  lemma StrLessAsymmetric(a: string, b: string)
    requires StrLess(a, b)
    ensures !StrLess(b, a)
  {
    if StrLess(b, a) {
      StrLessTransitive(a, b, a);
      StrLessIrreflexive(a);
    }
  }
}

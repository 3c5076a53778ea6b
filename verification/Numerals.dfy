/**
 The integer arguments of argparse: strtol, strtoul and strtoll with base 0 (section 7.22.1.4
 of ISO/IEC 9899:2011, 64-bit long) and the range checks around them, against a grammar of
 what a numeral is.
 */
module Numerals {
  import opened Words

  const ULONG_MAX: int := 0xFFFF_FFFF_FFFF_FFFF
  const LONG_MAX: int := 0x7FFF_FFFF_FFFF_FFFF
  const CO32_LIMIT: int := 0x1_0000_0000

  // ---------------------------------------------------------------- grammar

  /** isspace in the C locale. */
  predicate IsSpace(c: char) {
    c == ' ' || 9 <= c as int <= 13
  }

  /** The value of a digit; 36 for anything that is not a digit in any base. */
  function DigitValue(c: char): nat {
    if '0' <= c <= '9' then c as int - '0' as int
    else if 'a' <= c <= 'z' then c as int - 'a' as int + 10
    else if 'A' <= c <= 'Z' then c as int - 'A' as int + 10
    else 36
  }

  predicate AllDigits(s: string, base: nat) {
    forall i | 0 <= i < |s| :: DigitValue(s[i]) < base
  }

  predicate AllSpace(s: string) {
    forall i | 0 <= i < |s| :: IsSpace(s[i])
  }

  /** Positional value, most significant digit first. */
  function ValueOf(s: string, base: nat): nat {
    if s == [] then 0 else ValueOf(s[..|s| - 1], base) * base + DigitValue(s[|s| - 1])
  }

  /** `s` is an unsigned base-0 numeral of value `v`: decimal, octal or hexadecimal. */
  predicate Denotes(s: string, v: nat) {
    || (|s| > 0 && s[0] != '0' && AllDigits(s, 10) && v == ValueOf(s, 10))
    || (|s| > 0 && s[0] == '0' && AllDigits(s, 8) && v == ValueOf(s, 8))
    || (|s| > 2 && s[0] == '0' && s[1] in {'x', 'X'} && AllDigits(s[2..], 16) && v == ValueOf(s[2..], 16))
  }

  /** A numeral with an optional sign. */
  predicate SignedDenotes(s: string, v: int) {
    || (v >= 0 && Denotes(s, v))
    || (v >= 0 && |s| > 0 && s[0] == '+' && Denotes(s[1..], v))
    || (v <= 0 && |s| > 0 && s[0] == '-' && Denotes(s[1..], -v))
  }

  // ---------------------------------------------------------------- the library functions

  function SkipSpaces(s: string): (k: nat)
    ensures k <= |s| && AllSpace(s[..k]) && (k < |s| ==> !IsSpace(s[k]))
  {
    if s != [] && IsSpace(s[0]) then
      var k := 1 + SkipSpaces(s[1..]);
      assert s[..k] == [s[0]] + s[1..][..k - 1];
      k
    else 0
  }

  /** Length of the longest prefix of digits. */
  function DigitSpan(s: string, base: nat): (n: nat)
    ensures n <= |s| && AllDigits(s[..n], base) && (n < |s| ==> DigitValue(s[n]) >= base)
  {
    if s != [] && DigitValue(s[0]) < base then
      var n := 1 + DigitSpan(s[1..], base);
      assert s[..n] == [s[0]] + s[1..][..n - 1];
      n
    else 0
  }

  datatype Magnitude = NoDigits | Magnitude(value: nat, len: nat)

  /** The base-0 subject sequence after blanks and sign: longest match, "0x" only before a hex digit. */
  function ScanMagnitude(s: string): Magnitude {
    if |s| > 2 && s[0] == '0' && s[1] in {'x', 'X'} && DigitValue(s[2]) < 16 then
      var n := DigitSpan(s[2..], 16);
      Magnitude(ValueOf(s[2..][..n], 16), n + 2)
    else
      var base := if |s| > 0 && s[0] == '0' then 8 else 10;
      var n := DigitSpan(s, base);
      if n == 0 then NoDigits else Magnitude(ValueOf(s[..n], base), n)
  }

  datatype Scan = NoConversion | Scan(negative: bool, magnitude: nat, end: nat)

  function Signed(negative: bool, m: nat): int {
    if negative then 0 - m else m
  }

  /** Blanks, sign, digits; `end` is the offset endptr is set to. */
  function ScanNumber(s: string): Scan {
    var k := SkipSpaces(s);
    var signed := k < |s| && s[k] in {'-', '+'};
    var start := if signed then k + 1 else k;
    match ScanMagnitude(s[start..])
    case NoDigits => NoConversion
    case Magnitude(value, len) => Scan(signed && s[k] == '-', value, start + len)
  }

  /** Value, offset of endptr, and whether errno is ERANGE. */
  datatype Conversion = Conversion(value: int, end: nat, range: bool)

  function Strtoul(s: string): Conversion {
    match ScanNumber(s)
    case NoConversion => Conversion(0, 0, false)
    case Scan(negative, m, end) =>
      if m > ULONG_MAX then Conversion(ULONG_MAX, end, true)
      else Conversion(if negative then (ULONG_MAX + 1 - m) % (ULONG_MAX + 1) else m, end, false)
  }

  /** strtol and strtoll agree when long has 64 bits. */
  function Strtoll(s: string): Conversion {
    match ScanNumber(s)
    case NoConversion => Conversion(0, 0, false)
    case Scan(false, m, end) =>
      if m > LONG_MAX then Conversion(LONG_MAX, end, true) else Conversion(m, end, false)
    case Scan(true, m, end) =>
      if m > LONG_MAX + 1 then Conversion(-LONG_MAX - 1, end, true) else Conversion(Signed(true, m), end, false)
  }

  // ---------------------------------------------------------------- the three option types

  datatype Complaint = RequiresValue | NonNegativeOnly | SystemError | NotANumber | OutOfRange

  datatype Parsed = Good(value: int) | Bad(why: Complaint)

  function Checked(c: Conversion, s: string): Parsed {
    if c.range then Bad(SystemError)
    else if c.end == 0 || c.end != |s| then Bad(NotANumber)
    else Good(c.value)
  }

  function ParseU32(s: string): Parsed {
    if s == "" then Bad(RequiresValue)
    else
      var k := SkipSpaces(s);
      if k < |s| && s[k] in {'-', '+'} then Bad(NonNegativeOnly)
      else
        match Checked(Strtoul(s), s)
        case Bad(why) => Bad(why)
        case Good(v) => if v >= WORD_LIMIT then Bad(OutOfRange) else Good(v)
  }

  function ParseCO32(s: string): Parsed {
    if s == "" then Bad(RequiresValue)
    else
      var k := SkipSpaces(s);
      if k < |s| && s[k] == '-' then
        match Checked(Strtoll(s), s)
        case Bad(why) => Bad(why)
        case Good(v) => if v <= -CO32_LIMIT then Bad(OutOfRange) else Good(v)
      else
        match Checked(Strtoul(s), s)
        case Bad(why) => Bad(why)
        case Good(v) => if v >= WORD_LIMIT then Bad(OutOfRange) else Good(v)
  }

  function ParseInteger(s: string): Parsed {
    if s == "" then Bad(RequiresValue)
    else
      match Checked(Strtoll(s), s)
      case Bad(why) => Bad(why)
      case Good(v) => if v < -0x8000_0000 || v > 0x7FFF_FFFF then Bad(OutOfRange) else Good(v)
  }

  // ---------------------------------------------------------------- scanning meets the grammar

  lemma DigitSpanAll(s: string, base: nat)
    ensures DigitSpan(s, base) == |s| <==> AllDigits(s, base)
  {
    var n := DigitSpan(s, base);
    if n == |s| {
      assert s[..n] == s;
    }
  }

  /** The scanner consumes the whole string exactly when it is a numeral, and returns its value. */
  lemma MagnitudeIsNumeral(s: string, v: nat)
    ensures ScanMagnitude(s) == Magnitude(v, |s|) <==> Denotes(s, v)
  {
    if |s| > 2 && s[0] == '0' && s[1] in {'x', 'X'} {
      assert DigitValue('x') == 33 && DigitValue('X') == 33;
      assert DigitValue(s[1]) == 33;
      assert !AllDigits(s, 8);
      assert s[2..][0] == s[2];
      var n := DigitSpan(s[2..], 16);
      DigitSpanAll(s[2..], 16);
      if n == |s| - 2 {
        assert s[2..][..n] == s[2..];
      }
      if DigitValue(s[2]) >= 16 {
        DigitSpanAll(s, 8);
      }
    } else {
      var base := if |s| > 0 && s[0] == '0' then 8 else 10;
      DigitSpanAll(s, base);
      assert s[..|s|] == s;
    }
  }

  /** Where the blanks end is determined by the string. */
  lemma BlanksEnd(s: string, k: nat)
    requires k <= |s| && AllSpace(s[..k]) && (k < |s| ==> !IsSpace(s[k]))
    ensures SkipSpaces(s) == k
  {
    var m := SkipSpaces(s);
    assert forall i | 0 <= i < k :: s[..k][i] == s[i];
    assert forall i | 0 <= i < m :: s[..m][i] == s[i];
  }

  lemma NumeralStart(s: string, v: int)
    requires SignedDenotes(s, v)
    ensures |s| > 0 && !IsSpace(s[0])
    ensures s[0] in {'-', '+'} ==> !(exists m: nat :: Denotes(s, m))
  {
  }

  /** The whole string is blanks, sign and numeral exactly when the scanner says so. */
  lemma ScanIsSigned(s: string, k: nat, negative: bool, m: nat)
    requires k == SkipSpaces(s)
    ensures ScanNumber(s) == Scan(negative, m, |s|) ==> SignedDenotes(s[k..], Signed(negative, m))
    ensures ScanNumber(s) == Scan(negative, m, |s|) && !(k < |s| && s[k] in {'-', '+'}) ==> !negative && Denotes(s[k..], m)
  {
    var signed := k < |s| && s[k] in {'-', '+'};
    if signed {
      assert s[k..][1..] == s[k + 1..];
      MagnitudeIsNumeral(s[k + 1..], m);
    } else {
      MagnitudeIsNumeral(s[k..], m);
    }
  }

  lemma SignedIsScan(s: string, k: nat, v: int)
    requires k <= |s| && AllSpace(s[..k]) && SignedDenotes(s[k..], v)
    ensures k == SkipSpaces(s)
    ensures
      var sc := ScanNumber(s);
      sc.Scan? && sc.end == |s| && sc.end > 0 && Signed(sc.negative, sc.magnitude) == v
      && (sc.negative <==> s[k] == '-')
  {
    hide SkipSpaces;
    hide ValueOf;
    hide AllDigits;
    NumeralStart(s[k..], v);
    assert s[k..][0] == s[k];
    BlanksEnd(s, k);
    var m: nat := if v < 0 then -v else v;
    if s[k] in {'-', '+'} {
      assert s[k..][1..] == s[k + 1..];
      assert !Denotes(s[k..], m);
      MagnitudeIsNumeral(s[k + 1..], m);
    } else {
      MagnitudeIsNumeral(s[k..], m);
    }
  }

  // ---------------------------------------------------------------- main results

  /** Every accepted argument is optional blanks followed by a signed numeral. */
  ghost predicate Accepts(s: string, v: int) {
    exists k :: 0 <= k <= |s| && AllSpace(s[..k]) && SignedDenotes(s[k..], v)
  }

  /** Optional blanks followed by a numeral without a sign. */
  ghost predicate AcceptsUnsigned(s: string, v: nat) {
    exists k :: 0 <= k <= |s| && AllSpace(s[..k]) && Denotes(s[k..], v)
  }

  lemma ScanAccepts(s: string, v: int)
    ensures Accepts(s, v) <==>
            var sc := ScanNumber(s);
            && sc.Scan? && sc.end == |s| && sc.end > 0
            && Signed(sc.negative, sc.magnitude) == v
  {
    var sc := ScanNumber(s);
    if Accepts(s, v) {
      var k :| 0 <= k <= |s| && AllSpace(s[..k]) && SignedDenotes(s[k..], v);
      SignedIsScan(s, k, v);
    }
    if sc.Scan? && sc.end == |s| && Signed(sc.negative, sc.magnitude) == v {
      ScanIsSigned(s, SkipSpaces(s), sc.negative, sc.magnitude);
    }
  }

  predicate StartsSigned(s: string) {
    var k := SkipSpaces(s);
    k < |s| && s[k] in {'-', '+'}
  }

  lemma UnsignedScans(s: string, k: nat, v: nat)
    requires k <= |s| && AllSpace(s[..k]) && Denotes(s[k..], v)
    ensures !StartsSigned(s) && ScanNumber(s) == Scan(false, v, |s|)
  {
    NumeralStart(s[k..], v);
    assert s[k..][0] == s[k];
    BlanksEnd(s, k);
    MagnitudeIsNumeral(s[k..], v);
  }

  lemma ScanAcceptsUnsigned(s: string, v: nat)
    ensures AcceptsUnsigned(s, v) <==> !StartsSigned(s) && ScanNumber(s) == Scan(false, v, |s|)
  {
    if AcceptsUnsigned(s, v) {
      var k :| 0 <= k <= |s| && AllSpace(s[..k]) && Denotes(s[k..], v);
      UnsignedScans(s, k, v);
    }
    if !StartsSigned(s) && ScanNumber(s) == Scan(false, v, |s|) {
      ScanIsSigned(s, SkipSpaces(s), false, v);
    }
  }

  /** An unsigned option accepts exactly the sign-free numerals below 2^32, at their exact value. */
  lemma U32Exact(s: string, v: int)
    ensures ParseU32(s) == Good(v) <==> 0 <= v < WORD_LIMIT && AcceptsUnsigned(s, v)
  {
    var sc := ScanNumber(s);
    if sc.Scan? {
      ScanAcceptsUnsigned(s, sc.magnitude);
    }
    if v >= 0 {
      ScanAcceptsUnsigned(s, v);
    }
  }

  /** A Curve Optimiser option accepts exactly the signed numerals strictly between -2^32 and 2^32. */
  lemma CO32Exact(s: string, v: int)
    ensures ParseCO32(s) == Good(v) <==> -CO32_LIMIT < v < CO32_LIMIT && Accepts(s, v)
  {
    ScanAccepts(s, v);
    var sc := ScanNumber(s);
    if sc.Scan? {
      ScanAccepts(s, Signed(sc.negative, sc.magnitude));
    }
  }

  /** An integer option accepts exactly the signed numerals of 32-bit int. */
  lemma IntegerExact(s: string, v: int)
    ensures ParseInteger(s) == Good(v) <==> -0x8000_0000 <= v <= 0x7FFF_FFFF && Accepts(s, v)
  {
    ScanAccepts(s, v);
    var sc := ScanNumber(s);
    if sc.Scan? {
      ScanAccepts(s, Signed(sc.negative, sc.magnitude));
    }
  }

  /** The word sent to the SMU: the low 32 bits of the stored 64-bit value. */
  function CoWord(v: int): Word {
    v % WORD_LIMIT
  }

  const CO_UNSET: int := -0x8000_0000_0000_0000

  /**
   An accepted offset is never the "not given" marker, and two accepted offsets send the same
   word exactly when they are equal or 2^32 apart.
   */
  lemma CoWordSharing(s: string, t: string, v: int, w: int)
    requires ParseCO32(s) == Good(v) && ParseCO32(t) == Good(w)
    ensures v != CO_UNSET && w != CO_UNSET
    ensures CoWord(v) == CoWord(w) <==> v == w || v == w + WORD_LIMIT || w == v + WORD_LIMIT
  {
    CO32Exact(s, v);
    CO32Exact(t, w);
    LowWord(v);
    LowWord(w);
  }

  lemma LowWord(v: int)
    requires -CO32_LIMIT < v < CO32_LIMIT
    ensures CoWord(v) == if v < 0 then v + CO32_LIMIT else v
  {
  }

  // ---------------------------------------------------------------- printing

  function DigitChar(d: nat): char
    requires d < 16
  {
    "0123456789abcdef"[d]
  }

  /** The digits of `v`, as printf writes them. */
  function Print(v: nat, base: nat): (s: string)
    requires 2 <= base <= 16
    ensures |s| > 0 && AllDigits(s, base) && ValueOf(s, base) == v
    ensures v > 0 ==> s[0] != '0'
    ensures v == 0 ==> s == "0"
    decreases v
  {
    DigitCharValue();
    if v < base then
      assert [DigitChar(v)][..0] == [];
      [DigitChar(v)]
    else
      DivModSplit(v, base);
      PrintStep(Print(v / base, base), v % base, base);
      Print(v / base, base) + [DigitChar(v % base)]
  }

  lemma DivModSplit(v: nat, base: nat)
    requires 2 <= base <= v
    ensures 0 < v / base < v && v / base * base + v % base == v
  {
  }

  lemma PrintStep(s: string, d: nat, base: nat)
    requires |s| > 0 && d < base <= 16 && AllDigits(s, base)
    ensures AllDigits(s + [DigitChar(d)], base)
    ensures ValueOf(s + [DigitChar(d)], base) == ValueOf(s, base) * base + d
  {
    DigitCharValue();
    var t := s + [DigitChar(d)];
    assert t[..|t| - 1] == s;
  }

  lemma DigitCharValue()
    ensures forall d: nat | d < 16 :: DigitValue(DigitChar(d)) == d
    ensures forall d: nat | 0 < d < 16 :: DigitChar(d) != '0'
  {
  }

  lemma DecimalDenotes(v: nat)
    ensures Denotes(Print(v, 10), v)
  {
    if v == 0 {
      assert ValueOf("0", 8) == 0 by { assert "0"[..0] == []; }
    }
  }

  /** Decimal and hexadecimal printing of any 32-bit limit can be typed back in. */
  lemma PrintRoundTrip(v: Word)
    ensures ParseU32(Print(v, 10)) == Good(v)
    ensures ParseU32("0x" + Print(v, 16)) == Good(v)
  {
    var dec, hex := Print(v, 10), "0x" + Print(v, 16);
    assert dec[..0] == [] && dec[0..] == dec;
    DecimalDenotes(v);
    assert AcceptsUnsigned(dec, v);
    U32Exact(dec, v);
    assert hex[..0] == [] && hex[0..] == hex && hex[2..] == Print(v, 16);
    assert Denotes(hex, v);
    assert AcceptsUnsigned(hex, v);
    U32Exact(hex, v);
  }

  function PrintOffset(v: int): string {
    if v < 0 then "-" + Print(0 - v, 10) else Print(v, 10)
  }

  /** Any offset between -2^32 and 2^32 can be printed and typed back in. */
  lemma OffsetRoundTrip(v: int)
    requires -CO32_LIMIT < v < CO32_LIMIT
    ensures ParseCO32(PrintOffset(v)) == Good(v)
  {
    var s := PrintOffset(v);
    DecimalDenotes(if v < 0 then 0 - v else v);
    if v < 0 {
      assert s[0] == '-' && s[1..] == Print(0 - v, 10);
    }
    assert s[..0] == [] && s[0..] == s;
    assert Accepts(s, v);
    CO32Exact(s, v);
  }
}

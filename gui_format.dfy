/**
 * Unit formatting for the editor's drag values: a distance is shown
 * rounded to whole units followed by " km" or " m", and typed text is
 * parsed back by trimming it, cutting a trailing unit together with the
 * separator before it, and reading the rest as an `f64`.
 *
 * Strings are sequences of characters; the source measures lengths in
 * UTF-8 bytes, which agree with characters for ASCII text.
 */
module GuiFormat {
  import opened Wrappers
  import opened Geometry

  // ---------------------------------------------------------------
  // Trimming
  // ---------------------------------------------------------------

  /** `char::is_whitespace`: the characters with the Unicode White_Space property. */
  predicate IsWhitespace(c: char) {
    ('\U{0009}' <= c <= '\U{000D}') || c == ' ' || c == '\U{0085}' || c == '\U{00A0}'
    || c == '\U{1680}' || ('\U{2000}' <= c <= '\U{200A}') || c == '\U{2028}' || c == '\U{2029}'
    || c == '\U{202F}' || c == '\U{205F}' || c == '\U{3000}'
  }

  /** `str::trim_start`: drop leading whitespace. */
  function TrimStart(s: string): (r: string)
    ensures |r| <= |s| && r == s[|s| - |r|..]
    ensures |r| > 0 ==> !IsWhitespace(r[0])
    ensures forall i :: 0 <= i < |s| - |r| ==> IsWhitespace(s[i])
  {
    if |s| > 0 && IsWhitespace(s[0]) then TrimStart(s[1..]) else s
  }

  /** `str::trim_end`: drop trailing whitespace. */
  function TrimEnd(s: string): (r: string)
    ensures |r| <= |s| && r == s[..|r|]
    ensures |r| > 0 ==> !IsWhitespace(r[|r| - 1])
    ensures forall i :: |r| <= i < |s| ==> IsWhitespace(s[i])
  {
    if |s| > 0 && IsWhitespace(s[|s| - 1]) then TrimEnd(s[..|s| - 1]) else s
  }

  /** `str::trim`. */
  function Trim(s: string): (r: string)
    ensures |r| > 0 ==> !IsWhitespace(r[0]) && !IsWhitespace(r[|r| - 1])
  {
    TrimEnd(TrimStart(s))
  }

  /** A string that starts and ends with a non-whitespace character is its own trim. */
  lemma TrimOfTrimmed(s: string)
    requires |s| > 0 && !IsWhitespace(s[0]) && !IsWhitespace(s[|s| - 1])
    ensures Trim(s) == s
  {
  }

  predicate EndsWith(s: string, suffix: string) {
    |suffix| <= |s| && s[|s| - |suffix|..] == suffix
  }

  // ---------------------------------------------------------------
  // Decimal digits
  // ---------------------------------------------------------------

  predicate IsDigit(c: char) {
    '0' <= c <= '9'
  }

  predicate AllDigits(s: string) {
    forall i :: 0 <= i < |s| ==> IsDigit(s[i])
  }

  function DigitValue(c: char): nat
    requires IsDigit(c)
  {
    (c as int - '0' as int) as nat
  }

  function DigitChar(d: nat): (c: char)
    requires d < 10
    ensures IsDigit(c) && DigitValue(c) == d
  {
    ('0' as int + d) as char
  }

  /** The number a string of decimal digits denotes, most significant first. */
  function DigitsValue(s: string): nat
    requires AllDigits(s)
  {
    if |s| == 0 then 0 else DigitsValue(s[..|s| - 1]) * 10 + DigitValue(s[|s| - 1])
  }

  /** The decimal notation of `n`, without leading zeros. */
  function NatToDecimal(n: nat): (s: string)
    ensures |s| > 0 && AllDigits(s)
  {
    if n < 10 then [DigitChar(n)] else NatToDecimal(n / 10) + [DigitChar(n % 10)]
  }

  /** Reading the decimal notation of `n` gives `n` back. */
  lemma {:induction false} DecimalRoundTrip(n: nat)
    ensures DigitsValue(NatToDecimal(n)) == n
  {
    if n >= 10 {
      DecimalRoundTrip(n / 10);
      var s := NatToDecimal(n);
      assert s[..|s| - 1] == NatToDecimal(n / 10);
    }
  }

  // ---------------------------------------------------------------
  // `f64::from_str`
  // ---------------------------------------------------------------

  /** `10^k`. */
  function Pow10(k: nat): (p: nat)
    ensures p >= 1
  {
    if k == 0 then 1 else 10 * Pow10(k - 1)
  }

  /** The position of the first `c` in `s`, or `|s|` when there is none. */
  function IndexOf(s: string, c: char): (k: nat)
    ensures k <= |s|
    ensures k < |s| ==> s[k] == c
    ensures forall i :: 0 <= i < k ==> s[i] != c
  {
    if |s| == 0 then 0
    else if s[0] == c then 0
    else 1 + IndexOf(s[1..], c)
  }

  /** The first position of `e` or `E`, or `|s|` when there is neither. */
  function ExponentMark(s: string): (k: nat)
    ensures k <= |s|
    ensures forall i :: 0 <= i < k ==> s[i] != 'e' && s[i] != 'E'
    ensures k < |s| ==> s[k] == 'e' || s[k] == 'E'
  {
    var a, b := IndexOf(s, 'e'), IndexOf(s, 'E');
    if a < b then a else b
  }

  /** `digits [. digits]` with at least one digit: its value. */
  function ParseMantissa(m: string): (r: Option<real>)
    ensures r.Some? ==> r.value >= 0.0
  {
    var dot := IndexOf(m, '.');
    if dot == |m| then
      if |m| > 0 && AllDigits(m) then Some(DigitsValue(m) as real) else None
    else
      var whole, frac := m[..dot], m[dot + 1..];
      if AllDigits(whole) && AllDigits(frac) && |whole| + |frac| > 0 then
        Some(DigitsValue(whole) as real + DigitsValue(frac) as real / Pow10(|frac|) as real)
      else None
  }

  /** `[+|-] digits`, the exponent after `e`. */
  function ParseExponent(x: string): (r: Option<int>)
  {
    var neg := |x| > 0 && x[0] == '-';
    var digits := if |x| > 0 && (x[0] == '+' || x[0] == '-') then x[1..] else x;
    if |digits| > 0 && AllDigits(digits) then
      Some(if neg then -(DigitsValue(digits) as int) else DigitsValue(digits) as int)
    else None
  }

  /** `v * 10^e` for an integer exponent. */
  function Scale10(v: real, e: int): (r: real)
    requires v >= 0.0
    ensures r >= 0.0
  {
    if e >= 0 then v * Pow10(e) as real else v / Pow10(-e) as real
  }

  /** An unsigned decimal number: mantissa and an optional exponent. */
  function ParseDecimal(s: string): (r: Option<real>)
    ensures r.Some? ==> r.value >= 0.0
  {
    var k := ExponentMark(s);
    var mantissa := ParseMantissa(s[..k]);
    if mantissa.None? then None
    else if k == |s| then mantissa
    else
      match ParseExponent(s[k + 1..])
      case None => None
      case Some(e) => Some(Scale10(mantissa.value, e))
  }

  /** ASCII lower case. */
  function Lower(s: string): (r: string)
    ensures |r| == |s|
  {
    seq(|s|, i requires 0 <= i < |s| => if 'A' <= s[i] <= 'Z' then (s[i] as int + 32) as char else s[i])
  }

  /**
   * `f64::from_str`: an optional sign, then `inf`, `infinity` or `nan`
   * in any case, or a decimal number. The value is exact here; the
   * source rounds it to the nearest `f64`.
   */
  function ParseF64(s: string): (r: Option<Float>)
    ensures s == "" ==> r.None?
  {
    var neg := |s| > 0 && s[0] == '-';
    var body := if |s| > 0 && (s[0] == '+' || s[0] == '-') then s[1..] else s;
    var word := Lower(body);
    if word == "inf" || word == "infinity" then Some(Infinity(neg))
    else if word == "nan" then Some(NaN)
    else
      match ParseDecimal(body)
      case None => None
      case Some(v) => Some(Finite(if neg then -v else v))
  }

  /** A digit string is read as the number it denotes. */
  lemma ParseDigits(d: string)
    requires |d| > 0 && AllDigits(d)
    ensures ParseF64(d) == Some(Finite(DigitsValue(d) as real))
  {
    DigitsAreNumber(d);
    ParseUnsignedNumber(d, DigitsValue(d) as real);
  }

  /** A minus sign and a digit string is read as the negated number. */
  lemma ParseNegatedDigits(m: string)
    requires |m| > 1 && m[0] == '-' && AllDigits(m[1..])
    ensures ParseF64(m) == Some(Finite(-(DigitsValue(m[1..]) as real)))
  {
    DigitsAreNumber(m[1..]);
    ParseNegativeNumber(m, DigitsValue(m[1..]) as real);
  }

  lemma ParseUnsignedNumber(s: string, v: real)
    requires |s| > 0 && IsDigit(s[0])
    requires Lower(s) != "inf" && Lower(s) != "infinity" && Lower(s) != "nan"
    requires ParseDecimal(s) == Some(v)
    ensures ParseF64(s) == Some(Finite(v))
  {
  }

  lemma ParseNegativeNumber(s: string, v: real)
    requires |s| > 1 && s[0] == '-'
    requires Lower(s[1..]) != "inf" && Lower(s[1..]) != "infinity" && Lower(s[1..]) != "nan"
    requires ParseDecimal(s[1..]) == Some(v)
    ensures ParseF64(s) == Some(Finite(-v))
  {
  }

  lemma IndexOfAbsent(s: string, c: char)
    requires forall i :: 0 <= i < |s| ==> s[i] != c
    ensures IndexOf(s, c) == |s|
  {
  }

  /** A digit string has no dot and no exponent mark. */
  lemma DigitsHaveNoMarks(d: string)
    requires AllDigits(d)
    ensures IndexOf(d, '.') == |d| && ExponentMark(d) == |d|
  {
    IndexOfAbsent(d, '.');
    IndexOfAbsent(d, 'e');
    IndexOfAbsent(d, 'E');
  }

  lemma MantissaWithoutDot(d: string)
    requires |d| > 0 && AllDigits(d) && IndexOf(d, '.') == |d|
    ensures ParseMantissa(d) == Some(DigitsValue(d) as real)
  {
  }

  lemma MantissaOfDigits(d: string)
    requires |d| > 0 && AllDigits(d)
    ensures ParseMantissa(d) == Some(DigitsValue(d) as real)
  {
    IndexOfAbsent(d, '.');
    MantissaWithoutDot(d);
  }

  lemma DigitsAreNumber(d: string)
    requires |d| > 0 && AllDigits(d)
    ensures ParseDecimal(d) == Some(DigitsValue(d) as real)
    ensures Lower(d) != "inf" && Lower(d) != "infinity" && Lower(d) != "nan"
  {
    assert IsDigit(d[0]) && Lower(d)[0] == d[0];
    DigitsHaveNoMarks(d);
    MantissaOfDigits(d);
    assert d[..|d|] == d;
  }

  /** A digit string followed by a space is not a number. */
  lemma TrailingSpaceRejected(d: string)
    requires AllDigits(d)
    ensures ParseF64(d + " ") == None
  {
    var s := d + " ";
    assert s[|d|] == ' ';
    assert s[0] != '+' && s[0] != '-' by {
      assert s[0] == if |d| > 0 then d[0] else ' ';
    }
    assert Lower(s)[|d|] == ' ';
    SpacedDigitsNotDecimal(s, |d|);
  }

  /** A string with a space in it, and no dot or exponent, is no decimal number. */
  lemma SpacedDigitsNotDecimal(s: string, k: nat)
    requires k < |s| && s[k] == ' '
    ensures ParseDecimal(s) == None
  {
    var mark := ExponentMark(s);
    if k < mark {
      assert s[..mark][k] == ' ';
      MantissaRejectsSpace(s[..mark], k);
    } else {
      assert s[mark + 1..][k - mark - 1] == ' ';
      ExponentRejectsSpace(s[mark + 1..], k - mark - 1);
    }
  }

  lemma ExponentRejectsSpace(x: string, k: nat)
    requires k < |x| && x[k] == ' '
    ensures ParseExponent(x) == None
  {
    if |x| > 0 && (x[0] == '+' || x[0] == '-') {
      assert x[1..][k - 1] == ' ';
    }
  }

  lemma MantissaRejectsSpace(m: string, k: nat)
    requires k < |m| && m[k] == ' '
    ensures ParseMantissa(m) == None
  {
    var dot := IndexOf(m, '.');
    if k < dot {
      assert m[..dot][k] == ' ';
    } else {
      assert k != dot;
      assert m[dot + 1..][k - dot - 1] == ' ';
    }
  }

  // ---------------------------------------------------------------
  // Formatting
  // ---------------------------------------------------------------

  /** Rounding to a whole number, ties to even, for a non-negative value. */
  function RoundHalfEven(x: real): (n: nat)
    requires x >= 0.0
    ensures -0.5 <= n as real - x <= 0.5
  {
    var f := x.Floor;
    var frac := x - f as real;
    if frac < 0.5 then f as nat
    else if frac > 0.5 then (f + 1) as nat
    else if f % 2 == 0 then f as nat
    else (f + 1) as nat
  }

  function Abs(x: real): real {
    if x < 0.0 then -x else x
  }

  /**
   * `format!("{:.0}", value)`: a negative value keeps its sign even when
   * it rounds to zero; NaN and the infinities print as words.
   */
  function FormatFixed0(f: Float): (s: string)
    ensures |s| > 0 && !IsWhitespace(s[0]) && !IsWhitespace(s[|s| - 1])
  {
    match f
    case NaN => "NaN"
    case Infinity(neg) => if neg then "-inf" else "inf"
    case Finite(v) =>
      var digits := NatToDecimal(RoundHalfEven(Abs(v)));
      assert IsDigit(digits[|digits| - 1]);
      if v < 0.0 then "-" + digits else digits
  }

  /** The float a `{:.0}` rendering stands for: the value rounded to a whole number. */
  function Rounded(f: Float): Float {
    match f
    case Finite(v) =>
      var n := RoundHalfEven(Abs(v)) as real;
      Finite(if v < 0.0 then -n else n)
    case _ => f
  }

  /** Reading a `{:.0}` rendering gives the rounded value back. */
  lemma FormatFixed0Parses(f: Float)
    ensures ParseF64(FormatFixed0(f)) == Some(Rounded(f))
  {
    match f
    case NaN =>
      assert Lower("NaN") == "nan";
    case Infinity(neg) =>
      assert Lower("inf") == "inf";
      assert ("-inf")[1..] == "inf";
    case Finite(v) =>
      FiniteFormatParses(v);
  }

  lemma FiniteFormatParses(v: real)
    ensures ParseF64(FormatFixed0(Finite(v))) == Some(Rounded(Finite(v)))
  {
    var n := RoundHalfEven(Abs(v));
    var digits := NatToDecimal(n);
    DecimalRoundTrip(n);
    if v < 0.0 {
      assert ("-" + digits)[1..] == digits;
      ParseNegatedDigits("-" + digits);
    } else {
      ParseDigits(digits);
    }
  }

  /** `format!("{:.0} {unit}", value)`. */
  function FormatWithUnit(f: Float, unit: string): (s: string)
    ensures EndsWith(s, " " + unit)
  {
    var s := FormatFixed0(f) + " " + unit;
    assert s[|s| - |unit| - 1..] == " " + unit;
    s
  }

  /**
   * `format_km(value, _digits)`: the value rounded to whole kilometres
   * and " km"; the digit range is not consulted.
   */
  function FormatKm(f: Float, digits: (nat, nat)): (s: string)
    ensures EndsWith(s, " km")
  {
    FormatWithUnit(f, "km")
  }

  /** `format_meters(value, _digits)`: likewise with " m". */
  function FormatMeters(f: Float, digits: (nat, nat)): (s: string)
    ensures EndsWith(s, " m")
  {
    FormatWithUnit(f, "m")
  }

  // ---------------------------------------------------------------
  // Parsing with a unit, as written
  // ---------------------------------------------------------------

  /**
   * The shape shared by `parse_km` and `parse_meters`: trim; when the
   * text ends in the unit, cut the unit and one more character (meant to
   * be the space before it) and read the rest; otherwise read it all.
   * When the trimmed text is the unit alone the `usize` subtraction
   * overflows.
   */
  function ParseWithUnit(input: string, unit: string): (r: Run<Option<Float>>)
    ensures var t := Trim(input);
            EndsWith(t, unit) && |t| < |unit| + 1 ==> r.Panics?
  {
    var t := Trim(input);
    if EndsWith(t, unit) then
      if |t| < |unit| + 1 then Panics("attempt to subtract with overflow")
      else Returns(ParseF64(t[..|t| - |unit| - 1]))
    else Returns(ParseF64(t))
  }

  /** `parse_km`. */
  function ParseKm(input: string): (r: Run<Option<Float>>)
    ensures Trim(input) == "km" ==> r.Panics?
  {
    ParseWithUnit(input, "km")
  }

  /** `parse_meters`. */
  function ParseMeters(input: string): (r: Run<Option<Float>>)
    ensures Trim(input) == "m" ==> r.Panics?
  {
    ParseWithUnit(input, "m")
  }

  /** Every `format_km` rendering reads back as the rounded value. */
  lemma KmRoundTrip(f: Float, digits: (nat, nat))
    ensures ParseKm(FormatKm(f, digits)) == Returns(Some(Rounded(f)))
  {
    UnitRoundTrip(f, "km");
  }

  /** Every `format_meters` rendering reads back as the rounded value. */
  lemma MetersRoundTrip(f: Float, digits: (nat, nat))
    ensures ParseMeters(FormatMeters(f, digits)) == Returns(Some(Rounded(f)))
  {
    UnitRoundTrip(f, "m");
  }

  lemma UnitRoundTrip(f: Float, unit: string)
    requires |unit| > 0 && !IsWhitespace(unit[|unit| - 1])
    ensures ParseWithUnit(FormatWithUnit(f, unit), unit) == Returns(Some(Rounded(f)))
  {
    var s := FormatWithUnit(f, unit);
    var x := FormatFixed0(f);
    assert s == x + " " + unit;
    assert s[0] == x[0] && s[|s| - 1] == unit[|unit| - 1];
    TrimOfTrimmed(s);
    assert s[..|s| - |unit| - 1] == x;
    FormatFixed0Parses(f);
  }

  /** Text without the unit is read whole after trimming. */
  lemma BareNumberParsed(input: string, unit: string)
    requires !EndsWith(Trim(input), unit)
    ensures ParseWithUnit(input, unit) == Returns(ParseF64(Trim(input)))
  {
  }

  /** On trimmed text ending in the unit, the cut is the unit and the character before it. */
  lemma CutUnit(s: string, unit: string)
    requires |s| > |unit| && Trim(s) == s && EndsWith(s, unit)
    ensures ParseWithUnit(s, unit) == Returns(ParseF64(s[..|s| - |unit| - 1]))
  {
  }

  /** Without the space, the cut takes the last digit: `12km` reads as 1. */
  lemma KmWithoutSpaceDropsDigit(d: string, c: char)
    requires |d| > 0 && AllDigits(d) && IsDigit(c)
    ensures ParseKm(d + [c] + "km") == Returns(Some(Finite(DigitsValue(d) as real)))
  {
    KmCutsLastCharacter(d, c);
    ParseDigits(d);
  }

  /** `parse_km` reads what comes before the character in front of `km`. */
  lemma KmCutsLastCharacter(d: string, c: char)
    requires |d| > 0 && !IsWhitespace(d[0])
    ensures ParseKm(d + [c] + "km") == Returns(ParseF64(d))
  {
    var s := d + [c] + "km";
    assert s[0] == d[0] && s[|s| - 1] == 'm';
    TrimOfTrimmed(s);
    assert s[|s| - 2..] == "km";
    CutUnit(s, "km");
    assert s[..|s| - 3] == d;
  }

  /** A single digit before `km` leaves nothing to read: `5km` gives no number. */
  lemma KmSingleDigitUnreadable(c: char)
    requires IsDigit(c)
    ensures ParseKm([c] + "km") == Returns(None)
  {
    var s := [c] + "km";
    TrimOfTrimmed(s);
    assert s[|s| - 2..] == "km";
    CutUnit(s, "km");
    assert s[..|s| - 3] == "";
  }

  /** `parse_meters` cuts two characters from `5 km` and fails on `5 `. */
  lemma MetersRejectsKm(d: string)
    requires |d| > 0 && AllDigits(d)
    ensures ParseMeters(d + " km") == Returns(None)
  {
    var s := d + " km";
    assert s[0] == d[0] && s[|s| - 1] == 'm';
    TrimOfTrimmed(s);
    assert s[|s| - 1..] == "m";
    CutUnit(s, "m");
    assert s[..|s| - 2] == d + " ";
    TrailingSpaceRejected(d);
  }

  // ---------------------------------------------------------------
  // Parsing with a unit, as evidently intended
  // ---------------------------------------------------------------

  /**
   * Parsing with a unit that cuts exactly the unit and then any
   * whitespace before it, so that the separator is optional and the unit
   * alone is an unreadable number rather than a panic.
   */
  function ParseWithUnitIntended(input: string, unit: string): (r: Option<Float>)
  {
    ParseF64(NumberTextIntended(Trim(input), unit))
  }

  /** What the intended parser reads of trimmed text: all of it, or what precedes the unit and its separator. */
  function NumberTextIntended(t: string, unit: string): string
  {
    if EndsWith(t, unit) then TrimEnd(t[..|t| - |unit|]) else t
  }

  /** The intended parser reads every rendering back as the rounded value. */
  lemma IntendedRoundTrip(f: Float, unit: string)
    requires |unit| > 0 && !IsWhitespace(unit[|unit| - 1])
    ensures ParseWithUnitIntended(FormatWithUnit(f, unit), unit) == Some(Rounded(f))
  {
    var s := FormatWithUnit(f, unit);
    var x := FormatFixed0(f);
    assert s == x + " " + unit;
    assert s[0] == x[0] && s[|s| - 1] == unit[|unit| - 1];
    TrimOfTrimmed(s);
    assert s[..|s| - |unit|] == x + " ";
    assert TrimEnd(x + " ") == x by {
      assert (x + " ")[..|x|] == x;
    }
    FormatFixed0Parses(f);
  }

  /** On trimmed text ending in the unit, the intended parser cuts the unit and the whitespace before it. */
  lemma CutUnitIntended(s: string, unit: string)
    requires Trim(s) == s && EndsWith(s, unit)
    ensures ParseWithUnitIntended(s, unit) == ParseF64(TrimEnd(s[..|s| - |unit|]))
  {
  }

  /**
   * Text made of a number, whitespace and the unit reads as the number:
   * the unit and the whitespace before it are cut.
   */
  lemma IntendedCutsUnit(s: string, x: string, sep: string, unit: string)
    requires s == x + sep + unit
    requires |x| > 0 && !IsWhitespace(x[0]) && !IsWhitespace(x[|x| - 1])
    requires forall i :: 0 <= i < |sep| ==> IsWhitespace(sep[i])
    requires |unit| > 0 && !IsWhitespace(unit[|unit| - 1])
    ensures NumberTextIntended(Trim(s), unit) == x
  {
    assert s[0] == x[0] && s[|s| - 1] == unit[|unit| - 1];
    TrimOfTrimmed(s);
    assert s[|s| - |unit|..] == unit;
    assert s[..|s| - |unit|] == x + sep;
    TrimEndSkipsWhitespace(x, sep);
  }

  /** Trailing whitespace after text ending in a non-whitespace character is what `trim_end` drops. */
  lemma {:induction false} TrimEndSkipsWhitespace(x: string, sep: string)
    requires |x| > 0 && !IsWhitespace(x[|x| - 1])
    requires forall i :: 0 <= i < |sep| ==> IsWhitespace(sep[i])
    ensures TrimEnd(x + sep) == x
    decreases |sep|
  {
    if sep == [] {
      assert x + sep == x;
    } else {
      var t := x + sep;
      assert t[..|t| - 1] == x + sep[..|sep| - 1];
      TrimEndSkipsWhitespace(x, sep[..|sep| - 1]);
    }
  }

  /** Text made of a number, whitespace and the unit reads as that number. */
  lemma IntendedReadsNumber(s: string, x: string, sep: string, unit: string, f: Float)
    requires s == x + sep + unit
    requires |x| > 0 && !IsWhitespace(x[0]) && !IsWhitespace(x[|x| - 1]) && ParseF64(x) == Some(f)
    requires forall i :: 0 <= i < |sep| ==> IsWhitespace(sep[i])
    requires |unit| > 0 && !IsWhitespace(unit[|unit| - 1])
    ensures ParseWithUnitIntended(s, unit) == Some(f)
  {
    IntendedCutsUnit(s, x, sep, unit);
  }

  /** Without the space, `12km` reads as 12. */
  lemma IntendedWithoutSpace()
    ensures ParseWithUnitIntended("12km", "km") == Some(Finite(12.0))
  {
    ParseDigits("12");
    IntendedReadsNumber("12km", "12", "", "km", Finite(12.0));
  }

  /** With the space, `12 km` reads as 12 too. */
  lemma IntendedWithSpace()
    ensures ParseWithUnitIntended("12 km", "km") == Some(Finite(12.0))
  {
    ParseDigits("12");
    IntendedReadsNumber("12 km", "12", " ", "km", Finite(12.0));
  }

  /** The unit alone is no number, and no panic. */
  lemma IntendedUnitAlone(unit: string)
    requires |unit| > 0 && !IsWhitespace(unit[0]) && !IsWhitespace(unit[|unit| - 1])
    ensures ParseWithUnitIntended(unit, unit) == None
  {
    TrimOfTrimmed(unit);
    assert unit[..0] == "";
  }
}

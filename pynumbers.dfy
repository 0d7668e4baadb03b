/**
 * Python's `float(x)` and `int(x)` conversions. Order validation calls them
 * only to learn whether an item's amount and quantity can be converted; order
 * creation then stores the converted values.
 */
module PyNumbers {
  import opened Wrappers
  import opened JsonValue

  /**
   * The characters `int()` and `float()` skip around a numeral: the six ASCII
   * whitespace characters and every non-ASCII whitespace character. The ASCII
   * separators U+001C to U+001F, which `str.isspace()` accepts, are not skipped.
   */
  const Spaces: set<char> := {
    '\t', '\n', '\U{B}', '\U{C}', '\r', ' ', '\U{85}', '\U{A0}',
    '\U{1680}', '\U{2000}', '\U{2001}', '\U{2002}', '\U{2003}', '\U{2004}', '\U{2005}', '\U{2006}',
    '\U{2007}', '\U{2008}', '\U{2009}', '\U{200A}', '\U{2028}', '\U{2029}', '\U{202F}', '\U{205F}', '\U{3000}'}

  predicate IsSpace(c: char) {
    c in Spaces
  }

  predicate IsDigit(c: char) {
    '0' <= c <= '9'
  }

  function DigitValue(c: char): nat
    requires IsDigit(c)
  {
    c as int - '0' as int
  }

  function DigitChar(d: nat): (c: char)
    requires d < 10
    ensures IsDigit(c) && DigitValue(c) == d
  {
    ('0' as int + d) as char
  }

  /** How many whitespace characters `s` starts with. */
  function LeadingSpaces(s: string): (n: nat)
    ensures n <= |s|
    ensures forall k :: 0 <= k < n ==> IsSpace(s[k])
    ensures n == |s| || !IsSpace(s[n])
  {
    if s != [] && IsSpace(s[0]) then 1 + LeadingSpaces(s[1..]) else 0
  }

  /** How many whitespace characters `s` ends with. */
  function TrailingSpaces(s: string): (n: nat)
    ensures n <= |s|
    ensures forall k :: |s| - n <= k < |s| ==> IsSpace(s[k])
    ensures n == |s| || !IsSpace(s[|s| - n - 1])
  {
    if s != [] && IsSpace(s[|s| - 1]) then 1 + TrailingSpaces(s[..|s| - 1]) else 0
  }

  /** `r` is the slice of `s` at index `i`, and only whitespace lies around it. */
  predicate TrimmedAt(s: string, r: string, i: nat) {
    i + |r| <= |s| && r == s[i..i + |r|]
    && (forall k :: 0 <= k < i ==> IsSpace(s[k]))
    && (forall k :: i + |r| <= k < |s| ==> IsSpace(s[k]))
  }

  /** What `int()` and `float()` parse: `s` once the whitespace at both ends is dropped. */
  function Strip(s: string): (r: string)
    ensures exists i :: TrimmedAt(s, r, i)
    ensures r == [] || (!IsSpace(r[0]) && !IsSpace(r[|r| - 1]))
  {
    var i := LeadingSpaces(s);
    var t := s[i..];
    var r := t[..|t| - TrailingSpaces(t)];
    assert forall k :: i + |r| <= k < |s| ==> s[k] == t[k - i];
    assert TrimmedAt(s, r, i);
    assert r != [] ==> r[0] == s[i];
    r
  }

  /**
   * A run of decimal digits in which one underscore may stand between two
   * digits, the form Python's numeric constructors accept.
   */
  predicate IsDigitPart(s: string) {
    |s| > 0 && IsDigit(s[0]) && IsDigit(s[|s| - 1]) &&
    (forall k :: 0 <= k < |s| ==> IsDigit(s[k]) || s[k] == '_') &&
    (forall k :: 0 <= k < |s| - 1 ==> IsDigit(s[k]) || IsDigit(s[k + 1]))
  }

  /** The number spelled by the digits of `s`, underscores skipped. */
  function DigitsValue(s: string): nat {
    if s == [] then 0
    else if IsDigit(s[|s| - 1]) then DigitsValue(s[..|s| - 1]) * 10 + DigitValue(s[|s| - 1])
    else DigitsValue(s[..|s| - 1])
  }

  function DigitCount(s: string): nat {
    if s == [] then 0
    else DigitCount(s[..|s| - 1]) + (if IsDigit(s[|s| - 1]) then 1 else 0)
  }

  function Pow10(n: nat): (p: nat)
    ensures p >= 1
  {
    if n == 0 then 1 else 10 * Pow10(n - 1)
  }

  /** `x` times ten to the power `e`, for a possibly negative exponent. */
  function Scale(x: real, e: int): real {
    if e >= 0 then x * Pow10(e) as real else x / Pow10(-e) as real
  }

  function IndexOf(s: string, c: char): (r: Option<nat>)
    ensures r.None? <==> c !in s
    ensures r.Some? ==> r.value < |s| && s[r.value] == c && c !in s[..r.value]
  {
    if s == [] then None
    else if s[0] == c then Some(0)
    else match IndexOf(s[1..], c)
      case None => None
      case Some(k) => assert s[..k + 1] == [s[0]] + s[1..][..k]; Some(k + 1)
  }

  /** Where the exponent of a float literal begins: the first `e` or `E`. */
  function ExponentMarker(s: string): (r: Option<nat>)
    ensures r.None? <==> 'e' !in s && 'E' !in s
    ensures r.Some? ==> r.value < |s| && (s[r.value] == 'e' || s[r.value] == 'E')
                        && 'e' !in s[..r.value] && 'E' !in s[..r.value]
  {
    match (IndexOf(s, 'e'), IndexOf(s, 'E'))
    case (None, None) => None
    case (Some(i), None) => Some(i)
    case (None, Some(j)) => Some(j)
    case (Some(i), Some(j)) => Some(if i < j then i else j)
  }

  /** An optional `+` or `-` in front of the digits; the flag says whether it was `-`. */
  function SplitSign(t: string): (bool, string) {
    if |t| > 0 && (t[0] == '+' || t[0] == '-') then (t[0] == '-', t[1..]) else (false, t)
  }

  /** A signed run of digits, as in an integer literal or an exponent. */
  function ParseSigned(t: string): Option<int> {
    var (negative, digits) := SplitSign(t);
    var magnitude: int := DigitsValue(digits);
    if IsDigitPart(digits) then Some(if negative then -magnitude else magnitude)
    else None
  }

  /** The most digits `int()` converts from a string, CPython's default `sys.get_int_max_str_digits()`. */
  const MaxStrDigits: nat := 4300

  /**
   * `int(s)` for a `str` in base 10: `None` wherever Python raises `ValueError`,
   * including a numeral of more than `MaxStrDigits` digits (underscores not counted).
   */
  function ParseIntText(s: string): Option<int> {
    var t := Strip(s);
    if DigitCount(SplitSign(t).1) > MaxStrDigits then None else ParseSigned(t)
  }

  /**
   * The digits of a float literal before its exponent: a whole part, a fraction
   * part or both, separated by a point.
   */
  function ParseMantissa(m: string): Option<real> {
    match IndexOf(m, '.')
    case None => if IsDigitPart(m) then Some(DigitsValue(m) as real) else None
    case Some(p) =>
      var whole, frac := m[..p], m[p + 1..];
      if (whole == [] || IsDigitPart(whole)) && (frac == [] || IsDigitPart(frac)) && (whole != [] || frac != [])
      then Some(DigitsValue(whole) as real + DigitsValue(frac) as real / Pow10(DigitCount(frac)) as real)
      else None
  }

  /** `float(s)` for a `str` with a finite value: `None` wherever Python raises `ValueError`. */
  function ParseFloatText(s: string): Option<real> {
    var (negative, body) := SplitSign(Strip(s));
    var magnitude :=
      match ExponentMarker(body)
      case None => ParseMantissa(body)
      case Some(k) =>
        match (ParseMantissa(body[..k]), ParseSigned(body[k + 1..]))
        case (Some(x), Some(e)) => Some(Scale(x, e))
        case _ => None;
    match magnitude
    case None => None
    case Some(x) => Some(if negative then -x else x)
  }

  /** `int(r)` for a float: the integer part, truncated toward zero. */
  function TruncateTowardZero(r: real): (n: int)
    ensures r >= 0.0 ==> 0 <= n && n as real <= r < n as real + 1.0
    ensures r < 0.0 ==> n <= 0 && n as real - 1.0 < r <= n as real
  {
    if r >= 0.0 then r.Floor else -((-r).Floor)
  }

  /**
   * `float(v)` of a decoded JSON value: booleans, integers, floats and numeric
   * strings convert; `None`, lists and dicts raise `TypeError`.
   */
  function ToFloat(v: Json): Option<real> {
    match v
    case JBool(b) => Some(if b then 1.0 else 0.0)
    case JInt(i) => Some(i as real)
    case JFloat(r) => Some(r)
    case JString(s) => ParseFloatText(s)
    case _ => None
  }

  /** `int(v)` of a decoded JSON value; a float is truncated toward zero. */
  function ToInt(v: Json): Option<int> {
    match v
    case JBool(b) => Some(if b then 1 else 0)
    case JInt(i) => Some(i)
    case JFloat(r) => Some(TruncateTowardZero(r))
    case JString(s) => ParseIntText(s)
    case _ => None
  }

  /** The decimal rendering of a natural number, as an f-string writes an index. */
  function NatToString(n: nat): (r: string)
    ensures |r| > 0 && forall k :: 0 <= k < |r| ==> IsDigit(r[k])
  {
    if n < 10 then [DigitChar(n)] else NatToString(n / 10) + [DigitChar(n % 10)]
  }

  lemma {:induction false} DigitsValueOfNatToString(n: nat)
    ensures DigitsValue(NatToString(n)) == n
  {
    if n >= 10 {
      var s := NatToString(n / 10);
      var t := s + [DigitChar(n % 10)];
      assert t[..|t| - 1] == s;
      DigitsValueOfNatToString(n / 10);
    }
  }

  lemma DigitCountOfDigits(s: string)
    requires forall k :: 0 <= k < |s| ==> IsDigit(s[k])
    ensures DigitCount(s) == |s|
  {
    if s != [] {
      assert forall k :: 0 <= k < |s| - 1 ==> s[..|s| - 1][k] == s[k];
      DigitCountOfDigits(s[..|s| - 1]);
    }
  }

  lemma StripUnpadded(s: string)
    requires s != [] && !IsSpace(s[0]) && !IsSpace(s[|s| - 1])
    ensures Strip(s) == s
  {
  }

  /**
   * Reading back the decimal rendering of `n` with `int()` gives `n`, for
   * renderings within the digit limit; a longer one is refused.
   */
  lemma ParseIntOfNatToString(n: nat)
    ensures ParseIntText(NatToString(n)) == if |NatToString(n)| <= MaxStrDigits then Some(n) else None
  {
    var s := NatToString(n);
    StripUnpadded(s);
    DigitsValueOfNatToString(n);
    DigitCountOfDigits(s);
    assert SplitSign(s) == (false, s);
  }

  /** Reading back the decimal rendering of `n` with `float()` gives `n` too. */
  lemma ParseFloatOfNatToString(n: nat)
    ensures ParseFloatText(NatToString(n)) == Some(n as real)
  {
    var s := NatToString(n);
    StripUnpadded(s);
    DigitsValueOfNatToString(n);
    assert SplitSign(s) == (false, s);
    assert IndexOf(s, 'e').None? && IndexOf(s, 'E').None? && IndexOf(s, '.').None?;
  }

  /** Whatever whitespace surrounds a text without whitespace at its ends, stripping gives that text. */
  lemma StripTrimmed(s: string, r: string, i: nat)
    requires TrimmedAt(s, r, i) && r != [] && !IsSpace(r[0]) && !IsSpace(r[|r| - 1])
    ensures Strip(s) == r
  {
    var n := LeadingSpaces(s);
    assert s[i] == r[0];
    var t := s[n..];
    assert t[|r| - 1] == r[|r| - 1];
  }

  // What the item checks accept and refuse, in the form `float()` and `int()` see it.

  /** A point may end a float literal. */
  lemma TrailingPointAccepted()
    ensures ParseFloatText("1.") == Some(1.0)
  {
    StripUnpadded("1.");
    assert SplitSign("1.") == (false, "1.");
    assert ExponentMarker("1.") == None;
    assert IndexOf("1.", '.') == Some(1);
    assert "1."[..1] == "1" && "1."[2..] == [];
    assert DigitsValue("1") == 1 by { assert "1"[..0] == []; }
  }

  /** A point may begin a float literal. */
  lemma LeadingPointAccepted()
    ensures ParseFloatText(".5") == Some(0.5)
  {
    StripUnpadded(".5");
    assert SplitSign(".5") == (false, ".5");
    assert ExponentMarker(".5") == None;
    assert IndexOf(".5", '.') == Some(0);
    assert ".5"[..0] == [] && ".5"[1..] == "5";
    assert DigitsValue("5") == 5 && DigitCount("5") == 1 by { assert "5"[..0] == []; }
  }

  lemma UnitMantissa()
    ensures ParseMantissa("1") == Some(1.0)
  {
    assert IndexOf("1", '.') == None;
    assert DigitsValue("1") == 1 by { assert "1"[..0] == []; }
  }

  lemma TenWithUnderscore()
    ensures ParseSigned("1_0") == Some(10)
  {
    assert SplitSign("1_0") == (false, "1_0");
    assert DigitsValue("1_0") == 10 by { assert "1_0"[..2] == "1_" && "1_"[..1] == "1" && "1"[..0] == []; }
  }

  lemma ExponentOfTen()
    ensures Strip("1e1_0") == "1e1_0" && SplitSign("1e1_0") == (false, "1e1_0")
    ensures ExponentMarker("1e1_0") == Some(1) && "1e1_0"[..1] == "1" && "1e1_0"[2..] == "1_0"
  {
    var s := "1e1_0";
    StripUnpadded(s);
    assert IndexOf(s, 'E') == None;
    assert IndexOf(s, 'e') == Some(1);
  }

  /** An exponent may carry an underscore between its digits. */
  lemma UnderscoreExponentAccepted()
    ensures ParseFloatText("1e1_0") == Some(10000000000.0)
  {
    var s := "1e1_0";
    ExponentOfTen();
    UnitMantissa();
    TenWithUnderscore();
    assert ParseMantissa(s[..1]) == Some(1.0) && ParseSigned(s[1 + 1..]) == Some(10);
    assert Scale(1.0, 10) == 10000000000.0 by { TenToTheTen(); }
  }

  lemma TenToTheTen()
    ensures Pow10(10) == 10000000000
  {
  }

  /** The numeral "12", as `int()` and `float()` read it once stripped. */
  lemma Twelve()
    ensures ParseSigned("12") == Some(12) && DigitCount(SplitSign("12").1) == 2
    ensures ExponentMarker("12") == None && ParseMantissa("12") == Some(12.0)
  {
    assert SplitSign("12") == (false, "12");
    assert DigitsValue("12") == 12 && DigitCount("12") == 2 by { assert "12"[..1] == "1" && "1"[..0] == []; }
    assert IndexOf("12", 'e') == None && IndexOf("12", 'E') == None && IndexOf("12", '.') == None;
  }

  /** Spaces around a numeral are skipped. */
  lemma PaddedNumeralAccepted()
    ensures ParseIntText(" 12 ") == Some(12) && ParseFloatText(" 12 ") == Some(12.0)
  {
    assert TrimmedAt(" 12 ", "12", 1);
    StripTrimmed(" 12 ", "12", 1);
    Twelve();
    assert SplitSign("12") == (false, "12");
  }

  /** Non-ASCII whitespace, here a no-break space, is skipped too. */
  lemma NoBreakSpaceSkipped()
    ensures ParseIntText("\U{A0}12") == Some(12)
  {
    assert TrimmedAt("\U{A0}12", "12", 1);
    StripTrimmed("\U{A0}12", "12", 1);
    Twelve();
  }

  /** `int()` refuses a fraction. */
  lemma FractionRefusedByInt()
    ensures ParseIntText("1.5") == None
  {
    StripUnpadded("1.5");
    assert SplitSign("1.5") == (false, "1.5");
    assert !IsDigitPart("1.5") by { assert "1.5"[1] == '.'; }
  }

  /** A doubled underscore is refused. */
  lemma DoubledUnderscoreRefused()
    ensures ParseIntText("1__0") == None
  {
    StripUnpadded("1__0");
    assert SplitSign("1__0") == (false, "1__0");
    assert !IsDigitPart("1__0") by { assert "1__0"[1] == '_' && "1__0"[2] == '_'; }
  }

  /** A leading underscore is refused. */
  lemma LeadingUnderscoreRefused()
    ensures ParseIntText("_1") == None
  {
    StripUnpadded("_1");
    assert SplitSign("_1") == (false, "_1");
    assert !IsDigitPart("_1") by { assert "_1"[0] == '_'; }
  }

  /** A lone point is no float literal. */
  lemma LonePointRefused()
    ensures ParseFloatText(".") == None
  {
    StripUnpadded(".");
    assert SplitSign(".") == (false, ".");
    assert ExponentMarker(".") == None;
    assert IndexOf(".", '.') == Some(0);
    assert "."[..0] == [] && "."[1..] == [];
  }

  /** An exponent marker without digits is refused. */
  lemma BareExponentRefused()
    ensures ParseFloatText("1e") == None
  {
    StripUnpadded("1e");
    assert SplitSign("1e") == (false, "1e");
    assert IndexOf("1e", 'E') == None;
    assert IndexOf("1e", 'e') == Some(1);
    assert "1e"[2..] == [];
    assert SplitSign([]) == (false, []);
  }

  /** The ASCII separator U+001C is not whitespace to the numeric constructors. */
  lemma FileSeparatorRefused()
    ensures ParseIntText("\U{1C}1") == None && ParseFloatText("\U{1C}1") == None
  {
    var s := "\U{1C}1";
    StripUnpadded(s);
    assert SplitSign(s) == (false, s);
    assert !IsDigitPart(s) by { assert !IsDigit(s[0]); }
    assert ExponentMarker(s) == None && IndexOf(s, '.') == None;
  }
}

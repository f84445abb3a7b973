/**
 * The few JavaScript string primitives the core relies on, written out:
 * `String.prototype.trim` (used by the schema's `trim` setter), `Number.prototype.toString`
 * for naturals (used to print the OTP) and the global `isNaN` on strings (the OTP input gate).
 */
module JsText {

  /** WhiteSpace and LineTerminator code points of ECMAScript (what `trim` and `Number` skip). */
  predicate IsWhiteSpace(c: char)
  {
    c == '\t' || c == '\n' || c == '\U{000B}' || c == '\U{000C}' || c == '\r' || c == ' ' ||
    c == '\U{00A0}' || c == '\U{1680}' || ('\U{2000}' <= c <= '\U{200A}') ||
    c == '\U{2028}' || c == '\U{2029}' || c == '\U{202F}' || c == '\U{205F}' ||
    c == '\U{3000}' || c == '\U{FEFF}'
  }

  /** Every character is white space. */
  predicate Blank(t: string)
  {
    forall i :: 0 <= i < |t| ==> IsWhiteSpace(t[i])
  }

  /** The index of the first character at or after `from` that is not white space, else |s|. */
  function FirstNonBlank(s: string, from: nat): (k: nat)
    requires from <= |s|
    ensures from <= k <= |s|
    ensures forall i :: from <= i < k ==> IsWhiteSpace(s[i])
    ensures k < |s| ==> !IsWhiteSpace(s[k])
    decreases |s| - from
  {
    if from < |s| && IsWhiteSpace(s[from]) then FirstNonBlank(s, from + 1) else from
  }

  /** One past the last character before `upto` that is not white space, else 0. */
  function EndNonBlank(s: string, upto: nat): (e: nat)
    requires upto <= |s|
    ensures e <= upto
    ensures forall i :: e <= i < upto ==> IsWhiteSpace(s[i])
    ensures e > 0 ==> !IsWhiteSpace(s[e - 1])
  {
    if upto > 0 && IsWhiteSpace(s[upto - 1]) then EndNonBlank(s, upto - 1) else upto
  }

  /**
   * `s.trim()`: the infix of `s` between its leading and its trailing white space, with
   * neither end white space, and empty exactly when `s` is blank.
   */
  function Trim(s: string): (r: string)
    ensures FirstNonBlank(s, 0) + |r| <= |s|
    ensures r == s[FirstNonBlank(s, 0)..FirstNonBlank(s, 0) + |r|]
    ensures Blank(s[..FirstNonBlank(s, 0)]) && Blank(s[FirstNonBlank(s, 0) + |r|..])
    ensures r == [] || (!IsWhiteSpace(r[0]) && !IsWhiteSpace(r[|r| - 1]))
    ensures r == [] <==> Blank(s)
  {
    var k := FirstNonBlank(s, 0);
    var e := EndNonBlank(s, |s|);
    if e <= k then
      assert forall i :: 0 <= i < |s| ==> IsWhiteSpace(s[i]);
      []
    else
      s[k..e]
  }

  /** Trimming removes exactly the white space at both ends: nothing is left to trim. */
  lemma TrimIdempotent(s: string)
    ensures Trim(Trim(s)) == Trim(s)
  {
    var t := Trim(s);
    if t != [] {
      assert FirstNonBlank(t, 0) == 0;
      assert EndNonBlank(t, |t|) == |t|;
      assert t[0..|t|] == t;
    }
  }

  /** The trimmed string is empty exactly when every character is white space. */
  lemma TrimEmptyIffBlank(s: string)
    ensures Trim(s) == "" <==> forall i :: 0 <= i < |s| ==> IsWhiteSpace(s[i])
  {
  }

  /**
   * `s.length`: JavaScript strings count UTF-16 code units, so a code point beyond the Basic
   * Multilingual Plane (a surrogate pair) counts two.
   */
  function Utf16Length(s: string): (n: nat)
    ensures |s| <= n <= 2 * |s|
  {
    if s == [] then 0 else (if s[0] as int > 0xFFFF then 2 else 1) + Utf16Length(s[1..])
  }

  /** On the Basic Multilingual Plane the JavaScript length is the number of characters. */
  lemma {:induction false} BmpLength(s: string)
    requires forall i :: 0 <= i < |s| ==> s[i] as int <= 0xFFFF
    ensures Utf16Length(s) == |s|
  {
    if s != [] {
      assert forall i :: 0 <= i < |s[1..]| ==> s[1..][i] == s[i + 1];
      BmpLength(s[1..]);
    }
  }

  /** Three emoji are six code units: `"\u{1F600}".repeat(3).length === 6`. */
  lemma ThreeEmojiAreSixUnits()
    ensures Utf16Length("\U{1F600}\U{1F600}\U{1F600}") == 6
  {
    var s := "\U{1F600}\U{1F600}\U{1F600}";
    assert s[1..][1..][1..] == [];
  }

  predicate IsDigit(c: char)
  {
    '0' <= c <= '9'
  }

  predicate AllDigits(s: string)
  {
    forall i :: 0 <= i < |s| ==> IsDigit(s[i])
  }

  function DigitChar(d: nat): (c: char)
    requires d < 10
    ensures IsDigit(c)
  {
    ('0' as int + d) as char
  }

  function DigitValue(c: char): (d: nat)
    requires IsDigit(c)
    ensures d < 10
  {
    c as int - '0' as int
  }

  /**
   * `n.toString()` for a natural number below 10^21 (from there on JavaScript switches to
   * exponential notation): decimal digits, no leading zero.
   */
  function Decimal(n: nat): (s: string)
    ensures |s| >= 1 && AllDigits(s)
    ensures n > 0 ==> s[0] != '0'
    ensures n < 10 <==> |s| == 1
  {
    if n < 10 then [DigitChar(n)] else Decimal(n / 10) + [DigitChar(n % 10)]
  }

  /** The natural number a string of decimal digits denotes. */
  function DigitsValue(s: string): nat
    requires AllDigits(s)
  {
    if s == [] then 0 else DigitsValue(s[..|s| - 1]) * 10 + DigitValue(s[|s| - 1])
  }

  /** Reading back what `Decimal` prints yields the number: printing is injective. */
  lemma {:induction false} DecimalRoundTrip(n: nat)
    ensures DigitsValue(Decimal(n)) == n
  {
    if n >= 10 {
      DecimalRoundTrip(n / 10);
      var s := Decimal(n);
      assert s[..|s| - 1] == Decimal(n / 10);
    }
  }

  lemma DecimalInjective(a: nat, b: nat)
    ensures Decimal(a) == Decimal(b) <==> a == b
  {
    DecimalRoundTrip(a);
    DecimalRoundTrip(b);
  }

  function Pow10(k: nat): (p: nat)
    ensures p >= 1
  {
    if k == 0 then 1 else 10 * Pow10(k - 1)
  }

  /** A number with k + 1 digits prints as k + 1 characters. */
  lemma {:induction false} DecimalLength(n: nat, k: nat)
    requires Pow10(k) <= n < Pow10(k + 1)
    ensures |Decimal(n)| == k + 1
  {
    if k > 0 {
      assert Pow10(k) == 10 * Pow10(k - 1);
      assert Pow10(k + 1) == 10 * Pow10(k);
      DecimalLength(n / 10, k - 1);
    }
  }

  /** The shape of every code the server issues: six decimal digits, the first not zero. */
  predicate IsOtpCode(s: string)
  {
    |s| == 6 && AllDigits(s) && s[0] != '0'
  }

  /** `Math.floor(100000 + Math.random() * 900000).toString()` always has the OTP shape. */
  lemma SixDigitCode(n: nat)
    requires 100000 <= n <= 999999
    ensures IsOtpCode(Decimal(n))
  {
    assert Pow10(5) == 100000 && Pow10(6) == 1000000;
    DecimalLength(n, 5);
  }

  // ---- isNaN on strings: the StringNumericLiteral grammar of ECMAScript, section 7.1.4.1.1 ----

  /** Number of leading decimal digits. */
  function DigitRun(s: string): (k: nat)
    ensures k <= |s| && AllDigits(s[..k])
    ensures k < |s| ==> !IsDigit(s[k])
  {
    if |s| > 0 && IsDigit(s[0]) then
      assert s[..1 + DigitRun(s[1..])] == [s[0]] + s[1..][..DigitRun(s[1..])];
      1 + DigitRun(s[1..])
    else 0
  }

  predicate IsSign(c: char)
  {
    c == '+' || c == '-'
  }

  /** ExponentPart, or nothing. */
  predicate OptionalExponent(s: string)
  {
    s == [] ||
    (|s| >= 2 && (s[0] == 'e' || s[0] == 'E') &&
     var t := if IsSign(s[1]) then s[2..] else s[1..];
     |t| > 0 && AllDigits(t))
  }

  /** Digits and optional exponent after a decimal point; `atLeastOne` demands a digit. */
  predicate Fraction(s: string, atLeastOne: bool)
  {
    var k := DigitRun(s);
    (!atLeastOne || k > 0) && OptionalExponent(s[k..])
  }

  /** StrUnsignedDecimalLiteral */
  predicate UnsignedDecimal(s: string)
  {
    s == "Infinity" ||
    (var k := DigitRun(s);
     if k > 0 then
       OptionalExponent(s[k..]) || (k < |s| && s[k] == '.' && Fraction(s[k + 1..], false))
     else
       |s| > 0 && s[0] == '.' && Fraction(s[1..], true))
  }

  /** StrDecimalLiteral */
  predicate DecimalLiteral(s: string)
  {
    UnsignedDecimal(s) || (|s| > 0 && IsSign(s[0]) && UnsignedDecimal(s[1..]))
  }

  predicate IsHexDigit(c: char)
  {
    IsDigit(c) || ('a' <= c <= 'f') || ('A' <= c <= 'F')
  }

  /** NonDecimalIntegerLiteral: 0x, 0o or 0b followed by at least one digit of that base. */
  predicate NonDecimalInteger(s: string)
  {
    |s| >= 3 && s[0] == '0' &&
    var body := s[2..];
    if s[1] == 'x' || s[1] == 'X' then forall i :: 0 <= i < |body| ==> IsHexDigit(body[i])
    else if s[1] == 'o' || s[1] == 'O' then forall i :: 0 <= i < |body| ==> '0' <= body[i] <= '7'
    else if s[1] == 'b' || s[1] == 'B' then forall i :: 0 <= i < |body| ==> body[i] == '0' || body[i] == '1'
    else false
  }

  /** A non-empty string of decimal digits is already trimmed and reads as a decimal literal. */
  lemma DigitsAreDecimal(s: string)
    ensures AllDigits(s) && s != [] ==> Trim(s) == s && UnsignedDecimal(s)
  {
    if AllDigits(s) && s != [] {
      assert FirstNonBlank(s, 0) == 0 && EndNonBlank(s, |s|) == |s|;
      assert s[0..|s|] == s;
      assert DigitRun(s) == |s|;
      assert s[|s|..] == [];
    }
  }

  /**
   * `isNaN(s)` for a string `s`: `Number(s)` is NaN exactly when s is not a StringNumericLiteral.
   * A blank string is a number (0), and so is every string of decimal digits.
   */
  predicate IsNaN(s: string)
    ensures IsNaN(s) ==> exists i :: 0 <= i < |s| && !IsWhiteSpace(s[i])
    ensures AllDigits(s) ==> !IsNaN(s)
  {
    DigitsAreDecimal(s);
    var t := Trim(s);
    !(t == "" || DecimalLiteral(t) || NonDecimalInteger(t))
  }

  /**
   * For a one-character input (what a `maxLength="1"` field delivers) the gate lets through
   * exactly the decimal digits and the white-space characters, which `Number` reads as 0.
   */
  lemma {:induction false} SingleCharacterGate(c: char)
    ensures !IsNaN([c]) <==> IsDigit(c) || IsWhiteSpace(c)
  {
    var s := [c];
    if IsWhiteSpace(c) {
      TrimEmptyIffBlank(s);
    } else {
      assert FirstNonBlank(s, 0) == 0 && EndNonBlank(s, |s|) == |s|;
      assert s[0..|s|] == s;
      assert Trim(s) == s;
      if IsDigit(c) {
        assert DigitRun(s) == 1;
        assert s[1..] == [];
        assert UnsignedDecimal(s);
      } else {
        assert DigitRun(s) == 0;
        assert s != "Infinity";
        assert s[1..] == [];
        assert !UnsignedDecimal(s);
        assert !UnsignedDecimal(s[1..]);
        assert !NonDecimalInteger(s);
      }
    }
  }

  // ---- every numeric string is on the Basic Multilingual Plane ----

  /** Every character is below U+0080. */
  predicate Ascii(s: string)
  {
    forall i :: 0 <= i < |s| ==> s[i] as int < 0x80
  }

  /** Every character is a single UTF-16 code unit. */
  predicate Bmp(s: string)
  {
    forall i :: 0 <= i < |s| ==> s[i] as int <= 0xFFFF
  }

  /** A string is ASCII when both parts of any split of it are. */
  lemma AsciiSplit(s: string, k: nat)
    requires k <= |s| && Ascii(s[..k]) && Ascii(s[k..])
    ensures Ascii(s)
  {
    assert forall i :: 0 <= i < k ==> s[i] == s[..k][i];
    assert forall i :: k <= i < |s| ==> s[i] == s[k..][i - k];
  }

  lemma ExponentAscii(s: string)
    requires OptionalExponent(s)
    ensures Ascii(s)
  {
    if s != [] {
      var j := if IsSign(s[1]) then 2 else 1;
      assert Ascii(s[..j]);
      AsciiSplit(s, j);
    }
  }

  lemma FractionAscii(s: string, atLeastOne: bool)
    requires Fraction(s, atLeastOne)
    ensures Ascii(s)
  {
    var k := DigitRun(s);
    ExponentAscii(s[k..]);
    AsciiSplit(s, k);
  }

  lemma PointAscii(s: string, atLeastOne: bool)
    requires |s| > 0 && s[0] == '.' && Fraction(s[1..], atLeastOne)
    ensures Ascii(s)
  {
    FractionAscii(s[1..], atLeastOne);
    AsciiSplit(s, 1);
  }

  lemma UnsignedAscii(s: string)
    requires UnsignedDecimal(s)
    ensures Ascii(s)
  {
    if s == "Infinity" {
      InfinityAscii();
    } else if DigitRun(s) == 0 {
      PointAscii(s, true);
    } else {
      LeadingDigitsAscii(s, DigitRun(s));
    }
  }

  lemma InfinityAscii()
    ensures Ascii("Infinity")
  {
  }

  /** Digits followed by an optional exponent, or by a point and a fraction. */
  lemma LeadingDigitsAscii(s: string, k: nat)
    requires k <= |s| && AllDigits(s[..k])
    requires OptionalExponent(s[k..]) || (k < |s| && s[k] == '.' && Fraction(s[k + 1..], false))
    ensures Ascii(s)
  {
    var rest := s[k..];
    assert Ascii(s[..k]);
    if OptionalExponent(rest) {
      ExponentAscii(rest);
    } else {
      assert rest[1..] == s[k + 1..];
      PointAscii(rest, false);
    }
    AsciiSplit(s, k);
  }


  lemma NumericLiteralAscii(s: string)
    requires DecimalLiteral(s) || NonDecimalInteger(s)
    ensures Ascii(s)
  {
    if UnsignedDecimal(s) {
      UnsignedAscii(s);
    } else if DecimalLiteral(s) {
      UnsignedAscii(s[1..]);
      AsciiSplit(s, 1);
    } else {
      assert Ascii(s[2..]);
      AsciiSplit(s, 2);
    }
  }

  /**
   * A string `isNaN` lets through holds no character beyond the Basic Multilingual Plane:
   * it is white space around a numeric literal, which is ASCII.
   */
  lemma NumberIsBmp(s: string)
    requires !IsNaN(s)
    ensures Bmp(s)
  {
    var t := Trim(s);
    var k := FirstNonBlank(s, 0);
    if t != "" {
      NumericLiteralAscii(t);
    }
    assert Bmp(t);
    var rest := s[k..];
    assert rest[..|t|] == t && rest[|t|..] == s[k + |t|..];
    BlankIsBmp(s[k + |t|..]);
    BmpSplit(rest, |t|);
    BlankIsBmp(s[..k]);
    BmpSplit(s, k);
  }

  lemma BlankIsBmp(s: string)
    requires Blank(s)
    ensures Bmp(s)
  {
  }

  /** A string is on the Basic Multilingual Plane when both parts of any split of it are. */
  lemma BmpSplit(s: string, k: nat)
    requires k <= |s| && Bmp(s[..k]) && Bmp(s[k..])
    ensures Bmp(s)
  {
    assert forall i :: 0 <= i < k ==> s[i] == s[..k][i];
    assert forall i :: k <= i < |s| ==> s[i] == s[k..][i - k];
  }

  /** The empty string is not NaN (`Number("")` is 0), so clearing a slot passes the gate. */
  lemma EmptyIsNumber()
    ensures !IsNaN("")
  {
  }
}

/**
 * `parseInt(string, 10)` from section 19.2.5 of ECMA-262 (ECMAScript), the
 * conversion applied to the `csproj_depth` input: leading white space is
 * trimmed, one optional sign is taken, and the longest run of decimal digits
 * that follows is the value. No digit at all gives NaN.
 */
module JsParseInt {

  /** A JavaScript number as `parseInt` can produce it with radix 10: NaN or an integer. */
  datatype IntOrNaN = NaN | Int(value: int)

  predicate IsDecimalDigit(c: char) {
    '0' <= c <= '9'
  }

  predicate AllDigits(s: string) {
    forall i :: 0 <= i < |s| ==> IsDecimalDigit(s[i])
  }

  /**
   * The code points TrimString removes: WhiteSpace (TAB, VT, FF, ZWNBSP and the
   * Unicode category Zs) and LineTerminator (LF, CR, LS, PS), sections 12.2 and
   * 12.3 of ECMA-262.
   */
  predicate IsStrWhiteSpaceChar(c: char) {
    || c == '\t' || c == '\n' || c == '\U{000B}' || c == '\U{000C}' || c == '\r'
    || c == ' ' || c == '\U{00A0}' || c == '\U{1680}'
    || ('\U{2000}' <= c <= '\U{200A}')
    || c == '\U{2028}' || c == '\U{2029}' || c == '\U{202F}' || c == '\U{205F}'
    || c == '\U{3000}' || c == '\U{FEFF}'
  }

  predicate AllWhiteSpace(s: string) {
    forall i :: 0 <= i < |s| ==> IsStrWhiteSpaceChar(s[i])
  }

  /** TrimString(s, start): drops the leading white space and nothing else. */
  function TrimStart(s: string): string {
    if s != [] && IsStrWhiteSpaceChar(s[0]) then TrimStart(s[1..]) else s
  }

  /** The longest prefix of `s` made of decimal digits. */
  function DigitPrefix(s: string): string {
    if s != [] && IsDecimalDigit(s[0]) then [s[0]] + DigitPrefix(s[1..]) else []
  }

  function DigitValue(c: char): (v: nat)
    requires IsDecimalDigit(c)
    ensures v < 10
  {
    c as int - '0' as int
  }

  /** The mathematical value of a string of decimal digits, most significant first. */
  function DigitsValue(d: string): nat
    requires AllDigits(d)
  {
    if d == [] then 0 else DigitsValue(d[..|d| - 1]) * 10 + DigitValue(d[|d| - 1])
  }

  /** A digit, or one sign followed by a digit: what a number must start with. */
  predicate StartsWithNumber(t: string) {
    || (t != [] && IsDecimalDigit(t[0]))
    || (|t| >= 2 && (t[0] == '+' || t[0] == '-') && IsDecimalDigit(t[1]))
  }

  /**
   * `parseInt(s, 10)`: trim the leading white space, then read a signed digit
   * run. A string of white space alone, the empty string among them, is NaN.
   */
  function ParseInt(s: string): (r: IntOrNaN)
    ensures r.Int? <==> StartsWithNumber(TrimStart(s))
    ensures AllWhiteSpace(s) ==> r == NaN
  {
    TrimStartSpec(s);
    ParseSigned(TrimStart(s))
  }

  /**
   * Steps 4 to 16 of `parseInt`: one optional sign, then the longest digit run.
   * There is a number exactly when the text starts with one, and it is
   * negative only after a minus sign.
   */
  function ParseSigned(t: string): (r: IntOrNaN)
    ensures r.Int? <==> StartsWithNumber(t)
    ensures r.Int? ==> (r.value < 0 ==> t[0] == '-') && (t[0] == '-' ==> r.value <= 0)
  {
    var negative := t != [] && t[0] == '-';
    var unsigned := if t != [] && (t[0] == '-' || t[0] == '+') then t[1..] else t;
    var digits := DigitPrefix(unsigned);
    DigitPrefixSpec(unsigned);
    if digits == [] then NaN
    else
      var v: int := DigitsValue(digits);
      Int(if negative then -v else v)
  }

  // ---------------------------------------------------------------------------
  // An independent rendering of integers in decimal, used to state what
  // ParseInt reads back.

  function DigitChar(v: nat): (c: char)
    requires v < 10
    ensures IsDecimalDigit(c) && DigitValue(c) == v
  {
    (v + '0' as int) as char
  }

  /** The shortest decimal digit string of `n` (no leading zeros). */
  function DecimalDigits(n: nat): (d: string)
    ensures d != [] && AllDigits(d)
    ensures |d| > 1 ==> d[0] != '0'
  {
    if n < 10 then [DigitChar(n)] else DecimalDigits(n / 10) + [DigitChar(n % 10)]
  }

  /** `n` written in decimal, with a minus sign when negative. */
  function DecimalString(n: int): string {
    if n < 0 then "-" + DecimalDigits(-n) else DecimalDigits(n)
  }

  /** The sign `parseInt` accepts in front of the digits: none, "+" or "-". */
  datatype Sign = NoSign | Plus | Minus

  function SignText(sign: Sign): string {
    match sign
    case NoSign => ""
    case Plus => "+"
    case Minus => "-"
  }

  function ApplySign(sign: Sign, n: nat): int {
    if sign == Minus then -(n as int) else n
  }

  // ---------------------------------------------------------------------------
  // Lemmas

  /** TrimStart removes a white-space prefix, and the longest one. */
  lemma {:induction false} TrimStartSpec(s: string)
    ensures var r := TrimStart(s);
      && |r| <= |s| && r == s[|s| - |r|..]
      && AllWhiteSpace(s[..|s| - |r|])
      && (r == [] || !IsStrWhiteSpaceChar(r[0]))
  {
    if s != [] && IsStrWhiteSpaceChar(s[0]) {
      TrimStartSpec(s[1..]);
      var r := TrimStart(s);
      assert s[..|s| - |r|] == [s[0]] + s[1..][..|s| - 1 - |r|];
    }
  }

  /** DigitPrefix is a prefix of its argument, made of digits, and the longest one. */
  lemma {:induction false} DigitPrefixSpec(s: string)
    ensures var d := DigitPrefix(s);
      && d <= s
      && AllDigits(d)
      && (|d| == |s| || !IsDecimalDigit(s[|d|]))
  {
    if s != [] && IsDecimalDigit(s[0]) {
      DigitPrefixSpec(s[1..]);
    }
  }

  /** Appending one digit multiplies by ten and adds it. */
  lemma DigitsValueSnoc(d: string, c: char)
    requires AllDigits(d) && IsDecimalDigit(c)
    ensures AllDigits(d + [c])
    ensures DigitsValue(d + [c]) == DigitsValue(d) * 10 + DigitValue(c)
  {
  }

  /** Reading the decimal digits of `n` gives back `n`. */
  lemma {:induction false} DigitsValueOfDecimalDigits(n: nat)
    ensures DigitsValue(DecimalDigits(n)) == n
  {
    if n >= 10 {
      DigitsValueOfDecimalDigits(n / 10);
      DigitsValueSnoc(DecimalDigits(n / 10), DigitChar(n % 10));
    }
  }

  /** The digit run stops exactly where the digits of `d` end. */
  lemma {:induction false} DigitPrefixOfDigits(d: string, t: string)
    requires AllDigits(d)
    requires t == [] || !IsDecimalDigit(t[0])
    ensures DigitPrefix(d + t) == d
  {
    if d != [] {
      assert (d + t)[1..] == d[1..] + t;
      DigitPrefixOfDigits(d[1..], t);
    }
  }

  /** Trimming skips exactly a white-space prefix that is followed by something else. */
  lemma {:induction false} TrimStartOfWhiteSpace(w: string, t: string)
    requires AllWhiteSpace(w)
    requires t == [] || !IsStrWhiteSpaceChar(t[0])
    ensures TrimStart(w + t) == t
  {
    if w != [] {
      assert (w + t)[1..] == w[1..] + t;
      TrimStartOfWhiteSpace(w[1..], t);
    }
  }

  /**
   * What `parseInt` reads from a string of the shape
   * white space, optional sign, digits, anything not starting with a digit:
   * the signed value of the digits, whatever follows them.
   */
  lemma ParseIntOfNumeral(w: string, sign: Sign, d: string, t: string)
    requires AllWhiteSpace(w)
    requires d != [] && AllDigits(d)
    requires t == [] || !IsDecimalDigit(t[0])
    ensures ParseInt(w + SignText(sign) + d + t) == Int(ApplySign(sign, DigitsValue(d)))
  {
    var rest := SignText(sign) + d + t;
    assert w + SignText(sign) + d + t == w + rest;
    assert rest[0] == if sign == NoSign then d[0] else SignText(sign)[0];
    TrimStartOfWhiteSpace(w, rest);
    ParseSignedOfNumeral(sign, d, t);
  }

  lemma ParseSignedOfNumeral(sign: Sign, d: string, t: string)
    requires d != [] && AllDigits(d)
    requires t == [] || !IsDecimalDigit(t[0])
    ensures ParseSigned(SignText(sign) + d + t) == Int(ApplySign(sign, DigitsValue(d)))
  {
    match sign
    case NoSign =>
      assert SignText(sign) + d + t == d + t;
      ParseSignedOfDigits(d, t);
    case Plus =>
      ParseSignedOfSignedDigits('+', d, t);
    case Minus =>
      ParseSignedOfSignedDigits('-', d, t);
  }

  lemma ParseSignedOfDigits(d: string, t: string)
    requires d != [] && AllDigits(d)
    requires t == [] || !IsDecimalDigit(t[0])
    ensures ParseSigned(d + t) == Int(DigitsValue(d))
  {
    DigitPrefixOfDigits(d, t);
    assert (d + t)[0] == d[0];
  }

  lemma ParseSignedOfSignedDigits(c: char, d: string, t: string)
    requires c == '+' || c == '-'
    requires d != [] && AllDigits(d)
    requires t == [] || !IsDecimalDigit(t[0])
    ensures ParseSigned([c] + d + t) == Int(if c == '-' then -(DigitsValue(d) as int) else DigitsValue(d))
  {
    DigitPrefixOfDigits(d, t);
    assert ([c] + d + t)[1..] == d + t;
  }

  /**
   * When the first character after the white space and the optional sign is
   * not a digit, `parseInt` gives NaN rather than any number.
   */
  lemma ParseIntOfNonNumeral(w: string, sign: Sign, t: string)
    requires AllWhiteSpace(w)
    requires t == [] || !IsDecimalDigit(t[0])
    requires sign == NoSign && t != [] ==> !IsStrWhiteSpaceChar(t[0]) && t[0] != '+' && t[0] != '-'
    ensures ParseInt(w + SignText(sign) + t) == NaN
  {
    var rest := SignText(sign) + t;
    assert w + SignText(sign) + t == w + rest;
    TrimStartOfWhiteSpace(w, rest);
    match sign
    case NoSign =>
      assert rest == t;
    case Plus =>
      assert rest[1..] == t;
    case Minus =>
      assert rest[1..] == t;
  }

  /** Round trip: `parseInt` reads back the decimal rendering of any integer, ignoring a non-digit tail. */
  lemma ParseIntOfDecimalString(n: int, t: string)
    requires t == [] || !IsDecimalDigit(t[0])
    ensures ParseInt(DecimalString(n) + t) == Int(n)
  {
    var sign := if n < 0 then Minus else NoSign;
    var m: nat := if n < 0 then -n else n;
    ParseIntOfSignedDecimal(sign, m, t);
    assert DecimalString(n) == SignText(sign) + DecimalDigits(m);
  }

  lemma ParseIntOfSignedDecimal(sign: Sign, m: nat, t: string)
    requires t == [] || !IsDecimalDigit(t[0])
    ensures ParseInt(SignText(sign) + DecimalDigits(m) + t) == Int(ApplySign(sign, m))
  {
    var d := DecimalDigits(m);
    DigitsValueOfDecimalDigits(m);
    assert DigitsValue(d) == m;
    ParseIntOfNumeral([], sign, d, t);
    assert [] + SignText(sign) + d + t == SignText(sign) + d + t;
  }
}

/**
 * The JavaScript values the client's callers pass, and the coercions the
 * client applies to them: truthiness (`!x`), `String(x)`, `Number(x)` (which
 * `isNaN` and the relational operators use) and `parseInt`.
 */
module JsValues {
  import opened Wrappers
  import opened JsStrings

  /**
   * An argument as a caller passes it. `Undefined` is also what a parameter
   * holds when the caller leaves it out. Numbers are integers here.
   */
  datatype JsValue = Undefined | Null | Str(s: string) | Int(n: int)

  /** ToBoolean: `!v` is `!Truthy(v)`. */
  predicate Truthy(v: JsValue) {
    match v
    case Undefined => false
    case Null => false
    case Str(s) => s != ""
    case Int(n) => n != 0
  }

  /** A parameter with default `d`: the default replaces only an absent (undefined) argument. */
  function WithDefault(v: JsValue, d: JsValue): JsValue {
    if v.Undefined? then d else v
  }

  // ----- Decimal digits -----

  predicate IsDigit(c: char) {
    '0' <= c <= '9'
  }

  predicate AllDigits(s: string) {
    forall i :: 0 <= i < |s| ==> IsDigit(s[i])
  }

  function DigitValue(c: char): nat
    requires IsDigit(c)
  {
    c as int - '0' as int
  }

  function DigitChar(d: nat): (c: char)
    requires d < 10
    ensures IsDigit(c) && DigitValue(c) == d
  {
    ('0' as int + d) as char
  }

  /** The value of a string of decimal digits, most significant first. */
  function DigitsValue(s: string): nat
    requires AllDigits(s)
    decreases |s|
  {
    if s == [] then 0 else DigitsValue(s[..|s| - 1]) * 10 + DigitValue(s[|s| - 1])
  }

  function Pow10(k: nat): (r: nat)
    ensures r > 0
  {
    if k == 0 then 1 else 10 * Pow10(k - 1)
  }

  /** The decimal numeral of `n`, without leading zeros; reading it back gives `n`. */
  function NatToString(n: nat): (r: string)
    ensures |r| > 0 && AllDigits(r) && DigitsValue(r) == n
    ensures r[0] == '0' ==> n == 0
    decreases n
  {
    if n < 10 then [DigitChar(n)]
    else
      var r := NatToString(n / 10) + [DigitChar(n % 10)];
      assert r[..|r| - 1] == NatToString(n / 10);
      r
  }

  /** Number::toString for an integer below 10^21 in magnitude. */
  function IntToString(n: int): string {
    if n < 0 then "-" + NatToString(-n) else NatToString(n)
  }

  /** `String(v)`, which is also how `replace` turns its replacement value into text. */
  function ToStr(v: JsValue): string {
    match v
    case Undefined => "undefined"
    case Null => "null"
    case Str(s) => s
    case Int(n) => IntToString(n)
  }

  // ----- White space, as StringToNumber and parseInt skip it -----

  /** WhiteSpace or LineTerminator (sections 12.2 and 12.3 of ECMA-262). */
  predicate IsJsWhitespace(c: char) {
    c == '\t' || c == '\U{000B}' || c == '\U{000C}' || c == ' ' || c == '\U{00A0}' || c == '\U{FEFF}'
    || c == '\n' || c == '\r' || c == '\U{2028}' || c == '\U{2029}'
    || c == '\U{1680}' || ('\U{2000}' <= c <= '\U{200A}') || c == '\U{202F}' || c == '\U{205F}' || c == '\U{3000}'
  }

  /** Removes leading white space: the result is the suffix of `s` from its first other character. */
  function TrimStart(s: string): (r: string)
    ensures |r| <= |s| && r == s[|s| - |r|..]
    ensures forall i :: 0 <= i < |s| - |r| ==> IsJsWhitespace(s[i])
    ensures r == [] || !IsJsWhitespace(r[0])
    decreases |s|
  {
    if s != [] && IsJsWhitespace(s[0]) then TrimStart(s[1..]) else s
  }

  /** Removes trailing white space: the result is the prefix of `s` up to its last other character. */
  function TrimEnd(s: string): (r: string)
    ensures |r| <= |s| && r == s[..|r|]
    ensures forall i :: |r| <= i < |s| ==> IsJsWhitespace(s[i])
    ensures r == [] || !IsJsWhitespace(r[|r| - 1])
    decreases |s|
  {
    if s != [] && IsJsWhitespace(s[|s| - 1]) then TrimEnd(s[..|s| - 1]) else s
  }

  // ----- Number(v) -----

  /** A character that can appear in a string `Number` accepts, as modelled here. */
  predicate NumberChar(c: char) {
    IsJsWhitespace(c) || IsDigit(c) || c == '+' || c == '-' || c == '.'
  }

  /** `digits`, `digits.`, `digits.digits` or `.digits`, without sign or exponent. */
  function UnsignedDecimal(u: string): (r: Option<real>)
    ensures r.Some? ==> forall i :: 0 <= i < |u| ==> IsDigit(u[i]) || u[i] == '.'
    ensures AllDigits(u) && |u| > 0 ==> r == Some(DigitsValue(u) as real)
  {
    match IndexOf(u, ".")
    case None =>
      if |u| > 0 && AllDigits(u) then Some(DigitsValue(u) as real) else None
    case Some(k) =>
      assert u[k] == u[k..k + 1][0] == '.';
      var whole, fraction := u[..k], u[k + 1..];
      if AllDigits(whole) && AllDigits(fraction) && |whole| + |fraction| > 0 then
        assert forall i :: 0 <= i < |u| ==> IsDigit(u[i]) || u[i] == '.' by {
          forall i | 0 <= i < |u| ensures IsDigit(u[i]) || u[i] == '.' {
            if i < k { assert u[i] == whole[i]; }
            else if i > k { assert u[i] == fraction[i - k - 1]; }
          }
        }
        Some(DigitsValue(whole) as real + DigitsValue(fraction) as real / Pow10(|fraction|) as real)
      else None
  }

  /** An unsigned decimal, optionally preceded by `+` or `-`. */
  function SignedDecimal(t: string): (r: Option<real>)
    ensures r.Some? ==> forall i :: 0 <= i < |t| ==> NumberChar(t[i])
    ensures AllDigits(t) && |t| > 0 ==> r == Some(DigitsValue(t) as real)
  {
    if |t| > 0 && (t[0] == '-' || t[0] == '+') then
      var u := t[1..];
      match UnsignedDecimal(u)
      case None => None
      case Some(x) =>
        assert forall i :: 0 < i < |t| ==> t[i] == u[i - 1];
        Some(if t[0] == '-' then -x else x)
    else
      UnsignedDecimal(t)
  }

  /**
   * StringToNumber: white space around the numeral is ignored and an empty
   * or all-blank string is 0; None stands for NaN.
   */
  function StringToNumber(s: string): Option<real> {
    var t := TrimEnd(TrimStart(s));
    if t == [] then Some(0.0) else SignedDecimal(t)
  }

  /** `Number(v)`; None stands for NaN. */
  function ToNumber(v: JsValue): Option<real> {
    match v
    case Undefined => None
    case Null => Some(0.0)
    case Str(s) => StringToNumber(s)
    case Int(n) => Some(n as real)
  }

  /** The global `isNaN(v)`. */
  predicate IsNaN(v: JsValue) {
    ToNumber(v).None?
  }

  /**
   * The range test as the client writes it, `x < lo || x > hi`. Every
   * comparison with NaN is false, so NaN is never out of range; the client
   * always tests `isNaN` first.
   */
  predicate OutOfRange(x: Option<real>, lo: int, hi: int) {
    x.Some? && (x.value < lo as real || x.value > hi as real)
  }

  /** A number, not NaN, from `lo` to `hi`: what passing both the `isNaN` and the range test means. */
  predicate Within(x: Option<real>, lo: int, hi: int) {
    x.Some? && lo as real <= x.value <= hi as real
  }

  // ----- parseInt(s) -----

  predicate IsHexDigit(c: char) {
    IsDigit(c) || ('a' <= c <= 'f') || ('A' <= c <= 'F')
  }

  function HexDigitValue(c: char): nat
    requires IsHexDigit(c)
  {
    if IsDigit(c) then DigitValue(c)
    else if 'a' <= c <= 'f' then c as int - 'a' as int + 10
    else c as int - 'A' as int + 10
  }

  predicate AllHexDigits(s: string) {
    forall i :: 0 <= i < |s| ==> IsHexDigit(s[i])
  }

  function HexDigitsValue(s: string): nat
    requires AllHexDigits(s)
    decreases |s|
  {
    if s == [] then 0 else HexDigitsValue(s[..|s| - 1]) * 16 + HexDigitValue(s[|s| - 1])
  }

  /** The longest prefix of `s` made of decimal digits. */
  function LeadingDigits(s: string): (r: string)
    ensures |r| <= |s| && r == s[..|r|] && AllDigits(r)
    ensures |r| == |s| || !IsDigit(s[|r|])
    decreases |s|
  {
    if s != [] && IsDigit(s[0]) then
      var r := [s[0]] + LeadingDigits(s[1..]);
      assert r[1..] == LeadingDigits(s[1..]);
      r
    else []
  }

  /** The longest prefix of `s` made of hexadecimal digits. */
  function LeadingHexDigits(s: string): (r: string)
    ensures |r| <= |s| && r == s[..|r|] && AllHexDigits(r)
    ensures |r| == |s| || !IsHexDigit(s[|r|])
    decreases |s|
  {
    if s != [] && IsHexDigit(s[0]) then
      var r := [s[0]] + LeadingHexDigits(s[1..]);
      assert r[1..] == LeadingHexDigits(s[1..]);
      r
    else []
  }

  /**
   * `parseInt(s)` with no radix (section 19.2.5 of ECMA-262): leading white
   * space is skipped, a sign is read, a `0x` or `0X` prefix selects base 16,
   * and the longest run of digits that follows is the value; None (NaN) when
   * that run is empty.
   */
  function ParseInt(s: string): Option<int> {
    ParseSigned(TrimStart(s))
  }

  /** The sign, then the magnitude, of a `parseInt` numeral. */
  function ParseSigned(t: string): Option<int> {
    if |t| > 0 && (t[0] == '-' || t[0] == '+') then
      match ParseMagnitude(t[1..])
      case None => None
      case Some(m) =>
        var signed: int := if t[0] == '-' then -(m as int) else m;
        Some(signed)
    else
      ParseMagnitude(t)
  }

  /** The digits of a `parseInt` numeral, hexadecimal after `0x` or `0X`. */
  function ParseMagnitude(u: string): Option<nat> {
    if |u| >= 2 && u[0] == '0' && (u[1] == 'x' || u[1] == 'X') then
      var h := LeadingHexDigits(u[2..]);
      if h == [] then None else Some(HexDigitsValue(h))
    else
      var d := LeadingDigits(u);
      if d == [] then None else Some(DigitsValue(d))
  }

  // ----- Properties -----

  /** `Number(String(n))` is `n`: an integer's numeral reads back as that integer. */
  lemma NumberOfIntString(n: int)
    ensures StringToNumber(IntToString(n)) == Some(n as real)
  {
    var m: nat := if n < 0 then -n else n;
    var d := NatToString(m);
    NoWhitespaceTrims(IntToString(n));
    if n < 0 {
      var t := "-" + d;
      assert t[1..] == d;
      assert UnsignedDecimal(d) == Some(m as real);
    }
  }

  /** A string that neither starts nor ends with white space is its own trimmed form. */
  lemma NoWhitespaceTrims(t: string)
    requires t != [] && !IsJsWhitespace(t[0]) && !IsJsWhitespace(t[|t| - 1])
    ensures TrimEnd(TrimStart(t)) == t
  {
  }

  /** Every character of a string that `Number` accepts is white space, a digit, a sign or a point. */
  lemma NumericStringChars(s: string)
    requires StringToNumber(s).Some?
    ensures forall i :: 0 <= i < |s| ==> NumberChar(s[i])
  {
    var t0 := TrimStart(s);
    var t := TrimEnd(t0);
    var lead := |s| - |t0|;
    forall i | 0 <= i < |s| ensures NumberChar(s[i]) {
      if i >= lead {
        assert s[i] == t0[i - lead];
        if i - lead < |t| {
          assert t0[i - lead] == t[i - lead];
        }
      }
    }
  }

  /** `parseInt` of a non-empty string of decimal digits is their value. */
  lemma ParseIntOfDigits(s: string)
    requires |s| > 0 && AllDigits(s)
    ensures ParseInt(s) == Some(DigitsValue(s))
  {
    DigitIsPlain(s[0]);
    TrimStartOfPlain(s);
    ParseSignedUnsigned(s);
    MagnitudeOfDigits(s);
  }

  lemma DigitIsPlain(c: char)
    requires IsDigit(c)
    ensures !IsJsWhitespace(c) && c != '+' && c != '-'
  {
  }

  lemma TrimStartOfPlain(s: string)
    requires s != [] && !IsJsWhitespace(s[0])
    ensures TrimStart(s) == s
  {
  }

  lemma ParseSignedUnsigned(t: string)
    requires t != [] && t[0] != '+' && t[0] != '-'
    ensures ParseSigned(t) == ParseMagnitude(t)
  {
  }

  lemma MagnitudeOfDigits(u: string)
    requires |u| > 0 && AllDigits(u)
    ensures ParseMagnitude(u) == Some(DigitsValue(u))
  {
    assert |u| >= 2 ==> IsDigit(u[1]);
    LeadingDigitsOfDigits(u);
  }

  lemma LeadingDigitsOfDigits(s: string)
    requires AllDigits(s)
    ensures LeadingDigits(s) == s
  {
    var d := LeadingDigits(s);
    assert d == s[..|s|];
  }

  /** A numeral that does not start with `0` has a positive value. */
  lemma {:induction false} LeadingDigitPositive(s: string)
    requires |s| > 0 && AllDigits(s) && s[0] != '0'
    ensures DigitsValue(s) > 0
    decreases |s|
  {
    if |s| > 1 {
      var p := s[..|s| - 1];
      assert p[0] == s[0];
      LeadingDigitPositive(p);
    }
  }

  /** Numerals without leading zeros are unique: the one `NatToString` writes is the only one. */
  lemma {:induction false} NatToStringCanonical(n: nat, s: string)
    requires |s| > 0 && AllDigits(s) && DigitsValue(s) == n
    requires s[0] != '0' || |s| == 1
    ensures NatToString(n) == s
    decreases |s|
  {
    var last := s[|s| - 1];
    if |s| == 1 {
      assert s == [DigitChar(n)];
    } else {
      var p := s[..|s| - 1];
      assert p[0] == s[0];
      LeadingDigitPositive(p);
      assert n / 10 == DigitsValue(p) && n % 10 == DigitValue(last);
      NatToStringCanonical(n / 10, p);
      assert DigitChar(n % 10) == last;
      assert s == p + [last];
    }
  }
}

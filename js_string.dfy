/** The parts of JavaScript's string semantics the core relies on: `trim`, truthiness of a
    trimmed string, ASCII case mapping, `String(n)` for integers, `BigInt(text)` and
    `Array.prototype.join`. */
module JsString {
  import opened Wrappers

  // ---------------------------------------------------------------------------
  // trim
  // ---------------------------------------------------------------------------

  /** WhiteSpace and LineTerminator code points of ECMA-262, the set `trim` removes. */
  predicate IsWhitespace(c: char) {
    || c == '\t' || c == '\n' || c == '\U{000B}' || c == '\U{000C}' || c == '\r'
    || c == ' ' || c == '\U{00A0}' || c == '\U{1680}' || ('\U{2000}' <= c <= '\U{200A}')
    || c == '\U{2028}' || c == '\U{2029}' || c == '\U{202F}' || c == '\U{205F}'
    || c == '\U{3000}' || c == '\U{FEFF}'
  }

  /** True when `s.trim()` is the empty string, i.e. `s.trim()` is falsy. */
  predicate IsBlank(s: string) {
    forall i :: 0 <= i < |s| ==> IsWhitespace(s[i])
  }

  function TrimStart(s: string): (r: string)
    ensures |r| <= |s| && r == s[|s| - |r|..]
    ensures r == [] || !IsWhitespace(r[0])
    ensures forall i :: 0 <= i < |s| - |r| ==> IsWhitespace(s[i])
  {
    if |s| > 0 && IsWhitespace(s[0]) then TrimStart(s[1..]) else s
  }

  function TrimEnd(s: string): (r: string)
    ensures |r| <= |s| && r == s[..|r|]
    ensures r == [] || !IsWhitespace(r[|r| - 1])
    ensures forall i :: |r| <= i < |s| ==> IsWhitespace(s[i])
  {
    if |s| > 0 && IsWhitespace(s[|s| - 1]) then TrimEnd(s[..|s| - 1]) else s
  }

  /** `String.prototype.trim`. */
  function Trim(s: string): string {
    TrimEnd(TrimStart(s))
  }

  /** `s.trim()` is empty exactly when every character of `s` is whitespace. */
  lemma TrimEmptyIffBlank(s: string)
    ensures Trim(s) == "" <==> IsBlank(s)
  {
    var t := TrimStart(s);
    if Trim(s) != "" {
      var r := Trim(s);
      assert !IsWhitespace(r[0]);
      assert r[0] == t[0] == s[|s| - |t|];
    }
  }

  /** A string with no whitespace at either end is its own trim. */
  lemma TrimUnpadded(s: string)
    requires s != [] ==> !IsWhitespace(s[0]) && !IsWhitespace(s[|s| - 1])
    ensures Trim(s) == s
  {
  }

  // ---------------------------------------------------------------------------
  // Case mapping (ASCII letters only)
  // ---------------------------------------------------------------------------

  function LowerChar(c: char): char {
    if 'A' <= c <= 'Z' then (c as int + 32) as char else c
  }

  function UpperChar(c: char): char {
    if 'a' <= c <= 'z' then (c as int - 32) as char else c
  }

  /** `String.prototype.toLowerCase`, restricted to ASCII letters. */
  function ToLowerCase(s: string): (r: string)
    ensures |r| == |s|
    ensures forall i :: 0 <= i < |s| ==> r[i] == LowerChar(s[i])
    ensures forall i :: 0 <= i < |s| ==> !('A' <= r[i] <= 'Z')
  {
    seq(|s|, i requires 0 <= i < |s| => LowerChar(s[i]))
  }

  /** Lower-casing twice is lower-casing once. */
  lemma ToLowerCaseIdempotent(s: string)
    ensures ToLowerCase(ToLowerCase(s)) == ToLowerCase(s)
  {
  }

  /** `s.charAt(0).toUpperCase() + s.slice(1)`. */
  function UpperFirst(s: string): (r: string)
    ensures |r| == |s|
    ensures s != [] ==> r[0] == UpperChar(s[0]) && r[1..] == s[1..]
  {
    if s == [] then [] else [UpperChar(s[0])] + s[1..]
  }

  // ---------------------------------------------------------------------------
  // Integers as decimal text: String(n) and BigInt(text)
  // ---------------------------------------------------------------------------

  predicate IsDecimalDigit(c: char) {
    '0' <= c <= '9'
  }

  function DigitChar(d: nat): (c: char)
    requires d < 10
    ensures IsDecimalDigit(c) && DigitValue(c) == d
  {
    ('0' as int + d) as char
  }

  /** The value of a digit in bases up to 16, or -1 for a character that is no digit. */
  function DigitValue(c: char): (v: int)
    ensures -1 <= v < 16
    ensures IsDecimalDigit(c) <==> 0 <= v < 10
  {
    if '0' <= c <= '9' then c as int - '0' as int
    else if 'a' <= c <= 'f' then c as int - 'a' as int + 10
    else if 'A' <= c <= 'F' then c as int - 'A' as int + 10
    else -1
  }

  predicate AllDigits(s: string, base: nat) {
    forall i :: 0 <= i < |s| ==> 0 <= DigitValue(s[i]) < base
  }

  /** The value of a digit string read most significant digit first. */
  function DigitsValue(s: string, base: nat): (v: nat)
    requires AllDigits(s, base)
  {
    if s == [] then 0 else DigitsValue(s[..|s| - 1], base) * base + DigitValue(s[|s| - 1])
  }

  /** `String(n)` for a non-negative integer: its decimal digits, without leading zeros. */
  function NatToString(n: nat): (r: string)
    ensures |r| >= 1 && AllDigits(r, 10)
    ensures |r| > 1 ==> r[0] != '0'
  {
    if n < 10 then [DigitChar(n)] else NatToString(n / 10) + [DigitChar(n % 10)]
  }

  /** `String(i)` for any integer. */
  function IntToString(i: int): (r: string)
    ensures r != [] && (r[0] == '-' || IsDecimalDigit(r[0])) && IsDecimalDigit(r[|r| - 1])
  {
    if i < 0 then "-" + NatToString(-i) else NatToString(i)
  }

  /** Reading back the digits `String(n)` writes gives `n`. */
  lemma {:induction false} DigitsValueOfNatToString(n: nat)
    ensures DigitsValue(NatToString(n), 10) == n
  {
    if n >= 10 {
      DigitsValueOfNatToString(n / 10);
      var s := NatToString(n);
      assert s[..|s| - 1] == NatToString(n / 10);
    }
  }

  function BigIntSyntaxError(s: string): string {
    "Cannot convert " + s + " to a BigInt"
  }

  /** The base a `0x`, `0o` or `0b` prefix announces. */
  function RadixOf(c: char): Option<nat> {
    if c == 'x' || c == 'X' then Some(16)
    else if c == 'o' || c == 'O' then Some(8)
    else if c == 'b' || c == 'B' then Some(2)
    else None
  }

  /** StringIntegerLiteral of ECMA-262 on text already trimmed: the empty text is 0, then a
      0x / 0o / 0b literal (without sign) or an optionally signed decimal literal. */
  function ParseIntegerLiteral(t: string): Option<int> {
    if t == [] then Some(0)
    else if |t| > 2 && t[0] == '0' && RadixOf(t[1]).Some? && AllDigits(t[2..], RadixOf(t[1]).value) then
      Some(DigitsValue(t[2..], RadixOf(t[1]).value))
    else if t[0] == '-' || t[0] == '+' then
      if |t| > 1 && AllDigits(t[1..], 10) then
        var v: int := DigitsValue(t[1..], 10);
        Some(if t[0] == '-' then -v else v)
      else None
    else if AllDigits(t, 10) then Some(DigitsValue(t, 10))
    else None
  }

  /** `BigInt(s)` for a string argument: surrounding whitespace is ignored; text that is no
      integer literal throws a SyntaxError. */
  function ParseBigInt(s: string): (r: Result<int>)
    ensures r.Err? ==> r.error == BigIntSyntaxError(s)
  {
    match ParseIntegerLiteral(Trim(s))
    case Some(v) => Ok(v)
    case None => Err(BigIntSyntaxError(s))
  }

  /** `BigInt` of blank text is 0. */
  lemma ParseBigIntOfBlank(s: string)
    requires IsBlank(s)
    ensures ParseBigInt(s) == Ok(0)
  {
    TrimEmptyIffBlank(s);
  }

  /** `BigInt(String(i)) === i`: the decimal text of an integer parses back to it. */
  lemma ParseBigIntOfIntToString(i: int)
    ensures ParseBigInt(IntToString(i)) == Ok(i)
  {
    var s := IntToString(i);
    IntToStringUnpadded(i);
    TrimUnpadded(s);
    if i < 0 {
      NegativeLiteral(-i);
    } else {
      NaturalLiteral(i);
    }
    assert ParseIntegerLiteral(Trim(s)) == Some(i);
  }

  /** `String(i)` starts and ends with no whitespace. */
  lemma IntToStringUnpadded(i: int)
    ensures !IsWhitespace(IntToString(i)[0]) && !IsWhitespace(IntToString(i)[|IntToString(i)| - 1])
  {
  }

  /** The digits of a natural number read as a decimal literal give the number. */
  lemma NaturalLiteral(n: nat)
    ensures ParseIntegerLiteral(NatToString(n)) == Some(n)
  {
    var s := NatToString(n);
    DigitsValueOfNatToString(n);
    assert !(|s| > 2 && s[0] == '0');
    assert s[0] != '-' && s[0] != '+';
  }

  /** A minus sign before the digits of a natural number gives its negation. */
  lemma NegativeLiteral(n: nat)
    ensures ParseIntegerLiteral("-" + NatToString(n)) == Some(-(n as int))
  {
    var s := "-" + NatToString(n);
    assert s[1..] == NatToString(n);
    DigitsValueOfNatToString(n);
    assert s[0] != '0';
  }

  // ---------------------------------------------------------------------------
  // join
  // ---------------------------------------------------------------------------

  /** `parts.join(sep)`. */
  function Join(parts: seq<string>, sep: string): string {
    if |parts| == 0 then ""
    else if |parts| == 1 then parts[0]
    else parts[0] + sep + Join(parts[1..], sep)
  }

  predicate IsInfix(part: string, whole: string) {
    exists k :: 0 <= k <= |whole| && part <= whole[k..]
  }

  /** Every joined part occurs in the joined text. */
  lemma {:induction false} JoinContainsEachPart(parts: seq<string>, sep: string, i: nat)
    requires i < |parts|
    ensures IsInfix(parts[i], Join(parts, sep))
  {
    var whole := Join(parts, sep);
    if i == 0 {
      assert parts[0] <= whole[0..];
    } else {
      JoinContainsEachPart(parts[1..], sep, i - 1);
      var rest := Join(parts[1..], sep);
      var k :| 0 <= k <= |rest| && parts[i] <= rest[k..];
      var k' := |parts[0] + sep| + k;
      assert whole == parts[0] + sep + rest;
      assert whole[k'..] == rest[k..];
    }
  }
}

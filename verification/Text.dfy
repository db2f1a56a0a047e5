/** String semantics of the JavaScript built-ins the components rely on:
    the `\s` and `\D` character classes, `toLowerCase`, `includes`,
    `String(n)` for integers, `padStart`, and whether `Number(s)` is a number. */
module Text {
  import opened Seqs

  /** JavaScript's `\s`: the WhiteSpace and LineTerminator code points. */
  predicate IsWhitespace(c: char) {
    var k := c as int;
    (9 <= k <= 13) || k == 32 || k == 0xA0 || k == 0x1680 || (0x2000 <= k <= 0x200A)
    || k == 0x2028 || k == 0x2029 || k == 0x202F || k == 0x205F || k == 0x3000 || k == 0xFEFF
  }

  predicate NoWhitespace(s: string) {
    forall i :: 0 <= i < |s| ==> !IsWhitespace(s[i])
  }

  /** `s.replace(/\s/g, '')`: the other characters of `s`, in order. */
  function StripWhitespace(s: string): (r: string)
    ensures NoWhitespace(r)
    ensures |r| <= |s|
  {
    if s == [] then []
    else (if IsWhitespace(s[0]) then [] else [s[0]]) + StripWhitespace(s[1..])
  }

  /** Stripping distributes over concatenation. */
  lemma {:induction false} StripAppend(a: string, b: string)
    ensures StripWhitespace(a + b) == StripWhitespace(a) + StripWhitespace(b)
  {
    if a == [] {
      assert a + b == b;
    } else {
      assert (a + b)[1..] == a[1..] + b;
      StripAppend(a[1..], b);
    }
  }

  /** A string without whitespace is left as it is. */
  lemma {:induction false} StripKeeps(s: string)
    requires NoWhitespace(s)
    ensures StripWhitespace(s) == s
  {
    if s != [] {
      StripKeeps(s[1..]);
    }
  }

  predicate IsDigit(c: char) {
    '0' <= c <= '9'
  }

  predicate AllDigits(s: string) {
    forall i :: 0 <= i < |s| ==> IsDigit(s[i])
  }

  /** `s.replace(/\D/g, '')`: the decimal digits of `s`, in order. */
  function DigitsOf(s: string): (r: string)
    ensures AllDigits(r)
    ensures |r| <= |s|
  {
    if s == [] then []
    else (if IsDigit(s[0]) then [s[0]] else []) + DigitsOf(s[1..])
  }

  lemma {:induction false} DigitsOfAppend(a: string, b: string)
    ensures DigitsOf(a + b) == DigitsOf(a) + DigitsOf(b)
  {
    if a == [] {
      assert a + b == b;
    } else {
      assert (a + b)[1..] == a[1..] + b;
      DigitsOfAppend(a[1..], b);
    }
  }

  /** A string of digits is its own digit string. */
  lemma {:induction false} DigitsOfDigits(s: string)
    requires AllDigits(s)
    ensures DigitsOf(s) == s
  {
    if s != [] {
      DigitsOfDigits(s[1..]);
    }
  }

  /** `toLowerCase` on one character; only the ASCII letters are mapped. */
  function LowerChar(c: char): char {
    if 'A' <= c <= 'Z' then (c as int + 32) as char else c
  }

  function Lower(s: string): (r: string)
    ensures |r| == |s|
  {
    seq(|s|, i requires 0 <= i < |s| => LowerChar(s[i]))
  }

  /** `s.includes(sub)`: `sub` occurs in `s` at some position. */
  predicate Includes(s: string, sub: string) {
    exists i :: 0 <= i <= |s| - |sub| && OccursAt(s, sub, i)
  }

  predicate OccursAt(s: string, sub: string, i: nat)
    requires i <= |s| - |sub|
  {
    s[i..i + |sub|] == sub
  }

  function DigitChar(d: nat): (c: char)
    requires d < 10
    ensures IsDigit(c)
  {
    ('0' as int + d) as char
  }

  function DigitValue(c: char): (d: nat)
    requires IsDigit(c)
    ensures d < 10
  {
    c as int - '0' as int
  }

  /** `String(n)` for a non-negative integer: its decimal digits without leading zeros. */
  function NatToString(n: nat): (s: string)
    ensures |s| >= 1 && AllDigits(s)
    ensures s[0] == '0' ==> n == 0
  {
    if n < 10 then [DigitChar(n)] else NatToString(n / 10) + [DigitChar(n % 10)]
  }

  /** `String(n)` (`n.toString()`) for an integer. */
  function IntToString(n: int): (s: string)
    ensures |s| >= 1
    ensures forall i :: 0 <= i < |s| ==> IsDigit(s[i]) || (i == 0 && s[i] == '-')
    ensures s[0] == '-' <==> n < 0
  {
    if n < 0 then "-" + NatToString(-n) else NatToString(n)
  }

  /** The number a string of decimal digits denotes. */
  function DigitsValue(s: string): nat
    requires AllDigits(s)
  {
    if s == [] then 0 else 10 * DigitsValue(s[..|s| - 1]) + DigitValue(s[|s| - 1])
  }

  /** Reading back the digits `String(n)` writes gives `n`. */
  lemma {:induction false} NatToStringRoundTrip(n: nat)
    ensures DigitsValue(NatToString(n)) == n
  {
    var s := NatToString(n);
    if n >= 10 {
      assert s[..|s| - 1] == NatToString(n / 10);
      NatToStringRoundTrip(n / 10);
    }
  }

  lemma NatToStringInjective(m: nat, n: nat)
    requires NatToString(m) == NatToString(n)
    ensures m == n
  {
    NatToStringRoundTrip(m);
    NatToStringRoundTrip(n);
  }

  /** Different integers print differently. */
  lemma IntToStringInjective(a: int, b: int)
    requires IntToString(a) == IntToString(b)
    ensures a == b
  {
    var s := IntToString(a);
    assert (a < 0) == (b < 0) by {
      assert (s[0] == '-') == (a < 0) == (b < 0);
    }
    if a < 0 {
      assert s == "-" + NatToString(-a) == "-" + NatToString(-b);
      assert NatToString(-a) == s[1..] == NatToString(-b);
      NatToStringInjective(-a, -b);
    } else {
      NatToStringInjective(a, b);
    }
  }

  /** `s.padStart(width, '0')`. */
  function PadStartZero(s: string, width: nat): (r: string)
    ensures |r| == if |s| >= width then |s| else width
    ensures |s| >= width ==> r == s
    ensures |s| < width ==> r[width - |s|..] == s && forall i :: 0 <= i < width - |s| ==> r[i] == '0'
  {
    if |s| >= width then s else seq(width - |s|, _ => '0') + s
  }

  // Number(s): StringToNumber of ECMA-262 (section 7.1.4.1.1). A string is
  // numeric when, after trimming white space, it is empty or one of the
  // StrDecimalLiteral / NonDecimalIntegerLiteral forms.

  function TrimStart(s: string): (r: string)
    ensures |r| <= |s|
    ensures r == [] || !IsWhitespace(r[0])
    ensures r == s[|s| - |r|..]
  {
    if s != [] && IsWhitespace(s[0]) then TrimStart(s[1..]) else s
  }

  function TrimEnd(s: string): (r: string)
    ensures |r| <= |s|
    ensures r == [] || !IsWhitespace(r[|r| - 1])
    ensures r == s[..|r|]
  {
    if s != [] && IsWhitespace(s[|s| - 1]) then TrimEnd(s[..|s| - 1]) else s
  }

  /** `s.trim()`. */
  function Trim(s: string): string {
    TrimEnd(TrimStart(s))
  }

  /** The length of the longest run of decimal digits at the start of `s`. */
  function LeadingDigits(s: string): (n: nat)
    ensures n <= |s|
    ensures AllDigits(s[..n])
    ensures n < |s| ==> !IsDigit(s[n])
  {
    if s != [] && IsDigit(s[0]) then
      var n := 1 + LeadingDigits(s[1..]);
      assert s[..n] == [s[0]] + s[1..][..n - 1];
      n
    else 0
  }

  /** ExponentPart: `e` or `E`, an optional sign, and at least one digit. */
  predicate IsExponentPart(s: string) {
    |s| >= 2 && (s[0] == 'e' || s[0] == 'E') &&
    var t := if s[1] == '+' || s[1] == '-' then s[2..] else s[1..];
    t != [] && AllDigits(t)
  }

  /** StrUnsignedDecimalLiteral: `Infinity`, `d.d`, `d.`, `.d` or `d`, each with an optional exponent. */
  predicate IsUnsignedDecimal(s: string) {
    s == "Infinity" ||
    var a := LeadingDigits(s);
    var rest := s[a..];
    if rest != [] && rest[0] == '.' then
      var b := LeadingDigits(rest[1..]);
      var tail := rest[1 + b..];
      (a > 0 || b > 0) && (tail == [] || IsExponentPart(tail))
    else
      a > 0 && (rest == [] || IsExponentPart(rest))
  }

  /** StrDecimalLiteral: an optional sign followed by an unsigned decimal. */
  predicate IsDecimalLiteral(s: string) {
    if s != [] && (s[0] == '+' || s[0] == '-') then IsUnsignedDecimal(s[1..]) else IsUnsignedDecimal(s)
  }

  predicate IsHexDigit(c: char) {
    IsDigit(c) || 'a' <= c <= 'f' || 'A' <= c <= 'F'
  }

  /** NonDecimalIntegerLiteral: `0x…`, `0o…` or `0b…` with at least one digit of that base. */
  predicate IsNonDecimalInteger(s: string) {
    |s| >= 3 && s[0] == '0' &&
    ((s[1] in "xX" && forall i :: 2 <= i < |s| ==> IsHexDigit(s[i])) ||
     (s[1] in "oO" && forall i :: 2 <= i < |s| ==> '0' <= s[i] <= '7') ||
     (s[1] in "bB" && forall i :: 2 <= i < |s| ==> s[i] == '0' || s[i] == '1'))
  }

  /** `!isNaN(Number(s))`. */
  predicate IsNumeric(s: string) {
    var t := Trim(s);
    t == [] || IsDecimalLiteral(t) || IsNonDecimalInteger(t)
  }

  /** A non-empty run of decimal digits is numeric. */
  lemma DigitsAreNumeric(s: string)
    requires s != [] && AllDigits(s)
    ensures IsNumeric(s)
  {
    TrimKeeps(s);
    LeadingDigitsOfDigits(s);
  }

  /** A string that neither starts nor ends with white space is its own trim. */
  lemma TrimKeeps(s: string)
    requires s != [] && !IsWhitespace(s[0]) && !IsWhitespace(s[|s| - 1])
    ensures Trim(s) == s
  {
    assert TrimStart(s) == s;
  }

  lemma {:induction false} LeadingDigitsOfDigits(s: string)
    requires AllDigits(s)
    ensures LeadingDigits(s) == |s|
  {
    if s != [] {
      LeadingDigitsOfDigits(s[1..]);
    }
  }

  /** `Number` also accepts a decimal point: digits, a point and digits form a number. */
  lemma DecimalPointIsNumeric(a: string, b: string)
    requires a != [] && AllDigits(a) && AllDigits(b)
    ensures IsNumeric(a + "." + b)
  {
    var rest := "." + b;
    var s := a + rest;
    assert a + "." + b == s;
    PointedDecimal(a, rest);
    assert s[|s| - 1] == rest[|rest| - 1];
    TrimmedLiteral(s);
  }

  /** Digits followed by a point and digits are a decimal literal. */
  lemma PointedDecimal(a: string, rest: string)
    requires a != [] && AllDigits(a)
    requires rest != [] && rest[0] == '.' && AllDigits(rest[1..])
    ensures IsDecimalLiteral(a + rest)
  {
    var s := a + rest;
    assert IsDigit(s[0]);
    LeadingDigitsStop(a, rest);
    assert s[|a|..] == rest;
    LeadingDigitsOfDigits(rest[1..]);
  }

  /** A decimal literal with no white space at either end is numeric. */
  lemma TrimmedLiteral(s: string)
    requires s != [] && !IsWhitespace(s[0]) && !IsWhitespace(s[|s| - 1])
    requires IsDecimalLiteral(s)
    ensures IsNumeric(s)
  {
    TrimKeeps(s);
  }

  lemma {:induction false} LeadingDigitsStop(a: string, rest: string)
    requires AllDigits(a)
    requires rest != [] && !IsDigit(rest[0])
    ensures LeadingDigits(a + rest) == |a|
  {
    if a != [] {
      assert (a + rest)[1..] == a[1..] + rest;
      LeadingDigitsStop(a[1..], rest);
    }
  }
}

/**
 * The string operations of JavaScript the client relies on:
 * `String.prototype.trim` (used as `!title.trim()` to reject blank titles),
 * `String.prototype.toLowerCase` (used by the status badge) and `String(n)`
 * (the user id stored as text), with a reader showing that rendering loses
 * nothing.
 */
module Text {

  /** The characters `trim` removes: ECMAScript WhiteSpace and LineTerminator code points. */
  predicate IsTrimmable(c: char) {
    || c == '\t' || c == '\U{000B}' || c == '\U{000C}' || c == ' ' || c == '\U{00A0}' || c == '\U{FEFF}'
    || c == '\n' || c == '\r' || c == '\U{2028}' || c == '\U{2029}'
    || c == '\U{1680}' || ('\U{2000}' <= c <= '\U{200A}') || c == '\U{202F}' || c == '\U{205F}' || c == '\U{3000}'
  }

  /** Drops leading trimmable characters. */
  function TrimStart(s: string): string {
    if s != [] && IsTrimmable(s[0]) then TrimStart(s[1..]) else s
  }

  /** Drops trailing trimmable characters. */
  function TrimEnd(s: string): string {
    if s != [] && IsTrimmable(s[|s| - 1]) then TrimEnd(s[..|s| - 1]) else s
  }

  /** `TrimStart` removes exactly the longest whitespace prefix: the result is a suffix not starting with whitespace. */
  lemma {:induction false} TrimStartIsSuffix(s: string)
    ensures var r := TrimStart(s);
      && |r| <= |s| && r == s[|s| - |r|..]
      && (r == [] || !IsTrimmable(r[0]))
      && forall i :: 0 <= i < |s| - |r| ==> IsTrimmable(s[i])
  {
    if s != [] && IsTrimmable(s[0]) {
      TrimStartIsSuffix(s[1..]);
    }
  }

  /** `TrimEnd` removes exactly the longest whitespace suffix: the result is a prefix not ending in whitespace. */
  lemma {:induction false} TrimEndIsPrefix(s: string)
    ensures var r := TrimEnd(s);
      && |r| <= |s| && r == s[..|r|]
      && (r == [] || !IsTrimmable(r[|r| - 1]))
      && forall i :: |r| <= i < |s| ==> IsTrimmable(s[i])
  {
    if s != [] && IsTrimmable(s[|s| - 1]) {
      TrimEndIsPrefix(s[..|s| - 1]);
    }
  }

  function Trim(s: string): string {
    TrimEnd(TrimStart(s))
  }

  /** `!s.trim()`: the trimmed string is the empty (falsy) string. */
  predicate IsBlank(s: string) {
    Trim(s) == ""
  }

  /** A string is blank exactly when every one of its characters is whitespace. */
  lemma BlankIffAllTrimmable(s: string)
    ensures IsBlank(s) <==> forall i :: 0 <= i < |s| ==> IsTrimmable(s[i])
  {
    TrimStartIsSuffix(s);
    var t := TrimStart(s);
    TrimEndIsPrefix(t);
    if t != [] {
      assert t[0] == s[|s| - |t|];
    }
  }

  /** The capitals of Basic Latin and Latin-1 whose lower case lies 32 code points higher (the multiplication sign is not a letter). */
  predicate IsLatinCapital(c: char) {
    ('A' <= c <= 'Z') || ('\U{C0}' <= c <= '\U{DE}' && c != '\U{D7}')
  }

  /** The Kelvin sign, whose lower case is the ASCII letter k. */
  const KelvinSign: char := '\U{212A}'

  /** Lower-casing of one character, for the Latin-1 range and the Kelvin sign. */
  function LowerChar(c: char): (r: char)
    ensures IsLatinCapital(c) ==> r as int == c as int + 32 && !IsLatinCapital(r)
    ensures 'A' <= c <= 'Z' ==> 'a' <= r <= 'z'
    ensures c == KelvinSign ==> r == 'k'
    ensures !IsLatinCapital(c) && c != KelvinSign ==> r == c
  {
    if IsLatinCapital(c) then (c as int + 32) as char
    else if c == KelvinSign then 'k'
    else c
  }

  function ToLowerCase(s: string): (r: string)
    ensures |r| == |s|
    ensures forall i :: 0 <= i < |s| ==> r[i] == LowerChar(s[i])
  {
    if s == [] then [] else [LowerChar(s[0])] + ToLowerCase(s[1..])
  }

  /** The lower case of `c` is the lower-case letter `x` exactly when `c` is `x`, its capital, or (for k) the Kelvin sign. */
  lemma LowerCharIsLetter(c: char, x: char)
    requires 'a' <= x <= 'z'
    ensures LowerChar(c) == x <==> c == x || c as int == x as int - 32 || (x == 'k' && c == KelvinSign)
  {
  }

  predicate IsDigit(c: char) {
    '0' <= c <= '9'
  }

  predicate AllDigits(s: string) {
    forall i :: 0 <= i < |s| ==> IsDigit(s[i])
  }

  /** An optional minus sign followed by at least one digit. */
  predicate IsDecimal(s: string) {
    if s != [] && s[0] == '-' then s[1..] != [] && AllDigits(s[1..]) else s != [] && AllDigits(s)
  }

  /** Decimal rendering of an integer, as JavaScript's `String(n)` for a safe integer: no leading zero, a minus only for negatives. */
  function DecimalString(n: int): (r: string)
    ensures IsDecimal(r)
    ensures r[0] == '-' <==> n < 0
    ensures n >= 0 ==> AllDigits(r) && (|r| > 1 ==> r[0] != '0')
    ensures n < 0 ==> AllDigits(r[1..]) && (|r| > 2 ==> r[1] != '0')
    decreases if n < 0 then 1 - n else n
  {
    if n < 0 then
      var magnitude := DecimalString(-n);
      assert ("-" + magnitude)[1..] == magnitude;
      "-" + magnitude
    else if n < 10 then [Digit(n)]
    else
      var high := DecimalString(n / 10);
      assert high[0] != '0';
      high + [Digit(n % 10)]
  }

  function Digit(d: int): (c: char)
    requires 0 <= d < 10
    ensures IsDigit(c) && DigitValue(c) == d
  {
    (d + '0' as int) as char
  }

  function DigitValue(c: char): int
    requires IsDigit(c)
  {
    c as int - '0' as int
  }

  /** The value of a digit string, most significant digit first. */
  function ParseDigits(s: string): nat
    requires AllDigits(s)
  {
    if s == [] then 0 else ParseDigits(s[..|s| - 1]) * 10 + DigitValue(s[|s| - 1])
  }

  /** The value of a decimal string, as `Number(s)` reads it. */
  function ParseDecimal(s: string): int
    requires IsDecimal(s)
  {
    if s[0] == '-' then var magnitude: int := ParseDigits(s[1..]); -magnitude else ParseDigits(s)
  }

  lemma {:induction false} ParseDigitsOfDecimal(n: nat)
    ensures ParseDigits(DecimalString(n)) == n
    decreases n
  {
    if n >= 10 {
      var s := DecimalString(n);
      assert s[..|s| - 1] == DecimalString(n / 10);
      ParseDigitsOfDecimal(n / 10);
    }
  }

  /** Reading back a rendered integer gives that integer. */
  lemma DecimalRoundTrip(n: int)
    ensures ParseDecimal(DecimalString(n)) == n
  {
    if n < 0 {
      assert DecimalString(n)[1..] == DecimalString(-n);
      ParseDigitsOfDecimal(-n);
    } else {
      ParseDigitsOfDecimal(n);
    }
  }
}

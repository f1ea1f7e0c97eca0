/** JavaScript's global `parseInt(string)` without a radix argument, as loginUser applies it
    to the COOKIE_MAX_AGE setting: leading white space is skipped, an optional sign is read,
    a "0x"/"0X" prefix selects base 16, and the longest run of digits that follows is the
    value; no digits at all gives NaN (None here). */
module JsNumbers {
  import opened Values

  /** The white space and line terminators that parseInt skips (ECMAScript StrWhiteSpaceChar). */
  predicate IsSpace(c: char)
  {
    c == ' ' || c == '\t' || c == '\n' || c == '\r'
    || c as int == 0x0B || c as int == 0x0C || c as int == 0xA0 || c as int == 0xFEFF
    || c as int == 0x1680 || (0x2000 <= c as int <= 0x200A) || c as int == 0x2028
    || c as int == 0x2029 || c as int == 0x202F || c as int == 0x205F || c as int == 0x3000
  }

  /** The value of `c` as a digit in bases up to 36, or 36 for a character that is no digit. */
  function DigitValue(c: char): (d: nat)
    ensures d <= 36
  {
    if '0' <= c <= '9' then c as int - '0' as int
    else if 'a' <= c <= 'z' then c as int - 'a' as int + 10
    else if 'A' <= c <= 'Z' then c as int - 'A' as int + 10
    else 36
  }

  predicate IsDigit(c: char, radix: nat)
  {
    DigitValue(c) < radix
  }

  predicate AllDigits(s: string, radix: nat)
  {
    forall i :: 0 <= i < |s| ==> IsDigit(s[i], radix)
  }

  /** `s` with its leading white space removed. */
  function TrimStart(s: string): (t: string)
    ensures |t| <= |s| && t == s[|s| - |t|..]
    ensures t == [] || !IsSpace(t[0])
  {
    if s != [] && IsSpace(s[0]) then TrimStart(s[1..]) else s
  }

  /** The longest prefix of `s` made of digits of base `radix`. */
  function LeadingDigits(s: string, radix: nat): (z: string)
    ensures z <= s && AllDigits(z, radix)
    ensures |z| < |s| ==> !IsDigit(s[|z|], radix)
  {
    if s != [] && IsDigit(s[0], radix) then [s[0]] + LeadingDigits(s[1..], radix) else []
  }

  /** The number the digit string `z` denotes in base `radix`. */
  function ValueOf(z: string, radix: nat): nat
    requires AllDigits(z, radix)
  {
    if z == [] then 0 else ValueOf(z[..|z| - 1], radix) * radix + DigitValue(z[|z| - 1])
  }

  /** `parseInt(s)`; None stands for NaN. A blank string is NaN, and only a leading minus
      sign gives a negative number. */
  function ParseInt(s: string): (r: Option<int>)
    ensures TrimStart(s) == [] ==> r.None?
    ensures r.Some? && r.value < 0 ==> TrimStart(s)[0] == '-'
  {
    var t := TrimStart(s);
    var sign := if t != [] && t[0] == '-' then -1 else 1;
    var u := if t != [] && (t[0] == '+' || t[0] == '-') then t[1..] else t;
    var hex := |u| >= 2 && u[0] == '0' && (u[1] == 'x' || u[1] == 'X');
    var radix := if hex then 16 else 10;
    var z := LeadingDigits(if hex then u[2..] else u, radix);
    if z == [] then None else Some(sign * ValueOf(z, radix))
  }

  /** The decimal numeral of `n`, without leading zeros. */
  function Decimal(n: nat): (s: string)
    ensures s != [] && AllDigits(s, 10)
    decreases n
  {
    if n < 10 then ['0' + n as char] else Decimal(n / 10) + ['0' + (n % 10) as char]
  }

  lemma {:induction false} DecimalValue(n: nat)
    ensures ValueOf(Decimal(n), 10) == n
    decreases n
  {
    if n >= 10 {
      var s := Decimal(n);
      assert s[..|s| - 1] == Decimal(n / 10);
      DecimalValue(n / 10);
    }
  }

  lemma {:induction false} LeadingDigitsStopAtNonDigit(z: string, rest: string, radix: nat)
    requires AllDigits(z, radix)
    requires rest == [] || !IsDigit(rest[0], radix)
    ensures LeadingDigits(z + rest, radix) == z
    decreases |z|
  {
    if z != [] {
      assert (z + rest)[1..] == z[1..] + rest;
      LeadingDigitsStopAtNonDigit(z[1..], rest, radix);
    }
  }

  /** A string that starts with a decimal digit, and not with a "0x" prefix, parses as its
      leading run of decimal digits. */
  lemma ParseIntOfDigitLed(s: string)
    requires s != [] && IsDigit(s[0], 10)
    requires !(|s| >= 2 && s[0] == '0' && (s[1] == 'x' || s[1] == 'X'))
    ensures ParseInt(s) == Some(ValueOf(LeadingDigits(s, 10), 10))
  {
    assert '0' <= s[0] <= '9';
    assert !IsSpace(s[0]);
    var t := TrimStart(s);
    assert t == s;
    assert !(t[0] == '+' || t[0] == '-');
    var z := LeadingDigits(s, 10);
    assert z != [] by { assert z[..1] == [s[0]]; }
  }

  /** parseInt reads a decimal numeral back, and ignores whatever text follows it when that
      text starts with neither a digit nor an x (so a setting of "24h" reads as 24, while
      "0x18" would read as hexadecimal 24). */
  lemma ParseIntReadsDecimal(n: nat, rest: string)
    requires rest == [] || (!IsDigit(rest[0], 10) && rest[0] != 'x' && rest[0] != 'X')
    ensures ParseInt(Decimal(n) + rest) == Some(n)
  {
    var s := Decimal(n) + rest;
    assert s[0] == Decimal(n)[0];
    assert |Decimal(n)| >= 2 ==> IsDigit(s[1], 10);
    assert |Decimal(n)| == 1 && |s| >= 2 ==> s[1] == rest[0];
    LeadingDigitsStopAtNonDigit(Decimal(n), rest, 10);
    ParseIntOfDigitLed(s);
    DecimalValue(n);
  }
}

/** Decimal numbers as the evaluator reads and writes them: a simple stand-in
    for `double.TryParse` (surrounding white space, an optional sign, digits
    with an optional fraction, read exactly as a real) and `int.ToString()`. */
module Numbers {
  import opened Wrappers
  import opened Text

  predicate IsDigit(c: char) {
    '0' <= c <= '9'
  }

  predicate AllDigits(s: string) {
    forall i :: 0 <= i < |s| ==> IsDigit(s[i])
  }

  /** The value of a string of decimal digits, most significant first. */
  function DigitsValue(s: string): nat
    requires AllDigits(s)
  {
    if s == [] then 0 else DigitsValue(s[..|s| - 1]) * 10 + (s[|s| - 1] as int - '0' as int)
  }

  function Pow10(n: nat): (r: nat)
    ensures r >= 1
  {
    if n == 0 then 1 else 10 * Pow10(n - 1)
  }

  /** The white space `double.TryParse` skips before and after a number:
      U+0009..U+000D and U+0020. */
  predicate IsNumberWhite(c: char) {
    c == ' ' || '\t' <= c <= '\r'
  }

  /** The value of the digits after a decimal point. */
  function FractionValue(fraction: string): real
    requires AllDigits(fraction)
  {
    DigitsValue(fraction) as real / Pow10(|fraction|) as real
  }

  /** Digits, optionally split by one decimal point, with at least one digit. */
  function ParseUnsigned(s: string): Option<real> {
    var point := IndexOf(s, '.');
    if point == |s| then
      if |s| > 0 && AllDigits(s) then Some(DigitsValue(s) as real) else None
    else
      var whole, fraction := s[..point], s[point + 1..];
      if |whole| + |fraction| > 0 && AllDigits(whole) && AllDigits(fraction) then
        Some(DigitsValue(whole) as real + FractionValue(fraction))
      else
        None
  }

  /** `double.TryParse(s, out x)`: `Some(x)` on success, `None` on failure. */
  function ParseNumber(s: string): Option<real> {
    var t := TrimWhere(s, IsNumberWhite);
    if t != [] && (t[0] == '-' || t[0] == '+') then
      match ParseUnsigned(t[1..])
      case Some(x) => Some(if t[0] == '-' then -x else x)
      case None => None
    else
      ParseUnsigned(t)
  }

  function DigitChar(d: nat): char
    requires d < 10
  {
    ('0' as int + d) as char
  }

  /** Decimal digits of `n`, no leading zeros. */
  function NatToString(n: nat): (s: string)
    ensures |s| >= 1 && AllDigits(s)
  {
    if n < 10 then [DigitChar(n)] else NatToString(n / 10) + [DigitChar(n % 10)]
  }

  /** `int.ToString()` in the invariant culture. */
  function IntToString(n: int): string {
    if n < 0 then "-" + NatToString(-n) else NatToString(n)
  }

  lemma {:induction false} NatToStringValue(n: nat)
    ensures DigitsValue(NatToString(n)) == n
  {
    var s := NatToString(n);
    if n >= 10 {
      NatToStringValue(n / 10);
      assert s[..|s| - 1] == NatToString(n / 10);
    }
  }

  lemma ParseUnsignedDigits(s: string)
    requires |s| >= 1 && AllDigits(s)
    ensures ParseUnsigned(s) == Some(DigitsValue(s) as real)
  {
    assert forall j :: 0 <= j < |s| ==> s[j] != '.';
  }

  /** Reading back a rendered integer gives the integer: `int.ToString()` and
      `double.TryParse` agree on every integer. */
  lemma ParseIntToString(n: int)
    ensures ParseNumber(IntToString(n)) == Some(n as real)
  {
    if n < 0 {
      ParseNegative(-n);
    } else {
      ParseNatural(n);
    }
  }

  lemma DigitsUntrimmed(s: string)
    requires |s| >= 1 && IsDigit(s[0]) && IsDigit(s[|s| - 1])
    ensures TrimWhere(s, IsNumberWhite) == s
  {
    assert !IsNumberWhite(s[0]) && !IsNumberWhite(s[|s| - 1]);
  }

  lemma ParseNatural(n: nat)
    ensures ParseNumber(NatToString(n)) == Some(n as real)
  {
    var s := NatToString(n);
    DigitsUntrimmed(s);
    NatToStringValue(n);
    ParseUnsignedDigits(s);
    assert s[0] != '-' && s[0] != '+';
  }

  lemma ParseNegative(m: nat)
    requires m > 0
    ensures ParseNumber("-" + NatToString(m)) == Some(-(m as real))
  {
    var digits := NatToString(m);
    NatToStringValue(m);
    ParseUnsignedDigits(digits);
    ParseSigned(digits, m as real);
  }

  /** A minus sign in front of a number with no trailing white space reads
      as that number negated. */
  lemma ParseSigned(digits: string, v: real)
    requires |digits| >= 1 && !IsNumberWhite(digits[|digits| - 1])
    requires ParseUnsigned(digits) == Some(v)
    ensures ParseNumber("-" + digits) == Some(-v)
  {
    var s := "-" + digits;
    assert s[|s| - 1] == digits[|digits| - 1];
    assert s[1..] == digits;
    ParseMinus(s);
  }

  /** An untrimmed string with a leading minus reads as the negation of what
      follows the sign. */
  lemma ParseMinus(s: string)
    requires s != [] && s[0] == '-' && !IsNumberWhite(s[|s| - 1])
    requires ParseUnsigned(s[1..]).Some?
    ensures ParseNumber(s) == Some(-ParseUnsigned(s[1..]).value)
  {
    assert !IsNumberWhite(s[0]);
    assert TrimWhere(s, IsNumberWhite) == s;
  }

  /** A rendered integer is an optional minus sign followed by digits. */
  lemma IntToStringShape(n: int)
    ensures var s := IntToString(n);
      && |s| >= 1
      && (s[0] == '-' || IsDigit(s[0]))
      && IsDigit(s[|s| - 1])
      && '=' !in s
  {
    var digits := NatToString(if n < 0 then -n else n);
    var s := IntToString(n);
    assert s[|s| - 1] == digits[|digits| - 1];
    assert forall i :: 1 <= i < |s| ==> IsDigit(s[i]) by {
      if n < 0 {
        assert forall i :: 1 <= i < |s| ==> s[i] == digits[i - 1];
      }
    }
  }

  /** An empty or blank string is not a number. */
  lemma ParseNumberBlank(s: string)
    requires forall i :: 0 <= i < |s| ==> IsNumberWhite(s[i])
    ensures ParseNumber(s) == None
  {
  }

  /** The rendering of a two-digit number, digit by digit. */
  lemma TwoDigits(n: nat)
    requires 10 <= n < 100
    ensures NatToString(n) == [DigitChar(n / 10), DigitChar(n % 10)]
  {
  }

  /** The rendering of a three-digit number, digit by digit. */
  lemma ThreeDigits(n: nat)
    requires 100 <= n < 1000
    ensures NatToString(n) == [DigitChar(n / 100), DigitChar(n / 10 % 10), DigitChar(n % 10)]
  {
    TwoDigits(n / 10);
  }

  /** The ten digit characters. */
  lemma DigitChars()
    ensures DigitChar(0) == '0' && DigitChar(1) == '1' && DigitChar(2) == '2' && DigitChar(3) == '3'
    ensures DigitChar(4) == '4' && DigitChar(5) == '5' && DigitChar(6) == '6' && DigitChar(7) == '7'
    ensures DigitChar(8) == '8' && DigitChar(9) == '9'
  {
  }
}

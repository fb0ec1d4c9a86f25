/** The JavaScript number operations the board uses: `Math.round`, the `%`
    operator, integer-to-string conversion and `parseInt` with no radix. */
module Numbers {
  import opened BoardTypes
  import Text

  /** `Math.round(x)`: the nearest integer, halves rounded up. */
  function JsRound(x: real): (r: int)
    ensures r as real - 0.5 <= x < r as real + 0.5
  {
    (x + 0.5).Floor
  }

  /** Truncation toward zero. */
  function Trunc(x: real): (r: int)
    ensures x >= 0.0 ==> 0.0 <= r as real <= x < r as real + 1.0
    ensures x < 0.0 ==> r as real - 1.0 < x <= r as real <= 0.0
  {
    if x >= 0.0 then x.Floor else -((-x).Floor)
  }

  /** `a % b` on numbers: the remainder of the division truncated toward
      zero, so its sign follows the dividend. */
  function JsRem(a: real, b: real): real
    requires b != 0.0
  {
    a - b * Trunc(a / b) as real
  }

  /** The remainder is smaller than the divisor in magnitude, is zero or has
      the sign of the dividend, and differs from the dividend by the
      truncated quotient times the divisor. */
  lemma JsRemSpec(a: real, b: real)
    requires b != 0.0
    ensures var r := JsRem(a, b);
            (a >= 0.0 ==> 0.0 <= r) && (a <= 0.0 ==> r <= 0.0)
            && (b > 0.0 ==> -b < r < b) && (b < 0.0 ==> b < r < -b)
            && a - r == Trunc(a / b) as real * b
  {
    var q := a / b;
    var t := Trunc(q);
    Distribute(a, b, t);
    QuotientSign(a, b);
    FractionTimes(q - t as real, b, JsRem(a, b), q >= 0.0);
  }

  lemma Distribute(a: real, b: real, t: int)
    requires b != 0.0
    ensures a - b * t as real == (a / b - t as real) * b
  {
  }

  /** The quotient has the sign of the dividend times that of the divisor. */
  lemma QuotientSign(a: real, b: real)
    requires b != 0.0
    ensures (a >= 0.0) == (b > 0.0) ==> a / b >= 0.0
    ensures (a <= 0.0) == (b > 0.0) ==> a / b <= 0.0
  {
  }

  /** r, a fraction f of b, lies strictly between -|b| and |b|, has the
      sign of f times that of b, and is zero when f is. */
  lemma FractionTimes(f: real, b: real, r: real, nonneg: bool)
    requires -1.0 < f < 1.0 && b != 0.0 && r == f * b
    requires nonneg ==> f >= 0.0
    requires !nonneg ==> f <= 0.0
    ensures b > 0.0 ==> -b < r < b
    ensures b < 0.0 ==> b < r < -b
    ensures nonneg == (b > 0.0) ==> r >= 0.0
    ensures nonneg != (b > 0.0) ==> r <= 0.0
    ensures f == 0.0 ==> r == 0.0
  {
    if f == 0.0 {
      assert r == 0.0 * b;
    }
    if b > 0.0 {
      MulPos(1.0 - f, b);
      MulPos(1.0 + f, b);
      if nonneg { MulNonNeg(f, b); } else { MulNonNeg(-f, b); }
    } else {
      MulPos(1.0 - f, -b);
      assert (1.0 - f) * -b == r - b;
      MulPos(1.0 + f, -b);
      assert (1.0 + f) * -b == -b - r;
      assert b < r < -b;
      if nonneg {
        MulNonNeg(f, -b);
        assert f * -b == -r;
      } else {
        MulNonNeg(-f, -b);
        assert -f * -b == r;
      }
    }
  }

  lemma MulPos(x: real, y: real)
    requires x > 0.0 && y > 0.0
    ensures x * y > 0.0
  {
  }

  lemma MulNonNeg(x: real, y: real)
    requires x >= 0.0 && y >= 0.0
    ensures x * y >= 0.0
  {
  }

  function DigitChar(d: int): char
    requires 0 <= d < 10
  {
    "0123456789"[d]
  }

  /** The decimal numeral of n, most significant digit first. */
  function NatToString(n: nat): (r: string)
    ensures |r| > 0
    ensures forall i :: 0 <= i < |r| ==> '0' <= r[i] <= '9'
    ensures |r| > 1 ==> r[0] != '0'
    decreases n
  {
    if n < 10 then [DigitChar(n)] else NatToString(n / 10) + [DigitChar(n % 10)]
  }

  /** `String(n)` for an integer n. */
  function IntToString(n: int): string
  {
    if n < 0 then "-" + NatToString(-n) else NatToString(n)
  }

  /** The value of a character as a digit in the given radix (letters in
      either case count from ten), or -1 when it is not one. */
  function DigitValue(c: char, radix: int): (d: int)
    ensures -1 <= d < radix || d == -1
    ensures d >= 0 ==> d < radix
  {
    var v :=
      if '0' <= c <= '9' then c as int - '0' as int
      else if 'a' <= c <= 'z' then c as int - 'a' as int + 10
      else if 'A' <= c <= 'Z' then c as int - 'A' as int + 10
      else -1;
    if 0 <= v < radix then v else -1
  }

  /** The length of the longest prefix of s made of digits of the radix. */
  function DigitsPrefix(s: string, radix: int): (n: nat)
    ensures n <= |s|
    ensures forall i :: 0 <= i < n ==> DigitValue(s[i], radix) >= 0
    ensures n < |s| ==> DigitValue(s[n], radix) < 0
  {
    if |s| > 0 && DigitValue(s[0], radix) >= 0 then 1 + DigitsPrefix(s[1..], radix) else 0
  }

  /** The value of a string of digits, most significant first. */
  function DigitsValue(s: string, radix: int): int
    requires forall i :: 0 <= i < |s| ==> DigitValue(s[i], radix) >= 0
  {
    if |s| == 0 then 0
    else DigitsValue(s[..|s| - 1], radix) * radix + DigitValue(s[|s| - 1], radix)
  }

  /** The value of the digits after the optional sign: hexadecimal after a
      `0x` or `0X` prefix, decimal otherwise; NaN (None) without digits. */
  function ParseMagnitude(s: string): Option<int>
  {
    var hex := |s| >= 2 && s[0] == '0' && (s[1] == 'x' || s[1] == 'X');
    var radix := if hex then 16 else 10;
    var body := if hex then s[2..] else s;
    var n := DigitsPrefix(body, radix);
    if n == 0 then None else Some(DigitsValue(body[..n], radix))
  }

  /** `parseInt(s)` with no radix: leading white space is skipped, one sign
      is read, then the longest run of digits; None stands for NaN. */
  function ParseInt(s: string): Option<int>
  {
    var t := s[Text.LeadingSpaces(s)..];
    if |t| > 0 && t[0] == '-' then
      match ParseMagnitude(t[1..])
      case None => None
      case Some(m) => Some(-m)
    else if |t| > 0 && t[0] == '+' then ParseMagnitude(t[1..])
    else ParseMagnitude(t)
  }

  lemma {:induction false} NatToStringValue(n: nat)
    ensures DigitsValue(NatToString(n), 10) == n
    decreases n
  {
    var s := NatToString(n);
    if n >= 10 {
      NatToStringValue(n / 10);
      assert s[..|s| - 1] == NatToString(n / 10);
      assert DigitValue(s[|s| - 1], 10) == n % 10;
    }
  }

  lemma DigitsPrefixAll(s: string, radix: int)
    requires forall i :: 0 <= i < |s| ==> DigitValue(s[i], radix) >= 0
    ensures DigitsPrefix(s, radix) == |s|
  {
  }

  lemma NatToStringParses(n: nat)
    ensures ParseMagnitude(NatToString(n)) == Some(n)
  {
    var s := NatToString(n);
    assert !(|s| >= 2 && s[0] == '0');
    DigitsPrefixAll(s, 10);
    assert s[..|s|] == s;
    NatToStringValue(n);
  }

  /** A numeral String() writes opens with no white space. */
  lemma NoLeadingSpace(s: string)
    requires |s| > 0 && (s[0] == '-' || '0' <= s[0] <= '9')
    ensures Text.LeadingSpaces(s) == 0
  {
    assert !Text.IsSpace(s[0]);
  }

  /** parseInt on a string opening with a digit reads the digits as they
      stand. */
  lemma ParseIntDigits(t: string)
    requires |t| > 0 && '0' <= t[0] <= '9'
    ensures ParseInt(t) == ParseMagnitude(t)
  {
    NoLeadingSpace(t);
    assert t[Text.LeadingSpaces(t)..] == t;
  }

  /** parseInt reads back every count String() writes. */
  lemma ParseIntToString(n: nat)
    ensures ParseInt(IntToString(n)) == Some(n)
  {
    var t := NatToString(n);
    NatToStringParses(n);
    ParseIntDigits(t);
    assert IntToString(n) == t;
  }
}

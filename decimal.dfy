/**
 * Decimal text of integers as JavaScript reads and writes it: `parseInt(s, 10)`,
 * `Number.prototype.toString(10)` and `String.prototype.padStart`.
 * Numbers are exact integers here; the source's doubles agree with them up to 2^53.
 */
module Decimal {
  import opened Optional

  predicate IsDigit(c: char) {
    '0' <= c <= '9'
  }

  predicate AllDigits(s: string) {
    forall i :: 0 <= i < |s| ==> IsDigit(s[i])
  }

  function DigitChar(d: nat): (c: char)
    requires d < 10
    ensures IsDigit(c) && c as int - '0' as int == d
  {
    ('0' as int + d) as char
  }

  /** The value of a decimal digit; anything else counts as 0 (it is only read on digits). */
  function DigitValue(c: char): nat {
    if IsDigit(c) then c as int - '0' as int else 0
  }

  /** The value of a string of decimal digits, most significant digit first. */
  function DigitsValue(s: string): nat {
    if s == [] then 0 else DigitsValue(s[..|s| - 1]) * 10 + DigitValue(s[|s| - 1])
  }

  /** `n.toString(10)` for a non-negative integer: at least one digit, no leading zero. */
  function NatToString(n: nat): (s: string)
    ensures 1 <= |s| && AllDigits(s)
    ensures s == "0" <==> n == 0
    ensures s[0] == '0' ==> s == "0"
    ensures n < 10 <==> |s| == 1
  {
    if n < 10 then [DigitChar(n)] else NatToString(n / 10) + [DigitChar(n % 10)]
  }

  /** Reading back what `NatToString` wrote gives the number again. */
  lemma {:induction false} NatToStringRoundTrip(n: nat)
    ensures DigitsValue(NatToString(n)) == n
  {
    if n >= 10 {
      NatToStringRoundTrip(n / 10);
      var s := NatToString(n);
      assert s[..|s| - 1] == NatToString(n / 10);
    }
  }

  /** `i.toString(10)` for any integer. */
  function IntToString(i: int): string {
    if i < 0 then "-" + NatToString(-i) else NatToString(i)
  }

  /** `String(x)` of the result of `parseInt`: `None` is NaN. */
  function NumberToString(x: Option<int>): string {
    match x
    case None => "NaN"
    case Some(i) => IntToString(i)
  }

  /** `k` copies of `c`. */
  function Repeat(c: char, k: nat): string {
    seq(k, _ => c)
  }

  /** `s.padStart(width, [fill])`: `s` unchanged when already long enough. */
  function PadStart(s: string, width: nat, fill: char): string {
    if |s| >= width then s else Repeat(fill, width - |s|) + s
  }

  /** `padStart` keeps `s` as the tail and fills in front of it up to `width` characters. */
  lemma PadStartPads(s: string, width: nat, fill: char)
    ensures var r := PadStart(s, width, fill);
            && |r| == (if |s| >= width then |s| else width)
            && r[|r| - |s|..] == s
            && forall i :: 0 <= i < |r| - |s| ==> r[i] == fill
  {
  }

  lemma {:induction false} ZerosValue(k: nat)
    ensures AllDigits(Repeat('0', k)) && DigitsValue(Repeat('0', k)) == 0
  {
    if k > 0 {
      ZerosValue(k - 1);
      assert Repeat('0', k)[..k - 1] == Repeat('0', k - 1);
    }
  }

  /** Leading zeros do not change the value of a digit string. */
  lemma {:induction false} LeadingZerosValue(k: nat, s: string)
    requires AllDigits(s)
    ensures AllDigits(Repeat('0', k) + s)
    ensures DigitsValue(Repeat('0', k) + s) == DigitsValue(s)
  {
    var t := Repeat('0', k) + s;
    if s == [] {
      ZerosValue(k);
      assert t == Repeat('0', k);
    } else {
      LeadingZerosValue(k, s[..|s| - 1]);
      assert t[..|t| - 1] == Repeat('0', k) + s[..|s| - 1];
    }
  }

  /** JavaScript's StrWhiteSpaceChar: white space and line terminators. */
  predicate IsWhiteSpace(c: char) {
    var u := c as int;
    u == 0x09 || u == 0x0A || u == 0x0B || u == 0x0C || u == 0x0D || u == 0x20 || u == 0xA0
    || u == 0x1680 || (0x2000 <= u <= 0x200A) || u == 0x2028 || u == 0x2029 || u == 0x202F
    || u == 0x205F || u == 0x3000 || u == 0xFEFF
  }

  /** How many white-space characters `s` starts with. */
  function LeadingWhiteSpace(s: string): (k: nat)
    ensures k <= |s|
  {
    if s != [] && IsWhiteSpace(s[0]) then 1 + LeadingWhiteSpace(s[1..]) else 0
  }

  /** `s.trimStart()`: the string with its leading white space removed. */
  function TrimStart(s: string): string {
    s[LeadingWhiteSpace(s)..]
  }

  /** How many decimal digits `s` starts with. */
  function LeadingDigits(s: string): (k: nat)
    ensures k <= |s|
  {
    if s != [] && IsDigit(s[0]) then 1 + LeadingDigits(s[1..]) else 0
  }

  /** The longest prefix of `s` made of decimal digits. */
  function DigitPrefix(s: string): string {
    s[..LeadingDigits(s)]
  }

  /** `DigitPrefix` takes digits only, and stops at the first character that is not one. */
  lemma {:induction false} DigitPrefixIsLongest(s: string)
    ensures AllDigits(DigitPrefix(s))
    ensures var k := LeadingDigits(s); k < |s| ==> !IsDigit(s[k])
  {
    if s != [] && IsDigit(s[0]) {
      DigitPrefixIsLongest(s[1..]);
      assert DigitPrefix(s) == [s[0]] + DigitPrefix(s[1..]);
    }
  }

  /**
   * `parseInt(s, 10)`: skip leading white space, read an optional sign and then as many
   * digits as there are; NaN (`None`) when there is no digit.
   */
  function ParseInt(s: string): Option<int> {
    var t := TrimStart(s);
    var negative := t != [] && t[0] == '-';
    var body := if t != [] && (t[0] == '+' || t[0] == '-') then t[1..] else t;
    var digits := DigitPrefix(body);
    if digits == [] then None
    else
      var magnitude: int := DigitsValue(digits);
      Some(if negative then -magnitude else magnitude)
  }

  /** `parseInt` reads a number only where the text holds a digit. */
  lemma ParseIntNeedsDigit(s: string)
    ensures ParseInt(s).Some? ==> exists i :: 0 <= i < |s| && IsDigit(s[i])
  {
    var t := TrimStart(s);
    var body := if t != [] && (t[0] == '+' || t[0] == '-') then t[1..] else t;
    if ParseInt(s).Some? {
      DigitPrefixIsLongest(body);
      assert body == s[|s| - |body|..] && body[0] == DigitPrefix(body)[0];
    }
  }

  lemma {:induction false} DigitsAreLeading(s: string)
    requires AllDigits(s)
    ensures LeadingDigits(s) == |s|
  {
    if s != [] {
      DigitsAreLeading(s[1..]);
    }
  }

  /** A plain digit string reads as its value. */
  lemma ParseIntOfDigits(s: string)
    requires AllDigits(s) && s != []
    ensures ParseInt(s) == Some(DigitsValue(s))
  {
    assert !IsWhiteSpace(s[0]);
    assert TrimStart(s) == s;
    DigitsAreLeading(s);
    assert DigitPrefix(s) == s;
  }

  /** `n.toString(10).padStart(4, '0')` for `n >= 0`: the digits of `n`, zero-padded to at least four. */
  lemma PaddedDigits(n: int)
    requires n >= 0
    ensures var p := PadStart(NumberToString(Some(n)), 4, '0');
            |p| == (if |NatToString(n)| >= 4 then |NatToString(n)| else 4)
            && AllDigits(p) && DigitsValue(p) == n
  {
    var digits := NatToString(n);
    assert NumberToString(Some(n)) == digits;
    NatToStringRoundTrip(n);
    if |digits| < 4 {
      LeadingZerosValue(4 - |digits|, digits);
    }
  }

  /** Without a '-' anywhere, `parseInt` gives NaN or a non-negative number. */
  lemma ParseIntWithoutMinus(s: string)
    requires forall i :: 0 <= i < |s| ==> s[i] != '-'
    ensures ParseInt(s).None? || ParseInt(s).value >= 0
  {
    var t := TrimStart(s);
    assert t != [] ==> t[0] == s[LeadingWhiteSpace(s)];
  }
}

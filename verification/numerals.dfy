/** Decimal digit strings, the way the kiosk stores an amount: the keypad
    buffer is a string of digits read with `parseInt`, and the POS checkout
    writes a cart total into it with `Number.prototype.toString`. */
module Numerals {
  import opened Wrappers

  predicate IsDigit(c: char) {
    '0' <= c <= '9'
  }

  /** A key of the numeric keypad. */
  type Digit = c: char | IsDigit(c) witness '0'

  function DigitValue(c: char): nat
    requires IsDigit(c)
  {
    (c as int) - ('0' as int)
  }

  function DigitChar(n: nat): (c: char)
    requires n < 10
    ensures IsDigit(c) && DigitValue(c) == n
  {
    (('0' as int) + n) as char
  }

  predicate AllDigits(s: string) {
    forall i :: 0 <= i < |s| ==> IsDigit(s[i])
  }

  /** A canonical decimal numeral: at least one digit, and no leading zero
      unless the numeral is "0" itself. */
  predicate Canonical(s: string) {
    |s| >= 1 && AllDigits(s) && (s[0] == '0' ==> |s| == 1)
  }

  /** The number a digit string spells, most significant digit first. */
  function Value(s: string): nat
    requires AllDigits(s)
    decreases |s|
  {
    if s == [] then 0 else 10 * Value(s[..|s| - 1]) + DigitValue(s[|s| - 1])
  }

  /** The length of the longest prefix of `s` made of digits. */
  function LeadingDigits(s: string): (k: nat)
    ensures k <= |s|
    ensures AllDigits(s[..k])
    ensures k < |s| ==> !IsDigit(s[k])
    decreases |s|
  {
    if s == [] || !IsDigit(s[0]) then 0
    else
      var k := LeadingDigits(s[1..]);
      assert s[..k + 1] == [s[0]] + s[1..][..k];
      1 + k
  }

  /** `parseInt(s)` on strings without leading blanks or `+` sign: an optional
      `-`, then the digits up to the first non-digit; `None` stands for `NaN`,
      the result when no digit follows. */
  function ParseInt(s: string): (r: Option<int>)
    ensures s == [] ==> r.None?
    ensures |s| > 0 && IsDigit(s[0]) ==> r.Some? && r.value >= 0
    ensures |s| > 0 && !IsDigit(s[0]) && s[0] != '-' ==> r.None?
    ensures r.Some? && r.value < 0 ==> s[0] == '-'
  {
    var negative := |s| > 0 && s[0] == '-';
    var body := if negative then s[1..] else s;
    var k := LeadingDigits(body);
    if k == 0 then None
    else if negative then Some(0 - Value(body[..k]) as int)
    else Some(Value(body[..k]))
  }

  /** The decimal numeral of a natural number. */
  function NatToString(n: nat): (s: string)
    ensures Canonical(s)
    decreases n
  {
    if n < 10 then [DigitChar(n)]
    else
      var prefix := NatToString(n / 10);
      assert prefix[0] != '0';
      prefix + [DigitChar(n % 10)]
  }

  /** `n.toString()` for an integer number: a canonical numeral, after a
      minus sign when `n` is negative. */
  function IntToString(n: int): (s: string)
    ensures n >= 0 ==> Canonical(s)
    ensures n < 0 ==> |s| >= 2 && s[0] == '-' && Canonical(s[1..])
  {
    if n < 0 then
      var digits := NatToString(-n);
      assert ("-" + digits)[1..] == digits;
      "-" + digits
    else NatToString(n)
  }

  /** The numeral of `n` spells `n`. */
  lemma {:induction false} ValueOfNatToString(n: nat)
    ensures Value(NatToString(n)) == n
    decreases n
  {
    if n >= 10 {
      ValueOfNatToString(n / 10);
      var s := NatToString(n);
      assert s[..|s| - 1] == NatToString(n / 10);
    }
  }

  /** A canonical numeral that does not start with '0' spells a positive number. */
  lemma {:induction false} LeadingNonZeroIsPositive(s: string)
    requires Canonical(s) && s[0] != '0'
    ensures Value(s) > 0
    decreases |s|
  {
    if |s| > 1 {
      LeadingNonZeroIsPositive(s[..|s| - 1]);
    }
  }

  /** Every canonical numeral is the numeral of the number it spells, so
      `NatToString` and `Value` are inverse bijections between the naturals and
      the canonical numerals. */
  lemma {:induction false} NatToStringOfValue(s: string)
    requires Canonical(s)
    ensures NatToString(Value(s)) == s
    decreases |s|
  {
    if |s| > 1 {
      var prefix := s[..|s| - 1];
      assert Canonical(prefix);
      LeadingNonZeroIsPositive(prefix);
      NatToStringOfValue(prefix);
      assert s == prefix + [s[|s| - 1]];
    }
  }

  /** A string made only of digits is read whole by `parseInt`. */
  lemma {:induction false} LeadingDigitsOfDigits(s: string)
    requires AllDigits(s)
    ensures LeadingDigits(s) == |s|
    decreases |s|
  {
    if s != [] {
      LeadingDigitsOfDigits(s[1..]);
    }
  }

  /** `parseInt` reads a non-empty digit string as the number it spells. */
  lemma ParseIntOfDigits(s: string)
    requires AllDigits(s) && |s| >= 1
    ensures ParseInt(s) == Some(Value(s))
  {
    LeadingDigitsOfDigits(s);
    assert s[..|s|] == s;
  }

  /** `parseInt(n.toString()) === n`: the round trip the POS checkout relies on
      when it hands the cart total to the payment screens as a string. */
  lemma ParseIntOfIntToString(n: int)
    ensures ParseInt(IntToString(n)) == Some(n)
  {
    if n < 0 {
      var digits := NatToString(-n);
      ValueOfNatToString(-n);
      ParseIntOfDigits(digits);
      assert IntToString(n)[1..] == digits;
    } else {
      ValueOfNatToString(n);
      ParseIntOfDigits(NatToString(n));
    }
  }
}

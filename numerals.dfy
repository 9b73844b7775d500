/**
 * Text rendering of integers as the stream-description code produces it:
 * `ostream << int` (signed decimal) and `sprintf "%04X"` (upper-case
 * hexadecimal, zero-padded to at least four digits), together with a reader
 * for each rendering so that round trips can be stated.
 */
module Numerals {

  /** The digit character for d: '0'..'9', then upper-case 'A'..'F' for 10..15. */
  function DigitChar(d: nat): (c: char)
    requires d < 16
  {
    if d < 10 then ('0' as int + d) as char else ('A' as int + d - 10) as char
  }

  /** The value of a digit character ('0'..'9', 'A'..'F'); 0 for anything else. */
  function DigitValue(c: char): nat {
    if '0' <= c <= '9' then c as int - '0' as int
    else if 'A' <= c <= 'F' then c as int - 'A' as int + 10
    else 0
  }

  /** One of the characters DigitChar writes. */
  predicate IsDigit(c: char) {
    '0' <= c <= '9' || 'A' <= c <= 'F'
  }

  /** Euclidean division facts the digit recursion needs. */
  lemma DivStep(n: nat, base: nat)
    requires 2 <= base <= n
    ensures n / base < n
    ensures n % base < base
    ensures n == n / base * base + n % base
  {
  }

  lemma DigitCharValue(d: nat)
    requires d < 16
    ensures DigitValue(DigitChar(d)) == d
    ensures IsDigit(DigitChar(d))
  {
  }

  /** The digits of n in the given base, most significant first, with no leading zero. */
  function Digits(n: nat, base: nat): (s: string)
    requires 2 <= base <= 16
    ensures 1 <= |s|
    ensures forall i :: 0 <= i < |s| ==> IsDigit(s[i])
    ensures n > 0 ==> s[0] != '0'
    decreases n
  {
    if n < base then
      DigitCharValue(n);
      [DigitChar(n)]
    else
      DivStep(n, base);
      DigitCharValue(n % base);
      Digits(n / base, base) + [DigitChar(n % base)]
  }

  /** Every digit of n in the given base has a value below the base. */
  lemma {:induction false} DigitsBelowBase(n: nat, base: nat)
    requires 2 <= base <= 16
    ensures forall i :: 0 <= i < |Digits(n, base)| ==> DigitValue(Digits(n, base)[i]) < base
    decreases n
  {
    if n < base {
      DigitCharValue(n);
    } else {
      DivStep(n, base);
      DigitsBelowBase(n / base, base);
      DigitCharValue(n % base);
      var d := Digits(n, base);
      assert d == Digits(n / base, base) + [DigitChar(n % base)];
    }
  }

  /** Reads a digit string in the given base, most significant digit first. */
  function ValueOf(s: string, base: nat): nat {
    if s == [] then 0
    else ValueOf(s[..|s| - 1], base) * base + DigitValue(s[|s| - 1])
  }

  lemma ValueOfSnoc(s: string, c: char, base: nat)
    ensures ValueOf(s + [c], base) == ValueOf(s, base) * base + DigitValue(c)
  {
    assert (s + [c])[..|s|] == s;
  }

  lemma {:induction false} DigitsRoundTrip(n: nat, base: nat)
    requires 2 <= base <= 16
    ensures ValueOf(Digits(n, base), base) == n
    decreases n
  {
    if n < base {
      DigitCharValue(n);
      ValueOfSnoc([], DigitChar(n), base);
    } else {
      DivStep(n, base);
      DigitsRoundTrip(n / base, base);
      DigitCharValue(n % base);
      ValueOfSnoc(Digits(n / base, base), DigitChar(n % base), base);
    }
  }

  /** `ostream << i` for an int: an optional minus sign, then the decimal digits. */
  function Decimal(i: int): (s: string)
    ensures 1 <= |s|
    ensures (s[0] == '-') <==> i < 0
    ensures forall j :: (if i < 0 then 1 else 0) <= j < |s| ==> '0' <= s[j] <= '9'
    ensures i < 0 ==> 2 <= |s|
    ensures i != 0 ==> s[if i < 0 then 1 else 0] != '0'
    ensures i == 0 ==> s == "0"
  {
    var m: nat := if i < 0 then -i else i;
    DigitsBelowBase(m, 10);
    if i < 0 then "-" + Digits(m, 10) else Digits(m, 10)
  }

  /** Reads back what Decimal writes. */
  function ParseDecimal(s: string): int {
    if |s| > 0 && s[0] == '-' then 0 - ValueOf(s[1..], 10) else ValueOf(s, 10)
  }

  lemma DecimalRoundTrip(i: int)
    ensures ParseDecimal(Decimal(i)) == i
  {
    if i < 0 {
      NegativeRoundTrip(i);
    } else {
      NonNegativeRoundTrip(i);
    }
  }

  lemma NegativeRoundTrip(i: int)
    requires i < 0
    ensures ParseDecimal(Decimal(i)) == i
  {
    ParseSigned(Digits(-i, 10));
    DigitsRoundTrip(-i, 10);
  }

  lemma ParseSigned(d: string)
    ensures ParseDecimal("-" + d) == 0 - ValueOf(d, 10)
  {
    assert ("-" + d)[1..] == d;
  }

  lemma NonNegativeRoundTrip(i: nat)
    ensures ParseDecimal(Decimal(i)) == i
  {
    var d := Digits(i, 10);
    assert IsDigit(d[0]);
    DigitsRoundTrip(i, 10);
  }

  function Zeros(k: nat): (z: string)
    ensures |z| == k
    ensures forall i :: 0 <= i < k ==> z[i] == '0'
  {
    seq(k, _ => '0')
  }

  lemma {:induction false} LeadingZeros(k: nat, s: string, base: nat)
    ensures ValueOf(Zeros(k) + s, base) == ValueOf(s, base)
    decreases |s|
  {
    if s == [] {
      assert Zeros(k) + s == Zeros(k);
      ZerosValue(k, base);
    } else {
      var init, last := s[..|s| - 1], s[|s| - 1];
      assert s == init + [last];
      assert Zeros(k) + s == (Zeros(k) + init) + [last];
      ValueOfSnoc(Zeros(k) + init, last, base);
      ValueOfSnoc(init, last, base);
      LeadingZeros(k, init, base);
    }
  }

  lemma {:induction false} ZerosValue(k: nat, base: nat)
    ensures ValueOf(Zeros(k), base) == 0
  {
    if k > 0 {
      assert Zeros(k) == Zeros(k - 1) + ['0'];
      ValueOfSnoc(Zeros(k - 1), '0', base);
      ZerosValue(k - 1, base);
    }
  }

  /** `sprintf "%04X"` of an unsigned value: hexadecimal, padded with zeros to four digits. */
  function Hex4(n: nat): (s: string)
    ensures |s| == if |Digits(n, 16)| < 4 then 4 else |Digits(n, 16)|
    ensures forall i :: 0 <= i < |s| ==> IsDigit(s[i])
  {
    var d := Digits(n, 16);
    if |d| < 4 then Zeros(4 - |d|) + d else d
  }

  lemma Hex4RoundTrip(n: nat)
    ensures ValueOf(Hex4(n), 16) == n
    ensures |Digits(n, 16)| >= 4 ==> Hex4(n) == Digits(n, 16)
  {
    var d := Digits(n, 16);
    DigitsRoundTrip(n, 16);
    if |d| < 4 {
      LeadingZeros(4 - |d|, d, 16);
    }
  }
}

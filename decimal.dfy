/** Exact decimal arithmetic on digit strings: the part of JavaScript's
    `BigInt` parsing and `toString()` rendering that the allowance
    submission relies on. */
module Decimal {

  predicate IsDigit(c: char) { '0' <= c <= '9' }

  /** Every character is an ASCII decimal digit (the empty string included). */
  predicate AllDigits(s: string) { forall i :: 0 <= i < |s| ==> IsDigit(s[i]) }

  /** A non-empty string of decimal digits, such as "5" or "0042". */
  predicate IsDigits(s: string) { |s| > 0 && AllDigits(s) }

  /** A digit string without leading zeros: the form `toString()` produces. */
  predicate Canonical(s: string) { IsDigits(s) && (s[0] == '0' ==> |s| == 1) }

  function DigitValue(c: char): (d: nat)
    requires IsDigit(c)
    ensures d < 10
  {
    c as int - '0' as int
  }

  function DigitChar(d: nat): (c: char)
    requires d < 10
    ensures IsDigit(c) && DigitValue(c) == d
  {
    ('0' as int + d) as char
  }

  lemma DigitCharOfValue(c: char)
    requires IsDigit(c)
    ensures DigitChar(DigitValue(c)) == c
  {
  }

  /** The number a digit string denotes, most significant digit first. */
  function Value(s: string): nat
    requires AllDigits(s)
  {
    if |s| == 0 then 0 else Value(s[..|s| - 1]) * 10 + DigitValue(s[|s| - 1])
  }

  /** The decimal rendering of a natural number, as `toString()` gives it. */
  function NatToDecimal(n: nat): (s: string)
    ensures Canonical(s)
    ensures |s| == 1 <==> n < 10
  {
    if n < 10 then [DigitChar(n)] else NatToDecimal(n / 10) + [DigitChar(n % 10)]
  }

  /** The decimal rendering of an integer, with a leading '-' for negatives. */
  function IntToDecimal(i: int): (s: string)
    ensures |s| > 0
    ensures s[0] == '-' <==> i < 0
    ensures i >= 0 ==> Canonical(s) && Value(s) == i
    ensures i < 0 ==> Canonical(s[1..]) && Value(s[1..]) == -i
  {
    ValueOfNatToDecimal(if i < 0 then -i else i);
    if i < 0 then
      var s := "-" + NatToDecimal(-i);
      assert s[1..] == NatToDecimal(-i);
      s
    else
      NatToDecimal(i)
  }

  /** Reading back a rendered number gives the number. */
  lemma {:induction false} ValueOfNatToDecimal(n: nat)
    ensures Value(NatToDecimal(n)) == n
  {
    var s := NatToDecimal(n);
    if n >= 10 {
      ValueOfNatToDecimal(n / 10);
      assert s[..|s| - 1] == NatToDecimal(n / 10);
    }
  }

  /** A digit string whose first digit is not '0' denotes a positive number. */
  lemma {:induction false} ValuePositive(s: string)
    requires IsDigits(s) && s[0] != '0'
    ensures Value(s) > 0
  {
    if |s| > 1 {
      ValuePositive(s[..|s| - 1]);
    }
  }

  /** Rendering the number a canonical digit string denotes gives that string back. */
  lemma {:induction false} NatToDecimalOfValue(s: string)
    requires Canonical(s)
    ensures NatToDecimal(Value(s)) == s
  {
    var last := s[|s| - 1];
    DigitCharOfValue(last);
    if |s| > 1 {
      var p := s[..|s| - 1];
      assert Canonical(p);
      ValuePositive(p);
      NatToDecimalOfValue(p);
      assert s == p + [last];
    }
  }

  /** Multiplying a positive number by ten appends one '0' to its rendering. */
  lemma TimesTen(n: nat)
    requires n > 0
    ensures NatToDecimal(n * 10) == NatToDecimal(n) + "0"
  {
    assert (n * 10) / 10 == n && (n * 10) % 10 == 0;
  }

  /** Scaling by 1000 with exact integers appends three zeros to a positive
      number's rendering and leaves zero as "0". */
  lemma ScaleByThousand(n: nat)
    ensures NatToDecimal(n * 1000) == if n == 0 then "0" else NatToDecimal(n) + "000"
  {
    if n > 0 {
      TimesTen(n);
      TimesTen(n * 10);
      TimesTen(n * 100);
      assert n * 100 * 10 == n * 1000;
    }
  }
}

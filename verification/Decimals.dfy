/** Natural numbers in decimal, as text formatting prints them and `int` reads them. */
module Decimals {

  predicate Digit(c: char) {
    '0' <= c <= '9'
  }

  function DigitOf(n: nat): (c: char)
    requires n < 10
    ensures Digit(c) && ValueOf(c) == n
  {
    '0' + n as char
  }

  function ValueOf(c: char): (n: nat)
    requires Digit(c)
    ensures n < 10
  {
    (c - '0') as int
  }

  /** A number in decimal, without leading zeros. */
  function Decimal(n: nat): (s: string)
    ensures s != [] && forall i :: 0 <= i < |s| ==> Digit(s[i])
    ensures n > 0 ==> s[0] != '0'
  {
    if n < 10 then [DigitOf(n)] else Decimal(n / 10) + [DigitOf(n % 10)]
  }

  predicate Digits(s: string) {
    forall i :: 0 <= i < |s| ==> Digit(s[i])
  }

  function Number(s: string): nat
    requires Digits(s)
  {
    if s == "" then 0 else 10 * Number(s[..|s| - 1]) + ValueOf(s[|s| - 1])
  }

  lemma {:induction false} NumberOfDecimal(n: nat)
    ensures Number(Decimal(n)) == n
  {
    var s := Decimal(n);
    if n < 10 {
      assert s[..0] == "";
    } else {
      NumberOfDecimal(n / 10);
      assert s[..|s| - 1] == Decimal(n / 10);
    }
  }

  lemma {:induction false} DecimalOfNumber(s: string)
    requires Digits(s) && s != "" && s[0] != '0'
    ensures Number(s) > 0 && Decimal(Number(s)) == s
  {
    var front, last := s[..|s| - 1], s[|s| - 1];
    assert s == front + [last];
    if |s| == 1 {
      assert Number(s) == ValueOf(last);
      assert ValueOf(last) == 0 ==> last == '0';
    } else {
      assert front[0] == s[0];
      DecimalOfNumber(front);
      assert Number(s) == 10 * Number(front) + ValueOf(last);
      assert Number(s) / 10 == Number(front) && Number(s) % 10 == ValueOf(last);
      assert DigitOf(ValueOf(last)) == last;
    }
  }
}

// Base-ten numerals: what strconv.Itoa and the %d verb print, and the value a digit string denotes.

module Decimal {

  predicate IsDigit(c: char) {
    '0' <= c <= '9'
  }

  predicate AllDigits(s: string) {
    forall k :: 0 <= k < |s| ==> IsDigit(s[k])
  }

  function DigitValue(c: char): (d: nat)
    requires IsDigit(c)
    ensures d < 10
  {
    c as int - '0' as int
  }

  function DigitChar(d: nat): (c: char)
    requires d < 10
    ensures IsDigit(c) && DigitValue(c) == d
  {
    ('0' as int + d) as char
  }

  lemma DigitsAreDecimal(c: char)
    requires IsDigit(c)
    ensures c == "0123456789"[DigitValue(c)]
  {
  }

  // The number a digit string denotes; the empty string denotes 0.
  function Value(s: string): nat
    requires AllDigits(s)
  {
    if s == [] then 0 else 10 * Value(s[..|s| - 1]) + DigitValue(s[|s| - 1])
  }

  // The decimal form without leading zeros.
  function Show(n: nat): string {
    if n < 10 then [DigitChar(n)] else Show(n / 10) + [DigitChar(n % 10)]
  }

  // strconv.Itoa
  function Itoa(n: int): string {
    if n < 0 then "-" + Show(-n) else Show(n)
  }

  lemma {:induction false} ShowDenotes(n: nat)
    ensures Show(n) != [] && AllDigits(Show(n)) && Value(Show(n)) == n
    ensures n > 0 ==> Show(n)[0] != '0'
  {
    if n >= 10 {
      ShowDenotes(n / 10);
      assert Show(n)[..|Show(n)| - 1] == Show(n / 10);
    }
  }

  // A number that is not negative prints as its digits, a negative one as a minus and the digits.
  lemma ItoaDenotes(n: int)
    ensures n >= 0 ==> AllDigits(Itoa(n)) && Value(Itoa(n)) == n
    ensures n < 0 ==> Itoa(n) != [] && Itoa(n)[0] == '-' && AllDigits(Itoa(n)[1..]) && Value(Itoa(n)[1..]) == -n
  {
    ShowDenotes(if n < 0 then -n else n);
  }

  lemma ItoaSign(n: int)
    ensures Itoa(n) != [] && (Itoa(n)[0] == '-' <==> n < 0)
  {
    ShowDenotes(if n < 0 then -n else n);
    assert !IsDigit('-');
  }

  // Two different numbers never print alike, so a status label identifies its status.
  lemma ItoaInjective(a: int, b: int)
    requires Itoa(a) == Itoa(b)
    ensures a == b
  {
    ItoaSign(a);
    ItoaSign(b);
    ShowDenotes(if a < 0 then -a else a);
    ShowDenotes(if b < 0 then -b else b);
    if a < 0 {
      assert Show(-a) == Itoa(a)[1..] == Itoa(b)[1..] == Show(-b);
    }
  }

  // Reading on never lowers the value: an overflow seen after a prefix is an overflow of the whole.
  lemma {:induction false} PrefixValue(s: string, k: nat)
    requires AllDigits(s) && k <= |s|
    ensures Value(s[..k]) <= Value(s)
  {
    if k < |s| {
      PrefixValue(s[..|s| - 1], k);
      assert s[..|s| - 1][..k] == s[..k];
    } else {
      assert s[..k] == s;
    }
  }
}

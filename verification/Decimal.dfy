/** Decimal text of whole numbers and of amounts held in cents. */
module Decimal {
  import opened Basics

  predicate IsDigit(c: char) { '0' <= c <= '9' }

  predicate AllDigits(s: string) { forall i :: 0 <= i < |s| ==> IsDigit(s[i]) }

  function DigitOf(d: nat): (c: char)
    requires d < 10
    ensures IsDigit(c)
  {
    '0' + d as char
  }

  function ValueOf(c: char): (d: nat)
    requires IsDigit(c)
    ensures d < 10 && DigitOf(d) == c
  {
    c as int - '0' as int
  }

  /** `String(n)`: no sign, no leading zero. */
  function Text(n: nat): (s: string)
    ensures |s| >= 1 && AllDigits(s)
  {
    if n < 10 then [DigitOf(n)] else Text(n / 10) + [DigitOf(n % 10)]
  }

  function Parse(s: string): nat
    requires AllDigits(s)
  {
    if s == "" then 0 else Parse(s[..|s| - 1]) * 10 + ValueOf(s[|s| - 1])
  }

  lemma {:induction false} ParseText(n: nat)
    ensures Parse(Text(n)) == n
  {
    if n < 10 {
      assert Text(n)[..0] == "";
    } else {
      ParseText(n / 10);
      assert Text(n)[..|Text(n)| - 1] == Text(n / 10);
    }
  }

  lemma TextInjective(m: nat, n: nat)
    requires Text(m) == Text(n)
    ensures m == n
  {
    ParseText(m);
    ParseText(n);
  }

  /** `amount.toFixed(2)` of an amount held in cents: a sign when negative, then exactly two decimals. */
  function Fixed2(cents: int): string {
    if cents < 0 then "-" + Unsigned2(-cents) else Unsigned2(cents)
  }

  function Unsigned2(cents: nat): string {
    Text(cents / 100) + "." + [DigitOf(cents / 10 % 10), DigitOf(cents % 10)]
  }

  lemma Unsigned2Injective(m: nat, n: nat)
    requires Unsigned2(m) == Unsigned2(n)
    ensures m == n
  {
    var a, b := Text(m / 100), Text(n / 100);
    var x, y := [DigitOf(m / 10 % 10), DigitOf(m % 10)], [DigitOf(n / 10 % 10), DigitOf(n % 10)];
    assert a + ['.'] + x == Unsigned2(m) == Unsigned2(n) == b + ['.'] + y;
    SplitAtFirst(a, '.', x, b, y);
    TextInjective(m / 100, n / 100);
    assert ValueOf(x[0]) == ValueOf(y[0]) && ValueOf(x[1]) == ValueOf(y[1]);
    Recompose(m);
    Recompose(n);
  }

  lemma Recompose(n: nat)
    ensures n == 100 * (n / 100) + 10 * (n / 10 % 10) + n % 10
  {
    assert n / 10 / 10 == n / 100;
  }

  /** Two amounts rendered alike are the same number of cents. */
  lemma Fixed2Injective(m: int, n: int)
    requires Fixed2(m) == Fixed2(n)
    ensures m == n
  {
    assert Fixed2(m)[0] == '-' <==> m < 0 by { if m >= 0 { assert Fixed2(m)[0] == Text(m / 100)[0]; } }
    assert Fixed2(n)[0] == '-' <==> n < 0 by { if n >= 0 { assert Fixed2(n)[0] == Text(n / 100)[0]; } }
    if m < 0 {
      assert Unsigned2(-m) == Fixed2(m)[1..] && Unsigned2(-n) == Fixed2(n)[1..];
      Unsigned2Injective(-m, -n);
    } else {
      Unsigned2Injective(m, n);
    }
  }

  /** `String(n)` of a possibly negative integer. */
  function IntText(n: int): string {
    if n < 0 then "-" + Text(-n) else Text(n)
  }

  lemma IntTextInjective(m: int, n: int)
    requires IntText(m) == IntText(n)
    ensures m == n
  {
    assert IntText(m)[0] == IntText(n)[0];
    if m < 0 {
      assert Text(-m) == IntText(m)[1..] && Text(-n) == IntText(n)[1..];
      TextInjective(-m, -n);
    } else {
      TextInjective(m, n);
    }
  }

  lemma {:induction false} NoLeadingZero(n: nat)
    ensures Text(n)[0] == '0' ==> n == 0
  {
    if n >= 10 {
      NoLeadingZero(n / 10);
      assert Text(n)[0] == Text(n / 10)[0];
    }
  }

  /** AMOUNTS READ BACK. The text of an amount is its units without a leading zero, a point, and two digits that are its
      cents. */
  lemma Fixed2Reads(cents: nat) returns (units: string, tens: char, ones: char)
    ensures Fixed2(cents) == units + "." + [tens, ones]
    ensures units != "" && AllDigits(units) && (units[0] == '0' ==> units == "0") && IsDigit(tens) && IsDigit(ones)
    ensures 100 * Parse(units) + 10 * (tens as int - '0' as int) + (ones as int - '0' as int) == cents
    ensures cents > 0 ==> Fixed2(0 - cents) == "-" + Fixed2(cents)
  {
    units, tens, ones := Text(cents / 100), DigitOf(cents / 10 % 10), DigitOf(cents % 10);
    ParseText(cents / 100);
    NoLeadingZero(cents / 100);
    Recompose(cents);
  }
}

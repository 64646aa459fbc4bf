/** The IBAN check of src/common/validators/is-iban.validator.ts: ISO 7064 MOD 97-10 over the rearranged
    and expanded text, and the errors it detects. */
module Iban {
  import opened Basics
  import Decimal

  predicate IsDigit(c: char) { '0' <= c <= '9' }
  predicate IsLetter(c: char) { 'A' <= c <= 'Z' }
  predicate IsAlnum(c: char) { IsDigit(c) || IsLetter(c) }

  predicate AllDigits(s: string) { forall i :: 0 <= i < |s| ==> IsDigit(s[i]) }
  predicate AllAlnum(s: string) { forall i :: 0 <= i < |s| ==> IsAlnum(s[i]) }

  function Digit(c: char): nat
    requires IsDigit(c)
  {
    c as int - '0' as int
  }

  /** The number a digit string denotes. */
  function Number(s: string): nat
    requires AllDigits(s)
  {
    if s == "" then 0 else 10 * Number(s[..|s| - 1]) + Digit(s[|s| - 1])
  }

  /** `mod97`: a remainder carried from digit to digit. */
  method Mod97(input: string) returns (remainder: nat)
    requires AllDigits(input)
    ensures remainder == Number(input) % 97
  {
    remainder := 0;
    for i := 0 to |input|
      invariant remainder == Number(input[..i]) % 97
    {
      assert input[..i + 1][..i] == input[..i];
      CarryRemainder(Number(input[..i]), Digit(input[i]));
      remainder := (remainder * 10 + Digit(input[i])) % 97;
    }
    assert input[..|input|] == input;
  }

  lemma CarryRemainder(n: nat, d: nat)
    ensures (10 * n + d) % 97 == (10 * (n % 97) + d) % 97
  {
    assert 10 * n + d == 97 * (10 * (n / 97)) + (10 * (n % 97) + d);
    ModShift(10 * (n % 97) + d, 10 * (n / 97));
  }

  lemma ModShift(x: int, k: int)
    ensures (97 * k + x) % 97 == x % 97
  {
  }

  // ---------------------------------------------------------------------------------------------
  // The check
  // ---------------------------------------------------------------------------------------------

  /** The value of a character, and the weight it shifts what precedes it by. */
  function Value(c: char): nat
    requires IsAlnum(c)
  {
    if IsDigit(c) then c as int - '0' as int else c as int - 55
  }

  function Weight(c: char): nat { if IsDigit(c) then 10 else 100 }

  /** `String(code - 55)`, two digits for a letter. */
  function Expand(c: char): (r: string)
    requires IsAlnum(c)
    ensures AllDigits(r)
  {
    if IsDigit(c) then [c]
    else ['0' + (Value(c) / 10) as char, '0' + (Value(c) % 10) as char]
  }

  function ExpandAll(s: string): (r: string)
    requires AllAlnum(s)
    ensures AllDigits(r)
  {
    if s == "" then "" else ExpandAll(s[..|s| - 1]) + Expand(s[|s| - 1])
  }

  function Rearrange(iban: string): string
    requires |iban| >= 4
  {
    iban[4..] + iban[..4]
  }

  predicate IsSpacing(c: char) { IsBlank(c) || c == '-' }

  function Upper(c: char): char { if 'a' <= c <= 'z' then 'A' + (c - 'a') else c }

  /** `normalizeIban` on ASCII text. */
  function Normalize(s: string): string {
    if s == "" then ""
    else (if IsSpacing(s[0]) then "" else [Upper(s[0])]) + Normalize(s[1..])
  }

  /** `^[A-Z]{2}\d{2}[A-Z0-9]{11,30}$`, and the length of the country when it is known. */
  predicate WellFormed(iban: string, lengths: map<string, nat>) {
    15 <= |iban| <= 34 && IsLetter(iban[0]) && IsLetter(iban[1]) && IsDigit(iban[2]) && IsDigit(iban[3])
    && AllAlnum(iban)
    && (iban[..2] in lengths ==> |iban| == lengths[iban[..2]])
  }

  predicate IsValid(iban: string, lengths: map<string, nat>) {
    WellFormed(iban, lengths)
    && (RearrangedAlnum(iban); Number(ExpandAll(Rearrange(iban))) % 97 == 1)
  }

  lemma RearrangedAlnum(iban: string)
    requires |iban| >= 4 && AllAlnum(iban)
    ensures AllAlnum(Rearrange(iban))
  {
  }

  method IsValidIban(value: string, lengths: map<string, nat>) returns (ok: bool)
    ensures ok == IsValid(Normalize(value), lengths)
  {
    var iban := Normalize(value);
    if !WellFormed(iban, lengths) {
      return false;
    }
    var rearranged := Rearrange(iban);
    var remainder := Mod97(ExpandAll(rearranged));
    ok := remainder == 1;
  }

  // ---------------------------------------------------------------------------------------------
  // What the check detects
  // ---------------------------------------------------------------------------------------------

  /** The number of the expanded text, computed on the characters. */
  function Big(s: string): nat
    requires AllAlnum(s)
  {
    if s == "" then 0 else Weight(s[|s| - 1]) * Big(s[..|s| - 1]) + Value(s[|s| - 1])
  }

  lemma {:induction false} ExpandedNumber(s: string)
    requires AllAlnum(s)
    ensures Number(ExpandAll(s)) == Big(s)
  {
    if s != "" {
      var front, c := s[..|s| - 1], s[|s| - 1];
      ExpandedNumber(front);
      var e := ExpandAll(front);
      if IsDigit(c) {
        assert (e + [c])[..|e|] == e;
      } else {
        var x, y := Expand(c)[0], Expand(c)[1];
        assert ExpandAll(s) == e + [x, y];
        NumberTwo(e, x, y);
      }
    }
  }

  lemma NumberTwo(e: string, x: char, y: char)
    requires AllDigits(e) && IsDigit(x) && IsDigit(y)
    ensures Number(e + [x, y]) == 100 * Number(e) + 10 * Digit(x) + Digit(y)
  {
    assert (e + [x, y])[..|e| + 1] == e + [x];
    assert (e + [x])[..|e|] == e;
  }

  /** The power of ten by which a text shifts what precedes it. */
  function Shift(s: string): nat {
    if s == "" then 1 else Weight(s[|s| - 1]) * Shift(s[..|s| - 1])
  }

  lemma {:induction false} BigConcat(s: string, t: string)
    requires AllAlnum(s) && AllAlnum(t)
    ensures AllAlnum(s + t) && Big(s + t) == Shift(t) * Big(s) + Big(t)
  {
    if t == "" {
      assert s + t == s;
    } else {
      var u, c := t[..|t| - 1], t[|t| - 1];
      BigConcat(s, u);
      assert (s + t)[..|s + t| - 1] == s + u;
      Distribute(Weight(c), Shift(u), Big(s), Big(u), Value(c));
    }
  }

  lemma Distribute(w: nat, p: nat, a: nat, b: nat, v: nat)
    ensures w * (p * a + b) + v == (w * p) * a + (w * b + v)
  {
  }

  /** The check, on the characters. */
  lemma ValidIff(iban: string, lengths: map<string, nat>)
    requires WellFormed(iban, lengths)
    ensures AllAlnum(Rearrange(iban)) && (IsValid(iban, lengths) <==> Big(Rearrange(iban)) % 97 == 1)
  {
    RearrangedAlnum(iban);
    ExpandedNumber(Rearrange(iban));
  }

  predicate SameClass(c: char, d: char) { IsDigit(c) == IsDigit(d) && IsLetter(c) == IsLetter(d) }

  /** 97 is prime to 10: multiplying by ten cannot bring a remainder to zero. */
  lemma TenInvertible(x: int)
    ensures 10 * x % 97 == 0 <==> x % 97 == 0
  {
    if 10 * x % 97 == 0 {
      var q := 10 * x / 97;
      assert x == 97 * (68 * q - 7 * x);
      ModShift(0, 68 * q - 7 * x);
    }
    if x % 97 == 0 {
      assert 10 * x == 97 * (10 * (x / 97));
      ModShift(0, 10 * (x / 97));
    }
  }

  lemma {:induction false} ShiftInvertible(t: string, x: int)
    ensures Shift(t) * x % 97 == 0 <==> x % 97 == 0
  {
    if t == "" {
      assert Shift(t) * x == x;
    } else {
      var front, c := t[..|t| - 1], t[|t| - 1];
      ShiftInvertible(front, x);
      assert Shift(t) * x == Weight(c) * (Shift(front) * x) by {
        Associate(Weight(c), Shift(front), x);
      }
      TenInvertible(Shift(front) * x);
      TenInvertible(10 * (Shift(front) * x));
    }
  }

  lemma Associate(a: int, b: int, c: int)
    ensures a * b * c == a * (b * c)
  {
  }

  /** Numbers with one remainder differ by a multiple of 97. */
  lemma SameRemainder(m: int, n: int)
    requires m % 97 == n % 97
    ensures (m - n) % 97 == 0
  {
  }

  /** Replacing one character moves the number by the change of value, shifted. */
  lemma SubstitutionMoves(a: string, c: char, d: char, b: string)
    requires AllAlnum(a) && AllAlnum(b) && IsAlnum(c) && IsAlnum(d) && SameClass(c, d)
    ensures AllAlnum(a + [c] + b) && AllAlnum(a + [d] + b)
    ensures Big(a + [c] + b) - Big(a + [d] + b) == Shift(b) * (Value(c) - Value(d))
  {
    BigConcat(a + [c], b);
    BigConcat(a + [d], b);
    assert (a + [c])[..|a|] == a && (a + [d])[..|a|] == a;
    assert Big(a + [c]) - Big(a + [d]) == Value(c) - Value(d);
    Subtract(Shift(b), Big(a + [c]), Big(a + [d]), Big(b));
  }

  lemma Subtract(w: int, x: int, y: int, z: int)
    ensures (w * x + z) - (w * y + z) == w * (x - y)
  {
  }

  /** A substitution within a class, or an exchange of neighbours within a class, changes the remainder. */
  lemma SubstitutionDetected(a: string, c: char, d: char, b: string)
    requires AllAlnum(a) && AllAlnum(b) && IsAlnum(c) && IsAlnum(d) && SameClass(c, d) && c != d
    ensures AllAlnum(a + [c] + b) && AllAlnum(a + [d] + b)
    ensures Big(a + [c] + b) % 97 != Big(a + [d] + b) % 97
  {
    SubstitutionMoves(a, c, d, b);
    ShiftInvertible(b, Value(c) - Value(d));
    if Big(a + [c] + b) % 97 == Big(a + [d] + b) % 97 {
      SameRemainder(Big(a + [c] + b), Big(a + [d] + b));
    }
  }

  lemma BigPair(a: string, c: char, d: char, b: string)
    requires AllAlnum(a) && AllAlnum(b) && IsAlnum(c) && IsAlnum(d)
    ensures AllAlnum(a + [c, d] + b)
    ensures Big(a + [c, d] + b)
            == Shift(b) * (Weight(d) * (Weight(c) * Big(a) + Value(c)) + Value(d)) + Big(b)
  {
    var x := a + [c, d];
    BigConcat(x, b);
    assert x[..|a| + 1] == a + [c] && (a + [c])[..|a|] == a;
  }

  lemma TranspositionArithmetic(p: int, w: int, z: int, u: int, v: int, rest: int)
    ensures (p * (w * (w * z + u) + v) + rest) - (p * (w * (w * z + v) + u) + rest) == p * ((w - 1) * (u - v))
  {
    Subtract(p, w * (w * z + u) + v, w * (w * z + v) + u, rest);
    Exchange(w, w * z, u, v);
  }

  lemma TranspositionDetected(a: string, c: char, d: char, b: string)
    requires AllAlnum(a) && AllAlnum(b) && IsAlnum(c) && IsAlnum(d) && SameClass(c, d) && c != d
    ensures AllAlnum(a + [c, d] + b) && AllAlnum(a + [d, c] + b)
    ensures Big(a + [c, d] + b) % 97 != Big(a + [d, c] + b) % 97
  {
    BigPair(a, c, d, b);
    BigPair(a, d, c, b);
    TranspositionArithmetic(Shift(b), Weight(c), Big(a), Value(c), Value(d), Big(b));
    var move := (Weight(c) - 1) * (Value(c) - Value(d));
    ShiftInvertible(b, move);
    SmallMove(Weight(c), Value(c) - Value(d));
    DifferentRemainder(Big(a + [c, d] + b), Big(a + [d, c] + b), Shift(b) * move);
  }

  lemma SmallMove(w: int, x: int)
    requires (w == 10 && -9 <= x <= 9) || (w == 100 && -25 <= x <= 25)
    requires x != 0
    ensures (w - 1) * x % 97 != 0
  {
    if w == 10 {
      assert (w - 1) * x == 9 * x;
    } else {
      assert (w - 1) * x == 97 * x + 2 * x;
      ModShift(2 * x, x);
    }
  }

  lemma DifferentRemainder(m: int, n: int, d: int)
    requires m - n == d && d % 97 != 0
    ensures m % 97 != n % 97
  {
  }

  lemma Exchange(w: int, z: int, u: int, v: int)
    ensures (w * (z + u) + v) - (w * (z + v) + u) == (w - 1) * (u - v)
  {
  }

  // The check digits and the account are not neighbours once rearranged: exchanging the last check digit
  // with the first account digit needs the order of ten modulo 97.

  /** The remainders of the powers of ten. */
  function PowerRemainder(k: nat): nat {
    if k == 0 then 1 else 10 * PowerRemainder(k - 1) % 97
  }

  /** A factor can be reduced first. */
  lemma ReduceFactor(x: int, y: int)
    ensures x * (y % 97) % 97 == x * y % 97
  {
    var q, r := y / 97, y % 97;
    Distributes(q, r, x);
    assert x * y == 97 * (q * x) + x * r;
    ModShift(x * r, q * x);
  }

  /** Exponents add up. */
  lemma {:induction false} PowersAdd(a: nat, b: nat)
    ensures PowerRemainder(a + b) == PowerRemainder(a) * PowerRemainder(b) % 97
  {
    if b == 0 {
      BelowModulus(a);
      assert PowerRemainder(a) * PowerRemainder(b) == PowerRemainder(a);
    } else {
      var x, y := PowerRemainder(a), PowerRemainder(b - 1);
      PowersAdd(a, b - 1);
      assert PowerRemainder(a + b) == 10 * (x * y % 97) % 97;
      ReduceFactor(10, x * y);
      ReduceFactor(x, 10 * y);
      Rotate(x, y);
    }
  }

  lemma Rotate(x: int, y: int)
    ensures 10 * (x * y) == x * (10 * y)
  {
  }

  lemma BelowModulus(k: nat)
    ensures PowerRemainder(k) < 97 && PowerRemainder(k) % 97 == PowerRemainder(k)
  {
  }

  lemma Added(a: nat, b: nat, r: nat, s: nat, t: nat)
    requires PowerRemainder(a) == r && PowerRemainder(b) == s && r * s % 97 == t
    ensures PowerRemainder(a + b) == t
  {
    PowersAdd(a, b);
  }

  lemma FirstPowers(u: nat)
    requires PowerRemainder(u) == 10
    ensures PowerRemainder(4 * u) == 9
  {
    Added(u, u, 10, 10, 3);
    Added(u + u, u + u, 3, 3, 9);
  }

  lemma MiddlePowers(v: nat)
    requires PowerRemainder(v) == 9
    ensures PowerRemainder(4 * v) == 62
  {
    Added(v, v, 9, 9, 81);
    Added(v + v, v + v, 81, 81, 62);
  }

  lemma LastPowers(w: nat)
    requires PowerRemainder(w) == 62
    ensures PowerRemainder(2 * w) == 61 && PowerRemainder(3 * w) == 96
  {
    Added(w, w, 62, 62, 61);
    Added(w + w, w, 61, 62, 96);
  }

  lemma FullPower(w: nat)
    requires PowerRemainder(3 * w) == 96
    ensures PowerRemainder(6 * w) == 1
  {
    Added(3 * w, 3 * w, 96, 96, 1);
  }

  /** The remainders of the powers 32, 48 and 96, for u = 1. */
  lemma LargePowers(u: nat)
    requires PowerRemainder(u) == 10
    ensures PowerRemainder(32 * u) == 61 && PowerRemainder(48 * u) == 96 && PowerRemainder(96 * u) == 1
  {
    FirstPowers(u);
    MiddlePowers(4 * u);
    LastPowers(16 * u);
    FullPower(16 * u);
  }

  /** A power that leaves one makes the remainders periodic. */
  lemma {:induction false} Periodic(d: nat, i: nat)
    requires PowerRemainder(d) == 1
    ensures PowerRemainder(i + d) == PowerRemainder(i)
  {
    if i > 0 {
      Periodic(d, i - 1);
    }
  }

  /** The exponent reduced by the period. */
  lemma {:induction false} PeriodReduces(d: nat, n: nat) returns (q: nat, r: nat)
    requires d > 0 && PowerRemainder(d) == 1
    ensures n == q * d + r && r < d && PowerRemainder(n) == PowerRemainder(r)
    decreases n
  {
    if n < d {
      q, r := 0, n;
    } else {
      Periodic(d, n - d);
      q, r := PeriodReduces(d, n - d);
      q := q + 1;
    }
  }

  lemma {:induction false} Multiples(d: nat, q: nat)
    requires PowerRemainder(d) == 1
    ensures PowerRemainder(q * d) == 1
  {
    if q > 0 {
      Multiples(d, q - 1);
      Periodic(d, (q - 1) * d);
      assert q * d == (q - 1) * d + d;
    }
  }

  /** The first positive exponent that leaves one. */
  lemma {:induction false} Least(k: nat) returns (d: nat)
    requires k > 0 && PowerRemainder(k) == 1
    ensures 0 < d <= k && PowerRemainder(d) == 1 && forall j :: 0 < j < d ==> PowerRemainder(j) != 1
    decreases k
  {
    if j :| 0 < j < k && PowerRemainder(j) == 1 {
      d := Least(j);
    } else {
      d := k;
    }
  }

  lemma Halve(q: nat, d: nat, n: nat) returns (h: nat)
    requires q * d == 2 * n && q % 2 == 1
    ensures d == 2 * h && q * h == n
  {
    var p := q / 2;
    h := d / 2;
    assert q == 2 * p + 1;
    assert q * d == 2 * (p * d) + d by { OddProduct(p, d); }
    assert d == 2 * h;
    Twofold(q, h);
  }

  lemma OddProduct(p: int, d: int)
    ensures (2 * p + 1) * d == 2 * (p * d) + d
  {
  }

  lemma Twofold(q: int, h: int)
    ensures q * (2 * h) == 2 * (q * h)
  {
  }

  /** A divisor of 96 is even, three, or one. */
  lemma OddDivisor(q: nat, d: nat)
    requires q * d == 96 && q % 2 == 1
    ensures q == 1 || q == 3
  {
    var a := Halve(q, d, 48);
    var b := Halve(q, a, 24);
    var c := Halve(q, b, 12);
    var e := Halve(q, c, 6);
    var f := Halve(q, e, 3);
    DividesThree(q, f);
  }

  lemma DividesThree(q: nat, f: nat)
    requires q * f == 3
    ensures q <= 3
  {
    if q > 3 {
      LargeProduct(q, f);
    }
  }

  lemma LargeProduct(q: nat, f: nat)
    requires q > 3
    ensures q * f == 0 || q * f > 3
  {
    if f > 0 {
      assert q * f == q + q * (f - 1);
    }
  }

  /** A divisor of 96 below 68 divides 48 or 32. */
  lemma Divisor(q: nat, d: nat) returns (h: nat)
    requires q * d == 96 && 0 < d < 68
    ensures h * d == 48 || h * d == 32
  {
    if q % 2 == 0 {
      h := q / 2;
      Twofold(d, h);
    } else {
      OddDivisor(q, d);
      h := 1;
    }
  }

  /** A first exponent below 68 would divide 48 or 32. */
  lemma OrderDivides(d: nat, u: nat)
    requires 0 < d < 68 && PowerRemainder(d) == 1 && (forall j :: 0 < j < d ==> PowerRemainder(j) != 1)
    requires u == 1 && PowerRemainder(96 * u) == 1
    ensures PowerRemainder(32 * u) == 1 || PowerRemainder(48 * u) == 1
  {
    var q, r := PeriodReduces(d, 96 * u);
    var h := Divisor(q, d);
    Multiples(d, h);
    assert h * d == 48 * u || h * d == 32 * u;
  }

  lemma NoOrder(k: nat, u: nat)
    requires 0 < k < 68 && u == 1 && PowerRemainder(u) == 10
    ensures PowerRemainder(k) != 1
  {
    LargePowers(u);
    if PowerRemainder(k) == 1 {
      var d := Least(k);
      OrderDivides(d, u);
    }
  }

  /** No power of ten below 10^68 leaves remainder one, but the first: the order of ten divides 96, and it
      divides neither 48 nor 32. */
  lemma NoSmallOrder(k: nat)
    requires 0 < k < 68
    ensures PowerRemainder(k) != 1
  {
    assert PowerRemainder(1) == 10 * PowerRemainder(0) % 97;
    NoOrder(k, 1);
  }

  /** How many digits a text expands to. */
  function Width(s: string): nat {
    if s == "" then 0 else (if IsDigit(s[|s| - 1]) then 1 else 2) + Width(s[..|s| - 1])
  }

  lemma {:induction false} WidthBound(s: string)
    ensures |s| <= Width(s) <= 2 * |s|
  {
    if s != "" {
      WidthBound(s[..|s| - 1]);
    }
  }

  lemma {:induction false} ShiftRemainder(s: string)
    ensures Shift(s) % 97 == PowerRemainder(Width(s))
  {
    if s != "" {
      var front := s[..|s| - 1];
      ShiftRemainder(front);
      CarryRemainder(Shift(front), 0);
      if !IsDigit(s[|s| - 1]) {
        assert Shift(s) == 10 * (10 * Shift(front));
        CarryRemainder(10 * Shift(front), 0);
        assert PowerRemainder(Width(front) + 2) == 10 * PowerRemainder(Width(front) + 1) % 97;
      }
    }
  }

  lemma BigEnds(c: char, m: string, d: char)
    requires IsDigit(c) && IsDigit(d) && AllAlnum(m)
    ensures AllAlnum([c] + m + [d])
    ensures Big([c] + m + [d]) == 10 * (Shift(m) * Value(c) + Big(m)) + Value(d)
  {
    BigConcat([c], m);
    assert ([c] + m + [d])[..|m| + 1] == [c] + m && [c][..0] == "";
  }

  /** Ten times p does not leave remainder one. */
  predicate Moves(p: int) { (10 * p - 1) % 97 != 0 }

  lemma DigitsDiffer(c: char, d: char)
    requires IsDigit(c) && IsDigit(d) && c != d
    ensures Value(c) < 10 && Value(d) < 10 && Value(c) != Value(d)
  {
    assert c == '0' + Value(c) as char && d == '0' + Value(d) as char;
  }

  lemma EndsExchangeDetected(c: char, d: char, m: string)
    requires IsDigit(c) && IsDigit(d) && c != d && AllAlnum(m) && |m| <= 32
    ensures AllAlnum([c] + m + [d]) && AllAlnum([d] + m + [c])
    ensures Big([c] + m + [d]) % 97 != Big([d] + m + [c]) % 97
  {
    var u, v, p := Value(c), Value(d), Shift(m);
    DigitsDiffer(c, d);
    NotUnit(m);
    BigEnds(c, m, d);
    BigEnds(d, m, c);
    var x, y := Big([c] + m + [d]), Big([d] + m + [c]);
    assert x == 10 * (p * u + Big(m)) + v;
    assert y == 10 * (p * v + Big(m)) + u;
    EndsDiffer(p, u, v, Big(m), x, y);
  }

  lemma EndsDiffer(p: int, c: nat, d: nat, m: int, x: int, y: int)
    requires x == 10 * (p * c + m) + d && y == 10 * (p * d + m) + c
    requires Moves(p) && c < 10 && d < 10 && c != d
    ensures x % 97 != y % 97
  {
    EndsArithmetic(p, c, d, m);
    NoFactor(10 * p - 1, c - d);
    DifferentRemainder(x, y, (10 * p - 1) * (c - d));
  }

  lemma NotUnit(m: string)
    requires |m| <= 32
    ensures Moves(Shift(m))
  {
    WidthBound(m);
    ShiftRemainder(m);
    CarryRemainder(Shift(m), 0);
    NoSmallOrder(Width(m) + 1);
    MinusOne(10 * Shift(m));
  }

  lemma MinusOne(x: int)
    requires x % 97 != 1
    ensures (x - 1) % 97 != 0
  {
  }

  lemma EndsArithmetic(p: int, c: int, d: int, m: int)
    ensures (10 * (p * c + m) + d) - (10 * (p * d + m) + c) == (10 * p - 1) * (c - d)
  {
  }

  /** 97 is prime: it divides no product of a number it does not divide and a difference of digits. */
  lemma NoFactor(y: int, x: int)
    requires y % 97 != 0 && -9 <= x <= 9 && x != 0
    ensures y * x % 97 != 0
  {
    var k, r := y / 97, y % 97;
    assert y * x == 97 * (k * x) + r * x by { assert y == 97 * k + r; Distributes(k, r, x); }
    ModShift(r * x, k * x);
    SmallProducts(r, x);
  }

  lemma Distributes(k: int, r: int, x: int)
    ensures (97 * k + r) * x == 97 * (k * x) + r * x
  {
  }

  lemma SmallProducts(r: int, x: int)
    requires 0 < r < 97 && -9 <= x <= 9 && x != 0
    ensures r * x % 97 != 0
  {
    if x > 0 {
      PositiveProducts(r, x);
    } else {
      PositiveProducts(r, -x);
      assert r * x == -(r * -x);
    }
  }

  lemma PositiveProducts(r: int, x: int)
    requires 0 < r < 97 && 0 < x <= 9
    ensures r * x % 97 != 0
  {
    match x
    case 1 => case 2 => case 3 => case 4 => case 5 => case 6 => case 7 => case 8 => case _ =>
  }

  // ---------------------------------------------------------------------------------------------
  // On IBANs
  // ---------------------------------------------------------------------------------------------

  /** ONE WRONG CHARACTER. Replacing one character of a valid IBAN by another of its class, anywhere,
      makes it invalid, whatever the table of country lengths. */
  lemma SubstitutionRejected(iban: string, i: nat, d: char, lengths: map<string, nat>)
    requires IsValid(iban, lengths) && i < |iban|
    requires IsAlnum(d) && SameClass(iban[i], d) && d != iban[i]
    ensures !IsValid(iban[i := d], lengths)
  {
    var r, j := Rearrange(iban), if i >= 4 then i - 4 else |iban| - 4 + i;
    OneReplaced(iban, i, j, d);
    SubstitutionDetected(r[..j], iban[i], d, r[j + 1..]);
    ValidIff(iban, lengths);
    if WellFormed(iban[i := d], lengths) {
      ValidIff(iban[i := d], lengths);
    }
  }

  lemma OneReplaced(iban: string, i: nat, j: nat, d: char)
    requires |iban| >= 15 && i < |iban| && j == (if i >= 4 then i - 4 else |iban| - 4 + i)
    ensures var r := Rearrange(iban);
            j < |r| && r == r[..j] + [iban[i]] + r[j + 1..]
            && Rearrange(iban[i := d]) == r[..j] + [d] + r[j + 1..]
  {
  }

  function Swapped(s: string, i: nat): string
    requires i + 1 < |s|
  {
    s[i := s[i + 1]][i + 1 := s[i]]
  }

  /** TWO NEIGHBOURS EXCHANGED. Exchanging two unequal adjacent characters of one class of a valid IBAN,
      anywhere, makes it invalid. */
  lemma TranspositionRejected(iban: string, i: nat, lengths: map<string, nat>)
    requires IsValid(iban, lengths) && i + 1 < |iban|
    requires SameClass(iban[i], iban[i + 1]) && iban[i] != iban[i + 1]
    ensures !IsValid(Swapped(iban, i), lengths)
  {
    var r := Rearrange(iban);
    ValidIff(iban, lengths);
    if i == 3 {
      EndsSwapped(iban);
      EndsExchangeDetected(iban[4], iban[3], r[1..|r| - 1]);
    } else {
      var j := if i >= 4 then i - 4 else |iban| - 4 + i;
      NeighboursSwapped(iban, i, j);
      TranspositionDetected(r[..j], iban[i], iban[i + 1], r[j + 2..]);
    }
    if WellFormed(Swapped(iban, i), lengths) {
      ValidIff(Swapped(iban, i), lengths);
    }
  }

  lemma EndsSwapped(iban: string)
    requires |iban| >= 15
    ensures var r := Rearrange(iban);
            var m := r[1..|r| - 1];
            r == [iban[4]] + m + [iban[3]] && Rearrange(Swapped(iban, 3)) == [iban[3]] + m + [iban[4]]
  {
  }

  lemma NeighboursSwapped(iban: string, i: nat, j: nat)
    requires |iban| >= 15 && i + 1 < |iban| && i != 3 && j == (if i >= 4 then i - 4 else |iban| - 4 + i)
    ensures var r := Rearrange(iban);
            j + 2 <= |r| && r == r[..j] + [iban[i], iban[i + 1]] + r[j + 2..]
            && Rearrange(Swapped(iban, i)) == r[..j] + [iban[i + 1], iban[i]] + r[j + 2..]
  {
  }

  // ---------------------------------------------------------------------------------------------
  // What the check demands
  // ---------------------------------------------------------------------------------------------

  /** The normal form leaves out blanks and hyphens and raises letters, character by character. */
  lemma {:induction false} NormalizeIs(a: string, c: char, b: string)
    ensures Normalize("") == ""
    ensures var kept := if Blank(c) || c == '-' then ""
                        else if 97 <= c as int <= 122 then [(c as int - 32) as char] else [c];
            Normalize(a + [c] + b) == Normalize(a) + kept + Normalize(b)
    decreases |a|
  {
    BlankIff(c);
    if a == "" {
      assert a + [c] + b == [c] + b && ([c] + b)[1..] == b;
    } else {
      assert (a + [c] + b)[1..] == a[1..] + [c] + b;
      NormalizeIs(a[1..], c, b);
    }
  }

  /** A digit as it is, a letter as its rank in the alphabet plus ten, in decimal. */
  function SpellOne(c: char): string
    requires IsAlnum(c)
  {
    if IsDigit(c) then [c] else Decimal.Text(10 + (c as int - 'A' as int))
  }

  function Spell(s: string): string
    requires AllAlnum(s)
  {
    if s == "" then "" else Spell(s[..|s| - 1]) + SpellOne(s[|s| - 1])
  }

  lemma Spelt(c: char)
    requires IsAlnum(c)
    ensures SpellOne(c) == Expand(c)
  {
    if IsLetter(c) {
      var n := 10 + (c as int - 'A' as int);
      assert Decimal.Text(n) == Decimal.Text(n / 10) + [Decimal.DigitOf(n % 10)];
      assert Decimal.Text(n / 10) == [Decimal.DigitOf(n / 10)];
    }
  }

  lemma {:induction false} SpellIs(s: string)
    requires AllAlnum(s)
    ensures Spell(s) == ExpandAll(s)
  {
    if s != "" {
      SpellIs(s[..|s| - 1]);
      Spelt(s[|s| - 1]);
    }
  }

  /** The number of a text ending in two digits. */
  lemma TwoDigits(s: string, x: char, y: char)
    requires AllAlnum(s) && IsDigit(x) && IsDigit(y)
    ensures AllAlnum(s + [x, y]) && Big(s + [x, y]) == Big(s + "00") + 10 * Digit(x) + Digit(y)
  {
    assert (s + [x, y])[..|s| + 1] == s + [x] && (s + [x])[..|s|] == s;
    assert (s + "00")[..|s| + 1] == s + "0" && (s + "0")[..|s|] == s;
  }

  /** Two capital letters, two digits, then eleven to thirty capitals and digits; as many in all as the country says. */
  predicate Structured(iban: string, lengths: map<string, nat>) {
    11 <= |iban| - 4 <= 30
    && 'A' <= iban[0] <= 'Z' && 'A' <= iban[1] <= 'Z' && '0' <= iban[2] <= '9' && '0' <= iban[3] <= '9'
    && (forall i :: 4 <= i < |iban| ==> '0' <= iban[i] <= '9' || 'A' <= iban[i] <= 'Z')
    && ([iban[0], iban[1]] in lengths ==> |iban| == lengths[[iban[0], iban[1]]])
  }

  lemma StructuredIff(iban: string, lengths: map<string, nat>)
    ensures WellFormed(iban, lengths) <==> Structured(iban, lengths)
  {
    if |iban| >= 2 {
      assert iban[..2] == [iban[0], iban[1]];
    }
  }

  /** THE CHECK DIGITS. A text is accepted if and only if it has the structure of an IBAN and its check digits are,
      modulo 97, what is missing to 98 of the remainder of account, country and two zeros, spelt out: the rule by which
      ISO 7064 computes them. */
  lemma CheckDigits(iban: string, lengths: map<string, nat>)
    ensures IsValid(iban, lengths)
            <==> Structured(iban, lengths)
                 && var body := iban[4..] + [iban[0], iban[1]] + "00";
                    AllAlnum(body) && AllDigits(Spell(body))
                    && (10 * Digit(iban[2]) + Digit(iban[3])) % 97 == (98 - Number(Spell(body)) % 97) % 97
  {
    StructuredIff(iban, lengths);
    if Structured(iban, lengths) {
      var k := 10 * Digit(iban[2]) + Digit(iban[3]);
      var n := SpeltNumber(iban, k);
      ValidIff(iban, lengths);
      Complement(n, k);
    }
  }

  lemma SpeltNumber(iban: string, k: nat) returns (n: nat)
    requires |iban| >= 4 && AllAlnum(iban) && IsDigit(iban[2]) && IsDigit(iban[3])
    requires k == 10 * Digit(iban[2]) + Digit(iban[3])
    ensures var body := iban[4..] + [iban[0], iban[1]] + "00";
            AllAlnum(body) && AllDigits(Spell(body)) && n == Number(Spell(body))
    ensures AllAlnum(Rearrange(iban)) && Big(Rearrange(iban)) == n + k
  {
    var s := iban[4..] + [iban[0], iban[1]];
    var r := Rearrange(iban);
    assert r == s + [iban[2], iban[3]];
    TwoDigits(s, iban[2], iban[3]);
    SpellIs(s + "00");
    ExpandedNumber(s + "00");
    n := Big(s + "00");
  }

  lemma Complement(n: nat, k: nat)
    ensures (n + k) % 97 == 1 <==> k % 97 == (98 - n % 97) % 97
  {
  }
}

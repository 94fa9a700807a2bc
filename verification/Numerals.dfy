/** Numerals, as they are written: digits from the lowest up. */
module Numerals {
  const LOWER := "0123456789abcdef"
  const UPPER := "0123456789ABCDEF"

  /** `c` is the digit `d`, in either case. */
  predicate DigitOf(c: char, d: nat) { d < 16 && (c == LOWER[d] || c == UPPER[d]) }

  /** `s` is a numeral of `n`, with any leading zeros, each digit in either case;
      the empty text is one of 0. */
  predicate Spells(s: string, base: nat, n: nat)
    requires 2 <= base <= 16
  {
    if s == "" then n == 0 else DigitOf(s[|s| - 1], n % base) && Spells(s[..|s| - 1], base, n / base)
  }

  /** A digit below the base. */
  predicate DigitIn(c: char, base: nat) { exists d | 0 <= d < base :: DigitOf(c, d) }

  function Numeral(n: nat, base: nat, digits: string): string
    requires 2 <= base <= 16 && |digits| == 16
  {
    if n == 0 then "" else Below(n, base); Numeral(n / base, base, digits) + [digits[n % base]]
  }

  lemma Below(n: nat, base: nat)
    requires n > 0 && 2 <= base
    ensures n / base < n
  {
  }

  lemma {:induction false} NumeralSpells(n: nat, base: nat, digits: string)
    requires 2 <= base <= 16 && (digits == LOWER || digits == UPPER)
    ensures Spells(Numeral(n, base, digits), base, n)
    decreases n
  {
    if n > 0 {
      Below(n, base);
      NumeralSpells(n / base, base, digits);
      var s := Numeral(n, base, digits);
      assert s[..|s| - 1] == Numeral(n / base, base, digits);
    } else {
      assert Numeral(0, base, digits) == "";
    }
  }

  /** A leading zero changes nothing. */
  lemma {:induction false} LeadingZero(s: string, base: nat, n: nat)
    requires 2 <= base <= 16
    ensures Spells(['0'] + s, base, n) <==> Spells(s, base, n)
    decreases |s|
  {
    var z := ['0'] + s;
    if s == "" {
      assert z[..0] == "";
      OnlyZero('0', base, n);
    } else {
      assert z[..|z| - 1] == ['0'] + s[..|s| - 1];
      LeadingZero(s[..|s| - 1], base, n / base);
    }
  }

  lemma OnlyZero(c: char, base: nat, n: nat)
    requires 2 <= base <= 16 && c == '0'
    ensures DigitOf(c, n % base) && n / base == 0 <==> n == 0
  {
    if n / base == 0 { assert n % base == n; }
  }

  /** A text is a numeral of something exactly when its digits are in the base. */
  lemma SpellsSome(s: string, base: nat)
    requires 2 <= base <= 16
    ensures (exists n: nat :: Spells(s, base, n)) <==> forall k | 0 <= k < |s| :: DigitIn(s[k], base)
  {
    hide Spells, DigitIn;
    if n: nat :| Spells(s, base, n) { SpelledDigits(s, base, n); }
    if forall k | 0 <= k < |s| :: DigitIn(s[k], base) { var n := DigitsSpell(s, base); }
  }

  lemma {:induction false} SpelledDigits(s: string, base: nat, n: nat)
    requires 2 <= base <= 16 && Spells(s, base, n)
    ensures forall k | 0 <= k < |s| :: DigitIn(s[k], base)
    decreases |s|
  {
    hide DigitIn, DigitOf;
    if s != "" {
      SpelledDigits(s[..|s| - 1], base, n / base);
      LastDigit(s[|s| - 1], n, base);
      assert forall k | 0 <= k < |s| - 1 :: s[k] == s[..|s| - 1][k];
    }
  }

  lemma {:induction false} DigitsSpell(s: string, base: nat) returns (n: nat)
    requires 2 <= base <= 16 && forall k | 0 <= k < |s| :: DigitIn(s[k], base)
    ensures Spells(s, base, n)
    decreases |s|
  {
    hide DigitIn, DigitOf;
    n := 0;
    if s != "" {
      var m := DigitsSpell(s[..|s| - 1], base);
      var d := DigitOfLast(s[|s| - 1], base);
      n := m * base + d;
      Parts(m, d, base);
    }
  }

  lemma LastDigit(c: char, n: nat, base: nat)
    requires 2 <= base <= 16 && DigitOf(c, n % base)
    ensures DigitIn(c, base)
  {
  }

  lemma DigitOfLast(c: char, base: nat) returns (d: nat)
    requires DigitIn(c, base)
    ensures d < base && DigitOf(c, d)
  {
    d :| 0 <= d < base && DigitOf(c, d);
  }

  lemma Parts(m: nat, d: nat, base: nat)
    requires d < base
    ensures (m * base + d) / base == m && (m * base + d) % base == d
  {
    var x := m * base + d;
    var k := x / base - m;
    Divided(x, base);
    assert k * base == x / base * base - m * base;
    if k > 0 { Wider(k, base); }
    if k < 0 { Wider(-k, base); Negated(k, base); }
  }

  lemma Negated(k: int, base: nat)
    ensures -k * base == -(k * base)
  {
  }

  lemma Divided(x: nat, base: nat)
    requires base > 0
    ensures x == x / base * base + x % base && 0 <= x % base < base
  {
  }

  lemma Wider(k: nat, base: nat)
    requires k > 0
    ensures k * base >= base
  {
    assert k * base == (k - 1) * base + base;
  }
}

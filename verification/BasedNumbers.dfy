/** Integers in expressions: what is read from a decimal, from `0x`, `0o` and
    `0b`, and what is refused. */
module BasedNumbers {
  import opened Options
  import opened Numerals
  import opened Lexing
  import LexingFacts

  predicate Prefixes(p: char, base: nat) {
    (base == 16 && p in "xX") || (base == 8 && p in "oO") || (base == 2 && p in "bB")
  }

  /** Characters taken for digits after a prefix: an octal number runs on over 8
      and 9, to be refused for them. */
  predicate Takes(c: char, base: nat) { DigitIn(c, if base == 8 then 10 else base) }

  function Sign(neg: bool, n: int): int { if neg then -n else n }

  lemma DigitValueIs(c: char, d: nat)
    requires d < 16
    ensures DigitValue(c) == d <==> DigitOf(c, d)
  {
  }

  lemma {:induction false} ValueSpells(s: string, base: nat, n: nat)
    requires base in {2, 8, 10, 16}
    ensures ValueOf(s, base) == Some(n) <==> Spells(s, base, n)
    decreases |s|
  {
    hide DigitValue, DigitOf;
    if s != "" {
      ValueSpells(s[..|s| - 1], base, n / base);
      DigitValueIs(s[|s| - 1], n % base);
      Divided(n, base);
      var v, d := ValueOf(s[..|s| - 1], base), DigitValue(s[|s| - 1]);
      if v.Some? && d < base { Parts(v.value, d, base); }
    }
  }

  lemma TakesIs(c: char, base: nat)
    requires base in {2, 8, 16}
    ensures Takes(c, base) <==> DigitsOf(base)(c)
  {
    if base == 2 { assert DigitOf(c, 0) <==> c == '0'; assert DigitOf(c, 1) <==> c == '1'; }
    else if DigitValue(c) < 16 { DigitValueIs(c, DigitValue(c)); }
  }

  lemma {:induction false} RunsOver(s: string, i: nat, e: nat, base: nat)
    requires base in {2, 8, 16} && i <= e <= |s|
    requires (forall k | i <= k < e :: Takes(s[k], base)) && (e < |s| ==> !Takes(s[e], base))
    ensures Run(s, i, DigitsOf(base)) == e
    decreases e - i
  {
    hide Takes, DigitsOf;
    if i < |s| { TakesIs(s[i], base); }
    if i < e { RunsOver(s, i + 1, e, base); }
  }

  /** The number `ds` with its prefix, and perhaps a sign, from `o` on and up to
      `rest`. */
  predicate StandsAt(s: string, o: nat, neg: bool, p: char, ds: string, rest: string) {
    o <= |s| && s[o..] == (if neg then "-" else "") + ['0', p] + ds + rest
  }

  /** It is read as the number it spells, and refused exactly when it has no
      digit, a digit too big for its base, or a value beyond 63 bits. */
  lemma BasedNumber(s: string, o: nat, neg: bool, p: char, base: nat, ds: string, rest: string, sign: bool)
    requires Prefixes(p, base) && StandsAt(s, o, neg, p, ds, rest) && (neg ==> sign)
    requires (forall k | 0 <= k < |ds| :: Takes(ds[k], base)) && (rest != "" ==> !Takes(rest[0], base))
    ensures forall n: nat :: Spells(ds, base, n) && ds != "" && n <= 0x7fff_ffff_ffff_ffff ==>
        StepAt(s, o, sign) == Got(Int(Sign(neg, n)), |s| - |rest|)
    ensures StepAt(s, o, sign).Bad? <==>
        || ds == ""
        || (exists k :: 0 <= k < |ds| && !DigitIn(ds[k], base))
        || (exists n: nat :: Spells(ds, base, n) && n > 0x7fff_ffff_ffff_ffff)
  {
    hide Takes, Spells, DigitIn, ValueOf, StepAt, StandsAt, Prefixes;
    BasedStep(s, o, neg, p, base, ds, rest, sign);
    assert base in {2, 8, 16} by { BaseOf(p, base); }
    SpellsSome(ds, base);
    forall n: nat ensures ValueOf(ds, base) == Some(n) <==> Spells(ds, base, n) { ValueSpells(ds, base, n); }
    if ValueOf(ds, base).Some? {
      assert Spells(ds, base, ValueOf(ds, base).value);
    } else {
      assert !(exists n: nat :: Spells(ds, base, n));
      var k :| 0 <= k < |ds| && !DigitIn(ds[k], base);
    }
  }

  lemma BaseOf(p: char, base: nat)
    requires Prefixes(p, base)
    ensures base in {2, 8, 16}
  {
  }

  lemma BasedStep(s: string, o: nat, neg: bool, p: char, base: nat, ds: string, rest: string, sign: bool)
    requires Prefixes(p, base) && StandsAt(s, o, neg, p, ds, rest) && (neg ==> sign)
    requires (forall k | 0 <= k < |ds| :: Takes(ds[k], base)) && (rest != "" ==> !Takes(rest[0], base))
    ensures |rest| <= |s| && StepAt(s, o, sign) == Sized(ds, base, neg, |s| - |rest|)
  {
    hide Takes, StepAt, Sized, DigitsOf;
    var head := (if neg then "-" else "") + ['0', p];
    var d, e, t := o + |head| - 2, |s| - |rest|, s[o..];
    assert t == head + ds + rest && forall k | 0 <= k < |t| :: t[k] == s[o + k];
    assert s[d] == t[|head| - 2] && s[d + 1] == t[|head| - 1];
    assert s[d + 2..e] == ds by { assert t[|head|..|head| + |ds|] == ds; }
    assert e < |s| ==> s[e] == rest[0];
    assert forall k | d + 2 <= k < e :: s[k] == ds[k - d - 2];
    RunsOver(s, d + 2, e, base);
    PrefixSteps(s, o, d, p, neg, sign);
  }

  lemma PrefixSteps(s: string, o: nat, d: nat, p: char, neg: bool, sign: bool)
    requires d == (if neg then o + 1 else o) && d + 1 < |s| && s[d] == '0' && s[d + 1] == p && IsPrefix(p)
    requires (neg ==> s[o] == '-' && sign)
    ensures StepAt(s, o, sign) == Prefixed(s, d, neg)
  {
    hide Prefixed;
  }

  /** Alone in an expression. */
  lemma BasedText(neg: bool, p: char, base: nat, ds: string, n: nat)
    requires Prefixes(p, base) && ds != "" && Spells(ds, base, n) && n <= 0x7fff_ffff_ffff_ffff
    ensures Lex((if neg then "-" else "") + ['0', p] + ds) == Lexes([Int(Sign(neg, n))])
  {
    hide Takes, Spells, StepAt, Blank;
    var s := (if neg then "-" else "") + ['0', p] + ds;
    assert s[0..] == s == s + "";
    SpelledDigits(ds, base, n);
    forall k | 0 <= k < |ds| ensures Takes(ds[k], base) { DigitTaken(ds[k], base); }
    BasedNumber(s, 0, neg, p, base, ds, "", true);
    assert !Blank(s[0]) by { FirstNotBlank(s[0]); }
    assert StepAt(s, 0, true) == Got(Int(Sign(neg, n)), |s|);
    assert LexFrom(s, |s|, [Int(Sign(neg, n))]) == Lexes([Int(Sign(neg, n))]);
    assert [] + [Int(Sign(neg, n))] == [Int(Sign(neg, n))];
    assert LexFrom(s, 0, []) == LexFrom(s, |s|, [Int(Sign(neg, n))]);
  }

  lemma DigitTaken(c: char, base: nat)
    requires base in {2, 8, 16} && DigitIn(c, base)
    ensures Takes(c, base)
  {
  }

  lemma FirstNotBlank(c: char)
    requires c == '-' || c == '0'
    ensures !Blank(c)
  {
  }

  /** A decimal is read as what it spells, unless it has a leading zero or does
      not fit in 64 bits with its sign. */
  lemma DecimalText(neg: bool, ds: string, n: nat)
    requires ds != "" && Spells(ds, 10, n)
    ensures Lex(if neg then "-" + ds else ds)
        == if (|ds| > 1 && ds[0] == '0') || n > 0x7fff_ffff_ffff_ffff + (if neg then 1 else 0) then Refused
           else Lexes([Int(Sign(neg, n))])
  {
    hide Spells, Lex;
    ValueSpells(ds, 10, n);
    SpelledDigits(ds, 10, n);
    forall k | 0 <= k < |ds| ensures Digit(ds[k]) { TenDigits(ds[k]); }
    LexingFacts.DecimalExact(ds, neg);
  }

  lemma TenDigits(c: char)
    requires DigitIn(c, 10)
    ensures Digit(c)
  {
  }
}

/** The words of an expression: which stretches of a text are tokens, said of
    their characters and of the one behind them, and that the tokenizer takes
    these and no others. */
module Lexemes {
  import opened Options
  import opened Lexing
  import N = Numerals
  import B = BasedNumbers
  import F = LexingFacts

  // ── stretches of characters ──

  predicate Figure(c: char) { N.DigitIn(c, 10) }

  predicate Letter(c: char) { 'a' <= c <= 'z' || 'A' <= c <= 'Z' }

  predicate Begins(c: char) { Letter(c) || c == '_' }

  predicate Carries(c: char) { Begins(c) || Figure(c) }

  predicate All(s: string, i: nat, e: nat, p: char -> bool) { i <= e <= |s| && forall k | i <= k < e :: p(s[k]) }

  predicate Stops(s: string, e: nat, p: char -> bool) { e < |s| ==> !p(s[e]) }

  /** Openers minus closers between `i` and `k`. */
  function Net(s: string, i: nat, k: nat, open: char, close: char): int
    requires k <= |s|
    decreases k
  {
    if k <= i then 0 else Net(s, i, k - 1, open, close) + Turn(s[k - 1], open, close)
  }

  function Turn(c: char, open: char, close: char): int { if c == open then 1 else if c == close then -1 else 0 }

  /** Every closer between `i` and `e` has its opener there, and every opener its
      closer. */
  predicate Balanced(s: string, i: nat, e: nat, open: char, close: char) {
    i <= e <= |s| && Net(s, i, e, open, close) == 0 && forall k | i <= k <= e :: Net(s, i, k, open, close) >= 0
  }

  // ── tokens ──

  /** `[script]` */
  predicate CmdForm(s: string, i: nat, script: string, off: nat, e: nat) {
    && i + 2 <= e <= |s| && s[i] == '[' && s[e - 1] == ']' && Balanced(s, i + 1, e - 1, '[', ']')
    && script == s[i + 1..e - 1] && off == Offset(s, i + 1)
  }

  /** `${name}` */
  predicate BracedForm(s: string, i: nat, name: string, e: nat) {
    && i + 3 <= e <= |s| && s[i] == '$' && s[i + 1] == '{' && s[e - 1] == '}' && name == s[i + 2..e - 1]
    && '}' !in name && '(' !in name && '[' !in name
  }

  /** `$name` */
  predicate NameForm(s: string, i: nat, name: string, e: nat) {
    && i + 1 < e <= |s| && s[i] == '$' && Begins(s[i + 1]) && All(s, i + 1, e, Carries) && name == s[i + 1..e]
    && (e < |s| ==> !Carries(s[e]) && s[e] != '(')
  }

  /** `$name(index)`, the parenthesis at `k`. */
  predicate ElementForm(s: string, i: nat, name: string, k: nat, e: nat) {
    && i + 1 < k && k + 2 <= e <= |s| && s[i] == '$' && Begins(s[i + 1]) && All(s, i + 1, k, Carries)
    && s[k] == '(' && s[e - 1] == ')' && Balanced(s, k + 1, e - 1, '(', ')') && name == s[i + 1..e]
  }

  ghost predicate VarForm(s: string, i: nat, name: string, e: nat) {
    BracedForm(s, i, name, e) || NameForm(s, i, name, e) || exists k: nat :: ElementForm(s, i, name, k, e)
  }

  /** A decimal whose first digit is at `d`. */
  predicate DecimalForm(s: string, d: nat, v: nat, e: nat) {
    && d < e && All(s, d, e, Figure) && Stops(s, e, Figure) && N.Spells(s[d..e], 10, v)
    && (e < |s| ==> s[e] != '.') && !(e == d + 1 && s[d] == '0' && e < |s| && s[e] in "xXoObB")
    && (e == d + 1 || s[d] != '0')
  }

  predicate BasedForm(s: string, d: nat, base: nat, v: nat, e: nat) {
    && base in {2, 8, 16} && d + 2 < e <= |s| && s[d] == '0' && B.Prefixes(s[d + 1], base)
    && (forall k | d + 2 <= k < e :: B.Takes(s[k], base)) && (e < |s| ==> !B.Takes(s[e], base))
    && N.Spells(s[d + 2..e], base, v)
  }

  const LARGEST: nat := 0x7fff_ffff_ffff_ffff

  ghost predicate IntForm(s: string, d: nat, neg: bool, n: int, e: nat) {
    exists v: nat ::
      && n == B.Sign(neg, v)
      && ((DecimalForm(s, d, v, e) && v <= LARGEST + (if neg then 1 else 0))
          || (exists base: nat :: BasedForm(s, d, base, v, e) && v <= LARGEST))
  }

  /** Digits, a point at `p`, digits up to `f`; from there perhaps an exponent,
      its digits from `g`. */
  predicate FloatParts(s: string, d: nat, p: nat, f: nat, g: nat, e: nat) {
    && d < p < |s| && All(s, d, p, Figure) && s[p] == '.' && All(s, p + 1, f, Figure) && Stops(s, f, Figure)
    && if f < |s| && s[f] in "eE" then
         && (g == f + 1 || (g == f + 2 && g <= |s| && s[f + 1] in "+-"))
         && g < e && All(s, g, e, Figure) && Stops(s, e, Figure)
       else g == f == e
  }

  ghost predicate FloatForm(s: string, d: nat, e: nat) { exists p: nat, f: nat, g: nat :: FloatParts(s, d, p, f, g, e) }

  /** A mark is not the start of a longer one, and a minus not that of a number. */
  predicate MarkForm(s: string, i: nat, m: F.E.Token, sign: bool, e: nat) {
    && i < e <= |s| && F.IsMark(m) && s[i..e] == F.MarkText(m)
    && (Letter(s[i]) ==> Stops(s, e, Letter))
    && (e == i + 1 && e < |s| ==> s[i..e + 1] !in {"**", "==", "!=", "<=", ">=", "&&", "||", "<<", ">>"})
    && (s[i..e] == "-" && sign ==> Stops(s, e, Figure))
  }

  /** The text from `i` to `e` is the token `t`. */
  ghost predicate Reads(s: string, i: nat, sign: bool, t: Token, e: nat) {
    i < |s| &&
    var neg := s[i] == '-';
    var d := if neg then i + 1 else i;
    match t
    case Cmd(script, off) => CmdForm(s, i, script, off, e)
    case Var(name) => VarForm(s, i, name, e)
    case Int(n) => (neg ==> sign) && IntForm(s, d, neg, n, e)
    case Float(text) => (neg ==> sign) && FloatForm(s, d, e) && text == s[i..e]
    case Mark(m) => MarkForm(s, i, m, sign, e)
  }

  // ── brackets and names ──

  lemma {:induction false} NetFirst(s: string, i: nat, k: nat, open: char, close: char)
    requires i < k <= |s|
    ensures Net(s, i, k, open, close) == Turn(s[i], open, close) + Net(s, i + 1, k, open, close)
    decreases k
  {
    if k > i + 1 { NetFirst(s, i, k - 1, open, close); }
  }

  /** The closer at `e - 1` brings `depth` open ones to none, for the first time. */
  predicate ClosesAt(s: string, i: nat, depth: nat, open: char, close: char, e: nat) {
    && i < e <= |s| && s[e - 1] == close && Net(s, i, e - 1, open, close) + depth == 1
    && forall k | i <= k < e :: Net(s, i, k, open, close) + depth > 0
  }

  lemma {:induction false} ClosingIs(s: string, i: nat, depth: nat, open: char, close: char, e: nat)
    requires i <= |s| && depth > 0 && open != close
    ensures Closing(s, i, depth, open, close) == Some(e) <==> ClosesAt(s, i, depth, open, close, e)
    decreases |s| - i
  {
    hide Net;
    if i < |s| {
      var j, next := i + 1, depth + Turn(s[i], open, close);
      NetNone(s, i, open, close);
      forall k | i < k <= |s|
        ensures Net(s, i, k, open, close) == Turn(s[i], open, close) + Net(s, j, k, open, close)
      {
        NetFirst(s, i, k, open, close);
      }
      NetNone(s, j, open, close);
      if next > 0 {
        ClosingIs(s, j, next, open, close, e);
        if ClosesAt(s, i, depth, open, close, e) {
          forall k | j <= k < e ensures Net(s, j, k, open, close) + next > 0 {
            assert Net(s, i, k, open, close) + depth > 0;
          }
        }
      } else {
        assert Net(s, i, j, open, close) == -1;
      }
    }
  }

  lemma NetNone(s: string, i: nat, open: char, close: char)
    requires i <= |s|
    ensures Net(s, i, i, open, close) == 0
  {
  }

  lemma CmdExactly(s: string, i: nat, script: string, off: nat, e: nat)
    requires i < |s| && s[i] == '['
    ensures CmdAt(s, i) == Got(Cmd(script, off), e) <==> CmdForm(s, i, script, off, e)
  {
    hide Closing, Offset, Net;
    ClosingIs(s, i + 1, 1, '[', ']', e);
    var r := Closing(s, i + 1, 1, '[', ']');
    if r.Some? { ClosingIs(s, i + 1, 1, '[', ']', r.value); }
  }

  lemma TenFigures(c: char)
    ensures Figure(c) <==> Digit(c)
    ensures Carries(c) <==> NameChar(c)
    ensures Begins(c) <==> NameStart(c)
    ensures Letter(c) <==> Alpha(c)
  {
    if Digit(c) { assert N.DigitOf(c, c as int - '0' as int); }
  }

  lemma NamesEnd(s: string, i: nat, e: nat)
    requires i <= |s|
    ensures Run(s, i, NameChar) == e <==> All(s, i, e, Carries) && Stops(s, e, Carries)
  {
    forall k | 0 <= k < |s| ensures Carries(s[k]) <==> NameChar(s[k]) { TenFigures(s[k]); }
    if All(s, i, e, Carries) && Stops(s, e, Carries) { F.RunIs(s, i, NameChar, e); }
  }

  lemma BracedExactly(s: string, i: nat, name: string, e: nat)
    requires i + 1 < |s| && s[i] == '$' && s[i + 1] == '{'
    ensures VarAt(s, i) == Got(Var(name), e) <==> BracedForm(s, i, name, e)
  {
    if BracedForm(s, i, name, e) {
      assert forall k | i + 2 <= k < e - 1 :: s[k] == name[k - i - 2];
      F.RunIs(s, i + 2, NotBrace, e - 1);
    }
  }

  lemma NamedExactly(s: string, i: nat, name: string, e: nat)
    requires i + 1 < |s| && s[i] == '$' && Begins(s[i + 1])
    ensures VarAt(s, i) == Got(Var(name), e) <==>
        NameForm(s, i, name, e) || exists k: nat :: ElementForm(s, i, name, k, e)
  {
    hide Closing, Balanced, NameChar, Carries, Begins, NameStart, ElementForm;
    TenFigures(s[i + 1]);
    var r := Run(s, i + 1, NameChar);
    NamesEnd(s, i + 1, r);
    NamesEnd(s, i + 1, e);
    NoParenthesis();
    assert Carries(s[i + 1]) by { BeginsCarries(s[i + 1]); }
    forall k: nat ensures ElementForm(s, i, name, k, e) ==> k == r && r < |s| && s[r] == '(' {
      IndexAt(s, i, name, k, e, r);
    }
    if r < |s| && s[r] == '(' {
      ElementExactly(s, i, name, r, e);
      assert VarAt(s, i) == Got(Var(name), e) <==> Closing(s, r + 1, 1, '(', ')') == Some(e) && name == s[i + 1..e];
    } else {
      assert VarAt(s, i) == Got(Var(name), e) <==> r == e && name == s[i + 1..e];
    }
  }

  lemma IndexAt(s: string, i: nat, name: string, k: nat, e: nat, r: nat)
    requires i + 1 < |s| && r == Run(s, i + 1, NameChar)
    ensures ElementForm(s, i, name, k, e) ==> k == r && r < |s| && s[r] == '('
  {
    hide Balanced, NameChar, Carries, Begins;
    NoParenthesis();
    if ElementForm(s, i, name, k, e) { NamesEnd(s, i + 1, k); }
  }

  lemma BeginsCarries(c: char)
    requires Begins(c)
    ensures Carries(c)
  {
  }

  lemma NoParenthesis()
    ensures !Carries('(') && !Begins('{')
  {
  }

  lemma ElementExactly(s: string, i: nat, name: string, k: nat, e: nat)
    requires i + 1 < k < |s| && s[i] == '$' && Begins(s[i + 1]) && s[k] == '(' && All(s, i + 1, k, Carries)
    ensures Closing(s, k + 1, 1, '(', ')') == Some(e) && name == s[i + 1..e] <==> ElementForm(s, i, name, k, e)
  {
    hide Closing, Net, Carries;
    ClosingIs(s, k + 1, 1, '(', ')', e);
  }

  lemma VarExactly(s: string, i: nat, name: string, e: nat)
    requires i < |s| && s[i] == '$'
    ensures VarAt(s, i) == Got(Var(name), e) <==> VarForm(s, i, name, e)
  {
    hide BracedForm, NameForm, ElementForm, VarAt;
    VarStarts(s, i, name, e);
    if i + 1 < |s| && s[i + 1] == '{' {
      BracedExactly(s, i, name, e);
    } else if i + 1 < |s| && Begins(s[i + 1]) {
      NamedExactly(s, i, name, e);
    }
  }

  /** What follows the dollar tells the forms apart. */
  lemma VarStarts(s: string, i: nat, name: string, e: nat)
    requires i < |s| && s[i] == '$'
    ensures BracedForm(s, i, name, e) ==> i + 1 < |s| && s[i + 1] == '{'
    ensures NameForm(s, i, name, e) || (exists k: nat :: ElementForm(s, i, name, k, e)) ==>
        i + 1 < |s| && Begins(s[i + 1]) && s[i + 1] != '{'
    ensures !(i + 1 < |s| && (s[i + 1] == '{' || Begins(s[i + 1]))) ==> VarAt(s, i).Bad?
  {
    hide Run, Closing, Balanced;
    if i + 1 < |s| { TenFigures(s[i + 1]); }
  }

  // ── numbers ──

  lemma FiguresEnd(s: string, i: nat, e: nat)
    requires i <= |s|
    ensures Run(s, i, Digit) == e <==> All(s, i, e, Figure) && Stops(s, e, Figure)
  {
    forall k | 0 <= k < |s| ensures Figure(s[k]) <==> Digit(s[k]) { TenFigures(s[k]); }
    if All(s, i, e, Figure) && Stops(s, e, Figure) { F.RunIs(s, i, Digit, e); }
  }

  /** A number may begin at `i` with its first digit at `d`. */
  predicate Numeric(s: string, i: nat, d: nat) {
    d < |s| && Figure(s[d]) && (d == i || (d == i + 1 && s[i] == '-'))
  }

  lemma Signs(s: string, i: nat, d: nat)
    requires Numeric(s, i, d)
    ensures Digit(s[d]) && (s[i] == '-' <==> i < d)
  {
    TenFigures(s[d]);
    TenFigures('-');
  }

  lemma DecimalExactly(s: string, i: nat, d: nat, n: int, e: nat)
    requires Numeric(s, i, d) && !(s[d] == '0' && d + 1 < |s| && IsPrefix(s[d + 1]))
    ensures NumberAt(s, i, d) == Got(Int(n), e) <==> IntForm(s, d, i < d, n, e)
  {
    hide Figure, N.Spells, ValueOf, BasedForm;
    Signs(s, i, d);
    var r, neg := Run(s, d, Digit), i < d;
    FiguresEnd(s, d, r);
    FiguresEnd(s, d, e);
    forall base: nat, v: nat ensures !BasedForm(s, d, base, v, e) { NotBased(s, d, base, v, e); }
    if r < |s| && s[r] == '.' { NoInteger(s, i, r); }
    if NumberAt(s, i, d) == Got(Int(n), e) {
      var v := ValueOf(s[d..r], 10).value;
      B.ValueSpells(s[d..r], 10, v);
      assert DecimalForm(s, d, v, e);
    }
    if v: nat :| n == B.Sign(neg, v) && DecimalForm(s, d, v, e) && v <= LARGEST + (if neg then 1 else 0) {
      B.ValueSpells(s[d..r], 10, v);
    }
  }

  lemma NotBased(s: string, d: nat, base: nat, v: nat, e: nat)
    requires d < |s| && !(s[d] == '0' && d + 1 < |s| && IsPrefix(s[d + 1]))
    ensures !BasedForm(s, d, base, v, e)
  {
  }

  lemma NoInteger(s: string, i: nat, p: nat)
    requires i <= p < |s|
    ensures var r := Fraction(s, i, p); r.Got? ==> r.t.Float?
  {
  }

  function BaseOf(p: char): nat { if p in "xX" then 16 else if p in "oO" then 8 else 2 }

  lemma BasedEnd(s: string, i: nat, e: nat, base: nat)
    requires i <= |s| && base in {2, 8, 16}
    ensures Run(s, i, DigitsOf(base)) == e <==>
        i <= e <= |s| && (forall k | i <= k < e :: B.Takes(s[k], base)) && (e < |s| ==> !B.Takes(s[e], base))
  {
    hide B.Takes, DigitsOf;
    forall k | 0 <= k < |s| ensures B.Takes(s[k], base) <==> DigitsOf(base)(s[k]) { B.TakesIs(s[k], base); }
    if i <= e <= |s| && (forall k | i <= k < e :: B.Takes(s[k], base)) && (e < |s| ==> !B.Takes(s[e], base)) {
      B.RunsOver(s, i, e, base);
    }
  }

  lemma BasedExactly(s: string, i: nat, d: nat, n: int, e: nat)
    requires Numeric(s, i, d) && s[d] == '0' && d + 1 < |s| && IsPrefix(s[d + 1])
    ensures NumberAt(s, i, d) == Got(Int(n), e) <==> IntForm(s, d, i < d, n, e)
  {
    hide Figure, N.Spells, ValueOf, DecimalForm, B.Takes, DigitsOf;
    Signs(s, i, d);
    var base, neg := BaseOf(s[d + 1]), i < d;
    var r := Run(s, d + 2, DigitsOf(base));
    BasedEnd(s, d + 2, r, base);
    BasedEnd(s, d + 2, e, base);
    assert NumberAt(s, i, d) == Sized(s[d + 2..r], base, neg, r);
    forall v: nat ensures !DecimalForm(s, d, v, e) { NotDecimal(s, d, v, e); }
    forall other: nat, v: nat ensures BasedForm(s, d, other, v, e) ==> other == base { }
    if NumberAt(s, i, d) == Got(Int(n), e) {
      var v := ValueOf(s[d + 2..r], base).value;
      B.ValueSpells(s[d + 2..r], base, v);
      assert BasedForm(s, d, base, v, e);
    }
    if v: nat :| n == B.Sign(neg, v) && BasedForm(s, d, base, v, e) && v <= LARGEST {
      B.ValueSpells(s[d + 2..r], base, v);
    }
  }

  lemma NotDecimal(s: string, d: nat, v: nat, e: nat)
    requires d + 1 < |s| && s[d] == '0' && IsPrefix(s[d + 1])
    ensures !DecimalForm(s, d, v, e)
  {
    hide N.Spells, Figure;
  }

  lemma FloatExactly(s: string, i: nat, d: nat, text: string, e: nat)
    requires Numeric(s, i, d)
    ensures NumberAt(s, i, d) == Got(Float(text), e) <==> FloatForm(s, d, e) && text == s[i..e]
  {
    hide Figure, FloatParts, Fraction, Decimal, Prefixed, N.Spells;
    Signs(s, i, d);
    var r := Run(s, d, Digit);
    FiguresEnd(s, d, r);
    forall p: nat, f: nat, g: nat ensures FloatParts(s, d, p, f, g, e) ==> p == r && r < |s| && s[r] == '.' {
      PointAt(s, d, p, f, g, e);
    }
    if s[d] == '0' && d + 1 < |s| && IsPrefix(s[d + 1]) {
      PrefixNoPoint(s, d, r);
      PrefixNoFloat(s, d, i < d);
    } else if r < |s| && s[r] == '.' {
      FractionExactly(s, i, d, r, text, e);
    } else {
      DecimalNoFloat(s[d..r], i < d, r);
    }
  }

  lemma PointAt(s: string, d: nat, p: nat, f: nat, g: nat, e: nat)
    requires d <= |s|
    ensures FloatParts(s, d, p, f, g, e) ==> p == Run(s, d, Digit) && p < |s| && s[p] == '.'
  {
    hide Figure;
    TenFigures('.');
    if FloatParts(s, d, p, f, g, e) { FiguresEnd(s, d, p); }
  }

  lemma PrefixNoPoint(s: string, d: nat, r: nat)
    requires d + 1 < |s| && s[d] == '0' && IsPrefix(s[d + 1]) && r == Run(s, d, Digit)
    ensures r == d + 1 && s[r] != '.'
  {
    F.RunIs(s, d, Digit, d + 1);
  }

  lemma PrefixNoFloat(s: string, d: nat, neg: bool)
    requires d + 1 < |s|
    ensures var r := Prefixed(s, d, neg); r.Got? ==> r.t.Int?
  {
    hide Run, ValueOf;
  }

  lemma DecimalNoFloat(ds: string, neg: bool, e: nat)
    ensures var r := Decimal(ds, neg, e); r.Got? ==> r.t.Int?
  {
    hide ValueOf;
  }

  lemma FractionExactly(s: string, i: nat, d: nat, p: nat, text: string, e: nat)
    requires i <= d < p < |s| && s[p] == '.' && All(s, d, p, Figure)
    ensures Fraction(s, i, p) == Got(Float(text), e) <==> FloatForm(s, d, e) && text == s[i..e]
  {
    hide Figure, FloatParts, Run;
    var f := Run(s, p + 1, Digit);
    FiguresEnd(s, p + 1, f);
    var g := if f < |s| && s[f] in "eE" then
               if f + 1 < |s| && s[f + 1] in "+-" then f + 2 else f + 1
             else f;
    forall p1: nat, f1: nat, g1: nat
      ensures FloatParts(s, d, p1, f1, g1, e) ==> p1 == p && f1 == f && g1 == g
    {
      if FloatParts(s, d, p1, f1, g1, e) { PartsAt(s, d, p, p1, f1, g1, e); }
    }
    var h := Run(s, g, Digit);
    FiguresEnd(s, g, h);
    FiguresEnd(s, g, e);
    assert FloatParts(s, d, p, f, g, e) <==> if f < |s| && s[f] in "eE" then g < h == e else e == f by {
      PartsEnd(s, d, p, f, g, h, e);
    }
    assert FloatForm(s, d, e) <==> FloatParts(s, d, p, f, g, e);
  }

  /** The parts of a float are where its runs of digits end. */
  lemma PartsAt(s: string, d: nat, p: nat, p1: nat, f1: nat, g1: nat, e: nat)
    requires d < p < |s| && s[p] == '.' && All(s, d, p, Figure) && FloatParts(s, d, p1, f1, g1, e)
    ensures p1 == p && f1 == Run(s, p + 1, Digit)
    ensures g1 == if f1 < |s| && s[f1] in "eE" then
                    if f1 + 1 < |s| && s[f1 + 1] in "+-" then f1 + 2 else f1 + 1
                  else f1
  {
    hide Figure;
    TenFigures('.');
    TenFigures('+');
    TenFigures('-');
    FiguresEnd(s, d, p);
    FiguresEnd(s, d, p1);
    FiguresEnd(s, p + 1, f1);
  }

  lemma PartsEnd(s: string, d: nat, p: nat, f: nat, g: nat, h: nat, e: nat)
    requires d < p < |s| && s[p] == '.' && All(s, d, p, Figure) && f == Run(s, p + 1, Digit)
    requires g == if f < |s| && s[f] in "eE" then
                    if f + 1 < |s| && s[f + 1] in "+-" then f + 2 else f + 1
                  else f
    requires g <= |s| && h == Run(s, g, Digit)
    ensures FloatParts(s, d, p, f, g, e) <==> if f < |s| && s[f] in "eE" then g < h == e else e == f
  {
    hide Figure, Run;
    FiguresEnd(s, p + 1, f);
    FiguresEnd(s, g, h);
    FiguresEnd(s, g, e);
  }

  // ── marks ──

  lemma TwoIs(a: char, b: char, m: F.E.Token)
    ensures TwoMark(a, b) == Some(m) <==> F.IsMark(m) && F.MarkText(m) == [a, b] && !Letter(a)
    ensures TwoMark(a, b).Some? <==> [a, b] in {"**", "==", "!=", "<=", ">=", "&&", "||", "<<", ">>"}
  {
  }

  lemma OneIs(c: char, m: F.E.Token)
    ensures OneMark(c) == Some(m) <==> F.IsMark(m) && F.MarkText(m) == [c]
  {
  }

  lemma MarkSize(m: F.E.Token)
    requires F.IsMark(m)
    ensures var x := F.MarkText(m); 1 <= |x| <= 2 && x[0] != '[' && x[0] != '$' && !Figure(x[0])
    ensures var x := F.MarkText(m); Letter(x[0]) <==> m == F.E.Sym(F.O.StrEq) || m == F.E.Sym(F.O.StrNe)
  {
    TenFigures(F.MarkText(m)[0]);
  }

  lemma MarkExactly(s: string, i: nat, m: F.E.Token, sign: bool, e: nat)
    requires i < |s| && !(s[i] == '-' && sign && i + 1 < |s| && Figure(s[i + 1]))
    ensures MarkAt(s, i) == Got(Mark(m), e) <==> MarkForm(s, i, m, sign, e)
  {
    hide Figure, F.MarkText, TwoMark, OneMark;
    TenFigures(s[i]);
    if F.IsMark(m) { MarkSize(m); }
    if i + 1 < |s| {
      TwoIs(s[i], s[i + 1], m);
      assert s[i..i + 2] == [s[i], s[i + 1]];
    }
    OneIs(s[i], m);
    assert s[i..i + 1] == [s[i]];
    if Letter(s[i]) { WordExactly(s, i, m, sign, e); }
  }

  lemma WordExactly(s: string, i: nat, m: F.E.Token, sign: bool, e: nat)
    requires i < |s| && Letter(s[i])
    ensures MarkAt(s, i) == Got(Mark(m), e) <==> MarkForm(s, i, m, sign, e)
  {
    hide Figure;
    TenFigures(s[i]);
    forall k | 0 <= k < |s| ensures Letter(s[k]) <==> Alpha(s[k]) { TenFigures(s[k]); }
    var r := Run(s, i, Alpha);
    if MarkForm(s, i, m, sign, e) {
      MarkSize(m);
      assert forall k | i <= k < e :: s[k] == s[i..e][k - i];
      F.RunIs(s, i, Alpha, e);
    }
    if i + 1 < |s| { TwoIs(s[i], s[i + 1], m); }
  }

  // ── every token ──

  /** A number starts at `i`, where it may have a sign. */
  predicate Counts(s: string, i: nat, sign: bool) {
    i < |s| && (Figure(s[i]) || (s[i] == '-' && sign && i + 1 < |s| && Figure(s[i + 1])))
  }

  lemma IntStarts(s: string, d: nat, neg: bool, n: int, e: nat)
    requires IntForm(s, d, neg, n, e)
    ensures d < |s| && Figure(s[d])
  {
    TenFigures('0');
  }

  lemma FloatStarts(s: string, d: nat, e: nat)
    requires FloatForm(s, d, e)
    ensures d < |s| && Figure(s[d])
  {
  }

  lemma CountsOff(s: string, i: nat, sign: bool)
    requires i < |s|
    ensures Counts(s, i, sign) ==> s[i] != '[' && s[i] != '$'
    ensures var d := if s[i] == '-' then i + 1 else i;
      StepAt(s, i, sign) == if Counts(s, i, sign) then NumberAt(s, i, d)
                            else if s[i] == '[' then CmdAt(s, i) else if s[i] == '$' then VarAt(s, i) else MarkAt(s, i)
    ensures Counts(s, i, sign) ==> Numeric(s, i, if s[i] == '-' then i + 1 else i)
  {
    hide CmdAt, VarAt, NumberAt, MarkAt;
    TenFigures(s[i]);
    TenFigures('[');
    TenFigures('$');
    TenFigures('-');
    if i + 1 < |s| { TenFigures(s[i + 1]); }
  }

  lemma NumberKind(s: string, i: nat, d: nat)
    requires Numeric(s, i, d)
    ensures var r := NumberAt(s, i, d); r.Got? ==> r.t.Int? || r.t.Float?
  {
    hide Run, ValueOf;
    Signs(s, i, d);
  }

  lemma OtherKinds(s: string, i: nat)
    requires i < |s|
    ensures CmdAt(s, i).Got? ==> CmdAt(s, i).t.Cmd?
    ensures VarAt(s, i).Got? ==> VarAt(s, i).t.Var?
    ensures MarkAt(s, i).Got? ==> MarkAt(s, i).t.Mark?
  {
    hide Run, Closing;
  }

  /** Which character a form starts with. */
  lemma FormStarts(s: string, i: nat, sign: bool, t: Token, e: nat)
    requires Reads(s, i, sign, t, e)
    ensures t.Cmd? ==> s[i] == '['
    ensures t.Var? ==> s[i] == '$'
    ensures t.Int? || t.Float? <==> Counts(s, i, sign)
    ensures t.Mark? ==> s[i] != '[' && s[i] != '$'
  {
    hide IntForm, FloatForm, Figure, Balanced, Carries, Begins, F.MarkText, F.IsMark, N.Spells, All;
    CountsOff(s, i, sign);
    var d := if s[i] == '-' then i + 1 else i;
    TenFigures('-');
    match t
    case Int(n) => IntStarts(s, d, s[i] == '-', n, e);
    case Float(_) => FloatStarts(s, d, e);
    case Mark(m) =>
      MarkSize(m);
      assert s[i..e][0] == s[i];
      MarkAlone(s, i, m, sign, e);
    case _ =>
  }

  lemma MarkAlone(s: string, i: nat, m: F.E.Token, sign: bool, e: nat)
    requires i < |s| && MarkForm(s, i, m, sign, e)
    ensures !Counts(s, i, sign)
  {
    hide Figure;
    MarkSize(m);
    assert s[i..e][0] == s[i];
    if s[i] == '-' { MinusAlone(m, s[i..e]); }
  }

  lemma MinusAlone(m: F.E.Token, x: string)
    requires F.IsMark(m) && F.MarkText(m) == x && x[0] == '-'
    ensures x == "-"
  {
  }

  /** The token at `i` is `t`, up to `e`, exactly when the text there reads so. */
  lemma StepExactly(s: string, i: nat, sign: bool, t: Token, e: nat)
    requires i < |s|
    ensures StepAt(s, i, sign) == Got(t, e) <==> Reads(s, i, sign, t, e)
  {
    hide StepAt, CmdAt, VarAt, NumberAt, MarkAt, CmdForm, VarForm, IntForm, FloatForm, MarkForm, Counts, Numeric;
    CountsOff(s, i, sign);
    OtherKinds(s, i);
    if Reads(s, i, sign, t, e) { FormStarts(s, i, sign, t, e); }
    if Counts(s, i, sign) {
      var d := if s[i] == '-' then i + 1 else i;
      NumberKind(s, i, d);
      if t.Int? || t.Float? { NumberExactly(s, i, sign, d, t, e); }
    } else {
      match t
      case Cmd(script, off) => if s[i] == '[' { CmdExactly(s, i, script, off, e); }
      case Var(name) => if s[i] == '$' { VarExactly(s, i, name, e); }
      case Mark(m) =>
        assert !(s[i] == '-' && sign && i + 1 < |s| && Figure(s[i + 1])) by { NotCounted(s, i, sign); }
        MarkExactly(s, i, m, sign, e);
      case _ =>
    }
  }

  lemma NotCounted(s: string, i: nat, sign: bool)
    requires i < |s| && !Counts(s, i, sign)
    ensures !(s[i] == '-' && sign && i + 1 < |s| && Figure(s[i + 1]))
  {
  }

  lemma NumberExactly(s: string, i: nat, sign: bool, d: nat, t: Token, e: nat)
    requires Counts(s, i, sign) && d == (if s[i] == '-' then i + 1 else i) && (t.Int? || t.Float?)
    ensures NumberAt.requires(s, i, d)
    ensures NumberAt(s, i, d) == Got(t, e) <==> Reads(s, i, sign, t, e)
  {
    hide NumberAt, IntForm, FloatForm;
    CountsOff(s, i, sign);
    Signs(s, i, d);
    match t
    case Int(n) =>
      if s[d] == '0' && d + 1 < |s| && IsPrefix(s[d + 1]) { BasedExactly(s, i, d, n, e); }
      else { DecimalExactly(s, i, d, n, e); }
    case Float(text) => FloatExactly(s, i, d, text, e);
  }

  /** Tokens and blanks, from `i` to the end, behind the tokens `before`. */
  ghost predicate Spelt(s: string, i: nat, before: seq<Token>, ts: seq<Token>)
    requires i <= |s|
    decreases |s| - i
  {
    if i == |s| then before == ts
    else if s[i] in " \t\n\r" || s[i] as int == 12 then Spelt(s, i + 1, before, ts)
    else exists t: Token, e: nat ::
      i < e <= |s| && Reads(s, i, MayBeSigned(before), t, e) && Spelt(s, e, before + [t], ts)
  }

  /** A minus belongs to a number at the start, and behind an operator other than
      the power or an opening parenthesis. */
  predicate MayBeSigned(before: seq<Token>) {
    before != [] ==>
      var last := before[|before| - 1];
      last.Mark? && last.m != F.E.Close && last.m != F.E.Sym(F.O.Pow)
  }

  /** The tokens of a text are `ts` exactly when it spells them out. */
  lemma LexExactly(s: string, ts: seq<Token>)
    ensures Lex(s) == Lexes(ts) <==> Spelt(s, 0, [], ts)
  {
    LexedFrom(s, 0, [], ts);
  }

  lemma {:induction false} LexedFrom(s: string, i: nat, before: seq<Token>, ts: seq<Token>)
    requires i <= |s|
    ensures LexFrom(s, i, before) == Lexes(ts) <==> Spelt(s, i, before, ts)
    decreases |s| - i
  {
    hide StepAt, Reads;
    if i < |s| {
      assert SignMay(before) == MayBeSigned(before);
      if Blank(s[i]) {
        LexedFrom(s, i + 1, before, ts);
      } else {
        var r := StepAt(s, i, SignMay(before));
        if r.Got? {
          StepExactly(s, i, SignMay(before), r.t, r.next);
          LexedFrom(s, r.next, before + [r.t], ts);
        }
        forall t: Token, e: nat ensures Reads(s, i, SignMay(before), t, e) ==> r == Got(t, e) {
          StepExactly(s, i, SignMay(before), t, e);
        }
      }
    }
  }
}

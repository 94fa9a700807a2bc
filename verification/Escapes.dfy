/** Backslash sequences of a list element, from the other side: pieces of text
    written for what they stand for are read back as that. */
module Escapes {
  import opened Options
  import opened Numerals
  import opened Utf8
  import opened ListText

  /** A piece of an element's text.  `ds` are the digits written for `n`. */
  datatype Piece =
    | Raw(c: string)                                // a character as it is
    | Control(key: char)                            // a letter for a control character
    | Hex(ds: string, n: nat) | Octal(ds: string, n: nat)
    | Short(ds: string, n: nat) | Long(ds: string, n: nat)
    | Pair(hi: string, lo: string, n: nat)          // two surrogates
    | Fold(blanks: string)                          // a line break and what follows it
    | Same(c: string)                               // a character behind a backslash
    | Lone                                          // a backslash at the end

  function Text(p: Piece): (s: string)
    ensures s != "" || p.Raw?
  {
    match p
    case Raw(c) => c
    case Control(c) => ['\\', c]
    case Hex(ds, _) => "\\x" + ds
    case Octal(ds, _) => "\\" + ds
    case Short(ds, _) => "\\u" + ds
    case Long(ds, _) => "\\U" + ds
    case Pair(hi, lo, _) => "\\u" + hi + "\\u" + lo
    case Fold(blanks) => "\\\n" + blanks
    case Same(c) => "\\" + c
    case Lone => "\\"
  }

  /** The control characters that have a letter. */
  function Controlled(c: char): int {
    match c
    case 'a' => 7 case 'b' => 8 case 't' => 9 case 'n' => 10 case 'v' => 11 case 'f' => 12 case 'r' => 13
    case _ => -1
  }

  const REPLACEMENT: nat := 0xfffd

  function Scalar(n: nat): string { Encode(if IsScalar(n) then n else REPLACEMENT) }

  /** What it stands for. */
  function Sense(p: Piece): string {
    match p
    case Raw(c) => c
    case Control(c) => if Controlled(c) >= 0 then [Byte(Controlled(c))] else ""
    case Hex(_, n) => Scalar(n)
    case Octal(_, n) => Scalar(n)
    case Short(_, n) => Scalar(n)
    case Long(_, n) => Scalar(n)
    case Pair(_, _, n) => Scalar(n)
    case Fold(_) => " "
    case Same(c) => c
    case Lone => "\\"
  }

  predicate Starts(s: string, base: nat) { s != "" && DigitIn(s[0], base) }

  predicate Blanks(s: string) { forall k | 0 <= k < |s| :: s[k] == ' ' || s[k] == '\t' }

  /** Written as it must be for what it stands for, with `next` behind it: fewer
      digits than fit end at a character that is none. */
  predicate Proper(p: Piece, next: string) {
    match p
    case Raw(c) => OneChar(c) && c != "\\"
    case Control(c) => Controlled(c) >= 0
    case Hex(ds, n) => 1 <= |ds| <= 2 && Spells(ds, 16, n) && (|ds| == 2 || !Starts(next, 16))
    case Octal(ds, n) =>
      && 1 <= |ds| <= 3 && Spells(ds, 8, n) && n < 0x100
      && (|ds| == 3 || !Starts(next, 8) || (|ds| == 2 && n >= 0x20))
    case Short(ds, n) => 1 <= |ds| <= 4 && Spells(ds, 16, n) && IsScalar(n) && (|ds| == 4 || !Starts(next, 16))
    case Long(ds, n) => 1 <= |ds| <= 8 && Spells(ds, 16, n) && (|ds| == 8 || !Starts(next, 16))
    case Pair(hi, lo, n) =>
      && 0x1_0000 <= n < 0x11_0000 && |hi| == |lo| == 4
      && Spells(hi, 16, 0xd800 + (n - 0x1_0000) / 0x400) && Spells(lo, 16, 0xdc00 + (n - 0x1_0000) % 0x400)
    case Fold(blanks) => Blanks(blanks) && (next != "" ==> !Blanks(next[..1]))
    case Same(c) =>
      && OneChar(c) && Controlled(c[0]) < 0 && c[0] != '\n' && !DigitIn(c[0], 8)
      && (c[0] in "xuU" ==> !Starts(next, 16))
    case Lone => next == ""
  }

  // ── runs of digits ──

  lemma HexDigits(c: char)
    ensures DigitIn(c, 16) <==> IsHex(c)
    ensures forall d: nat | d < 16 && DigitOf(c, d) :: Digit(c) == d
  {
    if IsHex(c) { assert DigitOf(c, Digit(c)); }
  }

  lemma OctalDigits(c: char)
    ensures DigitIn(c, 8) <==> IsOctal(c)
  {
    if IsOctal(c) { assert DigitOf(c, Digit(c)); }
  }

  /** `s` stands in `b` at `i`. */
  predicate At(b: string, i: nat, s: string) { i + |s| <= |b| && b[i..i + |s|] == s }

  lemma {:induction false} HexReaches(b: string, i: nat, max: nat, ds: string, j: nat, v: nat)
    requires At(b, i, ds) && j <= |ds| <= max && Spells(ds[..j], 16, v) && v <= MAX32
    ensures HexRun(b, i, max, 0, 0) == HexRun(b, i, max, j, v)
    decreases j
  {
    hide HexRun, DigitOf, At;
    AtEnd(b, i, ds);
    if j > 0 {
      var s, c := ds[..j], ds[j - 1];
      assert s[..|s| - 1] == ds[..j - 1] && s[|s| - 1] == c;
      HexReaches(b, i, max, ds, j - 1, v / 16);
      AtByte(b, i, ds, j - 1);
      HexStep(b, i, max, j - 1, v);
    }
  }

  lemma HexStep(b: string, i: nat, max: nat, j: nat, v: nat)
    requires i + j < |b| && j < max && DigitOf(b[i + j], v % 16) && v <= MAX32
    ensures HexRun(b, i, max, j, v / 16) == HexRun(b, i, max, j + 1, v)
  {
    hide DigitOf;
    HexDigits(b[i + j]);
    LastDigit(b[i + j], v, 16);
  }

  /** All the digits are taken, and nothing behind them. */
  lemma HexRead(b: string, i: nat, max: nat, ds: string, n: nat)
    requires At(b, i, ds) && 1 <= |ds| <= max <= 8 && Spells(ds, 16, n)
    requires |ds| == max || !Starts(b[i + |ds|..], 16)
    ensures HexRun(b, i, max, 0, 0) == (|ds|, n)
  {
    hide Spells;
    assert ds[..|ds|] == ds;
    HexBound(ds, n);
    HexReaches(b, i, max, ds, |ds|, n);
    if i + |ds| < |b| { HexDigits(b[i + |ds|]); }
  }

  function Power(k: nat): nat { if k == 0 then 1 else 16 * Power(k - 1) }

  lemma {:induction false} Spelled(ds: string, n: nat)
    requires Spells(ds, 16, n)
    ensures n < Power(|ds|)
    decreases |ds|
  {
    if ds != "" { Spelled(ds[..|ds| - 1], n / 16); }
  }

  lemma HexBound(ds: string, n: nat)
    requires Spells(ds, 16, n) && |ds| <= 8
    ensures n <= MAX32 && (|ds| <= 2 ==> n < 0x100) && (|ds| <= 4 ==> n < 0x1_0000)
  {
    Spelled(ds, n);
    assert Power(2) == 0x100 && Power(4) == 0x1_0000 && Power(8) == 0x1_0000_0000;
  }

  lemma {:induction false} OctalReaches(b: string, i: nat, ds: string, j: nat, v: nat)
    requires At(b, i, ds) && 1 <= j <= |ds| <= 3 && Spells(ds[..j], 8, v) && v < 0x100
    ensures i < |b| && IsOctal(b[i]) && OctalRun(b, i, 1, Digit(b[i])) == OctalRun(b, i, j, v)
    decreases j
  {
    hide At, OctalRun, DigitOf, DigitIn;
    var s, c := ds[..j], ds[j - 1];
    assert s[..|s| - 1] == ds[..j - 1] && s[|s| - 1] == c;
    AtEnd(b, i, ds);
    AtByte(b, i, ds, j - 1);
    HexDigits(c);
    OctalDigits(c);
    LastDigit(c, v, 8);
    if j > 1 {
      OctalReaches(b, i, ds, j - 1, v / 8);
      OctalStep(b, i, j - 1, v);
    } else {
      assert ds[..0] == "";
    }
  }

  lemma OctalStep(b: string, i: nat, j: nat, v: nat)
    requires i + j < |b| && 1 <= j < 3 && DigitOf(b[i + j], v % 8) && v < 0x100
    ensures OctalRun(b, i, j, v / 8) == OctalRun(b, i, j + 1, v)
  {
    hide DigitOf, DigitIn;
    HexDigits(b[i + j]);
    OctalDigits(b[i + j]);
    LastDigit(b[i + j], v, 8);
  }

  lemma OctalRead(b: string, i: nat, ds: string, n: nat)
    requires At(b, i, ds) && 1 <= |ds| <= 3 && Spells(ds, 8, n) && n < 0x100
    requires |ds| == 3 || !Starts(b[i + |ds|..], 8) || (|ds| == 2 && n >= 0x20)
    ensures IsOctal(b[i]) && OctalRun(b, i, 1, Digit(b[i])) == (|ds|, n)
  {
    hide Spells;
    assert ds[..|ds|] == ds;
    OctalReaches(b, i, ds, |ds|, n);
    if i + |ds| < |b| { OctalDigits(b[i + |ds|]); }
  }

  // ── one sequence ──

  lemma AtSplit(b: string, i: nat, x: string, y: string)
    requires At(b, i, x + y)
    ensures At(b, i, x) && At(b, i + |x|, y)
  {
    var s := b[i..i + |x + y|];
    assert s[..|x|] == b[i..i + |x|] && s[|x|..] == b[i + |x|..i + |x| + |y|];
  }

  lemma AtByte(b: string, i: nat, s: string, k: nat)
    requires At(b, i, s) && k < |s|
    ensures b[i + k] == s[k]
  {
    assert b[i..i + |s|][k] == b[i + k];
  }

  /** A sequence is read with its own length and sense. */
  lemma PieceRead(b: string, i: nat, p: Piece)
    requires !p.Raw? && At(b, i, Text(p)) && Proper(p, b[i + |Text(p)|..])
    ensures i < |b| && b[i] == '\\' && Backslash(b, i) == (|Text(p)|, Sense(p))
  {
    hide Backslash, Proper, At;
    AtByte(b, i, Text(p), 0);
    match p
    case Control(c) => ControlRead(b, i, c);
    case Hex(ds, n) => ByteRead(b, i, ds, n);
    case Octal(ds, n) => OctalByte(b, i, ds, n);
    case Short(ds, n) => ShortRead(b, i, ds, n);
    case Long(ds, n) => LongRead(b, i, ds, n);
    case Pair(hi, lo, n) => PairRead(b, i, hi, lo, n);
    case Fold(blanks) => FoldRead(b, i, blanks);
    case Same(c) => SameRead(b, i, c);
    case Lone => LoneRead(b, i);
  }

  lemma LoneRead(b: string, i: nat)
    requires At(b, i, Text(Lone)) && Proper(Lone, b[i + 1..])
    ensures Backslash(b, i) == (1, "\\")
  {
    AtByte(b, i, "\\", 0);
  }

  lemma ControlRead(b: string, i: nat, c: char)
    requires At(b, i, Text(Control(c))) && Proper(Control(c), b[i + 2..])
    ensures Backslash(b, i) == (2, Sense(Control(c)))
  {
    AtByte(b, i, ['\\', c], 0);
    AtByte(b, i, ['\\', c], 1);
  }

  lemma ByteRead(b: string, i: nat, ds: string, n: nat)
    requires At(b, i, Text(Hex(ds, n))) && Proper(Hex(ds, n), b[i + 2 + |ds|..])
    ensures Backslash(b, i) == (2 + |ds|, Scalar(n))
  {
    hide Spells, HexRun, Starts, At;
    AtByte(b, i, "\\x" + ds, 0);
    AtByte(b, i, "\\x" + ds, 1);
    AtSplit(b, i, "\\x", ds);
    HexRead(b, i + 2, 2, ds, n);
    HexBound(ds, n);
  }

  lemma OctalByte(b: string, i: nat, ds: string, n: nat)
    requires At(b, i, Text(Octal(ds, n))) && Proper(Octal(ds, n), b[i + 1 + |ds|..])
    ensures Backslash(b, i) == (1 + |ds|, Scalar(n))
  {
    hide Spells, OctalRun, Starts, At, Encode, DigitIn;
    AtByte(b, i, "\\" + ds, 0);
    AtByte(b, i, "\\" + ds, 1);
    AtSplit(b, i, "\\", ds);
    OctalRead(b, i + 1, ds, n);
  }

  lemma ShortRead(b: string, i: nat, ds: string, n: nat)
    requires At(b, i, Text(Short(ds, n))) && Proper(Short(ds, n), b[i + 2 + |ds|..])
    ensures Backslash(b, i) == (2 + |ds|, Scalar(n))
  {
    hide Spells, HexRun, Starts, At;
    AtByte(b, i, "\\u" + ds, 0);
    AtByte(b, i, "\\u" + ds, 1);
    AtSplit(b, i, "\\u", ds);
    HexRead(b, i + 2, 4, ds, n);
  }

  lemma LongRead(b: string, i: nat, ds: string, n: nat)
    requires At(b, i, Text(Long(ds, n))) && Proper(Long(ds, n), b[i + 2 + |ds|..])
    ensures Backslash(b, i) == (2 + |ds|, Scalar(n))
  {
    hide Spells, HexRun, Starts, At;
    AtByte(b, i, "\\U" + ds, 0);
    AtByte(b, i, "\\U" + ds, 1);
    AtSplit(b, i, "\\U", ds);
    HexRead(b, i + 2, 8, ds, n);
  }

  lemma PairRead(b: string, i: nat, hi: string, lo: string, n: nat)
    requires var p := Pair(hi, lo, n); At(b, i, Text(p)) && Proper(p, b[i + |Text(p)|..])
    ensures Backslash(b, i) == (|Text(Pair(hi, lo, n))|, Scalar(n))
  {
    hide Spells, HexRun, Starts, At, Encode;
    var m := n - 0x1_0000;
    PairStands(b, i, hi, lo);
    HexRead(b, i + 2, 4, hi, 0xd800 + m / 0x400);
    HexRead(b, i + 8, 4, lo, 0xdc00 + m % 0x400);
    CombinedIs(m);
  }

  lemma PairStands(b: string, i: nat, hi: string, lo: string)
    requires |hi| == |lo| == 4 && At(b, i, "\\u" + hi + "\\u" + lo)
    ensures i + 12 <= |b| && At(b, i + 2, hi) && At(b, i + 8, lo)
    ensures b[i] == b[i + 6] == '\\' && b[i + 1] == b[i + 7] == 'u'
  {
    hide At;
    var s := "\\u" + hi + "\\u" + lo;
    assert s == "\\u" + (hi + ("\\u" + lo));
    AtEnd(b, i, s);
    AtByte(b, i, s, 0);
    AtByte(b, i, s, 1);
    AtByte(b, i, s, 6);
    AtByte(b, i, s, 7);
    AtSplit(b, i, "\\u", hi + ("\\u" + lo));
    AtSplit(b, i + 2, hi, "\\u" + lo);
    AtSplit(b, i + 6, "\\u", lo);
  }

  lemma AtEnd(b: string, i: nat, s: string)
    requires At(b, i, s)
    ensures i + |s| <= |b|
  {
  }

  lemma CombinedIs(m: nat)
    requires m < 0x10_0000
    ensures Combined(0xd800 + m / 0x400, 0xdc00 + m % 0x400) == m + 0x1_0000
  {
  }

  lemma FoldRead(b: string, i: nat, blanks: string)
    requires At(b, i, Text(Fold(blanks))) && Proper(Fold(blanks), b[i + 2 + |blanks|..])
    ensures Backslash(b, i) == (2 + |blanks|, " ")
  {
    hide At;
    AtByte(b, i, "\\\n" + blanks, 0);
    AtByte(b, i, "\\\n" + blanks, 1);
    AtSplit(b, i, "\\\n", blanks);
    AtEnd(b, i + 2, blanks);
    BlanksRead(b, i + 2, blanks, 0);
  }

  lemma {:induction false} BlanksRead(b: string, i: nat, blanks: string, k: nat)
    requires At(b, i, blanks) && k <= |blanks| && Proper(Fold(blanks), b[i + |blanks|..])
    ensures BlanksFrom(b, i + k) == i + |blanks|
    decreases |blanks| - k
  {
    if k < |blanks| {
      AtByte(b, i, blanks, k);
      BlanksRead(b, i, blanks, k + 1);
    } else if i + k < |b| {
      assert b[i + k..][..1][0] == b[i + k];
    }
  }

  lemma SameRead(b: string, i: nat, c: string)
    requires At(b, i, Text(Same(c))) && Proper(Same(c), b[i + 1 + |c|..])
    ensures Backslash(b, i) == (1 + |c|, c)
  {
    hide At, HexRun, OctalRun, DigitIn;
    AtByte(b, i, "\\" + c, 0);
    AtByte(b, i, "\\" + c, 1);
    AtSplit(b, i, "\\", c);
    AtEnd(b, i + 1, c);
    OneCharLen(c);
    OctalDigits(c[0]);
    assert b[i + 1..i + 1 + |c|] == c by { AtIs(b, i + 1, c); }
    if c[0] in "xuU" {
      assert c == [c[0]];
      NoDigits(b, i + 2);
    }
  }

  lemma AtIs(b: string, i: nat, s: string)
    requires At(b, i, s)
    ensures i + |s| <= |b| && b[i..i + |s|] == s
  {
  }

  lemma NoDigits(b: string, i: nat)
    requires i <= |b| && !Starts(b[i..], 16)
    ensures forall max: nat | max > 0 :: HexRun(b, i, max, 0, 0) == (0, 0)
  {
    if i < |b| { HexDigits(b[i]); }
  }

  // ── texts of several pieces ──

  function Texts(ps: seq<Piece>): string { if ps == [] then "" else Text(ps[0]) + Texts(ps[1..]) }

  function Senses(ps: seq<Piece>): string { if ps == [] then "" else Sense(ps[0]) + Senses(ps[1..]) }

  predicate ProperAll(ps: seq<Piece>, next: string) {
    ps != [] ==> Proper(ps[0], Texts(ps[1..]) + next) && ProperAll(ps[1..], next)
  }

  /** What holds with text behind holds at the end. */
  lemma {:induction false} ProperAlone(ps: seq<Piece>, next: string)
    requires ProperAll(ps, next)
    ensures ProperAll(ps, "")
    decreases ps
  {
    if ps != [] {
      ProperAlone(ps[1..], next);
      var rest := Texts(ps[1..]);
      if rest == "" { assert rest + "" == "" && rest + next == next; }
      else { assert (rest + "")[..1] == (rest + next)[..1]; }
    }
  }

  /** The parts of the text at `i` whose first piece is `ps[0]`. */
  lemma FirstPiece(b: string, i: nat, ps: seq<Piece>)
    requires ps != [] && At(b, i, Texts(ps)) && ProperAll(ps, b[i + |Texts(ps)|..])
    ensures var k := i + |Text(ps[0])|;
      && At(b, i, Text(ps[0])) && At(b, k, Texts(ps[1..])) && i + |Texts(ps)| == k + |Texts(ps[1..])|
      && Proper(ps[0], b[k..]) && ProperAll(ps[1..], b[k + |Texts(ps[1..])|..])
  {
    hide Proper, Text, At;
    var rest := Texts(ps[1..]);
    var k := i + |Text(ps[0])|;
    AtSplit(b, i, Text(ps[0]), rest);
    AtEnd(b, k, rest);
    AtIs(b, k, rest);
    assert b[k..] == rest + b[k + |rest|..];
  }

  lemma {:induction false} CollapseReads(b: string, i: nat, ps: seq<Piece>)
    requires At(b, i, Texts(ps)) && ProperAll(ps, b[i + |Texts(ps)|..])
    ensures CollapseFrom(b, i) == Senses(ps) + CollapseFrom(b, i + |Texts(ps)|)
    decreases ps
  {
    hide Proper, ProperAll, At, Text, Sense, CollapseFrom;
    if ps != [] {
      FirstPiece(b, i, ps);
      var k := i + |Text(ps[0])|;
      CollapseReads(b, k, ps[1..]);
      CollapseStep(b, i, ps[0]);
      var end := CollapseFrom(b, i + |Texts(ps)|);
      assert Sense(ps[0]) + (Senses(ps[1..]) + end) == (Sense(ps[0]) + Senses(ps[1..])) + end;
    }
  }

  lemma CollapseStep(b: string, i: nat, p: Piece)
    requires At(b, i, Text(p)) && Proper(p, b[i + |Text(p)|..])
    ensures CollapseFrom(b, i) == Sense(p) + CollapseFrom(b, i + |Text(p)|)
  {
    hide Backslash, At, OneChar, Spells, Starts, DigitIn, Encode;
    if p.Raw? { RawCollapses(b, i, p.c); } else { PieceRead(b, i, p); }
  }

  /** No byte of a character but its first can be a space, a quote or a
      backslash. */
  lemma Tame(c: string, k: nat)
    requires OneChar(c) && c != "\\" && k < |c|
    ensures c[k] != '\\' && (k > 0 ==> !IsSpace(c[k]) && c[k] != '"')
  {
    OneCharBytes(c);
    assert |c| == 1 ==> c == [c[0]];
  }

  lemma RawCollapses(b: string, i: nat, c: string)
    requires At(b, i, c) && OneChar(c) && c != "\\"
    ensures CollapseFrom(b, i) == c + CollapseFrom(b, i + |c|)
  {
    hide Backslash, At, OneChar, Len;
    OneCharLen(c);
    AtIs(b, i, c);
    AtByte(b, i, c, 0);
    Tame(c, 0);
  }

  /** An element's text, substituted, is what its pieces stand for. */
  lemma SubstitutedIs(ps: seq<Piece>)
    requires ProperAll(ps, "")
    ensures Substituted(Texts(ps)) == Senses(ps)
  {
    hide CollapseFrom, ProperAll;
    var b := Texts(ps);
    if HasBackslash(b) {
      assert b[|b|..] == "";
      CollapseReads(b, 0, ps);
      assert CollapseFrom(b, |b|) == "" by { CollapseEnd(b); }
    } else {
      AllRaw(ps);
    }
  }

  lemma CollapseEnd(b: string)
    ensures CollapseFrom(b, |b|) == ""
  {
  }

  lemma {:induction false} AllRaw(ps: seq<Piece>)
    requires !HasBackslash(Texts(ps))
    ensures Senses(ps) == Texts(ps)
    decreases ps
  {
    if ps != [] {
      RawOrNot(ps[0], Texts(ps[1..]));
      AllRaw(ps[1..]);
    }
  }

  lemma RawOrNot(p: Piece, rest: string)
    ensures HasBackslash(rest) || !p.Raw? ==> HasBackslash(Text(p) + rest)
  {
    if !p.Raw? { assert (Text(p) + rest)[0] == '\\'; }
    if k :| 0 <= k < |rest| && rest[k] == '\\' { assert (Text(p) + rest)[|Text(p)| + k] == '\\'; }
  }
}

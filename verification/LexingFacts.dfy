/** What the tokenizer promises: brackets are found where they stand, numbers
    keep their value, and any spelling of a token list reads back as the list. */
module LexingFacts {
  import opened Options
  import Arith
  import E = Exprs
  import O = Opcodes
  import opened Lexing
  import Values

  // ── brackets lie in the text ──

  /** The script of a bracket token stands between its brackets at `j`. */
  predicate StandsAt(s: string, t: Token, j: nat) {
    && t.Cmd? && 0 < j && j + |t.script| < |s| && s[j - 1] == '[' && s[j + |t.script|] == ']'
    && s[j..j + |t.script|] == t.script && t.off == Offset(s, j)
  }

  ghost predicate Stands(s: string, t: Token) { t.Cmd? ==> exists j: nat :: StandsAt(s, t, j) }

  lemma StepStands(s: string, i: nat, sign: bool)
    requires i < |s| && StepAt(s, i, sign).Got?
    ensures Stands(s, StepAt(s, i, sign).t)
  {
    hide NumberAt, VarAt, MarkAt;
    var r := StepAt(s, i, sign);
    if s[i] == '[' {
      assert StandsAt(s, r.t, i + 1);
    } else {
      NoBrackets(s, i, sign);
    }
  }

  lemma NoBrackets(s: string, i: nat, sign: bool)
    requires i < |s| && s[i] != '[' && StepAt(s, i, sign).Got?
    ensures !StepAt(s, i, sign).t.Cmd?
  {
  }

  lemma {:induction false} LexStands(s: string, i: nat, ts: seq<Token>)
    requires i <= |s| && LexFrom(s, i, ts).Lexes? && forall k | 0 <= k < |ts| :: Stands(s, ts[k])
    ensures forall k | 0 <= k < |LexFrom(s, i, ts).ts| :: Stands(s, LexFrom(s, i, ts).ts[k])
    decreases |s| - i
  {
    hide StepAt, Stands, SignMay;
    if i < |s| {
      if Blank(s[i]) {
        LexStands(s, i + 1, ts);
      } else {
        var r := StepAt(s, i, SignMay(ts));
        StepStands(s, i, SignMay(ts));
        LexStands(s, r.next, ts + [r.t]);
      }
    }
  }

  lemma {:induction false} BytesJoin(a: string, b: string)
    ensures Bytes(a + b) == Bytes(a) + Bytes(b)
  {
    if b == "" {
      assert a + b == a;
    } else {
      var n := |b| - 1;
      BytesJoin(a, b[..n]);
      assert (a + b)[..|a + b| - 1] == a + b[..n];
    }
  }

  lemma {:induction false} OffsetIsBytes(s: string, i: nat)
    requires i <= |s|
    ensures Offset(s, i) == |Bytes(s[..i])|
  {
    if i > 0 {
      OffsetIsBytes(s, i - 1);
      assert s[..i][..i - 1] == s[..i - 1];
    }
  }

  /** Every bracket token names the bytes of its script, between a `[` and a `]`. */
  lemma BracketsInText(s: string, k: nat)
    requires Lex(s).Lexes? && k < |Lex(s).ts| && Lex(s).ts[k].Cmd?
    ensures var t, b := Lex(s).ts[k], Bytes(s);
      && 0 < t.off && t.off + |Bytes(t.script)| < |b| && b[t.off..t.off + |Bytes(t.script)|] == Bytes(t.script)
      && b[t.off - 1] == '[' && b[t.off + |Bytes(t.script)|] == ']'
  {
    hide LexFrom, Bytes, Offset;
    LexStands(s, 0, []);
    var t := Lex(s).ts[k];
    assert Stands(s, t);
    var j: nat :| StandsAt(s, t, j);
    BytesAt(s, t, j);
  }

  lemma BytesAt(s: string, t: Token, j: nat)
    requires StandsAt(s, t, j)
    ensures var b := Bytes(s);
      && 0 < t.off && t.off + |Bytes(t.script)| < |b| && b[t.off..t.off + |Bytes(t.script)|] == Bytes(t.script)
      && b[t.off - 1] == '[' && b[t.off + |Bytes(t.script)|] == ']'
  {
    hide Bytes, Offset;
    var e := j + |t.script|;
    var left, right := s[..j - 1], s[e + 1..];
    OffsetIsBytes(s, j);
    assert s == left + ("[" + (t.script + ("]" + right)));
    assert s[..j] == left + "[";
    BytesJoin(left, "[");
    BytesJoin(left, "[" + (t.script + ("]" + right)));
    BytesJoin("[", t.script + ("]" + right));
    BytesJoin(t.script, "]" + right);
    BytesJoin("]", right);
    OneByte('[');
    OneByte(']');
    var b, l, m, r := Bytes(s), Bytes(left), Bytes(t.script), Bytes(right);
    assert b == l + ("[" + (m + ("]" + r))) && t.off == |l| + 1;
    assert b[|l|..] == "[" + (m + ("]" + r));
    assert b[t.off..] == m + ("]" + r);
    assert b[t.off + |m|..] == "]" + r;
  }

  lemma OneByte(c: char)
    requires c as int < 128
    ensures Bytes([c]) == [c]
  {
    assert [c][..0] == "" && Bytes("") == "";
  }

  // ── a token alone and among others ──

  /** `x` stands at `o`, and a blank or nothing follows. */
  predicate Apart(s: string, o: nat, x: string) {
    o + |x| <= |s| && s[o..o + |x|] == x && (o + |x| < |s| ==> Blank(s[o + |x|]))
  }

  lemma {:induction false} RunIs(s: string, i: nat, p: char -> bool, r: nat)
    requires i <= r <= |s| && (forall k | i <= k < r :: p(s[k])) && (r < |s| ==> !p(s[r]))
    ensures Run(s, i, p) == r
    decreases r - i
  {
    if i < r { RunIs(s, i + 1, p, r); }
  }

  lemma ApartAt(s: string, o: nat, x: string, k: nat)
    requires Apart(s, o, x) && k < |x|
    ensures s[o + k] == x[k]
  {
    assert s[o..o + |x|][k] == x[k];
  }

  lemma RunApart(s: string, o: nat, x: string, i: nat, p: char -> bool)
    requires Apart(s, o, x) && i <= |x|
    requires Run(x, i, p) < |x| || forall c | Blank(c) :: !p(c)
    ensures Run(s, o + i, p) == o + Run(x, i, p)
  {
    var r := Run(x, i, p);
    forall k | o + i <= k < o + r ensures p(s[k]) { ApartAt(s, o, x, k - o); }
    if r < |x| { ApartAt(s, o, x, r); }
    RunIs(s, o + i, p, o + r);
  }

  lemma {:induction false} ClosingApart(s: string, o: nat, x: string, i: nat, depth: nat, open: char, close: char)
    requires Apart(s, o, x) && i <= |x| && depth > 0 && open != close && Closing(x, i, depth, open, close).Some?
    ensures Closing(s, o + i, depth, open, close) == Some(o + Closing(x, i, depth, open, close).value)
    decreases |x| - i
  {
    ApartAt(s, o, x, i);
    if x[i] == open { ClosingApart(s, o, x, i + 1, depth + 1, open, close); }
    else if x[i] == close { if depth > 1 { ClosingApart(s, o, x, i + 1, depth - 1, open, close); } }
    else { ClosingApart(s, o, x, i + 1, depth, open, close); }
  }

  lemma SliceApart(s: string, o: nat, x: string, i: nat, j: nat)
    requires Apart(s, o, x) && i <= j <= |x|
    ensures s[o + i..o + j] == x[i..j]
  {
    var a, b := s[o + i..o + j], x[i..j];
    forall k | 0 <= k < |b| ensures a[k] == b[k] { ApartAt(s, o, x, i + k); }
    assert a == b;
  }

  /** The same token, wherever its brackets are. */
  predicate Alike(a: Token, b: Token) { a == b || (a.Cmd? && b.Cmd? && a.script == b.script) }

  /** The step `r` alone, and the step `q` at `o`. */
  predicate Moved(q: Step, r: Step, o: nat) { q.Got? && r.Got? && Alike(q.t, r.t) && q.next == o + r.next }

  lemma CmdApart(s: string, o: nat, x: string)
    requires Apart(s, o, x) && x != "" && CmdAt(x, 0).Got?
    ensures Moved(CmdAt(s, o), CmdAt(x, 0), o)
  {
    ClosingApart(s, o, x, 1, 1, '[', ']');
    SliceApart(s, o, x, 1, CmdAt(x, 0).next - 1);
  }

  lemma ApartEnd(s: string, o: nat, x: string)
    requires Apart(s, o, x)
    ensures o + |x| <= |s| && (o + |x| < |s| ==> Blank(s[o + |x|]))
  {
  }

  lemma VarApart(s: string, o: nat, x: string)
    requires Apart(s, o, x) && x != "" && VarAt(x, 0).Got?
    ensures Moved(VarAt(s, o), VarAt(x, 0), o)
  {
    hide Apart, Run, NameStart, NameChar, NotBrace, Closing;
    ApartEnd(s, o, x);
    ApartAt(s, o, x, 1);
    if x[1] == '{' { BracedApart(s, o, x); } else { NamedApart(s, o, x); }
  }

  lemma BracedApart(s: string, o: nat, x: string)
    requires Apart(s, o, x) && |x| > 1 && x[1] == '{' && VarAt(x, 0).Got?
    ensures Moved(VarAt(s, o), VarAt(x, 0), o)
  {
    hide Apart, NameStart, NameChar, Closing;
    ApartEnd(s, o, x);
    ApartAt(s, o, x, 1);
    var e := Run(x, 2, NotBrace);
    RunApart(s, o, x, 2, NotBrace);
    SliceApart(s, o, x, 2, e);
  }

  lemma NamedApart(s: string, o: nat, x: string)
    requires Apart(s, o, x) && |x| > 1 && x[1] != '{' && VarAt(x, 0).Got?
    ensures Moved(VarAt(s, o), VarAt(x, 0), o)
  {
    hide Apart, NotBrace, Closing;
    ApartEnd(s, o, x);
    ApartAt(s, o, x, 1);
    var e := Run(x, 1, NameChar);
    RunApart(s, o, x, 1, NameChar);
    assert e == |x| && o + e < |s| ==> s[o + e] != '(';
    hide NameChar, Run, Blank;
    SliceApart(s, o, x, 1, e);
    if e < |x| {
      ApartAt(s, o, x, e);
      if x[e] == '(' {
        ClosingApart(s, o, x, e + 1, 1, '(', ')');
        SliceApart(s, o, x, 1, VarAt(x, 0).next);
      }
    }
  }

  lemma MarkApart(s: string, o: nat, x: string)
    requires Apart(s, o, x) && x != "" && MarkAt(x, 0).Got?
    ensures Moved(MarkAt(s, o), MarkAt(x, 0), o)
  {
    ApartAt(s, o, x, 0);
    if |x| > 1 { ApartAt(s, o, x, 1); }
    if Alpha(x[0]) {
      RunApart(s, o, x, 0, Alpha);
      SliceApart(s, o, x, 0, Run(x, 0, Alpha));
    }
  }

  lemma NumberApart(s: string, o: nat, x: string, d: nat)
    requires Apart(s, o, x) && d < |x| && Digit(x[d]) && NumberAt(x, 0, d).Got?
    ensures Digit(s[o + d]) && Moved(NumberAt(s, o, o + d), NumberAt(x, 0, d), o)
  {
    hide Prefixed, Fraction, Decimal;
    ApartAt(s, o, x, d);
    if d + 1 < |x| { ApartAt(s, o, x, d + 1); }
    if x[d] == '0' && d + 1 < |x| && IsPrefix(x[d + 1]) {
      PrefixedApart(s, o, x, d, 0 < d);
    } else {
      var e := Run(x, d, Digit);
      RunApart(s, o, x, d, Digit);
      if e < |x| { ApartAt(s, o, x, e); }
      if e < |x| && x[e] == '.' {
        FractionApart(s, o, x, e);
      } else {
        SliceApart(s, o, x, d, e);
        DecimalMoved(x[d..e], 0 < d, o, e);
      }
    }
  }

  lemma DecimalMoved(ds: string, neg: bool, o: nat, e: nat)
    requires Decimal(ds, neg, e).Got?
    ensures Moved(Decimal(ds, neg, o + e), Decimal(ds, neg, e), o)
  {
  }

  lemma PrefixedApart(s: string, o: nat, x: string, d: nat, neg: bool)
    requires Apart(s, o, x) && d + 1 < |x| && Prefixed(x, d, neg).Got?
    ensures Moved(Prefixed(s, o + d, neg), Prefixed(x, d, neg), o)
  {
    hide ValueOf, Apart, Run;
    ApartEnd(s, o, x);
    ApartAt(s, o, x, d + 1);
    var c := x[d + 1];
    var p := DigitsOf(if c == 'x' || c == 'X' then 16 else if c == 'o' || c == 'O' then 8 else 2);
    RunApart(s, o, x, d + 2, p);
    SliceApart(s, o, x, d + 2, Prefixed(x, d, neg).next);
  }

  lemma FractionApart(s: string, o: nat, x: string, e: nat)
    requires Apart(s, o, x) && e < |x| && Fraction(x, 0, e).Got?
    ensures Moved(Fraction(s, o, o + e), Fraction(x, 0, e), o)
  {
    hide Apart, Exponent;
    ApartEnd(s, o, x);
    var f := Run(x, e + 1, Digit);
    RunApart(s, o, x, e + 1, Digit);
    hide Run, Digit;
    SliceApart(s, o, x, 0, f);
    if f < |x| {
      ApartAt(s, o, x, f);
      if x[f] == 'e' || x[f] == 'E' { ExponentApart(s, o, x, f); }
    }
  }

  lemma ExponentApart(s: string, o: nat, x: string, f: nat)
    requires Apart(s, o, x) && f < |x| && Exponent(x, 0, f).Got?
    ensures Moved(Exponent(s, o, o + f), Exponent(x, 0, f), o)
  {
    hide Apart;
    ApartEnd(s, o, x);
    if f + 1 < |x| { ApartAt(s, o, x, f + 1); }
    var g := if f + 1 < |x| && (x[f + 1] == '+' || x[f + 1] == '-') then f + 2 else f + 1;
    RunApart(s, o, x, g, Digit);
    hide Run, Digit;
    SliceApart(s, o, x, 0, Run(x, g, Digit));
  }

  /** A text that is one token is that token among others, too. */
  lemma StepApart(s: string, o: nat, x: string, sign: bool)
    requires Apart(s, o, x) && x != "" && StepAt(x, 0, sign).Got?
    ensures o < |s| && Moved(StepAt(s, o, sign), StepAt(x, 0, sign), o) && !Blank(s[o])
  {
    hide CmdAt, VarAt, NumberAt, MarkAt, Moved;
    ApartAt(s, o, x, 0);
    if x[0] == '[' { CmdApart(s, o, x); }
    else if x[0] == '$' { VarApart(s, o, x); }
    else if Digit(x[0]) { NumberApart(s, o, x, 0); }
    else {
      if |x| > 1 { ApartAt(s, o, x, 1); }
      if x[0] == '-' && sign && |x| > 1 && Digit(x[1]) { NumberApart(s, o, x, 1); }
      else { NotBlank(x); MarkApart(s, o, x); }
    }
  }

  lemma NotBlank(x: string)
    requires x != "" && MarkAt(x, 0).Got?
    ensures !Blank(x[0])
  {
  }

  // ── any spacing reads the same ──

  predicate AllBlank(g: string) { forall k | 0 <= k < |g| :: Blank(g[k]) }

  /** The first `n` texts, each after its gap, and the gap that follows. */
  function Joined(texts: seq<string>, gaps: seq<string>, n: nat): string
    requires n <= |texts| && |gaps| == |texts| + 1
  {
    if n == 0 then gaps[0] else Joined(texts, gaps, n - 1) + texts[n - 1] + gaps[n]
  }

  /** Blanks between the texts, and possibly around them. */
  predicate Spaced(texts: seq<string>, gaps: seq<string>) {
    && |gaps| == |texts| + 1
    && (forall k | 0 <= k < |gaps| :: AllBlank(gaps[k]))
    && (forall k | 0 < k < |texts| :: gaps[k] != "")
  }

  /** The text alone is the token. */
  predicate Spells(x: string, t: Token, sign: bool) {
    x != "" && StepAt(x, 0, sign).Got? && StepAt(x, 0, sign).next == |x| && Alike(StepAt(x, 0, sign).t, t)
  }

  /** Each text is its token, given the tokens before it. */
  predicate AllSpell(texts: seq<string>, ts: seq<Token>) {
    |texts| == |ts| && forall k | 0 <= k < |ts| :: Spells(texts[k], ts[k], SignMay(ts[..k]))
  }

  predicate AllAlike(a: seq<Token>, b: seq<Token>) { |a| == |b| && forall k | 0 <= k < |a| :: Alike(a[k], b[k]) }

  lemma {:induction false} JoinedPrefix(texts: seq<string>, gaps: seq<string>, n: nat, m: nat)
    requires n <= m <= |texts| && |gaps| == |texts| + 1
    ensures Joined(texts, gaps, n) <= Joined(texts, gaps, m)
    decreases m - n
  {
    if n < m { JoinedPrefix(texts, gaps, n, m - 1); }
  }

  lemma {:induction false} BlanksSkipped(s: string, i: nat, j: nat, ts: seq<Token>)
    requires i <= j <= |s| && forall k | i <= k < j :: Blank(s[k])
    ensures LexFrom(s, i, ts) == LexFrom(s, j, ts)
    decreases j - i
  {
    if i < j { BlanksSkipped(s, i + 1, j, ts); }
  }

  /** Where text `n` and the gap after it stand. */
  lemma TextStands(texts: seq<string>, gaps: seq<string>, n: nat)
    requires Spaced(texts, gaps) && n < |texts|
    ensures var s := Joined(texts, gaps, |texts|);
            var o, e, next := |Joined(texts, gaps, n)|, |Joined(texts, gaps, n)| + |texts[n]|,
                |Joined(texts, gaps, n + 1)|;
      Apart(s, o, texts[n]) && e <= next <= |s| && forall k | e <= k < next :: Blank(s[k])
  {
    hide Blank;
    var s, a, b := Joined(texts, gaps, |texts|), Joined(texts, gaps, n), Joined(texts, gaps, n + 1);
    JoinedPrefix(texts, gaps, n + 1, |texts|);
    var o, e := |a|, |a| + |texts[n]|;
    assert b == a + texts[n] + gaps[n + 1] && s[..|b|] == b;
    assert s[o..e] == b[o..e] == texts[n];
    forall k | e <= k < |b| ensures Blank(s[k]) {
      assert s[k] == b[k] == gaps[n + 1][k - e];
    }
    if n + 1 == |texts| { assert s == b; }
  }

  lemma SameSign(a: seq<Token>, b: seq<Token>)
    requires AllAlike(a, b)
    ensures SignMay(a) == SignMay(b)
  {
    if |a| > 0 { assert Alike(a[|a| - 1], b[|b| - 1]); }
  }

  lemma {:induction false} LexJoined(texts: seq<string>, gaps: seq<string>, ts: seq<Token>, n: nat, acc: seq<Token>)
    requires Spaced(texts, gaps) && AllSpell(texts, ts) && n <= |ts| && AllAlike(acc, ts[..n])
    ensures var s := Joined(texts, gaps, |texts|);
      && |Joined(texts, gaps, n)| <= |s|
      && var r := LexFrom(s, |Joined(texts, gaps, n)|, acc); r.Lexes? && AllAlike(r.ts, ts)
    decreases |ts| - n
  {
    hide StepAt, SignMay, Joined, AllBlank, Apart, Alike, Blank;
    var s := Joined(texts, gaps, |texts|);
    if n == |ts| {
      assert ts[..n] == ts;
    } else {
      var o, x := |Joined(texts, gaps, n)|, texts[n];
      TextStands(texts, gaps, n);
      assert Spells(x, ts[n], SignMay(ts[..n]));
      SameSign(acc, ts[..n]);
      StepApart(s, o, x, SignMay(acc));
      var q := StepAt(s, o, SignMay(acc));
      AlikeTwice(q.t, StepAt(x, 0, SignMay(acc)).t, ts[n]);
      var acc', next := acc + [q.t], |Joined(texts, gaps, n + 1)|;
      assert ts[..n + 1] == ts[..n] + [ts[n]];
      LexJoined(texts, gaps, ts, n + 1, acc');
      BlanksSkipped(s, o + |x|, next, acc');
    }
  }

  lemma AlikeTwice(a: Token, b: Token, c: Token)
    requires Alike(a, b) && Alike(b, c)
    ensures Alike(a, c)
  {
  }

  /** Texts that are tokens, with blanks between them, are those tokens. */
  lemma AnySpacing(texts: seq<string>, gaps: seq<string>, ts: seq<Token>)
    requires Spaced(texts, gaps) && AllSpell(texts, ts)
    ensures var r := Lex(Joined(texts, gaps, |texts|)); r.Lexes? && AllAlike(r.ts, ts)
  {
    hide StepAt, Spells, Apart;
    var s := Joined(texts, gaps, |texts|);
    JoinedPrefix(texts, gaps, 0, |texts|);
    forall k | 0 <= k < |gaps[0]| ensures Blank(s[k]) { assert s[k] == gaps[0][k]; }
    BlanksSkipped(s, 0, |gaps[0]|, []);
    LexJoined(texts, gaps, ts, 0, []);
  }

  // ── a spelling for every token ──

  predicate IsMark(m: E.Token) { m.Sym? || m.Bang? || m.Tilde? || m.Open? || m.Close? || m.AndAnd? || m.OrOr? }

  function SymText(op: O.BinOp): string {
    match op
    case Add => "+"
    case Sub => "-"
    case Mul => "*"
    case Div => "/"
    case Mod => "%"
    case Pow => "**"
    case Eq => "=="
    case Ne => "!="
    case Lt => "<"
    case Gt => ">"
    case Le => "<="
    case Ge => ">="
    case StrEq => "eq"
    case StrNe => "ne"
    case BitAnd => "&"
    case BitOr => "|"
    case BitXor => "^"
    case Shl => "<<"
    case Shr => ">>"
  }

  function MarkText(m: E.Token): string
    requires IsMark(m)
  {
    match m
    case Sym(op) => SymText(op)
    case Bang => "!"
    case Tilde => "~"
    case Open => "("
    case Close => ")"
    case AndAnd => "&&"
    case OrOr => "||"
  }

  predicate Identifier(name: string) { name != "" && NameStart(name[0]) && forall k | 0 <= k < |name| ::
          NameChar(name[k]) }

  /** Names of array elements need their own text; this one is for the others. */
  predicate Braceable(name: string) { forall k | 0 <= k < |name| :: name[k] != '}' && name[k] != '(' && name[k] != '[' }

  function Text(t: Token): string
    requires t.Mark? ==> IsMark(t.m)
  {
    match t
    case Int(n) => Values.FormatInt(n)
    case Float(text) => text
    case Var(name) => if Identifier(name) then "$" + name else "${" + name + "}"
    case Cmd(script, _) => "[" + script + "]"
    case Mark(m) => MarkText(m)
  }

  /** Has a text of its own where a sign may or may not belong to a number. */
  predicate Writable(t: Token, sign: bool) {
    match t
    case Int(n) => Arith.InI64(n) && (n < 0 ==> sign)
    case Float(text) => Spells(text, t, sign)
    case Var(name) => Identifier(name) || Braceable(name)
    case Cmd(script, _) => Closing(script + "]", 0, 1, '[', ']') == Some(|script| + 1)
    case Mark(m) => IsMark(m)
  }

  lemma {:induction false} DigitsRead(n: nat)
    ensures var ds := Values.Digits(n);
      && ds != "" && (forall k | 0 <= k < |ds| :: Digit(ds[k])) && (|ds| > 1 ==> ds[0] != '0')
      && (n > 0 ==> ds[0] != '0') && ValueOf(ds, 10) == Some(n)
  {
    var ds := Values.Digits(n);
    if n < 10 {
      assert ds[..0] == "";
      assert ValueOf("", 10) == Some(0);
    } else {
      DigitsRead(n / 10);
      assert ds[..|ds| - 1] == Values.Digits(n / 10);
    }
  }

  lemma DecimalAlone(ds: string, neg: bool)
    requires ds != "" && forall k | 0 <= k < |ds| :: Digit(ds[k])
    ensures var x := if neg then "-" + ds else ds; var d := if neg then 1 else 0;
      NumberAt(x, 0, d) == Decimal(ds, neg, |x|)
  {
    hide ValueOf;
    var x, d := if neg then "-" + ds else ds, if neg then 1 else 0;
    assert forall k | d <= k < |x| :: x[k] == ds[k - d];
    RunIs(x, d, Digit, |x|);
    assert x[d..|x|] == ds;
    if d + 1 < |x| { assert Digit(x[d + 1]); }
  }

  lemma IntSpells(n: int, sign: bool)
    requires Writable(Int(n), sign)
    ensures Spells(Values.FormatInt(n), Int(n), sign)
  {
    hide NumberAt, Decimal, Values.Digits, ValueOf;
    var ds := Values.Digits(if n < 0 then -n else n);
    DigitsRead(if n < 0 then -n else n);
    DecimalAlone(ds, n < 0);
    var x := Values.FormatInt(n);
    assert Decimal(ds, n < 0, |x|) == Got(Int(n), |x|) by { DecimalIs(ds, n < 0, |x|); }
  }

  lemma DecimalIs(ds: string, neg: bool, next: nat)
    requires ds != "" && ValueOf(ds, 10).Some?
    ensures var v := Signed(neg, ValueOf(ds, 10).value);
      Decimal(ds, neg, next) == if (|ds| > 1 && ds[0] == '0') || !Arith.InI64(v) then Bad else Got(Int(v), next)
  {
  }

  lemma VarSpells(name: string, sign: bool)
    requires Writable(Var(name), sign)
    ensures Spells(Text(Var(name)), Var(name), sign)
  {
    var x := Text(Var(name));
    if Identifier(name) {
      assert forall k | 1 <= k < |x| :: x[k] == name[k - 1];
      RunIs(x, 1, NameChar, |x|);
      assert x[1..|x|] == name && NameStart(x[1]) && x[1] != '{';
    } else {
      var e := |name| + 2;
      assert forall k | 2 <= k < e :: x[k] == name[k - 2];
      RunIs(x, 2, NotBrace, e);
      assert x[2..e] == name;
    }
  }

  lemma CmdSpells(script: string, off: nat, sign: bool)
    requires Writable(Cmd(script, off), sign)
    ensures Spells(Text(Cmd(script, off)), Cmd(script, off), sign)
  {
    var x, y := "[" + script + "]", script + "]";
    assert x == "[" + y && x[1..] == y;
    ClosingShift(x, 1, 1);
    assert x[1..|x| - 1] == script;
  }

  lemma {:induction false} ClosingShift(x: string, i: nat, depth: nat)
    requires 1 <= i <= |x| && depth > 0
    ensures var a, b := Closing(x, i, depth, '[', ']'), Closing(x[1..], i - 1, depth, '[', ']');
      (a.Some? <==> b.Some?) && (a.Some? ==> a.value == b.value + 1)
    decreases |x| - i
  {
    if i < |x| {
      assert x[1..][i - 1] == x[i];
      if x[i] == '[' { ClosingShift(x, i + 1, depth + 1); }
      else if x[i] == ']' { if depth > 1 { ClosingShift(x, i + 1, depth - 1); } }
      else { ClosingShift(x, i + 1, depth); }
    }
  }

  lemma WordSpells(x: string, op: O.BinOp, sign: bool)
    requires (x == "eq" && op == O.StrEq) || (x == "ne" && op == O.StrNe)
    ensures Spells(x, Mark(E.Sym(op)), sign)
  {
    RunIs(x, 0, Alpha, 2);
    assert x[0..2] == x;
  }

  lemma MarkSpells(m: E.Token, sign: bool)
    requires IsMark(m)
    ensures Spells(MarkText(m), Mark(m), sign)
  {
    hide Run;
    if m == E.Sym(O.StrEq) || m == E.Sym(O.StrNe) { WordSpells(MarkText(m), m.op, sign); }
    else { SignSpells(m, sign); }
  }

  lemma SignSpells(m: E.Token, sign: bool)
    requires IsMark(m) && m != E.Sym(O.StrEq) && m != E.Sym(O.StrNe)
    ensures Spells(MarkText(m), Mark(m), sign)
  {
    hide CmdAt, VarAt, NumberAt, Run;
    var x := MarkText(m);
    assert !Digit(x[0]) && !Alpha(x[0]) && x[0] != '[' && x[0] != '$' && (|x| > 1 ==> x[0] != '-');
    assert MarkAt(x, 0) == Got(Mark(m), |x|);
  }

  lemma TextSpells(t: Token, sign: bool)
    requires Writable(t, sign)
    ensures Spells(Text(t), t, sign)
  {
    hide Spells;
    match t {
      case Int(n) => IntSpells(n, sign);
      case Float(_) =>
      case Var(name) => VarSpells(name, sign);
      case Cmd(script, off) => CmdSpells(script, off, sign);
      case Mark(m) => MarkSpells(m, sign);
    }
  }

  predicate AllWritable(ts: seq<Token>) { forall k | 0 <= k < |ts| :: Writable(ts[k], SignMay(ts[..k])) }

  function Texts(ts: seq<Token>): (xs: seq<string>)
    requires AllWritable(ts)
    ensures |xs| == |ts|
  {
    seq(|ts|, k requires 0 <= k < |ts| => Text(ts[k]))
  }

  /** Written out with any blanks, tokens read back as themselves. */
  lemma TokensReadBack(ts: seq<Token>, gaps: seq<string>)
    requires AllWritable(ts) && Spaced(Texts(ts), gaps)
    ensures var r := Lex(Joined(Texts(ts), gaps, |ts|)); r.Lexes? && AllAlike(r.ts, ts)
  {
    hide Text, Writable, Spells, SignMay;
    forall k | 0 <= k < |ts| ensures Spells(Texts(ts)[k], ts[k], SignMay(ts[..k]))
        { TextSpells(ts[k], SignMay(ts[..k])); }
    AnySpacing(Texts(ts), gaps, ts);
  }

  /** A decimal literal is accepted exactly without a leading zero and in 64
      bits, sign included; otherwise the expression is left to the runtime. */
  lemma DecimalExact(ds: string, neg: bool)
    requires ds != "" && forall k | 0 <= k < |ds| :: Digit(ds[k])
    ensures ValueOf(ds, 10).Some?
    ensures var v := Signed(neg, ValueOf(ds, 10).value);
      Lex(if neg then "-" + ds else ds) == if (|ds| > 1 && ds[0] == '0')
          || !Arith.InI64(v) then Refused else Lexes([Int(v)])
  {
    hide ValueOf, Decimal, NumberAt;
    var x := if neg then "-" + ds else ds;
    DigitsCount(ds);
    DecimalAlone(ds, neg);
    DecimalIs(ds, neg, |x|);
    assert neg ==> x[1] == ds[0];
    assert StepAt(x, 0, SignMay([])) == Decimal(ds, neg, |x|);
    if Decimal(ds, neg, |x|).Got? {
      var t := Decimal(ds, neg, |x|).t;
      assert [] + [t] == [t] && LexFrom(x, |x|, [t]) == Lexes([t]);
    }
  }

  lemma {:induction false} DigitsCount(ds: string)
    requires forall k | 0 <= k < |ds| :: Digit(ds[k])
    ensures ValueOf(ds, 10).Some?
  {
    if ds != "" { DigitsCount(ds[..|ds| - 1]); }
  }
}

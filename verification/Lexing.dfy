/** The tokenizer of expressions: what a text is split into, and where. */
module Lexing {
  import Arith
  import E = Exprs
  import O = Opcodes
  import opened Options
  import Utf8

  /** `off` is the byte where a bracketed script starts; `m` is an operator or a
      parenthesis. */
  datatype Token = Int(n: int) | Float(text: string) | Var(name: string) | Cmd(script: string, off: nat)
      | Mark(m: E.Token)

  datatype Step = Bad | Got(t: Token, next: nat)

  datatype Lexed = Refused | Lexes(ts: seq<Token>)

  // ── characters ──

  predicate Blank(c: char) { c == ' ' || c == '\t' || c == '\n' || c == '\r' || c as int == 12 }

  predicate Digit(c: char) { '0' <= c <= '9' }

  predicate Alpha(c: char) { 'a' <= c <= 'z' || 'A' <= c <= 'Z' }

  predicate HexDigit(c: char) { Digit(c) || 'a' <= c <= 'f' || 'A' <= c <= 'F' }

  predicate Bit(c: char) { c == '0' || c == '1' }

  predicate NameStart(c: char) { Alpha(c) || c == '_' }

  predicate NameChar(c: char) { NameStart(c) || Digit(c) }

  predicate NotBrace(c: char) { c != '}' }

  /** The bytes of a text, and where its characters start in them. */
  function Bytes(s: string): (b: string)
  {
    if s == "" then "" else Bytes(s[..|s| - 1]) + Utf8.EncodeLossy(s[|s| - 1] as int)
  }

  function Width(c: char): nat { |Utf8.EncodeLossy(c as int)| }

  function Offset(s: string, i: nat): nat
    requires i <= |s|
  {
    if i == 0 then 0 else Offset(s, i - 1) + Width(s[i - 1])
  }

  /** The first place from `i` on whose character is not `p`. */
  function Run(s: string, i: nat, p: char -> bool): (r: nat)
    requires i <= |s|
    ensures i <= r <= |s| && (forall k | i <= k < r :: p(s[k])) && (r < |s| ==> !p(s[r]))
    decreases |s| - i
  {
    if i < |s| && p(s[i]) then Run(s, i + 1, p) else i
  }

  /** Just after what closes `depth` open ones. */
  function Closing(s: string, i: nat, depth: nat, open: char, close: char): (r: Option<nat>)
    requires i <= |s| && depth > 0 && open != close
    ensures r.Some? ==> i < r.value <= |s| && s[r.value - 1] == close
    decreases |s| - i
  {
    if i == |s| then None
    else if s[i] == open then Closing(s, i + 1, depth + 1, open, close)
    else if s[i] == close then if depth == 1 then Some(i + 1) else Closing(s, i + 1, depth - 1, open, close)
    else Closing(s, i + 1, depth, open, close)
  }

  // ── numbers ──

  function DigitValue(c: char): nat {
    if Digit(c) then c as int - '0' as int
    else if 'a' <= c <= 'f' then c as int - 'a' as int + 10
    else if 'A' <= c <= 'F' then c as int - 'A' as int + 10
    else 16
  }

  /** A digit string in a base, unless a digit is too big for it. */
  function ValueOf(ds: string, base: nat): Option<nat> {
    if ds == "" then Some(0)
    else
      match ValueOf(ds[..|ds| - 1], base)
      case None => None
      case Some(v) =>
        var d := DigitValue(ds[|ds| - 1]);
        if d < base then Some(v * base + d) else None
  }

  function Signed(neg: bool, v: int): int { if neg then -v else v }

  /** The octal digits are checked afterwards. */
  function DigitsOf(base: nat): char -> bool { if base == 16 then HexDigit else if base == 8 then Digit else Bit }

  /** A `0x`, `0o` or `0b` number whose zero is at `d`: its size is checked
      before its sign. */
  function Prefixed(s: string, d: nat, neg: bool): (r: Step)
    requires d + 1 < |s|
    ensures r.Got? ==> d < r.next <= |s|
  {
    var c := s[d + 1];
    var base := if c == 'x' || c == 'X' then 16 else if c == 'o' || c == 'O' then 8 else 2;
    var e := Run(s, d + 2, DigitsOf(base));
    Sized(s[d + 2..e], base, neg, e)
  }

  function Sized(ds: string, base: nat, neg: bool, next: nat): (r: Step)
    ensures r.Got? ==> r.next == next
  {
    var v := ValueOf(ds, base);
    if ds != "" && v.Some? && v.value <= Arith.MAX64 then Got(Int(Signed(neg, v.value)), next) else Bad
  }

  predicate IsPrefix(c: char) { c in "xXoObB" }

  /** From the point on: a fraction, and an exponent that needs digits. */
  function Fraction(s: string, i: nat, e: nat): (r: Step)
    requires i <= e < |s|
    ensures r.Got? ==> e < r.next <= |s|
  {
    var f := Run(s, e + 1, Digit);
    if f < |s| && (s[f] == 'e' || s[f] == 'E') then Exponent(s, i, f) else Got(Float(s[i..f]), f)
  }

  function Exponent(s: string, i: nat, f: nat): (r: Step)
    requires i <= f < |s|
    ensures r.Got? ==> f < r.next <= |s|
  {
    var g := if f + 1 < |s| && (s[f + 1] == '+' || s[f + 1] == '-') then f + 2 else f + 1;
    var h := Run(s, g, Digit);
    if g < h then Got(Float(s[i..h]), h) else Bad
  }

  /** A number from `i` on whose first digit is at `d`.  A leading zero is left
      to the runtime. */
  function NumberAt(s: string, i: nat, d: nat): (r: Step)
    requires i <= d < |s| && Digit(s[d])
    ensures r.Got? ==> d < r.next <= |s|
  {
    if s[d] == '0' && d + 1 < |s| && IsPrefix(s[d + 1]) then Prefixed(s, d, i < d)
    else
      var e := Run(s, d, Digit);
      if e < |s| && s[e] == '.' then Fraction(s, i, e) else Decimal(s[d..e], i < d, e)
  }

  function Decimal(ds: string, neg: bool, next: nat): (r: Step)
    ensures r.Got? ==> r.next == next
  {
    var v := ValueOf(ds, 10);
    if ds == "" || (|ds| > 1 && ds[0] == '0') || v.None? || !Arith.InI64(Signed(neg, v.value)) then Bad
    else Got(Int(Signed(neg, v.value)), next)
  }

  // ── names, brackets, operators ──

  function VarAt(s: string, i: nat): (r: Step)
    requires i < |s|
    ensures r.Got? ==> i < r.next <= |s|
  {
    if i + 1 == |s| then Bad
    else if s[i + 1] == '{' then
      var e := Run(s, i + 2, NotBrace);
      if e == |s| || '(' in s[i + 2..e] || '[' in s[i + 2..e] then Bad else Got(Var(s[i + 2..e]), e + 1)
    else if NameStart(s[i + 1]) then
      var e := Run(s, i + 1, NameChar);
      if e < |s| && s[e] == '(' then
        match Closing(s, e + 1, 1, '(', ')')
        case None => Bad
        case Some(f) => Got(Var(s[i + 1..f]), f)
      else Got(Var(s[i + 1..e]), e)
    else Bad
  }

  function CmdAt(s: string, i: nat): (r: Step)
    requires i < |s|
    ensures r.Got? ==> i + 1 < r.next <= |s|
  {
    match Closing(s, i + 1, 1, '[', ']')
    case None => Bad
    case Some(e) => Got(Cmd(s[i + 1..e - 1], Offset(s, i + 1)), e)
  }

  function TwoMark(a: char, b: char): Option<E.Token> {
    if a == '*' && b == '*' then Some(E.Sym(O.Pow))
    else if a == '=' && b == '=' then Some(E.Sym(O.Eq))
    else if a == '!' && b == '=' then Some(E.Sym(O.Ne))
    else if a == '<' && b == '=' then Some(E.Sym(O.Le))
    else if a == '>' && b == '=' then Some(E.Sym(O.Ge))
    else if a == '&' && b == '&' then Some(E.AndAnd)
    else if a == '|' && b == '|' then Some(E.OrOr)
    else if a == '<' && b == '<' then Some(E.Sym(O.Shl))
    else if a == '>' && b == '>' then Some(E.Sym(O.Shr))
    else None
  }

  function OneMark(c: char): Option<E.Token> {
    match c
    case '+' => Some(E.Sym(O.Add))
    case '-' => Some(E.Sym(O.Sub))
    case '*' => Some(E.Sym(O.Mul))
    case '/' => Some(E.Sym(O.Div))
    case '%' => Some(E.Sym(O.Mod))
    case '<' => Some(E.Sym(O.Lt))
    case '>' => Some(E.Sym(O.Gt))
    case '!' => Some(E.Bang)
    case '&' => Some(E.Sym(O.BitAnd))
    case '|' => Some(E.Sym(O.BitOr))
    case '^' => Some(E.Sym(O.BitXor))
    case '~' => Some(E.Tilde)
    case '(' => Some(E.Open)
    case ')' => Some(E.Close)
    case _ => None
  }

  /** Two characters before one, and words in between. */
  function MarkAt(s: string, i: nat): (r: Step)
    requires i < |s|
    ensures r.Got? ==> i < r.next <= |s|
  {
    if i + 1 < |s| && TwoMark(s[i], s[i + 1]).Some? then Got(Mark(TwoMark(s[i], s[i + 1]).value), i + 2)
    else if Alpha(s[i]) then
      var e := Run(s, i, Alpha);
      if s[i..e] == "eq" then Got(Mark(E.Sym(O.StrEq)), e)
      else if s[i..e] == "ne" then Got(Mark(E.Sym(O.StrNe)), e)
      else Bad
    else
      match OneMark(s[i])
      case Some(m) => Got(Mark(m), i + 1)
      case None => Bad
  }

  /** A minus sign after this belongs to the number that follows it. */
  predicate SignMay(ts: seq<Token>) {
    |ts| == 0 || (ts[|ts| - 1].Mark? && ts[|ts| - 1].m != E.Close && ts[|ts| - 1].m != E.Sym(O.Pow))
  }

  /** The token at `i`. */
  function StepAt(s: string, i: nat, sign: bool): (r: Step)
    requires i < |s|
    ensures r.Got? ==> i < r.next <= |s|
  {
    if s[i] == '[' then CmdAt(s, i)
    else if s[i] == '$' then VarAt(s, i)
    else if Digit(s[i]) then NumberAt(s, i, i)
    else if s[i] == '-' && sign && i + 1 < |s| && Digit(s[i + 1]) then NumberAt(s, i, i + 1)
    else MarkAt(s, i)
  }

  /** The tokens from `i` on, after those already found. */
  function LexFrom(s: string, i: nat, ts: seq<Token>): (r: Lexed)
    requires i <= |s|
    decreases |s| - i
  {
    if i == |s| then Lexes(ts)
    else if Blank(s[i]) then LexFrom(s, i + 1, ts)
    else
      match StepAt(s, i, SignMay(ts))
      case Bad => Refused
      case Got(t, e) => LexFrom(s, e, ts + [t])
  }

  function Lex(s: string): Lexed { LexFrom(s, 0, []) }

  // ── the loops ──

  /** The byte offset of every character, and of the end. */
  method Offsets(s: string) returns (boff: seq<nat>)
    ensures |boff| == |s| + 1 && forall k | 0 <= k <= |s| :: boff[k] == Offset(s, k)
  {
    hide Width;
    boff := [];
    var b: nat, i := 0, 0;
    while i < |s|
      invariant i <= |s| && |boff| == i && b == Offset(s, i)
      invariant forall k | 0 <= k < i :: boff[k] == Offset(s, k)
    {
      boff := boff + [b];
      b := b + Width(s[i]);
      i := i + 1;
    }
    boff := boff + [b];
  }

  method Skip(s: string, start: nat, p: char -> bool) returns (i: nat)
    requires start <= |s|
    ensures i == Run(s, start, p)
  {
    i := start;
    while i < |s| && p(s[i])
      invariant start <= i <= |s| && Run(s, i, p) == Run(s, start, p)
    {
      i := i + 1;
    }
  }

  method Bracket(s: string, i: nat, boff: seq<nat>) returns (r: Step)
    requires i < |s| && |boff| == |s| + 1 && forall k | 0 <= k <= |s| :: boff[k] == Offset(s, k)
    ensures r == CmdAt(s, i)
  {
    var script, depth, k := "", 1, i + 1;
    while k < |s| && depth > 0
      invariant i + 1 <= k <= |s| && (depth == 0 ==> i + 1 < k)
      invariant depth > 0 ==> Closing(s, i + 1, 1, '[', ']') == Closing(s, k, depth, '[', ']') && script == s[i + 1..k]
      invariant depth == 0 ==> Closing(s, i + 1, 1, '[', ']') == Some(k) && script == s[i + 1..k - 1]
    {
      var c := s[k];
      assert s[i + 1..k + 1] == s[i + 1..k] + [c];
      k := k + 1;
      if c == '[' {
        depth := depth + 1;
        script := script + [c];
      } else if c == ']' {
        depth := depth - 1;
        if depth > 0 { script := script + [c]; }
      } else {
        script := script + [c];
      }
    }
    if depth > 0 { return Bad; }
    r := Got(Cmd(script, boff[i + 1]), k);
  }

  method Subscript(s: string, open: nat) returns (end: Option<nat>)
    requires open < |s| && s[open] == '('
    ensures end == Closing(s, open + 1, 1, '(', ')')
  {
    var depth: nat, i := 0, open;
    while i < |s|
      invariant open <= i <= |s| && (i == open <==> depth == 0)
      invariant depth > 0 ==> Closing(s, open + 1, 1, '(', ')') == Closing(s, i, depth, '(', ')')
    {
      if s[i] == '(' {
        depth := depth + 1;
      } else if s[i] == ')' {
        depth := depth - 1;
        if depth == 0 { return Some(i + 1); }
      }
      i := i + 1;
    }
    end := None;
  }

  method Variable(s: string, start: nat) returns (r: Step)
    requires start < |s|
    ensures r == VarAt(s, start)
  {
    var i := start + 1;
    if i >= |s| { return Bad; }
    if s[i] == '{' {
      i := Skip(s, i + 1, NotBrace);
      if i >= |s| { return Bad; }
      var name := s[start + 2..i];
      if '(' in name || '[' in name { return Bad; }
      return Got(Var(name), i + 1);
    }
    if !NameStart(s[i]) { return Bad; }
    i := Skip(s, i, NameChar);
    if i < |s| && s[i] == '(' {
      var end := Subscript(s, i);
      if end.None? { return Bad; }
      i := end.value;
    }
    r := Got(Var(s[start + 1..i]), i);
  }

  method Number(s: string, start: nat) returns (r: Step)
    requires start < |s| && (Digit(s[start]) || (s[start] == '-' && start + 1 < |s| && Digit(s[start + 1])))
    ensures r == NumberAt(s, start, if s[start] == '-' then start + 1 else start)
  {
    hide Prefixed, Fraction, Decimal;
    var i, neg := start, s[start] == '-';
    if neg { i := i + 1; }
    if s[i] == '0' && i + 1 < |s| && IsPrefix(s[i + 1]) {
      r := Based(s, i, neg);
      return;
    }
    var from := i;
    i := Skip(s, i, Digit);
    if i < |s| && s[i] == '.' {
      r := Real(s, start, i);
    } else {
      r := Decimal(s[from..i], neg, i);
    }
  }

  method Based(s: string, zero: nat, neg: bool) returns (r: Step)
    requires zero + 1 < |s| && IsPrefix(s[zero + 1])
    ensures r == Prefixed(s, zero, neg)
  {
    hide Sized, DigitsOf;
    var c, i := s[zero + 1], zero + 2;
    if c == 'x' || c == 'X' {
      i := Skip(s, i, DigitsOf(16));
      r := Sized(s[zero + 2..i], 16, neg, i);
    } else if c == 'o' || c == 'O' {
      i := Skip(s, i, DigitsOf(8));
      r := Sized(s[zero + 2..i], 8, neg, i);
    } else {
      i := Skip(s, i, DigitsOf(2));
      r := Sized(s[zero + 2..i], 2, neg, i);
    }
  }

  method Real(s: string, start: nat, point: nat) returns (r: Step)
    requires start <= point < |s|
    ensures r == Fraction(s, start, point)
  {
    hide Digit;
    var i := Skip(s, point + 1, Digit);
    if i < |s| && (s[i] == 'e' || s[i] == 'E') {
      i := i + 1;
      if i < |s| && (s[i] == '+' || s[i] == '-') { i := i + 1; }
      var digits := i;
      i := Skip(s, i, Digit);
      if i == digits { return Bad; }
    }
    r := Got(Float(s[start..i]), i);
  }

  /** The whole text, token by token. */
  method Tokenize(s: string) returns (r: Lexed)
    ensures r == Lex(s)
  {
    hide CmdAt, VarAt, NumberAt, MarkAt, SignMay;
    var boff := Offsets(s);
    var ts, i := [], 0;
    while i < |s|
      invariant i <= |s| && LexFrom(s, i, ts) == Lex(s)
    {
      if Blank(s[i]) {
        i := i + 1;
        continue;
      }
      var step;
      if s[i] == '[' { step := Bracket(s, i, boff); }
      else if s[i] == '$' { step := Variable(s, i); }
      else if Digit(s[i]) || (s[i] == '-' && i + 1 < |s| && Digit(s[i + 1]) && SignMay(ts)) { step := Number(s, i); }
      else { step := MarkAt(s, i); }
      if step.Bad? { return Refused; }
      assert step == StepAt(s, i, SignMay(ts));
      ts, i := ts + [step.t], step.next;
    }
    r := Lexes(ts);
  }
}

/** What the parser's types promise of every literal and foreach, and what the
    compiler keeps of it: every compiled foreach finds its own shape in the
    table, whatever abandoned expressions have left there. */
module Typing {
  import opened Options
  import opened Opcodes
  import opened Machine
  import opened Exprs
  import opened Sources
  import opened Resolution
  import opened Fitting
  import Syntax

  // ── premises on the source ──

  predicate CommandsTyped(cs: seq<Command>)
    decreases cs
  {
    cs != [] ==> ShapeTyped(cs[0].shape) && CommandsTyped(cs[1..])
  }

  predicate BodyTyped(b: Body)
    decreases b
  {
    b.script.Parsed? ==> CommandsTyped(b.script.cmds)
  }

  predicate WordTyped(w: SrcWord)
    decreases w
  {
    match w
    case Literal(lit) => LitFits(lit)
    case VarRef(_) => true
    case ExprSugar(lit) => LitFits(lit)
    case CommandSub(lit, sub) => LitFits(lit) && BodyTyped(sub)
    case Concat(parts) => WordsTyped(parts)
  }

  predicate WordsTyped(ws: seq<SrcWord>)
    decreases ws
  {
    ws != [] ==> WordTyped(ws[0]) && WordsTyped(ws[1..])
  }

  predicate LexTyped(l: Lex)
    decreases l
  {
    match l
    case Tok(t) => t.Num? ==> LitFits(t.lit)
    case Brackets(_, _, script) => script.Parsed? ==> CommandsTyped(script.cmds)
  }

  predicate CondTyped(k: Cond)
    decreases k
  {
    match k
    case Dynamic(w) => WordTyped(w)
    case Written(_, _, lit, lexed) =>
      LitFits(lit) && (lexed.Lexes? ==> forall i | 0 <= i < |lexed.ls| :: LexTyped(lexed.ls[i]))
  }

  predicate BranchTyped(a: Branch)
    decreases a
  {
    CondTyped(a.cond) && BodyTyped(a.body)
  }

  /** Literals are 64-bit words, and a foreach has one list per group. */
  predicate ShapeTyped(f: Shape)
    decreases f
  {
    match f
    case SetTo(_, w) => WordTyped(w)
    case LappendTo(_, w) => WordTyped(w)
    case ExprOf(k) => CondTyped(k)
    case IfOf(first, more, els, words) =>
      && BranchTyped(first) && (forall k | 0 <= k < |more| :: BranchTyped(more[k]))
      && (els.Some? ==> BodyTyped(els.value)) && WordsTyped(words)
    case WhileOf(k, body, words) => CondTyped(k) && BodyTyped(body) && WordsTyped(words)
    case ForOf(start, k, nxt, body, words) =>
      BodyTyped(start) && CondTyped(k) && BodyTyped(body) && BodyTyped(nxt) && WordsTyped(words)
    case ForeachOf(info, data, body, words) =>
      info.groups == |data| && WordsTyped(data) && BodyTyped(body) && WordsTyped(words)
    case ReturnOf(w) => WordTyped(w)
    case CallOf(_, _, words) => WordsTyped(words)
    case _ => true
  }

  // ── the table of shapes only grows ──

  lemma {:induction false} CommandsGrow(cs: seq<Command>, src: string, at: Place, t: Tables)
    ensures t.infos <= Commands(cs, src, at, t).1.infos
    decreases cs
  {
    hide FormOf;
    if cs != [] {
      ShapeGrows(cs[0].shape, cs[0].srcs, src, at, Recorded(t, cs[0], at));
      CommandsGrow(cs[1..], src, at, One(cs[0], src, at, t).1);
    }
  }

  lemma {:induction false} BodyGrows(b: Body, srcs: seq<Span>, src: string, at: Place, t: Tables)
    ensures t.infos <= InBody(b, srcs, src, at, t).1.infos
    decreases b
  {
    hide Commands;
    if b.value != "" && b.script.Parsed? { CommandsGrow(b.script.cmds, src, BodyPlace(src, at, srcs, b.word), t); }
  }

  lemma {:induction false} WordGrows(w: SrcWord, srcs: seq<Span>, src: string, at: Place, t: Tables)
    ensures t.infos <= Spanned(w, srcs, src, at, t).1.infos
    decreases w
  {
    hide Commands;
    if InlinesSub(w, srcs, src, at) { CommandsGrow(w.sub.script.cmds, src, BracketPlace(at, srcs, w.sub.word), t); }
  }

  lemma {:induction false} WordsGrow(ws: seq<SrcWord>, srcs: seq<Span>, src: string, at: Place, t: Tables)
    ensures t.infos <= SpannedAll(ws, srcs, src, at, t).1.infos
    decreases ws
  {
    hide Spanned;
    if ws != [] {
      WordGrows(ws[0], srcs, src, at, t);
      WordsGrow(ws[1..], srcs, src, at, Spanned(ws[0], srcs, src, at, t).1);
    }
  }

  lemma {:induction false} LexGrows(l: Lex, braced: bool, src: string, at: Place, t: Tables)
    ensures t.infos <= OfLex(l, braced, src, at, t).1.infos
    decreases l
  {
    hide Commands;
    if braced && l.Brackets? && l.script.Parsed?
        { CommandsGrow(l.script.cmds, src, Place(at.base + l.off, at.line, at.from), t); }
  }

  lemma {:induction false} ScannedGrows(ls: seq<Lex>, braced: bool, n: nat, src: string, at: Place, t: Tables)
    requires n <= |ls|
    ensures t.infos <= Scanned(ls, braced, n, src, at, t).1.infos
    decreases ls, n
  {
    hide OfLex;
    if n > 0 {
      ScannedGrows(ls, braced, n - 1, src, at, t);
      LexGrows(ls[n - 1], braced, src, at, Scanned(ls, braced, n - 1, src, at, t).1);
    }
  }

  lemma {:induction false} CondGrows(k: Cond, srcs: seq<Span>, src: string, at: Place, t: Tables)
    ensures t.infos <= CondOf(k, srcs, src, at, t).1.infos
    decreases k
  {
    hide Scanned, Parse, Eligible, TokensOf, Compilable, Verbatim, Spanned, ExprOfTree;
    match k {
      case Dynamic(w) => WordGrows(w, srcs, src, at, t);
      case Written(word, text, lit, lexed) =>
        var braced := Verbatim(src, at, srcs, word, '{', '}', text);
        if lexed.Lexes? && Eligible(TokensOf(lexed.ls)) {
          var p := Parse(TokensOf(lexed.ls), Compilable(lexed.ls, braced), 0, 0);
          ScannedGrows(lexed.ls, braced, p.next, src, BracketPlace(at, srcs, word), t);
        }
    }
  }

  lemma {:induction false} ArmsGrow(f: Shape, i: nat, srcs: seq<Span>, src: string, at: Place, t: Tables)
    requires f.IfOf? && i <= |f.more|
    ensures t.infos <= ArmsFrom(f, i, srcs, src, at, t).1.infos
    decreases f, |f.more| - i
  {
    hide CondOf, InBody;
    if i < |f.more| {
      var a := f.more[i];
      var t1 := CondOf(a.cond, srcs, src, at, t).1;
      CondGrows(a.cond, srcs, src, at, t);
      BodyGrows(a.body, srcs, src, at, t1);
      ArmsGrow(f, i + 1, srcs, src, at, InBody(a.body, srcs, src, at, t1).1);
    } else if f.els.Some? {
      BodyGrows(f.els.value, srcs, src, at, t);
    }
  }

  lemma {:induction false} ShapeGrows(f: Shape, srcs: seq<Span>, src: string, at: Place, t: Tables)
    ensures t.infos <= FormOf(f, srcs, src, at, t).1.infos
    decreases f
  {
    hide CondOf, InBody, Spanned, SpannedAll, ArmsFrom, PlainWord, Verbatim;
    match f {
      case SetTo(_, w) => WordGrows(w, srcs, src, at, t);
      case LappendTo(_, w) => WordGrows(w, srcs, src, at, t);
      case ExprOf(k) => CondGrows(k, srcs, src, at, t);
      case IfOf(first, more, _, words) =>
        WordsGrow(words, srcs, src, at, t);
        CondGrows(first.cond, srcs, src, at, t);
        var t1 := CondOf(first.cond, srcs, src, at, t).1;
        BodyGrows(first.body, srcs, src, at, t1);
        ArmsGrow(f, 0, srcs, src, at, InBody(first.body, srcs, src, at, t1).1);
      case WhileOf(k, body, words) =>
        WordsGrow(words, srcs, src, at, t);
        CondGrows(k, srcs, src, at, t);
        BodyGrows(body, srcs, src, at, CondOf(k, srcs, src, at, t).1);
      case ForOf(start, k, next, body, words) =>
        WordsGrow(words, srcs, src, at, t);
        BodyGrows(start, srcs, src, at, t);
        var t1 := InBody(start, srcs, src, at, t).1;
        CondGrows(k, srcs, src, at, t1);
        var t2 := CondOf(k, srcs, src, at, t1).1;
        BodyGrows(body, srcs, src, at, t2);
        BodyGrows(next, srcs, src, at, InBody(body, srcs, src, at, t2).1);
      case ForeachOf(info, data, body, words) =>
        WordsGrow(words, srcs, src, at, t);
        var t0 := t.(infos := t.infos + [info]);
        WordsGrow(data, srcs, src, at, t0);
        BodyGrows(body, srcs, src, at, SpannedAll(data, srcs, src, at, t0).1);
      case CallOf(_, _, words) => WordsGrow(words, srcs, src, at, t);
      case _ =>
    }
  }

  // ── what is compiled has its shapes ──

  lemma {:induction false} CommandsShaped(cs: seq<Command>, src: string, at: Place, t: Tables, infos: seq<ForeachInfo>)
    requires CommandsTyped(cs) && Commands(cs, src, at, t).1.infos <= infos
    ensures ShapedScript(infos, Commands(cs, src, at, t).0)
    decreases cs
  {
    hide FormOf, ShapedForm, ShapeTyped;
    if cs != [] {
      var t1 := One(cs[0], src, at, t).1;
      CommandsGrow(cs[1..], src, at, t1);
      ShapeShaped(cs[0].shape, cs[0].srcs, src, at, Recorded(t, cs[0], at), infos);
      CommandsShaped(cs[1..], src, at, t1, infos);
    }
  }

  lemma {:induction false} BodyShaped(b: Body, srcs: seq<Span>, src: string, at: Place, t: Tables,
          infos: seq<ForeachInfo>)
    requires BodyTyped(b) && InBody(b, srcs, src, at, t).1.infos <= infos
    ensures ShapedScript(infos, InBody(b, srcs, src, at, t).0)
    decreases b
  {
    hide Commands, ShapedForm;
    if b.value != "" && b.script.Parsed? { CommandsShaped(b.script.cmds, src, BodyPlace(src, at, srcs, b.word), t,
        infos); }
  }

  lemma {:induction false} PlainShaped(w: SrcWord, infos: seq<ForeachInfo>)
    requires WordTyped(w)
    ensures ShapedWord(infos, PlainWord(w))
    decreases w
  {
    if w.Concat? { PlainsShaped(w.parts, infos); }
  }

  lemma {:induction false} PlainsShaped(ws: seq<SrcWord>, infos: seq<ForeachInfo>)
    requires WordsTyped(ws)
    ensures ShapedWords(infos, PlainWords(ws))
    decreases ws
  {
    if ws != [] {
      PlainShaped(ws[0], infos);
      PlainsShaped(ws[1..], infos);
    }
  }

  lemma {:induction false} WordShaped(w: SrcWord, srcs: seq<Span>, src: string, at: Place, t: Tables,
          infos: seq<ForeachInfo>)
    requires WordTyped(w) && Spanned(w, srcs, src, at, t).1.infos <= infos
    ensures ShapedWord(infos, Spanned(w, srcs, src, at, t).0)
    decreases w
  {
    hide Commands, ShapedScript, PlainWord;
    if InlinesSub(w, srcs, src, at) {
      CommandsShaped(w.sub.script.cmds, src, BracketPlace(at, srcs, w.sub.word), t, infos);
    } else {
      PlainShaped(w, infos);
    }
  }

  lemma {:induction false} WordsShaped(ws: seq<SrcWord>, srcs: seq<Span>, src: string, at: Place, t: Tables,
          infos: seq<ForeachInfo>)
    requires WordsTyped(ws) && SpannedAll(ws, srcs, src, at, t).1.infos <= infos
    ensures ShapedWords(infos, SpannedAll(ws, srcs, src, at, t).0)
    ensures Syntax.Count(SpannedAll(ws, srcs, src, at, t).0) == |ws|
    decreases ws
  {
    hide Spanned, ShapedWord, WordTyped;
    if ws != [] {
      var t1 := Spanned(ws[0], srcs, src, at, t).1;
      WordsGrow(ws[1..], srcs, src, at, t1);
      WordShaped(ws[0], srcs, src, at, t, infos);
      WordsShaped(ws[1..], srcs, src, at, t1, infos);
    }
  }

  predicate ScriptsShaped(infos: seq<ForeachInfo>, ss: seq<Syntax.Script>) {
    forall k | 0 <= k < |ss| :: ShapedScript(infos, ss[k])
  }

  lemma {:induction false} LexShaped(l: Lex, braced: bool, src: string, at: Place, t: Tables, infos: seq<ForeachInfo>)
    requires LexTyped(l) && OfLex(l, braced, src, at, t).1.infos <= infos
    ensures ShapedScript(infos, OfLex(l, braced, src, at, t).0)
    decreases l
  {
    hide Commands, ShapedForm;
    if braced && l.Brackets? && l.script.Parsed? {
      CommandsShaped(l.script.cmds, src, Place(at.base + l.off, at.line, at.from), t, infos);
    }
  }

  lemma {:induction false} ScannedShaped(ls: seq<Lex>, braced: bool, n: nat, src: string, at: Place, t: Tables,
          infos: seq<ForeachInfo>)
    requires n <= |ls| && (forall i | 0 <= i < |ls| :: LexTyped(ls[i]))
    requires Scanned(ls, braced, n, src, at, t).1.infos <= infos
    ensures ScriptsShaped(infos, Scanned(ls, braced, n, src, at, t).0)
    decreases ls, n
  {
    hide OfLex, ShapedScript, LexTyped;
    if n > 0 {
      var t1 := Scanned(ls, braced, n - 1, src, at, t).1;
      LexGrows(ls[n - 1], braced, src, at, t1);
      ScannedShaped(ls, braced, n - 1, src, at, t, infos);
      LexShaped(ls[n - 1], braced, src, at, t1, infos);
    }
  }

  /** The literals of a tree are among its tokens. */
  lemma {:induction false} TreeShaped(x: Tree, ss: seq<Syntax.Script>, infos: seq<ForeachInfo>)
    requires ScriptsShaped(infos, ss)
    requires forall tok | tok in Tokens(x) && tok.Num? :: LitFits(tok.lit)
    ensures ShapedExpr(infos, ExprOfTree(x, ss))
  {
    match x {
      case Leaf(lit) => assert Token.Num(lit) in Tokens(x);
      case Group(y) => TreeShaped(y, ss, infos);
      case Binary(_, l, r) =>
        TreeShaped(l, ss, infos);
        TreeShaped(r, ss, infos);
      case Unary(_, y) => TreeShaped(y, ss, infos);
      case _ =>
    }
  }

  lemma InlineShaped(ls: seq<Lex>, braced: bool, x: Tree, ss: seq<Syntax.Script>, infos: seq<ForeachInfo>)
    requires ScriptsShaped(infos, ss) && forall i | 0 <= i < |ls| :: LexTyped(ls[i])
    requires Parse(TokensOf(ls), Compilable(ls, braced), 0, 0) == Good(x, |ls|)
    ensures ShapedExpr(infos, ExprOfTree(x, ss))
  {
    hide ShapedScript, Fits, AllOk, Parse;
    var ts := TokensOf(ls);
    ParseSound(ts, Compilable(ls, braced), 0, 0);
    forall tok | tok in Tokens(x) && tok.Num? ensures LitFits(tok.lit) {
      var i :| 0 <= i < |ts| && ts[i] == tok;
      assert LexTyped(ls[i]);
    }
    TreeShaped(x, ss, infos);
  }

  lemma {:induction false} CondShaped(k: Cond, srcs: seq<Span>, src: string, at: Place, t: Tables,
          infos: seq<ForeachInfo>)
    requires CondTyped(k) && CondOf(k, srcs, src, at, t).1.infos <= infos
    ensures ShapedTest(infos, CondOf(k, srcs, src, at, t).0)
    decreases k
  {
    hide Scanned, Parse, Eligible, TokensOf, Compilable, Verbatim, Spanned, ExprOfTree, LexTyped, ScriptsShaped,
        ShapedExpr, WordTyped;
    match k {
      case Dynamic(w) => WordShaped(w, srcs, src, at, t, infos);
      case Written(word, text, lit, lexed) =>
        var braced := Verbatim(src, at, srcs, word, '{', '}', text);
        if lexed.Lexes? && Eligible(TokensOf(lexed.ls)) {
          var p := Parse(TokensOf(lexed.ls), Compilable(lexed.ls, braced), 0, 0);
          var home := BracketPlace(at, srcs, word);
          ScannedShaped(lexed.ls, braced, p.next, src, home, t, infos);
          if p.Good? && p.next == |lexed.ls| {
            InlineShaped(lexed.ls, braced, p.t, Scanned(lexed.ls, braced, p.next, src, home, t).0, infos);
          }
        }
    }
  }

  lemma {:induction false} ArmsShaped(f: Shape, i: nat, srcs: seq<Span>, src: string, at: Place, t: Tables,
          infos: seq<ForeachInfo>)
    requires f.IfOf? && i <= |f.more| && ShapeTyped(f) && ArmsFrom(f, i, srcs, src, at, t).1.infos <= infos
    ensures ShapedArms(infos, ArmsFrom(f, i, srcs, src, at, t).0)
    decreases f, |f.more| - i
  {
    hide CondOf, InBody, ShapedScript, ShapedTest, BodyTyped, CondTyped;
    if i < |f.more| {
      var a := f.more[i];
      assert BranchTyped(a);
      var t1 := CondOf(a.cond, srcs, src, at, t).1;
      var t2 := InBody(a.body, srcs, src, at, t1).1;
      BodyGrows(a.body, srcs, src, at, t1);
      ArmsGrow(f, i + 1, srcs, src, at, t2);
      CondShaped(a.cond, srcs, src, at, t, infos);
      BodyShaped(a.body, srcs, src, at, t1, infos);
      ArmsShaped(f, i + 1, srcs, src, at, t2, infos);
    } else if f.els.Some? {
      BodyShaped(f.els.value, srcs, src, at, t, infos);
    }
  }

  lemma {:induction false} ShapeShaped(f: Shape, srcs: seq<Span>, src: string, at: Place, t: Tables,
          infos: seq<ForeachInfo>)
    requires ShapeTyped(f) && FormOf(f, srcs, src, at, t).1.infos <= infos
    ensures ShapedForm(infos, FormOf(f, srcs, src, at, t).0)
    decreases f
  {
    hide CondOf, InBody, Spanned, SpannedAll, ArmsFrom, ShapedTest, ShapedScript, ShapedArms, ShapedWord, ShapedWords,
        WordTyped, WordsTyped, CondTyped, BodyTyped;
    match f {
      case SetTo(_, w) => WordShaped(w, srcs, src, at, t, infos);
      case LappendTo(_, w) => WordShaped(w, srcs, src, at, t, infos);
      case ExprOf(k) => CondShaped(k, srcs, src, at, t, infos);
      case IfOf(_, _, _, _) => IfShaped(f, srcs, src, at, t, infos);
      case WhileOf(_, _, _) => WhileShaped(f, srcs, src, at, t, infos);
      case ForOf(_, _, _, _, _) => ForShaped(f, srcs, src, at, t, infos);
      case ForeachOf(_, _, _, _) => ForeachShaped(f, srcs, src, at, t, infos);
      case ReturnOf(w) => PlainShaped(w, infos);
      case CallOf(_, _, words) => WordsShaped(words, srcs, src, at, t, infos);
      case _ =>
    }
  }

  lemma {:induction false} IfShaped(f: Shape, srcs: seq<Span>, src: string, at: Place, t: Tables,
          infos: seq<ForeachInfo>)
    requires f.IfOf? && ShapeTyped(f) && FormOf(f, srcs, src, at, t).1.infos <= infos
    ensures ShapedForm(infos, FormOf(f, srcs, src, at, t).0)
    decreases f, |f.more| + 1
  {
    hide CondOf, InBody, ArmsFrom, ShapedTest, ShapedScript, ShapedArms, CondTyped, BodyTyped, SpannedAll, ShapedWords,
        WordsTyped, Verbatim, ArmsInlinable;
    if !ArmsInlinable(f, srcs, src, at) {
      WordsShaped(f.words, srcs, src, at, t, infos);
      return;
    }
    var a := f.first;
    var t1 := CondOf(a.cond, srcs, src, at, t).1;
    var t2 := InBody(a.body, srcs, src, at, t1).1;
    BodyGrows(a.body, srcs, src, at, t1);
    ArmsGrow(f, 0, srcs, src, at, t2);
    CondShaped(a.cond, srcs, src, at, t, infos);
    BodyShaped(a.body, srcs, src, at, t1, infos);
    ArmsShaped(f, 0, srcs, src, at, t2, infos);
  }

  lemma {:induction false} WhileShaped(f: Shape, srcs: seq<Span>, src: string, at: Place, t: Tables,
          infos: seq<ForeachInfo>)
    requires f.WhileOf? && ShapeTyped(f) && FormOf(f, srcs, src, at, t).1.infos <= infos
    ensures ShapedForm(infos, FormOf(f, srcs, src, at, t).0)
    decreases f, 0
  {
    hide CondOf, InBody, ShapedTest, ShapedScript, CondTyped, BodyTyped, SpannedAll, ShapedWords, WordsTyped, Verbatim,
        ArmsInlinable;
    if !Inlinable(f.body, srcs, src, at) {
      WordsShaped(f.words, srcs, src, at, t, infos);
      return;
    }
    var t1 := CondOf(f.cond, srcs, src, at, t).1;
    BodyGrows(f.body, srcs, src, at, t1);
    CondShaped(f.cond, srcs, src, at, t, infos);
    BodyShaped(f.body, srcs, src, at, t1, infos);
  }

  lemma {:induction false} ForShaped(f: Shape, srcs: seq<Span>, src: string, at: Place, t: Tables,
          infos: seq<ForeachInfo>)
    requires f.ForOf? && ShapeTyped(f) && FormOf(f, srcs, src, at, t).1.infos <= infos
    ensures ShapedForm(infos, FormOf(f, srcs, src, at, t).0)
    decreases f, 0
  {
    hide CondOf, InBody, ShapedTest, ShapedScript, CondTyped, BodyTyped, SpannedAll, ShapedWords, WordsTyped, Verbatim,
        ArmsInlinable;
    if !Inlinable(f.start, srcs, src, at) || !Inlinable(f.next, srcs, src, at) || !Inlinable(f.body, srcs, src, at) {
      WordsShaped(f.words, srcs, src, at, t, infos);
      return;
    }
    var t1 := InBody(f.start, srcs, src, at, t).1;
    var t2 := CondOf(f.cond, srcs, src, at, t1).1;
    var t3 := InBody(f.body, srcs, src, at, t2).1;
    CondGrows(f.cond, srcs, src, at, t1);
    BodyGrows(f.body, srcs, src, at, t2);
    BodyGrows(f.next, srcs, src, at, t3);
    BodyShaped(f.start, srcs, src, at, t, infos);
    CondShaped(f.cond, srcs, src, at, t1, infos);
    BodyShaped(f.body, srcs, src, at, t2, infos);
    BodyShaped(f.next, srcs, src, at, t3, infos);
  }

  lemma {:induction false} ForeachShaped(f: Shape, srcs: seq<Span>, src: string, at: Place, t: Tables,
          infos: seq<ForeachInfo>)
    requires f.ForeachOf? && ShapeTyped(f) && FormOf(f, srcs, src, at, t).1.infos <= infos
    ensures ShapedForm(infos, FormOf(f, srcs, src, at, t).0)
    decreases f, 0
  {
    hide InBody, SpannedAll, ShapedWords, ShapedScript, WordsTyped, BodyTyped, Verbatim, ArmsInlinable;
    if !Inlinable(f.body, srcs, src, at) {
      WordsShaped(f.words, srcs, src, at, t, infos);
      return;
    }
    var t0 := t.(infos := t.infos + [f.info]);
    var t1 := SpannedAll(f.data, srcs, src, at, t0).1;
    WordsGrow(f.data, srcs, src, at, t0);
    BodyGrows(f.body, srcs, src, at, t1);
    assert t0.infos[|t.infos|] == infos[|t.infos|];
    WordsShaped(f.data, srcs, src, at, t0, infos);
    BodyShaped(f.body, srcs, src, at, t1, infos);
  }
}

/** What the compiler makes of parsed source means what the source means. */
module Resolved {
  import opened Options
  import opened Opcodes
  import opened Machine
  import opened Sources
  import opened Resolution
  import opened Evaluate
  import opened Meaning
  import E = Exprs
  import Syntax

  function Counted(t: Tables): Tally { Tally(|t.sites|, |t.infos|) }

  // ── the same words are taken in place ──

  lemma StandsVerbatim(src: string, at: Place, srcs: seq<Span>, k: nat, open: char, close: char, value: string)
    ensures Verbatim(src, at, srcs, k, open, close, value)
        <==> Standing(Setting(src, at.base, srcs), k, [open] + value + [close])
  {
    if k < |srcs| {
      var lo, hi := at.base + srcs[k].start, at.base + srcs[k].end;
      if lo + 2 <= hi <= |src| {
        var s := src[lo..hi];
        assert s == [s[0]] + src[lo + 1..hi - 1] + [s[|s| - 1]];
        assert s[1..|s| - 1] == src[lo + 1..hi - 1];
        assert ([open] + value + [close])[1..|value| + 1] == value;
      }
    }
  }

  lemma BodyTaken(b: Body, srcs: seq<Span>, src: string, at: Place)
    ensures Inlinable(b, srcs, src, at) <==> BodyInPlace(b, Setting(src, at.base, srcs))
  {
    StandsVerbatim(src, at, srcs, b.word, '{', '}', b.value);
  }

  lemma BracketTaken(w: SrcWord, srcs: seq<Span>, src: string, at: Place)
    ensures InlinesSub(w, srcs, src, at) <==> BracketInPlace(w, Setting(src, at.base, srcs))
  {
    if w.CommandSub? { StandsVerbatim(src, at, srcs, w.sub.word, '[', ']', w.sub.value); }
  }

  lemma ArmsTaken(f: Shape, srcs: seq<Span>, src: string, at: Place)
    requires f.IfOf?
    ensures ArmsInlinable(f, srcs, src, at) <==> IfInPlace(f, Setting(src, at.base, srcs))
  {
    hide Inlinable, BodyInPlace;
    BodyTaken(f.first.body, srcs, src, at);
    forall k | 0 <= k < |f.more|
      ensures Inlinable(f.more[k].body, srcs, src, at) <==> BodyInPlace(f.more[k].body, Setting(src, at.base, srcs))
    {
      BodyTaken(f.more[k].body, srcs, src, at);
    }
    if f.els.Some? { BodyTaken(f.els.value, srcs, src, at); }
  }

  lemma WorthIsEligible(ls: seq<Lex>)
    ensures Eligible(TokensOf(ls)) <==> Worthwhile(ls)
  {
    var ts := TokensOf(ls);
    assert forall k | 0 <= k < |ls| :: Numeric(ts[k]) <==> IsNumber(ls[k]);
    assert forall k | 0 <= k < |ls| :: Textual(ts[k]) <==> ComparesText(ls[k]);
  }

  // ── reading asks only which brackets may be run ──

  ghost predicate Agree(a: nat -> bool, b: nat -> bool) { forall k :: a(k) == b(k) }

  lemma {:induction false} ParseAgrees(ts: seq<E.Token>, a: nat -> bool, b: nat -> bool, i: nat, lvl: nat)
    requires i <= |ts| && lvl <= E.PRIMARY && Agree(a, b)
    ensures E.Parse(ts, a, i, lvl) == E.Parse(ts, b, i, lvl)
    decreases |ts| - i, E.PRIMARY - lvl, 1
  {
    hide Agree;
    if lvl == E.PRIMARY { PrimaryAgrees(ts, a, b, i); }
    else if lvl == E.UNARY { UnaryAgrees(ts, a, b, i); }
    else {
      ParseAgrees(ts, a, b, i, lvl + 1);
      var l := E.Parse(ts, a, i, lvl + 1);
      if l.Good? {
        if lvl == E.POWER { PowerAgrees(ts, a, b, l.t, l.next); } else { RestAgrees(ts, a, b, l.t, l.next, lvl); }
      }
    }
  }

  lemma {:induction false} RestAgrees(ts: seq<E.Token>, a: nat -> bool, b: nat -> bool, left: E.Tree, i: nat, lvl: nat)
    requires i <= |ts| && lvl < E.POWER && Agree(a, b)
    ensures E.ParseRest(ts, a, left, i, lvl) == E.ParseRest(ts, b, left, i, lvl)
    decreases |ts| - i, E.PRIMARY - lvl, 0
  {
    hide Agree;
    if i < |ts| && ts[i].Sym? && E.Level(ts[i].op) == lvl {
      ParseAgrees(ts, a, b, i + 1, lvl + 1);
      var r := E.Parse(ts, a, i + 1, lvl + 1);
      if r.Good? { RestAgrees(ts, a, b, E.Binary(ts[i].op, left, r.t), r.next, lvl); }
    }
  }

  lemma {:induction false} PowerAgrees(ts: seq<E.Token>, a: nat -> bool, b: nat -> bool, left: E.Tree, i: nat)
    requires i <= |ts| && Agree(a, b)
    ensures E.ParsePower(ts, a, left, i) == E.ParsePower(ts, b, left, i)
    decreases |ts| - i, E.PRIMARY - E.POWER, 0
  {
    hide Agree;
    if i < |ts| && ts[i] == E.Sym(Pow) { ParseAgrees(ts, a, b, i + 1, E.POWER); }
  }

  lemma {:induction false} UnaryAgrees(ts: seq<E.Token>, a: nat -> bool, b: nat -> bool, i: nat)
    requires i <= |ts| && Agree(a, b)
    ensures E.ParseUnary(ts, a, i) == E.ParseUnary(ts, b, i)
    decreases |ts| - i, 1, 0
  {
    hide Agree;
    if i < |ts| && E.Signed(ts[i]).Some? { ParseAgrees(ts, a, b, i + 1, E.UNARY); }
    else { ParseAgrees(ts, a, b, i, E.PRIMARY); }
  }

  lemma {:induction false} PrimaryAgrees(ts: seq<E.Token>, a: nat -> bool, b: nat -> bool, i: nat)
    requires i <= |ts| && Agree(a, b)
    ensures E.ParsePrimary(ts, a, i) == E.ParsePrimary(ts, b, i)
    decreases |ts| - i, 0, 0
  {
    if i < |ts| && ts[i] == E.Open { ParseAgrees(ts, a, b, i + 1, 0); }
  }

  lemma SameAttempt(ls: seq<Lex>, braced: bool)
    ensures Attempt(ls, braced) == E.Parse(TokensOf(ls), Compilable(ls, braced), 0, 0)
  {
    assert Placed(ls) == TokensOf(ls);
    ParseAgrees(TokensOf(ls), (k: nat) => k < |ls| && Runs(ls[k], braced), Compilable(ls, braced), 0, 0);
  }

  // ── commands and shapes are numbered alike ──

  lemma {:induction false} ScriptCounts(cs: seq<Command>, src: string, at: Place, t: Tables)
    ensures Counted(Commands(cs, src, at, t).1) == AfterScript(cs, src, at.base, Counted(t))
    decreases cs
  {
    hide One, AfterCommand;
    if cs != [] {
      CommandCounts(cs[0], src, at, t);
      ScriptCounts(cs[1..], src, at, One(cs[0], src, at, t).1);
    }
  }

  lemma {:induction false} CommandCounts(c: Command, src: string, at: Place, t: Tables)
    ensures Counted(One(c, src, at, t).1) == AfterCommand(c, src, at.base, Counted(t))
    decreases c
  {
    hide FormOf, AfterShape;
    ShapeCounts(c.shape, c.srcs, src, at, Recorded(t, c, at));
  }

  lemma {:induction false} BodyCounts(b: Body, srcs: seq<Span>, src: string, at: Place, t: Tables)
    ensures Counted(InBody(b, srcs, src, at, t).1) == AfterBody(b, Setting(src, at.base, srcs), Counted(t))
    decreases b
  {
    hide Commands, AfterScript;
    if b.value != "" && b.script.Parsed? { ScriptCounts(b.script.cmds, src, BodyPlace(src, at, srcs, b.word), t); }
  }

  lemma {:induction false} WordCounts(w: SrcWord, srcs: seq<Span>, src: string, at: Place, t: Tables)
    ensures Counted(Spanned(w, srcs, src, at, t).1) == AfterWord(w, Setting(src, at.base, srcs), Counted(t))
    decreases w
  {
    hide Commands, AfterScript, InlinesSub, BracketInPlace;
    BracketTaken(w, srcs, src, at);
    if InlinesSub(w, srcs, src, at) {
      assert w.CommandSub? && w.sub.script.Parsed? by { SubIs(w, srcs, src, at); }
      ScriptCounts(w.sub.script.cmds, src, BracketPlace(at, srcs, w.sub.word), t);
    }
  }

  lemma SubIs(w: SrcWord, srcs: seq<Span>, src: string, at: Place)
    requires InlinesSub(w, srcs, src, at)
    ensures w.CommandSub? && w.sub.script.Parsed?
  {
  }

  lemma {:induction false} WordsCount(ws: seq<SrcWord>, srcs: seq<Span>, src: string, at: Place, t: Tables)
    ensures Counted(SpannedAll(ws, srcs, src, at, t).1) == AfterWords(ws, Setting(src, at.base, srcs), Counted(t))
    decreases ws
  {
    hide Spanned, AfterWord;
    if ws != [] {
      WordCounts(ws[0], srcs, src, at, t);
      WordsCount(ws[1..], srcs, src, at, Spanned(ws[0], srcs, src, at, t).1);
    }
  }

  lemma {:induction false} LexCounts(l: Lex, braced: bool, src: string, at: Place, t: Tables)
    ensures Counted(OfLex(l, braced, src, at, t).1) == AfterLex(l, braced, src, at.base, Counted(t))
    decreases l
  {
    hide Commands, AfterScript;
    if Runs(l, braced) { ScriptCounts(l.script.cmds, src, Place(at.base + l.off, at.line, at.from), t); }
  }

  lemma {:induction false} LexesCount(ls: seq<Lex>, braced: bool, n: nat, src: string, at: Place, t: Tables)
    requires n <= |ls|
    ensures Counted(Scanned(ls, braced, n, src, at, t).1) == AfterLexes(ls, braced, n, src, at.base, Counted(t))
    decreases ls, n
  {
    hide OfLex, AfterLex;
    if n > 0 {
      LexesCount(ls, braced, n - 1, src, at, t);
      LexCounts(ls[n - 1], braced, src, at, Scanned(ls, braced, n - 1, src, at, t).1);
    }
  }

  lemma {:induction false} CondCounts(k: Cond, srcs: seq<Span>, src: string, at: Place, t: Tables)
    ensures Counted(CondOf(k, srcs, src, at, t).1) == AfterCond(k, Setting(src, at.base, srcs), Counted(t))
    decreases k
  {
    hide Spanned, AfterWord, Scanned, AfterLexes, Eligible, Worthwhile, Attempt, Standing, Verbatim;
    match k
    case Dynamic(w) => WordCounts(w, srcs, src, at, t);
    case Written(word, text, lit, lexed) =>
      if lexed.Lexes? {
        var ls := lexed.ls;
        WorthIsEligible(ls);
        StandsVerbatim(src, at, srcs, word, '{', '}', text);
        assert ['{'] + text + ['}'] == "{" + text + "}";
        var braced := Verbatim(src, at, srcs, word, '{', '}', text);
        SameAttempt(ls, braced);
        LexesCount(ls, braced, Attempt(ls, braced).next, src, BracketPlace(at, srcs, word), t);
      }
  }

  /** The tables behind the first branch of an `if`. */
  function FirstArm(f: Shape, srcs: seq<Span>, src: string, at: Place, t: Tables): Tables
    requires f.IfOf?
  {
    InBody(f.first.body, srcs, src, at, CondOf(f.first.cond, srcs, src, at, t).1).1
  }

  lemma {:induction false} FirstCounts(f: Shape, srcs: seq<Span>, src: string, at: Place, t: Tables)
    requires f.IfOf?
    ensures Counted(FirstArm(f, srcs, src, at, t)) == AfterBranches(f, 1, Setting(src, at.base, srcs), Counted(t))
    decreases f, 0
  {
    hide CondOf, AfterCond, InBody, AfterBody;
    CondCounts(f.first.cond, srcs, src, at, t);
    BodyCounts(f.first.body, srcs, src, at, CondOf(f.first.cond, srcs, src, at, t).1);
    assert AfterBranches(f, 0, Setting(src, at.base, srcs), Counted(t)) == Counted(t);
  }

  lemma {:induction false} ArmsCount(f: Shape, i: nat, srcs: seq<Span>, src: string, at: Place, t: Tables, n: Tally)
    requires f.IfOf? && i <= |f.more|
    requires Counted(t) == AfterBranches(f, i + 1, Setting(src, at.base, srcs), n)
    ensures var g := Setting(src, at.base, srcs); var after := AfterBranches(f, |f.more| + 1, g, n);
      Counted(ArmsFrom(f, i, srcs, src, at, t).1) == if f.els.Some? then AfterBody(f.els.value, g, after) else after
    decreases f, |f.more| - i
  {
    hide CondOf, AfterCond, InBody, AfterBody;
    if i < |f.more| {
      var b, t1 := f.more[i], CondOf(f.more[i].cond, srcs, src, at, t).1;
      CondCounts(b.cond, srcs, src, at, t);
      BodyCounts(b.body, srcs, src, at, t1);
      ArmsCount(f, i + 1, srcs, src, at, InBody(b.body, srcs, src, at, t1).1, n);
    } else if f.els.Some? {
      BodyCounts(f.els.value, srcs, src, at, t);
    }
  }

  lemma {:induction false} ShapeCounts(f: Shape, srcs: seq<Span>, src: string, at: Place, t: Tables)
    ensures Counted(FormOf(f, srcs, src, at, t).1) == AfterShape(f, Setting(src, at.base, srcs), Counted(t))
    decreases f, if f.IfOf? then |f.more| + 2 else 2
  {
    hide CondOf, AfterCond, InBody, AfterBody, Spanned, AfterWord, SpannedAll, AfterWords, ArmsFrom, AfterBranches,
        Inlinable, BodyInPlace, ArmsInlinable, IfInPlace;
    match f
    case SetTo(_, w) => WordCounts(w, srcs, src, at, t);
    case LappendTo(_, w) => WordCounts(w, srcs, src, at, t);
    case ExprOf(k) => CondCounts(k, srcs, src, at, t);
    case IfOf(_, _, _, words) =>
      ArmsTaken(f, srcs, src, at);
      if ArmsInlinable(f, srcs, src, at) {
        FirstCounts(f, srcs, src, at, t);
        ArmsCount(f, 0, srcs, src, at, FirstArm(f, srcs, src, at, t), Counted(t));
      } else {
        WordsCount(words, srcs, src, at, t);
      }
    case WhileOf(k, body, words) =>
      BodyTaken(body, srcs, src, at);
      if Inlinable(body, srcs, src, at) {
        CondCounts(k, srcs, src, at, t);
        BodyCounts(body, srcs, src, at, CondOf(k, srcs, src, at, t).1);
      } else {
        WordsCount(words, srcs, src, at, t);
      }
    case ForOf(_, _, _, _, _) => ForCounts(f, srcs, src, at, t);
    case ForeachOf(info, data, body, words) =>
      BodyTaken(body, srcs, src, at);
      if Inlinable(body, srcs, src, at) {
        var t1 := t.(infos := t.infos + [info]);
        WordsCount(data, srcs, src, at, t1);
        BodyCounts(body, srcs, src, at, SpannedAll(data, srcs, src, at, t1).1);
      } else {
        WordsCount(words, srcs, src, at, t);
      }
    case CallOf(_, _, words) => WordsCount(words, srcs, src, at, t);
    case _ =>
  }

  lemma {:induction false} ForCounts(f: Shape, srcs: seq<Span>, src: string, at: Place, t: Tables)
    requires f.ForOf?
    ensures Counted(FormOf(f, srcs, src, at, t).1) == AfterShape(f, Setting(src, at.base, srcs), Counted(t))
    decreases f, 1
  {
    hide CondOf, AfterCond, InBody, AfterBody, SpannedAll, AfterWords, Inlinable, BodyInPlace;
    BodyTaken(f.start, srcs, src, at);
    BodyTaken(f.next, srcs, src, at);
    BodyTaken(f.body, srcs, src, at);
    BodyCounts(f.start, srcs, src, at, t);
    var t1 := InBody(f.start, srcs, src, at, t).1;
    CondCounts(f.cond, srcs, src, at, t1);
    var t2 := CondOf(f.cond, srcs, src, at, t1).1;
    BodyCounts(f.body, srcs, src, at, t2);
    BodyCounts(f.next, srcs, src, at, InBody(f.body, srcs, src, at, t2).1);
    WordsCount(f.words, srcs, src, at, t);
  }

  // ── and do the same ──

  lemma {:induction false} PlainSame(h: Host, x: SrcWord, w: World, fuel: nat)
    ensures WordMeans(h, PlainWord(x), w, fuel) == Some(PlainDoes(h, x, w))
    decreases x
  {
    if x.Concat? { PlainsSame(h, x.parts, w, fuel); }
  }

  lemma {:induction false} PlainsSame(h: Host, xs: seq<SrcWord>, w: World, fuel: nat)
    ensures WordsMean(h, PlainWords(xs), w, fuel) == Some(PlainsDo(h, xs, w))
    decreases xs
  {
    hide PlainWord, PlainDoes, WordMeans;
    if xs != [] {
      PlainSame(h, xs[0], w, fuel);
      PlainsSame(h, xs[1..], PlainDoes(h, xs[0], w).0, fuel);
    }
  }

  lemma {:induction false} ScriptSame(h: Host, cs: seq<Command>, src: string, at: Place, t: Tables, w: World,
          fuel: nat)
    ensures ScriptMeans(h, Commands(cs, src, at, t).0, w, fuel)
        == ScriptDoes(h, cs, src, at.base, Counted(t), w, fuel)
    decreases fuel, cs
  {
    hide One, CmdMeans, CommandDoes, AfterCommand;
    if cs != [] {
      CommandSame(h, cs[0], src, at, t, w, fuel);
      CommandCounts(cs[0], src, at, t);
      var r := CommandDoes(h, cs[0], src, at.base, Counted(t), w, fuel);
      if r.Some? { ScriptSame(h, cs[1..], src, at, One(cs[0], src, at, t).1, r.value.0, fuel); }
    }
  }

  lemma {:induction false} CommandSame(h: Host, c: Command, src: string, at: Place, t: Tables, w: World, fuel: nat)
    ensures CmdMeans(h, One(c, src, at, t).0, w, fuel) == CommandDoes(h, c, src, at.base, Counted(t), w, fuel)
    decreases fuel, c
  {
    hide FormOf, FormMeans, ShapeDoes;
    var b := Ask(h, w, Begin(|t.sites|));
    if b.1.Gives? { ShapeSame(h, c.shape, c.srcs, src, at, Recorded(t, c, at), b.0, fuel); }
  }

  lemma {:induction false} BodySame(h: Host, b: Body, srcs: seq<Span>, src: string, at: Place, t: Tables, w: World,
          fuel: nat)
    ensures ScriptMeans(h, InBody(b, srcs, src, at, t).0, w, fuel)
        == BodyDoes(h, b, Setting(src, at.base, srcs), Counted(t), w, fuel)
    decreases fuel, b
  {
    hide Commands, ScriptDoes, CmdsMean;
    if b.value != "" && b.script.Parsed? {
      ScriptSame(h, b.script.cmds, src, BodyPlace(src, at, srcs, b.word), t, w, fuel);
    }
  }

  lemma {:induction false} WordSame(h: Host, x: SrcWord, srcs: seq<Span>, src: string, at: Place, t: Tables, w: World,
          fuel: nat)
    ensures WordMeans(h, Spanned(x, srcs, src, at, t).0, w, fuel)
        == WordDoes(h, x, Setting(src, at.base, srcs), Counted(t), w, fuel)
    decreases fuel, x
  {
    hide Commands, ScriptMeans, ScriptDoes, PlainWord, PlainDoes, InlinesSub, BracketInPlace;
    BracketTaken(x, srcs, src, at);
    if InlinesSub(x, srcs, src, at) {
      SubIs(x, srcs, src, at);
      ScriptSame(h, x.sub.script.cmds, src, BracketPlace(at, srcs, x.sub.word), t, w, fuel);
    } else {
      PlainSame(h, x, w, fuel);
    }
  }

  lemma {:induction false} WordsSame(h: Host, xs: seq<SrcWord>, srcs: seq<Span>, src: string, at: Place, t: Tables,
          w: World, fuel: nat)
    ensures WordsMean(h, SpannedAll(xs, srcs, src, at, t).0, w, fuel)
        == WordsDo(h, xs, Setting(src, at.base, srcs), Counted(t), w, fuel)
    decreases fuel, xs, 0
  {
    hide Spanned, WordMeans, WordDoes, AfterWord;
    if xs != [] {
      WordSame(h, xs[0], srcs, src, at, t, w, fuel);
      WordCounts(xs[0], srcs, src, at, t);
      var a := WordDoes(h, xs[0], Setting(src, at.base, srcs), Counted(t), w, fuel);
      if a.Some? { WordsSame(h, xs[1..], srcs, src, at, Spanned(xs[0], srcs, src, at, t).1, a.value.0, fuel); }
    }
  }

  lemma {:induction false} LexSame(h: Host, l: Lex, braced: bool, src: string, at: Place, t: Tables, w: World,
          fuel: nat)
    ensures ScriptMeans(h, OfLex(l, braced, src, at, t).0, w, fuel)
        == LexDoes(h, l, braced, src, at.base, Counted(t), w, fuel)
    decreases fuel, l
  {
    hide Commands, CmdsMean, ScriptDoes;
    if Runs(l, braced) { ScriptSame(h, l.script.cmds, src, Place(at.base + l.off, at.line, at.from), t, w, fuel); }
  }

  lemma {:induction false} ScannedAt(ls: seq<Lex>, braced: bool, n: nat, k: nat, src: string, at: Place, t: Tables)
    requires k < n <= |ls|
    ensures Scanned(ls, braced, n, src, at, t).0[k]
        == OfLex(ls[k], braced, src, at, Scanned(ls, braced, k, src, at, t).1).0
    decreases n
  {
    hide OfLex;
    if k < n - 1 { ScannedAt(ls, braced, n - 1, k, src, at, t); }
  }

  lemma {:induction false} TreeSame(h: Host, x: E.Tree, ls: seq<Lex>, braced: bool, src: string, at: Place, t: Tables,
          w: World, fuel: nat)
    ensures ExprMeans(h, ExprOfTree(x, Scanned(ls, braced, |ls|, src, at, t).0), w, fuel)
        == TreeDoes(h, x, ls, braced, src, at.base, Counted(t), w, fuel)
    decreases fuel, ls, x
  {
    hide Scanned, AfterLexes, ScriptMeans, LexDoes, OfLex;
    match x
    case Inner(k) =>
      if k < |ls| {
        ScannedAt(ls, braced, |ls|, k, src, at, t);
        LexesCount(ls, braced, k, src, at, t);
        LexSame(h, ls[k], braced, src, at, Scanned(ls, braced, k, src, at, t).1, w, fuel);
      } else {
        assert ScriptMeans(h, Syntax.Done, w, fuel) == Some((w, Gives(Blank(h)))) by { NothingMeans(h, w, fuel); }
      }
    case Group(y) => TreeSame(h, y, ls, braced, src, at, t, w, fuel);
    case Binary(_, l, r) =>
      TreeSame(h, l, ls, braced, src, at, t, w, fuel);
      var a := TreeDoes(h, l, ls, braced, src, at.base, Counted(t), w, fuel);
      if a.Some? { TreeSame(h, r, ls, braced, src, at, t, a.value.0, fuel); }
    case Unary(_, y) => TreeSame(h, y, ls, braced, src, at, t, w, fuel);
    case _ =>
  }

  lemma NothingMeans(h: Host, w: World, fuel: nat)
    ensures ScriptMeans(h, Syntax.Done, w, fuel) == Some((w, Gives(Blank(h))))
  {
  }

  lemma {:induction false} CondSame(h: Host, k: Cond, srcs: seq<Span>, src: string, at: Place, t: Tables, w: World,
          fuel: nat)
    ensures TestMeans(h, CondOf(k, srcs, src, at, t).0, w, fuel)
        == CondDoes(h, k, Setting(src, at.base, srcs), Counted(t), w, fuel)
    decreases fuel, k
  {
    hide Spanned, WordDoes, Scanned, Eligible, Worthwhile, Attempt, Standing, Verbatim, ExprMeans, TreeDoes;
    match k
    case Dynamic(x) => WordSame(h, x, srcs, src, at, t, w, fuel);
    case Written(word, text, lit, lexed) =>
      if lexed.Lexes? {
        var ls := lexed.ls;
        WorthIsEligible(ls);
        StandsVerbatim(src, at, srcs, word, '{', '}', text);
        assert ['{'] + text + ['}'] == "{" + text + "}";
        var braced := Verbatim(src, at, srcs, word, '{', '}', text);
        SameAttempt(ls, braced);
        if TreeOf(ls, braced).Some? {
          TreeSame(h, TreeOf(ls, braced).value, ls, braced, src, BracketPlace(at, srcs, word), t, w, fuel);
        }
      }
  }

  lemma {:induction false} ArmsSame(h: Host, f: Shape, i: nat, srcs: seq<Span>, src: string, at: Place, t: Tables,
          n: Tally, w: World, fuel: nat)
    requires f.IfOf? && i <= |f.more|
    requires Counted(t) == AfterBranches(f, i + 1, Setting(src, at.base, srcs), n)
    ensures ArmsMean(h, ArmsFrom(f, i, srcs, src, at, t).0, w, fuel)
        == BranchesDo(h, f, i + 1, Setting(src, at.base, srcs), n, w, fuel)
    decreases fuel, f, 1, |f.more| - i
  {
    hide CondOf, AfterCond, InBody, AfterBody, BodyDoes, CondDoes, TestMeans, ScriptMeans;
    if i < |f.more| {
      var b, t1 := f.more[i], CondOf(f.more[i].cond, srcs, src, at, t).1;
      CondSame(h, b.cond, srcs, src, at, t, w, fuel);
      CondCounts(b.cond, srcs, src, at, t);
      BodyCounts(b.body, srcs, src, at, t1);
      var r := CondDoes(h, b.cond, Setting(src, at.base, srcs), Counted(t), w, fuel);
      if r.Some? {
        BodySame(h, b.body, srcs, src, at, t1, r.value.0, fuel);
        ArmsSame(h, f, i + 1, srcs, src, at, InBody(b.body, srcs, src, at, t1).1, n, r.value.0, fuel);
      }
    } else if f.els.Some? {
      BodySame(h, f.els.value, srcs, src, at, t, w, fuel);
    }
  }

  lemma {:induction false} IfSame(h: Host, f: Shape, srcs: seq<Span>, src: string, at: Place, t: Tables, w: World,
          fuel: nat)
    requires f.IfOf? && ArmsInlinable(f, srcs, src, at)
    ensures FormMeans(h, FormOf(f, srcs, src, at, t).0, w, fuel)
        == BranchesDo(h, f, 0, Setting(src, at.base, srcs), Counted(t), w, fuel)
    decreases fuel, f, 2
  {
    hide CondOf, AfterCond, InBody, AfterBody, BodyDoes, CondDoes, TestMeans, ScriptMeans, ArmsFrom, ArmsMean,
        ArmsInlinable;
    var g, n := Setting(src, at.base, srcs), Counted(t);
    var t1 := CondOf(f.first.cond, srcs, src, at, t).1;
    assert AfterBranches(f, 0, g, n) == n;
    CondSame(h, f.first.cond, srcs, src, at, t, w, fuel);
    CondCounts(f.first.cond, srcs, src, at, t);
    var r := CondDoes(h, f.first.cond, g, n, w, fuel);
    if r.Some? {
      BodySame(h, f.first.body, srcs, src, at, t1, r.value.0, fuel);
      FirstCounts(f, srcs, src, at, t);
      ArmsSame(h, f, 0, srcs, src, at, FirstArm(f, srcs, src, at, t), n, r.value.0, fuel);
    }
  }

  lemma {:induction false} WhileSame(h: Host, f: Shape, srcs: seq<Span>, src: string, at: Place, t: Tables, w: World,
          fuel: nat)
    requires f.WhileOf? && Inlinable(f.body, srcs, src, at)
    ensures WhileMeans(h, FormOf(f, srcs, src, at, t).0, w, fuel)
        == WhileDoes(h, f, Setting(src, at.base, srcs), Counted(t), w, fuel)
    decreases fuel, f, 0
  {
    hide CondOf, AfterCond, InBody, BodyDoes, CondDoes, TestMeans, ScriptMeans, Inlinable;
    if fuel > 0 {
      var g, t1 := Setting(src, at.base, srcs), CondOf(f.cond, srcs, src, at, t).1;
      CondSame(h, f.cond, srcs, src, at, t, w, fuel);
      CondCounts(f.cond, srcs, src, at, t);
      var r := CondDoes(h, f.cond, g, Counted(t), w, fuel);
      if r.Some? {
        WhileSame(h, f, srcs, src, at, t, r.value.0, fuel - 1);
        BodySame(h, f.body, srcs, src, at, t1, r.value.0, fuel);
        var q := BodyDoes(h, f.body, g, Counted(t1), r.value.0, fuel);
        if q.Some? { WhileSame(h, f, srcs, src, at, t, q.value.0, fuel - 1); }
      }
    }
  }

  /** The parts of a `for` and the tables before each. */
  predicate ForParts(f: Shape, form: Syntax.Form, srcs: seq<Span>, src: string, at: Place, t: Tables) {
    f.ForOf? && form.For? &&
    var test := CondOf(f.cond, srcs, src, at, t);
    var body := InBody(f.body, srcs, src, at, test.1);
    form.test == test.0 && form.body == body.0 && form.next == InBody(f.next, srcs, src, at, body.1).0
  }

  lemma {:induction false} ForSame(h: Host, f: Shape, form: Syntax.Form, srcs: seq<Span>, src: string, at: Place,
          t: Tables, w: World, fuel: nat)
    requires ForParts(f, form, srcs, src, at, t)
    ensures ForMeans(h, form, w, fuel) == ForDoes(h, f, Setting(src, at.base, srcs), Counted(t), w, fuel)
    decreases fuel, f, 1
  {
    hide CondOf, AfterCond, InBody, BodyDoes, CondDoes, TestMeans, ScriptMeans, NextMeans, NextDoes;
    var g, t1 := Setting(src, at.base, srcs), CondOf(f.cond, srcs, src, at, t).1;
    CondSame(h, f.cond, srcs, src, at, t, w, fuel);
    CondCounts(f.cond, srcs, src, at, t);
    var r := CondDoes(h, f.cond, g, Counted(t), w, fuel);
    if r.Some? {
      NextSame(h, f, form, srcs, src, at, t, r.value.0, fuel);
      BodySame(h, f.body, srcs, src, at, t1, r.value.0, fuel);
      var q := BodyDoes(h, f.body, g, Counted(t1), r.value.0, fuel);
      if q.Some? { NextSame(h, f, form, srcs, src, at, t, q.value.0, fuel); }
    }
  }

  lemma {:induction false} NextSame(h: Host, f: Shape, form: Syntax.Form, srcs: seq<Span>, src: string, at: Place,
          t: Tables, w: World, fuel: nat)
    requires ForParts(f, form, srcs, src, at, t)
    ensures NextMeans(h, form, w, fuel) == NextDoes(h, f, Setting(src, at.base, srcs), Counted(t), w, fuel)
    decreases fuel, f, 0
  {
    hide CondOf, AfterCond, InBody, AfterBody, BodyDoes, ScriptMeans, ForMeans, ForDoes;
    if fuel > 0 {
      var t1 := CondOf(f.cond, srcs, src, at, t).1;
      var t2 := InBody(f.body, srcs, src, at, t1).1;
      CondCounts(f.cond, srcs, src, at, t);
      BodyCounts(f.body, srcs, src, at, t1);
      BodySame(h, f.next, srcs, src, at, t2, w, fuel);
      var r := BodyDoes(h, f.next, Setting(src, at.base, srcs), Counted(t2), w, fuel);
      if r.Some? { ForSame(h, f, form, srcs, src, at, t, r.value.0, fuel - 1); }
    }
  }

  /** A `foreach` whose body is compiled in place. */
  predicate EachForm(f: Shape, form: Syntax.Form, srcs: seq<Span>, src: string, at: Place, t: Tables) {
    f.ForeachOf? && form.Foreach? && form.shape == f.info && form.body == InBody(f.body, srcs, src, at, t).0
  }

  lemma {:induction false} EachSame(h: Host, f: Shape, form: Syntax.Form, lists: seq<Val>, k: nat, acc: seq<Val>,
          srcs: seq<Span>, src: string, at: Place, t: Tables, w: World, fuel: nat)
    requires EachForm(f, form, srcs, src, at, t)
    ensures EachMeans(h, form, lists, k, acc, w, fuel)
        == EachDoes(h, f, form.info, lists, k, acc, Setting(src, at.base, srcs), Counted(t), w, fuel)
    decreases fuel, f, 0, h.iters(form.info, lists) - k
  {
    hide InBody, BodyDoes, ScriptMeans;
    if k < h.iters(form.info, lists) {
      var b := Ask(h, w, Bind(form.info, lists, k));
      BodySame(h, f.body, srcs, src, at, t, b.0, fuel);
      var r := if b.1.Gives? then BodyDoes(h, f.body, Setting(src, at.base, srcs), Counted(t), b.0, fuel) else Some(b);
      if r.Some? {
        match r.value.1
        case Continues(_) => EachSame(h, f, form, lists, k + 1, acc, srcs, src, at, t, r.value.0, fuel);
        case Gives(v) => EachSame(h, f, form, lists, k + 1, acc + [v], srcs, src, at, t, r.value.0, fuel);
        case _ =>
      }
    }
  }

  lemma {:induction false} CallSame(h: Host, dyn: bool, id: nat, words: seq<SrcWord>, srcs: seq<Span>, src: string,
          at: Place, t: Tables, w: World, fuel: nat)
    ensures FormMeans(h, Syntax.Run(dyn, id, SpannedAll(words, srcs, src, at, t).0), w, fuel)
        == CallDoes(h, dyn, words, Setting(src, at.base, srcs), Counted(t), w, fuel)
    decreases fuel, words, 1
  {
    hide SpannedAll, WordsMean, WordsDo;
    WordsSame(h, words, srcs, src, at, t, w, fuel);
  }

  lemma {:induction false} ForShape(h: Host, f: Shape, srcs: seq<Span>, src: string, at: Place, t: Tables, w: World,
          fuel: nat)
    requires f.ForOf?
    ensures FormMeans(h, FormOf(f, srcs, src, at, t).0, w, fuel)
        == ShapeDoes(h, f, Setting(src, at.base, srcs), Counted(t), w, fuel)
    decreases fuel, f, 3
  {
    hide CondOf, InBody, AfterBody, BodyDoes, ScriptMeans, ForMeans, ForDoes, SpannedAll, CallDoes, Inlinable,
        BodyInPlace, WordsMean;
    BodyTaken(f.start, srcs, src, at);
    BodyTaken(f.next, srcs, src, at);
    BodyTaken(f.body, srcs, src, at);
    if Inlinable(f.start, srcs, src, at) && Inlinable(f.next, srcs, src, at) && Inlinable(f.body, srcs, src, at) {
      var t1, form := InBody(f.start, srcs, src, at, t).1, FormOf(f, srcs, src, at, t).0;
      BodySame(h, f.start, srcs, src, at, t, w, fuel);
      BodyCounts(f.start, srcs, src, at, t);
      var r := BodyDoes(h, f.start, Setting(src, at.base, srcs), Counted(t), w, fuel);
      if r.Some? { ForSame(h, f, form, srcs, src, at, t1, r.value.0, fuel); }
    } else {
      CallSame(h, true, 0, f.words, srcs, src, at, t, w, fuel);
    }
  }

  lemma {:induction false} EachShape(h: Host, f: Shape, srcs: seq<Span>, src: string, at: Place, t: Tables, w: World,
          fuel: nat)
    requires f.ForeachOf?
    ensures FormMeans(h, FormOf(f, srcs, src, at, t).0, w, fuel)
        == ShapeDoes(h, f, Setting(src, at.base, srcs), Counted(t), w, fuel)
    decreases fuel, f, 3
  {
    hide InBody, BodyDoes, EachMeans, EachDoes, SpannedAll, AfterWords, WordsMean, WordsDo, CallDoes, Inlinable,
        BodyInPlace;
    BodyTaken(f.body, srcs, src, at);
    if Inlinable(f.body, srcs, src, at) {
      var t1, form := t.(infos := t.infos + [f.info]), FormOf(f, srcs, src, at, t).0;
      var t2 := SpannedAll(f.data, srcs, src, at, t1).1;
      WordsSame(h, f.data, srcs, src, at, t1, w, fuel);
      WordsCount(f.data, srcs, src, at, t1);
      var r := WordsDo(h, f.data, Setting(src, at.base, srcs), Counted(t1), w, fuel);
      if r.Some? && r.value.1.Many? {
        var o := Ask(h, r.value.0, OpenLists(|t.infos|, r.value.1.vs));
        EachSame(h, f, form, r.value.1.vs, 0, [], srcs, src, at, t2, o.0, fuel);
      }
    } else {
      CallSame(h, true, 0, f.words, srcs, src, at, t, w, fuel);
    }
  }

  lemma {:induction false} ShapeSame(h: Host, f: Shape, srcs: seq<Span>, src: string, at: Place, t: Tables, w: World,
          fuel: nat)
    ensures FormMeans(h, FormOf(f, srcs, src, at, t).0, w, fuel)
        == ShapeDoes(h, f, Setting(src, at.base, srcs), Counted(t), w, fuel)
    decreases fuel, f, 4
  {
    hide CondOf, InBody, Spanned, SpannedAll, ArmsFrom, Inlinable, BodyInPlace, ArmsInlinable, IfInPlace, WordDoes,
        CondDoes, WhileDoes, WhileMeans, BranchesDo, CallDoes, PlainDoes, PlainWord, WordMeans, WordsMean, TestMeans,
        ForMeans, EachMeans, ForDoes, EachDoes, BodyDoes, ScriptMeans, ArmsMean;
    match f
    case SetTo(_, y) => WordSame(h, y, srcs, src, at, t, w, fuel);
    case LappendTo(_, y) => WordSame(h, y, srcs, src, at, t, w, fuel);
    case ExprOf(k) => CondSame(h, k, srcs, src, at, t, w, fuel);
    case IfOf(_, _, _, words) =>
      ArmsTaken(f, srcs, src, at);
      if ArmsInlinable(f, srcs, src, at) { IfSame(h, f, srcs, src, at, t, w, fuel); }
      else { CallSame(h, true, 0, words, srcs, src, at, t, w, fuel); }
    case WhileOf(_, body, words) =>
      BodyTaken(body, srcs, src, at);
      if Inlinable(body, srcs, src, at) { WhileSame(h, f, srcs, src, at, t, w, fuel); }
      else { CallSame(h, true, 0, words, srcs, src, at, t, w, fuel); }
    case ForOf(_, _, _, _, _) => ForShape(h, f, srcs, src, at, t, w, fuel);
    case ForeachOf(_, _, _, _) => EachShape(h, f, srcs, src, at, t, w, fuel);
    case ReturnOf(y) => PlainSame(h, y, w, fuel);
    case CallOf(dyn, id, words) => CallSame(h, dyn, id, words, srcs, src, at, t, w, fuel);
    case _ =>
  }
}

/** The compiler: one pass that appends instructions, records sites, and fills
    in jump targets afterwards; and the expression compiler, which emits while
    it reads and may have to be rolled back. */
module Compilers {
  import opened Options
  import opened Opcodes
  import opened Machine
  import opened Discipline
  import opened ByteCodes
  import opened Exprs
  import opened Sources
  import opened Resolution
  import opened Codegen
  import Syntax

  /** A loop's entry, test and body. */
  function LoopTop(test: seq<OpCode>, body: seq<OpCode>, cont: nat, brk: nat, exit: nat): (r: seq<OpCode>)
    ensures |r| == |test| + |body| + 3 && r[0] == Loop(LoopEnter(cont, brk)) && r[1 + |test|] == JumpIf(false, exit)
  {
    [Loop(LoopEnter(cont, brk))] + test + [JumpIf(false, exit)] + body + [Pop]
  }

  lemma TopIs(pre: seq<OpCode>, test: seq<OpCode>, body: seq<OpCode>)
    ensures pre + [Loop(LoopEnter(0, 0))] + (test + [JumpIf(false, 0)]) + (body + [Pop])
        == pre + LoopTop(test, body, 0, 0, 0)
  {
  }

  /** The code of a condition and its body, its last jump open. */
  ghost function ArmHead(a: Branch, srcs: seq<Span>, src: string, at: Place, t: Tables, pc: nat,
          next: bool): (seq<OpCode>, Tables) {
    var (test, t1) := CondOf(a.cond, srcs, src, at, t);
    var (body, t2) := InBody(a.body, srcs, src, at, t1);
    var x := TestCode(test, pc, next);
    var b := ScriptCode(body, pc + |x| + 1, next);
    (x + [JumpIf(false, pc + |x| + |b| + 2)] + b + [Jump(0)], t2)
  }

  lemma IfParts(f: Shape, srcs: seq<Span>, src: string, at: Place, t: Tables, pc: nat, next: bool)
    requires f.IfOf? && ArmsInlinable(f, srcs, src, at)
    ensures var r := FormOf(f, srcs, src, at, t);
      var head := ArmHead(f.first, srcs, src, at, t, pc, next);
      var arms := ArmsFrom(f, 0, srcs, src, at, head.1);
      var code := FormCode(r.0, pc, next);
      && r.1 == arms.1
      && code == head.0[|head.0| - 1 := Jump(pc + |code|)] + ArmsCode(arms.0, pc + |head.0|, next)
  {
    hide CondOf, InBody, TestCode, ScriptCode, ArmsCode, ArmsFrom, ArmsInlinable;
  }

  lemma ArmParts(f: Shape, i: nat, srcs: seq<Span>, src: string, at: Place, t: Tables, pc: nat, next: bool)
    requires f.IfOf? && i < |f.more|
    ensures var r := ArmsFrom(f, i, srcs, src, at, t);
      var head := ArmHead(f.more[i], srcs, src, at, t, pc, next);
      var arms := ArmsFrom(f, i + 1, srcs, src, at, head.1);
      var code := ArmsCode(r.0, pc, next);
      && r.1 == arms.1
      && code == head.0[|head.0| - 1 := Jump(pc + |code|)] + ArmsCode(arms.0, pc + |head.0|, next)
  {
    hide CondOf, InBody, TestCode, ScriptCode;
  }

  lemma OneFilled(ops: seq<OpCode>, j: nat, target: nat)
    requires j < |ops|
    ensures Filled(ops, [j], target) == ops[j := Jump(target)]
  {
    assert [j][..0] == [];
  }

  /** The code of a `for` from its entry on. */
  ghost function LoopCode(f: Shape, srcs: seq<Span>, src: string, at: Place, t: Tables, pc: nat): (seq<OpCode>, Tables)
    requires f.ForOf?
  {
    var (test, t1) := CondOf(f.cond, srcs, src, at, t);
    var (body, t2) := InBody(f.body, srcs, src, at, t1);
    var (next, t3) := InBody(f.next, srcs, src, at, t2);
    var x := TestCode(test, pc + 1, false);
    var b := ScriptCode(body, pc + |x| + 2, false);
    (ForCode(x, b, ScriptCode(next, pc + |x| + |b| + 5, true), pc), t3)
  }

  lemma ForParts(f: Shape, srcs: seq<Span>, src: string, at: Place, t: Tables, pc: nat, next: bool)
    requires f.ForOf? && InPlace(f, srcs, src, at)
    ensures var r := FormOf(f, srcs, src, at, t);
      var start := InBody(f.start, srcs, src, at, t);
      var s := ScriptCode(start.0, pc + 1, false);
      var loop := LoopCode(f, srcs, src, at, start.1, pc + |s| + 3);
      FormCode(r.0, pc, next) == [Mark(ExprMark)] + s + [SubEnd, Pop] + loop.0 && r.1 == loop.1
  {
    hide CondOf, InBody, TestCode, ScriptCode, ForCode, Inlinable;
  }

  lemma WhileParts(f: Shape, srcs: seq<Span>, src: string, at: Place, t: Tables, pc: nat, next: bool)
    requires f.WhileOf? && Inlinable(f.body, srcs, src, at)
    ensures var r := FormOf(f, srcs, src, at, t);
      var test := CondOf(f.cond, srcs, src, at, t);
      var body := InBody(f.body, srcs, src, at, test.1);
      var x := TestCode(test.0, pc + 1, false);
      FormCode(r.0, pc, next) == WhileCode(x, ScriptCode(body.0, pc + |x| + 2, false), pc) && r.1 == body.1
  {
    hide CondOf, InBody, TestCode, ScriptCode, WhileCode, Inlinable;
  }

  /** Filling in the targets of a loop gives its code. */
  lemma WhilePatched(pre: seq<OpCode>, test: seq<OpCode>, body: seq<OpCode>)
    ensures var at := |pre|; var exit, brk := at + 1 + |test|, at + |test| + |body| + 4;
      var drafted := pre + LoopTop(test, body, 0, 0, 0) + [Jump(at + 1)];
      (drafted[exit := JumpIf(false, brk)] + [Loop(LoopExit)])[at := Loop(LoopEnter(at + 1, brk))] + [Push(Empty)]
      == pre + WhileCode(test, body, at)
  {
  }

  /** A `for` with its targets still open. */
  function ForDraft(pre: seq<OpCode>, test: seq<OpCode>, body: seq<OpCode>, next: seq<OpCode>): (r: seq<OpCode>)
    ensures var at, tail := |pre|, |pre| + |test| + |body| + 4;
      |r| == tail + |next| + 3 && r[at] == Loop(LoopEnter(0, 0)) && r[at + 1 + |test|] == JumpIf(false, 0)
          && r[tail - 1] == Jump(0)
  {
    var top := LoopTop(test, body, 0, 0, 0);
    assert (pre + top)[|pre| + 1 + |test|] == top[1 + |test|];
    pre + top + [Jump(0)] + ([Mark(NextMark)] + next + [Pop, Jump(|pre| + 1)])
  }

  lemma ForPatched(pre: seq<OpCode>, test: seq<OpCode>, body: seq<OpCode>, next: seq<OpCode>)
    ensures var at := |pre|; var exit, tail := at + 1 + |test|, at + |test| + |body| + 4;
      var brk := tail + |next| + 3;
      ForDraft(pre, test, body, next)[exit := JumpIf(false, brk)][tail - 1 := Jump(tail)][at :=
          Loop(LoopEnter(tail, brk))]
        + [Loop(LoopExit)] + [Push(Empty)]
      == pre + ForCode(test, body, next, at)
  {
  }

  /** A foreach with its targets still open. */
  function EachDraft(pre: seq<OpCode>, info: nat, shape: ForeachInfo, body: seq<OpCode>): (r: seq<OpCode>)
    ensures var at, tail := |pre|, |pre| + |body| + 4;
      |r| == tail + 2 && r[at] == Loop(ForeachStart(info, 0, 0)) && r[tail - 1] == Jump(0)
  {
    pre + [Loop(ForeachStart(info, 0, 0))] + [BodyMarkFor(shape.framed)] + body
    + [if shape.lmap then Loop(ForeachCollect) else Pop] + [Jump(0)] + [Loop(ForeachNext(info, |pre| + 1))]
        + [Loop(ForeachEnd)]
  }

  lemma EachPatched(pre: seq<OpCode>, info: nat, shape: ForeachInfo, body: seq<OpCode>)
    ensures var at, tail := |pre|, |pre| + |body| + 4;
      EachDraft(pre, info, shape, body)[tail - 1 := Jump(tail)][at := Loop(ForeachStart(info, tail, tail + 1))]
      == pre + EachCode(info, shape, body, at)
  {
  }

  /** All the bodies of a command can be compiled in place. */
  predicate InPlace(f: Shape, srcs: seq<Span>, src: string, at: Place)
    requires f.IfOf? || f.WhileOf? || f.ForOf? || f.ForeachOf?
  {
    match f
    case IfOf(_, _, _, _) => ArmsInlinable(f, srcs, src, at)
    case ForOf(start, _, next, body, _) =>
      Inlinable(start, srcs, src, at) && Inlinable(next, srcs, src, at) && Inlinable(body, srcs, src, at)
    case _ => Inlinable(f.body, srcs, src, at)
  }

  // ── code still to come ──

  /** The commands after some that have been compiled. */
  function Ahead(s: Syntax.Script, at: nat, next: bool, first: bool): seq<OpCode> {
    if s.Done? then [] else if first then CmdsCode(s, at, next) else [Pop] + CmdsCode(s, at + 1, next)
  }

  lemma AheadStep(cs: seq<Command>, i: nat, src: string, at: Place, t: Tables, pc: nat, next: bool)
    requires i < |cs|
    ensures var r := Commands(cs[i..], src, at, t);
      var c := One(cs[i], src, at, t);
      var rest := Commands(cs[i + 1..], src, at, c.1);
      var drop := if i == 0 then [] else [Pop];
      var code := CmdCode(c.0, pc + |drop|, next);
      && r.1 == rest.1
      && Ahead(r.0, pc, next, i == 0) == drop + code + Ahead(rest.0, pc + |drop| + |code|, next, false)
  {
    hide One, CmdCode, CmdsCode, Ahead;
    assert cs[i..][0] == cs[i] && cs[i..][1..] == cs[i + 1..];
    var c := One(cs[i], src, at, t);
    AheadThen(c.0, Commands(cs[i + 1..], src, at, c.1).0, pc, next, i == 0);
  }

  lemma AheadThen(c: Syntax.Cmd, rest: Syntax.Script, pc: nat, next: bool, first: bool)
    ensures var drop := if first then [] else [Pop];
      var code := CmdCode(c, pc + |drop|, next);
      Ahead(Syntax.Then(c, rest), pc, next, first) == drop + code + Ahead(rest, pc + |drop| + |code|, next, false)
  {
    hide CmdCode;
  }

  lemma NothingAhead(cs: seq<Command>, src: string, at: Place, t: Tables, pc: nat, next: bool, first: bool)
    ensures var r := Commands(cs[|cs|..], src, at, t); r.1 == t && Ahead(r.0, pc, next, first) == []
  {
  }

  /** Jumps at `js` filled in. */
  function Filled(ops: seq<OpCode>, js: seq<nat>, target: nat): (r: seq<OpCode>)
    ensures |r| == |ops|
  {
    if js == [] then ops
    else
      var j := js[|js| - 1];
      var r := Filled(ops, js[..|js| - 1], target);
      if j < |r| then r[j := Jump(target)] else r
  }

  predicate JumpsAt(ops: seq<OpCode>, js: seq<nat>) { forall k | 0 <= k < |js| :: js[k] < |ops| && ops[js[k]].Jump? }

  lemma {:induction false} FilledAppend(a: seq<OpCode>, b: seq<OpCode>, js: seq<nat>, target: nat)
    requires JumpsAt(a, js)
    ensures Filled(a + b, js, target) == Filled(a, js, target) + b
  {
    if js != [] { FilledAppend(a, b, js[..|js| - 1], target); }
  }

  lemma FilledSnoc(ops: seq<OpCode>, js: seq<nat>, j: nat, target: nat)
    requires j < |ops|
    ensures Filled(ops, js + [j], target) == Filled(ops, js, target)[j := Jump(target)]
  {
    assert (js + [j])[..|js|] == js;
  }

  lemma {:induction false} CountWords(ws: seq<SrcWord>)
    ensures Syntax.Count(PlainWords(ws)) == |ws|
  {
    if ws != [] { CountWords(ws[1..]); }
  }

  lemma {:induction false} CountSpanned(ws: seq<SrcWord>, srcs: seq<Span>, src: string, at: Place, t: Tables)
    ensures Syntax.Count(SpannedAll(ws, srcs, src, at, t).0) == |ws|
  {
    if ws != [] { CountSpanned(ws[1..], srcs, src, at, Spanned(ws[0], srcs, src, at, t).1); }
  }

  lemma ScannedStep(ls: seq<Lex>, braced: bool, n: nat, src: string, at: Place, t: Tables)
    requires n < |ls|
    ensures var r := Scanned(ls, braced, n, src, at, t);
      var l := OfLex(ls[n], braced, src, at, r.1);
      Scanned(ls, braced, n + 1, src, at, t) == (r.0 + [l.0], l.1)
  {
    hide OfLex;
  }

  /** Scripts of the tokens before `m` are scripts of the tokens before `n`. */
  lemma {:induction false} ScannedPrefix(ls: seq<Lex>, braced: bool, m: nat, n: nat, src: string, at: Place, t: Tables)
    requires m <= n <= |ls|
    ensures Scanned(ls, braced, m, src, at, t).0 == Scanned(ls, braced, n, src, at, t).0[..m]
  {
    if m < n {
      ScannedPrefix(ls, braced, m, n - 1, src, at, t);
      var ss := Scanned(ls, braced, n - 1, src, at, t).0;
      assert Scanned(ls, braced, n, src, at, t).0[..m] == ss[..m];
    } else {
      var ss := Scanned(ls, braced, n, src, at, t).0;
      assert ss[..m] == ss;
    }
  }

  class Compiler {
    const source: string
    const bc: ByteCode
    var sites: seq<Site>
    var infos: seq<ForeachInfo>
    var spanBase: nat
    var lineBase: nat
    var inNext: bool
    ghost var origins: seq<(Command, Place)>
    ghost var countedFrom: nat

    ghost predicate Valid() reads this, bc { bc.Valid() }

    ghost function Now(): Tables reads this { Tables(sites, infos, origins) }

    ghost function At(): Place reads this { Place(spanBase, lineBase, countedFrom) }

    function Here(): Place reads this { Place(spanBase, lineBase, spanBase) }

    /** What has been emitted stays, and so does the context. */
    twostate predicate Steady()
      reads this, bc
    {
      && At() == old(At()) && inNext == old(inNext)
      && old(bc.lineMap) <= bc.lineMap && old(sites) <= sites && old(origins) <= origins
    }

    /** `code` has been appended, and the tables are `t`. */
    twostate predicate Emitted(code: seq<OpCode>, t: Tables)
      reads this, bc
    {
      Valid() && Steady() && bc.ops == old(bc.ops) + code && Now() == t
    }

    constructor (text: string)
      ensures Valid() && fresh(bc) && source == text && bc.ops == []
      ensures Now() == Tables([], [], []) && At() == TOP && !inNext
    {
      source := text;
      bc := new ByteCode();
      sites, infos, origins, spanBase, lineBase, countedFrom, inNext := [], [], [], 0, 0, 0, false;
    }

    method Emit(op: OpCode, line: nat)
      requires Valid()
      modifies bc
      ensures Valid() && bc.ops == old(bc.ops) + [op] && bc.lineMap == old(bc.lineMap) + [line]
    {
      var _ := bc.Emit(op, line);
    }

    method CompileCommands(cs: seq<Command>)
      requires Valid()
      modifies this, bc
      ensures var r := Commands(cs, source, old(At()), old(Now()));
        Emitted(Ahead(r.0, |old(bc.ops)|, old(inNext), true), r.1)
      decreases cs, 0
    {
      hide Commands, One, Ahead, CmdsCode, CmdCode;
      ghost var r := Commands(cs, source, At(), Now());
      ghost var goal := bc.ops + Ahead(r.0, |bc.ops|, inNext, true);
      var i := 0;
      while i < |cs|
        invariant 0 <= i <= |cs| && Valid() && Steady()
        invariant var rest := Commands(cs[i..], source, At(), Now());
          bc.ops + Ahead(rest.0, |bc.ops|, inNext, i == 0) == goal && rest.1 == r.1
      {
        AheadStep(cs, i, source, At(), Now(), |bc.ops|, inNext);
        if i > 0 { Emit(Pop, 0); }
        CompileCommand(cs[i]);
        i := i + 1;
      }
      NothingAhead(cs, source, At(), Now(), |bc.ops|, inNext, i == 0);
    }

    method CompileCommand(c: Command)
      requires Valid()
      modifies this, bc
      ensures var r := One(c, source, old(At()), old(Now()));
        Emitted(CmdCode(r.0, |old(bc.ops)|, old(inNext)), r.1)
      decreases c
    {
      hide FormCode, FormOf;
      var line := lineBase + c.line;
      sites, origins := sites + [SiteOf(c, Here())], origins + [(c, At())];
      Emit(BeginCmd(|sites| - 1), line);
      CompileShape(c.shape, c.srcs, line);
    }

    method CompileShape(f: Shape, srcs: seq<Span>, line: nat)
      requires Valid()
      modifies this, bc
      ensures var r := FormOf(f, srcs, source, old(At()), old(Now()));
        Emitted(FormCode(r.0, |old(bc.ops)|, old(inNext)), r.1)
      decreases f, 5
    {
      hide FormOf, FormCode, InPlace;
      if !f.IfOf? && !f.WhileOf? && !f.ForOf? && !f.ForeachOf? {
        CompileSimple(f, srcs, line);
        return;
      }
      var inlinable := BodiesInlinable(f, srcs);
      if inlinable { CompileControl(f, srcs, line); } else { CompileDispatch(f, srcs, line); }
    }

    /** The check of every body before anything is emitted. */
    method BodiesInlinable(f: Shape, srcs: seq<Span>) returns (ok: bool)
      requires f.IfOf? || f.WhileOf? || f.ForOf? || f.ForeachOf?
      ensures ok == InPlace(f, srcs, source, At())
    {
      if f.ForOf? {
        return Inlinable(f.start, srcs, source, Here()) && Inlinable(f.next, srcs, source, Here())
            && Inlinable(f.body, srcs, source, Here());
      }
      if f.IfOf? { ok := ArmsCheck(f, srcs); } else { ok := Inlinable(f.body, srcs, source, Here()); }
    }

    method ArmsCheck(f: Shape, srcs: seq<Span>) returns (ok: bool)
      requires f.IfOf?
      ensures ok == ArmsInlinable(f, srcs, source, At())
    {
      hide Inlinable;
      SameHere(srcs);
      if !Inlinable(f.first.body, srcs, source, Here()) { return false; }
      for i := 0 to |f.more|
        invariant forall k | 0 <= k < i :: Inlinable(f.more[k].body, srcs, source, At())
      {
        if !Inlinable(f.more[i].body, srcs, source, Here()) { return false; }
      }
      ok := f.els.None? || Inlinable(f.els.value, srcs, source, Here());
    }

    lemma SameHere(srcs: seq<Span>)
      ensures forall b: Body :: Inlinable(b, srcs, source, Here()) == Inlinable(b, srcs, source, At())
    {
    }

    method CompileControl(f: Shape, srcs: seq<Span>, line: nat)
      requires Valid() && (f.IfOf? || f.WhileOf? || f.ForOf? || f.ForeachOf?) && InPlace(f, srcs, source, At())
      modifies this, bc
      ensures var r := FormOf(f, srcs, source, old(At()), old(Now()));
        Emitted(FormCode(r.0, |old(bc.ops)|, old(inNext)), r.1)
      decreases f, 4
    {
      hide FormOf, FormCode, ArmsInlinable, Inlinable;
      match f {
        case IfOf(_, _, _, _) => CompileIf(f, srcs, line);
        case WhileOf(_, _, _) => CompileWhile(f, srcs, line);
        case ForOf(_, _, _, _, _) => CompileFor(f, srcs, line);
        case ForeachOf(_, _, _, _) => CompileForeach(f, srcs, line);
      }
    }

    method CompileDispatch(f: Shape, srcs: seq<Span>, line: nat)
      requires Valid() && (f.IfOf? || f.WhileOf? || f.ForOf? || f.ForeachOf?) && !InPlace(f, srcs, source, At())
      modifies this, bc
      ensures var r := FormOf(f, srcs, source, old(At()), old(Now()));
        Emitted(FormCode(r.0, |old(bc.ops)|, old(inNext)), r.1)
      decreases f, 3
    {
      hide ArmsInlinable, Inlinable, SpannedAll, WordsCode, CondOf, InBody, ArmsFrom;
      CompileCall(true, 0, f.words, srcs, line);
    }

    /** Commands without bodies. */
    method CompileSimple(f: Shape, srcs: seq<Span>, line: nat)
      requires Valid() && !f.IfOf? && !f.WhileOf? && !f.ForOf? && !f.ForeachOf?
      modifies this, bc
      ensures var r := FormOf(f, srcs, source, old(At()), old(Now()));
        Emitted(FormCode(r.0, |old(bc.ops)|, old(inNext)), r.1)
      decreases f, 3
    {
      hide Spanned, CondOf, InBody, ArmsFrom, SpannedAll, WordCode, WordsCode, ScriptCode, TestCode, PlainWord;
      match f {
        case SetTo(x, w) => CompileWordThen(w, Store(x), srcs, line);
        case SetGet(x) => Emit(Load(x), line);
        case IncrBy(x, k) => Emit(Incr(x, k), line);
        case LappendTo(x, w) => CompileWordThen(w, Lappend(x), srcs, line);
        case ExprOf(k) => CompileExprWord(k, srcs, line);
        case BreakCmd => Emit(Loop(LoopOp.Break), line);
        case ContinueCmd =>
          if inNext { Emit(Loop(LoopExit), line); }
          Emit(Loop(LoopOp.Continue), line);
        case ReturnOf(w) =>
          CompileWord(w, line);
          Emit(Return, line);
        case ExitOf(code) => Emit(Exit(code), line);
        case CallOf(dyn, id, words) => CompileCall(dyn, id, words, srcs, line);
      }
    }

    method CompileWordThen(w: SrcWord, op: OpCode, srcs: seq<Span>, line: nat)
      requires Valid()
      modifies this, bc
      ensures var r := Spanned(w, srcs, source, old(At()), old(Now()));
        Emitted(WordCode(r.0, |old(bc.ops)|, old(inNext)) + [op], r.1)
      decreases w, 2
    {
      hide Spanned, WordCode;
      CompileWordSpanned(w, srcs, line);
      Emit(op, line);
    }

    method CompileCall(dyn: bool, id: nat, words: seq<SrcWord>, srcs: seq<Span>, line: nat)
      requires Valid()
      modifies this, bc
      ensures var r := SpannedAll(words, srcs, source, old(At()), old(Now()));
        Emitted(WordsCode(r.0, |old(bc.ops)|, old(inNext)) + [Call(dyn, id, Syntax.Count(r.0))], r.1)
      decreases words, 1
    {
      hide SpannedAll, WordsCode;
      CompileWords(words, srcs, line);
      CountSpanned(words, srcs, source, old(At()), old(Now()));
      Emit(Call(dyn, id, |words|), line);
    }

    method CompileWord(w: SrcWord, line: nat)
      requires Valid()
      modifies this, bc
      ensures Emitted(WordCode(PlainWord(w), |old(bc.ops)|, old(inNext)), old(Now()))
      decreases w
    {
      match w {
        case Literal(lit) => Emit(Push(lit), line);
        case VarRef(x) => Emit(Load(x), line);
        case ExprSugar(lit) =>
          Emit(Push(lit), line);
          Emit(EvalExpr, line);
        case CommandSub(lit, _) =>
          Emit(Push(lit), line);
          Emit(EvalScript, line);
        case Concat(parts) =>
          CompileParts(parts, line);
          CountWords(parts);
          Emit(OpCode.Concat(|parts|), line);
      }
    }

    method CompileParts(ws: seq<SrcWord>, line: nat)
      requires Valid()
      modifies this, bc
      ensures Emitted(WordsCode(PlainWords(ws), |old(bc.ops)|, old(inNext)), old(Now()))
      decreases ws
    {
      hide Exec, PlainWord, WordCode;
      ghost var goal := bc.ops + WordsCode(PlainWords(ws), |bc.ops|, inNext);
      var i := 0;
      while i < |ws|
        invariant 0 <= i <= |ws| && Valid() && Steady() && Now() == old(Now())
        invariant bc.ops + WordsCode(PlainWords(ws[i..]), |bc.ops|, inNext) == goal
      {
        assert ws[i..][0] == ws[i] && ws[i..][1..] == ws[i + 1..];
        CompileWord(ws[i], line);
        i := i + 1;
      }
    }

    /** A bracket that is the whole word is compiled in place. */
    method CompileWordSpanned(w: SrcWord, srcs: seq<Span>, line: nat)
      requires Valid()
      modifies this, bc
      ensures var r := Spanned(w, srcs, source, old(At()), old(Now()));
        Emitted(WordCode(r.0, |old(bc.ops)|, old(inNext)), r.1)
      decreases w, 1
    {
      hide Commands, ScriptCode, PlainWord;
      if InlinesSub(w, srcs, source, Here()) {
        var saved := (spanBase, lineBase);
        spanBase := Inside(spanBase, srcs, w.sub.word);
        CompileRegion(SubMark, w.sub.script.cmds, line);
        spanBase, lineBase := saved.0, saved.1;
      } else {
        CompileWord(w, line);
      }
    }

    method CompileWords(ws: seq<SrcWord>, srcs: seq<Span>, line: nat)
      requires Valid()
      modifies this, bc
      ensures var r := SpannedAll(ws, srcs, source, old(At()), old(Now()));
        Emitted(WordsCode(r.0, |old(bc.ops)|, old(inNext)), r.1)
      decreases ws, 0
    {
      hide Spanned, WordCode, Commands, ScriptCode;
      ghost var r := SpannedAll(ws, srcs, source, At(), Now());
      ghost var goal := bc.ops + WordsCode(r.0, |bc.ops|, inNext);
      var i := 0;
      while i < |ws|
        invariant 0 <= i <= |ws| && Valid() && Steady()
        invariant var rest := SpannedAll(ws[i..], srcs, source, At(), Now());
          bc.ops + WordsCode(rest.0, |bc.ops|, inNext) == goal && rest.1 == r.1
      {
        assert ws[i..][0] == ws[i] && ws[i..][1..] == ws[i + 1..];
        CompileWordSpanned(ws[i], srcs, line);
        i := i + 1;
      }
    }

    /** A script between a mark and the end of its region. */
    method CompileRegion(mark: MarkOp, cs: seq<Command>, line: nat)
      requires Valid()
      modifies this, bc
      ensures var r := Commands(cs, source, old(At()), old(Now()));
        Emitted([Mark(mark)] + ScriptCode(r.0, |old(bc.ops)| + 1, old(inNext)) + [SubEnd], r.1)
      decreases cs, 2
    {
      hide Commands, ScriptCode;
      Emit(Mark(mark), line);
      CompileScript(cs, line);
      Emit(SubEnd, line);
    }

    method CompileScript(cs: seq<Command>, line: nat)
      requires Valid()
      modifies this, bc
      ensures var r := Commands(cs, source, old(At()), old(Now()));
        Emitted(ScriptCode(r.0, |old(bc.ops)|, old(inNext)), r.1)
      decreases cs, 1
    {
      if cs == [] { Emit(Push(Empty), line); } else { CompileCommands(cs); }
    }

    /** Callers have checked that the body can be compiled in place. */
    method CompileBodyInline(b: Body, srcs: seq<Span>, line: nat)
      requires Valid() && Inlinable(b, srcs, source, At())
      modifies this, bc
      ensures var r := InBody(b, srcs, source, old(At()), old(Now()));
        Emitted(ScriptCode(r.0, |old(bc.ops)|, old(inNext)), r.1)
      decreases b, 0
    {
      hide Commands, NewLines, Verbatim, CmdsCode;
      if b.value == "" {
        Emit(Push(Empty), line);
        return;
      }
      var saved := (spanBase, lineBase);
      ghost var savedFrom := countedFrom;
      var bodyStart := Inside(spanBase, srcs, b.word);
      spanBase, countedFrom := bodyStart, bodyStart;
      lineBase := CountLines(source, bodyStart);
      CompileScript(b.script.cmds, line);
      spanBase, lineBase, countedFrom := saved.0, saved.1, savedFrom;
    }

    /** A condition and its body: the jump over the body is filled in, the jump
        from its end is not. */
    method CompileArm(a: Branch, srcs: seq<Span>, line: nat) returns (endJump: nat)
      requires Valid() && Inlinable(a.body, srcs, source, At())
      modifies this, bc
      ensures var r := ArmHead(a, srcs, source, old(At()), old(Now()), |old(bc.ops)|, old(inNext));
        Emitted(r.0, r.1) && endJump == |bc.ops| - 1 && bc.ops[endJump] == Jump(0)
      decreases a
    {
      hide CondOf, InBody, TestCode, ScriptCode, Inlinable;
      var falseJump := CompileTest(a.cond, srcs, line);
      CompileBodyInline(a.body, srcs, line);
      endJump := bc.Emit(Jump(0), line);
      bc.PatchJump(falseJump, |bc.ops|);
    }

    method CompileIf(f: Shape, srcs: seq<Span>, line: nat)
      requires Valid() && f.IfOf? && ArmsInlinable(f, srcs, source, At())
      modifies this, bc
      ensures var r := FormOf(f, srcs, source, old(At()), old(Now()));
        Emitted(FormCode(r.0, |old(bc.ops)|, old(inNext)), r.1)
      decreases f, 1
    {
      hide CondOf, InBody, TestCode, ScriptCode, Filled, FormOf, FormCode, ArmsFrom, ArmsCode, Inlinable;
      ghost var r := FormOf(f, srcs, source, At(), Now());
      ghost var goal := bc.ops + FormCode(r.0, |bc.ops|, inNext);
      IfParts(f, srcs, source, At(), Now(), |bc.ops|, inNext);
      var first := CompileArm(f.first, srcs, line);
      var endJumps := [first];
      OneFilled(bc.ops, first, |goal|);
      var i := 0;
      while i < |f.more|
        invariant 0 <= i <= |f.more| && Valid() && Steady()
        invariant JumpsAt(bc.ops, endJumps) && forall k | 0 <= k < |endJumps| :: |old(bc.ops)| <= endJumps[k]
        invariant ArmsFrom(f, i, srcs, source, At(), Now()).1 == r.1
        invariant Filled(bc.ops, endJumps, |goal|) + Rest(f, i, srcs) == goal
      {
        endJumps := CompileMore(f, i, endJumps, srcs, line, goal);
        i := i + 1;
      }
      ghost var before := bc.ops;
      CompileElse(f, srcs, line);
      FilledAppend(before, bc.ops[|before|..], endJumps, |goal|);
      FillJumps(endJumps);
    }

    /** One more branch; its last jump joins the ones to be filled in. */
    method CompileMore(f: Shape, i: nat, endJumps: seq<nat>, srcs: seq<Span>, line: nat, ghost goal: seq<OpCode>)
      returns (js: seq<nat>)
      requires Valid() && f.IfOf? && i < |f.more| && JumpsAt(bc.ops, endJumps)
          && Inlinable(f.more[i].body, srcs, source, At())
      requires Filled(bc.ops, endJumps, |goal|) + Rest(f, i, srcs) == goal
      modifies this, bc
      ensures Valid() && Steady() && old(bc.ops) <= bc.ops && JumpsAt(bc.ops, js)
      ensures |js| > 0 && js[..|js| - 1] == endJumps && js[|js| - 1] >= |old(bc.ops)|
      ensures Filled(bc.ops, js, |goal|) + Rest(f, i + 1, srcs) == goal
      ensures ArmsFrom(f, i + 1, srcs, source, At(), Now()).1 == old(ArmsFrom(f, i, srcs, source, At(), Now()).1)
      decreases f, 0
    {
      hide CondOf, InBody, TestCode, ScriptCode, Filled, ArmsFrom, ArmsCode, Inlinable;
      ghost var before := bc.ops;
      ArmParts(f, i, srcs, source, At(), Now(), |bc.ops|, inNext);
      var j := CompileArm(f.more[i], srcs, line);
      FilledAppend(before, bc.ops[|before|..], endJumps, |goal|);
      FilledSnoc(bc.ops, endJumps, j, |goal|);
      js := endJumps + [j];
    }

    /** The code of the arms still to come. */
    ghost function Rest(f: Shape, i: nat, srcs: seq<Span>): seq<OpCode>
      requires f.IfOf? && i <= |f.more|
      reads this, bc
    {
      ArmsCode(ArmsFrom(f, i, srcs, source, At(), Now()).0, |bc.ops|, inNext)
    }

    /** The else body, or the empty value. */
    method CompileElse(f: Shape, srcs: seq<Span>, line: nat)
      requires Valid() && f.IfOf? && (f.els.Some? ==> Inlinable(f.els.value, srcs, source, At()))
      modifies this, bc
      ensures var r := ArmsFrom(f, |f.more|, srcs, source, old(At()), old(Now()));
        Emitted(ArmsCode(r.0, |old(bc.ops)|, old(inNext)), r.1)
      decreases f, 0
    {
      hide InBody, ScriptCode, Inlinable;
      if f.els.Some? {
        Emit(Mark(BodyMark), line);
        CompileBodyInline(f.els.value, srcs, line);
        var skip := bc.Emit(Jump(0), line);
        bc.PatchJump(skip, |bc.ops|);
      } else {
        Emit(Push(Empty), line);
      }
    }

    method FillJumps(js: seq<nat>)
      requires Valid() && JumpsAt(bc.ops, js)
      modifies bc`ops
      ensures Valid() && bc.ops == Filled(old(bc.ops), js, |old(bc.ops)|)
    {
      var end := |bc.ops|;
      var k := 0;
      while k < |js|
        invariant 0 <= k <= |js| && Valid() && |bc.ops| == end && JumpsAt(bc.ops, js)
        invariant bc.ops == Filled(old(bc.ops), js[..k], end)
      {
        assert js[..k + 1][..k] == js[..k];
        bc.PatchJump(js[k], end);
        k := k + 1;
      }
      assert js[..k] == js;
    }

    /** What while and for have in common: the entry, the test and the body,
        with the loop's targets still open. */
    method CompileLoopTop(f: Shape, srcs: seq<Span>, line: nat) returns (loopEnter: nat, exitJump: nat)
      requires Valid() && (f.WhileOf? || f.ForOf?) && Inlinable(f.body, srcs, source, At())
      modifies this, bc
      ensures var test := CondOf(f.cond, srcs, source, old(At()), old(Now()));
        var body := InBody(f.body, srcs, source, old(At()), test.1);
        var at := |old(bc.ops)|;
        var t := TestCode(test.0, at + 1, old(inNext));
        && Emitted(LoopTop(t, ScriptCode(body.0, at + |t| + 2, old(inNext)), 0, 0, 0), body.1)
        && loopEnter == at && exitJump == at + 1 + |t|
      decreases f, 0
    {
      hide CondOf, InBody, TestCode, ScriptCode, Commands, LoopTop, Inlinable;
      ghost var pre, test := bc.ops, CondOf(f.cond, srcs, source, At(), Now());
      ghost var t := TestCode(test.0, |pre| + 1, inNext);
      ghost var b := ScriptCode(InBody(f.body, srcs, source, At(), test.1).0, |pre| + |t| + 2, inNext);
      loopEnter := bc.Emit(Loop(LoopEnter(0, 0)), line);
      exitJump := CompileTest(f.cond, srcs, line);
      CompileDropped(f.body, srcs, line);
      TopIs(pre, t, b);
    }

    /** A condition and the jump when it fails. */
    method CompileTest(k: Cond, srcs: seq<Span>, line: nat) returns (exitJump: nat)
      requires Valid()
      modifies this, bc
      ensures var r := CondOf(k, srcs, source, old(At()), old(Now()));
        Emitted(TestCode(r.0, |old(bc.ops)|, old(inNext)) + [JumpIf(false, 0)], r.1) && exitJump == |bc.ops| - 1
      decreases k, 1
    {
      hide CondOf, TestCode;
      CompileExprWord(k, srcs, line);
      exitJump := bc.Emit(JumpIf(false, 0), line);
    }

    /** A body whose result is dropped. */
    method CompileDropped(b: Body, srcs: seq<Span>, line: nat)
      requires Valid() && Inlinable(b, srcs, source, At())
      modifies this, bc
      ensures var r := InBody(b, srcs, source, old(At()), old(Now()));
        Emitted(ScriptCode(r.0, |old(bc.ops)|, old(inNext)) + [Pop], r.1)
      decreases b, 1
    {
      hide InBody, ScriptCode, Inlinable;
      CompileBodyInline(b, srcs, line);
      Emit(Pop, line);
    }

    method CompileWhile(f: Shape, srcs: seq<Span>, line: nat)
      requires Valid() && f.WhileOf? && InPlace(f, srcs, source, At())
      modifies this, bc
      ensures var r := FormOf(f, srcs, source, old(At()), old(Now()));
        Emitted(FormCode(r.0, |old(bc.ops)|, old(inNext)), r.1)
      decreases f, 1
    {
      hide CondOf, InBody, TestCode, ScriptCode, Commands, WhileCode, LoopTop, Inlinable, FormOf, FormCode;
      WhileParts(f, srcs, source, At(), Now(), |bc.ops|, inNext);
      ghost var test := CondOf(f.cond, srcs, source, At(), Now());
      ghost var body := InBody(f.body, srcs, source, At(), test.1);
      ghost var t := TestCode(test.0, |bc.ops| + 1, false);
      WhilePatched(bc.ops, t, ScriptCode(body.0, |bc.ops| + |t| + 2, false));
      var savedNext := inNext;
      inNext := false;
      var loopEnter, exitJump := CompileLoopTop(f, srcs, line);
      inNext := savedNext;
      Emit(Jump(loopEnter + 1), line);
      CloseWhile(loopEnter, exitJump, line);
    }

    /** The end of a while: its targets are known. */
    method CloseWhile(loopEnter: nat, exitJump: nat, line: nat)
      requires Valid() && loopEnter < exitJump < |bc.ops|
      requires bc.ops[loopEnter] == Loop(LoopEnter(0, 0)) && bc.ops[exitJump] == JumpIf(false, 0)
      modifies bc
      ensures Valid() && old(bc.lineMap) <= bc.lineMap
      ensures var end := |old(bc.ops)|;
        bc.ops == (old(bc.ops)[exitJump := JumpIf(false, end)] + [Loop(LoopExit)])[loopEnter :=
            Loop(LoopEnter(loopEnter + 1, end))]
          + [Push(Empty)]
    {
      var afterLoop := |bc.ops|;
      bc.PatchJump(exitJump, afterLoop);
      Emit(Loop(LoopExit), line);
      bc.PatchLoop(loopEnter, loopEnter + 1, afterLoop);
      Emit(Push(Empty), line);
    }

    method CompileFor(f: Shape, srcs: seq<Span>, line: nat)
      requires Valid() && f.ForOf? && InPlace(f, srcs, source, At())
      modifies this, bc
      ensures var r := FormOf(f, srcs, source, old(At()), old(Now()));
        Emitted(FormCode(r.0, |old(bc.ops)|, old(inNext)), r.1)
      decreases f, 3
    {
      hide FormOf, FormCode, InBody, ForCode, Inlinable;
      ForParts(f, srcs, source, At(), Now(), |bc.ops|, inNext);
      var savedNext := inNext;
      inNext := false;
      CompileStart(f.start, srcs, line);
      CompileLoop(f, srcs, line);
      inNext := savedNext;
    }

    /** The loop of a `for`, after its start script. */
    method CompileLoop(f: Shape, srcs: seq<Span>, line: nat)
      requires Valid() && f.ForOf? && !inNext && InPlace(f, srcs, source, At())
      modifies this, bc
      ensures var r := LoopCode(f, srcs, source, old(At()), old(Now()), |old(bc.ops)|);
        Emitted(r.0, r.1)
      decreases f, 2
    {
      hide CondOf, InBody, TestCode, ScriptCode, ForCode, LoopTop, ForDraft, Inlinable;
      ghost var pre, at := bc.ops, |bc.ops|;
      ghost var test := CondOf(f.cond, srcs, source, At(), Now());
      ghost var body := InBody(f.body, srcs, source, At(), test.1);
      ghost var next := InBody(f.next, srcs, source, At(), body.1);
      ghost var t := TestCode(test.0, at + 1, false);
      ghost var b := ScriptCode(body.0, at + |t| + 2, false);
      ghost var n := ScriptCode(next.0, at + |t| + |b| + 5, true);
      ForPatched(pre, t, b, n);
      var loopEnter, exitJump, bodyEndJump := CompileOpenLoop(f, srcs, line);
      var endPc := |bc.ops|;
      bc.PatchJump(exitJump, endPc);
      bc.PatchJump(bodyEndJump, bodyEndJump + 1);
      bc.PatchLoop(loopEnter, bodyEndJump + 1, endPc);
      Emit(Loop(LoopExit), line);
      Emit(Push(Empty), line);
    }

    method CompileOpenLoop(f: Shape, srcs: seq<Span>, line: nat)
      returns (loopEnter: nat, exitJump: nat, bodyEndJump: nat)
      requires Valid() && f.ForOf? && !inNext && InPlace(f, srcs, source, At())
      modifies this, bc
      ensures var test := CondOf(f.cond, srcs, source, old(At()), old(Now()));
        var body := InBody(f.body, srcs, source, old(At()), test.1);
        var next := InBody(f.next, srcs, source, old(At()), body.1);
        var at := |old(bc.ops)|;
        var t := TestCode(test.0, at + 1, false);
        var b := ScriptCode(body.0, at + |t| + 2, false);
        && Valid() && Steady() && Now() == next.1
        && bc.ops == ForDraft(old(bc.ops), t, b, ScriptCode(next.0, at + |t| + |b| + 5, true))
        && loopEnter == at && exitJump == at + 1 + |t| && bodyEndJump == at + |t| + |b| + 3
      decreases f, 1
    {
      hide CondOf, InBody, TestCode, ScriptCode, LoopTop, Inlinable;
      loopEnter, exitJump := CompileLoopTop(f, srcs, line);
      bodyEndJump := bc.Emit(Jump(0), line);
      CompileNext(f.next, loopEnter + 1, srcs, line);
    }

    /** The start script, in a region of its own. */
    method CompileStart(b: Body, srcs: seq<Span>, line: nat)
      requires Valid() && Inlinable(b, srcs, source, At())
      modifies this, bc
      ensures var r := InBody(b, srcs, source, old(At()), old(Now()));
        Emitted([Mark(ExprMark)] + ScriptCode(r.0, |old(bc.ops)| + 1, old(inNext)) + [SubEnd, Pop], r.1)
      decreases b, 1
    {
      hide InBody, ScriptCode, Inlinable;
      Emit(Mark(ExprMark), line);
      CompileBodyInline(b, srcs, line);
      Emit(SubEnd, line);
      Emit(Pop, line);
    }

    /** The next script: a `continue` in it leaves the loop first. */
    method CompileNext(b: Body, conditionPc: nat, srcs: seq<Span>, line: nat)
      requires Valid() && !inNext && Inlinable(b, srcs, source, At())
      modifies this, bc
      ensures var r := InBody(b, srcs, source, old(At()), old(Now()));
        Emitted([Mark(NextMark)] + ScriptCode(r.0, |old(bc.ops)| + 1, true) + [Pop, Jump(conditionPc)], r.1)
      decreases b, 1
    {
      hide InBody, ScriptCode, Inlinable;
      Emit(Mark(NextMark), line);
      inNext := true;
      CompileBodyInline(b, srcs, line);
      inNext := false;
      Emit(Pop, line);
      Emit(Jump(conditionPc), line);
    }

    /** Unlike the other loops, a foreach keeps the flag for `continue`. */
    method CompileForeach(f: Shape, srcs: seq<Span>, line: nat)
      requires Valid() && f.ForeachOf? && InPlace(f, srcs, source, At())
      modifies this, bc
      ensures var r := FormOf(f, srcs, source, old(At()), old(Now()));
        Emitted(FormCode(r.0, |old(bc.ops)|, old(inNext)), r.1)
      decreases f, 2
    {
      hide SpannedAll, InBody, WordsCode, ScriptCode, EachCode, Inlinable;
      var infoIdx := |infos|;
      infos := infos + [f.info];
      CompileWords(f.data, srcs, line);
      CompileIteration(f, infoIdx, srcs, line);
    }

    /** A foreach after its lists. */
    method CompileIteration(f: Shape, infoIdx: nat, srcs: seq<Span>, line: nat)
      requires Valid() && f.ForeachOf? && InPlace(f, srcs, source, At())
      modifies this, bc
      ensures var b := InBody(f.body, srcs, source, old(At()), old(Now()));
        Emitted(EachCode(infoIdx, f.info, ScriptCode(b.0, |old(bc.ops)| + 2, old(inNext)), |old(bc.ops)|), b.1)
      decreases f, 1
    {
      hide InBody, ScriptCode, EachCode, EachDraft, Inlinable;
      ghost var b := ScriptCode(InBody(f.body, srcs, source, At(), Now()).0, |bc.ops| + 2, inNext);
      EachPatched(bc.ops, infoIdx, f.info, b);
      var startIdx, jumpIdx := CompileOpenIteration(f, infoIdx, srcs, line);
      bc.PatchJump(jumpIdx, jumpIdx + 1);
      bc.PatchForeachStart(startIdx, jumpIdx + 1, jumpIdx + 2);
    }

    method CompileOpenIteration(f: Shape, infoIdx: nat, srcs: seq<Span>, line: nat)
      returns (startIdx: nat, jumpIdx: nat)
      requires Valid() && f.ForeachOf? && InPlace(f, srcs, source, At())
      modifies this, bc
      ensures var b := InBody(f.body, srcs, source, old(At()), old(Now()));
        var body := ScriptCode(b.0, |old(bc.ops)| + 2, old(inNext));
        && Valid() && Steady() && Now() == b.1 && bc.ops == EachDraft(old(bc.ops), infoIdx, f.info, body)
        && startIdx == |old(bc.ops)| && jumpIdx == startIdx + |body| + 3
      decreases f, 0
    {
      hide InBody, ScriptCode, Inlinable;
      startIdx := bc.Emit(Loop(ForeachStart(infoIdx, 0, 0)), line);
      Emit(Mark(if f.info.framed then BodyMarkFramed else BodyMark), line);
      CompileBodyInline(f.body, srcs, line);
      jumpIdx := CompileTail(f, infoIdx, startIdx + 1, line);
    }

    /** Collect or drop the result, and go on. */
    method CompileTail(f: Shape, infoIdx: nat, bodyPc: nat, line: nat) returns (jumpIdx: nat)
      requires Valid() && f.ForeachOf?
      modifies bc
      ensures Valid() && old(bc.lineMap) <= bc.lineMap && jumpIdx == |old(bc.ops)| + 1
      ensures bc.ops == old(bc.ops) + [if f.info.lmap then Loop(ForeachCollect) else Pop] + [Jump(0)]
        + [Loop(ForeachNext(infoIdx, bodyPc))] + [Loop(ForeachEnd)]
    {
      Emit(if f.info.lmap then Loop(ForeachCollect) else Pop, line);
      jumpIdx := bc.Emit(Jump(0), line);
      Emit(Loop(ForeachNext(infoIdx, bodyPc)), line);
      Emit(Loop(ForeachEnd), line);
    }

    /** Emit speculatively; on failure take back the instructions and sites. */
    method CompileExprWord(k: Cond, srcs: seq<Span>, line: nat)
      requires Valid()
      modifies this, bc
      ensures var r := CondOf(k, srcs, source, old(At()), old(Now()));
        Emitted(TestCode(r.0, |old(bc.ops)|, old(inNext)), r.1)
      decreases k, 0
    {
      hide Scanned, Parse, Spanned, ExprCode, ExprOfTree, Eligible, TokensOf, Compilable;
      match k {
        case Dynamic(w) =>
          CompileWordSpanned(w, srcs, line);
          Emit(EvalExpr, line);
        case Written(word, text, lit, lexed) =>
          var braced := Verbatim(source, Here(), srcs, word, '{', '}', text);
          var opsMark, sitesMark := |bc.ops|, |sites|;
          var compiled := TryCompileExpr(lexed, braced, Inside(spanBase, srcs, word), line);
          if compiled { return; }
          bc.TruncateOps(opsMark);
          sites, origins := sites[..sitesMark], origins[..|old(origins)|];
          assert bc.ops == old(bc.ops) && bc.lineMap == old(bc.lineMap) && sites == old(sites);
          Emit(Push(lit), line);
          Emit(EvalExpr, line);
      }
    }

    method TryCompileExpr(lexed: Lexed, braced: bool, exprBase: nat, line: nat) returns (compiled: bool)
      requires Valid()
      modifies this, bc
      ensures Valid() && Steady() && old(bc.ops) <= bc.ops
      ensures
        if lexed.Refused? || !Eligible(TokensOf(lexed.ls)) then !compiled && Now() == old(Now())
        else
          var p := Parse(TokensOf(lexed.ls), Compilable(lexed.ls, braced), 0, 0);
          var r := Scanned(lexed.ls, braced, p.next, source, Place(exprBase, old(lineBase), old(countedFrom)),
              old(Now()));
          && compiled == (p.Good? && p.next == |lexed.ls|) && Now() == r.1
          && (compiled ==> bc.ops == old(bc.ops) + ExprCode(ExprOfTree(p.t, r.0), |old(bc.ops)|, inNext))
      decreases lexed
    {
      if lexed.Refused? { return false; }
      var tokens := TokensOf(lexed.ls);
      var suited := Suited(tokens);
      if !suited { return false; }
      var parser := new ExprCodegen(this, lexed.ls, braced, exprBase, line);
      var ok := parser.ParseLevel(0);
      compiled := ok && parser.pos == |tokens|;
    }

    /** A bracketed operand, between the marks of an expression region. */
    method EmitSub(l: Lex, braced: bool, exprBase: nat, line: nat) returns (ok: bool)
      requires Valid() && l.Brackets?
      modifies this, bc
      ensures var r := OfLex(l, braced, source, Place(exprBase, old(lineBase), old(countedFrom)), old(Now()));
        && ok == (braced && l.script.Parsed?)
        && Emitted(if ok then [Mark(ExprMark)] + ScriptCode(r.0, |old(bc.ops)| + 1, old(inNext)) + [SubEnd] else [],
            r.1)
      decreases l
    {
      if !braced || l.script.Unparsed? { return false; }
      var saved := spanBase;
      spanBase := exprBase + l.off;
      CompileRegion(ExprMark, l.script.cmds, line);
      spanBase := saved;
      ok := true;
    }
  }

  /** The number of line ends before `off`. */
  method CountLines(src: string, off: nat) returns (n: nat)
    ensures n == NewLines(src, off)
  {
    n := 0;
    var end := if off < |src| then off else |src|;
    for i := 0 to end
      invariant n == NewLines(src, i)
    {
      if src[i] == '\n' { n := n + 1; }
    }
  }

  method Suited(ts: seq<Token>) returns (b: bool)
    ensures b == Eligible(ts)
  {
    var numeric, textual := false, false;
    for i := 0 to |ts|
      invariant numeric == exists k :: 0 <= k < i && Numeric(ts[k])
      invariant textual == exists k :: 0 <= k < i && Textual(ts[k])
    {
      numeric, textual := numeric || Numeric(ts[i]), textual || Textual(ts[i]);
    }
    b := |ts| > 1 && !(numeric && textual);
  }

  class ExprCodegen {
    const sink: Compiler
    const lexes: seq<Lex>
    const braced: bool
    const exprBase: nat
    const line: nat
    var pos: nat
    ghost const home: Place
    ghost const start: Tables

    ghost function Scripts(n: nat): (seq<Syntax.Script>, Tables)
      requires n <= |lexes|
    {
      Scanned(lexes, braced, n, sink.source, home, start)
    }

    ghost function Reading(i: nat, lvl: nat): Parsed
      requires i <= |lexes| && lvl <= PRIMARY
    {
      Parse(TokensOf(lexes), Compilable(lexes, braced), i, lvl)
    }

    ghost function CodeOf(t: Tree, at: nat,
            next: bool): seq<OpCode> { ExprCode(ExprOfTree(t, Scripts(|lexes|).0), at, next) }

    /** The tables hold what the tokens read so far have recorded. */
    ghost predicate Valid()
      reads this, sink, sink.bc
    {
      && sink.Valid() && pos <= |lexes| && home == Place(exprBase, sink.lineBase, sink.countedFrom)
      && sink.Now() == Scripts(pos).1
    }

    constructor (c: Compiler, ls: seq<Lex>, isBraced: bool, base: nat, at: nat)
      requires c.Valid()
      ensures Valid() && sink == c && lexes == ls && braced == isBraced && exprBase == base && pos == 0
      ensures home == Place(base, c.lineBase, c.countedFrom) && start == c.Now()
    {
      sink, lexes, braced, exprBase, line, pos := c, ls, isBraced, base, at, 0;
      home, start := Place(base, c.lineBase, c.countedFrom), c.Now();
    }

    /** The tokens of `p` have been read, and its code emitted if it has any. */
    twostate predicate Followed(p: Parsed, ok: bool)
      reads this, sink, sink.bc
    {
      && Valid() && sink.Steady() && old(sink.bc.ops) <= sink.bc.ops && pos == p.next && ok == p.Good?
      && (ok ==> sink.bc.ops == old(sink.bc.ops) + CodeOf(p.t, |old(sink.bc.ops)|, sink.inNext))
    }

    /** Read at level `lvl`, emitting operands before operators. */
    method ParseLevel(lvl: nat) returns (ok: bool)
      requires Valid() && lvl <= PRIMARY
      modifies this`pos, sink, sink.bc
      ensures Followed(Reading(old(pos), lvl), ok)
      decreases lexes, |lexes| - pos, PRIMARY - lvl, 2
    {
      if lvl == PRIMARY {
        ok := ParsePrimary();
      } else if lvl == UNARY {
        ok := ParseUnary();
      } else if lvl == POWER {
        ok := ParsePower();
      } else {
        ok := ParseBinary(lvl);
      }
    }

    method ParseBinary(lvl: nat) returns (ok: bool)
      requires Valid() && lvl < POWER
      modifies this`pos, sink, sink.bc
      ensures Followed(Reading(old(pos), lvl), ok)
      decreases lexes, |lexes| - pos, PRIMARY - lvl, 0
    {
      hide Parse, ExprOfTree, ExprCode, Level, Scanned, TokensOf, Compilable;
      ghost var ts, can := TokensOf(lexes), Compilable(lexes, braced);
      ghost var p := Reading(pos, lvl);
      ghost var left := Reading(pos, lvl + 1);
      BinaryStep(ts, can, pos, lvl);
      ok := ParseLevel(lvl + 1);
      if !ok { return; }
      ghost var tree := left.t;
      while pos < |lexes| && lexes[pos].Tok? && lexes[pos].t.Sym? && Level(lexes[pos].t.op) == lvl
        invariant Valid() && sink.Steady() && old(pos) < pos && ok
        invariant ParseRest(ts, can, tree, pos, lvl) == p
        invariant sink.bc.ops == old(sink.bc.ops) + CodeOf(tree, |old(sink.bc.ops)|, sink.inNext)
        decreases |lexes| - pos
      {
        var op := lexes[pos].t.op;
        TokenNow();
        ghost var right := Reading(pos + 1, lvl + 1);
        ok := ParseMore(op, lvl + 1, old(sink.bc.ops), tree);
        if !ok { return; }
        tree := Binary(op, tree, right.t);
      }
      TokenNow();
    }

    /** An operator, its right operand, and the instruction of the operator. */
    method ParseRight(op: BinOp, lvl: nat) returns (ok: bool)
      requires Valid() && lvl <= POWER && pos < |lexes| && lexes[pos] == Tok(Sym(op))
      modifies this`pos, sink, sink.bc
      ensures var p := Reading(old(pos) + 1, lvl);
        && Valid() && sink.Steady() && old(sink.bc.ops) <= sink.bc.ops && pos == p.next && ok == p.Good?
        && (ok ==> sink.bc.ops == old(sink.bc.ops) + CodeOf(p.t, |old(sink.bc.ops)|, sink.inNext) + [Bin(op)])
      decreases lexes, |lexes| - pos, 0
    {
      hide Parse, ExprOfTree, ExprCode, Scanned, TokensOf, Compilable;
      Skip();
      ok := ParseLevel(lvl);
      if ok { sink.Emit(Bin(op), line); }
    }

    /** The right operand of an operator whose left operand is in place. */
    method ParseMore(op: BinOp, lvl: nat, ghost pre: seq<OpCode>, ghost left: Tree) returns (ok: bool)
      requires Valid() && lvl <= POWER && pos < |lexes| && lexes[pos] == Tok(Sym(op))
      requires sink.bc.ops == pre + CodeOf(left, |pre|, sink.inNext)
      modifies this`pos, sink, sink.bc
      ensures var p := Reading(old(pos) + 1, lvl);
        && Valid() && sink.Steady() && old(sink.bc.ops) <= sink.bc.ops && pos == p.next && ok == p.Good?
        && (ok ==> sink.bc.ops == pre + CodeOf(Binary(op, left, p.t), |pre|, sink.inNext))
      decreases lexes, |lexes| - pos, 1
    {
      hide Parse, ExprOfTree, ExprCode, Scanned, TokensOf, Compilable;
      ghost var right := Reading(pos + 1, lvl);
      ok := ParseRight(op, lvl);
      if ok { CodeJoins(op, left, right.t, |pre|, sink.inNext); }
    }

    lemma TokenNow()
      requires Valid()
      ensures pos < |lexes| ==> TokensOf(lexes)[pos] == if lexes[pos].Tok? then lexes[pos].t else Cmd(pos)
    {
    }

    /** Operands first, then the operator. */
    lemma CodeJoins(op: BinOp, l: Tree, r: Tree, at: nat, next: bool)
      ensures CodeOf(Binary(op, l, r), at, next) == CodeOf(l, at, next) + CodeOf(r, at + |CodeOf(l, at, next)|, next)
          + [Bin(op)]
    {
    }

    /** Move past a token that is not a bracket. */
    method Skip()
      requires Valid() && pos < |lexes| && lexes[pos].Tok?
      modifies this`pos
      ensures Valid() && pos == old(pos) + 1
    {
      ScannedStep(lexes, braced, pos, sink.source, home, start);
      pos := pos + 1;
    }

    method ParsePower() returns (ok: bool)
      requires Valid()
      modifies this`pos, sink, sink.bc
      ensures Followed(Reading(old(pos), POWER), ok)
      decreases lexes, |lexes| - pos, PRIMARY - POWER, 0
    {
      hide Parse, ExprOfTree, ExprCode, Level, Scanned, TokensOf, Compilable;
      ghost var ts, can := TokensOf(lexes), Compilable(lexes, braced);
      ghost var left := Reading(pos, UNARY);
      PowerStep(ts, can, pos);
      ok := ParseLevel(UNARY);
      TokenNow();
      if ok && pos < |lexes| && lexes[pos].Tok? && lexes[pos].t == Sym(Pow) {
        ghost var right := Reading(pos + 1, POWER);
        ok := ParseRight(Pow, POWER);
        if ok {
          CodeJoins(Pow, left.t, right.t, |old(sink.bc.ops)|, sink.inNext);
          assert Reading(old(pos), POWER) == Good(Binary(Pow, left.t, right.t), pos);
          assert sink.bc.ops == old(sink.bc.ops) + CodeOf(Binary(Pow, left.t, right.t), |old(sink.bc.ops)|,
              sink.inNext);
          assert Valid() && sink.Steady() && old(sink.bc.ops) <= sink.bc.ops;
        } else {
          assert Reading(old(pos), POWER) == right && Valid() && sink.Steady() && old(sink.bc.ops) <= sink.bc.ops;
        }
      } else {
        assert Reading(old(pos), POWER) == left && Valid() && sink.Steady();
      }
    }

    method ParseUnary() returns (ok: bool)
      requires Valid()
      modifies this`pos, sink, sink.bc
      ensures Followed(Reading(old(pos), UNARY), ok)
      decreases lexes, |lexes| - pos, PRIMARY - UNARY, 0
    {
      hide Exec, Parse, Scanned, TokensOf, Compilable;
      ghost var ts, can := TokensOf(lexes), Compilable(lexes, braced);
      UnaryStep(ts, can, pos);
      TokenNow();
      if pos < |lexes| && lexes[pos].Tok? && Signed(lexes[pos].t).Some? {
        var un := Signed(lexes[pos].t).value;
        Skip();
        ok := ParseLevel(UNARY);
        if ok { sink.Emit(Un(un), line); }
      } else if pos < |lexes| && lexes[pos].Tok? && lexes[pos].t == Sym(Add) {
        Skip();
        ok := false;
      } else {
        ok := ParseLevel(PRIMARY);
      }
    }

    method ParsePrimary() returns (ok: bool)
      requires Valid()
      modifies this`pos, sink, sink.bc
      ensures Followed(Reading(old(pos), PRIMARY), ok)
      decreases lexes, |lexes| - pos, PRIMARY - PRIMARY, 1
    {
      hide Parse, Scanned, TokensOf, Compilable;
      ghost var ts, can := TokensOf(lexes), Compilable(lexes, braced);
      PrimaryStep(ts, can, pos);
      TokenNow();
      if pos == |lexes| { return false; }
      var l := lexes[pos];
      if l.Brackets? {
        ok := ParseBrackets(l);
      } else {
        Skip();
        match l.t {
          case Num(lit) =>
            sink.Emit(Push(lit), line);
            ok := true;
          case Ref(x) =>
            sink.Emit(Load(x), line);
            ok := true;
          case Open =>
            ok := ParseLevel(0);
            TokenNow();
            if ok {
              if pos < |lexes| && lexes[pos].Tok? && lexes[pos].t == Close { Skip(); } else { ok := false; }
            }
          case _ => ok := false;
        }
      }
    }

    /** A bracketed operand is compiled by the compiler itself. */
    method ParseBrackets(l: Lex) returns (ok: bool)
      requires Valid() && pos < |lexes| && lexes[pos] == l && l.Brackets?
      modifies this`pos, sink, sink.bc
      ensures ok == Compilable(lexes, braced)(old(pos))
      ensures Followed(if ok then Good(Inner(old(pos)), old(pos) + 1) else Bad(old(pos) + 1), ok)
      decreases lexes, |lexes| - pos, PRIMARY - PRIMARY, 0
    {
      hide Parse;
      ScannedPrefix(lexes, braced, pos + 1, |lexes|, sink.source, home, start);
      assert Scripts(|lexes|).0[pos] == Scripts(pos + 1).0[pos];
      ok := sink.EmitSub(l, braced, exprBase, line);
      pos := pos + 1;
    }
  }

  // ── the recursive descent, one step ──

  lemma BinaryStep(ts: seq<Token>, can: nat -> bool, i: nat, lvl: nat)
    requires i <= |ts| && lvl < POWER
    ensures var l := Parse(ts, can, i, lvl + 1);
        Parse(ts, can, i, lvl) == if l.Bad? then l else ParseRest(ts, can, l.t, l.next, lvl)
  {
  }

  lemma PowerStep(ts: seq<Token>, can: nat -> bool, i: nat)
    requires i <= |ts|
    ensures var l := Parse(ts, can, i, UNARY); Parse(ts, can, i, POWER) == if l.Bad? then l
        else ParsePower(ts, can, l.t, l.next)
  {
  }

  lemma UnaryStep(ts: seq<Token>, can: nat -> bool, i: nat)
    requires i <= |ts|
    ensures Parse(ts, can, i, UNARY) == ParseUnary(ts, can, i)
  {
  }

  lemma PrimaryStep(ts: seq<Token>, can: nat -> bool, i: nat)
    requires i <= |ts|
    ensures Parse(ts, can, i, PRIMARY) == ParsePrimary(ts, can, i)
  {
  }
}

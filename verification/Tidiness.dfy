/** The shape of compiled units: every target stays in the unit and is kept
    out of the optimiser's windows, by what stands there or just before. */
module Tidiness {
  import opened Opcodes
  import opened Arith
  import opened Machine
  import opened Discipline
  import opened Syntax
  import opened Codegen
  import opened Places
  import opened Fitting

  predicate Safe(ops: seq<OpCode>, t: nat) {
    t <= |ops| && ((t < |ops| && Landing(ops[t])) || (0 < t && Barrier(ops[t - 1])))
  }

  ghost predicate OpTidy(u: Code, op: OpCode) {
    && !op.Nop? && !op.Super?
    && (op.Push? ==> LitFits(op.lit))
    && (forall t: nat | Targets(op, t) :: Safe(u.ops, t))
    && (IsNext(op) ==>
          && op.l.info < |u.infos| && op.l.body < |u.ops|
          && u.ops[op.l.body] == BodyMarkFor(u.infos[op.l.info].framed))
  }

  ghost predicate Tidy(u: Code, a: int, b: int) { b <= |u.ops| && forall j: nat | a <= j < b :: OpTidy(u, u.ops[j]) }

  lemma TidyJoin(u: Code, a: nat, b: nat, c: nat)
    requires Tidy(u, a, b) && Tidy(u, b, c)
    ensures Tidy(u, a, c)
  {
    hide OpTidy;
  }

  /** Instructions that lead nowhere. */
  predicate Leads(op: OpCode) { op.Jump? || op.JumpIf? || op.CatchStart? || op.Loop? || op.Super? }

  lemma PlainTidy(u: Code, at: nat)
    requires at < |u.ops| && !Leads(u.ops[at]) && !u.ops[at].Nop? && (u.ops[at].Push? ==> LitFits(u.ops[at].lit))
    ensures Tidy(u, at, at + 1)
  {
  }

  lemma StillTidy(u: Code, at: nat)
    requires at < |u.ops| && u.ops[at].Loop?
    requires u.ops[at].l in {LoopExit, LoopOp.Break, LoopOp.Continue, ForeachCollect, ForeachEnd}
    ensures Tidy(u, at, at + 1)
  {
  }

  lemma JumpTidy(u: Code, at: nat, t: nat)
    requires at < |u.ops| && Safe(u.ops, t)
    requires u.ops[at] == Jump(t) || (u.ops[at].JumpIf? && u.ops[at].t == t)
    ensures Tidy(u, at, at + 1)
  {
  }

  lemma SafeAt(u: Code, t: nat)
    requires t < |u.ops| && Landing(u.ops[t])
    ensures Safe(u.ops, t)
  {
  }

  lemma SafeAfter(u: Code, t: nat)
    requires 0 < t <= |u.ops| && Barrier(u.ops[t - 1])
    ensures Safe(u.ops, t)
  {
  }

  // ── words ──

  lemma {:induction false} ScriptTidy(u: Code, next: bool, s: Script, at: nat)
    requires ShapedScript(u.infos, s) && Placed(u, at, ScriptCode(s, at, next))
    ensures Tidy(u, at, at + |ScriptCode(s, at, next)|)
    decreases s, 1
  {
    hide CmdsCode, OpTidy;
    if s.Done? {
      PlacedAt(u, at, [Push(Empty)], 0);
      PlainTidy(u, at);
    } else {
      CmdsTidy(u, next, s, at);
    }
  }

  lemma {:induction false} CmdTidy(u: Code, next: bool, c: Cmd, at: nat)
    requires ShapedForm(u.infos, c.form) && Placed(u, at, CmdCode(c, at, next))
    ensures Tidy(u, at, at + |CmdCode(c, at, next)|)
    decreases c, 2
  {
    hide OpTidy, FormCode, ShapedForm, Placed, Tidy;
    var code := FormCode(c.form, at + 1, next);
    PlacedSplit(u, at, [BeginCmd(c.site)], code);
    PlacedAt(u, at, [BeginCmd(c.site)], 0);
    PlainTidy(u, at);
    FormTidy(u, next, c.form, at + 1);
    TidyJoin(u, at, at + 1, at + 1 + |code|);
  }

  lemma {:induction false} CmdsTidy(u: Code, next: bool, s: Script, at: nat)
    requires s.Then? && ShapedScript(u.infos, s) && Placed(u, at, CmdsCode(s, at, next))
    ensures Tidy(u, at, at + |CmdsCode(s, at, next)|)
    decreases s, 0
  {
    hide OpTidy, CmdCode, ShapedForm, Placed, Tidy;
    var first := CmdCode(s.cmd, at, next);
    var mid := at + |first|;
    if s.rest.Done? {
      CmdTidy(u, next, s.cmd, at);
    } else {
      var rest := CmdsCode(s.rest, mid + 1, next);
      PlacedSplit(u, at, first + [Pop], rest);
      PlacedSplit(u, at, first, [Pop]);
      PlacedAt(u, mid, [Pop], 0);
      CmdTidy(u, next, s.cmd, at);
      PlainTidy(u, mid);
      CmdsTidy(u, next, s.rest, mid + 1);
      TidyJoin(u, at, mid, mid + 1);
      TidyJoin(u, at, mid + 1, mid + 1 + |rest|);
    }
  }

  /** A script between two instructions that lead nowhere. */
  lemma {:induction false} BracketTidy(u: Code, next: bool, s: Script, m: MarkOp, at: nat)
    requires ShapedScript(u.infos, s) && Placed(u, at, [Mark(m)] + ScriptCode(s, at + 1, next) + [SubEnd])
    ensures Tidy(u, at, at + |ScriptCode(s, at + 1, next)| + 2)
    decreases s, 2
  {
    hide OpTidy, ScriptCode, ShapedScript, Placed;
    var code := ScriptCode(s, at + 1, next);
    PlacedSplit(u, at, [Mark(m)] + code, [SubEnd]);
    PlacedSplit(u, at, [Mark(m)], code);
    PlacedAt(u, at, [Mark(m)], 0);
    PlacedAt(u, at + 1 + |code|, [SubEnd], 0);
    PlainTidy(u, at);
    ScriptTidy(u, next, s, at + 1);
    PlainTidy(u, at + 1 + |code|);
    TidyJoin(u, at, at + 1, at + 1 + |code|);
    TidyJoin(u, at, at + 1 + |code|, at + 2 + |code|);
  }

  lemma {:induction false} WordTidy(u: Code, next: bool, x: Word, at: nat)
    requires ShapedWord(u.infos, x) && Placed(u, at, WordCode(x, at, next))
    ensures Tidy(u, at, at + |WordCode(x, at, next)|)
    decreases x, 3
  {
    hide Exec, OpTidy, ScriptCode, WordsCode, ShapedScript, ShapedWords, Tidy, Placed;
    match x
    case Text(lit) => PlacedAt(u, at, [Push(lit)], 0); PlainTidy(u, at);
    case Var(l) => PlacedAt(u, at, [Load(l)], 0); PlainTidy(u, at);
    case Eval(lit) =>
      PlacedAt(u, at, [Push(lit), EvalScript], 0);
      PlacedAt(u, at, [Push(lit), EvalScript], 1);
      PlainTidy(u, at);
      PlainTidy(u, at + 1);
      TidyJoin(u, at, at + 1, at + 2);
    case Sugar(lit) =>
      PlacedAt(u, at, [Push(lit), EvalExpr], 0);
      PlacedAt(u, at, [Push(lit), EvalExpr], 1);
      PlainTidy(u, at);
      PlainTidy(u, at + 1);
      TidyJoin(u, at, at + 1, at + 2);
    case Cat(parts) =>
      var code := WordsCode(parts, at, next);
      PlacedSplit(u, at, code, [Concat(Count(parts))]);
      PlacedAt(u, at + |code|, [Concat(Count(parts))], 0);
      WordsTidy(u, next, parts, at);
      PlainTidy(u, at + |code|);
      TidyJoin(u, at, at + |code|, at + |code| + 1);
    case Bracket(s) => BracketTidy(u, next, s, SubMark, at);
  }

  lemma {:induction false} WordsTidy(u: Code, next: bool, ws: Words, at: nat)
    requires ShapedWords(u.infos, ws) && Placed(u, at, WordsCode(ws, at, next))
    ensures Tidy(u, at, at + |WordsCode(ws, at, next)|)
    decreases ws, 3
  {
    hide OpTidy, WordCode, ShapedWord;
    if ws.More? {
      var first := WordCode(ws.w, at, next);
      PlacedSplit(u, at, first, WordsCode(ws.rest, at + |first|, next));
      WordTidy(u, next, ws.w, at);
      WordsTidy(u, next, ws.rest, at + |first|);
      TidyJoin(u, at, at + |first|, at + |WordsCode(ws, at, next)|);
    }
  }

  lemma {:induction false} ExprTidy(u: Code, next: bool, e: Expr, at: nat)
    requires ShapedExpr(u.infos, e) && Placed(u, at, ExprCode(e, at, next))
    ensures Tidy(u, at, at + |ExprCode(e, at, next)|)
    decreases e, 3
  {
    hide OpTidy, ScriptCode, ShapedScript, Tidy, Placed;
    match e
    case Leaf(lit) => PlacedAt(u, at, [Push(lit)], 0); PlainTidy(u, at);
    case Read(x) => PlacedAt(u, at, [Load(x)], 0); PlainTidy(u, at);
    case Inner(s) => BracketTidy(u, next, s, ExprMark, at);
    case Binary(_, _, _) => BinaryTidy(u, next, e, at);
    case Unary(_, _) => UnaryTidy(u, next, e, at);
  }

  lemma {:induction false} BinaryTidy(u: Code, next: bool, e: Expr, at: nat)
    requires e.Binary? && ShapedExpr(u.infos, e) && Placed(u, at, ExprCode(e, at, next))
    ensures Tidy(u, at, at + |ExprCode(e, at, next)|)
    decreases e, 2
  {
    hide OpTidy, Tidy, Placed;
    var a := ExprCode(e.l, at, next);
    var b := ExprCode(e.r, at + |a|, next);
    BinaryPlaced(u, at, a, b, e.op);
    ExprTidy(u, next, e.l, at);
    ExprTidy(u, next, e.r, at + |a|);
    PlainTidy(u, at + |a| + |b|);
    TidyJoin(u, at, at + |a|, at + |a| + |b|);
    TidyJoin(u, at, at + |a| + |b|, at + |a| + |b| + 1);
  }

  lemma {:induction false} UnaryTidy(u: Code, next: bool, e: Expr, at: nat)
    requires e.Unary? && ShapedExpr(u.infos, e) && Placed(u, at, ExprCode(e, at, next))
    ensures Tidy(u, at, at + |ExprCode(e, at, next)|)
    decreases e, 2
  {
    hide OpTidy, Tidy, Placed;
    var a := ExprCode(e.e, at, next);
    PlacedSplit(u, at, a, [Un(e.un)]);
    PlacedAt(u, at + |a|, [Un(e.un)], 0);
    ExprTidy(u, next, e.e, at);
    PlainTidy(u, at + |a|);
    TidyJoin(u, at, at + |a|, at + |a| + 1);
  }

  lemma {:induction false} TestTidy(u: Code, next: bool, t: Test, at: nat)
    requires ShapedTest(u.infos, t) && Placed(u, at, TestCode(t, at, next))
    ensures Tidy(u, at, at + |TestCode(t, at, next)|)
    decreases t, 4
  {
    hide OpTidy, ExprCode, WordCode, ShapedExpr, ShapedWord, Tidy, Placed;
    match t
    case Inline(e) => ExprTidy(u, next, e, at);
    case Late(x) =>
      var code := WordCode(x, at, next);
      PlacedSplit(u, at, code, [EvalExpr]);
      PlacedAt(u, at + |code|, [EvalExpr], 0);
      WordTidy(u, next, x, at);
      PlainTidy(u, at + |code|);
      TidyJoin(u, at, at + |code|, at + |code| + 1);
  }

  // ── control ──

  lemma LastArm(a: Arms, at: nat, next: bool)
    ensures var c := ArmsCode(a, at, next); Barrier(c[|c| - 1])
    decreases a
  {
    hide TestCode, ScriptCode;
    if a.Arm? {
      var test := TestCode(a.test, at, next);
      var b := ScriptCode(a.body, at + |test| + 1, next);
      LastArm(a.rest, at + |test| + |b| + 2, next);
    }
  }

  /** One arm and what follows it; everything in it meets at its end. */
  lemma ArmTidy(u: Code, test: seq<OpCode>, body: seq<OpCode>, rest: seq<OpCode>, at: nat)
    requires Placed(u, at, ArmCode(test, body, rest, at)) && rest != [] && Barrier(rest[|rest| - 1])
    requires Tidy(u, at, at + |test|) && Tidy(u, at + |test| + 1, at + |test| + |body| + 1)
    requires var here := at + |test| + |body| + 2; Tidy(u, here, here + |rest|)
    ensures Tidy(u, at, at + |ArmCode(test, body, rest, at)|)
  {
    hide Exec, OpTidy, Safe, Placed, ArmCode, Tidy, Barrier;
    var here := at + |test| + |body| + 2;
    var end := here + |rest|;
    ArmSize(test, body, rest, at);
    ArmPlaced(u, at, test, body, rest);
    PlacedSplit(u, at, test, [JumpIf(false, here)]);
    PlacedAt(u, at + |test|, [JumpIf(false, here)], 0);
    PlacedAt(u, here, rest, |rest| - 1);
    JumpIsBarrier(end);
    SafeAfter(u, here);
    SafeAfter(u, end);
    JumpTidy(u, at + |test|, here);
    JumpTidy(u, here - 1, end);
    TidyJoin(u, at, at + |test|, at + |test| + 1);
    TidyJoin(u, at, at + |test| + 1, here - 1);
    TidyJoin(u, at, here - 1, here);
    TidyJoin(u, at, here, end);
  }

  lemma JumpIsBarrier(t: nat)
    ensures Barrier(Jump(t))
  {
  }

  lemma {:induction false} ElseTidy(u: Code, next: bool, body: Script, at: nat)
    requires ShapedScript(u.infos, body) && Placed(u, at, ArmsCode(Else(body), at, next))
    ensures Tidy(u, at, at + |ArmsCode(Else(body), at, next)|)
    decreases body, 4
  {
    hide OpTidy, ScriptCode, ShapedScript, Safe, Placed, Tidy, Barrier;
    var b := ScriptCode(body, at + 1, next);
    var end := at + |b| + 2;
    PlacedSplit(u, at, [Mark(BodyMark)] + b, [Jump(end)]);
    PlacedSplit(u, at, [Mark(BodyMark)], b);
    PlacedAt(u, at, [Mark(BodyMark)], 0);
    PlacedAt(u, end - 1, [Jump(end)], 0);
    PlainTidy(u, at);
    ScriptTidy(u, next, body, at + 1);
    JumpIsBarrier(end);
    SafeAfter(u, end);
    JumpTidy(u, end - 1, end);
    TidyJoin(u, at, at + 1, end - 1);
    TidyJoin(u, at, end - 1, end);
  }

  lemma {:induction false} ArmsTidy(u: Code, next: bool, a: Arms, at: nat)
    requires ShapedArms(u.infos, a) && Placed(u, at, ArmsCode(a, at, next))
    ensures Tidy(u, at, at + |ArmsCode(a, at, next)|)
    decreases a, 5
  {
    hide Exec, OpTidy, TestCode, ScriptCode, ShapedTest, ShapedScript, Safe, Placed, ArmCode, Tidy, Barrier;
    match a
    case NoElse => PlacedAt(u, at, [Push(Empty)], 0); PlainTidy(u, at);
    case Else(body) => ElseTidy(u, next, body, at);
    case Arm(t, body, rest) =>
      var test := TestCode(t, at, next);
      var b := ScriptCode(body, at + |test| + 1, next);
      var here := at + |test| + |b| + 2;
      var code := ArmsCode(rest, here, next);
      ArmPlaced(u, at, test, b, code);
      PlacedSplit(u, at, test, [JumpIf(false, here)]);
      TestTidy(u, next, t, at);
      ScriptTidy(u, next, body, at + |test| + 1);
      ArmsTidy(u, next, rest, here);
      LastArm(rest, here, next);
      ArmTidy(u, test, b, code, at);
  }

  /** A loop's entry, test and body: passes go on at `cont`, breaks to `brk`. */
  lemma HeadTidy(u: Code, at: nat, test: seq<OpCode>, body: seq<OpCode>, cont: nat, brk: nat)
    requires Placed(u, at, LoopHead(test, body, cont, brk)) && Safe(u.ops, cont) && Safe(u.ops, brk)
    requires Tidy(u, at + 1, at + 1 + |test|) && Tidy(u, at + |test| + 2, at + |test| + |body| + 2)
    ensures Tidy(u, at, at + |LoopHead(test, body, cont, brk)|)
  {
    hide OpTidy, Safe, Placed, LoopHead, Tidy;
    var mid := at + 1 + |test|;
    var end := mid + |body| + 1;
    HeadSize(test, body, cont, brk);
    HeadPlaced(u, at, test, body, cont, brk);
    PlacedSplit(u, at + 1, test, [JumpIf(false, brk)]);
    PlacedAt(u, mid, [JumpIf(false, brk)], 0);
    EnterTidy(u, at, cont, brk);
    JumpTidy(u, mid, brk);
    PlainTidy(u, end);
    JumpTidy(u, end + 1, cont);
    TidyJoin(u, at, at + 1, mid);
    TidyJoin(u, at, mid, mid + 1);
    TidyJoin(u, at, mid + 1, end);
    TidyJoin(u, at, end, end + 1);
    TidyJoin(u, at, end + 1, end + 2);
  }

  lemma EnterTidy(u: Code, at: nat, cont: nat, brk: nat)
    requires at < |u.ops| && u.ops[at] == Loop(LoopEnter(cont, brk)) && Safe(u.ops, cont) && Safe(u.ops, brk)
    ensures Tidy(u, at, at + 1)
  {
  }

  lemma TailTidy(u: Code, end: nat)
    requires Placed(u, end, LoopTail())
    ensures Tidy(u, end, end + 2) && Safe(u.ops, end)
  {
    hide OpTidy;
    TailPlaced(u, end);
    StillTidy(u, end);
    PlainTidy(u, end + 1);
    TidyJoin(u, end, end + 1, end + 2);
    SafeAt(u, end);
  }

  lemma {:induction false} WhileTidy(u: Code, next: bool, f: Form, at: nat)
    requires f.While? && ShapedForm(u.infos, f) && Placed(u, at, FormCode(f, at, next))
    ensures Tidy(u, at, at + |FormCode(f, at, next)|)
    decreases f, 5
  {
    hide OpTidy, TestCode, ScriptCode, ShapedTest, ShapedScript, Safe, Placed, LoopHead, LoopTail, Tidy;
    var test := TestCode(f.test, at + 1, false);
    var body := ScriptCode(f.body, at + |test| + 2, false);
    var end := at + |test| + |body| + 4;
    HeadSize(test, body, at + 1, end);
    PlacedSplit(u, at, LoopHead(test, body, at + 1, end), LoopTail());
    HeadPlaced(u, at, test, body, at + 1, end);
    PlacedSplit(u, at + 1, test, [JumpIf(false, end)]);
    TestTidy(u, false, f.test, at + 1);
    ScriptTidy(u, false, f.body, at + |test| + 2);
    TailTidy(u, end);
    SafeAfter(u, at + 1);
    HeadTidy(u, at, test, body, at + 1, end);
    TidyJoin(u, at, end, end + 2);
    TailSize();
  }

  lemma TailSize()
    ensures |LoopTail()| == 2
  {
  }

  lemma {:induction false} ForTidy(u: Code, next: bool, f: Form, at: nat)
    requires f.For? && ShapedForm(u.infos, f) && Placed(u, at, FormCode(f, at, next))
    ensures Tidy(u, at, at + |FormCode(f, at, next)|)
    decreases f, 5
  {
    hide Exec, OpTidy, TestCode, ScriptCode, ShapedTest, ShapedScript, Safe, Placed, ForCode, Tidy;
    var s := ScriptCode(f.start, at + 1, false);
    var enter := at + |s| + 3;
    var p := PlanFor(f, enter);
    ForSize(p.test, p.body, p.next, enter);
    ForSplit(u, at, s, ForCode(p.test, p.body, p.next, enter));
    BracketTidy(u, false, f.start, ExprMark, at);
    PlainTidy(u, enter - 1);
    LoopPartTidy(u, f, enter);
    TidyJoin(u, at, enter - 1, enter);
    TidyJoin(u, at, enter, p.end + 2);
  }

  lemma {:induction false} LoopPartTidy(u: Code, f: Form, enter: nat)
    requires f.For? && ShapedForm(u.infos, f) && var p := PlanFor(f, enter);
        Placed(u, enter, ForCode(p.test, p.body, p.next, enter))
    ensures Tidy(u, enter, PlanFor(f, enter).end + 2)
    decreases f, 4
  {
    hide OpTidy, TestCode, ScriptCode, ShapedTest, ShapedScript, Safe, Placed, ForCode, Tidy;
    var p := PlanFor(f, enter);
    ForPlaced(u, enter, p.test, p.body, p.next);
    PlacedSplit(u, enter + 1, p.test, [JumpIf(false, p.end)]);
    TestTidy(u, false, f.test, enter + 1);
    ScriptTidy(u, false, f.body, enter + |p.test| + 2);
    ScriptTidy(u, true, f.next, p.tail + 1);
    LoopTidy(u, enter, p);
  }

  lemma NextTidy(u: Code, tail: nat, next: seq<OpCode>, back: nat)
    requires Placed(u, tail, [Mark(NextMark)] + next + [Pop, Jump(back)]) && Safe(u.ops, back)
    requires Tidy(u, tail + 1, tail + 1 + |next|)
    ensures Tidy(u, tail, tail + |next| + 3) && Safe(u.ops, tail)
  {
    hide OpTidy, Safe, Placed, Tidy;
    var end := tail + |next| + 3;
    NextPlaced(u, tail, next, back);
    SafeAt(u, tail);
    PlainTidy(u, tail);
    PlainTidy(u, end - 2);
    JumpTidy(u, end - 1, back);
    TidyJoin(u, tail, tail + 1, end - 2);
    TidyJoin(u, tail, end - 2, end - 1);
    TidyJoin(u, tail, end - 1, end);
  }

  lemma LoopTidy(u: Code, at: nat, p: ForPlan)
    requires p.tail == at + |p.test| + |p.body| + 4 && p.end == p.tail + |p.next| + 3
    requires Placed(u, at, ForCode(p.test, p.body, p.next, at))
    requires Tidy(u, at + 1, at + 1 + |p.test|) && Tidy(u, at + |p.test| + 2, at + |p.test| + |p.body| + 2)
    requires Tidy(u, p.tail + 1, p.tail + 1 + |p.next|)
    ensures Tidy(u, at, p.end + 2)
  {
    hide OpTidy, Safe, Placed, LoopHead, LoopTail, Tidy;
    var head, mid := LoopHead(p.test, p.body, p.tail, p.end), [Mark(NextMark)] + p.next + [Pop, Jump(at + 1)];
    HeadSize(p.test, p.body, p.tail, p.end);
    PlacedSplit(u, at, head + mid, LoopTail());
    PlacedSplit(u, at, head, mid);
    HeadPlaced(u, at, p.test, p.body, p.tail, p.end);
    TailTidy(u, p.end);
    SafeAfter(u, at + 1);
    NextTidy(u, p.tail, p.next, at + 1);
    HeadTidy(u, at, p.test, p.body, p.tail, p.end);
    TidyJoin(u, at, p.tail, p.end);
    TidyJoin(u, at, p.end, p.end + 2);
  }

  lemma {:induction false} ForeachTidy(u: Code, next: bool, f: Form, at: nat)
    requires f.Foreach? && ShapedForm(u.infos, f) && Placed(u, at, FormCode(f, at, next))
    ensures Tidy(u, at, at + |FormCode(f, at, next)|)
    decreases f, 5
  {
    hide OpTidy, WordsCode, ScriptCode, ShapedWords, ShapedScript, Safe, Placed, EachCode, Tidy;
    var data := WordsCode(f.data, at, next);
    var enter := at + |data|;
    var body := ScriptCode(f.body, enter + 2, next);
    EachSize(f.info, f.shape, body, enter);
    PlacedSplit(u, at, data, EachCode(f.info, f.shape, body, enter));
    EachPlaced(u, enter, f.info, f.shape, body);
    WordsTidy(u, next, f.data, at);
    ScriptTidy(u, next, f.body, enter + 2);
    EachTidy(u, f.info, f.shape, body, enter);
    TidyJoin(u, at, enter, enter + |body| + 6);
  }

  lemma EachTidy(u: Code, info: nat, shape: ForeachInfo, body: seq<OpCode>, at: nat)
    requires Placed(u, at, EachCode(info, shape, body, at)) && info < |u.infos| && u.infos[info] == shape
    requires Tidy(u, at + 2, at + 2 + |body|)
    ensures Tidy(u, at, at + |body| + 6)
  {
    hide OpTidy, Safe, Placed, EachCode, Tidy;
    var tail := at + |body| + 4;
    EachPlaced(u, at, info, shape, body);
    SafeAt(u, tail);
    SafeAt(u, tail + 1);
    EachStartTidy(u, at, info, tail);
    PlainTidy(u, at + 1);
    if shape.lmap { StillTidy(u, tail - 2); } else { PlainTidy(u, tail - 2); }
    JumpTidy(u, tail - 1, tail);
    EachNextTidy(u, tail, info, shape, at + 1);
    StillTidy(u, tail + 1);
    TidyJoin(u, at, at + 1, at + 2);
    TidyJoin(u, at, at + 2, tail - 2);
    TidyJoin(u, at, tail - 2, tail - 1);
    TidyJoin(u, at, tail - 1, tail);
    TidyJoin(u, at, tail, tail + 1);
    TidyJoin(u, at, tail + 1, tail + 2);
  }

  lemma EachStartTidy(u: Code, at: nat, info: nat, tail: nat)
    requires at < |u.ops| && u.ops[at] == Loop(ForeachStart(info, tail, tail + 1)) && Safe(u.ops, tail)
        && Safe(u.ops, tail + 1)
    ensures Tidy(u, at, at + 1)
  {
  }

  lemma EachNextTidy(u: Code, at: nat, info: nat, shape: ForeachInfo, body: nat)
    requires at < |u.ops| && u.ops[at] == Loop(ForeachNext(info, body)) && info < |u.infos| && u.infos[info] == shape
    requires body < |u.ops| && u.ops[body] == BodyMarkFor(shape.framed)
    ensures Tidy(u, at, at + 1)
  {
    SafeAt(u, body);
  }

  lemma {:induction false} FormTidy(u: Code, next: bool, f: Form, at: nat)
    requires ShapedForm(u.infos, f) && Placed(u, at, FormCode(f, at, next))
    ensures Tidy(u, at, at + |FormCode(f, at, next)|)
    decreases f, 6
  {
    hide Exec, OpTidy, TestCode, ScriptCode, ArmsCode, WordCode, WordsCode, ShapedTest, ShapedScript, ShapedArms,
        ShapedWord, ShapedWords, Placed, Tidy,
         LoopHead, EachCode, ArmCode;
    match f
    case Set(x, y) => WordThenTidy(u, next, y, at, Store(x));
    case Get(x) => PlacedAt(u, at, [Load(x)], 0); PlainTidy(u, at);
    case Bump(x, k) => PlacedAt(u, at, [Incr(x, k)], 0); PlainTidy(u, at);
    case Extend(x, y) => WordThenTidy(u, next, y, at, Lappend(x));
    case Calc(t) => TestTidy(u, next, t, at);
    case If(t, body, rest) => IfTidy(u, next, f, at);
    case While(_, _) => WhileTidy(u, next, f, at);
    case For(_, _, _, _) => ForTidy(u, next, f, at);
    case Foreach(_, _, _, _) => ForeachTidy(u, next, f, at);
    case Leave => PlacedAt(u, at, [Loop(LoopOp.Break)], 0); StillTidy(u, at);
    case Again => AgainTidy(u, next, at);
    case Give(y) => WordThenTidy(u, next, y, at, Return);
    case Stop(code) => PlacedAt(u, at, [Exit(code)], 0); PlainTidy(u, at);
    case Run(dyn, id, ws) => CallTidy(u, next, ws, at, Call(dyn, id, Count(ws)));
  }

  lemma AgainTidy(u: Code, next: bool, at: nat)
    requires Placed(u, at, FormCode(Again, at, next))
    ensures Tidy(u, at, at + |FormCode(Again, at, next)|)
  {
    hide OpTidy, Placed, Tidy;
    if next {
      PlacedAt(u, at, [Loop(LoopExit), Loop(LoopOp.Continue)], 0);
      PlacedAt(u, at, [Loop(LoopExit), Loop(LoopOp.Continue)], 1);
      StillTidy(u, at);
      StillTidy(u, at + 1);
      TidyJoin(u, at, at + 1, at + 2);
    } else {
      PlacedAt(u, at, [Loop(LoopOp.Continue)], 0);
      StillTidy(u, at);
    }
  }

  lemma {:induction false} CallTidy(u: Code, next: bool, ws: Words, at: nat, call: OpCode)
    requires ShapedWords(u.infos, ws) && Placed(u, at, WordsCode(ws, at, next) + [call]) && call.Call?
    ensures Tidy(u, at, at + |WordsCode(ws, at, next)| + 1)
    decreases ws, 4
  {
    hide OpTidy, Placed, Tidy, WordsCode, ShapedWords;
    var code := WordsCode(ws, at, next);
    PlacedSplit(u, at, code, [call]);
    PlacedAt(u, at + |code|, [call], 0);
    WordsTidy(u, next, ws, at);
    PlainTidy(u, at + |code|);
    TidyJoin(u, at, at + |code|, at + |code| + 1);
  }

  lemma {:induction false} WordThenTidy(u: Code, next: bool, y: Word, at: nat, op: OpCode)
    requires ShapedWord(u.infos, y) && Placed(u, at, WordCode(y, at, next) + [op])
    requires op.Store? || op.Lappend? || op.Return?
    ensures Tidy(u, at, at + |WordCode(y, at, next)| + 1)
    decreases y, 4
  {
    hide OpTidy, WordCode, ShapedWord, Placed, Tidy;
    var code := WordCode(y, at, next);
    PlacedSplit(u, at, code, [op]);
    PlacedAt(u, at + |code|, [op], 0);
    WordTidy(u, next, y, at);
    PlainTidy(u, at + |code|);
    TidyJoin(u, at, at + |code|, at + |code| + 1);
  }

  lemma {:induction false} IfTidy(u: Code, next: bool, f: Form, at: nat)
    requires f.If? && ShapedForm(u.infos, f) && Placed(u, at, FormCode(f, at, next))
    ensures Tidy(u, at, at + |FormCode(f, at, next)|)
    decreases f, 5
  {
    hide Exec, OpTidy, TestCode, ScriptCode, ArmsCode, ShapedTest, ShapedScript, ShapedArms, Placed, ArmCode, Tidy,
        Barrier;
    var test := TestCode(f.test, at, next);
    var b := ScriptCode(f.body, at + |test| + 1, next);
    var here := at + |test| + |b| + 2;
    var code := ArmsCode(f.arms, here, next);
    ArmPlaced(u, at, test, b, code);
    PlacedSplit(u, at, test, [JumpIf(false, here)]);
    TestTidy(u, next, f.test, at);
    ScriptTidy(u, next, f.body, at + |test| + 1);
    ArmsTidy(u, next, f.arms, here);
    LastArm(f.arms, here, next);
    ArmTidy(u, test, b, code, at);
  }

  // ── whole units ──

  /** A tidy unit is what the optimiser wants. */
  lemma TidyUnit(u: Code)
    requires Tidy(u, 0, |u.ops|)
    ensures WellFormed(u) && Guarded(u.ops)
  {
    forall i, t: nat | 0 <= i < |u.ops| && Targets(u.ops[i], t) ensures t <= |u.ops| && GuardedAt(u.ops, t) {
      assert OpTidy(u, u.ops[i]);
      GuardTidy(u, t);
    }
    assert ForeachShaped(u) by {
      forall i | 0 <= i < |u.ops| && IsNext(u.ops[i])
        ensures u.ops[i].l.info < |u.infos| && u.ops[i].l.body < |u.ops|
        ensures u.ops[u.ops[i].l.body] == BodyMarkFor(u.infos[u.ops[i].l.info].framed)
      {
        assert OpTidy(u, u.ops[i]);
      }
    }
    assert Discipline.Words(u.ops) by {
      forall i | 0 <= i < |u.ops| && u.ops[i].Push? && u.ops[i].lit.Int? ensures InI64(u.ops[i].lit.n) {
        assert OpTidy(u, u.ops[i]);
      }
    }
  }

  lemma GuardTidy(u: Code, t: nat)
    requires Tidy(u, 0, |u.ops|) && Safe(u.ops, t)
    ensures GuardedAt(u.ops, t)
  {
    hide Landing, Barrier, Targets;
    if t < |u.ops| { assert OpTidy(u, u.ops[t]); assert Lands(u.ops, t) == u.ops[t]; }
    if t > 0 { assert OpTidy(u, u.ops[t - 1]); assert Before(u.ops, t) == u.ops[t - 1]; }
  }

  // ── whole units ──

  /** The shape the optimiser relies on. */
  lemma CompiledIsGuarded(s: Script, infos: seq<ForeachInfo>)
    requires ShapedScript(infos, s)
    ensures WellFormed(UnitOf(s, infos)) && Guarded(UnitOf(s, infos).ops)
  {
    hide CmdsCode, ShapedScript, OpTidy;
    var u := UnitOf(s, infos);
    if s.Then? {
      assert u.ops[0..0 + |u.ops|] == u.ops;
      CmdsTidy(u, false, s, 0);
    }
    TidyUnit(u);
  }

  /** The compiler itself emits no superinstruction. */
  lemma CompiledIsPlain(s: Script, infos: seq<ForeachInfo>)
    requires ShapedScript(infos, s)
    ensures forall k | 0 <= k < |UnitOf(s, infos).ops| :: !UnitOf(s, infos).ops[k].Super?
  {
    hide CmdsCode, ShapedScript;
    var u := UnitOf(s, infos);
    if s.Then? {
      assert u.ops[0..0 + |u.ops|] == u.ops;
      CmdsTidy(u, false, s, 0);
      forall k | 0 <= k < |u.ops| ensures !u.ops[k].Super? { assert OpTidy(u, u.ops[k]); }
    }
  }
}

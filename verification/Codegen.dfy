/** The instructions each form compiles to, placed at `at`; `next` says that
    a literal `continue` is compiled for the next script of a `for`. */
module Codegen {
  import opened Opcodes
  import opened Machine
  import opened Discipline
  import opened Syntax

  function ScriptCode(s: Script, at: int, next: bool): (r: seq<OpCode>)
    ensures r != []
    decreases s, 1
  {
    if s.Done? then [Push(Empty)] else CmdsCode(s, at, next)
  }

  /** Commands with the results between them dropped. */
  function CmdsCode(s: Script, at: int, next: bool): (r: seq<OpCode>)
    ensures s.Then? ==> r != []
    decreases s, 0
  {
    match s
    case Done => []
    case Then(cmd, rest) =>
      var first := CmdCode(cmd, at, next);
      if rest.Done? then first else first + [Pop] + CmdsCode(rest, at + |first| + 1, next)
  }

  function CmdCode(c: Cmd, at: int, next: bool): (r: seq<OpCode>)
    ensures r != []
    decreases c, 1
  {
    [BeginCmd(c.site)] + FormCode(c.form, at + 1, next)
  }

  function WordCode(w: Word, at: int, next: bool): seq<OpCode>
    decreases w, 0
  {
    match w
    case Text(lit) => [Push(lit)]
    case Var(x) => [Load(x)]
    case Eval(lit) => [Push(lit), EvalScript]
    case Sugar(lit) => [Push(lit), EvalExpr]
    case Cat(parts) => WordsCode(parts, at, next) + [Concat(Count(parts))]
    case Bracket(s) => [Mark(SubMark)] + ScriptCode(s, at + 1, next) + [SubEnd]
  }

  function WordsCode(ws: Words, at: int, next: bool): seq<OpCode>
    decreases ws, 0
  {
    if ws.NoWords? then []
    else
      var first := WordCode(ws.w, at, next);
      first + WordsCode(ws.rest, at + |first|, next)
  }

  function ExprCode(e: Expr, at: int, next: bool): seq<OpCode>
    decreases e, 0
  {
    match e
    case Leaf(lit) => [Push(lit)]
    case Read(x) => [Load(x)]
    case Inner(s) => [Mark(ExprMark)] + ScriptCode(s, at + 1, next) + [SubEnd]
    case Binary(op, l, r) =>
      var a := ExprCode(l, at, next);
      a + ExprCode(r, at + |a|, next) + [Bin(op)]
    case Unary(op, x) => ExprCode(x, at, next) + [Un(op)]
  }

  lemma BinaryCode(op: BinOp, l: Syntax.Expr, r: Syntax.Expr, at: int, next: bool)
    ensures var a := ExprCode(l, at, next);
      ExprCode(Syntax.Binary(op, l, r), at, next) == a + ExprCode(r, at + |a|, next) + [Bin(op)]
  {
    hide ScriptCode;
  }

  function TestCode(t: Test, at: int, next: bool): seq<OpCode>
    decreases t, 0
  {
    match t
    case Inline(e) => ExprCode(e, at, next)
    case Late(w) => WordCode(w, at, next) + [EvalExpr]
  }

  /** One arm; `rest` is what its failed test leads to. */
  function ArmCode(test: seq<OpCode>, body: seq<OpCode>, rest: seq<OpCode>, at: int): (r: seq<OpCode>)
    ensures |r| == |test| + |body| + |rest| + 2
  {
    var here := at + |test| + |body| + 2;
    test + [JumpIf(false, Spot(here))] + body + [Jump(Spot(here + |rest|))] + rest
  }

  function ArmsCode(a: Arms, at: int, next: bool): (r: seq<OpCode>)
    ensures r != []
    decreases a, 0
  {
    match a
    case NoElse => [Push(Empty)]
    case Else(body) =>
      var b := ScriptCode(body, at + 1, next);
      [Mark(BodyMark)] + b + [Jump(Spot(at + |b| + 2))]
    case Arm(t, body, rest) =>
      var test := TestCode(t, at, next);
      var b := ScriptCode(body, at + |test| + 1, next);
      ArmCode(test, b, ArmsCode(rest, at + |test| + |b| + 2, next), at)
  }

  /** A loop's entry, test and body; passes go on at `cont`. */
  function LoopHead(test: seq<OpCode>, body: seq<OpCode>, cont: int, brk: int): seq<OpCode> {
    [Loop(LoopEnter(Spot(cont), Spot(brk)))] + test + [JumpIf(false, Spot(brk))] + body + [Pop, Jump(Spot(cont))]
  }

  function LoopTail(): seq<OpCode> { [Loop(LoopExit), Push(Empty)] }

  function WhileCode(test: seq<OpCode>, body: seq<OpCode>, at: int): seq<OpCode> {
    LoopHead(test, body, at + 1, at + |test| + |body| + 4) + LoopTail()
  }

  /** From the loop's entry on; `at` is the place of the entry. */
  function ForCode(test: seq<OpCode>, body: seq<OpCode>, next: seq<OpCode>, at: int): seq<OpCode> {
    var tail := at + |test| + |body| + 4;
    LoopHead(test, body, tail, tail + |next| + 3) + ([Mark(NextMark)] + next + [Pop, Jump(Spot(at + 1))]) + LoopTail()
  }

  /** From the start of the iteration on; `at` is its place. */
  function EachCode(info: nat, shape: ForeachInfo, body: seq<OpCode>, at: int): seq<OpCode> {
    var tail := at + |body| + 4;
    [Loop(ForeachStart(info, Spot(tail), Spot(tail + 1))), BodyMarkFor(shape.framed)] + body
    + [if shape.lmap then Loop(ForeachCollect) else Pop, Jump(Spot(tail)), Loop(ForeachNext(info, Spot(at + 1))),
       Loop(ForeachEnd)]
  }

  function FormCode(f: Form, at: int, next: bool): (r: seq<OpCode>)
    decreases f, 0
  {
    match f
    case Set(x, w) => WordCode(w, at, next) + [Store(x)]
    case Get(x) => [Load(x)]
    case Bump(x, k) => [Incr(x, k)]
    case Extend(x, w) => WordCode(w, at, next) + [Lappend(x)]
    case Calc(t) => TestCode(t, at, next)
    case If(t, body, arms) =>
      var test := TestCode(t, at, next);
      var b := ScriptCode(body, at + |test| + 1, next);
      ArmCode(test, b, ArmsCode(arms, at + |test| + |b| + 2, next), at)
    case While(t, body) =>
      var test := TestCode(t, at + 1, false);
      WhileCode(test, ScriptCode(body, at + |test| + 2, false), at)
    case For(start, t, nxt, body) =>
      var s := ScriptCode(start, at + 1, false);
      var enter := at + |s| + 3;
      var test := TestCode(t, enter + 1, false);
      var b := ScriptCode(body, enter + |test| + 2, false);
      var n := ScriptCode(nxt, enter + |test| + |b| + 5, true);
      [Mark(ExprMark)] + s + [SubEnd, Pop] + ForCode(test, b, n, enter)
    case Foreach(info, shape, data, body) =>
      var d := WordsCode(data, at, next);
      d + EachCode(info, shape, ScriptCode(body, at + |d| + 2, next), at + |d|)
    case Leave => [Loop(LoopOp.Break)]
    case Again => if next then [Loop(LoopExit), Loop(LoopOp.Continue)] else [Loop(LoopOp.Continue)]
    case Give(w) => WordCode(w, at, next) + [Return]
    case Stop(code) => [Exit(code)]
    case Run(dyn, id, ws) => WordsCode(ws, at, next) + [Call(dyn, id, Count(ws))]
  }

  // ── units ──

  /** The unit of a script; a script without commands has no instructions. */
  function UnitOf(s: Script, infos: seq<ForeachInfo>): Code {
    Code(if s.Done? then [] else CmdsCode(s, 0, false), infos)
  }

  lemma EmptyIs(at: nat)
    ensures ScriptCode(Done, at, false) == [Push(Empty)]
  {
  }

  lemma ForIs(f: Form, at: nat)
    requires f.For?
    ensures var s := ScriptCode(f.start, at + 1, false);
      var enter := at + |s| + 3;
      var test := TestCode(f.test, enter + 1, false);
      var b := ScriptCode(f.body, enter + |test| + 2, false);
      var n := ScriptCode(f.next, enter + |test| + |b| + 5, true);
      FormCode(f, at, false) == [Mark(ExprMark)] + s + [SubEnd, Pop] + ForCode(test, b, n, enter)
  {
    hide ScriptCode, TestCode;
  }

  lemma OneCommandIs(c: Cmd, infos: seq<ForeachInfo>)
    ensures UnitOf(Then(c, Done), infos).ops == [BeginCmd(c.site)] + FormCode(c.form, 1, false)
  {
    hide FormCode;
    assert CmdsCode(Then(c, Done), 0, false) == CmdCode(c, 0, false);
  }
}

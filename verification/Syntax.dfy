/** Scripts as the compiler sees them once it has decided, command by command,
    what it compiles inline.  Every command carries the index of its site and
    every inline foreach that of its shape. */
module Syntax {
  import opened Opcodes
  import opened Machine

  datatype Script = Done | Then(cmd: Cmd, rest: Script)

  datatype Words = NoWords | More(w: Word, rest: Words)

  datatype Word =
    | Text(lit: Lit)
    | Var(x: Loc)
    | Eval(lit: Lit)          // a substitution left to the interpreter
    | Sugar(lit: Lit)         // an expression left to the interpreter
    | Cat(parts: Words)
    | Bracket(script: Script) // a whole-word substitution, inlined

  datatype Expr =
    | Leaf(lit: Lit) | Read(x: Loc) | Inner(script: Script)
    | Binary(op: BinOp, l: Expr, r: Expr) | Unary(un: UnOp, e: Expr)

  /** A condition: compiled, or a word handed to the expression evaluator. */
  datatype Test = Inline(e: Expr) | Late(w: Word)

  datatype Arms = NoElse | Else(body: Script) | Arm(test: Test, body: Script, rest: Arms)

  datatype Cmd = Cmd(site: nat, form: Form)

  datatype Form =
    | Set(x: Loc, w: Word) | Get(x: Loc) | Bump(x: Loc, k: int) | Extend(x: Loc, w: Word)
    | Calc(test: Test)
    | If(test: Test, body: Script, arms: Arms)
    | While(test: Test, body: Script)
    | For(start: Script, test: Test, next: Script, body: Script)
    | Foreach(info: nat, shape: ForeachInfo, data: Words, body: Script)
    | Leave | Again
    | Give(w: Word) | Stop(code: int)
    | Run(dyn: bool, id: nat, words: Words)

  // ── the parts of the forms that have them ──

  function TestOf(f: Form): Test {
    match f case If(t, _, _) => t case While(t, _) => t case For(_, t, _, _) => t case _ => Late(Text(Empty))
  }

  function BodyOf(f: Form): Script {
    match f
    case If(_, s, _) => s
    case While(_, s) => s
    case For(_, _, _, s) => s
    case Foreach(_, _, _, s) => s
    case _ => Done
  }

  function InfoOf(f: Form): nat { if f.Foreach? then f.info else 0 }

  function ShapeOf(f: Form): ForeachInfo { if f.Foreach? then f.shape else ForeachInfo(0, false, false) }

  function Count(ws: Words): nat { if ws.NoWords? then 0 else 1 + Count(ws.rest) }
}

/** The instruction set of a compiled unit, as far as the optimiser and the
    executor tell instructions apart.  The slot-keyed and name-keyed twins of
    an instruction are one constructor over a location. */
module Opcodes {
  import opened Options

  /** What a literal push pushes. */
  datatype Lit =
    | Const(i: nat) | ConstWide(i: nat) | Empty
    | Int(n: int) | Float(id: nat) | True | False

  /** A variable: a frame slot, or a constant-pool name. */
  datatype Loc = Slot(i: nat) | Name(i: nat)

  datatype BinOp =
    | Add | Sub | Mul | Div | Mod | Pow
    | Eq | Ne | Lt | Gt | Le | Ge | StrEq | StrNe
    | BitAnd | BitOr | BitXor | Shl | Shr

  datatype UnOp = Neg | Not | BitNot

  /** Instructions that open a region of the current command. */
  datatype MarkOp = BodyMark | BodyMarkFramed | NextMark | SubMark | ExprMark

  datatype LoopOp =
    | LoopEnter(cont: nat, brk: nat) | LoopExit | Break | Continue
    | ForeachStart(info: nat, next: nat, end: nat) | ForeachNext(info: nat, body: nat)
    | ForeachCollect | ForeachEnd

  /** Superinstructions. */
  datatype FusedOp =
    // operand reads folded into an operator
    | AddRR(a: Loc, b: Loc) | AddRI(a: Loc, k: int)
    | SubRR(a: Loc, b: Loc) | SubRI(a: Loc, k: int)
    | CmpRR(a: Loc, b: Loc, cc: nat) | CmpRI(a: Loc, k: int, cc: nat)
    | CmpRRJump(a: Loc, b: Loc, cc: nat, want: bool, t: nat)
    | CmpRIJump(a: Loc, k: int, cc: nat, want: bool, t: nat)
    // discarded results
    | StorePop(x: Loc) | IncrPop(x: Loc, k: int) | LappendMove(src: Loc, dst: Loc)
    // sites and regions
    | BeginCmdSubMark(site: nat) | BeginCmdPushConst(site: nat, i: nat)
    | BeginCmdIncrPop(site: nat, x: Loc, k: int)
    | ExprMarkBeginCmd(site: nat) | ExprMarkBeginPushConst(site: nat, i: nat)
    | PushConstSubMark(i: nat) | SubMarkBeginCmd(site: nat) | NextMarkBeginCmd(site: nat)
    | SubEndStorePop(x: Loc) | SubEndReturn | SubEndCall(dyn: bool, id: nat, argc: nat) | SubEndAdd
    | SetAdd(setSite: nat, exprSite: nat, a: Loc, b: Loc, dst: Loc)
    // loop control
    | SwapToNextMark | ForeachNextClose(info: nat, body: nat)
    | ForNextIncr(site: nat, x: Loc, k: int, t: nat)

  datatype OpCode =
    | Push(lit: Lit) | Pop | Dup
    | Load(x: Loc) | Store(x: Loc) | Incr(x: Loc, k: int) | Lappend(x: Loc)
    | Bin(bin: BinOp) | Un(un: UnOp) | Concat(n: nat)
    | Jump(t: nat) | JumpIf(want: bool, t: nat) | CatchStart(t: nat)
    | Loop(l: LoopOp)
    | Return | Exit(code: int)
    | ExpandMark | ExpandList
    | Call(dyn: bool, id: nat, argc: nat) | CallExpand(dyn: bool, id: nat, argc: nat)
    | EvalScript | EvalExpr
    | BeginCmd(site: nat) | Mark(m: MarkOp) | SubEnd
    | Nop
    | Super(f: FusedOp)
    | Unsupported(id: nat)  // everything else: the executor refuses it

  function OpAt(ops: seq<OpCode>, pc: int): OpCode { if 0 <= pc < |ops| then ops[pc] else Nop }

  /** What a rule makes of its window. */
  function Made(r: Option<OpCode>): OpCode { match r case Some(v) => v case None => Nop }

  /** Comparison operator to its superinstruction encoding. */
  function CmpCcOf(op: OpCode): (cc: Option<nat>)
    ensures cc.Some? ==> cc.value <= 5 && op == CmpOpOf(cc.value)
    ensures cc.None? ==> forall k :: op != CmpOpOf(k)
  {
    match op
    case Bin(Lt) => Some(0)
    case Bin(Gt) => Some(1)
    case Bin(Le) => Some(2)
    case Bin(Ge) => Some(3)
    case Bin(Eq) => Some(4)
    case Bin(Ne) => Some(5)
    case _ => None
  }

  function CmpBin(cc: nat): BinOp {
    if cc == 0 then Lt else if cc == 1 then Gt else if cc == 2 then Le
    else if cc == 3 then Ge else if cc == 4 then Eq else Ne
  }

  function CmpOpOf(cc: nat): OpCode { Bin(CmpBin(cc)) }

  /** The encoding of the comparison with its operands swapped. */
  function CmpCcMirror(cc: nat): nat {
    if cc == 0 then 1 else if cc == 1 then 0 else if cc == 2 then 3 else if cc == 3 then 2 else cc
  }

  /** Where old index `t` went; past the table means the end of the unit. */
  function At(f: seq<nat>, t: nat): nat {
    if t < |f| then f[t] else if f == [] then t else f[|f| - 1]
  }

  /** Remap every target an instruction carries. */
  function MapOp(op: OpCode, f: seq<nat>): OpCode {
    match op
    case Jump(t) => Jump(At(f, t))
    case JumpIf(w, t) => JumpIf(w, At(f, t))
    case CatchStart(t) => CatchStart(At(f, t))
    case Loop(l) => Loop(MapLoopOp(l, f))
    case Super(g) => Super(MapFused(g, f))
    case _ => op
  }

  function MapLoopOp(l: LoopOp, f: seq<nat>): LoopOp {
    match l
    case LoopEnter(c, b) => LoopEnter(At(f, c), At(f, b))
    case ForeachStart(i, n, e) => ForeachStart(i, At(f, n), At(f, e))
    case ForeachNext(i, b) => ForeachNext(i, At(f, b))
    case _ => l
  }

  function MapFused(g: FusedOp, f: seq<nat>): FusedOp {
    match g
    case ForeachNextClose(i, b) => ForeachNextClose(i, At(f, b))
    case CmpRRJump(a, b, cc, w, t) => CmpRRJump(a, b, cc, w, At(f, t))
    case CmpRIJump(a, k, cc, w, t) => CmpRIJump(a, k, cc, w, At(f, t))
    case ForNextIncr(s, x, k, t) => ForNextIncr(s, x, k, At(f, t))
    case _ => g
  }

  /** Does `op` carry target `t`? */
  predicate Targets(op: OpCode, t: nat) {
    match op
    case Jump(u) => t == u
    case JumpIf(_, u) => t == u
    case CatchStart(u) => t == u
    case Loop(l) => LoopTargets(l, t)
    case Super(g) => FusedTargets(g, t)
    case _ => false
  }

  predicate LoopTargets(l: LoopOp, t: nat) {
    match l
    case LoopEnter(c, b) => t == c || t == b
    case ForeachStart(_, n, e) => t == n || t == e
    case ForeachNext(_, b) => t == b
    case _ => false
  }

  predicate FusedTargets(g: FusedOp, t: nat) {
    match g
    case ForeachNextClose(_, b) => t == b
    case CmpRRJump(_, _, _, _, u) => t == u
    case CmpRIJump(_, _, _, _, u) => t == u
    case ForNextIncr(_, _, _, u) => t == u
    case _ => false
  }
}

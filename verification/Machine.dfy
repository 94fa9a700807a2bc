/** The bytecode executor: one step per instruction over the operand stack,
    the loop, foreach and region stacks, the current site and the world of
    variables and commands.  Instructions never read the pc, so their effects
    are pc-free; `Step` adds the pc and routes break/continue signals. */
module Machine {
  import opened Options
  import opened Opcodes
  import opened Arith

  /** Everything the unit can only reach by asking the interpreter. */
  type World(!new)
  /** Values that are not integers, and error messages. */
  type Text(!new, ==)

  datatype List<T> = Nil | Cons(head: T, tail: List<T>)

  function Depth<T>(l: List<T>): nat { if l.Nil? then 0 else 1 + Depth(l.tail) }

  /** Keep the `n` oldest entries. */
  function Truncate<T>(l: List<T>, n: nat): List<T> {
    if Depth(l) <= n then l else Truncate(l.tail, n)
  }

  datatype Val = Num(n: int) | Other(t: Text)

  datatype Fault =
    | Brk(level: int) | Cnt(level: int)  // loop signals raised by a command
    | Ret(v: Val) | Quit(code: int)
    | Err(msg: Text)
    | Panic

  datatype Reply = Ok(v: Val) | Fault(f: Fault)
  datatype Verdict = Says(b: bool) | Objects(f: Fault)

  /** What an instruction asks of the interpreter. */
  datatype Request =
    | Read(x: Loc) | Write(x: Loc, v: Val) | Bump(x: Loc, k: int) | Extend(x: Loc, v: Val)
    | Begin(site: nat)
    | Invoke(dyn: bool, args: seq<Val>)
    | RunScript(v: Val) | RunExpr(v: Val)
    | OpenLists(info: nat, lists: seq<Val>) | Bind(info: nat, lists: seq<Val>, idx: nat)

  /** The interpreter, as an arbitrary deterministic oracle. */
  datatype Host = Host(
    ask: (World, Request) -> (World, Reply),
    lit: Lit -> Val,
    bin: (BinOp, Val, Val) -> Reply,
    cmp: (BinOp, Val, Val) -> bool,
    un: (UnOp, Val) -> Reply,
    truth: Val -> Verdict,
    concat: seq<Val> -> Val,
    expand: Val -> seq<Val>,
    list: seq<Val> -> Val,
    iters: (nat, seq<Val>) -> nat,
    refuse: Fault)

  datatype ForeachInfo = ForeachInfo(groups: nat, lmap: bool, framed: bool)
  datatype ForeachFrame = ForeachFrame(
    lists: seq<Val>, idx: nat, iters: nat, collected: Option<seq<Val>>, framed: bool, lmap: bool)

  datatype Region =
    | Body(site: int) | BodyFramed(site: int, lmap: bool) | Next(site: int)
    | Sub(site: int) | Expr(site: int)

  /** What a loop remembers of the moment it was entered. */
  datatype Entry = Entry(bodiesLen: nat, stackLen: nat, owner: int)
  datatype LoopFrame = LoopFrame(cont: nat, brk: nat, at: Entry)

  datatype Core = Core(
    w: World, stack: List<Val>, foreaches: List<ForeachFrame>, bodies: List<Region>,
    expandBase: nat, site: int)

  datatype State = State(core: Core, loops: List<LoopFrame>)

  datatype CoreCtl = CFall(c: Core) | CGoto(t: nat, c: Core) | CRaise(f: Fault, c: Core)
  datatype Ctl = Fall(d: State) | Goto(t: nat, d: State) | Raise(f: Fault, d: State)

  // ── values ──

  predicate IsCmp(op: BinOp) {
    op.Eq? || op.Ne? || op.Lt? || op.Gt? || op.Le? || op.Ge? || op.StrEq? || op.StrNe?
  }

  function LitVal(h: Host, lit: Lit): Val {
    match lit case Int(n) => Num(n) case True => Num(1) case False => Num(0) case _ => h.lit(lit)
  }

  /** Literals that are 0 or 1. */
  predicate LitBit(lit: Lit) { lit == Int(0) || lit == Int(1) || lit.True? || lit.False? }

  function OfBool(b: bool): Val { Num(if b then 1 else 0) }

  function CmpBool(h: Host, op: BinOp, a: Val, b: Val): bool {
    if a.Num? && b.Num? then IntBin(op, a.n, b.n) == Some(1) else h.cmp(op, a, b)
  }

  function BinVal(h: Host, op: BinOp, a: Val, b: Val): Reply {
    if IsCmp(op) then Ok(OfBool(CmpBool(h, op, a, b)))
    else if a.Num? && b.Num? && IntBin(op, a.n, b.n).Some? then Ok(Num(IntBin(op, a.n, b.n).value))
    else h.bin(op, a, b)
  }

  function UnVal(h: Host, op: UnOp, a: Val): Reply {
    if a.Other? then h.un(op, a)
    else match op
      case Neg => Ok(Num(-a.n))
      case Not => Ok(OfBool(a.n == 0))
      case BitNot => Ok(Num(-a.n - 1))
  }

  function Truth(h: Host, v: Val): Verdict {
    if v.Num? then Says(v.n != 0) else h.truth(v)
  }

  // ── core moves ──

  function Top(h: Host, c: Core): Val { if c.stack.Nil? then h.lit(Empty) else c.stack.head }

  function Popped(c: Core): Core { if c.stack.Nil? then c else c.(stack := c.stack.tail) }

  function Pushed(c: Core, v: Val): Core { c.(stack := Cons(v, c.stack)) }

  function PushAll(st: List<Val>, vs: seq<Val>): List<Val> {
    if vs == [] then st else Cons(vs[|vs| - 1], PushAll(st, vs[..|vs| - 1]))
  }

  /** The top `n` values, oldest first, and what is left. */
  function TakeArgs(st: List<Val>, n: nat): (seq<Val>, List<Val>) {
    if n == 0 || st.Nil? then ([], st)
    else var r := TakeArgs(st.tail, n - 1); (r.0 + [st.head], r.1)
  }

  /** A raised fault discards the operands above the innermost loop's entry:
      routing truncates to it, and no other observer of the stack remains. */
  function Settle(c: Core, top: Option<Entry>): Core {
    c.(stack := if top.None? then Nil else Truncate(c.stack, top.value.stackLen))
  }

  function Raised(f: Fault, c: Core, top: Option<Entry>): (res: CoreCtl)
    ensures !res.CGoto?
  { CRaise(f, Settle(c, top)) }

  function Asked(h: Host, c: Core, q: Request): (Core, Reply) {
    var r := h.ask(c.w, q);
    (c.(w := r.0), r.1)
  }

  function AskPush(h: Host, c: Core, q: Request, top: Option<Entry>): (res: CoreCtl)
    ensures !res.CGoto?
  {
    var r := Asked(h, c, q);
    match r.1 case Ok(v) => CFall(Pushed(r.0, v)) case Fault(f) => Raised(f, r.0, top)
  }

  function AskDrop(h: Host, c: Core, q: Request, top: Option<Entry>): (res: CoreCtl)
    ensures !res.CGoto?
  {
    var r := Asked(h, c, q);
    match r.1 case Ok(_) => CFall(r.0) case Fault(f) => Raised(f, r.0, top)
  }

  function PushReply(c: Core, r: Reply, top: Option<Entry>): (res: CoreCtl)
    ensures !res.CGoto?
  {
    match r case Ok(v) => CFall(Pushed(c, v)) case Fault(f) => Raised(f, c, top)
  }

  function BeginAt(h: Host, c: Core, site: nat, top: Option<Entry>): (res: CoreCtl)
    ensures !res.CGoto?
  {
    var r := Asked(h, c, Begin(site));
    match r.1 case Ok(_) => CFall(r.0.(site := site)) case Fault(f) => Raised(f, r.0, top)
  }

  /** Close the innermost region and make its owner current again. */
  function Closed(c: Core): Core {
    if c.bodies.Nil? then c else c.(bodies := c.bodies.tail, site := c.bodies.head.site)
  }

  function Opened(c: Core, r: Region): Core { c.(bodies := Cons(r, c.bodies)) }

  function Branch(c: Core, b: bool, want: bool, t: nat): CoreCtl {
    if b == want then CGoto(t, c) else CFall(Opened(c, Body(c.site)))
  }

  /** Bring the region stack back to the loop's entry. */
  function Normalized(c: Core, top: Option<Entry>): Core {
    if top.None? then Closed(c)
    else c.(bodies := Truncate(c.bodies, top.value.bodiesLen), site := top.value.owner)
  }

  function SwapToNext(c: Core, top: Option<Entry>): Core {
    var n := Normalized(c, top);
    Opened(n, Next(n.site))
  }

  /** Two operand reads and a binary operator. */
  function ReadBin(h: Host, c: Core, a: Loc, b: Loc, op: BinOp, top: Option<Entry>): (res: CoreCtl)
    ensures !res.CGoto?
  {
    var ra := Asked(h, c, Read(a));
    if ra.1.Fault? then Raised(ra.1.f, ra.0, top)
    else var rb := Asked(h, ra.0, Read(b));
      if rb.1.Fault? then Raised(rb.1.f, rb.0, top)
      else PushReply(rb.0, BinVal(h, op, ra.1.v, rb.1.v), top)
  }

  function ReadBinImm(h: Host, c: Core, a: Loc, k: int, op: BinOp, top: Option<Entry>): (res: CoreCtl)
    ensures !res.CGoto?
  {
    var ra := Asked(h, c, Read(a));
    if ra.1.Fault? then Raised(ra.1.f, ra.0, top)
    else PushReply(ra.0, BinVal(h, op, ra.1.v, Num(k)), top)
  }

  /** Two operand reads and a branch on their comparison. */
  function ReadCmp(h: Host, c: Core, a: Loc, b: Loc, cc: nat, want: bool, t: nat,
                   top: Option<Entry>): CoreCtl {
    var ra := Asked(h, c, Read(a));
    if ra.1.Fault? then Raised(ra.1.f, ra.0, top)
    else var rb := Asked(h, ra.0, Read(b));
      if rb.1.Fault? then Raised(rb.1.f, rb.0, top)
      else Branch(rb.0, CmpBool(h, CmpBin(cc), ra.1.v, rb.1.v), want, t)
  }

  function ReadCmpImm(h: Host, c: Core, a: Loc, k: int, cc: nat, want: bool, t: nat,
                      top: Option<Entry>): CoreCtl {
    var ra := Asked(h, c, Read(a));
    if ra.1.Fault? then Raised(ra.1.f, ra.0, top)
    else Branch(ra.0, CmpBool(h, CmpBin(cc), ra.1.v, Num(k)), want, t)
  }

  function Dispatch(h: Host, c: Core, argc: nat, dyn: bool, top: Option<Entry>): (res: CoreCtl)
    ensures !res.CGoto?
  {
    var a := TakeArgs(c.stack, argc);
    AskPush(h, c.(stack := a.1), Invoke(dyn, a.0), top)
  }

  function DispatchExpand(h: Host, c: Core, dyn: bool, top: Option<Entry>): (res: CoreCtl)
    ensures !res.CGoto?
  {
    var n := Depth(c.stack);
    Dispatch(h, c, if n < c.expandBase then 0 else n - c.expandBase, dyn, top)
  }

  /** Advance the innermost foreach; `close` is the fused form that owns the
      region change and whose `body` lies past the body mark. */
  function Advance(h: Host, c: Core, info: nat, body: nat, close: bool, top: Option<Entry>): CoreCtl {
    if c.foreaches.Nil? then Raised(Panic, c, top)
    else
      var ff := c.foreaches.head;
      if ff.idx + 1 < ff.iters then
        var c1 := c.(foreaches := Cons(ff.(idx := ff.idx + 1), c.foreaches.tail));
        var r := Asked(h, c1, Bind(info, ff.lists, ff.idx + 1));
        if r.1.Fault? then Raised(r.1.f, r.0, top)
        else if close then
          CGoto(body, Opened(r.0, if ff.framed then BodyFramed(r.0.site, ff.lmap) else Body(r.0.site)))
        else CGoto(body, r.0)
      else CFall(c)
  }

  function Collect(h: Host, c: Core): Core {
    var v := Top(h, c);
    var c1 := Popped(c);
    if c1.foreaches.Cons? && c1.foreaches.head.collected.Some? then
      var ff := c1.foreaches.head;
      c1.(foreaches := Cons(ff.(collected := Some(ff.collected.value + [v])), c1.foreaches.tail))
    else c1
  }

  function Branches(h: Host, c: Core, want: bool, t: nat, top: Option<Entry>): CoreCtl {
    match Truth(h, Top(h, c))
    case Objects(f) => Raised(f, Popped(c), top)
    case Says(b) => Branch(Popped(c), b, want, t)
  }

  function ExecBin(h: Host, c: Core, op: BinOp, top: Option<Entry>): (res: CoreCtl)
    ensures !res.CGoto?
  {
    var b := Top(h, c);
    var a := Top(h, Popped(c));
    PushReply(Popped(Popped(c)), BinVal(h, op, a, b), top)
  }

  function Marked(c: Core, m: MarkOp): Core {
    match m
    case BodyMark => Opened(c, Body(c.site))
    case BodyMarkFramed => Opened(c, BodyFramed(c.site, c.foreaches.Cons? && c.foreaches.head.lmap))
    case NextMark => Opened(c, Next(c.site))
    case SubMark => Opened(c, Region.Sub(c.site))
    case ExprMark => Opened(c, Expr(c.site))
  }

  /** `set x [expr {$a + $b}]` in one dispatch. */
  function ExecSetAdd(h: Host, c: Core, s1: nat, s2: nat, a: Loc, b: Loc, x: Loc, top: Option<Entry>): (res: CoreCtl)
    ensures !res.CGoto?
  {
    var r1 := BeginAt(h, c, s1, top);
    if !r1.CFall? then r1
    else var r2 := BeginAt(h, Marked(r1.c, SubMark), s2, top);
      if !r2.CFall? then r2
      else var ra := Asked(h, r2.c, Read(a));
        if ra.1.Fault? then Raised(ra.1.f, ra.0, top)
        else var rb := Asked(h, ra.0, Read(b));
          if rb.1.Fault? then Raised(rb.1.f, rb.0, top)
          else match BinVal(h, Add, ra.1.v, rb.1.v)
            case Fault(f) => Raised(f, rb.0, top)
            case Ok(v) => AskDrop(h, Closed(rb.0), Write(x, v), top)
  }

  /** The whole tail of a `for` whose next script is one `incr`. */
  function ForTail(h: Host, c: Core, s: nat, x: Loc, k: int, t: nat, top: Option<Entry>): CoreCtl {
    var r := BeginAt(h, SwapToNext(c, top), s, top);
    if !r.CFall? then r
    else var r2 := AskDrop(h, r.c, Bump(x, k), top);
      if !r2.CFall? then r2 else CGoto(t, Closed(r2.c))
  }

  function ExecFused(h: Host, g: FusedOp, c: Core, top: Option<Entry>): (res: CoreCtl)
    ensures res.CGoto? ==> FusedTargets(g, res.t)
  {
    match g
    case AddRR(a, b) => ReadBin(h, c, a, b, Add, top)
    case AddRI(a, k) => ReadBinImm(h, c, a, k, Add, top)
    case SubRR(a, b) => ReadBin(h, c, a, b, BinOp.Sub, top)
    case SubRI(a, k) => ReadBinImm(h, c, a, k, BinOp.Sub, top)
    case CmpRR(a, b, cc) => ReadBin(h, c, a, b, CmpBin(cc), top)
    case CmpRI(a, k, cc) => ReadBinImm(h, c, a, k, CmpBin(cc), top)
    case CmpRRJump(a, b, cc, w, t) => ReadCmp(h, c, a, b, cc, w, t, top)
    case CmpRIJump(a, k, cc, w, t) => ReadCmpImm(h, c, a, k, cc, w, t, top)
    case StorePop(x) => AskDrop(h, Popped(c), Write(x, Top(h, c)), top)
    case IncrPop(x, k) => AskDrop(h, c, Bump(x, k), top)
    case LappendMove(s, x) =>
      var r := Asked(h, c, Read(s));
      if r.1.Fault? then Raised(r.1.f, r.0, top) else AskDrop(h, r.0, Extend(x, r.1.v), top)
    case BeginCmdSubMark(s) =>
      var r := BeginAt(h, c, s, top);
      if r.CFall? then CFall(Marked(r.c, SubMark)) else r
    case BeginCmdPushConst(s, i) =>
      var r := BeginAt(h, c, s, top);
      if r.CFall? then CFall(Pushed(r.c, LitVal(h, Const(i)))) else r
    case BeginCmdIncrPop(s, x, k) =>
      var r := BeginAt(h, c, s, top);
      if r.CFall? then AskDrop(h, r.c, Bump(x, k), top) else r
    case ExprMarkBeginCmd(s) => BeginAt(h, Marked(c, ExprMark), s, top)
    case ExprMarkBeginPushConst(s, i) =>
      var r := BeginAt(h, Marked(c, ExprMark), s, top);
      if r.CFall? then CFall(Pushed(r.c, LitVal(h, Const(i)))) else r
    case PushConstSubMark(i) => CFall(Marked(Pushed(c, LitVal(h, Const(i))), SubMark))
    case SubMarkBeginCmd(s) => BeginAt(h, Marked(c, SubMark), s, top)
    case NextMarkBeginCmd(s) => BeginAt(h, Marked(c, NextMark), s, top)
    case SubEndStorePop(x) => AskDrop(h, Popped(Closed(c)), Write(x, Top(h, c)), top)
    case SubEndReturn => Raised(Ret(Top(h, c)), Popped(Closed(c)), top)
    case SubEndCall(dyn, _, n) => Dispatch(h, Closed(c), n, dyn, top)
    case SubEndAdd => ExecBin(h, Closed(c), Add, top)
    case SetAdd(s1, s2, a, b, x) => ExecSetAdd(h, c, s1, s2, a, b, x, top)
    case SwapToNextMark => CFall(SwapToNext(c, top))
    case ForeachNextClose(info, body) => Advance(h, Normalized(c, top), info, body, true, top)
    case ForNextIncr(s, x, k, t) => ForTail(h, c, s, x, k, t, top)
  }

  /** Instructions that leave the loop stack alone. */
  function ExecCore(h: Host, op: OpCode, c: Core, top: Option<Entry>): (res: CoreCtl)
    ensures res.CGoto? ==> Targets(op, res.t)
  {
    match op
    case Push(lit) => CFall(Pushed(c, LitVal(h, lit)))
    case Pop => CFall(Popped(c))
    case Dup => CFall(Pushed(c, Top(h, c)))
    case Load(x) => AskPush(h, c, Read(x), top)
    case Store(x) => AskDrop(h, c, Write(x, Top(h, c)), top)
    case Incr(x, k) => AskPush(h, c, Bump(x, k), top)
    case Lappend(x) => AskPush(h, Popped(c), Extend(x, Top(h, c)), top)
    case Bin(op) => ExecBin(h, c, op, top)
    case Un(op) => PushReply(Popped(c), UnVal(h, op, Top(h, c)), top)
    case Concat(n) =>
      var a := TakeArgs(c.stack, n);
      CFall(Pushed(c.(stack := a.1), h.concat(a.0)))
    case Jump(t) => CGoto(t, Closed(c))
    case JumpIf(want, t) => Branches(h, c, want, t, top)
    case Loop(ForeachNext(info, body)) => Advance(h, c, info, body, false, top)
    case Loop(ForeachCollect) => CFall(Collect(h, c))
    case Return => Raised(Ret(Top(h, c)), Popped(c), top)
    case Exit(code) => Raised(Quit(code), c, top)
    case ExpandMark => CFall(c.(expandBase := Depth(c.stack)))
    case ExpandList => CFall(c.(stack := PushAll(Popped(c).stack, h.expand(Top(h, c)))))
    case Call(dyn, _, n) => Dispatch(h, c, n, dyn, top)
    case CallExpand(dyn, _, _) => DispatchExpand(h, c, dyn, top)
    case EvalScript => AskPush(h, Popped(c), RunScript(Top(h, c)), top)
    case EvalExpr => AskPush(h, Popped(c), RunExpr(Top(h, c)), top)
    case BeginCmd(s) => BeginAt(h, c, s, top)
    case Mark(m) => CFall(Marked(c, m))
    case SubEnd => CFall(Closed(c))
    case Nop => CFall(c)
    case Super(g) => ExecFused(h, g, c, top)
    case _ => Raised(h.refuse, c, top)
  }

  // ── loops ──

  function Innermost(loops: List<LoopFrame>): Option<Entry> {
    if loops.Nil? then None else Some(loops.head.at)
  }

  /** Instructions that open, close or leave a loop. */
  predicate IsLoopOp(op: OpCode) { op.Loop? && !op.l.ForeachNext? && !op.l.ForeachCollect? }

  function Lift(r: CoreCtl, loops: List<LoopFrame>): Ctl {
    match r
    case CFall(c) => Fall(State(c, loops))
    case CGoto(t, c) => Goto(t, State(c, loops))
    case CRaise(f, c) => Raise(f, State(c, loops))
  }

  function EntryNow(c: Core): Entry { Entry(Depth(c.bodies), Depth(c.stack), c.site) }

  /** Leave the body of loop `at`: regions and operands opened since are gone. */
  function Unwound(c: Core, at: Entry): Core {
    c.(bodies := Truncate(c.bodies, at.bodiesLen), stack := Truncate(c.stack, at.stackLen), site := at.owner)
  }

  function ExecForeachStart(h: Host, infos: seq<ForeachInfo>, info: nat, next: nat, end: nat, d: State): Ctl {
    if info >= |infos| then Raise(Panic, State(Settle(d.core, Innermost(d.loops)), d.loops))
    else
      var fi := infos[info];
      var a := TakeArgs(d.core.stack, fi.groups);
      var r := Asked(h, d.core.(stack := a.1), OpenLists(info, a.0));
      if r.1.Fault? then Raise(r.1.f, State(Settle(r.0, Innermost(d.loops)), d.loops))
      else
        var n := h.iters(info, a.0);
        var ff := ForeachFrame(a.0, 0, n, if fi.lmap then Some([]) else None, fi.framed, fi.lmap);
        var c := r.0.(foreaches := Cons(ff, r.0.foreaches));
        var loops := Cons(LoopFrame(next, end, EntryNow(c)), d.loops);
        if n == 0 then Goto(end, State(c, loops))
        else
          var b := Asked(h, c, Bind(info, a.0, 0));
          if b.1.Fault? then Raise(b.1.f, State(Settle(b.0, Innermost(loops)), loops))
          else Fall(State(b.0, loops))
  }

  function ExecForeachEnd(h: Host, d: State): State {
    var c := d.core;
    var v := if c.foreaches.Cons? && c.foreaches.head.collected.Some?
             then h.list(c.foreaches.head.collected.value) else h.lit(Empty);
    State(Pushed(if c.foreaches.Nil? then c else c.(foreaches := c.foreaches.tail), v),
          if d.loops.Nil? then Nil else d.loops.tail)
  }

  /** A compiled `break` (or `continue`): straight to the innermost loop. */
  function Leave(d: State, brk: bool): Ctl {
    if d.loops.Nil? then Raise(if brk then Brk(1) else Cnt(1), State(Settle(d.core, None), Nil))
    else
      var l := d.loops.head;
      Goto(if brk then l.brk else l.cont, d.(core := Unwound(d.core, l.at)))
  }

  function ExecLoop(h: Host, infos: seq<ForeachInfo>, l: LoopOp, d: State): Ctl {
    match l
    case LoopEnter(c, b) => Fall(d.(loops := Cons(LoopFrame(c, b, EntryNow(d.core)), d.loops)))
    case LoopExit => Fall(if d.loops.Nil? then d else d.(loops := d.loops.tail))
    case Break => Leave(d, true)
    case Continue => Leave(d, false)
    case ForeachStart(i, n, e) => ExecForeachStart(h, infos, i, n, e, d)
    case ForeachEnd => Fall(ExecForeachEnd(h, d))
    case _ => Lift(ExecCore(h, Loop(l), d.core, Innermost(d.loops)), d.loops)
  }

  function Exec(h: Host, infos: seq<ForeachInfo>, op: OpCode, d: State): Ctl {
    if IsLoopOp(op) then ExecLoop(h, infos, op.l, d)
    else Lift(ExecCore(h, op, d.core, Innermost(d.loops)), d.loops)
  }

  lemma NopFalls(h: Host, infos: seq<ForeachInfo>, d: State)
    ensures Exec(h, infos, Nop, d) == Fall(d)
  {
  }

  // ── steps and runs ──

  /** What a finished unit shows: its value with everything it leaves on its
      stacks, or the completion it raised.  An error also shows the regions and
      site that decide its trace. */
  datatype Outcome =
    | Value(v: Val, left: Core)
    | Failed(f: Fault, w: World, trail: Option<(List<Region>, int)>)

  datatype Run = Running(pc: nat, d: State) | Halted(o: Outcome)

  function Spot(i: int): nat { if i < 0 then 0 else i }

  /** The run at `pc`. */
  function Now(pc: int, d: State): Run { Running(Spot(pc), d) }

  datatype Code = Code(ops: seq<OpCode>, infos: seq<ForeachInfo>)

  predicate NextAbove(bodies: List<Region>, n: nat) {
    Depth(bodies) > n && (bodies.head.Next? || NextAbove(bodies.tail, n))
  }

  /** A `continue` that escaped a next script surfaces at the enclosing loop,
      unless that `for` sat in a next script itself. */
  function Escape(f: Fault, d: State): Run
    decreases d.loops
  {
    if d.loops.Nil? then Halted(Failed(f, d.core.w, None))
    else
      var l := d.loops.head;
      var c := d.core.(bodies := Truncate(d.core.bodies, l.at.bodiesLen),
                       stack := Truncate(d.core.stack, l.at.stackLen));
      if NextAbove(d.core.bodies, l.at.bodiesLen) then Escape(f, State(c, d.loops.tail))
      else Running(l.cont, State(c.(site := l.at.owner), d.loops))
  }

  /** Where a raised fault goes. */
  function Route(f: Fault, d: State): Run {
    match f
    case Err(_) => Halted(Failed(f, d.core.w, Some((d.core.bodies, d.core.site))))
    case Brk(level) =>
      if level > 1 then Halted(Failed(Brk(level - 1), d.core.w, None))
      else if d.loops.Nil? then Halted(Failed(f, d.core.w, None))
      else Running(d.loops.head.brk, d.(core := Unwound(d.core, d.loops.head.at)))
    case Cnt(level) =>
      if level > 1 then Halted(Failed(Cnt(level - 1), d.core.w, None))
      else if d.loops.Nil? then Halted(Failed(f, d.core.w, None))
      else if NextAbove(d.core.bodies, d.loops.head.at.bodiesLen) then
        Escape(f, State(d.core.(bodies := Truncate(d.core.bodies, d.loops.head.at.bodiesLen),
                                stack := Truncate(d.core.stack, d.loops.head.at.stackLen)), d.loops.tail))
      else Running(d.loops.head.cont, d.(core := Unwound(d.core, d.loops.head.at)))
    case _ => Halted(Failed(f, d.core.w, None))
  }

  /** The state of a run; one that failed has none left. */
  function StateOf(s: Run): State {
    match s
    case Running(_, d) => d
    case Halted(Value(_, c)) => State(c, Nil)
    case Halted(Failed(_, w, _)) => State(Core(w, Nil, Nil, Nil, 0, 0), Nil)
  }

  function WorldOf(s: Run): World { if s.Running? then s.d.core.w else if s.o.Value? then s.o.left.w else s.o.w }

  function After(pc: nat, r: Ctl): Run {
    match r
    case Fall(d) => Running(pc + 1, d)
    case Goto(t, d) => Running(t, d)
    case Raise(f, d) => Route(f, d)
  }

  function Step(h: Host, u: Code, s: Run): Run {
    if s.Halted? then s
    else if s.pc >= |u.ops| then Halted(Value(Top(h, s.d.core), s.d.core))
    else After(s.pc, Exec(h, u.infos, u.ops[s.pc], s.d))
  }

  function Steps(h: Host, u: Code, s: Run, n: int): Run
    decreases n
  {
    if n <= 0 then s else Steps(h, u, Step(h, u, s), n - 1)
  }

  lemma {:induction false} StepsAdd(h: Host, u: Code, s: Run, m: nat, n: nat)
    ensures Steps(h, u, s, m + n) == Steps(h, u, Steps(h, u, s, m), n)
    decreases m
  {
    hide Step;
    if m > 0 { StepsAdd(h, u, Step(h, u, s), m - 1, n); }
  }

  lemma {:induction false} HaltedStays(h: Host, u: Code, s: Run, n: nat)
    requires s.Halted?
    ensures Steps(h, u, s, n) == s
    decreases n
  {
    hide Exec;
    if n > 0 { HaltedStays(h, u, s, n - 1); }
  }

  /** The unit, run from `s`, ends with outcome `o`. */
  ghost predicate Ends(h: Host, u: Code, s: Run, o: Outcome) {
    exists n: nat :: Steps(h, u, s, n) == Halted(o)
  }

  ghost predicate Reaches(h: Host, u: Code, s: Run, t: Run) {
    exists n: nat :: Steps(h, u, s, n) == t
  }

  // ── list facts ──

  lemma {:induction false} TruncateDepth<T>(l: List<T>, n: nat)
    ensures Depth(Truncate(l, n)) == if Depth(l) <= n then Depth(l) else n
  {
    if Depth(l) > n { TruncateDepth(l.tail, n); }
  }

  lemma {:induction false} TruncateTwice<T>(l: List<T>, m: nat, n: nat)
    requires n <= m
    ensures Truncate(Truncate(l, m), n) == Truncate(l, n)
  {
    if Depth(l) > m { TruncateTwice(l.tail, m, n); }
  }

  lemma {:induction false} TruncateSame<T>(l: List<T>)
    ensures Truncate(l, Depth(l)) == l
  {
  }
}

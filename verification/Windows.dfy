/** The optimiser's window tables and, for each entry, the proof that the one
    instruction does exactly what its window does. */
module Windows {
  import opened Options
  import opened Opcodes
  import opened Arith
  import opened Machine
  import opened Laws
  import opened Rewriting

  // ── the tables ──

  predicate PushesInt(op: OpCode) { op.Push? && op.lit.Int? }

  predicate PushesConst(op: OpCode) { op.Push? && op.lit.Const? }

  /** `x op y` on two locations, or on a location and an immediate: the
      operand reads folded into an addition or a comparison. */
  function OperandRule(a: OpCode, b: OpCode, e: OpCode): Option<FusedOp> {
    if a.Load? && b.Load? then
      if e == Bin(Add) then Some(AddRR(a.x, b.x))
      else if CmpCcOf(e).Some? then Some(CmpRR(a.x, b.x, CmpCcOf(e).value)) else None
    else if a.Load? && PushesInt(b) then
      if e == Bin(Add) then Some(AddRI(a.x, b.lit.n))
      else if CmpCcOf(e).Some? then Some(CmpRI(a.x, b.lit.n, CmpCcOf(e).value)) else None
    else if PushesInt(a) && b.Load? && CmpCcOf(e).Some? then
      Some(CmpRI(b.x, a.lit.n, CmpCcMirror(CmpCcOf(e).value)))
    else None
  }

  predicate OnSlots(op: OpCode) { op.Load? ==> op.x.Slot? }

  predicate OnNames(op: OpCode) { op.Load? ==> op.x.Name? }

  /** The first peephole stage: the same window, slots only. */
  function SlotRule(a: OpCode, b: OpCode, e: OpCode): Option<OpCode> {
    if OnSlots(a) && OnSlots(b) && OperandRule(a, b, e).Some?
    then Some(Super(OperandRule(a, b, e).value)) else None
  }

  function FoldRule(a: OpCode, b: OpCode, e: OpCode): Option<OpCode> {
    if PushesInt(a) && PushesInt(b) && Fold(e, a.lit.n, b.lit.n).Some?
    then Some(Push(Fold(e, a.lit.n, b.lit.n).value)) else None
  }

  /** The two-instruction peepholes, with the width they consume. */
  function PairRule(a: OpCode, b: OpCode): Option<(OpCode, nat)> {
    match a
    case Store(Name(x)) => if b.Pop? then Some((Super(StorePop(Name(x))), 2)) else None
    case Push(Int(n)) =>
      if (n == 0 || n == 1) && b.JumpIf? then Some((Push(if n == 1 then True else False), 1)) else None
    case Un(Not) => if b == Un(Not) then Some((Nop, 2)) else None
    case _ => None
  }

  function FusePair(a: OpCode, b: OpCode): Option<OpCode> {
    if a.Super? then FuseSuper(a.f, b)
    else if a.BeginCmd? then FuseBegin(a.site, b)
    else if a.SubEnd? then FuseEnd(b)
    else if a.Mark? then if b.BeginCmd? then FuseMark(a.m, b.site) else None
    else if b.Pop? then FuseDrop(a)
    else if PushesConst(a) && b == Mark(SubMark) then Some(Super(PushConstSubMark(a.lit.i)))
    else None
  }

  function FuseSuper(g: FusedOp, b: OpCode): Option<OpCode> {
    if g.CmpRR? && b.JumpIf? then Some(Super(CmpRRJump(g.a, g.b, g.cc, b.want, b.t)))
    else if g.CmpRI? && b.JumpIf? then Some(Super(CmpRIJump(g.a, g.k, g.cc, b.want, b.t)))
    else if g.ExprMarkBeginCmd? && PushesConst(b) then Some(Super(ExprMarkBeginPushConst(g.site, b.lit.i)))
    else None
  }

  function FuseBegin(s: nat, b: OpCode): Option<OpCode> {
    if b == Mark(SubMark) then Some(Super(BeginCmdSubMark(s)))
    else if PushesConst(b) then Some(Super(BeginCmdPushConst(s, b.lit.i)))
    else if b.Super? && b.f.IncrPop? then Some(Super(BeginCmdIncrPop(s, b.f.x, b.f.k)))
    else None
  }

  function FuseEnd(b: OpCode): Option<OpCode> {
    if b.Super? && b.f.StorePop? then Some(Super(SubEndStorePop(b.f.x)))
    else if b.Return? then Some(Super(SubEndReturn))
    else if b.Call? then Some(Super(SubEndCall(b.dyn, b.id, b.argc)))
    else if b == Bin(Add) then Some(Super(SubEndAdd))
    else None
  }

  function FuseMark(m: MarkOp, s: nat): Option<OpCode> {
    if m.ExprMark? then Some(Super(ExprMarkBeginCmd(s)))
    else if m.SubMark? then Some(Super(SubMarkBeginCmd(s)))
    else if m.NextMark? then Some(Super(NextMarkBeginCmd(s)))
    else None
  }

  /** A result nobody wants. */
  function FuseDrop(a: OpCode): Option<OpCode> {
    if a.Push? then Some(Nop)
    else if a.Incr? then Some(Super(IncrPop(a.x, a.k)))
    else if a.Store? && a.x.Slot? then Some(Super(StorePop(a.x)))
    else None
  }

  predicate InI32(k: int) { -0x8000_0000 <= k < 0x8000_0000 }

  function FuseTriple(a: OpCode, b: OpCode, e: OpCode): Option<OpCode> {
    if a.Load? && b.Lappend? then
      if e.Pop? && a.x.Slot? == b.x.Slot? then Some(Super(LappendMove(a.x, b.x))) else None
    else if a.Load? && a.x.Slot? && PushesInt(b) then
      if e == Bin(BinOp.Sub) then Some(Super(SubRI(a.x, b.lit.n))) else None
    else if a.Load? && a.x.Slot? && b.Load? && b.x.Slot? then
      if e == Bin(BinOp.Sub) then Some(Super(SubRR(a.x, b.x))) else None
    else if a == Super(SwapToNextMark) && b.Super? && b.f.BeginCmdIncrPop? then
      if e.Jump? && InI32(b.f.k) then Some(Super(ForNextIncr(b.f.site, b.f.x, b.f.k, e.t))) else None
    else if OnNames(a) && OnNames(b) && OperandRule(a, b, e).Some? then
      Some(Super(OperandRule(a, b, e).value))
    else None
  }

  predicate AllSlots(a: Loc, b: Loc, x: Loc) { a.Slot? && b.Slot? && x.Slot? }

  predicate AllNames(a: Loc, b: Loc, x: Loc) { a.Name? && b.Name? && x.Name? }

  function FuseQuad(a: OpCode, b: OpCode, e: OpCode, g: OpCode): Option<OpCode> {
    if a.Super? && a.f.BeginCmdSubMark? && b.BeginCmd? && e.Super? && e.f.AddRR? && g.Super? && g.f.SubEndStorePop?
       && (AllSlots(e.f.a, e.f.b, g.f.x) || AllNames(e.f.a, e.f.b, g.f.x))
    then Some(Super(SetAdd(a.f.site, b.site, e.f.a, e.f.b, g.f.x))) else None
  }

  // ── sequences of core moves ──

  function Then(h: Host, r: CoreCtl, op: OpCode, top: Option<Entry>): CoreCtl {
    if r.CFall? then ExecCore(h, op, r.c, top) else r
  }

  lemma ExecCons(h: Host, infos: seq<ForeachInfo>, op: OpCode, rest: seq<OpCode>, d: State)
    requires !IsLoopOp(op)
    ensures ExecSeq(h, infos, [op] + rest, d)
         == var r := ExecCore(h, op, d.core, Innermost(d.loops));
            if r.CFall? then ExecSeq(h, infos, rest, State(r.c, d.loops)) else Lift(r, d.loops)
  {
    hide ExecCore;
    assert ([op] + rest)[1..] == rest;
  }

  lemma Seq2(h: Host, infos: seq<ForeachInfo>, a: OpCode, b: OpCode, d: State)
    requires !IsLoopOp(a) && !IsLoopOp(b)
    ensures ExecSeq(h, infos, [a, b], d)
         == var top := Innermost(d.loops); Lift(Then(h, ExecCore(h, a, d.core, top), b, top), d.loops)
  {
    hide Exec, ExecCore;
    var r := ExecCore(h, a, d.core, Innermost(d.loops));
    assert [a] + [b] == [a, b];
    ExecCons(h, infos, a, [b], d);
    if r.CFall? {
      assert [b] + [] == [b];
      ExecCons(h, infos, b, [], State(r.c, d.loops));
    }
  }

  lemma Seq3(h: Host, infos: seq<ForeachInfo>, a: OpCode, b: OpCode, e: OpCode, d: State)
    requires !IsLoopOp(a) && !IsLoopOp(b) && !IsLoopOp(e)
    ensures ExecSeq(h, infos, [a, b, e], d)
         == var top := Innermost(d.loops);
            Lift(Then(h, Then(h, ExecCore(h, a, d.core, top), b, top), e, top), d.loops)
  {
    hide Exec, ExecCore;
    var r := ExecCore(h, a, d.core, Innermost(d.loops));
    assert [a] + [b, e] == [a, b, e];
    ExecCons(h, infos, a, [b, e], d);
    if r.CFall? { Seq2(h, infos, b, e, State(r.c, d.loops)); }
  }

  lemma Seq4(h: Host, infos: seq<ForeachInfo>, a: OpCode, b: OpCode, e: OpCode, g: OpCode, d: State)
    requires !IsLoopOp(a) && !IsLoopOp(b) && !IsLoopOp(e) && !IsLoopOp(g)
    ensures ExecSeq(h, infos, [a, b, e, g], d)
         == var top := Innermost(d.loops);
            Lift(Then(h, Then(h, Then(h, ExecCore(h, a, d.core, top), b, top), e, top), g, top), d.loops)
  {
    hide Exec, ExecCore;
    var r := ExecCore(h, a, d.core, Innermost(d.loops));
    assert [a] + [b, e, g] == [a, b, e, g];
    ExecCons(h, infos, a, [b, e, g], d);
    if r.CFall? { Seq3(h, infos, b, e, g, State(r.c, d.loops)); }
  }

  // ── soundness of the tables ──

  lemma Mirrored(h: Host, cc: nat, a: Val, b: Val)
    requires Lawful(h) && cc <= 5
    ensures BinVal(h, CmpBin(cc), a, b) == BinVal(h, CmpBin(CmpCcMirror(cc)), b, a)
  {
  }

  function Two(h: Host, a: OpCode, b: OpCode, c: Core, top: Option<Entry>): CoreCtl {
    Then(h, ExecCore(h, a, c, top), b, top)
  }

  function Three(h: Host, a: OpCode, b: OpCode, e: OpCode, c: Core, top: Option<Entry>): CoreCtl {
    Then(h, Two(h, a, b, c, top), e, top)
  }

  lemma ReadRead(h: Host, x: Loc, y: Loc, op: BinOp, c: Core, top: Option<Entry>)
    requires RoomFor(c, top, 0)
    ensures Three(h, Load(x), Load(y), Bin(op), c, top) == ReadBin(h, c, x, y, op, top)
  {
    hide ExecFused;
  }

  lemma ReadImm(h: Host, x: Loc, k: int, op: BinOp, c: Core, top: Option<Entry>)
    requires RoomFor(c, top, 0)
    ensures Three(h, Load(x), Push(Int(k)), Bin(op), c, top) == ReadBinImm(h, c, x, k, op, top)
  {
    hide ExecFused;
  }

  /** The immediate on the left: the comparison is mirrored. */
  lemma ImmRead(h: Host, y: Loc, k: int, cc: nat, c: Core, top: Option<Entry>)
    requires RoomFor(c, top, 0) && Lawful(h) && cc <= 5
    ensures Three(h, Push(Int(k)), Load(y), CmpOpOf(cc), c, top)
         == ReadBinImm(h, c, y, k, CmpBin(CmpCcMirror(cc)), top)
  {
    hide ExecFused, BinVal;
    var r := h.ask(c.w, Read(y));
    if r.1.Ok? { Mirrored(h, cc, Num(k), r.1.v); }
  }

  lemma OperandSound(h: Host, a: OpCode, b: OpCode, e: OpCode, c: Core, top: Option<Entry>)
    requires OperandRule(a, b, e).Some? && Lawful(h) && RoomFor(c, top, 0)
    ensures Three(h, a, b, e, c, top) == ExecCore(h, Super(OperandRule(a, b, e).value), c, top)
  {
    hide Three, ReadBin, ReadBinImm;
    match (a, b)
    case (Load(x), Load(y)) => ReadRead(h, x, y, e.bin, c, top);
    case (Load(x), Push(Int(k))) => ReadImm(h, x, k, e.bin, c, top);
    case (Push(Int(k)), Load(y)) => ImmRead(h, y, k, CmpCcOf(e).value, c, top);
  }

  lemma FoldSound(h: Host, a: OpCode, b: OpCode, e: OpCode, c: Core, top: Option<Entry>)
    requires FoldRule(a, b, e).Some? && InI64(a.lit.n) && InI64(b.lit.n)
    ensures Three(h, a, b, e, c, top) == ExecCore(h, FoldRule(a, b, e).value, c, top)
  {
    hide ExecFused, BinVal;
    var m, n := a.lit.n, b.lit.n;
    FoldExact(e, m, n);
    FoldedBin(h, e.bin, m, n, Fold(e, m, n).value);
  }

  lemma FoldedBin(h: Host, op: BinOp, m: int, n: int, lit: Lit)
    requires IntBin(op, m, n) == Some(LitInt(lit)) && (lit.Int? || lit.True? || lit.False?)
    ensures BinVal(h, op, Num(m), Num(n)) == Ok(LitVal(h, lit))
  {
  }

  /** `Not; Not` may be dropped exactly on a 0/1 operand. */
  lemma DoubleNot(h: Host, c: Core, top: Option<Entry>)
    requires c.stack.Cons? && NotsAgree(h)
    ensures Two(h, Un(Not), Un(Not), c, top) == CFall(c) <==> IsBit(Top(h, c))
  {
    hide ExecFused;
    var x := c.stack.head;
    if x.Num? {
      assert Two(h, Un(Not), Un(Not), c, top) == CFall(c.(stack := Cons(OfBool(x.n != 0), c.stack.tail)));
    } else if h.un(Not, x).Ok? {
      var n := h.un(Not, x).v.n;
      assert Two(h, Un(Not), Un(Not), c, top) == CFall(c.(stack := Cons(OfBool(n == 0), c.stack.tail)));
    }
  }

  /** In front of a branch they may be dropped exactly when `!` can be taken of
      the operand, or fails as the branch does. */
  lemma DoubleNotBranch(h: Host, want: bool, t: nat, c: Core, top: Option<Entry>)
    requires c.stack.Cons? && NotsAgree(h)
    ensures Three(h, Un(Not), Un(Not), JumpIf(want, t), c, top) == ExecCore(h, JumpIf(want, t), c, top)
       <==> Boolish(h, Top(h, c)) || h.truth(Top(h, c)) == Objects(h.un(Not, Top(h, c)).f)
  {
    hide ExecFused, Settle;
    var x := c.stack.head;
    if Boolish(h, x) { DoubleNotTested(h, want, t, c, top); }
    else { assert Three(h, Un(Not), Un(Not), JumpIf(want, t), c, top) == Raised(h.un(Not, x).f, Popped(c), top); }
  }

  lemma DoubleNotTested(h: Host, want: bool, t: nat, c: Core, top: Option<Entry>)
    requires c.stack.Cons? && NotsAgree(h) && Boolish(h, Top(h, c))
    ensures Three(h, Un(Not), Un(Not), JumpIf(want, t), c, top) == ExecCore(h, JumpIf(want, t), c, top)
  {
    hide ExecFused, Branch;
    var x := c.stack.head;
    var b := if x.Num? then x.n != 0 else h.un(Not, x).v == Num(0);
    assert Two(h, Un(Not), Un(Not), c, top) == CFall(c.(stack := Cons(OfBool(b), c.stack.tail)));
    assert Truth(h, x) == Says(b);
  }

  /** In front of a third one they may always be dropped. */
  lemma TripleNot(h: Host, c: Core, top: Option<Entry>)
    requires c.stack.Cons? && NotsAgree(h)
    ensures Three(h, Un(Not), Un(Not), Un(Not), c, top) == ExecCore(h, Un(Not), c, top)
  {
    hide ExecFused;
    var x := c.stack.head;
    if Boolish(h, x) {
      var b := if x.Num? then x.n != 0 else h.un(Not, x).v == Num(0);
      assert Two(h, Un(Not), Un(Not), c, top) == CFall(c.(stack := Cons(OfBool(b), c.stack.tail)));
    }
  }

  lemma BitTwice(h: Host, c: Core, top: Option<Entry>)
    requires c.stack.Cons? && IsBit(Top(h, c))
    ensures Two(h, Un(Not), Un(Not), c, top) == CFall(c)
  {
    hide ExecFused;
    assert Two(h, Un(Not), Un(Not), c, top)
        == CFall(c.(stack := Cons(OfBool(c.stack.head.n != 0), c.stack.tail)));
  }

  lemma PairSound(h: Host, a: OpCode, b: OpCode, c: Core, top: Option<Entry>)
    requires PairRule(a, b).Some? && PairRule(a, b).value.1 == 2
    requires RoomFor(c, top, if a.Store? then 1 else 0)
    requires a == Un(Not) ==> c.stack.Cons? && IsBit(Top(h, c))
    ensures Two(h, a, b, c, top) == ExecCore(h, PairRule(a, b).value.0, c, top)
  {
    if a.Un? { hide Two, ExecFused; BitTwice(h, c, top); }
  }

  lemma LiteralSound(h: Host, a: OpCode, b: OpCode, c: Core, top: Option<Entry>)
    requires PairRule(a, b).Some? && PairRule(a, b).value.1 == 1
    ensures ExecCore(h, a, c, top) == ExecCore(h, PairRule(a, b).value.0, c, top)
  {
    hide ExecFused;
  }

  /** A comparison pushed and at once popped by a branch. */
  lemma BranchOnReply(h: Host, c: Core, op: BinOp, x: Val, y: Val, want: bool, t: nat, top: Option<Entry>)
    requires IsCmp(op)
    ensures Branches(h, Pushed(c, BinVal(h, op, x, y).v), want, t, top) == Branch(c, CmpBool(h, op, x, y), want, t)
  {
  }

  lemma BranchSound(h: Host, x: Loc, y: Loc, cc: nat, want: bool, t: nat, c: Core, top: Option<Entry>)
    ensures Two(h, Super(CmpRR(x, y, cc)), JumpIf(want, t), c, top)
         == ExecCore(h, Super(CmpRRJump(x, y, cc, want, t)), c, top)
  {
    hide Branch, Branches;
    var ra := Asked(h, c, Read(x));
    if ra.1.Ok? {
      var rb := Asked(h, ra.0, Read(y));
      if rb.1.Ok? { BranchOnReply(h, rb.0, CmpBin(cc), ra.1.v, rb.1.v, want, t, top); }
    }
  }

  lemma BranchImmSound(h: Host, x: Loc, k: int, cc: nat, want: bool, t: nat, c: Core, top: Option<Entry>)
    ensures Two(h, Super(CmpRI(x, k, cc)), JumpIf(want, t), c, top)
         == ExecCore(h, Super(CmpRIJump(x, k, cc, want, t)), c, top)
  {
    hide Branch, Branches;
    var ra := Asked(h, c, Read(x));
    if ra.1.Ok? { BranchOnReply(h, ra.0, CmpBin(cc), ra.1.v, Num(k), want, t, top); }
  }

  lemma DiscardSound(h: Host, a: OpCode, c: Core, top: Option<Entry>)
    requires FusePair(a, Pop).Some?
    requires RoomFor(c, top, if a.Store? then 1 else 0)
    ensures Two(h, a, Pop, c, top) == ExecCore(h, Made(FusePair(a, Pop)), c, top)
  {
    hide Exec;
  }

  lemma CloseSound(h: Host, b: OpCode, c: Core, top: Option<Entry>)
    requires FusePair(SubEnd, b).Some?
    ensures Two(h, SubEnd, b, c, top) == ExecCore(h, Made(FusePair(SubEnd, b)), c, top)
  {
    hide AskDrop, Dispatch, ExecBin, Raised, ExecFused;
    assert Two(h, SubEnd, b, c, top) == ExecCore(h, b, Closed(c), top);
    var g := FusePair(SubEnd, b).value.f;
    SuperRuns(h, g, c, top);
    ClosesFirst(h, b, g, c, top);
  }

  lemma ClosesFirst(h: Host, b: OpCode, g: FusedOp, c: Core, top: Option<Entry>)
    requires FusePair(SubEnd, b) == Some(Super(g))
    ensures ExecFused(h, g, c, top) == ExecCore(h, b, Closed(c), top)
  {
    hide AskDrop, Dispatch, ExecBin, Raised;
  }

  /** A region opened, and the command in it begun. */
  lemma OpeningSound(h: Host, m: MarkOp, s: nat, c: Core, top: Option<Entry>)
    requires FuseMark(m, s).Some?
    ensures Two(h, Mark(m), BeginCmd(s), c, top) == ExecCore(h, Made(FuseMark(m, s)), c, top)
  {
    hide BeginAt;
  }

  lemma ConstSound(h: Host, a: OpCode, b: OpCode, c: Core, top: Option<Entry>)
    requires FusePair(a, b).Some? && ((PushesConst(a) && b == Mark(SubMark)) || (a.Super? && a.f.ExprMarkBeginCmd?))
    ensures Two(h, a, b, c, top) == ExecCore(h, Made(FusePair(a, b)), c, top)
  {
    hide BeginAt, LitVal;
  }

  lemma BeginSound(h: Host, s: nat, b: OpCode, c: Core, top: Option<Entry>)
    requires FusePair(BeginCmd(s), b).Some?
    ensures Two(h, BeginCmd(s), b, c, top) == ExecCore(h, Made(FusePair(BeginCmd(s), b)), c, top)
  {
    hide BeginAt, AskDrop;
  }

  lemma FusePairSound(h: Host, a: OpCode, b: OpCode, c: Core, top: Option<Entry>)
    requires FusePair(a, b).Some?
    requires RoomFor(c, top, if a.Store? then 1 else 0)
    ensures Two(h, a, b, c, top) == ExecCore(h, Made(FusePair(a, b)), c, top)
  {
    hide ExecCore, Two;
    if b.Pop? { DiscardSound(h, a, c, top); }
    else if a.SubEnd? { CloseSound(h, b, c, top); }
    else if b.JumpIf? {
      var g := a.f;
      if g.CmpRR? { BranchSound(h, g.a, g.b, g.cc, b.want, b.t, c, top); }
      else { BranchImmSound(h, g.a, g.k, g.cc, b.want, b.t, c, top); }
    }
    else if a.BeginCmd? { BeginSound(h, a.site, b, c, top); }
    else if a.Mark? { OpeningSound(h, a.m, b.site, c, top); }
    else { ConstSound(h, a, b, c, top); }
  }

  lemma LappendSound(h: Host, s: Loc, x: Loc, c: Core, top: Option<Entry>)
    ensures Three(h, Load(s), Lappend(x), Pop, c, top) == ExecCore(h, Super(LappendMove(s, x)), c, top)
  {
  }

  lemma SuperRuns(h: Host, g: FusedOp, c: Core, top: Option<Entry>)
    ensures ExecCore(h, Super(g), c, top) == ExecFused(h, g, c, top)
  {
    hide ExecFused;
  }

  lemma JumpRuns(h: Host, t: nat, c: Core, top: Option<Entry>)
    ensures ExecCore(h, Jump(t), c, top) == CGoto(t, Closed(c))
  {
    hide ExecFused;
  }

  lemma ForTailSound(h: Host, s: nat, x: Loc, k: int, t: nat, c: Core, top: Option<Entry>)
    ensures Three(h, Super(SwapToNextMark), Super(BeginCmdIncrPop(s, x, k)), Jump(t), c, top)
         == ExecCore(h, Super(ForNextIncr(s, x, k, t)), c, top)
  {
    hide BeginAt, AskDrop, SwapToNext, ExecCore;
    SuperRuns(h, SwapToNextMark, c, top);
    SuperRuns(h, ForNextIncr(s, x, k, t), c, top);
    SuperRuns(h, BeginCmdIncrPop(s, x, k), SwapToNext(c, top), top);
    var r := ExecFused(h, BeginCmdIncrPop(s, x, k), SwapToNext(c, top), top);
    if r.CFall? { JumpRuns(h, t, r.c, top); }
  }

  lemma FuseTripleSound(h: Host, a: OpCode, b: OpCode, e: OpCode, c: Core, top: Option<Entry>)
    requires FuseTriple(a, b, e).Some? && Lawful(h) && RoomFor(c, top, 0)
    ensures Three(h, a, b, e, c, top) == ExecCore(h, Made(FuseTriple(a, b, e)), c, top)
  {
    hide Three;
    if b.Lappend? { hide ExecCore; LappendSound(h, a.x, b.x, c, top); }
    else if a.Super? { hide ExecCore; ForTailSound(h, b.f.site, b.f.x, b.f.k, e.t, c, top); }
    else if e == Bin(BinOp.Sub) {
      hide ReadBin, ReadBinImm;
      if b.Push? { ReadImm(h, a.x, b.lit.n, BinOp.Sub, c, top); } else { ReadRead(h, a.x, b.x, BinOp.Sub, c, top); }
    }
    else { hide ExecCore; OperandSound(h, a, b, e, c, top); }
  }

  lemma BeginRuns(h: Host, s: nat, c: Core, top: Option<Entry>)
    ensures ExecCore(h, BeginCmd(s), c, top) == BeginAt(h, c, s, top)
  {
    hide BeginAt, ExecFused;
  }

  lemma SetAddSound(h: Host, s: nat, t: nat, x: Loc, y: Loc, z: Loc, c: Core, top: Option<Entry>)
    ensures Then(h, Three(h, Super(BeginCmdSubMark(s)), BeginCmd(t), Super(AddRR(x, y)), c, top),
        Super(SubEndStorePop(z)), top)
         == ExecCore(h, Super(SetAdd(s, t, x, y, z)), c, top)
  {
    hide BeginAt, AskDrop, BinVal, ExecCore;
    SuperRuns(h, SetAdd(s, t, x, y, z), c, top);
    SuperRuns(h, BeginCmdSubMark(s), c, top);
    var r1 := ExecFused(h, BeginCmdSubMark(s), c, top);
    if r1.CFall? {
      BeginRuns(h, t, r1.c, top);
      var r2 := BeginAt(h, r1.c, t, top);
      if r2.CFall? {
        SuperRuns(h, AddRR(x, y), r2.c, top);
        var r3 := ExecFused(h, AddRR(x, y), r2.c, top);
        if r3.CFall? { SuperRuns(h, SubEndStorePop(z), r3.c, top); }
      }
    }
  }

  lemma FuseQuadSound(h: Host, a: OpCode, b: OpCode, e: OpCode, g: OpCode, c: Core, top: Option<Entry>)
    requires FuseQuad(a, b, e, g).Some?
    ensures Then(h, Three(h, a, b, e, c, top), g, top) == ExecCore(h, Made(FuseQuad(a, b, e, g)), c, top)
  {
    hide ExecCore, Three;
    SetAddSound(h, a.f.site, b.site, e.f.a, e.f.b, g.f.x, c, top);
  }
}

/** Expanding the superinstructions keeps the meaning of a unit.  The expansion
    of the loop-closing ones leaves regions behind, so with them runs are
    compared without regions, sites and error trails. */
module UnfusedSoundness {
  import opened Options
  import opened Opcodes
  import opened Machine
  import opened Simulation
  import opened Discipline
  import opened Rewriting
  import opened Laws
  import opened Windows
  import opened Trampolines
  import opened Unfusing
  import opened Levels

  // ── what is compared ──

  function BlindCore(c: Core): Core { c.(bodies := Nil, site := 0) }

  function BlindEntry(e: Entry): Entry { Entry(0, e.stackLen, 0) }

  function BlindTop(top: Option<Entry>): Option<Entry> { if top.None? then None else Some(BlindEntry(top.value)) }

  function BlindLoops(loops: List<LoopFrame>): List<LoopFrame> {
    match loops
    case Nil => Nil
    case Cons(l, rest) => Cons(LoopFrame(l.cont, l.brk, BlindEntry(l.at)), BlindLoops(rest))
  }

  /** With `blind`, a state without its regions and sites. */
  function View(blind: bool, d: State): State { if blind then State(BlindCore(d.core), BlindLoops(d.loops)) else d }

  function ViewCore(blind: bool, r: CoreCtl): CoreCtl {
    if !blind then r
    else match r
      case CFall(c) => CFall(BlindCore(c))
      case CGoto(t, c) => CGoto(t, BlindCore(c))
      case CRaise(f, c) => CRaise(f, BlindCore(c))
  }

  function ViewCtl(blind: bool, r: Ctl): Ctl {
    match r
    case Fall(d) => Fall(View(blind, d))
    case Goto(t, d) => Goto(t, View(blind, d))
    case Raise(f, d) => Raise(f, View(blind, d))
  }

  function ViewOut(blind: bool, o: Outcome): Outcome {
    if !blind then o
    else match o
      case Value(v, c) => Outcome.Value(v, BlindCore(c))
      case Failed(f, w, _) => Failed(f, w, None)
  }

  function ViewRun(blind: bool, s: Run): Run {
    match s case Running(pc, d) => Running(pc, View(blind, d)) case Halted(o) => Halted(ViewOut(blind, o))
  }

  // ── premises ──

  /** Operands stay above the innermost loop's entry. */
  ghost predicate RunsRoomy(h: Host, u: Code, s: Run) {
    forall pc: nat, d | Reaches(h, u, s, Running(pc, d)) ::
      RoomFor(d.core, Innermost(d.loops), if Holding(OpAt(u.ops, pc)) then 1 else 0)
  }

  // ── instructions under the view ──

  lemma BlindFused(h: Host, g: FusedOp, c: Core, top: Option<Entry>)
    ensures ViewCore(true, ExecFused(h, g, c, top)) == ViewCore(true, ExecFused(h, g, BlindCore(c), BlindTop(top)))
  {
    hide ExecFused;
    if ReadsOperands(g) { BlindReads(h, g, c, top); }
    else if Swaps(Super(g)) { BlindSwaps(h, g, c, top); }
    else { BlindOthers(h, g, c, top); }
  }

  lemma BlindReads(h: Host, g: FusedOp, c: Core, top: Option<Entry>)
    requires ReadsOperands(g)
    ensures ViewCore(true, ExecFused(h, g, c, top)) == ViewCore(true, ExecFused(h, g, BlindCore(c), BlindTop(top)))
  {
    hide Truncate, BinVal, CmpBool, ExecSetAdd;
    if g.SetAdd? { BlindSetAdd(h, g, c, top); }
  }

  lemma BlindSetAdd(h: Host, g: FusedOp, c: Core, top: Option<Entry>)
    requires g.SetAdd?
    ensures ViewCore(true, ExecFused(h, g, c, top)) == ViewCore(true, ExecFused(h, g, BlindCore(c), BlindTop(top)))
  {
    hide Truncate, BinVal;
  }

  lemma BlindSwaps(h: Host, g: FusedOp, c: Core, top: Option<Entry>)
    requires Swaps(Super(g))
    ensures ViewCore(true, ExecFused(h, g, c, top)) == ViewCore(true, ExecFused(h, g, BlindCore(c), BlindTop(top)))
  {
    hide Truncate;
  }

  lemma BlindOthers(h: Host, g: FusedOp, c: Core, top: Option<Entry>)
    requires !ReadsOperands(g) && !Swaps(Super(g))
    ensures ViewCore(true, ExecFused(h, g, c, top)) == ViewCore(true, ExecFused(h, g, BlindCore(c), BlindTop(top)))
  {
    hide Truncate, BinVal, TakeArgs;
  }

  lemma BlindExec(h: Host, op: OpCode, c: Core, top: Option<Entry>)
    requires !IsLoopOp(op)
    ensures ViewCore(true, ExecCore(h, op, c, top)) == ViewCore(true, ExecCore(h, op, BlindCore(c), BlindTop(top)))
  {
    hide ExecFused, Truncate, BinVal, TakeArgs, UnVal, PushAll;
    if op.Super? { SuperRuns(h, op.f, c, top); SuperRuns(h, op.f, BlindCore(c), BlindTop(top));
        BlindFused(h, op.f, c, top); }
    else if op.Loop? { BlindForeach(h, op, c, top); }
    else if Asks(op) { BlindAsks(h, op, c, top); }
  }

  /** Instructions that put a question to the interpreter. */
  predicate Asks(op: OpCode) {
    op.Load? || op.Store? || op.Incr? || op.Lappend? || op.Call? || op.CallExpand? || op.EvalScript? || op.EvalExpr?
        || op.BeginCmd?
  }

  lemma BlindAsks(h: Host, op: OpCode, c: Core, top: Option<Entry>)
    requires Asks(op)
    ensures ViewCore(true, ExecCore(h, op, c, top)) == ViewCore(true, ExecCore(h, op, BlindCore(c), BlindTop(top)))
  {
    hide ExecCore, ViewCore;
    if op.Call? || op.CallExpand? || op.BeginCmd? { BlindCalls(h, op, c, top); } else { BlindAccess(h, op, c, top); }
  }

  lemma BlindCalls(h: Host, op: OpCode, c: Core, top: Option<Entry>)
    requires op.Call? || op.CallExpand? || op.BeginCmd?
    ensures ViewCore(true, ExecCore(h, op, c, top)) == ViewCore(true, ExecCore(h, op, BlindCore(c), BlindTop(top)))
  {
    hide ExecFused, Truncate, TakeArgs;
  }

  lemma BlindAccess(h: Host, op: OpCode, c: Core, top: Option<Entry>)
    requires Asks(op) && !op.Call? && !op.CallExpand? && !op.BeginCmd?
    ensures ViewCore(true, ExecCore(h, op, c, top)) == ViewCore(true, ExecCore(h, op, BlindCore(c), BlindTop(top)))
  {
    hide ExecFused, Truncate, TakeArgs;
  }

  lemma BlindForeach(h: Host, op: OpCode, c: Core, top: Option<Entry>)
    requires op.Loop? && !IsLoopOp(op)
    ensures ViewCore(true, ExecCore(h, op, c, top)) == ViewCore(true, ExecCore(h, op, BlindCore(c), BlindTop(top)))
  {
    hide ExecFused, Truncate;
  }

  lemma {:induction false} SeqMapped(h: Host, infos: seq<ForeachInfo>, ops: seq<OpCode>, d: State, f: seq<nat>)
    ensures ExecSeq(h, infos, MapAll(ops, f), MapState(d, f)) == MapCtl(ExecSeq(h, infos, ops, d), f)
  {
    hide Exec, MapOp;
    if ops != [] {
      ExecMapped(h, infos, ops[0], d, f);
      var r := Exec(h, infos, ops[0], d);
      assert MapAll(ops, f)[1..] == MapAll(ops[1..], f);
      if r.Fall? { SeqMapped(h, infos, ops[1..], r.d, f); }
    }
  }

  // ── renaming ──

  lemma AfterMapped(pc: nat, q: nat, r: Ctl, f: seq<nat>)
    requires At(f, pc + 1) == q + 1
    ensures After(q, MapCtl(r, f)) == MapRun(After(pc, r), f)
  {
    hide Route;
    if r.Raise? { RouteMapped(r.f, r.d, f); }
  }

  // ── one instruction and its expansion ──

  function CoreSeq(h: Host, ops: seq<OpCode>, c: Core, top: Option<Entry>): CoreCtl {
    if ops == [] then CFall(c)
    else
      var r := ExecCore(h, ops[0], c, top);
      if r.CFall? then CoreSeq(h, ops[1..], r.c, top) else r
  }

  lemma {:induction false} SeqCore(h: Host, infos: seq<ForeachInfo>, ops: seq<OpCode>, d: State)
    requires forall k | 0 <= k < |ops| :: !IsLoopOp(ops[k])
    ensures ExecSeq(h, infos, ops, d) == Lift(CoreSeq(h, ops, d.core, Innermost(d.loops)), d.loops)
  {
    hide ExecCore;
    if ops != [] {
      var r := ExecCore(h, ops[0], d.core, Innermost(d.loops));
      if r.CFall? { SeqCore(h, infos, ops[1..], State(r.c, d.loops)); }
    }
  }

  lemma {:induction false} CoreSeqAdd(h: Host, a: seq<OpCode>, b: seq<OpCode>, c: Core, top: Option<Entry>)
    ensures var r := CoreSeq(h, a, c, top); CoreSeq(h, a + b, c, top) == if r.CFall? then CoreSeq(h, b, r.c, top) else r
  {
    hide ExecCore;
    if a == [] {
      assert a + b == b;
    } else {
      assert (a + b)[1..] == a[1..] + b;
      var r := ExecCore(h, a[0], c, top);
      if r.CFall? { CoreSeqAdd(h, a[1..], b, r.c, top); }
    }
  }

  lemma Core1(h: Host, a: OpCode, c: Core, top: Option<Entry>)
    ensures CoreSeq(h, [a], c, top) == ExecCore(h, a, c, top)
  {
    hide ExecCore;
    var r := ExecCore(h, a, c, top);
    if r.CFall? { assert CoreSeq(h, [], r.c, top) == r; }
  }

  lemma Core2(h: Host, a: OpCode, b: OpCode, c: Core, top: Option<Entry>)
    ensures CoreSeq(h, [a, b], c, top) == Two(h, a, b, c, top)
  {
    hide ExecCore;
    Core1(h, a, c, top);
    CoreSeqAdd(h, [a], [b], c, top);
    var r := ExecCore(h, a, c, top);
    if r.CFall? { Core1(h, b, r.c, top); }
    assert [a] + [b] == [a, b];
  }

  lemma Core3(h: Host, a: OpCode, b: OpCode, e: OpCode, c: Core, top: Option<Entry>)
    ensures CoreSeq(h, [a, b, e], c, top) == Three(h, a, b, e, c, top)
  {
    hide ExecCore;
    Core2(h, a, b, c, top);
    CoreSeqAdd(h, [a, b], [e], c, top);
    var r := Two(h, a, b, c, top);
    if r.CFall? { Core1(h, e, r.c, top); }
    assert [a, b] + [e] == [a, b, e];
  }

  lemma AddsRun(h: Host, a: Loc, b: Loc, c: Core, top: Option<Entry>)
    requires RoomFor(c, top, 0)
    ensures CoreSeq(h, Adds(a, b), c, top) == ReadBin(h, c, a, b, BinOp.Add, top)
  {
    hide ReadBin, Three;
    if a.Slot? { Core1(h, Super(AddRR(a, b)), c, top); } else {
      Core3(h, Load(a), Load(b), Bin(BinOp.Add), c, top);
      ReadRead(h, a, b, BinOp.Add, c, top);
    }
  }

  lemma CmpRuns(h: Host, a: Loc, b: Loc, cc: nat, c: Core, top: Option<Entry>)
    requires RoomFor(c, top, 0)
    ensures CoreSeq(h, ReadsCmp(a, b, cc), c, top) == ReadBin(h, c, a, b, CmpBin(cc), top)
  {
    hide ReadBin, Three;
    if a.Slot? { Core1(h, Super(CmpRR(a, b, cc)), c, top); } else {
      Core3(h, Load(a), Load(b), CmpOpOf(cc), c, top);
      ReadRead(h, a, b, CmpBin(cc), c, top);
    }
  }

  lemma CmpImmRuns(h: Host, a: Loc, k: int, cc: nat, c: Core, top: Option<Entry>)
    requires RoomFor(c, top, 0)
    ensures CoreSeq(h, Unfusing.ReadCmpImm(a, k, cc), c, top) == ReadBinImm(h, c, a, k, CmpBin(cc), top)
  {
    hide ReadBinImm, Three;
    if a.Slot? { Core1(h, Super(CmpRI(a, k, cc)), c, top); } else {
      Core3(h, Load(a), Push(Int(k)), CmpOpOf(cc), c, top);
      ReadImm(h, a, k, CmpBin(cc), c, top);
    }
  }

  lemma StoresRun(h: Host, x: Loc, c: Core, top: Option<Entry>)
    requires RoomFor(c, top, 1)
    ensures CoreSeq(h, Stores(x), c, top) == ExecCore(h, Super(StorePop(x)), c, top)
  {
    hide ExecCore, Two;
    if x.Slot? {
      Core2(h, Store(x), Pop, c, top);
      DiscardSound(h, Store(x), c, top);
    } else {
      Core1(h, Super(StorePop(x)), c, top);
    }
  }

  lemma JumpRun(h: Host, first: seq<OpCode>, want: bool, t: nat, g: FusedOp, whole: FusedOp, c: Core,
          top: Option<Entry>)
    requires CoreSeq(h, first, c, top) == ExecCore(h, Super(g), c, top)
    requires Two(h, Super(g), JumpIf(want, t), c, top) == ExecCore(h, Super(whole), c, top)
    ensures CoreSeq(h, first + [JumpIf(want, t)], c, top) == ExecCore(h, Super(whole), c, top)
  {
    hide ExecCore;
    CoreSeqAdd(h, first, [JumpIf(want, t)], c, top);
    var r := CoreSeq(h, first, c, top);
    if r.CFall? { Core1(h, JumpIf(want, t), r.c, top); }
  }

  lemma SetAddRuns(h: Host, g: FusedOp, c: Core, top: Option<Entry>)
    requires g.SetAdd? && RoomFor(c, top, 0)
    ensures CoreSeq(h, ExpandFused(g), c, top) == ExecSetAdd(h, c, g.setSite, g.exprSite, g.a, g.b, g.dst, top)
  {
    hide ExecCore, BeginAt, BinVal, AskDrop, Adds, Stores;
    var open, adds, close := [BeginCmd(g.setSite), Mark(SubMark), BeginCmd(g.exprSite)], Adds(g.a, g.b), [SubEnd];
    var stores := Stores(g.dst);
    assert ExpandFused(g) == open + (adds + (close + stores));
    CoreSeqAdd(h, open, adds + (close + stores), c, top);
    SetAddOpens(h, g.setSite, g.exprSite, c, top);
    var r := CoreSeq(h, open, c, top);
    if r.CFall? {
      CoreSeqAdd(h, adds, close + stores, r.c, top);
      AddsRun(h, g.a, g.b, r.c, top);
      var q := CoreSeq(h, adds, r.c, top);
      if q.CFall? {
        CoreSeqAdd(h, close, stores, q.c, top);
        SubEndRuns(h, q.c, top);
        StoresRun(h, g.dst, Closed(q.c), top);
        SuperRuns(h, StorePop(g.dst), Closed(q.c), top);
      }
    }
  }

  lemma SubEndRuns(h: Host, c: Core, top: Option<Entry>)
    ensures CoreSeq(h, [SubEnd], c, top) == CFall(Closed(c))
  {
    Core1(h, SubEnd, c, top);
  }

  lemma SetAddOpens(h: Host, s1: nat, s2: nat, c: Core, top: Option<Entry>)
    ensures var r1 := BeginAt(h, c, s1, top);
      CoreSeq(h, [BeginCmd(s1), Mark(SubMark), BeginCmd(s2)], c, top)
      == if r1.CFall? then BeginAt(h, Marked(r1.c, SubMark), s2, top) else r1
    ensures var r := CoreSeq(h, [BeginCmd(s1), Mark(SubMark), BeginCmd(s2)], c, top); r.CFall? ==> r.c.stack == c.stack
  {
    Core3(h, BeginCmd(s1), Mark(SubMark), BeginCmd(s2), c, top);
  }

  /** The window a superinstruction came from does what it does. */
  lemma ExpandExact(h: Host, op: OpCode, c: Core, top: Option<Entry>)
    requires !Swaps(op) && RoomFor(c, top, if Holding(op) then 1 else 0)
    ensures CoreSeq(h, Expand(op), c, top) == ExecCore(h, op, c, top)
  {
    if !op.Super? {
      hide ExecCore;
      Core1(h, op, c, top);
    } else {
      SuperRuns(h, op.f, c, top);
      if ReadsOperands(op.f) { OperandsExact(h, op.f, c, top); } else { OthersExact(h, op.f, c, top); }
    }
  }

  predicate ReadsOperands(g: FusedOp) {
    g.AddRR? || g.AddRI? || g.SubRR? || g.SubRI? || g.CmpRR? || g.CmpRI? || g.CmpRRJump? || g.CmpRIJump? || g.SetAdd?
  }

  lemma OperandsExact(h: Host, g: FusedOp, c: Core, top: Option<Entry>)
    requires ReadsOperands(g) && RoomFor(c, top, 0)
    ensures CoreSeq(h, ExpandFused(g), c, top) == ExecFused(h, g, c, top)
  {
    hide ExecCore, ReadBin, ReadBinImm, Three, Two, CoreSeq, ExecSetAdd, Adds, ReadsCmp, Unfusing.ReadCmpImm;
    SuperRuns(h, g, c, top);
    match g
    case AddRR(a, b) => AddsRun(h, a, b, c, top);
    case AddRI(a, k) =>
      if a.Slot? { Core1(h, Super(g), c, top); } else {
        Core3(h, Load(a), Push(Int(k)), Bin(BinOp.Add), c, top);
        ReadImm(h, a, k, BinOp.Add, c, top);
      }
    case SubRR(a, b) =>
      Core3(h, Load(a), Load(b), Bin(BinOp.Sub), c, top);
      ReadRead(h, a, b, BinOp.Sub, c, top);
    case SubRI(a, k) =>
      Core3(h, Load(a), Push(Int(k)), Bin(BinOp.Sub), c, top);
      ReadImm(h, a, k, BinOp.Sub, c, top);
    case CmpRR(a, b, cc) => CmpRuns(h, a, b, cc, c, top);
    case CmpRI(a, k, cc) => CmpImmRuns(h, a, k, cc, c, top);
    case CmpRRJump(a, b, cc, w, t) =>
      CmpRuns(h, a, b, cc, c, top);
      SuperRuns(h, CmpRR(a, b, cc), c, top);
      BranchSound(h, a, b, cc, w, t, c, top);
      JumpRun(h, ReadsCmp(a, b, cc), w, t, CmpRR(a, b, cc), g, c, top);
    case CmpRIJump(a, k, cc, w, t) =>
      CmpImmRuns(h, a, k, cc, c, top);
      SuperRuns(h, CmpRI(a, k, cc), c, top);
      BranchImmSound(h, a, k, cc, w, t, c, top);
      JumpRun(h, Unfusing.ReadCmpImm(a, k, cc), w, t, CmpRI(a, k, cc), g, c, top);
    case SetAdd(_, _, _, _, _) => SetAddRuns(h, g, c, top);
  }

  lemma OthersExact(h: Host, g: FusedOp, c: Core, top: Option<Entry>)
    requires !ReadsOperands(g) && !Swaps(Super(g)) && RoomFor(c, top, if Holding(Super(g)) then 1 else 0)
    ensures CoreSeq(h, ExpandFused(g), c, top) == ExecFused(h, g, c, top)
  {
    hide ExecCore, Three, Two, CoreSeq, Stores, FusePair;
    SuperRuns(h, g, c, top);
    match g
    case StorePop(x) => StoresRun(h, x, c, top);
    case LappendMove(s, x) =>
      Core3(h, Load(s), Lappend(x), Pop, c, top);
      LappendSound(h, s, x, c, top);
    case SubEndStorePop(x) => CloseStore(h, x, c, top);
    case BeginCmdIncrPop(s, x, k) => BeginIncr(h, s, x, k, c, top);
    case ExprMarkBeginPushConst(s, i) => ExprPush(h, s, i, c, top);
    case _ => PairsExact(h, g, c, top);
  }

  lemma CloseStore(h: Host, x: Loc, c: Core, top: Option<Entry>)
    requires RoomFor(c, top, 1)
    ensures CoreSeq(h, [SubEnd] + Stores(x), c, top) == ExecFused(h, SubEndStorePop(x), c, top)
  {
    hide ExecCore, CoreSeq, Stores;
    CoreSeqAdd(h, [SubEnd], Stores(x), c, top);
    SubEndRuns(h, c, top);
    StoresRun(h, x, Closed(c), top);
    SuperRuns(h, StorePop(x), Closed(c), top);
  }

  lemma BeginIncr(h: Host, s: nat, x: Loc, k: int, c: Core, top: Option<Entry>)
    ensures CoreSeq(h, [BeginCmd(s), Incr(x, k), Pop], c, top) == ExecFused(h, BeginCmdIncrPop(s, x, k), c, top)
  {
    hide CoreSeq;
    Core3(h, BeginCmd(s), Incr(x, k), Pop, c, top);
  }

  lemma ExprPush(h: Host, s: nat, i: nat, c: Core, top: Option<Entry>)
    ensures CoreSeq(h, [Mark(ExprMark), BeginCmd(s), Push(Const(i))], c, top)
        == ExecFused(h, ExprMarkBeginPushConst(s, i), c, top)
  {
    hide CoreSeq;
    Core3(h, Mark(ExprMark), BeginCmd(s), Push(Const(i)), c, top);
  }

  predicate IsPair(e: seq<OpCode>, g: FusedOp) {
    |e| == 2 && e == [e[0], e[1]] && FusePair(e[0], e[1]) == Some(Super(g)) && !e[0].Store?
  }

  lemma PairOf(g: FusedOp)
    requires !ReadsOperands(g) && !Swaps(Super(g)) && !Holding(Super(g))
    requires !g.LappendMove? && !g.BeginCmdIncrPop? && !g.ExprMarkBeginPushConst?
    ensures IsPair(ExpandFused(g), g)
  {
    hide FusePair, IsPair, ExpandFused;
    if g.SubEndReturn? || g.SubEndCall? || g.SubEndAdd? { EndPairOf(g); }
    else if g.BeginCmdSubMark? || g.BeginCmdPushConst? { BeginPairOf(g); }
    else { MarkPairOf(g); }
  }

  lemma EndPairOf(g: FusedOp)
    requires g.SubEndReturn? || g.SubEndCall? || g.SubEndAdd?
    ensures IsPair(ExpandFused(g), g)
  {
    hide FuseSuper, FuseBegin, FuseMark, FuseDrop;
  }

  lemma BeginPairOf(g: FusedOp)
    requires g.BeginCmdSubMark? || g.BeginCmdPushConst?
    ensures IsPair(ExpandFused(g), g)
  {
    hide FuseSuper, FuseEnd, FuseMark, FuseDrop;
  }

  lemma MarkPairOf(g: FusedOp)
    requires g.ExprMarkBeginCmd? || g.SubMarkBeginCmd? || g.NextMarkBeginCmd? || g.PushConstSubMark? || g.IncrPop?
    ensures IsPair(ExpandFused(g), g)
  {
    hide FuseSuper, FuseBegin, FuseEnd;
  }

  /** Windows of two. */
  lemma PairsExact(h: Host, g: FusedOp, c: Core, top: Option<Entry>)
    requires !ReadsOperands(g) && !Swaps(Super(g)) && !Holding(Super(g)) && RoomFor(c, top, 0)
    requires !g.LappendMove? && !g.BeginCmdIncrPop? && !g.ExprMarkBeginPushConst?
    ensures CoreSeq(h, ExpandFused(g), c, top) == ExecFused(h, g, c, top)
  {
    hide ExecCore, CoreSeq, Two, ExecFused;
    var e := ExpandFused(g);
    PairOf(g);
    Core2(h, e[0], e[1], c, top);
    FusePairSound(h, e[0], e[1], c, top);
    SuperRuns(h, g, c, top);
  }

  /** The loop-closing ones do the same but for regions and sites. */
  lemma SwapBlind(h: Host, g: FusedOp, c: Core, top: Option<Entry>)
    requires Swaps(Super(g))
    ensures ViewCore(true, CoreSeq(h, ExpandFused(g), c, top)) == ViewCore(true, ExecFused(h, g, c, top))
  {
    hide CoreSeq, ForTail;
    match g
    case SwapToNextMark => NextRuns(h, c, top);
    case ForeachNextClose(info, body) => CloseBlind(h, info, body, c, top);
    case ForNextIncr(s, x, k, t) => ForTailBlind(h, s, x, k, t, c, top);
  }

  lemma CloseBlind(h: Host, info: nat, body: nat, c: Core, top: Option<Entry>)
    ensures ViewCore(true, CoreSeq(h, [Nop, Loop(ForeachNext(info, body))], c, top))
         == ViewCore(true, Advance(h, Normalized(c, top), info, body, true, top))
  {
    hide CoreSeq, Truncate, ExecFused;
    Core2(h, Nop, Loop(ForeachNext(info, body)), c, top);
    assert Two(h, Nop, Loop(ForeachNext(info, body)), c, top) == Advance(h, c, info, body, false, top);
  }

  lemma ForTailBlind(h: Host, s: nat, x: Loc, k: int, t: nat, c: Core, top: Option<Entry>)
    ensures ViewCore(true, CoreSeq(h, [Nop, Mark(NextMark), BeginCmd(s), Incr(x, k), Pop, Jump(t)], c, top))
         == ViewCore(true, ForTail(h, c, s, x, k, t, top))
  {
    hide CoreSeq, ExecCore, BeginAt, AskDrop, Normalized;
    var a, b, e := [Nop, Mark(NextMark)], [BeginCmd(s), Incr(x, k), Pop], [Jump(t)];
    assert [Nop, Mark(NextMark), BeginCmd(s), Incr(x, k), Pop, Jump(t)] == a + (b + e);
    CoreSeqAdd(h, a, b + e, c, top);
    NextRuns(h, c, top);
    var c1, c2 := Marked(c, NextMark), SwapToNext(c, top);
    CoreSeqAdd(h, b, e, c1, top);
    BeginIncr(h, s, x, k, c1, top);
    SuperRuns(h, BeginCmdIncrPop(s, x, k), c1, top);
    var r := ExecFused(h, BeginCmdIncrPop(s, x, k), c1, top);
    BeginIncrBlind(h, s, x, k, c1, c2, top);
    if r.CFall? {
      Core1(h, Jump(t), r.c, top);
      JumpRuns(h, t, r.c, top);
    }
  }

  lemma NextRuns(h: Host, c: Core, top: Option<Entry>)
    ensures CoreSeq(h, [Nop, Mark(NextMark)], c, top) == CFall(Marked(c, NextMark))
    ensures BlindCore(Marked(c, NextMark)) == BlindCore(SwapToNext(c, top))
  {
    Core2(h, Nop, Mark(NextMark), c, top);
  }

  lemma BeginIncrBlind(h: Host, s: nat, x: Loc, k: int, c1: Core, c2: Core, top: Option<Entry>)
    requires BlindCore(c1) == BlindCore(c2)
    ensures ViewCore(true, ExecFused(h, BeginCmdIncrPop(s, x, k), c1, top))
        == ViewCore(true, ExecFused(h, BeginCmdIncrPop(s, x, k), c2, top))
  {
    hide Truncate;
  }

  lemma ExpandNoLoop(op: OpCode)
    requires !IsLoopOp(op)
    ensures forall k | 0 <= k < |Expand(op)| :: !IsLoopOp(Expand(op)[k])
  {
  }

  /** An instruction and its expansion, as far as they are compared. */
  lemma ExpandViewed(blind: bool, h: Host, infos: seq<ForeachInfo>, op: OpCode, d: State)
    requires RoomFor(d.core, Innermost(d.loops), if Holding(op) then 1 else 0) && (Swaps(op) ==> blind)
    ensures ViewCtl(blind, ExecSeq(h, infos, Expand(op), d)) == ViewCtl(blind, Exec(h, infos, op, d))
  {
    hide ExecCore, ExpandFused, ExecFused, CoreSeq, ExecLoop;
    if IsLoopOp(op) {
      assert Expand(op) == [op];
      ExecOne(h, infos, Expand(op), d);
    } else {
      ExpandNoLoop(op);
      SeqCore(h, infos, Expand(op), d);
      var top := Innermost(d.loops);
      if Swaps(op) { SwapBlind(h, op.f, d.core, top); SuperRuns(h, op.f, d.core, top); }
      else { ExpandExact(h, op, d.core, top); }
      assert ViewCore(blind, CoreSeq(h, Expand(op), d.core, top)) == ViewCore(blind, ExecCore(h, op, d.core, top));
    }
  }

  // ── runs ──

  function Expanded(u: Code): Code { u.(ops := Unfused(u.ops)) }

  lemma OffsetsAt(ops: seq<OpCode>, i: nat)
    requires i < |ops|
    ensures At(Offsets(ops), i) == Offset(ops, i) && At(Offsets(ops), i + 1) == Offset(ops, i) + |Expand(OpAt(ops, i))|
  {
  }

  /** One instruction of the unit, and its expansion from the renamed state. */
  lemma WindowRuns(h: Host, u: Code, pc: nat, d: State) returns (j: nat)
    requires pc < |u.ops|
    ensures var f, e, q := Offsets(u.ops), Expand(OpAt(u.ops, pc)), Offset(u.ops, pc);
      j >= 1 && At(f, pc) == q
      && Steps(h, Expanded(u), Running(q, MapState(d, f)), j) == MapRun(After(pc, ExecSeq(h, u.infos, e, d)), f)
  {
    hide Exec, ExecSeq, Expand, MapState, MapAll, Offsets;
    var v, f, e, q := Expanded(u), Offsets(u.ops), Expand(u.ops[pc]), Offset(u.ops, pc);
    UnfusedAt(u.ops, pc);
    OffsetsAt(u.ops, pc);
    j := WindowRun(h, v, q, |e|, MapState(d, f));
    SeqMapped(h, u.infos, e, d, f);
    AfterMapped(pc, q + |e| - 1, ExecSeq(h, u.infos, e, d), f);
  }

  /** `t` is `s` in the expanded unit. */
  predicate Matched(f: seq<nat>, s: Run, t: Run) { t == MapRun(s, f) }

  ghost predicate Suits(h: Host, u: Code, start: Run) {
    Fresh(start) && RunsRoomy(h, u, start) && forall k | 0 <= k < |u.ops| :: !Swaps(u.ops[k])
  }

  /** One step of the unit is some steps of its expansion. */
  lemma StepMatched(h: Host, u: Code, s: Run, t: Run) returns (j: nat)
    requires (forall k | 0 <= k < |u.ops| :: !Swaps(u.ops[k])) && Matched(Offsets(u.ops), s, t)
    requires s.Running? ==> RoomFor(s.d.core, Innermost(s.d.loops), if Holding(OpAt(u.ops, s.pc)) then 1 else 0)
    ensures j >= 1 && Matched(Offsets(u.ops), Step(h, u, s), Steps(h, Expanded(u), t, j))
  {
    hide Exec, ExecSeq, Expand, MapState, Swaps, Offsets, Holding, MapAll;
    var v, f := Expanded(u), Offsets(u.ops);
    if s.Halted? {
      j := 1;
      assert Steps(h, v, t, 1) == t;
    } else if s.pc < |u.ops| {
      j := WindowRuns(h, u, s.pc, s.d);
      ExpandViewed(false, h, u.infos, u.ops[s.pc], s.d);
    } else {
      j := 1;
      EndMatched(h, u, s, s.d);
    }
  }

  /** Past the last instruction on both sides. */
  lemma EndMatched(h: Host, u: Code, s: Run, e: State)
    requires s.Running? && s.pc >= |u.ops|
    ensures Steps(h, Expanded(u), Now(At(Offsets(u.ops), s.pc), MapState(e, Offsets(u.ops))), 1)
         == Halted(Outcome.Value(Top(h, e.core), e.core))
  {
    hide Exec, Expand, Unfused;
    var v, t := Expanded(u), Running(At(Offsets(u.ops), s.pc), MapState(e, Offsets(u.ops)));
    assert Steps(h, v, t, 1) == Step(h, v, t);
    assert t.pc >= |v.ops|;
  }

  /** After `n` steps of the unit, some steps of its expansion match. */
  lemma {:induction false} RunMatched(h: Host, u: Code, start: Run, n: nat) returns (m: nat)
    requires Suits(h, u, start)
    ensures m >= n && Matched(Offsets(u.ops), Steps(h, u, start, n), Steps(h, Expanded(u), start, m))
  {
    hide Step, Matched, Swaps, Holding, Unfused;
    if n == 0 {
      m := 0;
      StartMatched(u, start);
    } else {
      var k := RunMatched(h, u, start, n - 1);
      var s, t := Steps(h, u, start, n - 1), Steps(h, Expanded(u), start, k);
      assert Reaches(h, u, start, s);
      var j := StepMatched(h, u, s, t);
      StepsAdd(h, u, start, n - 1, 1);
      assert Steps(h, u, s, 1) == Step(h, u, s) by { OneIsStep(h, u, s); }
      StepsAdd(h, Expanded(u), start, k, j);
      m := k + j;
    }
  }

  lemma OneIsStep(h: Host, u: Code, s: Run)
    ensures Steps(h, u, s, 1) == Step(h, u, s)
  {
    hide Exec;
    assert Steps(h, u, s, 0) == s;
  }

  lemma StartMatched(u: Code, start: Run)
    requires Fresh(start)
    ensures Matched(Offsets(u.ops), start, start)
  {
  }

  /** Without loop-closing superinstructions nothing at all is lost. */
  lemma UnfusedExactly(h: Host, u: Code, start: Run, o: Outcome)
    requires Suits(h, u, start)
    ensures Ends(h, u, start, o) <==> Ends(h, Expanded(u), start, o)
  {
    hide Step, Suits, Unfused, Offsets;
    var v := Expanded(u);
    if Ends(h, u, start, o) {
      var n: nat :| Steps(h, u, start, n) == Halted(o);
      var m := RunMatched(h, u, start, n);
      assert Steps(h, v, start, m) == Halted(o);
    }
    if Ends(h, v, start, o) {
      var n: nat :| Steps(h, v, start, n) == Halted(o);
      var m := RunMatched(h, u, start, n);
      StepsAdd(h, v, start, n, m - n);
      HaltedStays(h, v, Halted(o), m - n);
      assert Steps(h, u, start, n) == Halted(o);
    }
  }
}

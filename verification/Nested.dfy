/** A `for` whose next script holds a `foreach`: its unit as compiled, as the
    optimiser leaves it, and expanded again. */
module Nested {
  import opened Opcodes
  import opened Machine
  import opened Discipline
  import opened Rewriting
  import opened Stripping
  import opened Trampolines
  import opened Passes
  import opened Idle
  import opened Unfusing
  import opened Syntax
  import opened Codegen
  import opened Walks

  /** `foreach v $y {}` */
  function Each(y: Loc): Form { Foreach(0, ForeachInfo(1, false, false), More(Var(y), NoWords), Done) }

  /** `for {} {c} {foreach v $y {}} {f}` */
  function Nesting(y: Loc, f: nat): Form {
    For(Done, Late(Text(Const(0))), Then(Cmd(1, Each(y)), Done), Then(Cmd(2, Form.Run(false, f, NoWords)), Done))
  }

  function Nest(y: Loc, f: nat): Script { Then(Cmd(0, Nesting(y, f)), Done) }

  // ── the unit, optimised and expanded ──

  /** As compiled. */
  function DraftOp(y: Loc, f: nat, k: nat): OpCode {
    match k
    case 0 => BeginCmd(0)
    case 1 => Mark(ExprMark)
    case 2 => Push(Empty)
    case 3 => SubEnd
    case 4 => Pop
    case 5 => Loop(LoopEnter(13, 25))
    case 6 => Push(Const(0))
    case 7 => EvalExpr
    case 8 => JumpIf(false, 25)
    case 9 => BeginCmd(2)
    case 10 => Call(false, f, 0)
    case 11 => Pop
    case 12 => Jump(13)
    case 13 => Mark(NextMark)
    case 14 => BeginCmd(1)
    case 15 => Load(y)
    case 16 => Loop(ForeachStart(0, 21, 22))
    case 17 => Mark(BodyMark)
    case 18 => Push(Empty)
    case 19 => Pop
    case 20 => Jump(21)
    case 21 => Loop(ForeachNext(0, 17))
    case 22 => Loop(ForeachEnd)
    case 23 => Pop
    case 24 => Jump(6)
    case 25 => Loop(LoopExit)
    case _ => Push(Empty)
  }

  function DraftOps(y: Loc, f: nat): seq<OpCode> { seq(27, k requires 0 <= k < 27 => DraftOp(y, f, k)) }

  /** Optimised: both ends of a pass are fused. */
  function OptimisedOp(y: Loc, f: nat, k: nat): OpCode {
    match k
    case 0 => BeginCmd(0)
    case 1 => Mark(ExprMark)
    case 2 => Push(Empty)
    case 3 => SubEnd
    case 4 => Pop
    case 5 => Loop(LoopEnter(12, 21))
    case 6 => Push(Const(0))
    case 7 => EvalExpr
    case 8 => JumpIf(false, 21)
    case 9 => BeginCmd(2)
    case 10 => Call(false, f, 0)
    case 11 => Pop
    case 12 => Super(SwapToNextMark)
    case 13 => BeginCmd(1)
    case 14 => Load(y)
    case 15 => Loop(ForeachStart(0, 17, 18))
    case 16 => Mark(BodyMark)
    case 17 => Super(ForeachNextClose(0, 17))
    case 18 => Loop(ForeachEnd)
    case 19 => Pop
    case 20 => Jump(6)
    case 21 => Loop(LoopExit)
    case _ => Push(Empty)
  }

  function FusedOps(y: Loc, f: nat): seq<OpCode> { seq(23, k requires 0 <= k < 23 => OptimisedOp(y, f, k)) }

  /** Expanded again. */
  function PlainOp(y: Loc, f: nat, k: nat): OpCode {
    match k
    case 0 => BeginCmd(0)
    case 1 => Mark(ExprMark)
    case 2 => Push(Empty)
    case 3 => SubEnd
    case 4 => Pop
    case 5 => Loop(LoopEnter(12, 23))
    case 6 => Push(Const(0))
    case 7 => EvalExpr
    case 8 => JumpIf(false, 23)
    case 9 => BeginCmd(2)
    case 10 => Call(false, f, 0)
    case 11 => Pop
    case 12 => Nop
    case 13 => Mark(NextMark)
    case 14 => BeginCmd(1)
    case 15 => Load(y)
    case 16 => Loop(ForeachStart(0, 18, 20))
    case 17 => Mark(BodyMark)
    case 18 => Nop
    case 19 => Loop(ForeachNext(0, 18))
    case 20 => Loop(ForeachEnd)
    case 21 => Pop
    case 22 => Jump(6)
    case 23 => Loop(LoopExit)
    case _ => Push(Empty)
  }

  function PlainOps(y: Loc, f: nat): seq<OpCode> { seq(25, k requires 0 <= k < 25 => PlainOp(y, f, k)) }

  lemma EachIs(y: Loc)
    ensures FormCode(Each(y), 15, true) == [Load(y), Loop(ForeachStart(0, 21, 22)), Mark(BodyMark), Push(Empty), Pop,
        Jump(21), Loop(ForeachNext(0, 17)), Loop(ForeachEnd)]
  {
    assert WordsCode(NoWords, 16, true) == [];
    assert WordsCode(More(Var(y), NoWords), 15, true) == [Load(y)];
  }

  lemma OneIs(c: Cmd, at: nat, next: bool)
    ensures ScriptCode(Then(c, Done), at, next) == [BeginCmd(c.site)] + FormCode(c.form, at + 1, next)
  {
    hide FormCode;
    assert CmdsCode(Then(c, Done), at, next) == CmdCode(c, at, next);
  }

  lemma DraftIs(y: Loc, f: nat)
    ensures UnitOf(Nest(y, f), Shapes()).ops == DraftOps(y, f)
  {
    hide FormCode, ForCode, ScriptCode, UnitOf, DraftOps;
    var a := Nesting(y, f);
    EachIs(y);
    CallIs(f);
    EmptyIs(2);
    OneIs(Cmd(2, Form.Run(false, f, NoWords)), 9, false);
    OneIs(Cmd(1, Each(y)), 14, true);
    TestIsLate();
    ForIs(a, 1);
    OneCommandIs(Cmd(0, a), Shapes());
    DraftJoins(y, f, TestCode(a.test, 6, false), ScriptCode(a.body, 9, false), ScriptCode(a.next, 14, true));
  }

  lemma CallIs(f: nat)
    ensures FormCode(Form.Run(false, f, NoWords), 10, false) == [Call(false, f, 0)]
  {
    assert WordsCode(NoWords, 10, false) == [];
  }

  lemma TestIsLate()
    ensures TestCode(Late(Text(Const(0))), 6, false) == [Push(Const(0)), EvalExpr]
  {
  }

  lemma DraftJoins(y: Loc, f: nat, test: seq<OpCode>, body: seq<OpCode>, next: seq<OpCode>)
    requires test == [Push(Const(0)), EvalExpr] && body == [BeginCmd(2), Call(false, f, 0)]
    requires next == [BeginCmd(1), Load(y), Loop(ForeachStart(0, 21, 22)), Mark(BodyMark), Push(Empty), Pop, Jump(21),
        Loop(ForeachNext(0, 17)), Loop(ForeachEnd)]
    ensures [BeginCmd(0), Mark(ExprMark), Push(Empty), SubEnd, Pop] + ForCode(test, body, next, 5) == DraftOps(y, f)
  {
  }

  // ── the optimiser at work ──

  lemma Loose(y: Loc, f: nat)
    ensures Unpaired(BeginCmd(0), Mark(ExprMark)) && Unpaired(Mark(ExprMark), Push(Empty))
        && Unpaired(Push(Empty), SubEnd)
    ensures Unpaired(SubEnd, Pop) && Unpaired(Push(Const(0)), EvalExpr) && Unpaired(BeginCmd(2), Call(false, f, 0))
  {
  }

  lemma LooseToo(y: Loc)
    ensures Unpaired(BeginCmd(1), Load(y)) && forall l :: Unpaired(Load(y), Loop(l))
    ensures Unpaired(Super(SwapToNextMark), BeginCmd(1)) && Unpaired(Super(ForeachNextClose(0, 17)), Loop(ForeachEnd))
  {
  }

  function Step1(y: Loc, f: nat): seq<OpCode> { Rewritten(DraftOps(y, f), 12, 2, Super(SwapToNextMark)) }

  function Step2(y: Loc, f: nat): seq<OpCode> { Rewritten(Step1(y, f), 18, 2, Nop) }

  function Step3(y: Loc, f: nat): seq<OpCode> { Rewritten(Step2(y, f), 20, 2, Super(ForeachNextClose(0, 18))) }

  function Moved(): seq<(nat, nat)> { [(13, 12), (21, 20)] }

  lemma Scanned(y: Loc, f: nat, targets: seq<bool>)
    requires |targets| == 28 && !targets[19]
    ensures FuseFrom(DraftOps(y, f), targets, [], 0) == Fusion(Step3(y, f), Moved(), true)
  {
    hide FuseFrom, DraftOps, Step1, Step2, Step3;
    ScanHead(y, f, targets);
    ScanMiddle(y, f, targets);
    ScanTail(y, f, targets);
  }

  lemma ScanHead(y: Loc, f: nat, targets: seq<bool>)
    ensures FuseFrom(DraftOps(y, f), targets, [], 0) == FuseFrom(Step1(y, f), targets, [(13, 12)], 14).(changed := true)
  {
    hide FuseFrom, DraftOps, Unpaired, Rewritten;
    var ops := DraftOps(y, f);
    DraftUnpaired(y, f);
    DraftAt(y, f);
    FuseSkips(ops, targets, [], 0, 12);
    assert [] + [(13, 12)] == [(13, 12)];
    FuseFires(ops, targets, [], 12, Super(SwapToNextMark), [(13, 12)]);
  }

  lemma DraftAt(y: Loc, f: nat)
    ensures |DraftOps(y, f)| == 27 && forall k: nat | k < 27 :: DraftOps(y, f)[k] == DraftOp(y, f, k)
  {
  }

  lemma DraftUnpaired(y: Loc, f: nat)
    ensures forall k | 0 <= k < 12 :: UnpairedAt(DraftOps(y, f), k)
  {
    hide DraftOps, Unpaired;
    var ops := DraftOps(y, f);
    DraftAt(y, f);
    Loose(y, f);
    LoneAt(ops, 4);
    LoneAt(ops, 5);
    LoneAt(ops, 7);
    LoneAt(ops, 8);
    LoneAt(ops, 10);
    LoneAt(ops, 11);
  }

  lemma ScanMiddle(y: Loc, f: nat, targets: seq<bool>)
    requires |targets| == 28 && !targets[19]
    ensures FuseFrom(Step1(y, f), targets, [(13, 12)], 14)
        == FuseFrom(Step2(y, f), targets, [(13, 12)], 20).(changed := true)
  {
    hide FuseFrom, DraftOps, Unpaired, Rewritten;
    var ops := Step1(y, f);
    DraftAt(y, f);
    RewrittenElse(DraftOps(y, f), 12, Super(SwapToNextMark));
    LooseToo(y);
    LoneAt(ops, 16);
    LoneAt(ops, 17);
    FuseSkips(ops, targets, [(13, 12)], 14, 18);
    FuseDrops(ops, targets, [(13, 12)], 18);
  }

  lemma ScanTail(y: Loc, f: nat, targets: seq<bool>)
    ensures FuseFrom(Step2(y, f), targets, [(13, 12)], 20) == Fusion(Step3(y, f), Moved(), true)
  {
    hide FuseFrom, DraftOps, Unpaired, Rewritten;
    var ops, last := Step2(y, f), Step3(y, f);
    DraftAt(y, f);
    RewrittenElse(DraftOps(y, f), 12, Super(SwapToNextMark));
    RewrittenElse(Step1(y, f), 18, Nop);
    RewrittenElse(ops, 20, Super(ForeachNextClose(0, 18)));
    assert [(13, 12)] + [(21, 20)] == Moved();
    FuseFires(ops, targets, [(13, 12)], 20, Super(ForeachNextClose(0, 18)), Moved());
    LoneAt(last, 22);
    LoneAt(last, 23);
    LoneAt(last, 24);
    LoneAt(last, 25);
    FuseSkips(last, targets, Moved(), 22, 26);
    FuseEnds(last, targets, Moved(), 26);
  }

  /** After the retargetings. */
  function MappedOp(y: Loc, f: nat, k: nat): OpCode {
    match k
    case 0 => BeginCmd(0)
    case 1 => Mark(ExprMark)
    case 2 => Push(Empty)
    case 3 => SubEnd
    case 4 => Pop
    case 5 => Loop(LoopEnter(12, 25))
    case 6 => Push(Const(0))
    case 7 => EvalExpr
    case 8 => JumpIf(false, 25)
    case 9 => BeginCmd(2)
    case 10 => Call(false, f, 0)
    case 11 => Pop
    case 12 => Super(SwapToNextMark)
    case 13 => Nop
    case 14 => BeginCmd(1)
    case 15 => Load(y)
    case 16 => Loop(ForeachStart(0, 20, 22))
    case 17 => Mark(BodyMark)
    case 18 => Nop
    case 19 => Nop
    case 20 => Super(ForeachNextClose(0, 18))
    case 21 => Nop
    case 22 => Loop(ForeachEnd)
    case 23 => Pop
    case 24 => Jump(6)
    case 25 => Loop(LoopExit)
    case _ => Push(Empty)
  }

  function Mapped(y: Loc, f: nat): seq<OpCode> { seq(27, k requires 0 <= k < 27 => MappedOp(y, f, k)) }

  lemma ChasedAt(t: nat)
    ensures Chase(Moved(), t) == if t == 13 then 12 else if t == 21 then 20 else t
  {
    var rt, one, none: seq<(nat, nat)> := Moved(), [(13, 12)], [];
    assert rt[..1] == one && one[..0] == none;
    assert Chase(none, t) == t;
    assert Chase(one, t) == if t == 13 then 12 else t;
  }

  lemma MappedIs(y: Loc, f: nat)
    ensures MapAll(Step3(y, f), Table(Moved(), 27)) == Mapped(y, f)
  {
    var g := Table(Moved(), 27);
    assert |g| == 28;
    forall t: nat | t <= 27 ensures At(g, t) == if t == 13 then 12 else if t == 21 then 20 else t { ChasedAt(t); }
    hide Table, Moved;
    var ops := Step3(y, f);
    forall k | 0 <= k < 27 ensures MapOp(ops[k], g) == Mapped(y, f)[k] { }
  }

  lemma KeptFirst(y: Loc, f: nat)
    ensures |Mapped(y, f)| == 27 && forall k: nat | k <= 13 :: Kept(Mapped(y, f), k) == k
  {
    var ops := Mapped(y, f);
    forall k: nat | k <= 13 ensures Kept(ops, k) == k { KeptAll(ops, k); }
  }

  function Place(k: nat): nat {
    if k <= 13 then k else if k <= 18 then k - 1 else if k <= 20 then 17 else if k == 21 then 18 else k - 4
  }

  lemma KeptIs(y: Loc, f: nat, k: nat)
    requires k <= 27
    ensures Kept(Mapped(y, f), k) == Place(k)
  {
    var ops := Mapped(y, f);
    KeptFirst(y, f);
    assert Kept(ops, 14) == 13;
    KeptFrom(ops, 14, 18);
    assert Kept(ops, 19) == 17 && Kept(ops, 20) == 17 && Kept(ops, 21) == 18 && Kept(ops, 22) == 18;
    if 14 <= k <= 18 { KeptFrom(ops, 14, k); }
    if 22 <= k { KeptFrom(ops, 22, k); }
  }

  lemma StrippedIs(y: Loc, f: nat)
    ensures Strip(Mapped(y, f)) == FusedOps(y, f)
  {
    var ops, g := Mapped(y, f), Forward(Mapped(y, f));
    SqueezeSize(ops, 27, g);
    KeptIs(y, f, 27);
    forall t: nat | t <= 27 ensures At(g, t) == Place(t) { KeptIs(y, f, t); }
    forall q | 0 <= q < 23 ensures Strip(ops)[q] == FusedOps(y, f)[q] { StrippedOpIs(y, f, q, g); }
  }

  lemma MappedAt(y: Loc, f: nat)
    ensures |Mapped(y, f)| == 27 && forall k: nat | k < 27 :: Mapped(y, f)[k] == MappedOp(y, f, k)
  {
  }

  lemma FusedAt(y: Loc, f: nat)
    ensures |FusedOps(y, f)| == 23 && forall k: nat | k < 23 :: FusedOps(y, f)[k] == OptimisedOp(y, f, k)
  {
  }

  /** The places of the draft that are kept. */
  function Origin(q: nat): nat { if q < 13 then q else if q < 17 then q + 1 else if q == 17 then 20 else q + 4 }

  lemma StrippedOpIs(y: Loc, f: nat, q: nat, g: seq<nat>)
    requires q < 23 && g == Forward(Mapped(y, f)) && forall t: nat | t <= 27 :: At(g, t) == Place(t)
    requires |Strip(Mapped(y, f))| == 23
    ensures Strip(Mapped(y, f))[q] == FusedOps(y, f)[q]
  {
    hide Forward, Strip, At, MapOp, Mapped, FusedOps, Kept;
    var ops, i := Mapped(y, f), Origin(q);
    KeptIs(y, f, i);
    MappedAt(y, f);
    StripAt(ops, i);
    MovedOpIs(y, f, q, g);
  }

  lemma MovedOpIs(y: Loc, f: nat, q: nat, g: seq<nat>)
    requires q < 23 && forall t: nat | t <= 27 :: At(g, t) == Place(t)
    ensures Origin(q) < |Mapped(y, f)| && !Mapped(y, f)[Origin(q)].Nop?
        && MapOp(Mapped(y, f)[Origin(q)], g) == FusedOps(y, f)[q]
  {
    hide At, Mapped, FusedOps;
    MappedAt(y, f);
    FusedAt(y, f);
    if q < 12 { } else { }
  }

  lemma StripAt(ops: seq<OpCode>, i: nat)
    requires i < |ops| && !ops[i].Nop?
    ensures Kept(ops, i) < |Strip(ops)| && Strip(ops)[Kept(ops, i)] == MapOp(ops[i], Forward(ops))
  {
    hide MapOp;
    SqueezeAt(ops, |ops|, Forward(ops), i);
  }

  /** No target of the draft is the dropped result of the empty body. */
  lemma Untargeted(y: Loc, f: nat)
    ensures !CollectTargets(DraftOps(y, f))[19]
  {
    var ops := DraftOps(y, f);
    forall j | 0 <= j < |ops| ensures !Targets(ops[j], 19) { }
  }

  lemma FirstRound(y: Loc, f: nat)
    ensures Round(DraftOps(y, f)) == (FusedOps(y, f), true)
  {
    hide FuseFrom, CollectTargets, Table, Strip, FusedOps, Mapped, Step3, Moved;
    var ops := DraftOps(y, f);
    DraftDull(y, f);
    DullPass(ops);
    Untargeted(y, f);
    Scanned(y, f, CollectTargets(ops));
    assert Moved() != [] by { SomeMoved(); }
    MappedIs(y, f);
    StrippedIs(y, f);
    hide DraftOps, PeepholePass;
  }

  lemma DraftDull(y: Loc, f: nat)
    ensures forall k | 0 <= k < |DraftOps(y, f)| :: Dull(DraftOps(y, f), k)
  {
    hide DraftOps;
    DraftAt(y, f);
  }

  lemma SomeMoved()
    ensures Moved() != []
  {
  }

  // ── and done ──

  lemma FusedInRange(y: Loc, f: nat)
    ensures InRange(FusedOps(y, f))
  {
    var ops := FusedOps(y, f);
    forall i, t: nat | 0 <= i < |ops| && Targets(ops[i], t) ensures t <= |ops| { }
  }

  lemma SecondRound(y: Loc, f: nat)
    ensures Round(FusedOps(y, f)) == (FusedOps(y, f), false)
  {
    hide FusedOps, Round, UnpairedAt, Dull;
    FusedDull(y, f);
    FusedUnpaired(y, f);
    FusedInRange(y, f);
    RestingRound(FusedOps(y, f));
  }

  lemma FusedDull(y: Loc, f: nat)
    ensures |FusedOps(y, f)| == 23
    ensures forall k | 0 <= k < |FusedOps(y, f)| :: Dull(FusedOps(y, f), k) && !FusedOps(y, f)[k].Nop?
  {
    hide FusedOps;
    FusedAt(y, f);
  }

  lemma FusedUnpaired(y: Loc, f: nat)
    ensures forall k | 0 <= k < 23 :: UnpairedAt(FusedOps(y, f), k)
  {
    hide FusedOps, UnpairedAt;
    FusedHead(y, f);
    FusedTail(y, f);
  }

  lemma FusedHead(y: Loc, f: nat)
    ensures forall k | 0 <= k < 12 :: UnpairedAt(FusedOps(y, f), k)
  {
    hide FusedOps, Unpaired;
    var ops := FusedOps(y, f);
    FusedAt(y, f);
    Loose(y, f);
    LoneAt(ops, 4);
    LoneAt(ops, 5);
    LoneAt(ops, 7);
    LoneAt(ops, 8);
    LoneAt(ops, 10);
    LoneAt(ops, 11);
  }

  lemma FusedTail(y: Loc, f: nat)
    ensures forall k | 12 <= k < 23 :: UnpairedAt(FusedOps(y, f), k)
  {
    hide FusedOps, Unpaired;
    var ops := FusedOps(y, f);
    FusedAt(y, f);
    LooseToo(y);
    LoneAt(ops, 15);
    LoneAt(ops, 16);
    LoneAt(ops, 18);
    LoneAt(ops, 19);
    LoneAt(ops, 20);
    LoneAt(ops, 21);
  }

  lemma OptimisedIs(y: Loc, f: nat)
    ensures Peephole(DraftOps(y, f)) == FusedOps(y, f)
  {
    hide Round, DraftOps, FusedOps;
    FirstRound(y, f);
    SecondRound(y, f);
    assert Rounds(FusedOps(y, f), 7) == FusedOps(y, f);
  }

  // ── expanded ──

  function Fanned(k: nat): nat { if k <= 12 then k else if k <= 17 then k + 1 else k + 2 }

  lemma WidthIs(y: Loc, f: nat, k: nat)
    requires k < 23
    ensures |Expand(OptimisedOp(y, f, k))| == Fanned(k + 1) - Fanned(k)
  {
  }

  lemma {:induction false} OffsetIs(y: Loc, f: nat, k: nat)
    requires k <= 23
    ensures Offset(FusedOps(y, f), k) == Fanned(k)
    decreases k
  {
    hide Expand, OptimisedOp;
    if k > 0 {
      OffsetIs(y, f, k - 1);
      WidthIs(y, f, k - 1);
      assert FusedOps(y, f)[k - 1] == OptimisedOp(y, f, k - 1);
    }
  }

  lemma ExpandedIs(y: Loc, f: nat)
    ensures Unfused(FusedOps(y, f)) == PlainOps(y, f)
  {
    var ops, g := FusedOps(y, f), Offsets(FusedOps(y, f));
    OffsetIs(y, f, 23);
    forall t: nat | t <= 23 ensures At(g, t) == Fanned(t) { OffsetIs(y, f, t); }
    forall q | 0 <= q < 25 ensures Unfused(ops)[q] == PlainOps(y, f)[q] { ExpandedOpIs(y, f, q, g); }
  }

  lemma PlainAt(y: Loc, f: nat)
    ensures |PlainOps(y, f)| == 25 && forall k: nat | k < 25 :: PlainOps(y, f)[k] == PlainOp(y, f, k)
  {
  }

  lemma ExpandedOpIs(y: Loc, f: nat, q: nat, g: seq<nat>)
    requires q < 25 && g == Offsets(FusedOps(y, f)) && forall t: nat | t <= 23 :: At(g, t) == Fanned(t)
    requires |Unfused(FusedOps(y, f))| == 25
    ensures Unfused(FusedOps(y, f))[q] == PlainOps(y, f)[q]
  {
    hide Offsets, Unfused, At, FusedOps, PlainOps, Expand, Offset, MapOp;
    var ops := FusedOps(y, f);
    var i := Sprung(q);
    OffsetIs(y, f, i);
    FusedAt(y, f);
    UnfusedAt(ops, i);
    var e, k := Expand(ops[i]), q - Fanned(i);
    SpreadOpIs(y, f, q, g);
    assert Unfused(ops)[q] == Unfused(ops)[Offset(ops, i)..Offset(ops, i) + |e|][k];
    assert MapAll(e, g)[k] == MapOp(e[k], g);
  }

  /** The place each expanded instruction comes from. */
  function Sprung(q: nat): nat { if q <= 12 then q else if q == 13 then 12 else if q <= 18 then q - 1
          else if q == 19 then 17 else q - 2 }

  lemma SpreadOpIs(y: Loc, f: nat, q: nat, g: seq<nat>)
    requires q < 25 && forall t: nat | t <= 23 :: At(g, t) == Fanned(t)
    ensures var i := Sprung(q);
      && i < |FusedOps(y, f)| && Fanned(i) <= q < Fanned(i) + |Expand(FusedOps(y, f)[i])|
      && MapOp(Expand(FusedOps(y, f)[i])[q - Fanned(i)], g) == PlainOps(y, f)[q]
  {
    hide At, FusedOps, PlainOps;
    FusedAt(y, f);
    PlainAt(y, f);
  }
}

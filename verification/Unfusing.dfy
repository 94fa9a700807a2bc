/** Expanding superinstructions back to the windows they stand for. */
module Unfusing {
  import opened Opcodes
  import opened Trampolines

  /** What the expansion must not leave behind.  A name-keyed store that drops
      its result, and the slot-keyed operand reads, are not among them. */
  predicate IsFused(op: OpCode) {
    op.Super? &&
    match op.f
    case AddRR(a, _) => a.Name?
    case AddRI(a, _) => a.Name?
    case CmpRR(a, _, _) => a.Name?
    case CmpRI(a, _, _) => a.Name?
    case StorePop(x) => x.Slot?
    case _ => true
  }

  /** A comparison of two reads, as far as it is unfused. */
  function ReadsCmp(a: Loc, b: Loc, cc: nat): seq<OpCode> {
    if a.Slot? then [Super(CmpRR(a, b, cc))] else [Load(a), Load(b), CmpOpOf(cc)]
  }

  function ReadCmpImm(a: Loc, k: int, cc: nat): seq<OpCode> {
    if a.Slot? then [Super(CmpRI(a, k, cc))] else [Load(a), Push(Int(k)), CmpOpOf(cc)]
  }

  function Stores(x: Loc): seq<OpCode> { if x.Slot? then [Store(x), Pop] else [Super(StorePop(x))] }

  function Adds(a: Loc, b: Loc): seq<OpCode> { if a.Slot? then [Super(AddRR(a, b))] else [Load(a), Load(b), Bin(Add)] }

  function ExpandFused(g: FusedOp): (r: seq<OpCode>)
    ensures r != []
  {
    match g
    case AddRR(a, b) => Adds(a, b)
    case AddRI(a, k) => if a.Slot? then [Super(g)] else [Load(a), Push(Int(k)), Bin(Add)]
    case SubRR(a, b) => [Load(a), Load(b), Bin(BinOp.Sub)]
    case SubRI(a, k) => [Load(a), Push(Int(k)), Bin(BinOp.Sub)]
    case CmpRR(a, b, cc) => ReadsCmp(a, b, cc)
    case CmpRI(a, k, cc) => ReadCmpImm(a, k, cc)
    case CmpRRJump(a, b, cc, w, t) => ReadsCmp(a, b, cc) + [JumpIf(w, t)]
    case CmpRIJump(a, k, cc, w, t) => ReadCmpImm(a, k, cc) + [JumpIf(w, t)]
    case StorePop(x) => Stores(x)
    case IncrPop(x, k) => [Incr(x, k), Pop]
    case LappendMove(s, x) => [Load(s), Lappend(x), Pop]
    case BeginCmdSubMark(s) => [BeginCmd(s), Mark(SubMark)]
    case BeginCmdPushConst(s, i) => [BeginCmd(s), Push(Const(i))]
    case BeginCmdIncrPop(s, x, k) => [BeginCmd(s), Incr(x, k), Pop]
    case ExprMarkBeginCmd(s) => [Mark(ExprMark), BeginCmd(s)]
    case ExprMarkBeginPushConst(s, i) => [Mark(ExprMark), BeginCmd(s), Push(Const(i))]
    case PushConstSubMark(i) => [Push(Const(i)), Mark(SubMark)]
    case SubMarkBeginCmd(s) => [Mark(SubMark), BeginCmd(s)]
    case NextMarkBeginCmd(s) => [Mark(NextMark), BeginCmd(s)]
    case SubEndStorePop(x) => [SubEnd] + Stores(x)
    case SubEndReturn => [SubEnd, Return]
    case SubEndCall(dyn, id, argc) => [SubEnd, Call(dyn, id, argc)]
    case SubEndAdd => [SubEnd, Bin(Add)]
    case SetAdd(s1, s2, a, b, x) => [BeginCmd(s1), Mark(SubMark), BeginCmd(s2)] + Adds(a, b) + [SubEnd] + Stores(x)
    case SwapToNextMark => [Nop, Mark(NextMark)]
    case ForeachNextClose(info, body) => [Nop, Loop(ForeachNext(info, body))]
    case ForNextIncr(s, x, k, t) => [Nop, Mark(NextMark), BeginCmd(s), Incr(x, k), Pop, Jump(t)]
  }

  function Expand(op: OpCode): (r: seq<OpCode>)
    ensures r != []
  {
    if op.Super? then ExpandFused(op.f) else [op]
  }

  /** Exactly the superinstructions in the list are expanded. */
  lemma ExpandsFused(op: OpCode)
    ensures Expand(op) == [op] <==> !IsFused(op)
  {
    if op.Super? && Expand(op) == [op] { assert Expand(op)[0] == op; }
  }

  /** No expansion holds one that should be expanded. */
  lemma NoneLeft(op: OpCode)
    ensures forall k | 0 <= k < |Expand(op)| :: !IsFused(Expand(op)[k])
  {
  }

  // ── whole units ──

  /** Where the `i`th instruction's expansion starts. */
  function Offset(ops: seq<OpCode>, i: nat): nat
    requires i <= |ops|
  {
    if i == 0 then 0 else Offset(ops, i - 1) + |Expand(ops[i - 1])|
  }

  /** Old index to new index; the end of the unit is an index too. */
  function Offsets(ops: seq<OpCode>): (f: seq<nat>)
    ensures |f| == |ops| + 1
  {
    seq(|ops| + 1, i requires 0 <= i <= |ops| => Offset(ops, i))
  }

  /** The expansions of the first `n` instructions. */
  function Spread(ops: seq<OpCode>, n: nat): (r: seq<OpCode>)
    requires n <= |ops|
    ensures |r| == Offset(ops, n)
  {
    if n == 0 then [] else Spread(ops, n - 1) + Expand(ops[n - 1])
  }

  function Unfused(ops: seq<OpCode>): (r: seq<OpCode>)
    ensures |r| == Offset(ops, |ops|)
  {
    MapAll(Spread(ops, |ops|), Offsets(ops))
  }

  /** Each instruction's expansion stands at its offset. */
  lemma {:induction false} SpreadAt(ops: seq<OpCode>, n: nat, i: nat)
    requires i < n <= |ops|
    ensures Offset(ops, i) + |Expand(ops[i])| <= Offset(ops, n)
    ensures Spread(ops, n)[Offset(ops, i)..Offset(ops, i) + |Expand(ops[i])|] == Expand(ops[i])
  {
    hide Expand;
    if i < n - 1 {
      SpreadAt(ops, n - 1, i);
      var a, b := Offset(ops, i), Offset(ops, i) + |Expand(ops[i])|;
      assert Spread(ops, n)[a..b] == Spread(ops, n - 1)[a..b];
    } else {
      assert Spread(ops, n)[Offset(ops, i)..] == Expand(ops[i]);
    }
  }

  lemma UnfusedAt(ops: seq<OpCode>, i: nat)
    requires i < |ops|
    ensures var at, e := Offset(ops, i), Expand(ops[i]);
      at + |e| <= |Unfused(ops)| && Unfused(ops)[at..at + |e|] == MapAll(e, Offsets(ops))
  {
    hide Expand, Offset, Spread, MapOp;
    SpreadAt(ops, |ops|, i);
    var at, e := Offset(ops, i), Expand(ops[i]);
    MapSlice(Spread(ops, |ops|), Offsets(ops), at, at + |e|);
  }

  lemma MapSlice(ops: seq<OpCode>, f: seq<nat>, a: nat, b: nat)
    requires a <= b <= |ops|
    ensures MapAll(ops, f)[a..b] == MapAll(ops[a..b], f)
  {
    hide MapOp;
  }

  lemma {:induction false} SpreadClean(ops: seq<OpCode>, n: nat)
    requires n <= |ops|
    ensures forall k | 0 <= k < |Spread(ops, n)| :: !IsFused(Spread(ops, n)[k])
  {
    if n > 0 {
      SpreadClean(ops, n - 1);
      NoneLeft(ops[n - 1]);
    }
  }

  /** No superinstruction remains. */
  lemma NoFusedRemains(ops: seq<OpCode>)
    ensures forall k | 0 <= k < |Unfused(ops)| :: !IsFused(Unfused(ops)[k])
  {
    hide Expand;
    SpreadClean(ops, |ops|);
    forall k | 0 <= k < |Unfused(ops)| ensures !IsFused(Unfused(ops)[k]) {
      assert !IsFused(Spread(ops, |ops|)[k]);
    }
  }
}

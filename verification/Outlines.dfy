/** What the windows of the tables and their replacements look like from
    outside: their targets, and where they may stand. */
module Outlines {
  import opened Options
  import opened Opcodes
  import opened Simulation
  import opened Discipline
  import opened Laws
  import opened Windows
  import opened Trampolines

  lemma SlotOrFoldShape(a: OpCode, b: OpCode, e: OpCode, v: OpCode)
    requires SlotRule(a, b, e) == Some(v) || FoldRule(a, b, e) == Some(v)
    ensures !a.Nop? && !b.Nop? && !e.Nop? && !Landing(a) && !Landing(b) && !Landing(e)
    ensures !Barrier(a) && !Barrier(b) && !Barrier(e) && !IsBodyMark(a)
    ensures forall t: nat :: !Targets(v, t)
    ensures !v.Un?
  {
  }

  lemma PairShape(a: OpCode, b: OpCode)
    requires PairRule(a, b).Some?
    ensures var v := PairRule(a, b).value.0;
      && !a.Nop? && !b.Nop? && !Landing(a) && !Landing(b) && !IsBodyMark(a)
      && !Barrier(a) && (PairRule(a, b).value.1 == 2 ==> !Barrier(b))
      && !v.Un? && (v.Push? ==> !v.lit.Int?)
      && (Holding(v) ==> a.Store?)
      && forall t: nat :: !Targets(v, t)
  {
  }

  predicate Fires(ops: seq<OpCode>, i: nat, w: nat, v: OpCode) {
    && i + w <= |ops|
    && (|| (w == 2 && FusePair(ops[i], ops[i + 1]) == Some(v))
        || (w == 3 && FuseTriple(ops[i], ops[i + 1], ops[i + 2]) == Some(v))
        || (w == 4 && FuseQuad(ops[i], ops[i + 1], ops[i + 2], ops[i + 3]) == Some(v)))
  }

  lemma PairsMapped(a: OpCode, b: OpCode, f: seq<nat>)
    requires FusePair(a, b).Some?
    ensures FusePair(MapOp(a, f), MapOp(b, f)) == Some(MapOp(FusePair(a, b).value, f))
  {
  }

  lemma TriplesMapped(a: OpCode, b: OpCode, e: OpCode, f: seq<nat>)
    requires FuseTriple(a, b, e).Some?
    ensures FuseTriple(MapOp(a, f), MapOp(b, f), MapOp(e, f)) == Some(MapOp(FuseTriple(a, b, e).value, f))
  {
    if a.Super? { ForTailMapped(b.f.site, b.f.x, b.f.k, e.t, f); } else { OperandsMapped(a, b, e, f); }
  }

  lemma ForTailMapped(s: nat, x: Loc, k: int, t: nat, f: seq<nat>)
    requires InI32(k)
    ensures var a, b, e := Super(SwapToNextMark), Super(BeginCmdIncrPop(s, x, k)), Jump(t);
            FuseTriple(a, b, e) == Some(Super(ForNextIncr(s, x, k, t)))
            && FuseTriple(MapOp(a, f), MapOp(b, f), MapOp(e, f)) == Some(MapOp(Super(ForNextIncr(s, x, k, t)), f))
  {
  }

  /** Instructions without targets, among those the tables know. */
  predicate Still(op: OpCode) {
    op.Load? || op.Push? || op.Lappend? || op.Pop? || op.Bin?
    || (op.Super? && (op.f.LappendMove? || op.f.AddRR? || op.f.AddRI? || op.f.SubRR? || op.f.SubRI? || op.f.CmpRR?
        || op.f.CmpRI?))
  }

  lemma StillMapped(op: OpCode, f: seq<nat>)
    requires Still(op)
    ensures MapOp(op, f) == op
  {
  }

  lemma OperandsStill(a: OpCode, b: OpCode, e: OpCode)
    requires FuseTriple(a, b, e).Some? && !a.Super?
    ensures Still(a) && Still(b) && Still(e) && Still(FuseTriple(a, b, e).value)
  {
    hide OperandRule, InI32;
    if OperandRule(a, b, e).Some? { OperandStill(a, b, e); }
  }

  lemma OperandStill(a: OpCode, b: OpCode, e: OpCode)
    requires OperandRule(a, b, e).Some?
    ensures Still(a) && Still(b) && Still(e) && Still(Super(OperandRule(a, b, e).value))
    ensures Outline(a, e, Super(OperandRule(a, b, e).value)) && !IsBodyMark(b)
    ensures forall t: nat :: !Targets(Super(OperandRule(a, b, e).value), t)
  {
  }

  lemma OperandsMapped(a: OpCode, b: OpCode, e: OpCode, f: seq<nat>)
    requires FuseTriple(a, b, e).Some? && !a.Super?
    ensures MapOp(a, f) == a && MapOp(b, f) == b && MapOp(e, f) == e
    ensures MapOp(FuseTriple(a, b, e).value, f) == FuseTriple(a, b, e).value
  {
    hide MapOp, FuseTriple, Still;
    OperandsStill(a, b, e);
    StillMapped(a, f);
    StillMapped(b, f);
    StillMapped(e, f);
    StillMapped(FuseTriple(a, b, e).value, f);
  }

  lemma QuadsMapped(a: OpCode, b: OpCode, e: OpCode, g: OpCode, f: seq<nat>)
    requires FuseQuad(a, b, e, g).Some?
    ensures FuseQuad(MapOp(a, f), MapOp(b, f), MapOp(e, f), MapOp(g, f)) == Some(MapOp(FuseQuad(a, b, e, g).value, f))
  {
  }

  lemma FiresMapped(ops: seq<OpCode>, i: nat, w: nat, v: OpCode, f: seq<nat>)
    requires Fires(ops, i, w, v)
    ensures Fires(MapAll(ops, f), i, w, MapOp(v, f))
  {
    hide FusePair, FuseTriple, FuseQuad, MapOp;
    if w == 2 { PairsMapped(ops[i], ops[i + 1], f); }
    else if w == 3 { TriplesMapped(ops[i], ops[i + 1], ops[i + 2], f); }
    else { QuadsMapped(ops[i], ops[i + 1], ops[i + 2], ops[i + 3], f); }
  }

  /** What a fused window looks like from outside. */
  predicate Outline(first: OpCode, last: OpCode, v: OpCode) {
    && !first.Nop? && !last.Nop? && !first.Un?
    && (Landing(first) ==> Landing(v)) && (Barrier(last) ==> Barrier(v))
    && !IsNext(v) && !StartsPass(v) && !v.Push? && !v.Un? && !v.Store?
    && !IsBodyMark(first) && !IsBodyMark(last)
  }

  lemma FusePairShape(a: OpCode, b: OpCode)
    requires FusePair(a, b).Some?
    ensures Outline(a, b, Made(FusePair(a, b)))
    ensures forall t: nat | Targets(Made(FusePair(a, b)), t) :: Targets(b, t)
  {
    if a.Super? { SuperShape(a.f, b); }
    else if a.BeginCmd? { BeginShape(a, b); }
    else if a.SubEnd? { EndShape(b); }
    else { hide FuseSuper, FuseBegin, FuseEnd; }
  }

  lemma SuperShape(g: FusedOp, b: OpCode)
    requires FuseSuper(g, b).Some?
    ensures Outline(Super(g), b, Made(FuseSuper(g, b)))
    ensures forall t: nat | Targets(Made(FuseSuper(g, b)), t) :: Targets(b, t)
  {
  }

  lemma BeginShape(a: OpCode, b: OpCode)
    requires a.BeginCmd? && FuseBegin(a.site, b).Some?
    ensures Outline(a, b, Made(FuseBegin(a.site, b)))
    ensures forall t: nat :: !Targets(Made(FuseBegin(a.site, b)), t)
  {
  }

  lemma EndShape(b: OpCode)
    requires FuseEnd(b).Some?
    ensures Outline(SubEnd, b, Made(FuseEnd(b)))
    ensures forall t: nat :: !Targets(Made(FuseEnd(b)), t)
  {
  }

  lemma FuseTripleShape(a: OpCode, b: OpCode, e: OpCode)
    requires FuseTriple(a, b, e).Some?
    ensures Outline(a, e, FuseTriple(a, b, e).value) || FuseTriple(a, b, e).value.Push?
    ensures !FuseTriple(a, b, e).value.Push? && !IsBodyMark(b)
    ensures forall t: nat | Targets(FuseTriple(a, b, e).value, t) :: Targets(e, t)
  {
    hide OperandRule;
    if OperandRule(a, b, e).Some? { OperandStill(a, b, e); }
  }

  lemma FuseQuadShape(a: OpCode, b: OpCode, e: OpCode, g: OpCode)
    requires FuseQuad(a, b, e, g).Some?
    ensures Outline(a, g, FuseQuad(a, b, e, g).value) && !IsBodyMark(b) && !IsBodyMark(e)
    ensures forall t: nat :: !Targets(FuseQuad(a, b, e, g).value, t)
  {
  }

  lemma FiresShape(ops: seq<OpCode>, i: nat, w: nat, v: OpCode)
    requires Fires(ops, i, w, v)
    ensures 2 <= w <= 4 && i + w <= |ops| && Outline(OpAt(ops, i), OpAt(ops, i + w - 1), v)
    ensures forall k | i <= k < i + w :: !IsBodyMark(ops[k])
    ensures forall t: nat | Targets(v, t) :: Targets(ops[i + w - 1], t)
  {
    hide FusePair, FuseTriple, FuseQuad, Outline, Targets;
    if w == 2 {
      FusePairShape(ops[i], ops[i + 1]);
      assert Outline(ops[i], ops[i + 1], v) ==> !IsBodyMark(ops[i]) && !IsBodyMark(ops[i + 1])
          by { OutlineEnds(ops[i], ops[i + 1], v); }
    } else if w == 3 {
      FuseTripleShape(ops[i], ops[i + 1], ops[i + 2]);
      OutlineEnds(ops[i], ops[i + 2], v);
    } else {
      FuseQuadShape(ops[i], ops[i + 1], ops[i + 2], ops[i + 3]);
      OutlineEnds(ops[i], ops[i + 3], v);
    }
  }

  lemma OutlineEnds(first: OpCode, last: OpCode, v: OpCode)
    ensures Outline(first, last, v) ==> !IsBodyMark(first) && !IsBodyMark(last)
  {
  }
}

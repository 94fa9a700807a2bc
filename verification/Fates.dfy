/** The optimiser's rewritings leave every negation's fate as it was, or better:
    what could not take a value for its double negation may no longer look. */
module Fates {
  import opened Options
  import opened Opcodes
  import opened Machine
  import opened Rewriting
  import opened Stripping
  import opened Windows
  import opened Trampolines
  import opened Negations

  predicate Better(a: Fate, b: Fate) { a.Never? || a == b }

  /** Instructions at which constant arithmetic stops. */
  predicate Firm(op: OpCode) { !op.Nop? && !op.Push? && !op.Pop? && !op.Bin? && !op.JumpIf? && op != Un(Not) }

  /** The windows the optimiser replaces, seen as takers of a value. */
  predicate Blends(ops: seq<OpCode>, i: nat, w: int, v: OpCode) {
    1 <= w && i + w <= |ops| && (
    || (Firm(ops[i]) && Firm(v))
    || (w == 1 && ops[i].Push? && v.Push?)
    || (w == 3 && ops[i].Push? && ops[i + 1].Push? && ops[i + 2].Bin? && v.Push?)
    || (w == 2 && ops[i].Push? && ops[i + 1].Pop? && v.Nop?)
    || (w >= 2 && ops[i].Push? && Firm(ops[i + 1]) && Firm(v))
    || (w == 2 && ops[i] == Un(Not) && ops[i + 1] == Un(Not) && v.Nop?))
  }

  lemma {:induction false} SolidSkips(ops: seq<OpCode>, q: nat, n: nat, c: nat)
    requires q + n <= |ops| && forall k | q <= k < q + n :: ops[k].Nop?
    ensures Solid(ops, q, c) == Solid(ops, q + n, c)
    decreases n
  {
    if n > 0 { SolidSkips(ops, q + 1, n - 1, c); }
  }

  lemma {:induction false} FateSkips(ops: seq<OpCode>, q: nat, n: nat, odd: bool)
    requires q + n <= |ops| && forall k | q <= k < q + n :: ops[k].Nop?
    ensures FateAt(ops, q, odd) == FateAt(ops, q + n, odd)
    decreases n
  {
    if n > 0 { FateSkips(ops, q + 1, n - 1, odd); }
  }

  /** Behind the window nothing changes. */
  lemma {:induction false} SolidBehind(ops: seq<OpCode>, i: nat, w: nat, v: OpCode, q: nat, c: nat)
    requires i + w <= q && 1 <= w
    ensures Solid(Rewritten(ops, i, w, v), q, c) == Solid(ops, q, c)
    decreases |ops| - q
  {
    if q < |ops| {
      SolidBehind(ops, i, w, v, q + 1, c);
      SolidBehind(ops, i, w, v, q + 1, c + 1);
      if c > 0 { SolidBehind(ops, i, w, v, q + 1, c - 1); }
    }
  }

  lemma SolidAcross(ops: seq<OpCode>, i: nat, w: nat, v: OpCode, c: nat)
    requires 1 <= w && i + w <= |ops| && Blends(ops, i, w, v) && c > 0
    ensures Solid(Rewritten(ops, i, w, v), i, c) == Solid(ops, i, c)
  {
    var out := Rewritten(ops, i, w, v);
    SolidBehind(ops, i, w, v, i + w, c);
    SolidBehind(ops, i, w, v, i + w, c + 1);
    SolidSkips(out, i + 1, w - 1, c);
    SolidSkips(out, i + 1, w - 1, c + 1);
    if w == 3 && ops[i].Push? && ops[i + 1].Push? && ops[i + 2].Bin? {
      assert Solid(ops, i + 1, c + 1) == Solid(ops, i + 2, c + 2);
      assert Solid(ops, i + 2, c + 2) == Solid(ops, i + 3, c + 1);
    } else if w == 2 {
      assert Solid(ops, i + 1, c + 1) == (ops[i + 1].Pop? && Solid(ops, i + 2, c)) || !ops[i + 1].Pop?;
      assert ops[i + 1] == Un(Not) ==> Solid(ops, i + 1, c) == Solid(ops, i + 2, c);
    }
  }

  lemma {:induction false} SolidRewritten(ops: seq<OpCode>, i: nat, w: nat, v: OpCode, q: nat, c: nat)
    requires 1 <= w && i + w <= |ops| && Blends(ops, i, w, v) && (q <= i || i + w <= q) && c > 0
    ensures Solid(Rewritten(ops, i, w, v), q, c) == Solid(ops, q, c)
    decreases |ops| - q
  {
    hide Blends;
    if q == i { SolidAcross(ops, i, w, v, c); }
    else if i + w <= q { SolidBehind(ops, i, w, v, q, c); }
    else {
      SolidRewritten(ops, i, w, v, q + 1, c);
      SolidRewritten(ops, i, w, v, q + 1, c + 1);
      if c > 1 { SolidRewritten(ops, i, w, v, q + 1, c - 1); }
    }
  }

  lemma {:induction false} FateBehind(ops: seq<OpCode>, i: nat, w: nat, v: OpCode, q: nat, odd: bool)
    requires i + w <= q && 1 <= w
    ensures FateAt(Rewritten(ops, i, w, v), q, odd) == FateAt(ops, q, odd)
    decreases |ops| - q
  {
    hide Solid;
    if q < |ops| {
      assert |Rewritten(ops, i, w, v)| == |ops| && Rewritten(ops, i, w, v)[q] == ops[q];
      hide Rewritten;
      FateBehind(ops, i, w, v, q + 1, odd);
      FateBehind(ops, i, w, v, q + 1, !odd);
      SolidBehind(ops, i, w, v, q + 1, 1);
    }
  }

  lemma FateAcross(ops: seq<OpCode>, i: nat, w: nat, v: OpCode, odd: bool)
    requires 1 <= w && i + w <= |ops| && Blends(ops, i, w, v)
    ensures Better(FateAt(ops, i, odd), FateAt(Rewritten(ops, i, w, v), i, odd))
  {
    var out := Rewritten(ops, i, w, v);
    FateBehind(ops, i, w, v, i + w, odd);
    SolidBehind(ops, i, w, v, i + w, 1);
    SolidSkips(out, i + 1, w - 1, 1);
    FateSkips(out, i + 1, w - 1, odd);
    if w == 3 && ops[i].Push? && ops[i + 1].Push? && ops[i + 2].Bin? {
      assert Solid(ops, i + 1, 1) == Solid(ops, i + 2, 2);
      assert Solid(ops, i + 2, 2) == Solid(ops, i + 3, 1);
    } else if ops[i] == Un(Not) && w == 2 {
      assert FateAt(ops, i + 1, !odd) == FateAt(ops, i + 2, odd) || ops[i + 1] != Un(Not);
    }
  }

  lemma {:induction false} FateRewritten(ops: seq<OpCode>, i: nat, w: nat, v: OpCode, q: nat, odd: bool)
    requires 1 <= w && i + w <= |ops| && Blends(ops, i, w, v) && (q <= i || i + w <= q)
    ensures Better(FateAt(ops, q, odd), FateAt(Rewritten(ops, i, w, v), q, odd))
    decreases |ops| - q
  {
    hide Blends;
    if q == i { FateAcross(ops, i, w, v, odd); }
    else if i + w <= q { FateBehind(ops, i, w, v, q, odd); }
    else {
      FateRewritten(ops, i, w, v, q + 1, odd);
      FateRewritten(ops, i, w, v, q + 1, !odd);
      SolidRewritten(ops, i, w, v, q + 1, 1);
    }
  }

  // ── the tables ──

  lemma PairBlends(ops: seq<OpCode>, i: nat)
    requires i + 2 <= |ops|
    ensures FusePair(ops[i], ops[i + 1]).Some? ==> Blends(ops, i, 2, FusePair(ops[i], ops[i + 1]).value)
    ensures PairRule(ops[i], ops[i + 1]).Some? ==>
      var p := PairRule(ops[i], ops[i + 1]).value; p.1 in {1, 2} && Blends(ops, i, p.1, p.0)
  {
  }

  lemma TripleBlends(ops: seq<OpCode>, i: nat, v: OpCode)
    requires i + 3 <= |ops|
    requires var a, b, e := ops[i], ops[i + 1], ops[i + 2];
        SlotRule(a, b, e) == Some(v) || FoldRule(a, b, e) == Some(v) || FuseTriple(a, b, e) == Some(v)
    ensures Blends(ops, i, 3, v)
  {
  }

  lemma QuadBlends(ops: seq<OpCode>, i: nat, v: OpCode)
    requires i + 4 <= |ops| && FuseQuad(ops[i], ops[i + 1], ops[i + 2], ops[i + 3]) == Some(v)
    ensures Blends(ops, i, 4, v)
  {
  }

  lemma TrampolineBlends(ops: seq<OpCode>, i: nat)
    requires TrampolineRule(ops, i).Some?
    ensures Blends(ops, i, 2, TrampolineRule(ops, i).value)
  {
  }

  // ── renaming and compaction ──

  lemma MapKeepsTaker(op: OpCode, f: seq<nat>)
    ensures var m := MapOp(op, f);
      && m.Nop? == op.Nop? && m.Push? == op.Push? && m.Pop? == op.Pop? && m.Bin? == op.Bin? && m.JumpIf? == op.JumpIf?
      && m.Un? == op.Un? && (op.Un? ==> m == op)
  {
  }

  lemma {:induction false} SolidMapped(ops: seq<OpCode>, f: seq<nat>, q: nat, c: nat)
    ensures Solid(MapAll(ops, f), q, c) == Solid(ops, q, c)
    decreases |ops| - q
  {
    hide MapOp;
    if q < |ops| {
      MapKeepsTaker(ops[q], f);
      SolidMapped(ops, f, q + 1, c);
      SolidMapped(ops, f, q + 1, c + 1);
      if c > 0 { SolidMapped(ops, f, q + 1, c - 1); }
    }
  }

  lemma {:induction false} FateMapped(ops: seq<OpCode>, f: seq<nat>, q: nat, odd: bool)
    ensures FateAt(MapAll(ops, f), q, odd) == FateAt(ops, q, odd)
    decreases |ops| - q
  {
    hide MapOp;
    if q < |ops| {
      MapKeepsTaker(ops[q], f);
      FateMapped(ops, f, q + 1, odd);
      FateMapped(ops, f, q + 1, !odd);
      SolidMapped(ops, f, q + 1, 1);
    }
  }

  lemma StrippedAt(ops: seq<OpCode>, q: nat)
    requires q <= |ops|
    ensures q == |ops| ==> Kept(ops, q) == |Strip(ops)|
    ensures q < |ops| && ops[q].Nop? ==> Kept(ops, q + 1) == Kept(ops, q)
    ensures q < |ops| && !ops[q].Nop? ==>
      Kept(ops, q + 1) == Kept(ops, q) + 1 && Kept(ops, q) < |Strip(ops)|
          && Strip(ops)[Kept(ops, q)] == MapOp(ops[q], Forward(ops))
  {
    SqueezeSize(ops, |ops|, Forward(ops));
    if q < |ops| && !ops[q].Nop? { SqueezeAt(ops, |ops|, Forward(ops), q); }
  }

  lemma {:induction false} SolidStripped(ops: seq<OpCode>, q: nat, c: nat)
    requires q <= |ops|
    ensures Solid(Strip(ops), Kept(ops, q), c) == Solid(ops, q, c)
    decreases |ops| - q
  {
    hide MapOp, Strip;
    StrippedAt(ops, q);
    if q < |ops| {
      MapKeepsTaker(ops[q], Forward(ops));
      SolidStripped(ops, q + 1, c);
      SolidStripped(ops, q + 1, c + 1);
      if c > 0 { SolidStripped(ops, q + 1, c - 1); }
    }
  }

  lemma {:induction false} FateStripped(ops: seq<OpCode>, q: nat, odd: bool)
    requires q <= |ops|
    ensures FateAt(Strip(ops), Kept(ops, q), odd) == FateAt(ops, q, odd)
    decreases |ops| - q
  {
    hide MapOp, Strip;
    StrippedAt(ops, q);
    if q < |ops| {
      MapKeepsTaker(ops[q], Forward(ops));
      FateStripped(ops, q + 1, odd);
      FateStripped(ops, q + 1, !odd);
      SolidStripped(ops, q + 1, 1);
    }
  }
}

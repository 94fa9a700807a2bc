/** When a round changes nothing, no window of the tables is left. */
module Settled {
  import opened Options
  import opened Opcodes
  import opened Arith
  import opened Simulation
  import opened Discipline
  import opened Rewriting
  import opened Stripping
  import opened Windows
  import opened Trampolines
  import opened Passes
  import opened Idle
  import opened Ranges
  import opened Convergence

  predicate NoNops(ops: seq<OpCode>) { forall k | 0 <= k < |ops| :: !ops[k].Nop? }

  predicate NoSlot(ops: seq<OpCode>, k: int) {
    0 <= k && k + 2 < |ops| ==> SlotRule(ops[k], ops[k + 1], ops[k + 2]).None?
  }

  predicate NoFold(ops: seq<OpCode>, k: int) {
    0 <= k && k + 2 < |ops| ==> FoldRule(ops[k], ops[k + 1], ops[k + 2]).None?
  }

  predicate NoPair(ops: seq<OpCode>, k: int) { 0 <= k && k + 1 < |ops| ==> PairRule(ops[k], ops[k + 1]).None? }

  predicate NoFusion(ops: seq<OpCode>, k: int) {
    0 <= k && k + 1 < |ops| ==> FuseRule(ops, CollectTargets(ops), k).None?
  }

  /** No rule of any pass matches anywhere. */
  predicate Done(ops: seq<OpCode>) {
    forall k | 0 <= k < |ops| :: NoSlot(ops, k) && NoFold(ops, k) && NoPair(ops, k) && NoFusion(ops, k)
  }

  // ── scans that do not fire ──

  lemma {:induction false} SlotsIdle(ops: seq<OpCode>, i: nat)
    requires !Slots(ops, i).1
    ensures Slots(ops, i).0 == ops && forall k | i <= k < |ops| :: NoSlot(ops, k)
    decreases |ops| - i
  {
    hide SlotRule;
    if i + 2 < |ops| { SlotsIdle(ops, i + 1); }
  }

  lemma {:induction false} FoldsIdle(ops: seq<OpCode>, i: nat)
    requires !Folds(ops, i).1
    ensures Folds(ops, i).0 == ops && forall k | i <= k < |ops| :: NoFold(ops, k)
    decreases |ops| - i
  {
    hide FoldRule;
    if i + 2 < |ops| { FoldsIdle(ops, i + 1); }
  }

  lemma {:induction false} PairsIdle(ops: seq<OpCode>, i: nat)
    requires !Pairs(ops, i).1
    ensures Pairs(ops, i).0 == ops && forall k | i <= k < |ops| :: NoPair(ops, k)
    decreases |ops| - i
  {
    hide PairRule;
    if i + 1 < |ops| { PairsIdle(ops, i + 1); }
  }

  lemma {:induction false} FusionsIdle(ops: seq<OpCode>, targets: seq<bool>, i: nat)
    requires !FuseFrom(ops, targets, [], i).changed
    ensures FuseFrom(ops, targets, [], i) == Fusion(ops, [], false)
    ensures forall k | i <= k && k + 1 < |ops| :: FuseRule(ops, targets, k).None?
    decreases |ops| - i
  {
    hide FuseRule;
    if i + 1 < |ops| { FusionsIdle(ops, targets, i + 1); }
  }

  lemma FusionIdle(ops: seq<OpCode>)
    requires !FusePairs(ops).1
    ensures FusePairs(ops) == (ops, false) && forall k | 0 <= k < |ops| :: NoFusion(ops, k)
  {
    hide FuseFrom, FuseRule;
    if |ops| >= 2 { FusionsIdle(ops, CollectTargets(ops), 0); }
  }

  // ── slots, fused in one pass ──

  /** No-ops only behind a superinstruction. */
  predicate Trailed(ops: seq<OpCode>) {
    forall k | 0 <= k < |ops| && ops[k].Nop? :: k > 0 && (ops[k - 1].Super? || ops[k - 1].Nop?)
  }

  lemma SlotParts(a: OpCode, b: OpCode, e: OpCode)
    requires SlotRule(a, b, e).Some?
    ensures SlotRule(a, b, e).value.Super? && (a.Load? || a.Push?) && (b.Load? || b.Push?) && e.Bin?
  {
  }

  lemma {:induction false} SlotsLeave(ops: seq<OpCode>, i: nat)
    requires Trailed(ops) && (forall k | i <= k < |ops| :: !ops[k].Nop?) && forall k | 0 <= k < i :: NoSlot(ops, k)
    ensures var r := Slots(ops, i).0; Trailed(r) && forall k | 0 <= k < |r| :: NoSlot(r, k)
    decreases |ops| - i
  {
    hide SlotRule;
    if i + 2 < |ops| {
      var v := SlotRule(ops[i], ops[i + 1], ops[i + 2]);
      if v.Some? {
        SlotFired(ops, i, v.value);
        SlotsLeave(Rewritten(ops, i, 3, v.value), i + 3);
      } else {
        SlotsLeave(ops, i + 1);
      }
    }
  }

  lemma SlotFired(ops: seq<OpCode>, i: nat, v: OpCode)
    requires i + 2 < |ops| && SlotRule(ops[i], ops[i + 1], ops[i + 2]) == Some(v)
    requires Trailed(ops) && (forall k | i <= k < |ops| :: !ops[k].Nop?) && forall k | 0 <= k < i :: NoSlot(ops, k)
    ensures var r := Rewritten(ops, i, 3, v);
      Trailed(r) && (forall k | i + 3 <= k < |r| :: !r[k].Nop?) && forall k | 0 <= k < i + 3 :: NoSlot(r, k)
  {
    hide SlotRule;
    SlotParts(ops[i], ops[i + 1], ops[i + 2]);
    var r := Rewritten(ops, i, 3, v);
    forall k | 0 <= k < i + 3 ensures NoSlot(r, k) {
      if k + 2 < i { assert NoSlot(ops, k); }
      else if k + 2 < |r| { Unfit(r[k], r[k + 1], r[k + 2]); }
    }
  }

  /** What a fused window leaves behind is in no window. */
  lemma Unfit(a: OpCode, b: OpCode, e: OpCode)
    requires a.Super? || a.Nop? || b.Super? || b.Nop? || e.Super? || e.Nop?
    ensures SlotRule(a, b, e).None?
  {
  }

  // ── and stripped ──

  /** Kept neighbours of which the first is no superinstruction were neighbours. */
  lemma Neighbours(ops: seq<OpCode>, i: nat, j: nat)
    requires Trailed(ops) && i < j < |ops| && !ops[i].Nop? && !ops[j].Nop? && !ops[i].Super?
    requires Kept(ops, j) == Kept(ops, i) + 1
    ensures j == i + 1
  {
    if i + 1 < j { KeptGrows(ops, i + 2, j); }
    if i + 1 < j && !ops[i + 1].Nop? { assert Kept(ops, i + 2) == Kept(ops, i) + 2; }
  }

  lemma KeptOrder(ops: seq<OpCode>, i: nat, j: nat)
    requires i < |ops| && j < |ops| && Kept(ops, i) < Kept(ops, j)
    ensures i < j
  {
    if j <= i { KeptGrows(ops, j, i); }
  }

  lemma SlotKinds(op: OpCode, f: seq<nat>)
    ensures MapOp(op, f).Load? || MapOp(op, f).Push? || MapOp(op, f).Bin? ==> MapOp(op, f) == op
    ensures op.Super? <==> MapOp(op, f).Super?
  {
  }

  lemma StrippedSlots(ops: seq<OpCode>)
    requires Trailed(ops) && forall k | 0 <= k < |ops| :: NoSlot(ops, k)
    ensures forall k | 0 <= k < |Strip(ops)| :: NoSlot(Strip(ops), k)
  {
    hide SlotRule, Strip;
    var r := Strip(ops);
    forall k | 0 <= k < |r| ensures NoSlot(r, k) {
      if k + 2 < |r| && SlotRule(r[k], r[k + 1], r[k + 2]).Some? { var a := SlotBefore(ops, k); }
    }
  }

  /** A window of the stripped unit was one before. */
  lemma SlotBefore(ops: seq<OpCode>, k: nat) returns (a: nat)
    requires var r := Strip(ops); Trailed(ops) && k + 2 < |r| && SlotRule(r[k], r[k + 1], r[k + 2]).Some?
    ensures a < |ops| && !NoSlot(ops, a)
  {
    hide SlotRule, MapOp;
    var f, r := Forward(ops), Strip(ops);
    SlotParts(r[k], r[k + 1], r[k + 2]);
    a := SqueezeFrom(ops, |ops|, f, k);
    var b := SqueezeFrom(ops, |ops|, f, k + 1);
    var c := SqueezeFrom(ops, |ops|, f, k + 2);
    SlotKinds(ops[a], f);
    SlotKinds(ops[b], f);
    SlotKinds(ops[c], f);
    KeptOrder(ops, a, b);
    KeptOrder(ops, b, c);
    Neighbours(ops, a, b);
    Neighbours(ops, b, c);
  }

  lemma AfterSlotsDone(ops: seq<OpCode>)
    requires NoNops(ops)
    ensures NoNops(AfterSlots(ops)) && forall k | 0 <= k < |AfterSlots(ops)| :: NoSlot(AfterSlots(ops), k)
  {
    hide SlotRule, Slots, Strip;
    var r := Slots(ops, 0);
    if r.1 {
      SlotsLeave(ops, 0);
      StrippedSlots(r.0);
      StripLeavesNoNop(r.0);
    } else {
      SlotsIdle(ops, 0);
    }
  }

  /** A unit without no-ops that a round does not change has no window left. */
  lemma RoundSettles(ops: seq<OpCode>)
    requires NoNops(ops) && InRange(ops) && !Round(ops).1
    ensures Done(Round(ops).0)
  {
    hide AfterSlots, Folds, Pairs, FusePairs, NoSlot, NoFold, NoPair, NoFusion, InRange, Forward;
    var a := AfterSlots(ops);
    AfterSlotsDone(ops);
    AfterSlotsInRange(ops);
    if |a| >= 2 {
      FoldsIdle(a, 0);
      PairsIdle(a, 0);
    } else {
      TooShort(a);
    }
    FusionIdle(a);
    WholeKept(a, |a|, Forward(a));
    assert Strip(a) == a[..|a|] == a;
  }

  lemma TooShort(ops: seq<OpCode>)
    requires |ops| < 2
    ensures forall k :: NoFold(ops, k) && NoPair(ops, k)
  {
  }

  /** So the pipeline without its cap ends in a unit without windows. */
  lemma {:induction false} ConvergeSettles(ops: seq<OpCode>)
    requires NoNops(ops) && InRange(ops)
    ensures Done(Converge(ops))
    decreases Live(ops), Ints(ops)
  {
    hide Round, Done, InRange;
    RoundShrinks(ops);
    if Round(ops).1 {
      RoundInRange(ops);
      RoundNoNops(ops);
      ConvergeSettles(Round(ops).0);
    } else {
      RoundSettles(ops);
    }
  }

  lemma RoundNoNops(ops: seq<OpCode>)
    ensures NoNops(Round(ops).0)
  {
    StripLeavesNoNop(FusePairs(PeepholePass(ops).0).0);
  }

  /** With its cap: eight rounds that all change something, or no window left. */
  lemma {:induction false} RoundsSettle(ops: seq<OpCode>, n: nat) returns (used: nat)
    requires NoNops(ops) && InRange(ops)
    ensures used <= n && (used < n ==> Done(Rounds(ops, n)) && Rounds(ops, n) == Converge(ops))
    decreases n
  {
    hide Round, Done, InRange;
    used := 0;
    if n > 0 {
      if Round(ops).1 {
        RoundInRange(ops);
        RoundNoNops(ops);
        used := RoundsSettle(Round(ops).0, n - 1);
        used := used + 1;
      } else {
        RoundSettles(ops);
      }
    }
  }
}

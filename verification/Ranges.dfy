/** No pass sends a target out of the unit. */
module Ranges {
  import opened Options
  import opened Opcodes
  import opened Discipline
  import opened Rewriting
  import opened Stripping
  import opened Windows
  import opened Trampolines
  import opened Passes
  import opened Outlines

  lemma RewriteInRange(ops: seq<OpCode>, i: nat, w: nat, v: OpCode)
    requires InRange(ops) && i + w <= |ops| && forall t: nat | Targets(v, t) :: t <= |ops|
    ensures InRange(Rewritten(ops, i, w, v))
  {
    var out := Rewritten(ops, i, w, v);
    forall j, t: nat | 0 <= j < |out| && Targets(out[j], t) ensures t <= |out| {
      if j != i { assert out[j] == ops[j]; }
    }
  }

  lemma {:induction false} SlotsInRange(ops: seq<OpCode>, i: nat)
    requires InRange(ops)
    ensures InRange(Slots(ops, i).0)
    decreases |ops| - i
  {
    hide SlotRule, Targets;
    if i + 2 < |ops| {
      match SlotRule(ops[i], ops[i + 1], ops[i + 2])
      case Some(v) =>
        SlotOrFoldShape(ops[i], ops[i + 1], ops[i + 2], v);
        RewriteInRange(ops, i, 3, v);
        SlotsInRange(Rewritten(ops, i, 3, v), i + 3);
      case None => SlotsInRange(ops, i + 1);
    }
  }

  lemma {:induction false} FoldsInRange(ops: seq<OpCode>, i: nat)
    requires InRange(ops)
    ensures InRange(Folds(ops, i).0)
    decreases |ops| - i, if i + 1 < |ops| && ops[i + 1].Nop? then 0 else 1
  {
    hide FoldRule, Targets;
    if i + 2 < |ops| {
      match FoldRule(ops[i], ops[i + 1], ops[i + 2])
      case Some(v) =>
        SlotOrFoldShape(ops[i], ops[i + 1], ops[i + 2], v);
        RewriteInRange(ops, i, 3, v);
        FoldsInRange(Rewritten(ops, i, 3, v), i);
      case None => FoldsInRange(ops, i + 1);
    }
  }

  lemma {:induction false} PairsInRange(ops: seq<OpCode>, i: nat)
    requires InRange(ops)
    ensures InRange(Pairs(ops, i).0)
    decreases |ops| - i
  {
    hide PairRule, Targets;
    if i + 1 < |ops| {
      match PairRule(ops[i], ops[i + 1])
      case Some(p) =>
        PairShape(ops[i], ops[i + 1]);
        PairWidth(ops[i], ops[i + 1]);
        RewriteInRange(ops, i, p.1, p.0);
        PairsInRange(Rewritten(ops, i, p.1, p.0), i + p.1);
      case None => PairsInRange(ops, i + 1);
    }
  }

  lemma PairWidth(a: OpCode, b: OpCode)
    requires PairRule(a, b).Some?
    ensures 1 <= PairRule(a, b).value.1 <= 2
  {
  }

  lemma AfterSlotsInRange(ops: seq<OpCode>)
    requires InRange(ops)
    ensures InRange(AfterSlots(ops))
  {
    hide Slots, Strip, InRange;
    SlotsInRange(ops, 0);
    StripKeepsRange(Slots(ops, 0).0);
  }

  lemma PassInRange(ops: seq<OpCode>)
    requires InRange(ops)
    ensures InRange(PeepholePass(ops).0)
  {
    hide AfterSlots, Folds, Pairs, InRange;
    AfterSlotsInRange(ops);
    var a := AfterSlots(ops);
    FoldsInRange(a, 0);
    PairsInRange(Folds(a, 0).0, 0);
  }

  predicate Backward(rt: seq<(nat, nat)>, n: nat) { forall k | 0 <= k < |rt| :: rt[k].1 <= n }

  lemma TrampolineTargets(ops: seq<OpCode>, i: nat)
    requires TrampolineRule(ops, i).Some?
    ensures i + 2 <= |ops| && forall t: nat | Targets(TrampolineRule(ops, i).value, t) :: t <= |ops|
  {
  }

  lemma {:induction false} ScanInRange(ops: seq<OpCode>, targets: seq<bool>, rt: seq<(nat, nat)>, i: nat)
    requires InRange(ops) && Backward(rt, |ops|)
    ensures var r := FuseFrom(ops, targets, rt, i); InRange(r.ops) && Backward(r.rt, |ops|)
    decreases |ops| - i
  {
    hide TrampolineRule, FusePair, FuseTriple, FuseQuad, TailFree, Targets;
    if i + 1 < |ops| {
      match FuseRule(ops, targets, i)
      case None => ScanInRange(ops, targets, rt, i + 1);
      case Some(p) =>
        if TrampolineRule(ops, i).Some? { TrampolineTargets(ops, i); }
        else {
          FiresShape(ops, i, p.1, p.0);
          assert forall t: nat | Targets(p.0, t) :: Targets(ops[i + p.1 - 1], t) && t <= |ops|;
        }
        RewriteInRange(ops, i, p.1, p.0);
        ScanInRange(Rewritten(ops, i, p.1, p.0), targets,
                    if TrampolineRule(ops, i).Some? then rt + [(i + 1, i)] else rt, i + p.1);
    }
  }

  lemma {:induction false} ChaseInRange(rt: seq<(nat, nat)>, n: nat, t: nat)
    requires Backward(rt, n) && t <= n
    ensures Chase(rt, t) <= n
  {
    if rt != [] { ChaseInRange(rt[..|rt| - 1], n, t); }
  }

  lemma FusePairsInRange(ops: seq<OpCode>)
    requires InRange(ops)
    ensures InRange(FusePairs(ops).0)
  {
    hide FuseFrom, CollectTargets, MapOp;
    if |ops| >= 2 {
      var r := FuseFrom(ops, CollectTargets(ops), [], 0);
      ScanInRange(ops, CollectTargets(ops), [], 0);
      var f := Table(r.rt, |ops|);
      var out := MapAll(r.ops, f);
      forall j, t: nat | 0 <= j < |out| && Targets(out[j], t) ensures t <= |out| {
        var t0 := MappedTarget(r.ops[j], f, t);
        ChaseInRange(r.rt, |ops|, t0);
      }
    }
  }

  lemma RoundInRange(ops: seq<OpCode>)
    requires InRange(ops)
    ensures InRange(Round(ops).0)
  {
    hide PeepholePass, FusePairs, InRange, Strip;
    PassInRange(ops);
    FusePairsInRange(PeepholePass(ops).0);
    StripKeepsRange(FusePairs(PeepholePass(ops).0).0);
  }
}

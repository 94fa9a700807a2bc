/** The optimiser's passes as functions from instruction sequences to
    instruction sequences. */
module Passes {
  import opened Options
  import opened Opcodes
  import opened Rewriting
  import opened Stripping
  import opened Windows
  import opened Trampolines

  // ── the passes ──

  /** Slot superinstructions, left to right from `i`; did any fire? */
  function Slots(ops: seq<OpCode>, i: nat): (r: (seq<OpCode>, bool))
    ensures |r.0| == |ops|
    decreases |ops| - i
  {
    if i + 2 >= |ops| then (ops, false)
    else match SlotRule(ops[i], ops[i + 1], ops[i + 2])
      case Some(v) => (Slots(Rewritten(ops, i, 3, v), i + 3).0, true)
      case None => Slots(ops, i + 1)
  }

  /** Constant folding; a folded window is looked at once more. */
  function Folds(ops: seq<OpCode>, i: nat): (r: (seq<OpCode>, bool))
    ensures |r.0| == |ops|
    decreases |ops| - i, if i + 1 < |ops| && ops[i + 1].Nop? then 0 else 1
  {
    if i + 2 >= |ops| then (ops, false)
    else match FoldRule(ops[i], ops[i + 1], ops[i + 2])
      case Some(v) => (Folds(Rewritten(ops, i, 3, v), i).0, true)
      case None => Folds(ops, i + 1)
  }

  function Pairs(ops: seq<OpCode>, i: nat): (r: (seq<OpCode>, bool))
    ensures |r.0| == |ops|
    decreases |ops| - i
  {
    if i + 1 >= |ops| then (ops, false)
    else match PairRule(ops[i], ops[i + 1])
      case Some(p) => (Pairs(Rewritten(ops, i, p.1, p.0), i + p.1).0, true)
      case None => Pairs(ops, i + 1)
  }

  function AfterSlots(ops: seq<OpCode>): seq<OpCode> {
    var r := Slots(ops, 0);
    if r.1 then Strip(r.0) else r.0
  }

  function PeepholePass(ops: seq<OpCode>): (seq<OpCode>, bool) {
    var a := AfterSlots(ops);
    if |a| < 2 then (a, false)
    else
      var b := Folds(a, 0);
      var c := Pairs(b.0, 0);
      (c.0, b.1 || c.1)
  }

  /** No position of the window's tail is a target. */
  predicate TailFree(ops: seq<OpCode>, targets: seq<bool>, i: nat, w: nat) {
    i + w <= |ops| && forall k | i < k < i + w :: k < |targets| && !targets[k]
  }

  /** What the pair fusion does at `i`, with the width it consumes. */
  function FuseRule(ops: seq<OpCode>, targets: seq<bool>, i: nat): (r: Option<(OpCode, nat)>)
    requires i + 1 < |ops|
    ensures r.Some? ==> 2 <= r.value.1 <= 4 && i + r.value.1 <= |ops|
  {
    var a, b := ops[i], ops[i + 1];
    if TrampolineRule(ops, i).Some? then Some((TrampolineRule(ops, i).value, 2))
    else if FusePair(a, b).Some? then
      if TailFree(ops, targets, i, 2) then Some((FusePair(a, b).value, 2)) else None
    else if TailFree(ops, targets, i, 3) && FuseTriple(a, b, ops[i + 2]).Some? then
      Some((FuseTriple(a, b, ops[i + 2]).value, 3))
    else if TailFree(ops, targets, i, 4) && FuseQuad(a, b, ops[i + 2], ops[i + 3]).Some? then
      Some((FuseQuad(a, b, ops[i + 2], ops[i + 3]).value, 4))
    else None
  }

  /** Follow a list of retargetings. */
  function Chase(rt: seq<(nat, nat)>, t: nat): nat {
    if rt == [] then t
    else
      var u := Chase(rt[..|rt| - 1], t);
      if u == rt[|rt| - 1].0 then rt[|rt| - 1].1 else u
  }

  function Table(rt: seq<(nat, nat)>, n: nat): (f: seq<nat>)
    ensures |f| == n + 1
  {
    seq(n + 1, t requires 0 <= t <= n => Chase(rt, t))
  }

  datatype Fusion = Fusion(ops: seq<OpCode>, rt: seq<(nat, nat)>, changed: bool)

  /** The fusion scan from `i`, before the retargetings are applied. */
  function FuseFrom(ops: seq<OpCode>, targets: seq<bool>, rt: seq<(nat, nat)>, i: nat): (r: Fusion)
    ensures |r.ops| == |ops|
    decreases |ops| - i
  {
    if i + 1 >= |ops| then Fusion(ops, rt, false)
    else match FuseRule(ops, targets, i)
      case None => FuseFrom(ops, targets, rt, i + 1)
      case Some(p) =>
        var rt' := if TrampolineRule(ops, i).Some? then rt + [(i + 1, i)] else rt;
        FuseFrom(Rewritten(ops, i, p.1, p.0), targets, rt', i + p.1).(changed := true)
  }

  predicate TargetedBy(ops: seq<OpCode>, n: nat, t: nat)
    requires n <= |ops|
  {
    exists j | 0 <= j < n :: Targets(ops[j], t)
  }

  /** Which indices some instruction targets. */
  function CollectTargets(ops: seq<OpCode>): (r: seq<bool>)
    ensures |r| == |ops| + 1
  {
    seq(|ops| + 1, t requires 0 <= t <= |ops| => TargetedBy(ops, |ops|, t))
  }

  function FusePairs(ops: seq<OpCode>): (seq<OpCode>, bool) {
    if |ops| < 2 then (ops, false)
    else
      var r := FuseFrom(ops, CollectTargets(ops), [], 0);
      (if r.rt == [] then r.ops else MapAll(r.ops, Table(r.rt, |ops|)), r.changed)
  }

  function Round(ops: seq<OpCode>): (seq<OpCode>, bool) {
    var a := PeepholePass(ops);
    var b := FusePairs(a.0);
    (Strip(b.0), a.1 || b.1)
  }

  function Rounds(ops: seq<OpCode>, n: nat): seq<OpCode>
    decreases n
  {
    if n == 0 then ops
    else
      var r := Round(ops);
      if r.1 then Rounds(r.0, n - 1) else r.0
  }

  /** The whole pipeline: at most eight rounds. */
  function Peephole(ops: seq<OpCode>): seq<OpCode> { Rounds(ops, 8) }
}

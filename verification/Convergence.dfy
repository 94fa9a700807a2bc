/** Without its cap of eight rounds the optimiser would still stop: a round
    that reports a change leaves fewer instructions, or as many and fewer
    integer pushes. */
module Convergence {
  import opened Options
  import opened Opcodes
  import opened Rewriting
  import opened Stripping
  import opened Windows
  import opened Trampolines
  import opened Passes

  function Live(ops: seq<OpCode>): nat { Kept(ops, |ops|) }

  function IntsIn(ops: seq<OpCode>, n: nat): (k: nat)
    requires n <= |ops|
    ensures k <= n
  {
    if n == 0 then 0 else IntsIn(ops, n - 1) + (if ops[n - 1].Push? && ops[n - 1].lit.Int? then 1 else 0)
  }

  function Ints(ops: seq<OpCode>): nat { IntsIn(ops, |ops|) }

  predicate Less(a: (nat, nat), b: (nat, nat)) { a.0 < b.0 || (a.0 == b.0 && a.1 < b.1) }

  function Measure(ops: seq<OpCode>): (nat, nat) { (Live(ops), Ints(ops)) }

  // ── one rewrite ──

  lemma {:induction false} KeptAgrees(a: seq<OpCode>, b: seq<OpCode>, n: nat)
    requires n <= |a| && n <= |b| && forall k | 0 <= k < n :: a[k].Nop? == b[k].Nop?
    ensures Kept(a, n) == Kept(b, n)
  {
    if n > 0 { KeptAgrees(a, b, n - 1); }
  }

  lemma {:induction false} KeptSplit(a: seq<OpCode>, b: seq<OpCode>, m: nat, n: nat)
    requires m <= n <= |a| && n <= |b| && forall k | m <= k < n :: a[k].Nop? == b[k].Nop?
    ensures Kept(a, n) - Kept(a, m) == Kept(b, n) - Kept(b, m)
  {
    if m < n { KeptSplit(a, b, m, n - 1); }
  }

  lemma {:induction false} NopsKeepNothing(ops: seq<OpCode>, m: nat, n: nat)
    requires m <= n <= |ops| && forall k | m <= k < n :: ops[k].Nop?
    ensures Kept(ops, n) == Kept(ops, m)
  {
    if m < n { NopsKeepNothing(ops, m, n - 1); }
  }

  lemma KeptOne(ops: seq<OpCode>, i: nat)
    requires i < |ops|
    ensures Kept(ops, i + 1) == Kept(ops, i) + (if ops[i].Nop? then 0 else 1)
  {
  }

  /** Replacing two or more instructions by one leaves fewer. */
  lemma RewriteShrinks(ops: seq<OpCode>, i: nat, w: nat, v: OpCode)
    requires 2 <= w && i + w <= |ops| && !ops[i].Nop? && !ops[i + w - 1].Nop?
    ensures Live(Rewritten(ops, i, w, v)) < Live(ops)
  {
    hide Kept;
    var out := Rewritten(ops, i, w, v);
    KeptOne(ops, i);
    KeptOne(ops, i + w - 1);
    KeptOne(out, i);
    KeptAgrees(ops, out, i);
    NopsKeepNothing(out, i + 1, i + w);
    KeptGrows(ops, i + 1, i + w - 1);
    KeptSplit(ops, out, i + w, |ops|);
  }

  /** Turning an integer push into a boolean one keeps the size. */
  lemma LiteralShrinks(ops: seq<OpCode>, i: nat, v: OpCode)
    requires i < |ops| && ops[i].Push? && ops[i].lit.Int? && v.Push? && !v.lit.Int?
    ensures Less(Measure(Rewritten(ops, i, 1, v)), Measure(ops))
  {
    var out := Rewritten(ops, i, 1, v);
    KeptAgrees(ops, out, |ops|);
    IntsAgree(ops, out, 0, i);
    IntsAgree(ops, out, i + 1, |ops|);
  }

  lemma {:induction false} IntsAgree(a: seq<OpCode>, b: seq<OpCode>, m: nat, n: nat)
    requires m <= n <= |a| && n <= |b| && forall k | m <= k < n :: a[k] == b[k]
    ensures IntsIn(a, n) - IntsIn(a, m) == IntsIn(b, n) - IntsIn(b, m)
  {
    if m < n { IntsAgree(a, b, m, n - 1); }
  }

  // ── the scans ──

  lemma {:induction false} SlotsShrink(ops: seq<OpCode>, i: nat)
    ensures Slots(ops, i).1 ==> Live(Slots(ops, i).0) < Live(ops)
    ensures !Slots(ops, i).1 ==> Slots(ops, i).0 == ops
    decreases |ops| - i
  {
    hide SlotRule;
    if i + 2 < |ops| {
      match SlotRule(ops[i], ops[i + 1], ops[i + 2])
      case Some(v) =>
        TripleSolid(ops[i], ops[i + 1], ops[i + 2]);
        RewriteShrinks(ops, i, 3, v);
        SlotsShrink(Rewritten(ops, i, 3, v), i + 3);
      case None => SlotsShrink(ops, i + 1);
    }
  }

  lemma TripleSolid(a: OpCode, b: OpCode, e: OpCode)
    requires SlotRule(a, b, e).Some? || FoldRule(a, b, e).Some? || FuseTriple(a, b, e).Some?
    ensures !a.Nop? && !b.Nop? && !e.Nop?
  {
  }

  lemma {:induction false} FoldsShrink(ops: seq<OpCode>, i: nat)
    ensures Folds(ops, i).1 ==> Live(Folds(ops, i).0) < Live(ops)
    ensures !Folds(ops, i).1 ==> Folds(ops, i).0 == ops
    decreases |ops| - i, if i + 1 < |ops| && ops[i + 1].Nop? then 0 else 1
  {
    hide FoldRule;
    if i + 2 < |ops| {
      match FoldRule(ops[i], ops[i + 1], ops[i + 2])
      case Some(v) =>
        TripleSolid(ops[i], ops[i + 1], ops[i + 2]);
        RewriteShrinks(ops, i, 3, v);
        FoldsShrink(Rewritten(ops, i, 3, v), i);
      case None => FoldsShrink(ops, i + 1);
    }
  }

  lemma PairRuleSolid(a: OpCode, b: OpCode)
    requires PairRule(a, b).Some?
    ensures var p := PairRule(a, b).value;
      || (p.1 == 2 && !a.Nop? && !b.Nop?)
      || (p.1 == 1 && a.Push? && a.lit.Int? && p.0.Push? && !p.0.lit.Int?)
  {
  }

  lemma {:induction false} PairsShrink(ops: seq<OpCode>, i: nat)
    ensures Pairs(ops, i).1 ==> Less(Measure(Pairs(ops, i).0), Measure(ops))
    ensures !Pairs(ops, i).1 ==> Pairs(ops, i).0 == ops
    decreases |ops| - i
  {
    hide PairRule, Live, Ints;
    if i + 1 < |ops| {
      match PairRule(ops[i], ops[i + 1])
      case Some(p) =>
        PairRuleSolid(ops[i], ops[i + 1]);
        if p.1 == 2 { RewriteShrinks(ops, i, 2, p.0); } else { LiteralShrinks(ops, i, p.0); }
        PairsShrink(Rewritten(ops, i, p.1, p.0), i + p.1);
      case None => PairsShrink(ops, i + 1);
    }
  }

  lemma FuseRuleSolid(ops: seq<OpCode>, targets: seq<bool>, i: nat)
    requires i + 1 < |ops| && FuseRule(ops, targets, i).Some?
    ensures var w := FuseRule(ops, targets, i).value.1; !ops[i].Nop? && !ops[i + w - 1].Nop?
  {
    hide FuseTriple;
    if i + 2 < |ops| && FuseTriple(ops[i], ops[i + 1], ops[i + 2]).Some? { TripleSolid(ops[i], ops[i + 1], ops[i + 2]);
        }
  }

  lemma {:induction false} FuseShrinks(ops: seq<OpCode>, targets: seq<bool>, rt: seq<(nat, nat)>, i: nat)
    ensures var r := FuseFrom(ops, targets, rt, i);
            if r.changed then Live(r.ops) < Live(ops) else r.ops == ops && r.rt == rt
    decreases |ops| - i
  {
    hide FuseRule, TrampolineRule, Live;
    if i + 1 < |ops| {
      match FuseRule(ops, targets, i)
      case None => FuseShrinks(ops, targets, rt, i + 1);
      case Some(p) =>
        FuseRuleSolid(ops, targets, i);
        RewriteShrinks(ops, i, p.1, p.0);
        FuseShrinks(Rewritten(ops, i, p.1, p.0), targets,
                    if TrampolineRule(ops, i).Some? then rt + [(i + 1, i)] else rt, i + p.1);
    }
  }

  // ── a round ──

  lemma MapAllLive(ops: seq<OpCode>, f: seq<nat>)
    ensures Live(MapAll(ops, f)) == Live(ops)
  {
    forall k | 0 <= k < |ops| ensures MapAll(ops, f)[k].Nop? == ops[k].Nop? { MapKeepsRole(ops[k], f); }
    KeptAgrees(ops, MapAll(ops, f), |ops|);
  }

  lemma {:induction false} SqueezeInts(ops: seq<OpCode>, n: nat, f: seq<nat>)
    requires n <= |ops|
    ensures Ints(Squeeze(ops, n, f)) == IntsIn(ops, n)
  {
    if n > 0 {
      SqueezeInts(ops, n - 1, f);
      var a := Squeeze(ops, n - 1, f);
      if ops[n - 1].Nop? {
        assert a + [] == a;
      } else {
        var x := MapOp(ops[n - 1], f);
        assert (a + [x])[|a|] == x;
        IntsAgree(a, a + [x], 0, |a|);
      }
    }
  }

  lemma AllLive(ops: seq<OpCode>, n: nat)
    requires n <= |ops| && forall k | 0 <= k < n :: !ops[k].Nop?
    ensures Kept(ops, n) == n
  {
    if n > 0 { AllLive(ops, n - 1); }
  }

  lemma StripMeasure(ops: seq<OpCode>)
    ensures Measure(Strip(ops)) == Measure(ops)
  {
    SqueezeInts(ops, |ops|, Forward(ops));
    StripLeavesNoNop(ops);
    AllLive(Strip(ops), |Strip(ops)|);
  }

  lemma AfterSlotsShrinks(ops: seq<OpCode>)
    ensures AfterSlots(ops) == ops || Less(Measure(AfterSlots(ops)), Measure(ops))
  {
    hide Slots, Strip, Live, Ints;
    SlotsShrink(ops, 0);
    StripMeasure(Slots(ops, 0).0);
  }

  lemma PassShrinks(ops: seq<OpCode>)
    ensures PeepholePass(ops).1 ==> Less(Measure(PeepholePass(ops).0), Measure(ops))
    ensures PeepholePass(ops).0 == ops || Less(Measure(PeepholePass(ops).0), Measure(ops))
  {
    hide AfterSlots, Folds, Pairs, Live, Ints;
    AfterSlotsShrinks(ops);
    var a := AfterSlots(ops);
    FoldsShrink(a, 0);
    PairsShrink(Folds(a, 0).0, 0);
  }

  lemma FusePairsShrinks(ops: seq<OpCode>)
    ensures FusePairs(ops).1 ==> Live(FusePairs(ops).0) < Live(ops)
    ensures !FusePairs(ops).1 ==> FusePairs(ops).0 == ops
  {
    hide FuseFrom, CollectTargets, Live;
    if |ops| >= 2 {
      FuseShrinks(ops, CollectTargets(ops), [], 0);
      var r := FuseFrom(ops, CollectTargets(ops), [], 0);
      MapAllLive(r.ops, Table(r.rt, |ops|));
    }
  }

  /** A round that reports a change strictly decreases the measure; one that
      reports none changes nothing but slot windows and no-ops. */
  lemma RoundShrinks(ops: seq<OpCode>)
    ensures Round(ops).1 ==> Less(Measure(Round(ops).0), Measure(ops))
    ensures !Round(ops).1 && PeepholePass(ops).0 == ops ==> Round(ops).0 == Strip(ops)
  {
    hide PeepholePass, FusePairs, Live, Ints, Strip;
    PassShrinks(ops);
    var a := PeepholePass(ops).0;
    FusePairsShrinks(a);
    StripMeasure(FusePairs(a).0);
  }

  /** The rounds without a cap. */
  function Converge(ops: seq<OpCode>): seq<OpCode>
    decreases Live(ops), Ints(ops)
  {
    RoundShrinks(ops);
    var r := Round(ops);
    if r.1 then Converge(r.0) else r.0
  }

  /** Any sufficient number of rounds gives the same unit. */
  lemma {:induction false} ConvergeIsEnoughRounds(ops: seq<OpCode>) returns (n: nat)
    ensures forall m: nat | m >= n :: Rounds(ops, m) == Converge(ops)
    decreases Live(ops), Ints(ops)
  {
    hide Round, Live, Ints;
    RoundShrinks(ops);
    if Round(ops).1 {
      var k := ConvergeIsEnoughRounds(Round(ops).0);
      n := k + 1;
    } else {
      n := 1;
    }
  }
}

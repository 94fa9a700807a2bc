/** What the optimiser leaves alone. */
module Idle {
  import opened Options
  import opened Opcodes
  import opened Discipline
  import opened Rewriting
  import opened Stripping
  import opened Windows
  import opened Trampolines
  import opened Passes

  // ── the first pass ──

  /** Nothing for the first pass to rewrite at `k`. */
  predicate Dull(ops: seq<OpCode>, k: int) {
    0 <= k < |ops| ==> !ops[k].Bin? && (k + 1 < |ops| ==> PairRule(ops[k], ops[k + 1]).None?)
  }

  lemma {:induction false} NoBinSlots(ops: seq<OpCode>, i: nat)
    requires forall k | 0 <= k < |ops| :: !ops[k].Bin?
    ensures Slots(ops, i) == (ops, false)
    decreases |ops| - i
  {
    if i + 2 < |ops| {
      assert !ops[i + 2].Bin?;
      NoBinSlots(ops, i + 1);
    }
  }

  lemma {:induction false} NoBinFolds(ops: seq<OpCode>, i: nat)
    requires forall k | 0 <= k < |ops| :: !ops[k].Bin?
    ensures Folds(ops, i) == (ops, false)
    decreases |ops| - i
  {
    if i + 2 < |ops| {
      assert !ops[i + 2].Bin?;
      NoBinFolds(ops, i + 1);
    }
  }

  lemma {:induction false} DullPairs(ops: seq<OpCode>, i: nat, j: nat)
    requires i <= j && forall k | i <= k < j :: Dull(ops, k)
    ensures Pairs(ops, i) == Pairs(ops, j)
    decreases j - i
  {
    hide PairRule;
    if i < j {
      assert Dull(ops, i);
      DullPairs(ops, i + 1, j);
    }
  }

  lemma DullPass(ops: seq<OpCode>)
    requires forall k | 0 <= k < |ops| :: Dull(ops, k)
    ensures PeepholePass(ops) == (ops, false)
  {
    hide Slots, Folds, Pairs, PairRule;
    forall k | 0 <= k < |ops| ensures !ops[k].Bin? { assert Dull(ops, k); }
    NoBinSlots(ops, 0);
    NoBinFolds(ops, 0);
    DullPairs(ops, 0, |ops|);
    PairsEnd(ops, |ops|);
  }

  lemma PairsEnd(ops: seq<OpCode>, i: nat)
    requires i + 1 >= |ops|
    ensures Pairs(ops, i) == (ops, false)
  {
  }

  /** A pair of negations, and nothing else for the first pass to do. */
  lemma NotsDropped(ops: seq<OpCode>, i: nat)
    requires i + 1 < |ops| && ops[i] == Un(Not) && ops[i + 1] == Un(Not) && forall k | 0 <= k < |ops| :: !ops[k].Bin?
    requires (forall k | 0 <= k < i :: Dull(ops, k)) && forall k | i + 2 <= k < |ops| :: Dull(ops, k)
    ensures PeepholePass(ops) == (Rewritten(ops, i, 2, Nop), true)
  {
    hide Slots, Folds, Pairs, Rewritten;
    NoBinSlots(ops, 0);
    NoBinFolds(ops, 0);
    DullPairs(ops, 0, i);
    var cut := Rewritten(ops, i, 2, Nop);
    assert Pairs(ops, i) == (Pairs(cut, i + 2).0, true) by { PairFires(ops, i); }
    RewrittenElse(ops, i, Nop);
    forall k | i + 2 <= k < |cut| ensures Dull(cut, k) { assert Dull(ops, k); }
    DullPairs(cut, i + 2, |cut|);
    PairsEnd(cut, |cut|);
  }

  lemma PairFires(ops: seq<OpCode>, i: nat)
    requires i + 1 < |ops| && ops[i] == Un(Not) && ops[i + 1] == Un(Not)
    ensures Pairs(ops, i) == (Pairs(Rewritten(ops, i, 2, Nop), i + 2).0, true)
  {
    hide Rewritten;
  }

  lemma RewrittenElse(ops: seq<OpCode>, i: nat, v: OpCode)
    ensures |Rewritten(ops, i, 2, v)| == |ops|
    ensures forall k | 0 <= k < |ops| && k != i && k != i + 1 :: Rewritten(ops, i, 2, v)[k] == ops[k]
  {
  }

  // ── the fusion scan ──

  /** Two neighbours that begin no window. */
  predicate Unpaired(a: OpCode, b: OpCode) {
    && FusePair(a, b).None? && (a.Load? ==> !b.Load? && !b.Push? && !b.Lappend?) && (a.Push? ==> !b.Load?)
    && (a.Super? ==> (a.f.SwapToNextMark? || a.f.ForeachNextClose?) && !b.Super?)
  }

  /** Begins no window, whatever follows. */
  predicate Lone(op: OpCode) {
    op.Pop? || op.Jump? || op.JumpIf? || op.Loop? || op.EvalExpr? || op.Call? || op.Exit? || op.Nop?
        || op == Mark(BodyMark)
  }

  lemma LoneUnpaired(a: OpCode, b: OpCode)
    requires Lone(a)
    ensures Unpaired(a, b)
  {
  }

  lemma UnpairedNone(ops: seq<OpCode>, targets: seq<bool>, i: nat)
    requires i + 1 < |ops| && Unpaired(ops[i], ops[i + 1]) && ops[i] != Jump(i + 1)
    ensures FuseRule(ops, targets, i).None?
  {
    hide FusePair;
  }

  predicate UnpairedAt(ops: seq<OpCode>, k: int) {
    0 <= k && k + 1 < |ops| ==> Unpaired(ops[k], ops[k + 1]) && (ops[k].Jump? ==> ops[k].t != k + 1)
  }

  lemma LoneAt(ops: seq<OpCode>, k: nat)
    requires Lone(OpAt(ops, k)) && OpAt(ops, k) != Jump(k + 1)
    ensures UnpairedAt(ops, k)
  {
    hide Unpaired, Lone;
    if k + 1 < |ops| { LoneUnpaired(ops[k], ops[k + 1]); }
  }

  lemma {:induction false} FuseSkips(ops: seq<OpCode>, targets: seq<bool>, rt: seq<(nat, nat)>, i: nat, j: nat)
    requires i <= j && forall k | i <= k < j :: UnpairedAt(ops, k)
    ensures FuseFrom(ops, targets, rt, i) == FuseFrom(ops, targets, rt, j)
    decreases j - i
  {
    hide FuseRule, Unpaired;
    if i < j {
      assert UnpairedAt(ops, i);
      if i + 1 < |ops| { UnpairedNone(ops, targets, i); }
      FuseSkips(ops, targets, rt, i + 1, j);
    }
  }

  lemma FuseFires(ops: seq<OpCode>, targets: seq<bool>, rt: seq<(nat, nat)>, i: nat, v: OpCode, moved: seq<(nat, nat)>)
    requires TrampolineRule(ops, i) == Some(v) && moved == rt + [(i + 1, i)]
    ensures FuseFrom(ops, targets, rt, i) == FuseFrom(Rewritten(ops, i, 2, v), targets, moved, i + 2).(changed := true)
  {
  }

  lemma FuseDrops(ops: seq<OpCode>, targets: seq<bool>, rt: seq<(nat, nat)>, i: nat)
    requires OpAt(ops, i).Push? && OpAt(ops, i + 1) == Pop && i + 1 < |targets| && !targets[i + 1]
    ensures FuseFrom(ops, targets, rt, i) == FuseFrom(Rewritten(ops, i, 2, Nop), targets, rt, i + 2).(changed := true)
  {
    assert FuseRule(ops, targets, i) == Some((Nop, 2));
  }

  lemma FuseEnds(ops: seq<OpCode>, targets: seq<bool>, rt: seq<(nat, nat)>, i: nat)
    requires i + 1 >= |ops|
    ensures FuseFrom(ops, targets, rt, i) == Fusion(ops, rt, false)
  {
  }

  // ── compaction ──

  lemma {:induction false} KeptAll(ops: seq<OpCode>, k: nat)
    requires k <= |ops| && forall j | 0 <= j < k :: !ops[j].Nop?
    ensures Kept(ops, k) == k
  {
    if k > 0 { KeptAll(ops, k - 1); }
  }

  lemma {:induction false} KeptFrom(ops: seq<OpCode>, i: nat, k: nat)
    requires i <= k <= |ops| && forall j | i <= j < k :: !ops[j].Nop?
    ensures Kept(ops, k) == Kept(ops, i) + (k - i)
    decreases k
  {
    if k > i { KeptFrom(ops, i, k - 1); }
  }

  lemma {:induction false} WholeKept(ops: seq<OpCode>, n: nat, f: seq<nat>)
    requires n <= |ops| && (forall k | 0 <= k < |ops| :: !ops[k].Nop?) && InRange(ops) && f == Forward(ops)
    ensures Squeeze(ops, n, f) == ops[..n]
    decreases n
  {
    hide MapOp;
    if n > 0 {
      WholeKept(ops, n - 1, f);
      forall t: nat | Targets(ops[n - 1], t) ensures At(f, t) == t { KeptAll(ops, t); }
      UnmovedOp(ops[n - 1], f);
      assert ops[..n] == ops[..n - 1] + [ops[n - 1]];
    }
  }

  /** Two no-ops at `i`, and no others. */
  predicate NopsAt(ops: seq<OpCode>, i: nat) {
    i + 1 < |ops| && forall k | 0 <= k < |ops| :: ops[k].Nop? <==> k == i || k == i + 1
  }

  lemma PairKept(ops: seq<OpCode>, i: nat, k: nat)
    requires NopsAt(ops, i) && k <= |ops|
    ensures Kept(ops, k) == if k <= i then k else if k == i + 1 then i else k - 2
  {
    if k <= i { KeptAll(ops, k); }
    else {
      KeptAll(ops, i);
      if k >= i + 2 { KeptFrom(ops, i + 2, k); }
    }
  }

  lemma {:induction false} PairSqueezed(ops: seq<OpCode>, i: nat, n: nat, f: seq<nat>)
    requires NopsAt(ops, i) && n <= |ops|
    ensures Squeeze(ops, n, f) == MapAll(ops[..if n <= i then n else i] + ops[if n <= i + 2 then n else i + 2..n], f)
    decreases n
  {
    hide MapOp;
    if n > 0 { PairSqueezed(ops, i, n - 1, f); }
  }

  lemma PairStripped(ops: seq<OpCode>, i: nat)
    requires NopsAt(ops, i)
    ensures Strip(ops) == MapAll(ops[..i] + ops[i + 2..], Forward(ops))
  {
    hide MapAll;
    PairSqueezed(ops, i, |ops|, Forward(ops));
    assert ops[i + 2..|ops|] == ops[i + 2..];
  }

  ghost predicate Straight(ops: seq<OpCode>) { forall k, t: nat | 0 <= k < |ops| :: !Targets(ops[k], t) }

  lemma StraightStays(ops: seq<OpCode>, f: seq<nat>)
    requires Straight(ops)
    ensures MapAll(ops, f) == ops
  {
    hide MapOp;
    forall k | 0 <= k < |ops| ensures MapOp(ops[k], f) == ops[k] { UnmovedOp(ops[k], f); }
  }

  // ── rounds ──

  ghost predicate AtRest(ops: seq<OpCode>) {
    (forall k | 0 <= k < |ops| :: Dull(ops, k) && !ops[k].Nop? && UnpairedAt(ops, k)) && InRange(ops)
  }

  lemma NothingFused(ops: seq<OpCode>)
    requires forall k | 0 <= k < |ops| :: UnpairedAt(ops, k)
    ensures FusePairs(ops) == (ops, false)
  {
    hide FuseFrom, CollectTargets, UnpairedAt;
    FuseSkips(ops, CollectTargets(ops), [], 0, |ops|);
    FuseEnds(ops, CollectTargets(ops), [], |ops|);
  }

  /** A round that only drops a pair of negations. */
  lemma NotsRound(ops: seq<OpCode>, i: nat, cut: seq<OpCode>)
    requires i + 1 < |ops| && ops[i] == Un(Not) && ops[i + 1] == Un(Not) && forall k | 0 <= k < |ops| :: !ops[k].Bin?
    requires (forall k | 0 <= k < i :: Dull(ops, k)) && forall k | i + 2 <= k < |ops| :: Dull(ops, k)
    requires cut == Rewritten(ops, i, 2, Nop) && forall k | 0 <= k < |cut| :: UnpairedAt(cut, k)
    ensures Round(ops) == (Strip(cut), true)
  {
    hide PeepholePass, FusePairs, Rewritten, Strip;
    NotsDropped(ops, i);
    NothingFused(cut);
  }

  /** A round that only drops a constant nobody wants. */
  lemma DropRound(ops: seq<OpCode>, i: nat, cut: seq<OpCode>)
    requires (forall k | 0 <= k < |ops| :: Dull(ops, k)) && (forall k | 0 <= k < i :: UnpairedAt(ops, k))
    requires OpAt(ops, i).Push? && OpAt(ops, i + 1) == Pop && i + 1 < |ops| && !TargetedBy(ops, |ops|, i + 1)
    requires cut == Rewritten(ops, i, 2, Nop) && forall k | i + 2 <= k < |cut| :: UnpairedAt(cut, k)
    ensures Round(ops) == (Strip(cut), true)
  {
    hide PeepholePass, FuseFrom, Rewritten, Strip, TargetedBy, UnpairedAt, Dull;
    var targets := CollectTargets(ops);
    DullPass(ops);
    FuseSkips(ops, targets, [], 0, i);
    FuseDrops(ops, targets, [], i);
    RewrittenElse(ops, i, Nop);
    FuseSkips(cut, targets, [], i + 2, |cut|);
    FuseEnds(cut, targets, [], |cut|);
  }

  lemma RestingRound(ops: seq<OpCode>)
    requires AtRest(ops)
    ensures Round(ops) == (ops, false)
  {
    hide PeepholePass, FusePairs, Dull, UnpairedAt, Squeeze, Forward;
    DullPass(ops);
    NothingFused(ops);
    WholeKept(ops, |ops|, Forward(ops));
    assert ops[..|ops|] == ops;
  }
}

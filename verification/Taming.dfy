/** The optimiser's rewritings keep runs tame. */
module Taming {
  import opened Options
  import opened Opcodes
  import opened Machine
  import opened Simulation
  import opened Discipline
  import opened Rewriting
  import opened Stripping
  import opened Windows
  import opened Trampolines
  import opened Levels

  // ── windows ──

  /** The replacement is no stricter about regions than the window's head. */
  predicate Milder(first: OpCode, v: OpCode) {
    Inert(first) && Inert(v) && (Closing(v) ==> Closing(first)) && (Nexting(v) ==> Nexting(first))
        && (Swaps(v) ==> Swaps(first))
  }

  /** Neither a jump nor the end or the advance of a loop. */
  predicate Inert(op: OpCode) { !Leaving(op) && !op.Jump? && !Advancing(op) }

  /** An erased window ends in something that can be erased. */
  predicate Quits(ops: seq<OpCode>, i: nat, w: int, v: OpCode) {
    && 1 <= w && i + w <= |ops|
    && Milder(ops[i], v) && !ops[i].Nop? && !StartsPass(v) && (v.Nop? ==> !Barrier(ops[i + w - 1]))
        && !ops[i + w - 1].Nop?
    && (Barrier(ops[i + w - 1]) ==> Barrier(v))
  }

  /** Passes start where they started before. */
  lemma {:induction false} StartsRewritten(ops: seq<OpCode>, i: nat, w: nat, v: OpCode, t: nat)
    requires 1 <= w && i + w <= |ops| && Free(t, i, w) && Quits(ops, i, w, v) && Fenced(ops)
    ensures StartsPass(Lands(Rewritten(ops, i, w, v), t)) ==> StartsPass(Lands(ops, t))
    decreases |ops| - t
  {
    hide Quits, Milder, Barrier;
    var out := Rewritten(ops, i, w, v);
    QuitsParts(ops, i, w, v);
    if t == i {
      if v.Nop? { ErasedLands(ops, i, w, v, i + 1); }
    } else if t < |ops| {
      if ops[t].Nop? { StartsRewritten(ops, i, w, v, t + 1); }
    }
  }

  lemma QuitsParts(ops: seq<OpCode>, i: nat, w: nat, v: OpCode)
    requires 1 <= w && i + w <= |ops| && Quits(ops, i, w, v)
    ensures !StartsPass(v) && !OpAt(ops, i).Nop? && (v.Nop? ==> !Barrier(OpAt(ops, i + w - 1)))
        && !OpAt(ops, i + w - 1).Nop?
    ensures Milder(OpAt(ops, i), v) && (Barrier(OpAt(ops, i + w - 1)) ==> Barrier(v))
  {
  }

  /** No pass starts behind an erased window. */
  lemma {:induction false} ErasedLands(ops: seq<OpCode>, i: nat, w: nat, v: OpCode, t: nat)
    requires 1 <= w && i + w <= |ops| && i < t && v.Nop? && Fenced(ops) && !Barrier(OpAt(ops, i + w - 1))
        && !OpAt(ops, i + w - 1).Nop?
    requires forall k | i + w <= k < t :: k < |ops| && ops[k].Nop?
    ensures !StartsPass(Lands(Rewritten(ops, i, w, v), t))
    decreases |ops| - t
  {
    hide Barrier;
    var out := Rewritten(ops, i, w, v);
    if t < i + w {
      assert out[t] == Nop;
      ErasedLands(ops, i, w, v, t + 1);
    } else if t < |ops| {
      if ops[t].Nop? { ErasedLands(ops, i, w, v, t + 1); } else { BeforeErased(ops, i + w, t); }
    }
  }

  lemma {:induction false} BeforeErased(ops: seq<OpCode>, j: nat, t: nat)
    requires 0 < j <= t < |ops| && !ops[j - 1].Nop? && forall k | j <= k < t :: ops[k].Nop?
    ensures Before(ops, t) == OpAt(ops, j - 1)
    decreases t
  {
    if t > j { BeforeErased(ops, j, t - 1); }
  }

  lemma FencedRewritten(ops: seq<OpCode>, i: nat, w: nat, v: OpCode)
    requires 1 <= w && i + w <= |ops| && Quits(ops, i, w, v) && Fenced(ops)
    ensures Fenced(Rewritten(ops, i, w, v))
  {
    hide Quits, Milder, Barrier;
    QuitsParts(ops, i, w, v);
    var out := Rewritten(ops, i, w, v);
    forall pc | 0 <= pc < |out| && StartsPass(out[pc]) ensures Barrier(Before(out, pc)) {
      assert pc != i && !(i < pc < i + w) && ops[pc] == out[pc];
      BeforeRewritten(ops, i, w, v, pc);
    }
  }

  /** The head of a window is no end of a loop, so loops keep theirs. */
  lemma LevelRewritten(ops: seq<OpCode>, i: nat, w: nat, v: OpCode, loops: List<LoopFrame>)
    requires 1 <= w && i + w <= |ops| && Milder(OpAt(ops, i), v) && LoopsFree(loops, i, w) && loops.Cons?
        && Leaving(OpAt(ops, loops.head.brk))
    ensures OpAt(Rewritten(ops, i, w, v), loops.head.brk) == OpAt(ops, loops.head.brk)
  {
  }

  lemma AdjacentRewritten(ops: seq<OpCode>, i: nat, w: nat, v: OpCode, pc: nat)
    requires 1 <= w && i + w <= |ops| && Milder(OpAt(ops, i), v) && !OpAt(ops, i).Nop? && NoTargetInside(ops, i, w)
        && Adjacent(ops, pc) && Free(pc, i, w)
    ensures Adjacent(Rewritten(ops, i, w, v), pc)
  {
    hide Nexting, Closing, Swaps;
    var q: nat :| AdjacentTo(ops, pc, q);
    var t := ops[pc].t;
    assert pc != i && q != i && !(pc < i < q);
    assert i + w <= pc || q < i by { if pc < i { assert q < i; } }
    assert AdjacentTo(Rewritten(ops, i, w, v), pc, q);
  }

  lemma WindowTame(ops: seq<OpCode>, i: nat, w: nat, v: OpCode, pc: nat, d: State)
    requires 1 <= w && i + w <= |ops| && Quits(ops, i, w, v) && NoTargetInside(ops, i, w) && Fenced(ops)
    requires Free(pc, i, w) && LoopsFree(d.loops, i, w) && TameAt(ops, pc, d)
    ensures TameAt(Rewritten(ops, i, w, v), pc, d)
  {
    hide Quits, Barrier, NoNext, Nexting, Closing, Swaps, Adjacent, Fenced, StartsPass, NoTargetInside;
    QuitsParts(ops, i, w, v);
    var out, op := Rewritten(ops, i, w, v), OpAt(ops, pc);
    if d.loops.Cons? { LevelRewritten(ops, i, w, v, d.loops); }
    if pc != i {
      assert OpAt(out, pc) == op;
      if Adjacent(ops, pc) { AdjacentRewritten(ops, i, w, v, pc); }
      if op.Jump? {
        assert Free(op.t, i, w) by { TargetFree(ops, i, w, pc); }
        StartsRewritten(ops, i, w, v, op.t);
      }
    } else {
      assert !Adjacent(ops, i) by { HeadNotAdjacent(ops, i); }
      NextNotAdvance(v);
    }
  }

  lemma TargetFree(ops: seq<OpCode>, i: nat, w: nat, pc: nat)
    requires NoTargetInside(ops, i, w) && OpAt(ops, pc).Jump?
    ensures Free(OpAt(ops, pc).t, i, w)
  {
    assert Targets(ops[pc], ops[pc].t);
  }

  lemma HeadNotAdjacent(ops: seq<OpCode>, i: nat)
    requires i < |ops| && !OpAt(ops, i).Jump?
    ensures !Adjacent(ops, i)
  {
  }

  lemma NextNotAdvance(v: OpCode)
    ensures IsNext(v) ==> Advancing(v)
  {
  }

  /** What is left of a window is no-ops. */
  lemma NopTame(ops: seq<OpCode>, pc: nat, q: nat, d: State)
    requires OpAt(ops, pc) == Nop && TameAt(ops, q, d)
    ensures TameAt(ops, pc, d)
  {
    hide NoNext, Adjacent;
  }

  lemma RewriteKeepsTame(h: Host, u: Code, s: Run, i: nat, w: nat, v: OpCode)
    requires Window(u, i, w) && SameEffect(h, u, s, i, w, v) && Fresh(s) && Quits(u.ops, i, w, v)
    requires Tame(h, u, s)
    ensures Tame(h, Replace(u, i, w, v), s)
  {
    hide Reaches, SameEffect, Quits, TameAt, Fenced;
    var out := Replace(u, i, w, v);
    FencedRewritten(u.ops, i, w, v);
    forall pc: nat, d | Reaches(h, out, s, Running(pc, d)) ensures TameAt(out.ops, pc, d) {
      var s' := RewriteCame(h, u, s, i, w, v, Running(pc, d));
      WindowTame(u.ops, i, w, v, s'.pc, d);
      if pc != s'.pc { NopTame(out.ops, pc, s'.pc, d); }
    }
  }

  // ── compaction ──

  lemma FencedStripped(ops: seq<OpCode>)
    requires Fenced(ops)
    ensures Fenced(Strip(ops))
  {
    hide Barrier, MapOp;
    forall pc | 0 <= pc < |Strip(ops)| && StartsPass(Strip(ops)[pc]) ensures Barrier(Before(Strip(ops), pc)) {
      var q := SqueezeFrom(ops, |ops|, Forward(ops), pc);
      MapKeepsKind(ops[q], Forward(ops));
      BeforeStripped(ops, q);
      MapKeepsRole(Before(ops, q), Forward(ops));
    }
  }

  lemma MapKeepsKind(op: OpCode, f: seq<nat>)
    ensures var m := MapOp(op, f);
      && StartsPass(m) == StartsPass(op) && Closing(m) == Closing(op) && Leaving(m) == Leaving(op)
          && Advancing(m) == Advancing(op)
      && Nexting(m) == Nexting(op) && Swaps(m) == Swaps(op) && IsNext(m) == IsNext(op) && m.Nop? == op.Nop?
      && (Leaving(op) ==> m == op) && m.Jump? == op.Jump? && (op.Jump? ==> m.t == At(f, op.t))
  {
  }

  lemma StrippedOp(ops: seq<OpCode>, q: nat)
    requires q < |ops| && !OpAt(ops, q).Nop?
    ensures OpAt(Strip(ops), Kept(ops, q)) == MapOp(OpAt(ops, q), Forward(ops))
  {
    hide MapOp;
    SqueezeAt(ops, |ops|, Forward(ops), q);
  }

  lemma AdjacentStripped(ops: seq<OpCode>, pc: nat)
    requires Adjacent(ops, pc)
    ensures Adjacent(Strip(ops), Kept(ops, pc))
  {
    hide MapOp, Strip;
    var q: nat :| AdjacentTo(ops, pc, q);
    var f := Forward(ops);
    StrippedOp(ops, pc);
    StrippedOp(ops, q);
    MapKeepsKind(ops[pc], f);
    MapKeepsKind(ops[q], f);
    KeptOver(ops, pc + 1, q);
    KeptGrows(ops, pc + 1, ops[pc].t);
    KeptGrows(ops, ops[pc].t, q);
    assert AdjacentTo(Strip(ops), Kept(ops, pc), Kept(ops, q));
  }

  lemma {:induction false} KeptOver(ops: seq<OpCode>, i: nat, j: nat)
    requires i <= j <= |ops| && forall k | i <= k < j :: ops[k].Nop?
    ensures Kept(ops, j) == Kept(ops, i)
    decreases j
  {
    if i < j { KeptOver(ops, i, j - 1); }
  }

  lemma StripTame(ops: seq<OpCode>, q: nat, d: State, pc: nat)
    requires TameAt(ops, q, d) && InRange(ops) && pc == At(Forward(ops), q)
    requires OpAt(Strip(ops), pc) == MapOp(OpAt(ops, q), Forward(ops))
    ensures TameAt(Strip(ops), pc, MapState(d, Forward(ops)))
  {
    hide MapOp, Strip, NoNext, Adjacent, InRange;
    var f, op, loops := Forward(ops), OpAt(ops, q), d.loops;
    MapKeepsKind(op, f);
    if loops.Cons? {
      StrippedOp(ops, loops.head.brk);
      ForwardAt(ops, loops.head.brk);
      MapKeepsKind(ops[loops.head.brk], f);
      assert OpAt(Strip(ops), At(f, loops.head.brk)) == OpAt(ops, loops.head.brk);
    }
    NoNextMapped(d.core.bodies, loops, f);
    if Adjacent(ops, q) {
      assert q < |ops| by { AdjacentIn(ops, q); }
      ForwardAt(ops, q);
      AdjacentStripped(ops, q);
    }
    if op.Jump? {
      assert op.t <= |ops| by { JumpInRange(ops, q); }
      ForwardAt(ops, op.t);
      LandsStripped(ops, op.t);
      MapKeepsKind(Lands(ops, op.t), f);
    }
  }

  lemma AdjacentIn(ops: seq<OpCode>, q: nat)
    requires Adjacent(ops, q)
    ensures q < |ops|
  {
  }

  lemma JumpInRange(ops: seq<OpCode>, q: nat)
    requires InRange(ops) && OpAt(ops, q).Jump?
    ensures OpAt(ops, q).t <= |ops|
  {
    assert Targets(ops[q], ops[q].t);
  }

  lemma {:induction false} NoNextMapped(bodies: List<Region>, loops: List<LoopFrame>, f: seq<nat>)
    ensures NoNext(bodies, MapLoops(loops, f)) == NoNext(bodies, loops)
    decreases loops
  {
    if loops.Cons? { NoNextMapped(Truncate(bodies, loops.head.at.bodiesLen), loops.tail, f); }
  }

  lemma StripKeepsTame(h: Host, u: Code, s: Run)
    requires Fresh(s) && Tame(h, u, s) && InRange(u.ops)
    ensures Tame(h, StripCode(u), s)
  {
    hide Reaches, TameAt, Fenced, InRange;
    FencedStripped(u.ops);
    forall pc: nat, d | Reaches(h, StripCode(u), s, Running(pc, d)) ensures TameAt(Strip(u.ops), pc, d) {
      var q, d' := StripCame(h, u, s, Running(pc, d));
      StripTame(u.ops, q, d', pc);
    }
  }

  // ── trampolines ──

  lemma FenceFused(u: Code, i: nat)
    requires TrampolineRule(u.ops, i).Some? && Fenced(u.ops)
    ensures Fenced(Fused(u, i).ops)
  {
    hide Barrier, MapOp;
    var v, f := TrampolineRule(u.ops, i).value, Single(u.ops, i);
    var mid, out := Rewritten(u.ops, i, 2, v), Fused(u, i).ops;
    forall pc | 0 <= pc < |out| && StartsPass(out[pc]) ensures Barrier(Before(out, pc)) {
      assert out[pc] == MapOp(mid[pc], f);
      MapKeepsKind(mid[pc], f);
      assert pc != i && pc != i + 1 && mid[pc] == u.ops[pc];
      MarkIsNoBarrier(u.ops[i + 1]);
      BeforeRewritten(u.ops, i, 2, v, pc);
      BeforeMapped(mid, f, pc);
      MapKeepsRole(Before(mid, pc), f);
    }
  }

  lemma MarkIsNoBarrier(op: OpCode)
    ensures StartsPass(op) ==> !Barrier(op)
  {
  }

  lemma FusedLevel(u: Code, i: nat, d: State)
    requires TrampolineRule(u.ops, i).Some? && d.loops.Cons? && Leaving(OpAt(u.ops, d.loops.head.brk))
    ensures OpAt(Fused(u, i).ops, At(Single(u.ops, i), d.loops.head.brk)) == OpAt(u.ops, d.loops.head.brk)
  {
    hide MapOp;
    var brk := d.loops.head.brk;
    assert brk != i && brk != i + 1;
    MapKeepsKind(u.ops[brk], Single(u.ops, i));
  }

  lemma AdjacentFused(u: Code, i: nat, pc: nat)
    requires TrampolineRule(u.ops, i).Some? && Adjacent(u.ops, pc) && pc != i
    ensures Adjacent(Fused(u, i).ops, pc)
  {
    hide MapOp;
    var q: nat :| AdjacentTo(u.ops, pc, q);
    var f, out := Single(u.ops, i), Fused(u, i).ops;
    assert !(pc < i < q) && !(pc < i + 1 < q) && q != i;
    assert q != i + 1;
    assert pc != i + 1;
    MapKeepsKind(u.ops[pc], f);
    MapKeepsKind(u.ops[q], f);
    assert MapOp(Nop, f) == Nop by { NopKept(f); }
    assert AdjacentTo(out, pc, q);
  }

  lemma NopKept(f: seq<nat>)
    ensures MapOp(Nop, f) == Nop
  {
  }

  /** Away from the fused pair. */
  lemma FarTame(u: Code, i: nat, pc: nat, d: State)
    requires TrampolineRule(u.ops, i).Some? && Fenced(u.ops) && pc != i && pc != i + 1 && TameAt(u.ops, pc, d)
    ensures TameAt(Fused(u, i).ops, pc, MapState(d, Single(u.ops, i)))
  {
    hide MapOp, NoNext, Adjacent, Fenced;
    var f, out, op, loops := Single(u.ops, i), Fused(u, i).ops, OpAt(u.ops, pc), d.loops;
    var v := TrampolineRule(u.ops, i).value;
    var mid := Rewritten(u.ops, i, 2, v);
    MapKeepsKind(op, f);
    assert OpAt(out, pc) == MapOp(op, f) by { if pc >= |u.ops| { NopKept(f); } }
    if loops.Cons? { FusedLevel(u, i, d); }
    NoNextMapped(d.core.bodies, loops, f);
    if Adjacent(u.ops, pc) { AdjacentFused(u, i, pc); }
    if op.Jump? { FusedLands(u, i, op.t); }
  }

  lemma FusedLands(u: Code, i: nat, t: nat)
    requires TrampolineRule(u.ops, i).Some?
    ensures StartsPass(Lands(Fused(u, i).ops, At(Single(u.ops, i), t))) ==> StartsPass(Lands(u.ops, t))
  {
    hide MapOp;
    var v, f := TrampolineRule(u.ops, i).value, Single(u.ops, i);
    var mid := Rewritten(u.ops, i, 2, v);
    var t' := At(f, t);
    LandsMapped(mid, f, t');
    MapKeepsKind(Lands(mid, t'), f);
    SwapIsNoStart(u.ops, i);
    if t <= |u.ops| && t != i + 1 { LandsRewritten(u.ops, i, 2, v, t); SwapLands(u.ops, i, v, t); }
  }

  lemma SwapIsNoStart(ops: seq<OpCode>, i: nat)
    requires TrampolineRule(ops, i).Some?
    ensures !StartsPass(TrampolineRule(ops, i).value) && !TrampolineRule(ops, i).value.Nop?
  {
  }

  lemma {:induction false} SwapLands(ops: seq<OpCode>, i: nat, v: OpCode, t: nat)
    requires i + 2 <= |ops| && !OpAt(ops, i).Nop? && !v.Nop? && !StartsPass(v) && t != i + 1
    ensures StartsPass(Lands(Rewritten(ops, i, 2, v), t)) ==> StartsPass(Lands(ops, t))
    decreases |ops| - t
  {
    if t < |ops| && t != i && ops[t].Nop? { SwapLands(ops, i, v, t + 1); }
  }

  /** At the fused instruction, wherever control came from. */
  lemma NearTame(u: Code, i: nat, pc: nat, d: State, n: State)
    requires TrampolineRule(u.ops, i).Some? && (pc == i || pc == i + 1) && TameAt(u.ops, pc, d)
    requires if pc == i then n == State(Closed(d.core), d.loops) && TameAt(u.ops, i + 1, n) else n == d
    ensures TameAt(Fused(u, i).ops, i, MapState(d, Single(u.ops, i)))
  {
    hide MapOp, NoNext, Adjacent;
    var f, out, loops := Single(u.ops, i), Fused(u, i).ops, d.loops;
    var v := TrampolineRule(u.ops, i).value;
    assert OpAt(out, i) == MapOp(v, f);
    MapKeepsKind(v, f);
    assert Lands(u.ops, i + 1) == u.ops[i + 1];
    if loops.Cons? { FusedLevel(u, i, d); }
    NoNextMapped(d.core.bodies, loops, f);
  }

  lemma FuseKeepsTame(h: Host, u: Code, s: Run, i: nat)
    requires TrampolineRule(u.ops, i).Some? && ForeachShaped(u) && RunsOrderly(h, u, s) && Fresh(s) && Tame(h, u, s)
    ensures Tame(h, Fused(u, i), s)
  {
    hide Exec, Reaches, TameAt, Fenced, RunsOrderly, TrampolineRule;
    var out := Fused(u, i);
    FenceFused(u, i);
    assert i + 1 < |u.ops| by { TrampolineIn(u.ops, i); }
    forall pc: nat, d | Reaches(h, out, s, Running(pc, d)) ensures TameAt(out.ops, pc, d) {
      var s' := FuseCame(h, u, s, i, Running(pc, d));
      if s'.pc == i {
        JumpNormalizes(h, u, i, s'.d);
        ReachesStep(h, u, s, s', 1);
        var n := State(Closed(s'.d.core), s'.d.loops);
        assert Steps(h, u, s', 1) == Running(i + 1, n) by { OneStepIs(h, u, s'); }
        NearTame(u, i, i, s'.d, n);
      } else if s'.pc == i + 1 {
        NearTame(u, i, i + 1, s'.d, s'.d);
      } else {
        FarTame(u, i, s'.pc, s'.d);
        if pc != s'.pc {
          assert OpAt(out.ops, pc) == Nop by { GapIsNop(u, i, s'.pc, pc); }
          NopTame(out.ops, pc, s'.pc, d);
        }
      }
    }
  }

  lemma TrampolineIn(ops: seq<OpCode>, i: nat)
    requires TrampolineRule(ops, i).Some?
    ensures i + 1 < |ops|
  {
  }

  lemma OneStepIs(h: Host, u: Code, s: Run)
    ensures Steps(h, u, s, 1) == Step(h, u, s)
  {
    hide Exec;
    assert Steps(h, u, s, 0) == s;
  }

  lemma GapIsNop(u: Code, i: nat, from: nat, to: nat)
    requires TrampolineRule(u.ops, i).Some? && from != i && from != i + 1 && to != from
    requires to == At(Single(u.ops, i), from) || (from == i + 2 && to == i + 1)
    ensures OpAt(Fused(u, i).ops, to) == Nop
  {
  }

  // ── the tables ──

  lemma PairMilder(a: OpCode, b: OpCode)
    ensures FusePair(a, b).Some? ==> Milder(a, FusePair(a, b).value)
  {
    hide FusePair, Closing, Nexting, Swaps, Inert;
    PairInert(a, b);
    PairCloses(a, b);
    PairNexts(a, b);
  }

  lemma PairInert(a: OpCode, b: OpCode)
    ensures FusePair(a, b).Some? ==> Inert(a) && Inert(FusePair(a, b).value)
  {
  }

  lemma PairCloses(a: OpCode, b: OpCode)
    ensures FusePair(a, b).Some? && Closing(FusePair(a, b).value) ==> Closing(a)
  {
  }

  lemma PairNexts(a: OpCode, b: OpCode)
    ensures FusePair(a, b).Some? && Nexting(FusePair(a, b).value) ==> Nexting(a)
    ensures FusePair(a, b).Some? && Swaps(FusePair(a, b).value) ==> Swaps(a)
  {
  }

  lemma RuleMilder(a: OpCode, b: OpCode)
    ensures PairRule(a, b).Some? ==> Milder(a, PairRule(a, b).value.0)
  {
    hide Exec;
  }

  lemma QuadMilder(a: OpCode, b: OpCode, e: OpCode, g: OpCode)
    ensures FuseQuad(a, b, e, g).Some? ==> Milder(a, FuseQuad(a, b, e, g).value)
  {
  }

  lemma TriplesMilder(a: OpCode, b: OpCode, e: OpCode, v: OpCode)
    requires SlotRule(a, b, e) == Some(v) || FoldRule(a, b, e) == Some(v) || FuseTriple(a, b, e) == Some(v)
    ensures Milder(a, v)
  {
    hide Exec;
  }
}

/** The whole pipeline keeps the meaning of every guarded unit. */
module PassSoundness {
  import opened Options
  import opened Opcodes
  import opened Arith
  import opened Machine
  import opened Discipline
  import opened Rewriting
  import opened Stripping
  import opened Laws
  import opened Windows
  import opened Trampolines
  import opened Passes
  import opened Outlines
  import opened Effects
  import opened Negations
  import opened Fates
  import opened Levels
  import opened Taming
  import opened Doubled

  function With(u: Code, ops: seq<OpCode>): Code { u.(ops := ops) }

  /** The unit, its code optimised. */
  function Optimised(u: Code): Code { With(u, Peephole(u.ops)) }

  // ── windows the first pass rewrites without looking at targets ──

  predicate Solid(ops: seq<OpCode>, i: nat, w: nat) {
    && i + w <= |ops|
    && (forall k | i <= k < i + w :: !ops[k].Nop?)
    && (forall k | i < k < i + w :: !Landing(ops[k]))
    && (forall k | i <= k < i + w - 1 :: !Barrier(ops[k]))
  }

  lemma SolidAt(ops: seq<OpCode>, i: nat, w: nat, t: nat)
    requires Solid(ops, i, w) && i < t < i + w
    ensures !GuardedAt(ops, t)
  {
    hide Landing, Barrier;
    assert Lands(ops, t) == ops[t] && !ops[t].Nop? && !Landing(ops[t]);
    assert Before(ops, t) == ops[t - 1] && !ops[t - 1].Nop? && !Barrier(ops[t - 1]);
  }

  /** A guarded unit has no target strictly inside a solid window. */
  lemma SolidIsWindow(u: Code, i: nat, w: nat)
    requires Guarded(u.ops) && Solid(u.ops, i, w) && w >= 1
    ensures Window(u, i, w)
  {
    hide GuardedAt;
    forall j, t: nat | 0 <= j < |u.ops| && Targets(u.ops[j], t) ensures Free(t, i, w) {
      if i < t < i + w { SolidAt(u.ops, i, w, t); }
    }
  }

  lemma SlotOrFoldWord(a: OpCode, b: OpCode, e: OpCode, v: OpCode)
    requires SlotRule(a, b, e) == Some(v) || FoldRule(a, b, e) == Some(v)
    requires a.Push? && a.lit.Int? ==> InI64(a.lit.n)
    requires b.Push? && b.lit.Int? ==> InI64(b.lit.n)
    ensures v.Push? && v.lit.Int? ==> InI64(v.lit.n)
  {
    hide Fold;
    if FoldRule(a, b, e) == Some(v) { FoldExact(e, a.lit.n, b.lit.n); }
  }

  lemma SlotOrFoldKeeps(h: Host, u: Code, s: Run, i: nat, v: OpCode)
    requires Good(h, u, s) && Guarded(u.ops) && i + 3 <= |u.ops|
    requires var a, b, e := OpAt(u.ops, i), OpAt(u.ops, i + 1), OpAt(u.ops, i + 2);
        SlotRule(a, b, e) == Some(v) || FoldRule(a, b, e) == Some(v)
    ensures Carried(h, u, Replace(u, i, 3, v), s)
  {
    hide Exec, Landing, Barrier, SlotRule, FoldRule, Targets, RunsOrderly, InRange, ForeachShaped, Guarded, Carried,
        Blends, Milder;
    var a, b, e := u.ops[i], u.ops[i + 1], u.ops[i + 2];
    SlotOrFoldShape(a, b, e, v);
    SlotOrFoldWord(a, b, e, v);
    TripleKinds(a, b, e, v);
    SolidIsWindow(u, i, 3);
    TripleEffect(h, u, s, i, v);
    TripleNotHolding(a, b, e);
    TripleBlends(u.ops, i, v);
    assert Quits(u.ops, i, 3, v) by { TriplesMilder(a, b, e, v); }
    ReplaceKeeps(h, u, s, i, 3, v);
  }

  /** A double negation either sees 0 and 1 alone or goes to an instruction
      that does not tell. */
  lemma TwiceKeeps(h: Host, u: Code, s: Run, i: nat)
    requires Good(h, u, s) && Guarded(u.ops) && Twice(u.ops, i) && NotsFit(h, u, s)
    ensures Carried(h, u, Replace(u, i, 2, Nop), s)
  {
    hide Good, Guarded, Carried, FateAt, Reaches;
    if FateAt(u.ops, i + 1, true).Never? {
      forall d | Reaches(h, u, s, Running(i, d)) ensures d.core.stack.Cons? && IsBit(d.core.stack.head) {
        assert NotFitsAt(h, u.ops, i, d);
      }
      PlainPairKeeps(h, u, s, i, Nop, 2);
    } else {
      DropKeeps(h, u, s, i);
    }
  }

  lemma PlainPairKeeps(h: Host, u: Code, s: Run, i: nat, v: OpCode, w: nat)
    requires Good(h, u, s) && Guarded(u.ops) && i + 2 <= |u.ops|
    requires PairRule(OpAt(u.ops, i), OpAt(u.ops, i + 1)) == Some((v, w))
        && (OpAt(u.ops, i) == Un(Not) ==> BitOperand(h, u, s, i))
    ensures Carried(h, u, Replace(u, i, w, v), s)
  {
    hide Exec, Landing, Barrier, PairRule, Targets, RunsOrderly, InRange, ForeachShaped, Guarded, Carried, BitOperand,
        Blends, Milder;
    PairKinds(u.ops[i], u.ops[i + 1]);
    PairShape(u.ops[i], u.ops[i + 1]);
    PairBlends(u.ops, i);
    RuleMilder(u.ops[i], u.ops[i + 1]);
    RuleErases(u.ops[i], u.ops[i + 1]);
    SolidIsWindow(u, i, w);
    if w == 2 { PairEffect(h, u, s, i, v); } else { LiteralEffect(h, u, s, i, v); }
    ReplaceKeeps(h, u, s, i, w, v);
  }

  lemma RuleErases(a: OpCode, b: OpCode)
    requires PairRule(a, b).Some?
    ensures PairRule(a, b).value.0.Nop? ==> !Barrier(b) && PairRule(a, b).value.1 == 2
  {
  }

  lemma PairKeeps(h: Host, u: Code, s: Run, i: nat, v: OpCode, w: nat)
    requires Good(h, u, s) && Guarded(u.ops) && i + 2 <= |u.ops| && NotsFit(h, u, s)
    requires PairRule(OpAt(u.ops, i), OpAt(u.ops, i + 1)) == Some((v, w))
    ensures Carried(h, u, Replace(u, i, w, v), s)
  {
    hide Exec, Good, Guarded, Carried, NotsFit;
    if u.ops[i] == Un(Not) { TwiceKeeps(h, u, s, i); } else { PlainPairKeeps(h, u, s, i, v, w); }
  }

  // ── the first pass ──

  lemma CarriedSame(h: Host, u: Code, s: Run)
    requires Good(h, u, s)
    ensures Carried(h, u, u, s)
  {
    hide Exec;
  }

  lemma {:induction false} SlotsKeep(h: Host, u: Code, s: Run, i: nat)
    requires Good(h, u, s) && Guarded(u.ops)
    ensures Carried(h, u, With(u, Slots(u.ops, i).0), s)
    decreases |u.ops| - i
  {
    hide Exec, Good, SlotRule, Guarded, Carried, FoldRule;
    CarriedSame(h, u, s);
    if i + 2 < |u.ops| {
      match SlotRule(u.ops[i], u.ops[i + 1], u.ops[i + 2])
      case Some(v) =>
        var m := Replace(u, i, 3, v);
        SlotOrFoldKeeps(h, u, s, i, v);
        CarriedGives(h, u, m, s);
        SlotsKeep(h, m, s, i + 3);
        CarriedTwice(h, u, m, With(u, Slots(u.ops, i).0), s);
      case None => SlotsKeep(h, u, s, i + 1);
    }
  }

  lemma CarriedGives(h: Host, u: Code, v: Code, s: Run)
    requires Carried(h, u, v, s)
    ensures Good(h, v, s) && SameMeaning(h, u, v, s)
    ensures Guarded(u.ops) ==> Guarded(v.ops)
    ensures NotsFit(h, u, s) ==> NotsFit(h, v, s)
    ensures HoldersHaveRoom(h, u, s) ==> HoldersHaveRoom(h, v, s)
    ensures Tame(h, u, s) ==> Tame(h, v, s)
  {
    hide Exec;
  }

  lemma {:induction false} FoldsKeep(h: Host, u: Code, s: Run, i: nat)
    requires Good(h, u, s) && Guarded(u.ops)
    ensures Carried(h, u, With(u, Folds(u.ops, i).0), s)
    decreases |u.ops| - i, if i + 1 < |u.ops| && OpAt(u.ops, i + 1).Nop? then 0 else 1
  {
    hide Exec, Good, SlotRule, Guarded, Carried, FoldRule;
    CarriedSame(h, u, s);
    if i + 2 < |u.ops| {
      match FoldRule(u.ops[i], u.ops[i + 1], u.ops[i + 2])
      case Some(v) =>
        var m := Replace(u, i, 3, v);
        SlotOrFoldKeeps(h, u, s, i, v);
        CarriedGives(h, u, m, s);
        assert !u.ops[i + 1].Nop? by { SlotOrFoldShape(u.ops[i], u.ops[i + 1], u.ops[i + 2], v); }
        FoldsKeep(h, m, s, i);
        CarriedTwice(h, u, m, With(u, Folds(u.ops, i).0), s);
      case None => FoldsKeep(h, u, s, i + 1);
    }
  }

  lemma {:induction false} PairsKeep(h: Host, u: Code, s: Run, i: nat)
    requires Good(h, u, s) && Guarded(u.ops) && NotsFit(h, u, s)
    ensures Carried(h, u, With(u, Pairs(u.ops, i).0), s)
    decreases |u.ops| - i
  {
    hide Exec, Good, PairRule, Guarded, Carried, NotsFit;
    CarriedSame(h, u, s);
    if i + 1 < |u.ops| {
      match PairRule(u.ops[i], u.ops[i + 1])
      case Some(p) =>
        var m := Replace(u, i, p.1, p.0);
        PairKinds(u.ops[i], u.ops[i + 1]);
        PairKeeps(h, u, s, i, p.0, p.1);
        CarriedGives(h, u, m, s);
        PairsKeep(h, m, s, i + p.1);
        CarriedTwice(h, u, m, With(u, Pairs(u.ops, i).0), s);
      case None => PairsKeep(h, u, s, i + 1);
    }
  }

  function Folded(u: Code): Code {
    var a := AfterSlots(u.ops);
    With(u, if |a| < 2 then a else Folds(a, 0).0)
  }

  lemma PassKeeps(h: Host, u: Code, s: Run)
    requires Good(h, u, s) && Guarded(u.ops) && NotsFit(h, u, s)
    ensures Carried(h, u, With(u, PeepholePass(u.ops).0), s)
  {
    hide Exec, Good, Guarded, Carried, NotsFit, Slots, Folds, Pairs;
    FoldedKeeps(h, u, s);
    CarriedGives(h, u, Folded(u), s);
    if |AfterSlots(u.ops)| >= 2 {
      PairsKeep(h, Folded(u), s, 0);
      CarriedTwice(h, u, Folded(u), With(u, PeepholePass(u.ops).0), s);
    }
  }

  lemma FoldedKeeps(h: Host, u: Code, s: Run)
    requires Good(h, u, s) && Guarded(u.ops)
    ensures Carried(h, u, Folded(u), s)
  {
    hide Exec, Good, Guarded, Carried, Slots, Folds;
    var r := Slots(u.ops, 0);
    var v := With(u, r.0);
    SlotsKeep(h, u, s, 0);
    CarriedGives(h, u, v, s);
    var a := With(u, AfterSlots(u.ops));
    if r.1 {
      StripKeeps(h, v, s);
      CarriedTwice(h, u, v, a, s);
      CarriedGives(h, u, a, s);
    }
    if |a.ops| >= 2 {
      FoldsKeep(h, a, s, 0);
      CarriedTwice(h, u, a, Folded(u), s);
    }
  }

  // ── the fusion scan ──

  /** The code a half-done scan stands for: its retargetings applied. */
  function Virtual(u: Code, ops: seq<OpCode>, rt: seq<(nat, nat)>): Code {
    With(u, MapAll(ops, Table(rt, |ops|)))
  }

  /** The retargetings so far lie behind the scan and touch no body mark. */
  predicate Settled(ops: seq<OpCode>, rt: seq<(nat, nat)>, i: nat) {
    forall k | 0 <= k < |rt| ::
      && rt[k].0 == rt[k].1 + 1 && rt[k].0 < i && rt[k].0 < |ops|
      && !IsBodyMark(ops[rt[k].0]) && !IsBodyMark(ops[rt[k].1])
  }

  /** Targets ahead of the scan were collected, or follow a body mark. */
  ghost predicate Collected(ops: seq<OpCode>, targets: seq<bool>, i: nat) {
    && |targets| == |ops| + 1
    && forall j, t: nat | 0 <= j < |ops| && Targets(ops[j], t) ::
         t <= |ops| && (t <= i || targets[t] || IsBodyMark(ops[t - 1]))
  }

  lemma {:induction false} ChaseStays(rt: seq<(nat, nat)>, t: nat)
    requires forall k | 0 <= k < |rt| :: rt[k].0 != t
    ensures Chase(rt, t) == t
  {
    if rt != [] { ChaseStays(rt[..|rt| - 1], t); }
  }

  lemma {:induction false} ChaseBehind(rt: seq<(nat, nat)>, i: nat, t: nat)
    requires forall k | 0 <= k < |rt| :: rt[k].0 == rt[k].1 + 1 && rt[k].0 < i
    ensures t >= i ==> Chase(rt, t) == t
    ensures t < i ==> Chase(rt, t) < i
  {
    if rt != [] { ChaseBehind(rt[..|rt| - 1], i, t); }
  }

  lemma BodyStays(ops: seq<OpCode>, rt: seq<(nat, nat)>, i: nat, b: nat)
    requires Settled(ops, rt, i) && b < |ops| && IsBodyMark(OpAt(ops, b))
    ensures Chase(rt, b) == b && Chase(rt, b + 1) == b + 1
  {
    ChaseStays(rt, b);
    ChaseStays(rt, b + 1);
  }

  /** One more retargeting is one more renaming. */
  lemma MapTwice(op: OpCode, rt: seq<(nat, nat)>, ops: seq<OpCode>, n: nat, i: nat)
    requires n == |ops| && i < n && forall k | 0 <= k < |rt| :: rt[k].0 == rt[k].1 + 1 && rt[k].0 < n
    ensures MapOp(MapOp(op, Table(rt, n)), Single(ops, i)) == MapOp(op, Table(rt + [(i + 1, i)], n))
  {
    hide MapOp, At, Table, Single;
    forall t: nat ensures At(Single(ops, i), At(Table(rt, n), t)) == At(Table(rt + [(i + 1, i)], n), t)
        { AtTwice(rt, ops, n, i, t); }
    MapCompose(op, Table(rt, n), Single(ops, i), Table(rt + [(i + 1, i)], n));
  }

  lemma AtTwice(rt: seq<(nat, nat)>, ops: seq<OpCode>, n: nat, i: nat, t: nat)
    requires n == |ops| && i < n && forall k | 0 <= k < |rt| :: rt[k].0 == rt[k].1 + 1 && rt[k].0 < n
    ensures At(Single(ops, i), At(Table(rt, n), t)) == At(Table(rt + [(i + 1, i)], n), t)
  {
    assert (rt + [(i + 1, i)])[..|rt|] == rt;
    ChaseBehind(rt, n, if t <= n then t else n);
  }

  lemma MapCompose(op: OpCode, f: seq<nat>, s: seq<nat>, g: seq<nat>)
    requires forall t: nat :: At(s, At(f, t)) == At(g, t)
    ensures MapOp(MapOp(op, f), s) == MapOp(op, g)
  {
    hide At;
  }

  // ── its windows ──

  lemma FiresEffect(h: Host, u: Code, s: Run, i: nat, w: nat, v: OpCode)
    requires Good(h, u, s) && Fires(u.ops, i, w, v) && !OpAt(u.ops, i).Un?
    ensures SameEffect(h, u, s, i, w, v)
  {
    hide FusePair, FuseTriple, FuseQuad, RunsOrderly, SameEffect, SlotRule, FoldRule, PairRule, BitOperand, InRange,
        ForeachShaped;
    if w == 2 { PairEffect(h, u, s, i, v); }
    else if w == 3 { TripleEffect(h, u, s, i, v); }
    else { QuadEffect(h, u, s, i, v); }
  }

  lemma FiresHeld(ops: seq<OpCode>, i: nat, w: nat, v: OpCode)
    requires Fires(ops, i, w, v) && 2 <= w <= 4 && i + w <= |ops|
    ensures Held(ops, i, w, v)
  {
    hide FuseQuad, FuseTriple;
    if w == 3 { TripleNotHolding(ops[i], ops[i + 1], ops[i + 2]); }
    if w == 4 { QuadNotHolding(ops[i], ops[i + 1], ops[i + 2], ops[i + 3]); }
  }

  lemma TripleNotHolding(a: OpCode, b: OpCode, e: OpCode)
    ensures FuseTriple(a, b, e).Some? ==> !Holding(FuseTriple(a, b, e).value)
    ensures SlotRule(a, b, e).Some? ==> !Holding(SlotRule(a, b, e).value)
    ensures FoldRule(a, b, e).Some? ==> !Holding(FoldRule(a, b, e).value)
  {
  }

  lemma QuadNotHolding(a: OpCode, b: OpCode, e: OpCode, g: OpCode)
    ensures FuseQuad(a, b, e, g).Some? ==> !Holding(FuseQuad(a, b, e, g).value)
  {
  }

  lemma FiresFits(ops: seq<OpCode>, i: nat, w: nat, v: OpCode)
    requires Fires(ops, i, w, v)
    ensures i + w <= |ops| && w >= 1 && NamesNothingNew(ops, i, w, v) && KeepsRoles(ops, i, w, v)
    ensures !v.Store? && !StartsPass(v) && !v.Un? && !OpAt(ops, i).Un? && Held(ops, i, w, v)
  {
    hide Fires, Landing, Barrier, Targets, Held;
    FiresShape(ops, i, w, v);
    FiresHeld(ops, i, w, v);
    forall t: nat | Targets(v, t) ensures exists j :: i <= j < i + w && Targets(ops[j], t) {
      assert Targets(ops[i + w - 1], t);
    }
  }

  lemma FiresBlend(ops: seq<OpCode>, i: nat, w: nat, v: OpCode)
    requires Fires(ops, i, w, v)
    ensures 1 <= w && i + w <= |ops| && Blends(ops, i, w, v)
  {
    hide FusePair, FuseTriple, FuseQuad, Blends, SlotRule, FoldRule;
    if w == 2 { PairBlends(ops, i); } else if w == 3 { TripleBlends(ops, i, v); } else { QuadBlends(ops, i, v); }
  }

  lemma FiresQuit(ops: seq<OpCode>, i: nat, w: nat, v: OpCode)
    requires Fires(ops, i, w, v)
    ensures 1 <= w && i + w <= |ops| && Quits(ops, i, w, v)
  {
    hide Fires, Landing, Barrier, Targets, Held, Milder;
    FiresFits(ops, i, w, v);
    FiresMilder(ops, i, w, v);
    FiresErase(ops, i, w, v);
  }

  lemma FiresMilder(ops: seq<OpCode>, i: nat, w: nat, v: OpCode)
    requires Fires(ops, i, w, v)
    ensures Milder(OpAt(ops, i), v)
  {
    hide FusePair, FuseTriple, FuseQuad, Milder, SlotRule, FoldRule;
    if w == 2 { PairMilder(ops[i], ops[i + 1]); }
    else if w == 3 { TriplesMilder(ops[i], ops[i + 1], ops[i + 2], v); }
    else { QuadMilder(ops[i], ops[i + 1], ops[i + 2], ops[i + 3]); }
  }

  lemma FiresErase(ops: seq<OpCode>, i: nat, w: nat, v: OpCode)
    requires Fires(ops, i, w, v)
    ensures i + w <= |ops| && w >= 2 && (v.Nop? ==> !Barrier(OpAt(ops, i + w - 1)))
  {
    hide OperandRule;
  }

  lemma FireKeeps(h: Host, u: Code, s: Run, i: nat, w: nat, v: OpCode)
    requires Good(h, u, s) && Fires(u.ops, i, w, v) && NoTargetInside(u.ops, i, w)
    ensures Carried(h, u, Replace(u, i, w, v), s)
  {
    hide Fires, Good, Carried, SameEffect, NamesNothingNew, KeepsRoles, NoTargetInside, Blends, Quits;
    FiresFits(u.ops, i, w, v);
    FiresEffect(h, u, s, i, w, v);
    FiresBlend(u.ops, i, w, v);
    FiresQuit(u.ops, i, w, v);
    ReplaceKeeps(h, u, s, i, w, v);
  }

  lemma VirtualTarget(u: Code, ops: seq<OpCode>, rt: seq<(nat, nat)>, targets: seq<bool>, i: nat, j: nat, t: nat)
    requires Settled(ops, rt, i) && Collected(ops, targets, i) && i <= |ops|
    requires j < |ops| && Targets(Virtual(u, ops, rt).ops[j], t)
    ensures t <= |ops| && (t <= i || targets[t] || IsBodyMark(OpAt(ops, t - 1)))
  {
    var t0 := MappedTarget(ops[j], Table(rt, |ops|), t);
    ChaseBehind(rt, i, t0);
  }

  lemma RewrittenMapped(ops: seq<OpCode>, i: nat, w: nat, v: OpCode, f: seq<nat>)
    ensures MapAll(Rewritten(ops, i, w, v), f) == Rewritten(MapAll(ops, f), i, w, MapOp(v, f))
  {
    hide MapOp;
    assert MapOp(Nop, f) == Nop by { NopMapped(f); }
  }

  lemma NopMapped(f: seq<nat>)
    ensures MapOp(Nop, f) == Nop
  {
  }

  /** A value window fused by the scan. */
  lemma ScanWindow(h: Host, u: Code, ops: seq<OpCode>, rt: seq<(nat, nat)>, targets: seq<bool>, s: Run,
                   i: nat, w: nat, v: OpCode)
    requires Good(h, Virtual(u, ops, rt), s) && Settled(ops, rt, i) && Collected(ops, targets, i)
    requires Fires(ops, i, w, v) && TailFree(ops, targets, i, w)
    ensures Carried(h, Virtual(u, ops, rt), Virtual(u, Rewritten(ops, i, w, v), rt), s)
  {
    hide Fires, Good, Carried, Targets, MapOp, Settled, Collected;
    var f := Table(rt, |ops|);
    var vu := Virtual(u, ops, rt);
    FiresShape(ops, i, w, v);
    FiresMapped(ops, i, w, v, f);
    forall j, t: nat | 0 <= j < |vu.ops| && Targets(vu.ops[j], t) ensures Free(t, i, w) {
      VirtualTarget(u, ops, rt, targets, i, j, t);
    }
    FireKeeps(h, vu, s, i, w, MapOp(v, f));
    RewrittenMapped(ops, i, w, v, f);
  }

  lemma ScanWindowNext(ops: seq<OpCode>, rt: seq<(nat, nat)>, targets: seq<bool>, i: nat, w: nat, v: OpCode)
    requires Settled(ops, rt, i) && Collected(ops, targets, i) && Fires(ops, i, w, v)
    ensures Settled(Rewritten(ops, i, w, v), rt, i + w)
    ensures Collected(Rewritten(ops, i, w, v), targets, i + w)
  {
    hide Fires;
    FiresShape(ops, i, w, v);
    var out := Rewritten(ops, i, w, v);
    forall j, t: nat | 0 <= j < |out| && Targets(out[j], t)
      ensures t <= |out| && (t <= i + w || targets[t] || IsBodyMark(out[t - 1]))
    {
      assert Targets(ops[if j == i then i + w - 1 else j], t);
    }
  }

  // ── its trampolines ──

  lemma TrampolineMapped(ops: seq<OpCode>, rt: seq<(nat, nat)>, i: nat)
    requires Settled(ops, rt, i) && TrampolineRule(ops, i).Some?
    ensures var f := Table(rt, |ops|);
            TrampolineRule(MapAll(ops, f), i) == Some(MapOp(TrampolineRule(ops, i).value, f))
  {
    var f := Table(rt, |ops|);
    ChaseBehind(rt, i, i + 1);
    assert MapAll(ops, f)[i] == Jump(i + 1);
    if IsNext(ops[i + 1]) {
      var body := ops[i + 1].l.body;
      BodyStays(ops, rt, i, body);
      assert MapAll(ops, f)[body] == ops[body];
    }
  }

  lemma FusedIsVirtual(u: Code, ops: seq<OpCode>, rt: seq<(nat, nat)>, i: nat)
    requires Settled(ops, rt, i) && TrampolineRule(ops, i).Some?
    ensures TrampolineRule(Virtual(u, ops, rt).ops, i).Some?
    ensures Fused(Virtual(u, ops, rt), i)
         == Virtual(u, Rewritten(ops, i, 2, TrampolineRule(ops, i).value), rt + [(i + 1, i)])
  {
    hide TrampolineRule, MapOp, Single;
    var n, v := |ops|, TrampolineRule(ops, i).value;
    var f, out := Table(rt, n), Rewritten(ops, i, 2, v);
    TrampolineMapped(ops, rt, i);
    SingleBySize(ops, Virtual(u, ops, rt).ops, i);
    RewrittenMapped(ops, i, 2, v, f);
    assert i + 1 < n by { TrampolineFits(ops, i); }
    forall j | 0 <= j < n ensures MapOp(MapOp(out[j], f), Single(ops, i))
        == MapOp(out[j], Table(rt + [(i + 1, i)], n)) {
      MapTwice(out[j], rt, ops, n, i);
    }
    assert MapAll(MapAll(out, f), Single(ops, i)) == MapAll(out, Table(rt + [(i + 1, i)], n));
  }

  lemma TrampolineFits(ops: seq<OpCode>, i: nat)
    requires TrampolineRule(ops, i).Some?
    ensures i + 1 < |ops| && !IsBodyMark(TrampolineRule(ops, i).value)
  {
  }

  lemma ScanTrampoline(h: Host, u: Code, ops: seq<OpCode>, rt: seq<(nat, nat)>, s: Run, i: nat)
    requires Good(h, Virtual(u, ops, rt), s) && Settled(ops, rt, i) && TrampolineRule(ops, i).Some?
    ensures Carried(h, Virtual(u, ops, rt),
                    Virtual(u, Rewritten(ops, i, 2, TrampolineRule(ops, i).value), rt + [(i + 1, i)]), s)
  {
    hide Good, Carried, Virtual, Fused, Settled, TrampolineRule;
    FusedIsVirtual(u, ops, rt, i);
    TrampolineKeeps(h, Virtual(u, ops, rt), s, i);
  }

  lemma ScanTrampolineNext(ops: seq<OpCode>, rt: seq<(nat, nat)>, targets: seq<bool>, i: nat)
    requires Settled(ops, rt, i) && Collected(ops, targets, i) && TrampolineRule(ops, i).Some?
    ensures var out := Rewritten(ops, i, 2, TrampolineRule(ops, i).value);
            Settled(out, rt + [(i + 1, i)], i + 2) && Collected(out, targets, i + 2)
  {
    var v := TrampolineRule(ops, i).value;
    var out := Rewritten(ops, i, 2, v);
    assert Settled(out, rt + [(i + 1, i)], i + 2) by { TrampolineFits(ops, i); }
    forall j, t: nat | 0 <= j < |out| && Targets(out[j], t)
      ensures t <= |out| && (t <= i + 2 || targets[t] || IsBodyMark(out[t - 1]))
    {
      if j != i { assert Targets(ops[j], t); }
    }
  }

  // ── the scan and the round ──

  lemma {:induction false} ScanKeeps(h: Host, u: Code, ops: seq<OpCode>, rt: seq<(nat, nat)>, targets: seq<bool>,
          s: Run, i: nat)
    requires Good(h, Virtual(u, ops, rt), s) && Settled(ops, rt, i) && Collected(ops, targets, i)
    ensures var r := FuseFrom(ops, targets, rt, i);
            Carried(h, Virtual(u, ops, rt), Virtual(u, r.ops, r.rt), s) && InRange(r.ops)
    decreases |ops| - i
  {
    hide Exec, Good, Carried, Virtual, Settled, TrampolineRule, FusePair, FuseTriple, FuseQuad, SameMeaning, Guarded,
        NotsFit, HoldersHaveRoom, Tame;
    CarriedSame(h, Virtual(u, ops, rt), s);
    if i + 1 < |ops| {
      match FuseRule(ops, targets, i)
      case None => assert Settled(ops, rt, i + 1) by { LaterSettled(ops, rt, i);
          } ScanKeeps(h, u, ops, rt, targets, s, i + 1);
      case Some(p) =>
        var tramp := TrampolineRule(ops, i).Some?;
        var rt' := if tramp then rt + [(i + 1, i)] else rt;
        var out := Rewritten(ops, i, p.1, p.0);
        if tramp {
          ScanTrampoline(h, u, ops, rt, s, i);
          ScanTrampolineNext(ops, rt, targets, i);
        } else {
          ScanWindow(h, u, ops, rt, targets, s, i, p.1, p.0);
          ScanWindowNext(ops, rt, targets, i, p.1, p.0);
        }
        CarriedGives(h, Virtual(u, ops, rt), Virtual(u, out, rt'), s);
        ScanKeeps(h, u, out, rt', targets, s, i + p.1);
        var r := FuseFrom(out, targets, rt', i + p.1);
        CarriedTwice(h, Virtual(u, ops, rt), Virtual(u, out, rt'), Virtual(u, r.ops, r.rt), s);
    }
  }

  lemma LaterSettled(ops: seq<OpCode>, rt: seq<(nat, nat)>, i: nat)
    requires Settled(ops, rt, i)
    ensures Settled(ops, rt, i + 1)
  {
  }

  lemma VirtualIsReal(u: Code, ops: seq<OpCode>)
    requires InRange(ops)
    ensures Virtual(u, ops, []) == With(u, ops)
  {
    hide MapOp;
    forall j | 0 <= j < |ops| ensures MapOp(ops[j], Table([], |ops|)) == ops[j] {
      UnmovedOp(ops[j], Table([], |ops|));
    }
  }

  lemma AllCollected(ops: seq<OpCode>)
    requires InRange(ops)
    ensures Collected(ops, CollectTargets(ops), 0)
  {
    var targets := CollectTargets(ops);
    forall j, t: nat | 0 <= j < |ops| && Targets(ops[j], t)
      ensures t <= |ops| && (t <= 0 || targets[t] || IsBodyMark(ops[t - 1]))
    {
      assert TargetedBy(ops, |ops|, t);
    }
  }

  /** One fusion round keeps everything, wherever the targets lie. */
  lemma FusePairsKeeps(h: Host, u: Code, s: Run)
    requires Good(h, u, s)
    ensures Carried(h, u, With(u, FusePairs(u.ops).0), s)
  {
    hide Exec, Carried, FuseFrom, CollectTargets, RunsOrderly, MapOp;
    var ops := u.ops;
    CarriedSame(h, u, s);
    if |ops| >= 2 {
      VirtualIsReal(u, ops);
      AllCollected(ops);
      ScanKeeps(h, u, ops, [], CollectTargets(ops), s, 0);
      var r := FuseFrom(ops, CollectTargets(ops), [], 0);
      if r.rt == [] { VirtualIsReal(u, r.ops); }
    }
  }

  lemma RoundKeeps(h: Host, u: Code, s: Run)
    requires Good(h, u, s) && Guarded(u.ops) && NotsFit(h, u, s)
    ensures Carried(h, u, With(u, Round(u.ops).0), s)
  {
    hide Exec, Good, Carried, PeepholePass, FusePairs, Guarded, NotsFit;
    var a := With(u, PeepholePass(u.ops).0);
    PassKeeps(h, u, s);
    CarriedGives(h, u, a, s);
    var b := With(u, FusePairs(a.ops).0);
    FusePairsKeeps(h, a, s);
    CarriedTwice(h, u, a, b, s);
    CarriedGives(h, u, b, s);
    StripKeeps(h, b, s);
    CarriedTwice(h, u, b, StripCode(b), s);
  }

  lemma {:induction false} RoundsKeep(h: Host, u: Code, s: Run, n: nat)
    requires Good(h, u, s) && Guarded(u.ops) && NotsFit(h, u, s)
    ensures Carried(h, u, With(u, Rounds(u.ops, n)), s)
    decreases n
  {
    hide Exec, Good, Carried, Round, Guarded, NotsFit;
    CarriedSame(h, u, s);
    if n > 0 {
      var m := With(u, Round(u.ops).0);
      RoundKeeps(h, u, s);
      CarriedGives(h, u, m, s);
      if Round(u.ops).1 {
        RoundsKeep(h, m, s, n - 1);
        CarriedTwice(h, u, m, With(u, Rounds(u.ops, n)), s);
      }
    }
  }

  /** The optimised unit ends with the same value, completion or error, from
      every fresh start from which runs are orderly and every doubled negation
      may be dropped where it stands. */
  lemma PeepholeKeepsMeaning(h: Host, u: Code, s: Run)
    requires Good(h, u, s) && Guarded(u.ops) && NotsFit(h, u, s)
    ensures SameMeaning(h, u, Optimised(u), s)
    ensures Good(h, Optimised(u), s) && Guarded(Peephole(u.ops))
    ensures HoldersHaveRoom(h, u, s) ==> HoldersHaveRoom(h, Optimised(u), s)
    ensures Tame(h, u, s) ==> Tame(h, Optimised(u), s)
  {
    hide Exec, Good, Carried, Guarded, NotsFit, Rounds, HoldersHaveRoom, Tame;
    RoundsKeep(h, u, s, 8);
    CarriedGives(h, u, Optimised(u), s);
  }
}

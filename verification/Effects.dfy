/** What a rewriting step keeps — the outcomes of the unit, its shape, the order
    of its runs, the guard of its targets — and that every table entry is such
    a step. */
module Effects {
  import opened Options
  import opened Opcodes
  import opened Arith
  import opened Machine
  import opened Discipline
  import opened Rewriting
  import Stripping
  import opened Laws
  import opened Windows
  import opened Trampolines
  import opened Negations
  import opened Fates
  import opened Levels
  import opened Taming

  ghost predicate SameMeaning(h: Host, u: Code, v: Code, s: Run) {
    forall o :: Ends(h, u, s, o) <==> Ends(h, v, s, o)
  }

  /** A value may stand for its double negation: it is 0 or 1, or has a fate
      that does not tell the two apart. */
  predicate NotFits(h: Host, f: Fate, v: Val) { f.Always? || IsBit(v) || (f.IfBoolean? && Boolish(h, v)) }

  predicate NotFitsAt(h: Host, ops: seq<OpCode>, pc: nat, d: State) {
    OpAt(ops, pc) == Un(Not) ==> d.core.stack.Cons? && NotFits(h, FateAt(ops, pc + 1, true), d.core.stack.head)
  }

  /** So may the operand of every `Not` a run executes. */
  ghost predicate NotsFit(h: Host, u: Code, s: Run) {
    forall pc: nat, d | Reaches(h, u, s, Running(pc, d)) :: NotFitsAt(h, u.ops, pc, d)
  }

  /** Every store that drops its result finds room below its operand. */
  ghost predicate HoldersHaveRoom(h: Host, u: Code, s: Run) {
    forall pc: nat, d | Reaches(h, u, s, Running(pc, d)) && Holding(OpAt(u.ops, pc)) ::
        RoomFor(d.core, Innermost(d.loops), 1)
  }

  /** What compiled code gives the optimiser. */
  ghost predicate Good(h: Host, u: Code, s: Run) {
    Lawful(h) && NotsAgree(h) && Fresh(s) && WellFormed(u) && RunsOrderly(h, u, s)
  }

  ghost predicate Carried(h: Host, u: Code, v: Code, s: Run) {
    && Good(h, v, s) && SameMeaning(h, u, v, s)
    && (Guarded(u.ops) ==> Guarded(v.ops))
    && (NotsFit(h, u, s) ==> NotsFit(h, v, s))
    && (HoldersHaveRoom(h, u, s) ==> HoldersHaveRoom(h, v, s))
    && (Tame(h, u, s) ==> Tame(h, v, s))
  }

  lemma CarriedTwice(h: Host, u: Code, v: Code, w: Code, s: Run)
    requires Carried(h, u, v, s) && Carried(h, v, w, s)
    ensures Carried(h, u, w, s)
  {
    hide Good, Ends, Guarded, NotsFit, HoldersHaveRoom, Tame;
  }

  lemma RewriteKeepsNots(h: Host, u: Code, s: Run, i: nat, w: nat, v: OpCode)
    requires Window(u, i, w) && SameEffect(h, u, s, i, w, v) && Fresh(s) && v != Un(Not) && Blends(u.ops, i, w, v)
    requires NotsFit(h, u, s)
    ensures NotsFit(h, Replace(u, i, w, v), s)
  {
    hide Reaches, SameEffect, IsBit, Boolish, FateAt, Blends;
    var out := Replace(u, i, w, v);
    forall pc: nat, d | Reaches(h, out, s, Running(pc, d)) ensures NotFitsAt(h, out.ops, pc, d) {
      if OpAt(out.ops, pc) == Un(Not) {
        var s' := RewriteCame(h, u, s, i, w, v, Running(pc, d));
        assert NotFitsAt(h, u.ops, pc, d) && OpAt(u.ops, pc) == Un(Not);
        FateRewritten(u.ops, i, w, v, pc + 1, true);
      }
    }
  }

  lemma StripKeepsNots(h: Host, u: Code, s: Run)
    requires Fresh(s) && NotsFit(h, u, s)
    ensures NotsFit(h, Stripping.StripCode(u), s)
  {
    hide Reaches, IsBit, Boolish, FateAt;
    var out := Stripping.StripCode(u);
    forall pc: nat, d | Reaches(h, out, s, Running(pc, d)) ensures NotFitsAt(h, out.ops, pc, d) {
      if OpAt(out.ops, pc) == Un(Not) {
        var q, d' := Stripping.StripCame(h, u, s, Running(pc, d));
        assert NotFitsAt(h, u.ops, q, d') && OpAt(u.ops, q) == Un(Not);
        Stripping.ForwardAt(u.ops, q);
        FateStripped(u.ops, q + 1, true);
        StrippedAt(u.ops, q);
      }
    }
  }

  lemma FuseKeepsNots(h: Host, u: Code, s: Run, i: nat)
    requires TrampolineRule(u.ops, i).Some? && ForeachShaped(u) && RunsOrderly(h, u, s) && Fresh(s)
    requires NotsFit(h, u, s)
    ensures NotsFit(h, Fused(u, i), s)
  {
    hide Reaches, IsBit, Boolish, FateAt, RunsOrderly, Blends;
    var v := TrampolineRule(u.ops, i).value;
    var f, mid, out := Single(u.ops, i), Rewritten(u.ops, i, 2, v), Fused(u, i);
    TrampolineBlends(u.ops, i);
    forall pc: nat, d | Reaches(h, out, s, Running(pc, d)) ensures NotFitsAt(h, out.ops, pc, d) {
      if OpAt(out.ops, pc) == Un(Not) {
        var s' := FuseCame(h, u, s, i, Running(pc, d));
        assert out.ops[pc] == MapOp(mid[pc], f);
        assert s'.pc == pc && NotFitsAt(h, u.ops, pc, s'.d) && OpAt(u.ops, pc) == Un(Not);
        FateMapped(mid, f, pc + 1, true);
        FateRewritten(u.ops, i, 2, v, pc + 1, true);
      }
    }
  }

  /** Such a store comes from a window that starts where there is room. */
  predicate Held(ops: seq<OpCode>, i: nat, w: int, v: OpCode) {
    1 <= w && i + w <= |ops| && (Holding(v) ==> ops[i].Store? || (w >= 2 && ops[i] == SubEnd && Holding(ops[i + 1])))
  }

  lemma HeldHasRoom(h: Host, u: Code, s: Run, i: nat, w: nat, v: OpCode, d: State)
    requires 1 <= w && i + w <= |u.ops| && Held(u.ops, i, w, v) && Holding(v)
    requires RunsOrderly(h, u, s) && HoldersHaveRoom(h, u, s) && Reaches(h, u, s, Running(i, d))
    ensures RoomFor(d.core, Innermost(d.loops), 1)
  {
    hide Exec, Reaches;
    if u.ops[i].Store? {
      assert Orderly(u, Running(i, d));
    } else {
      ReachesStep(h, u, s, Running(i, d), 1);
      ClosedStep(h, u, i, d);
      var d1 := State(Closed(d.core), d.loops);
      assert Reaches(h, u, s, Running(i + 1, d1));
    }
  }

  lemma ClosedStep(h: Host, u: Code, i: nat, d: State)
    requires i < |u.ops| && OpAt(u.ops, i) == SubEnd
    ensures Steps(h, u, Running(i, d), 1) == Now(i + 1, State(Closed(d.core), d.loops))
  {
    assert Steps(h, u, Running(i, d), 1) == Step(h, u, Running(i, d));
  }

  lemma RewriteKeepsRoom(h: Host, u: Code, s: Run, i: nat, w: nat, v: OpCode)
    requires Window(u, i, w) && SameEffect(h, u, s, i, w, v) && Fresh(s) && Held(u.ops, i, w, v)
    requires RunsOrderly(h, u, s) && HoldersHaveRoom(h, u, s)
    ensures HoldersHaveRoom(h, Replace(u, i, w, v), s)
  {
    hide Reaches, SameEffect, RunsOrderly, RoomFor, Held;
    var out := Replace(u, i, w, v);
    forall pc: nat, d | Reaches(h, out, s, Running(pc, d)) && Holding(OpAt(out.ops, pc))
      ensures RoomFor(d.core, Innermost(d.loops), 1)
    {
      var s' := RewriteCame(h, u, s, i, w, v, Running(pc, d));
      if pc == i { HeldHasRoom(h, u, s, i, w, v, d); }
      else { assert Reaches(h, u, s, Running(pc, d)) && OpAt(u.ops, pc) == OpAt(out.ops, pc); }
    }
  }

  lemma StripKeepsRoom(h: Host, u: Code, s: Run)
    requires Fresh(s) && HoldersHaveRoom(h, u, s)
    ensures HoldersHaveRoom(h, Stripping.StripCode(u), s)
  {
    hide Reaches;
    var out := Stripping.StripCode(u);
    forall pc: nat, d | Reaches(h, out, s, Running(pc, d)) && Holding(OpAt(out.ops, pc))
      ensures RoomFor(d.core, Innermost(d.loops), 1)
    {
      var q, d' := Stripping.StripCame(h, u, s, Running(pc, d));
      assert Holding(OpAt(u.ops, q));
    }
  }

  lemma FuseKeepsRoom(h: Host, u: Code, s: Run, i: nat)
    requires TrampolineRule(u.ops, i).Some? && ForeachShaped(u) && RunsOrderly(h, u, s) && Fresh(s)
    requires HoldersHaveRoom(h, u, s)
    ensures HoldersHaveRoom(h, Fused(u, i), s)
  {
    hide Reaches, RunsOrderly, RoomFor;
    var f, out := Single(u.ops, i), Fused(u, i);
    forall pc: nat, d | Reaches(h, out, s, Running(pc, d)) && Holding(OpAt(out.ops, pc))
      ensures RoomFor(d.core, Innermost(d.loops), 1)
    {
      var s' := FuseCame(h, u, s, i, Running(pc, d));
      assert out.ops[pc] == MapOp(Rewritten(u.ops, i, 2, TrampolineRule(u.ops, i).value)[pc], f);
      assert s'.pc == pc && Holding(OpAt(u.ops, pc));
    }
  }

  /** Replacing a window by an equal instruction keeps everything. */
  lemma ReplaceKeeps(h: Host, u: Code, s: Run, i: nat, w: nat, v: OpCode)
    requires Good(h, u, s) && Window(u, i, w) && NamesNothingNew(u.ops, i, w, v) && KeepsRoles(u.ops, i, w, v)
    requires SameEffect(h, u, s, i, w, v) && !v.Store? && !StartsPass(v) && v != Un(Not) && Held(u.ops, i, w, v)
        && Blends(u.ops, i, w, v) && Quits(u.ops, i, w, v)
    ensures Carried(h, u, Replace(u, i, w, v), s)
  {
    hide Exec, SameEffect, NamesNothingNew, Window, WellFormed, RunsOrderly, Ends, Guarded, KeepsRoles, NotsFit,
        HoldersHaveRoom, Held, Blends, Tame, Quits;
    forall o ensures Ends(h, u, s, o) <==> Ends(h, Replace(u, i, w, v), s, o) {
      RewriteKeepsMeaning(h, u, s, i, w, v, o);
    }
    RewriteKeepsOrder(h, u, s, i, w, v);
    RewriteKeepsShape(u, i, w, v);
    if Guarded(u.ops) { RewriteKeepsGuard(u, i, w, v); }
    if NotsFit(h, u, s) { RewriteKeepsNots(h, u, s, i, w, v); }
    if HoldersHaveRoom(h, u, s) { RewriteKeepsRoom(h, u, s, i, w, v); }
    if Tame(h, u, s) { RewriteKeepsTame(h, u, s, i, w, v); }
  }

  lemma StripKeeps(h: Host, u: Code, s: Run)
    requires Good(h, u, s)
    ensures Carried(h, u, Stripping.StripCode(u), s)
  {
    hide RunsOrderly, Ends, Guarded, NotsFit, HoldersHaveRoom, Tame;
    forall o ensures Ends(h, u, s, o) <==> Ends(h, Stripping.StripCode(u), s, o) {
      Stripping.StripKeepsMeaning(h, u, s, o);
    }
    Stripping.StripKeepsOrder(h, u, s);
    Stripping.StripKeepsShape(u);
    if Guarded(u.ops) { Stripping.StripKeepsGuard(u.ops); }
    if NotsFit(h, u, s) { StripKeepsNots(h, u, s); }
    if HoldersHaveRoom(h, u, s) { StripKeepsRoom(h, u, s); }
    if Tame(h, u, s) { StripKeepsTame(h, u, s); }
  }

  lemma TrampolineKeeps(h: Host, u: Code, s: Run, i: nat)
    requires Good(h, u, s) && TrampolineRule(u.ops, i).Some?
    ensures Carried(h, u, Fused(u, i), s)
  {
    hide Exec, RunsOrderly, Ends, TrampolineRule, Guarded, NotsFit, HoldersHaveRoom, Tame;
    forall o ensures Ends(h, u, s, o) <==> Ends(h, Fused(u, i), s, o) {
      FuseKeepsMeaning(h, u, s, i, o);
    }
    FuseKeepsOrder(h, u, s, i);
    FuseKeepsShape(u, i);
    if Guarded(u.ops) { FuseKeepsGuard(u, i); }
    if NotsFit(h, u, s) { FuseKeepsNots(h, u, s, i); }
    if HoldersHaveRoom(h, u, s) { FuseKeepsRoom(h, u, s, i); }
    if Tame(h, u, s) { FuseKeepsTame(h, u, s, i); }
  }

  // ── effects of table windows ──

  lemma RoomAt(h: Host, u: Code, s: Run, i: nat, d: State)
    requires RunsOrderly(h, u, s) && i < |u.ops| && Reaches(h, u, s, Running(i, d))
    ensures RoomFor(d.core, Innermost(d.loops), if OpAt(u.ops, i).Store? then 1 else 0)
  {
    hide Reaches;
    assert Orderly(u, Running(i, d));
  }

  lemma TripleEffect(h: Host, u: Code, s: Run, i: nat, v: OpCode)
    requires RunsOrderly(h, u, s) && i + 3 <= |u.ops| && Lawful(h) && Words(u.ops)
    requires var a, b, e := OpAt(u.ops, i), OpAt(u.ops, i + 1), OpAt(u.ops, i + 2);
             || SlotRule(a, b, e) == Some(v) || FoldRule(a, b, e) == Some(v) || FuseTriple(a, b, e) == Some(v)
    ensures SameEffect(h, u, s, i, 3, v)
  {
    hide ExecCore, RunsOrderly, Exec, Three;
    var a, b, e := u.ops[i], u.ops[i + 1], u.ops[i + 2];
    TripleKinds(a, b, e, v);
    assert u.ops[i..i + 3] == [a, b, e];
    forall d | Reaches(h, u, s, Running(i, d))
      ensures ExecSeq(h, u.infos, u.ops[i..i + 3], d) == Exec(h, u.infos, v, d)
    {
      RoomAt(h, u, s, i, d);
      TripleAt(h, u.infos, a, b, e, v, d);
    }
  }

  lemma TripleKinds(a: OpCode, b: OpCode, e: OpCode, v: OpCode)
    requires SlotRule(a, b, e) == Some(v) || FoldRule(a, b, e) == Some(v) || FuseTriple(a, b, e) == Some(v)
    ensures !IsLoopOp(a) && !IsLoopOp(b) && !IsLoopOp(e) && !IsLoopOp(v)
    ensures !a.Store? && !v.Store? && !StartsPass(v)
  {
  }

  lemma TripleAt(h: Host, infos: seq<ForeachInfo>, a: OpCode, b: OpCode, e: OpCode, v: OpCode, d: State)
    requires SlotRule(a, b, e) == Some(v) || FoldRule(a, b, e) == Some(v) || FuseTriple(a, b, e) == Some(v)
    requires Lawful(h) && RoomFor(d.core, Innermost(d.loops), 0)
    requires a.Push? && a.lit.Int? ==> InI64(a.lit.n)
    requires b.Push? && b.lit.Int? ==> InI64(b.lit.n)
    ensures ExecSeq(h, infos, [a, b, e], d) == Exec(h, infos, v, d)
  {
    hide ExecCore;
    var c, top := d.core, Innermost(d.loops);
    TripleKinds(a, b, e, v);
    Seq3(h, infos, a, b, e, d);
    if FuseTriple(a, b, e) == Some(v) { FuseTripleSound(h, a, b, e, c, top); }
    else if FoldRule(a, b, e) == Some(v) { FoldSound(h, a, b, e, c, top); }
    else { OperandSound(h, a, b, e, c, top); }
  }

  /** The operand of every `Not; Not` reached at `i` is 0 or 1. */
  ghost predicate BitOperand(h: Host, u: Code, s: Run, i: nat) {
    forall d | Reaches(h, u, s, Running(i, d)) :: d.core.stack.Cons? && IsBit(d.core.stack.head)
  }

  lemma PairAt(h: Host, infos: seq<ForeachInfo>, a: OpCode, b: OpCode, v: OpCode, d: State)
    requires PairRule(a, b) == Some((v, 2)) || FusePair(a, b) == Some(v)
    requires RoomFor(d.core, Innermost(d.loops), if a.Store? then 1 else 0)
    requires a == Un(Not) ==> d.core.stack.Cons? && IsBit(d.core.stack.head)
    ensures ExecSeq(h, infos, [a, b], d) == Exec(h, infos, v, d)
  {
    hide ExecCore;
    var c, top := d.core, Innermost(d.loops);
    Seq2(h, infos, a, b, d);
    if FusePair(a, b) == Some(v) { FusePairSound(h, a, b, c, top); }
    else { PairSound(h, a, b, c, top); }
  }

  lemma PairKinds(a: OpCode, b: OpCode)
    requires PairRule(a, b).Some? || FusePair(a, b).Some?
    ensures !IsLoopOp(a) && !IsLoopOp(b)
    ensures PairRule(a, b).Some? ==> PairRule(a, b).value.1 in {1, 2} && !IsLoopOp(PairRule(a, b).value.0)
    ensures PairRule(a, b).Some? ==> !PairRule(a, b).value.0.Store? && !StartsPass(PairRule(a, b).value.0)
    ensures FusePair(a, b).Some? ==> !FusePair(a, b).value.Store? && !StartsPass(FusePair(a, b).value)
  {
  }

  lemma PairEffect(h: Host, u: Code, s: Run, i: nat, v: OpCode)
    requires RunsOrderly(h, u, s) && i + 2 <= |u.ops|
    requires PairRule(OpAt(u.ops, i), OpAt(u.ops, i + 1)) == Some((v, 2))
        || FusePair(OpAt(u.ops, i), OpAt(u.ops, i + 1)) == Some(v)
    requires OpAt(u.ops, i) == Un(Not) ==> BitOperand(h, u, s, i)
    ensures SameEffect(h, u, s, i, 2, v)
  {
    hide RunsOrderly, Exec;
    assert u.ops[i..i + 2] == [u.ops[i], u.ops[i + 1]];
    forall d | Reaches(h, u, s, Running(i, d))
      ensures ExecSeq(h, u.infos, u.ops[i..i + 2], d) == Exec(h, u.infos, v, d)
    {
      RoomAt(h, u, s, i, d);
      PairAt(h, u.infos, u.ops[i], u.ops[i + 1], v, d);
    }
  }

  lemma LiteralEffect(h: Host, u: Code, s: Run, i: nat, v: OpCode)
    requires i + 2 <= |u.ops| && PairRule(OpAt(u.ops, i), OpAt(u.ops, i + 1)) == Some((v, 1))
    ensures SameEffect(h, u, s, i, 1, v)
  {
    hide ExecCore, Reaches;
    assert u.ops[i..i + 1] == [u.ops[i]];
    PairKinds(u.ops[i], u.ops[i + 1]);
    forall d | Reaches(h, u, s, Running(i, d))
      ensures ExecSeq(h, u.infos, u.ops[i..i + 1], d) == Exec(h, u.infos, v, d)
    {
      ExecOne(h, u.infos, u.ops[i..i + 1], d);
      LiteralSound(h, u.ops[i], u.ops[i + 1], d.core, Innermost(d.loops));
    }
  }

  lemma QuadEffect(h: Host, u: Code, s: Run, i: nat, v: OpCode)
    requires i + 4 <= |u.ops| && FuseQuad(OpAt(u.ops, i), OpAt(u.ops, i + 1), OpAt(u.ops, i + 2), OpAt(u.ops, i + 3))
        == Some(v)
    ensures SameEffect(h, u, s, i, 4, v)
  {
    hide ExecCore, Reaches;
    var a, b, e, g := u.ops[i], u.ops[i + 1], u.ops[i + 2], u.ops[i + 3];
    assert u.ops[i..i + 4] == [a, b, e, g];
    forall d | Reaches(h, u, s, Running(i, d))
      ensures ExecSeq(h, u.infos, u.ops[i..i + 4], d) == Exec(h, u.infos, v, d)
    {
      Seq4(h, u.infos, a, b, e, g, d);
      FuseQuadSound(h, a, b, e, g, d.core, Innermost(d.loops));
    }
  }
}

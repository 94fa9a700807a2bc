/** Replacing one window of instructions by one instruction and no-ops. */
module Rewriting {
  import opened Opcodes
  import opened Arith
  import opened Machine
  import opened Simulation
  import opened Discipline

  /** `v` in place of the `w` instructions from `i`; the tail becomes no-ops. */
  function Rewritten(ops: seq<OpCode>, i: nat, w: int, v: OpCode): (r: seq<OpCode>)
    ensures |r| == |ops|
  {
    seq(|ops|, j requires 0 <= j < |ops| => if j == i then v else if i < j < i + w then Nop else ops[j])
  }

  /** Straight-line execution of a window. */
  function ExecSeq(h: Host, infos: seq<ForeachInfo>, ops: seq<OpCode>, d: State): Ctl {
    if ops == [] then Fall(d)
    else
      var r := Exec(h, infos, ops[0], d);
      if r.Fall? then ExecSeq(h, infos, ops[1..], r.d) else r
  }

  lemma ExecOne(h: Host, infos: seq<ForeachInfo>, ops: seq<OpCode>, d: State)
    requires |ops| == 1
    ensures ExecSeq(h, infos, ops, d) == Exec(h, infos, ops[0], d)
  {
    hide Exec;
    var r := Exec(h, infos, ops[0], d);
    assert ops[1..] == [];
    if r.Fall? { assert ExecSeq(h, infos, ops[1..], r.d) == Fall(r.d); }
  }

  lemma {:induction false} WindowRun(h: Host, u: Code, i: nat, w: nat, d: State) returns (k: nat)
    requires 1 <= w && i + w <= |u.ops|
    ensures 1 <= k <= w
    ensures Steps(h, u, Running(i, d), k) == After(i + w - 1, ExecSeq(h, u.infos, u.ops[i..i + w], d))
    decreases w
  {
    hide Exec;
    var r := Exec(h, u.infos, u.ops[i], d);
    var win := u.ops[i..i + w];
    assert win[0] == u.ops[i] && win[1..] == u.ops[i + 1..i + w];
    assert Steps(h, u, Running(i, d), 1) == After(i, r);
    if r.Fall? && w > 1 {
      var m := WindowRun(h, u, i + 1, w - 1, r.d);
      StepsAdd(h, u, Running(i, d), 1, m);
      k := 1 + m;
    } else {
      if r.Fall? { assert ExecSeq(h, u.infos, win[1..], r.d) == Fall(r.d); }
      k := 1;
    }
  }

  ghost predicate NoTargetInside(ops: seq<OpCode>, i: nat, w: int) {
    forall j, t: nat | 0 <= j < |ops| && Targets(ops[j], t) :: Free(t, i, w)
  }

  lemma {:induction false} ExecSeqFree(h: Host, u: Code, j: nat, n: nat, d: State, i: nat, w: nat)
    requires j + n <= |u.ops| && NoTargetInside(u.ops, i, w) && LoopsFree(d.loops, i, w)
    ensures CtlFree(ExecSeq(h, u.infos, u.ops[j..j + n], d), i, w)
    decreases n
  {
    hide Exec;
    if n > 0 {
      var r := Exec(h, u.infos, u.ops[j], d);
      assert u.ops[j..j + n][0] == u.ops[j] && u.ops[j..j + n][1..] == u.ops[j + 1..j + n];
      ExecFree(h, u.infos, u.ops[j], d, i, w);
      if r.Fall? { ExecSeqFree(h, u, j + 1, n - 1, r.d, i, w); }
    }
  }

  /** One instruction that does what the window does, in every state a run of
      the unit brings to the window's head. */
  ghost predicate SameEffect(h: Host, u: Code, s: Run, i: nat, w: int, v: OpCode) {
    0 <= w && i + w <= |u.ops| && forall d | Reaches(h, u, s, Running(i, d)) ::
      ExecSeq(h, u.infos, u.ops[i..i + w], d) == Exec(h, u.infos, v, d)
  }

  function Replace(u: Code, i: nat, w: int, v: OpCode): Code { u.(ops := Rewritten(u.ops, i, w, v)) }

  ghost predicate Window(u: Code, i: nat, w: int) {
    1 <= w && i + w <= |u.ops| && NoTargetInside(u.ops, i, w)
  }

  /** Equal states; after the window `t` may still be crossing its no-ops. */
  predicate Linked(i: nat, w: int, s: Run, t: Run) {
    && (s.Halted? ==> t == s)
    && (s.Running? ==>
          && t.Running? && t.d == s.d
          && LoopsFree(s.d.loops, i, w) && Free(s.pc, i, w)
          && (t.pc == s.pc || (s.pc == i + w && i < t.pc < i + w)))
  }

  ghost predicate WindowRel(h: Host, u: Code, s0: Run, i: nat, w: int, s: Run, t: Run) {
    Reaches(h, u, s0, s) && Linked(i, w, s, t)
  }

  function WindowRank(i: nat, w: int, t: Run): nat {
    if t.Running? && i < t.pc < i + w then i + w - t.pc else 0
  }

  lemma AfterFree(pc: nat, r: Ctl, i: nat, w: nat)
    requires CtlFree(r, i, w) && Free(pc + 1, i, w)
    ensures After(pc, r).Running? ==> Free(After(pc, r).pc, i, w) && LoopsFree(After(pc, r).d.loops, i, w)
  {
    if r.Raise? { RouteFree(r.f, r.d, i, w); }
  }

  lemma AtHead(h: Host, u: Code, s0: Run, i: nat, w: nat, v: OpCode, d: State) returns (k: nat)
    requires Window(u, i, w) && SameEffect(h, u, s0, i, w, v)
    requires Reaches(h, u, s0, Running(i, d)) && LoopsFree(d.loops, i, w)
    ensures k >= 1
    ensures Linked(i, w, Steps(h, u, Running(i, d), k), Step(h, Replace(u, i, w, v), Running(i, d)))
  {
    hide Exec;
    k := WindowRun(h, u, i, w, d);
    ExecSeqFree(h, u, i, w, d, i, w);
    AfterFree(i + w - 1, ExecSeq(h, u.infos, u.ops[i..i + w], d), i, w);
    assert Step(h, Replace(u, i, w, v), Running(i, d)) == After(i, Exec(h, u.infos, v, d));
  }

  lemma Elsewhere(h: Host, u: Code, i: nat, w: nat, v: OpCode, pc: nat, d: State)
    requires Window(u, i, w) && Free(pc, i, w) && pc != i && LoopsFree(d.loops, i, w)
    ensures Linked(i, w, Step(h, u, Running(pc, d)), Step(h, Replace(u, i, w, v), Running(pc, d)))
  {
    hide Exec;
    if pc < |u.ops| {
      var op := u.ops[pc];
      var r := Exec(h, u.infos, op, d);
      ExecFree(h, u.infos, op, d, i, w);
      AfterFree(pc, r, i, w);
      assert Step(h, u, Running(pc, d)) == After(pc, r);
      assert Step(h, Replace(u, i, w, v), Running(pc, d)) == After(pc, r);
    }
  }

  lemma WindowBlock(h: Host, u: Code, s0: Run, i: nat, w: nat, v: OpCode, s: Run, t: Run) returns (k: nat)
    requires Window(u, i, w) && SameEffect(h, u, s0, i, w, v)
    requires WindowRel(h, u, s0, i, w, s, t) && s.Running?
    ensures WindowRel(h, u, s0, i, w, Steps(h, u, s, k), Step(h, Replace(u, i, w, v), t))
    ensures k == 0 ==> WindowRank(i, w, Step(h, Replace(u, i, w, v), t)) < WindowRank(i, w, t)
  {
    hide Exec;
    if t.pc != s.pc {
      k := 0;
      NopFalls(h, u.infos, t.d);
      assert Step(h, Replace(u, i, w, v), t) == Running(t.pc + 1, t.d);
    } else {
      if s.pc == i {
        k := AtHead(h, u, s0, i, w, v, s.d);
      } else {
        k := 1;
        Elsewhere(h, u, i, w, v, s.pc, s.d);
        assert Steps(h, u, s, 1) == Step(h, u, s);
      }
      ReachesStep(h, u, s0, s, k);
    }
  }

  lemma WindowSimulates(h: Host, u: Code, s0: Run, i: nat, w: nat, v: OpCode)
    requires Window(u, i, w) && SameEffect(h, u, s0, i, w, v)
    ensures Simulates(h, u, Replace(u, i, w, v),
                      (s, t) => WindowRel(h, u, s0, i, w, s, t), (s, t) => WindowRank(i, w, t))
  {
    hide Exec;
    var rel, rank := (s, t) => WindowRel(h, u, s0, i, w, s, t), (s: Run, t: Run) => WindowRank(i, w, t);
    var out := Replace(u, i, w, v);
    forall s, t | rel(s, t) && s.Running?
      ensures exists k: nat, j: nat :: Block(h, u, out, rel, rank, s, t, k, j)
    {
      var k := WindowBlock(h, u, s0, i, w, v, s, t);
      assert Steps(h, out, t, 1) == Step(h, out, t);
      assert Block(h, u, out, rel, rank, s, t, k, 1);
    }
  }

  lemma FreshRelated(h: Host, u: Code, s: Run, i: nat, w: nat)
    requires Fresh(s)
    ensures WindowRel(h, u, s, i, w, s, s)
  {
    hide Exec;
    assert Steps(h, u, s, 0) == s;
  }

  /** Same outcomes from a fresh start. */
  lemma RewriteKeepsMeaning(h: Host, u: Code, s: Run, i: nat, w: nat, v: OpCode, o: Outcome)
    requires Window(u, i, w) && SameEffect(h, u, s, i, w, v) && Fresh(s)
    ensures Ends(h, u, s, o) <==> Ends(h, Replace(u, i, w, v), s, o)
  {
    hide Exec;
    WindowSimulates(h, u, s, i, w, v);
    FreshRelated(h, u, s, i, w);
    SameEnds(h, u, Replace(u, i, w, v),
             (s', t) => WindowRel(h, u, s, i, w, s', t), (s', t) => WindowRank(i, w, t), s, s, o);
  }

  /** Every state the rewritten unit reaches, the original reaches too. */
  lemma RewriteCame(h: Host, u: Code, s: Run, i: nat, w: nat, v: OpCode, t: Run) returns (s': Run)
    requires Window(u, i, w) && SameEffect(h, u, s, i, w, v) && Fresh(s)
    requires Reaches(h, Replace(u, i, w, v), s, t)
    ensures Reaches(h, u, s, s') && Linked(i, w, s', t)
  {
    hide Exec, Step;
    var out := Replace(u, i, w, v);
    WindowSimulates(h, u, s, i, w, v);
    FreshRelated(h, u, s, i, w);
    var n: nat :| Steps(h, out, s, n) == t;
    CameFrom(h, u, out, (s', t) => WindowRel(h, u, s, i, w, s', t), (s', t) => WindowRank(i, w, t), s, s, n);
    s' :| Reaches(h, u, s, s') && WindowRel(h, u, s, i, w, s', t);
  }

  lemma RewriteKeepsOrder(h: Host, u: Code, s: Run, i: nat, w: nat, v: OpCode)
    requires Window(u, i, w) && SameEffect(h, u, s, i, w, v) && Fresh(s)
    requires !v.Store? && !StartsPass(v)
    requires RunsOrderly(h, u, s)
    ensures RunsOrderly(h, Replace(u, i, w, v), s)
  {
    hide Exec, SameEffect, Reaches;
    var out := Replace(u, i, w, v);
    forall t | Reaches(h, out, s, t) ensures Orderly(out, t) {
      var s' := RewriteCame(h, u, s, i, w, v, t);
      LinkedOrder(u, i, w, v, s', t);
    }
  }

  lemma LinkedOrder(u: Code, i: nat, w: nat, v: OpCode, s: Run, t: Run)
    requires 1 <= w && i + w <= |u.ops| && !v.Store? && !StartsPass(v)
    requires Linked(i, w, s, t) && Orderly(u, s)
    ensures Orderly(Replace(u, i, w, v), t)
  {
  }

  // ── the shape survives ──

  /** The replacement plays the landing and closing roles of its window. */
  predicate KeepsRoles(ops: seq<OpCode>, i: nat, w: int, v: OpCode) {
    && 1 <= w && i + w <= |ops|
    && !ops[i].Nop? && !ops[i + w - 1].Nop?
    && (Landing(ops[i]) ==> Landing(v))
    && (Barrier(ops[i + w - 1]) ==> Barrier(v))
  }

  /** It names no new target, foreach or wide literal, and is no body mark. */
  ghost predicate NamesNothingNew(ops: seq<OpCode>, i: nat, w: int, v: OpCode) {
    && 1 <= w && i + w <= |ops|
    && !IsBodyMark(ops[i]) && !IsNext(v) && (v.Push? && v.lit.Int? ==> InI64(v.lit.n))
    && forall t: nat | Targets(v, t) :: exists j :: i <= j < i + w && Targets(ops[j], t)
  }

  lemma {:induction false} LandsRewritten(ops: seq<OpCode>, i: nat, w: nat, v: OpCode, t: nat)
    requires 1 <= w && i + w <= |ops| && Free(t, i, w) && !ops[i].Nop?
    ensures var a, b := Lands(ops, t), Lands(Rewritten(ops, i, w, v), t);
            a == b || (t <= i && a == ops[i])
    ensures t <= i && Lands(ops, t) == ops[i] && !v.Nop? && Landing(ops[i]) ==>
        Landing(Lands(Rewritten(ops, i, w, v), t)) || !Landing(v)
    decreases |ops| - t
  {
    if t < |ops| && t != i { LandsRewritten(ops, i, w, v, t + 1); }
  }

  lemma {:induction false} BeforeRewritten(ops: seq<OpCode>, i: nat, w: nat, v: OpCode, t: nat)
    requires 1 <= w && i + w <= |ops| && Free(t, i, w) && !ops[i + w - 1].Nop?
    ensures var a, b := Before(ops, t), Before(Rewritten(ops, i, w, v), t);
            a == b || (a == ops[i + w - 1] && (v.Nop? || b == v))
  {
    if 0 < t <= |ops| {
      if t == i + w { BeforeGap(ops, i, w, v, t); } else { BeforeRewritten(ops, i, w, v, t - 1); }
    }
  }

  lemma {:induction false} BeforeGap(ops: seq<OpCode>, i: nat, w: nat, v: OpCode, t: nat)
    requires i < t <= i + w <= |ops|
    ensures !v.Nop? ==> Before(Rewritten(ops, i, w, v), t) == v
  {
    if t > i + 1 { BeforeGap(ops, i, w, v, t - 1); }
  }

  lemma GuardRewritten(ops: seq<OpCode>, i: nat, w: nat, v: OpCode, t: nat)
    requires 1 <= w && i + w <= |ops| && Free(t, i, w) && KeepsRoles(ops, i, w, v) && GuardedAt(ops, t)
    ensures GuardedAt(Rewritten(ops, i, w, v), t)
  {
    hide Exec;
    LandsRewritten(ops, i, w, v, t);
    BeforeRewritten(ops, i, w, v, t);
  }

  lemma RewriteKeepsGuard(u: Code, i: nat, w: nat, v: OpCode)
    requires Window(u, i, w) && KeepsRoles(u.ops, i, w, v) && NamesNothingNew(u.ops, i, w, v) && Guarded(u.ops)
    ensures Guarded(Rewritten(u.ops, i, w, v))
  {
    hide KeepsRoles, NamesNothingNew;
    var out := Rewritten(u.ops, i, w, v);
    forall j, t: nat | 0 <= j < |out| && Targets(out[j], t) ensures GuardedAt(out, t) {
      var j' := OldTarget(u.ops, i, w, v, j, t);
      GuardRewritten(u.ops, i, w, v, t);
    }
  }

  lemma RewriteKeepsShape(u: Code, i: nat, w: nat, v: OpCode)
    requires Window(u, i, w) && NamesNothingNew(u.ops, i, w, v) && WellFormed(u)
    ensures WellFormed(Replace(u, i, w, v))
  {
    var out := Rewritten(u.ops, i, w, v);
    forall j, t: nat | 0 <= j < |out| && Targets(out[j], t) ensures t <= |out| {
      var j' := OldTarget(u.ops, i, w, v, j, t);
    }
    ForeachSurvives(u, i, w, v);
  }

  lemma ForeachSurvives(u: Code, i: nat, w: nat, v: OpCode)
    requires Window(u, i, w) && NamesNothingNew(u.ops, i, w, v) && ForeachShaped(u)
    ensures ForeachShaped(Replace(u, i, w, v))
  {
    var out := Rewritten(u.ops, i, w, v);
    forall j | 0 <= j < |out| && IsNext(out[j])
      ensures out[j].l.info < |u.infos| && out[j].l.body < |out|
      ensures out[out[j].l.body] == BodyMarkFor(u.infos[out[j].l.info].framed)
    {
      assert u.ops[j] == out[j] && Targets(u.ops[j], out[j].l.body);
      var b := u.ops[j].l.body;
      assert Free(b, i, w) && u.ops[b] == BodyMarkFor(u.infos[u.ops[j].l.info].framed);
      assert out[b] == u.ops[b];
    }
  }

  lemma OldTarget(ops: seq<OpCode>, i: nat, w: nat, v: OpCode, j: nat, t: nat) returns (j': nat)
    requires 1 <= w && i + w <= |ops| && NamesNothingNew(ops, i, w, v)
    requires j < |ops| && Targets(Rewritten(ops, i, w, v)[j], t)
    ensures j' < |ops| && Targets(ops[j'], t)
  {
    if j == i {
      j' :| i <= j' < i + w && Targets(ops[j'], t);
    } else {
      j' := j;
    }
  }
}

/** Fusing a jump with the mark it leads to.  Jumps to the swallowed mark are
    retargeted to the fused instruction, which brings the region stack to the
    loop's entry state whichever way it was reached. */
module Trampolines {
  import opened Options
  import opened Opcodes
  import opened Arith
  import opened Machine
  import opened Simulation
  import opened Discipline
  import opened Rewriting
  import opened Stripping

  /** The fused form of the jump at `i` and the loop control right after it. */
  function TrampolineRule(ops: seq<OpCode>, i: nat): Option<OpCode> {
    if i + 1 < |ops| && ops[i] == Jump(i + 1) then
      match ops[i + 1]
      case Mark(NextMark) => Some(Super(SwapToNextMark))
      case Loop(ForeachNext(info, body)) =>
        if body < |ops| && IsBodyMark(ops[body]) then Some(Super(ForeachNextClose(info, body + 1))) else None
      case _ => None
    else None
  }

  function MapAll(ops: seq<OpCode>, f: seq<nat>): (r: seq<OpCode>)
    ensures |r| == |ops|
  {
    seq(|ops|, j requires 0 <= j < |ops| => MapOp(ops[j], f))
  }

  /** Everything stays, except that `i + 1` becomes `i`. */
  function Single(ops: seq<OpCode>, i: nat): (f: seq<nat>)
    ensures |f| == |ops| + 1
  {
    seq(|ops| + 1, t requires 0 <= t <= |ops| => if t == i + 1 then i else t)
  }

  lemma SingleBySize(a: seq<OpCode>, b: seq<OpCode>, i: nat)
    requires |a| == |b|
    ensures Single(a, i) == Single(b, i)
  {
  }

  function Fused(u: Code, i: nat): Code {
    match TrampolineRule(u.ops, i)
    case None => u
    case Some(v) => u.(ops := MapAll(Rewritten(u.ops, i, 2, v), Single(u.ops, i)))
  }

  predicate FusedLinked(ops: seq<OpCode>, i: nat, s: Run, t: Run) {
    && (s.Halted? ==> t == s)
    && (s.Running? ==>
          && t.Running? && t.d == MapState(s.d, Single(ops, i))
          && (t.pc == At(Single(ops, i), s.pc) || (s.pc == i + 2 && t.pc == i + 1)))
  }

  ghost predicate FusedRel(h: Host, u: Code, s0: Run, i: nat, s: Run, t: Run) {
    Reaches(h, u, s0, s) && FusedLinked(u.ops, i, s, t)
  }

  function FusedRank(i: nat, t: Run): nat { if t.Running? && t.pc == i + 1 then 1 else 0 }

  // ── one block ──

  /** Away from the window both sides take the same step. */
  lemma FarStep(h: Host, u: Code, i: nat, pc: nat, d: State)
    requires TrampolineRule(u.ops, i).Some? && pc != i && pc != i + 1
    ensures FusedLinked(u.ops, i, Step(h, u, Running(pc, d)),
                        Step(h, Fused(u, i), Now(At(Single(u.ops, i), pc), MapState(d, Single(u.ops, i)))))
  {
    hide Exec;
    var f := Single(u.ops, i);
    if pc < |u.ops| {
      assert Fused(u, i).ops[pc] == MapOp(u.ops[pc], f);
      ExecMapped(h, u.infos, u.ops[pc], d, f);
      var r := Exec(h, u.infos, u.ops[pc], d);
      if r.Raise? { RouteMapped(r.f, r.d, f); }
    }
  }

  /** The fused instruction's step. */
  lemma FusedStep(h: Host, u: Code, i: nat, d: State)
    requires TrampolineRule(u.ops, i).Some?
    ensures Step(h, Fused(u, i), Running(i, MapState(d, Single(u.ops, i))))
         == After(i, MapCtl(Exec(h, u.infos, TrampolineRule(u.ops, i).value, d), Single(u.ops, i)))
  {
    hide Exec;
    var v := TrampolineRule(u.ops, i).value;
    ExecMapped(h, u.infos, v, d, Single(u.ops, i));
    assert Fused(u, i).ops[i] == MapOp(v, Single(u.ops, i));
  }

  lemma StepOnce(h: Host, u: Code, pc: nat, d: State)
    requires pc < |u.ops|
    ensures Steps(h, u, Running(pc, d), 1) == After(pc, Exec(h, u.infos, u.ops[pc], d))
  {
    hide Exec;
    assert Steps(h, u, Running(pc, d), 1) == Step(h, u, Running(pc, d));
  }

  /** The mark, executed in a state the fused instruction brings about. */
  lemma MarkBlock(h: Host, u: Code, i: nat, n: State, d: State) returns (k: nat)
    requires TrampolineRule(u.ops, i).Some? && ForeachShaped(u)
    requires OrderlyAt(u, OpAt(u.ops, i + 1), n)
    requires n == State(Normalized(d.core, Innermost(d.loops)), d.loops)
    ensures k >= 1
    ensures FusedLinked(u.ops, i, Steps(h, u, Now(i + 1, n), k),
                        Step(h, Fused(u, i), Running(i, MapState(d, Single(u.ops, i)))))
  {
    hide Exec, Normalized, Step;
    var f, out := Single(u.ops, i), Fused(u, i);
    var v := TrampolineRule(u.ops, i).value;
    FusedStep(h, u, i, d);
    var r := Exec(h, u.infos, u.ops[i + 1], n);
    var r' := Exec(h, u.infos, v, d);
    StepOnce(h, u, i + 1, n);
    k := 1;
    if u.ops[i + 1] == Mark(NextMark) {
      SwapIsMark(h, u, n, d);
    } else {
      CloseIsNext(h, u, i, n, d);
      if r.Goto? {
        k := 2;
        TwoSteps(h, u, i + 1, n, r.t, r.d, r'.d);
      } else if r.Raise? {
        RouteMapped(r.f, r.d, f);
      }
    }
  }

  lemma TwoSteps(h: Host, u: Code, pc: nat, d: State, t: nat, d1: State, d2: State)
    requires pc < |u.ops| && t < |u.ops|
    requires Exec(h, u.infos, OpAt(u.ops, pc), d) == Goto(t, d1) && Exec(h, u.infos, OpAt(u.ops, t), d1) == Fall(d2)
    ensures Steps(h, u, Running(pc, d), 2) == Now(t + 1, d2)
  {
    hide Exec;
    StepOnce(h, u, pc, d);
    StepOnce(h, u, t, d1);
    StepsAdd(h, u, Running(pc, d), 1, 1);
  }

  lemma SwapIsMark(h: Host, u: Code, n: State, d: State)
    requires n == State(Normalized(d.core, Innermost(d.loops)), d.loops)
    ensures Exec(h, u.infos, Super(SwapToNextMark), d) == Exec(h, u.infos, Mark(NextMark), n)
    ensures Exec(h, u.infos, Mark(NextMark), n).Fall?
  {
    hide Normalized;
  }

  /** The fused close and the plain advance agree; on a taken edge the former
      has also crossed the body mark. */
  lemma CloseIsNext(h: Host, u: Code, i: nat, n: State, d: State)
    requires TrampolineRule(u.ops, i).Some? && IsNext(OpAt(u.ops, i + 1)) && ForeachShaped(u)
    requires OrderlyAt(u, OpAt(u.ops, i + 1), n)
    requires n == State(Normalized(d.core, Innermost(d.loops)), d.loops)
    ensures var r, r' := Exec(h, u.infos, OpAt(u.ops, i + 1), n), Exec(h, u.infos, TrampolineRule(u.ops, i).value, d);
            if r.Goto? then
              && r.t == OpAt(u.ops, i + 1).l.body
              && r' == Goto(r.t + 1, r'.d)
              && Exec(h, u.infos, OpAt(u.ops, r.t), r.d) == Fall(r'.d)
            else r' == r
  {
    hide Normalized;
    var info, body := u.ops[i + 1].l.info, u.ops[i + 1].l.body;
    var c, top := n.core, Innermost(n.loops);
    assert Exec(h, u.infos, u.ops[i + 1], n) == Lift(Advance(h, c, info, body, false, top), n.loops);
    assert Exec(h, u.infos, TrampolineRule(u.ops, i).value, d)
        == Lift(Advance(h, c, info, body + 1, true, top), n.loops);
    assert u.ops[body] == BodyMarkFor(u.infos[info].framed);
    BodyMarkFalls(h, u.infos, u.infos[info].framed, State(Advance(h, c, info, body, false, top).c, n.loops));
  }

  lemma BodyMarkFalls(h: Host, infos: seq<ForeachInfo>, framed: bool, d: State)
    ensures Exec(h, infos, BodyMarkFor(framed), d)
         == Fall(State(Marked(d.core, if framed then BodyMarkFramed else BodyMark), d.loops))
  {
  }

  /** The jump before the mark leaves exactly the normalised state. */
  lemma JumpNormalizes(h: Host, u: Code, i: nat, d: State)
    requires TrampolineRule(u.ops, i).Some?
    ensures Step(h, u, Running(i, d)) == Now(i + 1, State(Closed(d.core), d.loops))
    ensures OrderlyAt(u, OpAt(u.ops, i + 1), State(Closed(d.core), d.loops))
            ==> Closed(d.core) == Normalized(d.core, Innermost(d.loops))
  {
    assert Exec(h, u.infos, Jump(i + 1), d) == Goto(i + 1, State(Closed(d.core), d.loops));
    if OrderlyAt(u, u.ops[i + 1], State(Closed(d.core), d.loops)) { ClosedOnce(u, u.ops[i + 1], d); }
  }

  lemma ClosedOnce(u: Code, op: OpCode, d: State)
    requires StartsPass(op) && OrderlyAt(u, op, State(Closed(d.core), d.loops))
    ensures Closed(d.core) == Normalized(d.core, Innermost(d.loops))
  {
    var b, n := d.core.bodies, d.loops.head.at.bodiesLen;
    if b.Cons? { assert Truncate(b.tail, n) == b.tail; }
  }

  lemma FusedBlock(h: Host, u: Code, s0: Run, i: nat, s: Run, t: Run) returns (k: nat)
    requires TrampolineRule(u.ops, i).Some? && ForeachShaped(u) && RunsOrderly(h, u, s0)
    requires FusedRel(h, u, s0, i, s, t) && s.Running?
    ensures FusedRel(h, u, s0, i, Steps(h, u, s, k), Step(h, Fused(u, i), t))
    ensures k == 0 ==> FusedRank(i, Step(h, Fused(u, i), t)) < FusedRank(i, t)
  {
    hide Exec;
    var f := Single(u.ops, i);
    if t.pc == i + 1 {
      k := 0;
      assert Fused(u, i).ops[i + 1] == Nop;
      NopFalls(h, u.infos, t.d);
    } else if s.pc == i {
      JumpNormalizes(h, u, i, s.d);
      var n := State(Closed(s.d.core), s.d.loops);
      ReachesStep(h, u, s0, s, 1);
      assert Steps(h, u, s, 1) == Running(i + 1, n);
      assert Orderly(u, Running(i + 1, n));
      var m := MarkBlock(h, u, i, n, s.d);
      StepsAdd(h, u, s, 1, m);
      k := 1 + m;
    } else if s.pc == i + 1 {
      assert Orderly(u, s);
      assert Normalized(s.d.core, Innermost(s.d.loops)) == s.d.core;
      k := MarkBlock(h, u, i, s.d, s.d);
    } else {
      k := 1;
      FarStep(h, u, i, s.pc, s.d);
      assert Steps(h, u, s, 1) == Step(h, u, s);
    }
    ReachesStep(h, u, s0, s, k);
  }

  lemma FusedSimulates(h: Host, u: Code, s0: Run, i: nat)
    requires TrampolineRule(u.ops, i).Some? && ForeachShaped(u) && RunsOrderly(h, u, s0)
    ensures Simulates(h, u, Fused(u, i),
                      (s, t) => FusedRel(h, u, s0, i, s, t), (s, t) => FusedRank(i, t))
  {
    hide Step;
    var rel, rank := (s, t) => FusedRel(h, u, s0, i, s, t), (s: Run, t: Run) => FusedRank(i, t);
    forall s, t | rel(s, t) && s.Running?
      ensures exists k: nat, j: nat :: Block(h, u, Fused(u, i), rel, rank, s, t, k, j)
    {
      var k := FusedBlock(h, u, s0, i, s, t);
      assert Steps(h, Fused(u, i), t, 1) == Step(h, Fused(u, i), t);
      assert Block(h, u, Fused(u, i), rel, rank, s, t, k, 1);
    }
  }

  lemma FreshFused(h: Host, u: Code, s: Run, i: nat)
    requires Fresh(s)
    ensures FusedRel(h, u, s, i, s, s)
  {
    hide Exec;
    assert Steps(h, u, s, 0) == s;
  }

  /** Same outcomes from a fresh start. */
  lemma FuseKeepsMeaning(h: Host, u: Code, s: Run, i: nat, o: Outcome)
    requires TrampolineRule(u.ops, i).Some? && ForeachShaped(u) && RunsOrderly(h, u, s) && Fresh(s)
    ensures Ends(h, u, s, o) <==> Ends(h, Fused(u, i), s, o)
  {
    hide Exec;
    FusedSimulates(h, u, s, i);
    FreshFused(h, u, s, i);
    SameEnds(h, u, Fused(u, i), (s', t) => FusedRel(h, u, s, i, s', t), (s', t) => FusedRank(i, t), s, s, o);
  }

  // ── orderly runs and the shape survive ──

  lemma FusedOrder(u: Code, i: nat, s: Run, t: Run)
    requires TrampolineRule(u.ops, i).Some?
    requires FusedLinked(u.ops, i, s, t) && Orderly(u, s)
    ensures Orderly(Fused(u, i), t)
  {
    var f := Single(u.ops, i);
    if t.Running? && t.pc < |u.ops| {
      if t.pc == i {
        assert Fused(u, i).ops[i] == MapOp(TrampolineRule(u.ops, i).value, f);
      } else if t.pc == i + 1 {
        assert Fused(u, i).ops[i + 1] == Nop;
      } else {
        assert Fused(u, i).ops[t.pc] == MapOp(u.ops[t.pc], f);
      }
    }
  }

  /** Every state the fused unit reaches, the original reaches too. */
  lemma FuseCame(h: Host, u: Code, s: Run, i: nat, t: Run) returns (s': Run)
    requires TrampolineRule(u.ops, i).Some? && ForeachShaped(u) && RunsOrderly(h, u, s) && Fresh(s)
    requires Reaches(h, Fused(u, i), s, t)
    ensures Reaches(h, u, s, s') && FusedLinked(u.ops, i, s', t)
  {
    hide Step;
    FusedSimulates(h, u, s, i);
    FreshFused(h, u, s, i);
    var n: nat :| Steps(h, Fused(u, i), s, n) == t;
    CameFrom(h, u, Fused(u, i), (s', t) => FusedRel(h, u, s, i, s', t), (s', t) => FusedRank(i, t), s, s, n);
    s' :| Reaches(h, u, s, s') && FusedRel(h, u, s, i, s', t);
  }

  lemma FuseKeepsOrder(h: Host, u: Code, s: Run, i: nat)
    requires TrampolineRule(u.ops, i).Some? && ForeachShaped(u) && RunsOrderly(h, u, s) && Fresh(s)
    ensures RunsOrderly(h, Fused(u, i), s)
  {
    hide Step, Reaches, TrampolineRule;
    forall t | Reaches(h, Fused(u, i), s, t) && t.Running? ensures Orderly(Fused(u, i), t) {
      var s' := FuseCame(h, u, s, i, t);
      FusedOrder(u, i, s', t);
    }
  }

  lemma {:induction false} LandsMapped(ops: seq<OpCode>, f: seq<nat>, t: nat)
    ensures Lands(MapAll(ops, f), t) == MapOp(Lands(ops, t), f)
    decreases |ops| - t
  {
    if t < |ops| {
      MapKeepsRole(ops[t], f);
      LandsMapped(ops, f, t + 1);
    }
  }

  lemma {:induction false} BeforeMapped(ops: seq<OpCode>, f: seq<nat>, t: nat)
    ensures Before(MapAll(ops, f), t) == MapOp(Before(ops, t), f)
  {
    if 0 < t <= |ops| {
      MapKeepsRole(ops[t - 1], f);
      BeforeMapped(ops, f, t - 1);
    }
  }

  lemma GuardMappedAll(ops: seq<OpCode>, f: seq<nat>, t: nat)
    ensures GuardedAt(MapAll(ops, f), t) == GuardedAt(ops, t)
  {
    LandsMapped(ops, f, t);
    BeforeMapped(ops, f, t);
    MapKeepsRole(Lands(ops, t), f);
    MapKeepsRole(Before(ops, t), f);
  }

  /** Where a target of the fused unit comes from: a renamed target of the
      original, or the instruction after a body mark. */
  lemma FusedTarget(u: Code, i: nat, j: nat, t: nat) returns (t0: nat)
    requires TrampolineRule(u.ops, i).Some? && j < |u.ops| && Targets(Fused(u, i).ops[j], t)
    ensures t == At(Single(u.ops, i), t0)
    ensures || (exists j' :: 0 <= j' < |u.ops| && Targets(u.ops[j'], t0))
            || (0 < t0 <= |u.ops| && IsBodyMark(OpAt(u.ops, t0 - 1)))
  {
    var v := TrampolineRule(u.ops, i).value;
    var mid := Rewritten(u.ops, i, 2, v);
    assert Fused(u, i).ops[j] == MapOp(mid[j], Single(u.ops, i));
    t0 := MappedTarget(mid[j], Single(u.ops, i), t);
  }

  lemma FusedGuard(u: Code, i: nat, t0: nat)
    requires TrampolineRule(u.ops, i).Some? && t0 <= |u.ops|
    requires GuardedAt(u.ops, t0) || (0 < t0 && IsBodyMark(OpAt(u.ops, t0 - 1)))
    ensures GuardedAt(Rewritten(u.ops, i, 2, TrampolineRule(u.ops, i).value), At(Single(u.ops, i), t0))
  {
    var v := TrampolineRule(u.ops, i).value;
    var mid := Rewritten(u.ops, i, 2, v);
    if t0 == i + 1 {
      assert Lands(mid, i) == v;
    } else {
      GuardRewritten(u.ops, i, 2, v, t0);
    }
  }

  lemma FuseKeepsGuard(u: Code, i: nat)
    requires TrampolineRule(u.ops, i).Some? && Guarded(u.ops) && InRange(u.ops)
    ensures Guarded(Fused(u, i).ops)
  {
    hide GuardedAt, TrampolineRule;
    var out := Fused(u, i).ops;
    forall j, t: nat | 0 <= j < |out| && Targets(out[j], t) ensures GuardedAt(out, t) {
      var t0 := FusedTarget(u, i, j, t);
      FusedGuard(u, i, t0);
      GuardMappedAll(Rewritten(u.ops, i, 2, TrampolineRule(u.ops, i).value), Single(u.ops, i), t);
    }
  }

  lemma FuseKeepsForeach(u: Code, i: nat)
    requires TrampolineRule(u.ops, i).Some? && ForeachShaped(u)
    ensures ForeachShaped(Fused(u, i))
  {
    var v, f := TrampolineRule(u.ops, i).value, Single(u.ops, i);
    var mid, out := Rewritten(u.ops, i, 2, v), Fused(u, i).ops;
    forall j | 0 <= j < |out| && IsNext(out[j])
      ensures out[j].l.info < |u.infos| && out[j].l.body < |out|
      ensures out[out[j].l.body] == BodyMarkFor(u.infos[out[j].l.info].framed)
    {
      assert out[j] == MapOp(mid[j], f) && mid[j] == u.ops[j];
      var b := u.ops[j].l.body;
      assert u.ops[b] == BodyMarkFor(u.infos[u.ops[j].l.info].framed);
      assert b != i && b != i + 1;
      assert out[b] == MapOp(u.ops[b], f);
    }
  }

  lemma FuseKeepsShape(u: Code, i: nat)
    requires TrampolineRule(u.ops, i).Some? && WellFormed(u)
    ensures WellFormed(Fused(u, i))
  {
    var f, out := Single(u.ops, i), Fused(u, i).ops;
    FuseKeepsForeach(u, i);
    forall j, t: nat | 0 <= j < |out| && Targets(out[j], t) ensures t <= |out| {
      var t0 := FusedTarget(u, i, j, t);
    }
    forall j | 0 <= j < |out| && out[j].Push? && out[j].lit.Int? ensures InI64(out[j].lit.n) {
      assert out[j] == MapOp(Rewritten(u.ops, i, 2, TrampolineRule(u.ops, i).value)[j], f);
      assert u.ops[j] == out[j];
    }
  }
}

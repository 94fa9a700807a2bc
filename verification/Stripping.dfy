/** Removing no-ops: old pc `p` becomes the number of instructions kept before
    `p`, which is also the new place of the first kept one at or after `p`. */
module Stripping {
  import opened Opcodes
  import opened Arith
  import opened Machine
  import opened Simulation
  import opened Discipline

  function Kept(ops: seq<OpCode>, i: nat): (n: nat)
    requires i <= |ops|
    ensures n <= i
  {
    if i == 0 then 0 else Kept(ops, i - 1) + (if ops[i - 1].Nop? then 0 else 1)
  }

  function Forward(ops: seq<OpCode>): (f: seq<nat>)
    ensures |f| == |ops| + 1
  {
    seq(|ops| + 1, i requires 0 <= i <= |ops| => Kept(ops, i))
  }

  /** The kept ones among the first `n`, their targets renamed. */
  function Squeeze(ops: seq<OpCode>, n: nat, f: seq<nat>): seq<OpCode>
    requires n <= |ops|
  {
    if n == 0 then []
    else Squeeze(ops, n - 1, f) + (if ops[n - 1].Nop? then [] else [MapOp(ops[n - 1], f)])
  }

  function Strip(ops: seq<OpCode>): seq<OpCode> { Squeeze(ops, |ops|, Forward(ops)) }

  function StripCode(u: Code): Code { u.(ops := Strip(u.ops)) }

  lemma {:induction false} KeptGrows(ops: seq<OpCode>, i: nat, j: nat)
    requires i <= j <= |ops|
    ensures Kept(ops, i) <= Kept(ops, j) <= Kept(ops, i) + (j - i)
  {
    if i < j { KeptGrows(ops, i, j - 1); }
  }

  lemma {:induction false} SqueezeSize(ops: seq<OpCode>, n: nat, f: seq<nat>)
    requires n <= |ops|
    ensures |Squeeze(ops, n, f)| == Kept(ops, n)
  {
    if n > 0 { SqueezeSize(ops, n - 1, f); }
  }

  lemma {:induction false} SqueezeAt(ops: seq<OpCode>, n: nat, f: seq<nat>, i: nat)
    requires i < n <= |ops| && !ops[i].Nop?
    ensures Kept(ops, i) < |Squeeze(ops, n, f)|
    ensures Squeeze(ops, n, f)[Kept(ops, i)] == MapOp(ops[i], f)
  {
    SqueezeSize(ops, n - 1, f);
    if i < n - 1 { SqueezeAt(ops, n - 1, f, i); }
  }

  /** Every instruction of the result is a kept one, at its forwarded place. */
  lemma {:induction false} SqueezeFrom(ops: seq<OpCode>, n: nat, f: seq<nat>, q: nat) returns (i: nat)
    requires n <= |ops| && q < |Squeeze(ops, n, f)|
    ensures i < n && !ops[i].Nop? && Kept(ops, i) == q && Squeeze(ops, n, f)[q] == MapOp(ops[i], f)
  {
    SqueezeSize(ops, n - 1, f);
    if q < |Squeeze(ops, n - 1, f)| { i := SqueezeFrom(ops, n - 1, f, q); } else { i := n - 1; }
  }

  // ── exact simulation ──

  lemma ForwardAt(ops: seq<OpCode>, pc: nat)
    ensures At(Forward(ops), pc) == if pc <= |ops| then Kept(ops, pc) else Kept(ops, |ops|)
  {
  }

  lemma StripStep(h: Host, u: Code, pc: nat, d: State)
    ensures pc < |u.ops| && u.ops[pc].Nop? ==>
              Step(h, u, Running(pc, d)) == Now(pc + 1, d)
              && At(Forward(u.ops), pc + 1) == At(Forward(u.ops), pc)
    ensures !(pc < |u.ops| && u.ops[pc].Nop?) ==>
              Step(h, StripCode(u), MapRun(Running(pc, d), Forward(u.ops)))
              == MapRun(Step(h, u, Running(pc, d)), Forward(u.ops))
  {
    hide Exec;
    NopFalls(h, u.infos, d);
    var f := Forward(u.ops);
    ForwardAt(u.ops, pc);
    ForwardAt(u.ops, pc + 1);
    SqueezeSize(u.ops, |u.ops|, f);
    if pc < |u.ops| && !u.ops[pc].Nop? {
      SqueezeAt(u.ops, |u.ops|, f, pc);
      ExecMapped(h, u.infos, u.ops[pc], d, f);
      var r := Exec(h, u.infos, u.ops[pc], d);
      if r.Raise? { RouteMapped(r.f, r.d, f); }
    }
  }

  ghost predicate StripRel(u: Code, s: Run, t: Run) { t == MapRun(s, Forward(u.ops)) }

  function StripRank(u: Code, s: Run): nat {
    if s.Running? && s.pc < |u.ops| then |u.ops| - s.pc else 0
  }

  lemma StripSimulates(h: Host, u: Code)
    ensures Simulates(h, u, StripCode(u), (s, t) => StripRel(u, s, t), (s, t) => StripRank(u, s))
  {
    hide Exec;
    var rel, rank := (s, t) => StripRel(u, s, t), (s: Run, t: Run) => StripRank(u, s);
    forall s, t | rel(s, t) && s.Running?
      ensures exists k: nat, j: nat :: Block(h, u, StripCode(u), rel, rank, s, t, k, j)
    {
      StripStep(h, u, s.pc, s.d);
      assert Steps(h, u, s, 1) == Step(h, u, s) && Steps(h, StripCode(u), t, 1) == Step(h, StripCode(u), t);
      if s.pc < |u.ops| && u.ops[s.pc].Nop? {
        assert Steps(h, StripCode(u), t, 0) == t;
        assert Block(h, u, StripCode(u), rel, rank, s, t, 1, 0);
      } else {
        assert Block(h, u, StripCode(u), rel, rank, s, t, 1, 1);
      }
    }
  }

  lemma FreshMapped(ops: seq<OpCode>, s: Run)
    requires Fresh(s)
    ensures MapRun(s, Forward(ops)) == s
  {
    ForwardAt(ops, 0);
  }

  /** Same outcomes from every fresh start. */
  lemma StripKeepsMeaning(h: Host, u: Code, s: Run, o: Outcome)
    requires Fresh(s)
    ensures Ends(h, u, s, o) <==> Ends(h, StripCode(u), s, o)
  {
    hide Exec;
    StripSimulates(h, u);
    FreshMapped(u.ops, s);
    SameEnds(h, u, StripCode(u), (s, t) => StripRel(u, s, t), (s, t) => StripRank(u, s), s, s, o);
  }

  /** No no-op is left; the unit has one instruction per kept one. */
  lemma StripLeavesNoNop(ops: seq<OpCode>)
    ensures |Strip(ops)| == Kept(ops, |ops|)
    ensures forall q | 0 <= q < |Strip(ops)| :: !Strip(ops)[q].Nop?
  {
    SqueezeSize(ops, |ops|, Forward(ops));
    forall q | 0 <= q < |Strip(ops)| ensures !Strip(ops)[q].Nop? {
      var i := SqueezeFrom(ops, |ops|, Forward(ops), q);
    }
  }

  /** A transfer leads to its own instruction or earlier (and so costs a step
      of the budget) before the compaction exactly when it does after it. */
  lemma StripKeepsBackEdges(ops: seq<OpCode>, i: nat, t: nat)
    requires i < |ops| && !ops[i].Nop? && t <= |ops|
    ensures t <= i <==> At(Forward(ops), t) <= Kept(ops, i)
    ensures At(Forward(ops), t) <= |Strip(ops)|
  {
    SqueezeSize(ops, |ops|, Forward(ops));
    KeptGrows(ops, t, |ops|);
    if t <= i { KeptGrows(ops, t, i); } else { KeptGrows(ops, i + 1, t); }
  }

  // ── the shape survives ──

  lemma {:induction false} LandsStripped(ops: seq<OpCode>, t: nat)
    requires t <= |ops|
    ensures Lands(Strip(ops), Kept(ops, t)) == MapOp(Lands(ops, t), Forward(ops))
    decreases |ops| - t
  {
    StripLeavesNoNop(ops);
    if t < |ops| {
      if ops[t].Nop? { LandsStripped(ops, t + 1); } else { SqueezeAt(ops, |ops|, Forward(ops), t); }
    }
  }

  lemma {:induction false} BeforeStripped(ops: seq<OpCode>, t: nat)
    requires t <= |ops|
    ensures Before(Strip(ops), Kept(ops, t)) == MapOp(Before(ops, t), Forward(ops))
  {
    StripLeavesNoNop(ops);
    KeptGrows(ops, t, |ops|);
    if t > 0 {
      if ops[t - 1].Nop? { BeforeStripped(ops, t - 1); } else { SqueezeAt(ops, |ops|, Forward(ops), t - 1); }
    }
  }

  /** What a renamed instruction targets is a renamed target. */
  lemma MappedTarget(op: OpCode, f: seq<nat>, t: nat) returns (t0: nat)
    requires Targets(MapOp(op, f), t)
    ensures Targets(op, t0) && t == At(f, t0)
  {
    match op
    case Jump(x) => t0 := x;
    case JumpIf(_, x) => t0 := x;
    case CatchStart(x) => t0 := x;
    case Loop(l) =>
      match l {
        case LoopEnter(c, b) => t0 := if t == At(f, c) then c else b;
        case ForeachStart(_, n, e) => t0 := if t == At(f, n) then n else e;
        case ForeachNext(_, b) => t0 := b;
      }
    case Super(g) =>
      match g {
        case ForeachNextClose(_, b) => t0 := b;
        case CmpRRJump(_, _, _, _, x) => t0 := x;
        case CmpRIJump(_, _, _, _, x) => t0 := x;
        case ForNextIncr(_, _, _, x) => t0 := x;
      }
  }

  /** Renaming that moves none of its targets leaves an instruction alone. */
  lemma UnmovedOp(op: OpCode, f: seq<nat>)
    requires forall t: nat | Targets(op, t) :: At(f, t) == t
    ensures MapOp(op, f) == op
  {
    hide Exec;
    match op
    case Jump(t) => assert Targets(op, t);
    case JumpIf(_, t) => assert Targets(op, t);
    case CatchStart(t) => assert Targets(op, t);
    case Loop(l) =>
      match l {
        case LoopEnter(c, b) => assert Targets(op, c) && Targets(op, b);
        case ForeachStart(_, a, e) => assert Targets(op, a) && Targets(op, e);
        case ForeachNext(_, b) => assert Targets(op, b);
        case _ =>
      }
    case Super(g) =>
      match g {
        case ForeachNextClose(_, b) => assert Targets(op, b);
        case CmpRRJump(_, _, _, _, t) => assert Targets(op, t);
        case CmpRIJump(_, _, _, _, t) => assert Targets(op, t);
        case ForNextIncr(_, _, _, t) => assert Targets(op, t);
        case _ =>
      }
    case _ =>
  }

  lemma GuardMapped(ops: seq<OpCode>, t: nat)
    requires t <= |ops| && GuardedAt(ops, t)
    ensures GuardedAt(Strip(ops), Kept(ops, t))
  {
    LandsStripped(ops, t);
    BeforeStripped(ops, t);
    MapKeepsRole(Lands(ops, t), Forward(ops));
    MapKeepsRole(Before(ops, t), Forward(ops));
  }

  lemma MapKeepsRole(op: OpCode, f: seq<nat>)
    ensures Landing(MapOp(op, f)) == Landing(op) && Barrier(MapOp(op, f)) == Barrier(op)
    ensures MapOp(op, f).Nop? == op.Nop?
  {
  }

  lemma StripKeepsGuard(ops: seq<OpCode>)
    requires Guarded(ops) && InRange(ops)
    ensures Guarded(Strip(ops))
  {
    hide Exec;
    var f, v := Forward(ops), Strip(ops);
    forall q, t: nat | 0 <= q < |v| && Targets(v[q], t) ensures GuardedAt(v, t) {
      var i := SqueezeFrom(ops, |ops|, f, q);
      var t0 := MappedTarget(ops[i], f, t);
      GuardMapped(ops, t0);
    }
  }

  lemma StripKeepsRange(ops: seq<OpCode>)
    requires InRange(ops)
    ensures InRange(Strip(ops))
  {
    var f, v := Forward(ops), Strip(ops);
    SqueezeSize(ops, |ops|, f);
    forall q, t: nat | 0 <= q < |v| && Targets(v[q], t) ensures t <= |v| {
      var i := SqueezeFrom(ops, |ops|, f, q);
      var t0 := MappedTarget(ops[i], f, t);
      KeptGrows(ops, t0, |ops|);
    }
  }

  lemma ForeachStripped(u: Code)
    requires ForeachShaped(u)
    ensures ForeachShaped(StripCode(u))
  {
    var ops, f, v := u.ops, Forward(u.ops), Strip(u.ops);
    forall q | 0 <= q < |v| && IsNext(v[q])
      ensures v[q].l.info < |u.infos| && v[q].l.body < |v|
      ensures v[v[q].l.body] == BodyMarkFor(u.infos[v[q].l.info].framed)
    {
      var i := SqueezeFrom(ops, |ops|, f, q);
      assert IsNext(ops[i]);
      SqueezeAt(ops, |ops|, f, ops[i].l.body);
    }
  }

  lemma StripKeepsShape(u: Code)
    requires WellFormed(u)
    ensures WellFormed(StripCode(u))
  {
    var v := Strip(u.ops);
    StripKeepsRange(u.ops);
    ForeachStripped(u);
    forall q | 0 <= q < |v| && v[q].Push? && v[q].lit.Int? ensures InI64(v[q].lit.n) {
      var i := SqueezeFrom(u.ops, |u.ops|, Forward(u.ops), q);
    }
  }

  // ── so do orderly runs ──

  /** Past the no-ops in front of it. */
  lemma {:induction false} SkipNops(h: Host, u: Code, s: Run, pc: nat, d: State) returns (q: nat)
    requires Reaches(h, u, s, Running(pc, d))
    ensures q >= pc && (q < |u.ops| ==> !u.ops[q].Nop?)
    ensures Reaches(h, u, s, Running(q, d)) && At(Forward(u.ops), q) == At(Forward(u.ops), pc)
    decreases |u.ops| - pc
  {
    hide Exec;
    if pc < |u.ops| && u.ops[pc].Nop? {
      StripStep(h, u, pc, d);
      ReachesStep(h, u, s, Running(pc, d), 1);
      assert Steps(h, u, Running(pc, d), 1) == Running(pc + 1, d);
      q := SkipNops(h, u, s, pc + 1, d);
    } else {
      q := pc;
    }
  }

  /** Every state the stripped unit reaches, the original reaches in front of
      the same instruction. */
  lemma StripCame(h: Host, u: Code, s: Run, t: Run) returns (q: nat, d: State)
    requires Fresh(s) && Reaches(h, StripCode(u), s, t) && t.Running?
    ensures Reaches(h, u, s, Running(q, d)) && t.d == MapState(d, Forward(u.ops))
    ensures OpAt(Strip(u.ops), t.pc) == MapOp(OpAt(u.ops, q), Forward(u.ops))
    ensures t.pc == At(Forward(u.ops), q)
  {
    hide Exec;
    var f := Forward(u.ops);
    StripSimulates(h, u);
    FreshMapped(u.ops, s);
    var n: nat :| Steps(h, StripCode(u), s, n) == t;
    CameFrom(h, u, StripCode(u), (s, t) => StripRel(u, s, t), (s, t) => StripRank(u, s), s, s, n);
    var s' :| Reaches(h, u, s, s') && StripRel(u, s', t);
    d := s'.d;
    q := SkipNops(h, u, s, s'.pc, d);
    ForwardAt(u.ops, q);
    SqueezeSize(u.ops, |u.ops|, f);
    if q < |u.ops| { SqueezeAt(u.ops, |u.ops|, f, q); }
  }

  lemma StripKeepsOrder(h: Host, u: Code, s: Run)
    requires Fresh(s) && RunsOrderly(h, u, s)
    ensures RunsOrderly(h, StripCode(u), s)
  {
    hide Exec, Reaches;
    forall t | Reaches(h, StripCode(u), s, t) && t.Running? ensures Orderly(StripCode(u), t) {
      var q, d := StripCame(h, u, s, t);
      assert Orderly(u, Running(q, d));
      OrderMapped(u, OpAt(u.ops, q), d, Forward(u.ops));
    }
  }

  lemma OrderMapped(u: Code, op: OpCode, d: State, f: seq<nat>)
    requires OrderlyAt(u, op, d)
    ensures OrderlyAt(StripCode(u), MapOp(op, f), MapState(d, f))
  {
  }
}

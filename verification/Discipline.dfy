/** What the optimiser relies on: a static shape of the unit that every pass
    keeps, and an orderliness of its runs that compiled code has. */
module Discipline {
  import opened Opcodes
  import opened Arith
  import opened Machine

  // ── static shape ──

  predicate IsNext(op: OpCode) { op.Loop? && op.l.ForeachNext? }

  predicate IsBodyMark(op: OpCode) { op == Mark(BodyMark) || op == Mark(BodyMarkFramed) }

  predicate IsForTail(op: OpCode) { op.Super? && op.f.ForNextIncr? }

  /** Landing instructions that no rewritten window has in its tail. */
  predicate Landing(op: OpCode) {
    || (op.Loop? && (op.l.LoopExit? || op.l.ForeachNext? || op.l.ForeachEnd?))
    || op == Mark(NextMark) || IsBodyMark(op)
    || (op.Super? && (op.f.SwapToNextMark? || op.f.NextMarkBeginCmd? || op.f.ForNextIncr? || op.f.ForeachNextClose?))
  }

  /** Instructions that only ever end a window, and keep doing so when the
      window is replaced. */
  predicate Barrier(op: OpCode) {
    (op.Loop? && op.l.LoopEnter?) || op.Jump? || IsBodyMark(op) || IsForTail(op) || op == Push(Empty)
  }

  /** The first real instruction at or after `t`, `Nop` when there is none. */
  function Lands(ops: seq<OpCode>, t: int): OpCode
    decreases |ops| - t
  {
    if t < 0 || t >= |ops| then Nop else if ops[t].Nop? then Lands(ops, t + 1) else ops[t]
  }

  /** The last real instruction before `t`. */
  function Before(ops: seq<OpCode>, t: int): OpCode {
    if t <= 0 || t > |ops| then Nop else if ops[t - 1].Nop? then Before(ops, t - 1) else ops[t - 1]
  }

  /** Either the landing or what precedes it keeps `t` out of every window. */
  predicate GuardedAt(ops: seq<OpCode>, t: nat) {
    Lands(ops, t).Nop? || Before(ops, t).Nop? || Landing(Lands(ops, t)) || Barrier(Before(ops, t))
  }

  ghost predicate Guarded(ops: seq<OpCode>) {
    forall i, t: nat | 0 <= i < |ops| && Targets(ops[i], t) :: GuardedAt(ops, t)
  }

  ghost predicate InRange(ops: seq<OpCode>) {
    forall i, t: nat | 0 <= i < |ops| && Targets(ops[i], t) :: t <= |ops|
  }

  function BodyMarkFor(framed: bool): OpCode { Mark(if framed then BodyMarkFramed else BodyMark) }

  /** The back edge of every foreach leads to the mark of its own kind. */
  ghost predicate ForeachShaped(u: Code) {
    forall i | 0 <= i < |u.ops| && IsNext(u.ops[i]) ::
      && u.ops[i].l.info < |u.infos|
      && u.ops[i].l.body < |u.ops|
      && u.ops[u.ops[i].l.body] == BodyMarkFor(u.infos[u.ops[i].l.info].framed)
  }

  /** Integer literals are 64-bit words. */
  ghost predicate Words(ops: seq<OpCode>) {
    forall i | 0 <= i < |ops| && ops[i].Push? && ops[i].lit.Int? :: InI64(ops[i].lit.n)
  }

  ghost predicate WellFormed(u: Code) { InRange(u.ops) && ForeachShaped(u) && Words(u.ops) }

  // ── orderly runs ──

  predicate StartsPass(op: OpCode) { op == Mark(NextMark) || IsNext(op) }

  /** Operands stay above the innermost loop's entry; a loop's next pass
      starts with the regions it was entered with; a foreach advances the
      frame it opened. */
  predicate OrderlyAt(u: Code, op: OpCode, d: State) {
    && (d.loops.Cons? ==>
          d.loops.head.at.stackLen + (if op.Store? then 1 else 0) <= Depth(d.core.stack))
    && (StartsPass(op) ==>
          && d.loops.Cons?
          && Depth(d.core.bodies) == d.loops.head.at.bodiesLen
          && d.core.site == d.loops.head.at.owner)
    && (IsNext(op) && d.core.foreaches.Cons? && op.l.info < |u.infos| ==>
          d.core.foreaches.head.framed == u.infos[op.l.info].framed)
  }

  predicate Orderly(u: Code, s: Run) {
    s.Running? ==> OrderlyAt(u, OpAt(u.ops, s.pc), s.d)
  }

  ghost predicate RunsOrderly(h: Host, u: Code, s: Run) {
    forall t | Reaches(h, u, s, t) :: Orderly(u, t)
  }

  /** A fresh start: first instruction, no loop open. */
  predicate Fresh(s: Run) { s.Running? && s.pc == 0 && s.d.loops.Nil? }

  /** A unit about to start: nothing on any stack. */
  predicate Begun(s: Run) { Fresh(s) && s.d.core.stack.Nil? }

  lemma ReachesStep(h: Host, u: Code, s: Run, t: Run, k: nat)
    requires Reaches(h, u, s, t)
    ensures Reaches(h, u, s, Steps(h, u, t, k))
  {
    hide Step;
    var n: nat :| Steps(h, u, s, n) == t;
    StepsAdd(h, u, s, n, k);
  }

  // ── where control can go ──

  predicate Free(t: nat, i: nat, w: int) { !(i < t < i + w) }

  predicate LoopsFree(loops: List<LoopFrame>, i: nat, w: int) {
    loops.Cons? ==> Free(loops.head.cont, i, w) && Free(loops.head.brk, i, w) && LoopsFree(loops.tail, i, w)
  }

  predicate CtlFree(r: Ctl, i: nat, w: int) {
    (r.Goto? ==> Free(r.t, i, w)) && LoopsFree(r.d.loops, i, w)
  }

  /** Control only reaches what the instruction or an open loop names. */
  lemma ExecFree(h: Host, infos: seq<ForeachInfo>, op: OpCode, d: State, i: nat, w: nat)
    requires forall t: nat | Targets(op, t) :: Free(t, i, w)
    requires LoopsFree(d.loops, i, w)
    ensures CtlFree(Exec(h, infos, op, d), i, w)
  {
    hide ExecCore;
    if IsLoopOp(op) { LoopOpFree(h, infos, op, d, i, w); }
  }

  lemma LoopOpFree(h: Host, infos: seq<ForeachInfo>, op: OpCode, d: State, i: nat, w: nat)
    requires IsLoopOp(op)
    requires forall t: nat | Targets(op, t) :: Free(t, i, w)
    requires LoopsFree(d.loops, i, w)
    ensures CtlFree(Exec(h, infos, op, d), i, w)
  {
    hide ExecCore;
    match op.l
    case LoopEnter(c, b) => assert Targets(op, c) && Targets(op, b);
    case ForeachStart(_, n, e) => assert Targets(op, n) && Targets(op, e);
    case _ =>
  }

  lemma {:induction false} EscapeFree(f: Fault, d: State, i: nat, w: nat)
    requires LoopsFree(d.loops, i, w)
    ensures Escape(f, d).Running? ==> Free(Escape(f, d).pc, i, w) && LoopsFree(Escape(f, d).d.loops, i, w)
    decreases d.loops
  {
    if d.loops.Cons? {
      var l := d.loops.head;
      var c := d.core.(bodies := Truncate(d.core.bodies, l.at.bodiesLen),
                       stack := Truncate(d.core.stack, l.at.stackLen));
      EscapeFree(f, State(c, d.loops.tail), i, w);
    }
  }

  lemma RouteFree(f: Fault, d: State, i: nat, w: nat)
    requires LoopsFree(d.loops, i, w)
    ensures Route(f, d).Running? ==> Free(Route(f, d).pc, i, w) && LoopsFree(Route(f, d).d.loops, i, w)
  {
    if f.Cnt? && d.loops.Cons? {
      var c := d.core.(bodies := Truncate(d.core.bodies, d.loops.head.at.bodiesLen),
                       stack := Truncate(d.core.stack, d.loops.head.at.stackLen));
      EscapeFree(f, State(c, d.loops.tail), i, w);
    }
  }
}

/** What expanding superinstructions relies on: how deep the region stack is at
    the instructions that close regions, and where next scripts begin. */
module Levels {
  import opened Opcodes
  import opened Machine
  import opened Discipline

  /** The superinstructions that bring the region stack back to the loop's entry;
      their expansions leave it as it is. */
  predicate Swaps(op: OpCode) { op.Super? && (op.f.SwapToNextMark? || op.f.ForeachNextClose? || op.f.ForNextIncr?) }

  /** Instructions that close a region. */
  predicate Closing(op: OpCode) {
    op.SubEnd? || op.Jump?
    || (op.Super? && (op.f.SubEndStorePop? || op.f.SubEndReturn? || op.f.SubEndCall? || op.f.SubEndAdd?))
  }

  /** Instructions that leave a loop behind. */
  predicate Leaving(op: OpCode) { op == Loop(LoopExit) || op == Loop(ForeachEnd) }

  /** Instructions that advance an iteration. */
  predicate Advancing(op: OpCode) { IsNext(op) || (op.Super? && op.f.ForeachNextClose?) }

  /** Instructions in front of which no next script may be open. */
  predicate Nexting(op: OpCode) { StartsPass(op) || Swaps(op) || (op.Super? && op.f.NextMarkBeginCmd?) }

  /** No open loop is in its next script. */
  predicate NoNext(bodies: List<Region>, loops: List<LoopFrame>)
    decreases loops
  {
    loops.Cons? ==>
      !NextAbove(bodies, loops.head.at.bodiesLen) && NoNext(Truncate(bodies, loops.head.at.bodiesLen), loops.tail)
  }

  /** The innermost loop is an iteration. */
  predicate Iterates(ops: seq<OpCode>,
          loops: List<LoopFrame>) { loops.Cons? && OpAt(ops, loops.head.brk) == Loop(ForeachEnd) }

  /** A jump to the advance right behind it. */
  ghost predicate Adjacent(ops: seq<OpCode>, pc: nat) {
    pc < |ops| && ops[pc].Jump? && exists q: nat :: AdjacentTo(ops, pc, q)
  }

  predicate AdjacentTo(ops: seq<OpCode>, pc: nat, q: nat) {
    pc < q < |ops| && ops[pc].Jump? && pc < ops[pc].t <= q && IsNext(ops[q]) && forall k | pc < k < q :: ops[k].Nop?
  }

  /** How regions and loops stand in front of an instruction. */
  ghost predicate TameOn(ops: seq<OpCode>, pc: nat, bodies: List<Region>, loops: List<LoopFrame>) {
    var op := OpAt(ops, pc);
    && (loops.Cons? ==>
          && Leaving(OpAt(ops, loops.head.brk))
          && (Closing(op) ==> Depth(bodies) > loops.head.at.bodiesLen))
    && (Iterates(ops, loops) ==>
          && (Closing(op) ==> Depth(bodies) > loops.head.at.bodiesLen + 1 || Adjacent(ops, pc))
          && (Leaving(op) ==> Depth(bodies) == loops.head.at.bodiesLen))
    && (Nexting(op) ==> NoNext(bodies, loops))
    && (Swaps(op) || StartsPass(op) ==> loops.Cons?)
    && (Advancing(op) ==> loops.Cons? && loops.head.cont == pc && Iterates(ops, loops))
    && (op.Jump? && StartsPass(Lands(ops, op.t)) ==> NoNext(bodies, loops))
  }

  ghost predicate TameAt(ops: seq<OpCode>, pc: nat, d: State) { TameOn(ops, pc, d.core.bodies, d.loops) }

  /** Passes start behind instructions that are never rewritten away. */
  predicate Fenced(ops: seq<OpCode>) {
    forall pc | 0 <= pc < |ops| && StartsPass(ops[pc]) :: Barrier(Before(ops, pc))
  }

  /** Runs of flat code. */
  ghost predicate Tame(h: Host, u: Code, s: Run) {
    Fenced(u.ops) && forall pc: nat, d | Reaches(h, u, s, Running(pc, d)) :: TameAt(u.ops, pc, d)
  }
}

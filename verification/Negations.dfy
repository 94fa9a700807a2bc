/** Negations, and what takes the value they leave. */
module Negations {
  import opened Opcodes
  import opened Machine

  /** When a value may stand for its double negation: always, when it is read
      as a truth value by a branch, or never unless it is 0 or 1. */
  datatype Fate = Always | IfBoolean | Never

  /** From `q` on, `c` constants stay on top until something that is not
      constant arithmetic. */
  predicate Solid(ops: seq<OpCode>, q: int, c: int)
    decreases |ops| - q
  {
    q < 0 || q >= |ops| ||
    match ops[q]
    case Nop => Solid(ops, q + 1, c)
    case Push(_) => Solid(ops, q + 1, c + 1)
    case Pop => c > 1 && Solid(ops, q + 1, c - 1)
    case Bin(_) => c > 1 ==> Solid(ops, q + 1, c - 1)
    case Un(op) => op.Not? ==> Solid(ops, q + 1, c)
    case _ => true
  }

  /** The fate at `q` of a value negated an odd or an even number of times. */
  function FateAt(ops: seq<OpCode>, q: int, odd: bool): Fate
    decreases |ops| - q
  {
    var plain := if odd then Always else Never;
    if q < 0 || q >= |ops| then plain
    else match ops[q]
      case Nop => FateAt(ops, q + 1, odd)
      case Un(op) => if op.Not? then FateAt(ops, q + 1, !odd) else plain
      case JumpIf(_, _) => if odd then Always else IfBoolean
      case Push(_) => if odd && Solid(ops, q + 1, 1) then Always else Never
      case _ => plain
  }

  /** A fate with branches taken for readers of the value, if `strict`. */
  function Reading(strict: bool, f: Fate): Fate { if strict && f.IfBoolean? then Never else f }
}

/** What proofs ask of a host, and of the operands an instruction finds. */
module Laws {
  import opened Options
  import opened Opcodes
  import opened Machine

  /** Swapping the operands of a comparison mirrors it. */
  ghost predicate Lawful(h: Host) {
    && (forall a, b :: h.cmp(Lt, a, b) == h.cmp(Gt, b, a))
    && (forall a, b :: h.cmp(Le, a, b) == h.cmp(Ge, b, a))
    && (forall a, b :: h.cmp(Eq, a, b) == h.cmp(Eq, b, a))
    && (forall a, b :: h.cmp(Ne, a, b) == h.cmp(Ne, b, a))
  }

  /** Negating text, where that is possible, answers 0 or 1, and a branch reads
      the text accordingly. */
  ghost predicate NotsAgree(h: Host) {
    forall v: Val :: v.Other? && h.un(Not, v).Ok? ==>
      IsBit(h.un(Not, v).v) && h.truth(v) == Says(h.un(Not, v).v == Num(0))
  }

  predicate IsBit(v: Val) { v == Num(0) || v == Num(1) }

  /** What `!` can be taken of. */
  predicate Boolish(h: Host, v: Val) { v.Num? || h.un(Not, v).Ok? }

  /** Stores that drop their result: their window holds the value while it
      stores. */
  predicate Holding(op: OpCode) { op.Super? && (op.f.StorePop? || op.f.SubEndStorePop?) }

  predicate RoomFor(c: Core, top: Option<Entry>, n: int) {
    top.Some? ==> top.value.stackLen + n <= Depth(c.stack)
  }
}

/** Integer arithmetic of `expr`: the exact unbounded semantics, the 64-bit
    machine operations the constant folder uses, and their agreement. */
module Arith {
  import opened Options
  import opened Opcodes

  const MAX64: int := 0x7fff_ffff_ffff_ffff
  const MIN64: int := -0x8000_0000_0000_0000

  predicate InI64(n: int) { MIN64 <= n <= MAX64 }

  function Pow2(n: nat): (p: int)
    ensures p > 0
  {
    if n == 0 then 1 else 2 * Pow2(n - 1)
  }

  function Power(a: int, n: nat): int { if n == 0 then 1 else a * Power(a, n - 1) }

  function FloorDiv(a: int, b: int): int
    requires b != 0
  {
    if b > 0 then a / b else (-a) / (-b)
  }

  function FloorMod(a: int, b: int): int
    requires b != 0
  {
    a - b * FloorDiv(a, b)
  }

  // ── bitwise operators ──

  function Bit(op: BinOp, x: int, y: int): (z: int)
    ensures 0 <= z <= 1
  {
    match op
    case BitAnd => if x == 1 && y == 1 then 1 else 0
    case BitOr => if x == 1 || y == 1 then 1 else 0
    case _ => if x == y then 0 else 1
  }

  /** The operator on infinitely sign-extended two's complement. */
  function Bits(op: BinOp, a: int, b: int): int
    decreases (if a < 0 then -a else a) + (if b < 0 then -b else b)
  {
    if -1 <= a <= 0 && -1 <= b <= 0 then -Bit(op, -a, -b)
    else Bit(op, a % 2, b % 2) + 2 * Bits(op, a / 2, b / 2)
  }

  /** The operator on `n`-bit two's complement words. */
  function BitsOf(n: nat, op: BinOp, a: int, b: int): int
    requires n >= 1
  {
    if n == 1 then -Bit(op, if a < 0 then 1 else 0, if b < 0 then 1 else 0)
    else Bit(op, a % 2, b % 2) + 2 * BitsOf(n - 1, op, a / 2, b / 2)
  }

  /** A word operation agrees with the unbounded one and stays in the word. */
  lemma {:induction false} BitsOfIsBits(n: nat, op: BinOp, a: int, b: int)
    requires n >= 1
    requires -Pow2(n - 1) <= a < Pow2(n - 1) && -Pow2(n - 1) <= b < Pow2(n - 1)
    ensures BitsOf(n, op, a, b) == Bits(op, a, b)
    ensures -Pow2(n - 1) <= BitsOf(n, op, a, b) < Pow2(n - 1)
  {
    if n > 1 {
      var p := Pow2(n - 2);
      assert Pow2(n - 1) == 2 * p;
      Halves(a, p);
      Halves(b, p);
      BitsOfIsBits(n - 1, op, a / 2, b / 2);
      if -1 <= a <= 0 && -1 <= b <= 0 {
        BitsOfSigns(n, op, a, b);
      } else {
        assert Bits(op, a, b) == Bit(op, a % 2, b % 2) + 2 * Bits(op, a / 2, b / 2);
      }
    }
  }

  lemma Halves(a: int, p: int)
    requires -(2 * p) <= a < 2 * p
    ensures -p <= a / 2 < p
  {
  }

  lemma {:induction false} BitsOfSigns(n: nat, op: BinOp, a: int, b: int)
    requires n >= 1 && -1 <= a <= 0 && -1 <= b <= 0
    ensures BitsOf(n, op, a, b) == -Bit(op, -a, -b)
  {
    if n > 1 {
      assert a / 2 == a && b / 2 == b;
      BitsOfSigns(n - 1, op, a, b);
    }
  }

  // ── shifts ──

  /** Floor division: what is left has the sign of the divisor and is smaller. */
  lemma FloorLaws(a: int, b: int)
    requires b != 0
    ensures a == b * FloorDiv(a, b) + FloorMod(a, b)
    ensures if b > 0 then 0 <= FloorMod(a, b) < b else b < FloorMod(a, b) <= 0
  {
    if b < 0 {
      var q := (-a) / (-b);
      assert -a == (-b) * q + (-a) % (-b);
      assert (-b) * q == -(b * q) by { NegMul(b, q); }
    }
  }

  /** Arithmetic right shift, one place at a time. */
  function Sar(a: int, n: nat): int
    decreases n
  {
    if n == 0 then a else Sar(a / 2, n - 1)
  }

  lemma {:induction false} SarIsFloor(a: int, n: nat)
    ensures Sar(a, n) == a / Pow2(n)
    ensures Sar(a, n) * Pow2(n) <= a < (Sar(a, n) + 1) * Pow2(n)
    decreases n
  {
    if n > 0 {
      SarIsFloor(a / 2, n - 1);
      Doubled(a, Sar(a, n), Pow2(n - 1));
    }
    DivUnique(a, Pow2(n), Sar(a, n));
  }

  lemma Doubled(a: int, q: int, p: int)
    requires q * p <= a / 2 < (q + 1) * p
    ensures q * (2 * p) <= a < (q + 1) * (2 * p)
  {
    var lo, hi := q * p, (q + 1) * p;
    assert q * (2 * p) == 2 * lo;
    assert (q + 1) * (2 * p) == 2 * hi;
  }

  /** Every bit of the result is the operator on the operands' bits there. */
  lemma {:induction false} BitsAt(op: BinOp, a: int, b: int, k: nat)
    ensures Sar(Bits(op, a, b), k) % 2 == Bit(op, Sar(a, k) % 2, Sar(b, k) % 2)
    decreases k
  {
    BitsHalved(op, a, b);
    if k > 0 { BitsAt(op, a / 2, b / 2, k - 1); }
  }

  lemma BitsHalved(op: BinOp, a: int, b: int)
    ensures Bits(op, a, b) % 2 == Bit(op, a % 2, b % 2) && Bits(op, a, b) / 2 == Bits(op, a / 2, b / 2)
  {
    hide Bit;
    if -1 <= a <= 0 && -1 <= b <= 0 {
      assert a / 2 == a && b / 2 == b && a % 2 == -a && b % 2 == -b;
    }
  }

  lemma DivUnique(a: int, m: int, q: int)
    requires m > 0 && q * m <= a < (q + 1) * m
    ensures a / m == q
  {
    var k := a / m;
    assert k * m <= a < (k + 1) * m;
    if k < q { MulLe(k + 1, q, m); }
    if q < k { MulLe(q + 1, k, m); }
  }

  lemma MulLe(x: int, y: int, m: int)
    requires x <= y && m > 0
    ensures x * m <= y * m
  {
  }

  /** The folder's left-shift test. */
  predicate ShlFits(a: int, b: nat) {
    if a >= 0 then b == 0 || a <= Sar(MAX64, b) else b == 0 || a >= Sar(MIN64, b)
  }

  /** The test fires exactly when the exact product fits in 64 bits. */
  lemma ShlFitsExactly(a: int, b: nat)
    requires InI64(a) && b < 64
    ensures ShlFits(a, b) <==> InI64(a * Pow2(b))
  {
    if b > 0 {
      var p := Pow2(b);
      SarIsFloor(MAX64, b);
      SarIsFloor(MIN64, b);
      var hi, lo := Sar(MAX64, b), Sar(MIN64, b);
      assert lo * p == MIN64 by { MinDivides(b); }
      if a >= 0 {
        MulLe(0, a, p);
        if a <= hi { MulLe(a, hi, p); } else { MulLe(hi + 1, a, p); }
      } else {
        MulLe(a, 0, p);
        if a >= lo { MulLe(lo, a, p); } else { MulLe(a + 1, lo, p); assert (a + 1) * p == a * p + p; }
      }
    }
  }

  lemma {:induction false} Pow2Add(m: nat, n: nat)
    ensures Pow2(m + n) == Pow2(m) * Pow2(n)
  {
    if m > 0 {
      Pow2Add(m - 1, n);
      assert Pow2(m) * Pow2(n) == 2 * (Pow2(m - 1) * Pow2(n));
    }
  }

  lemma {:induction false} Pow2At63()
    ensures Pow2(63) == -MIN64
  {
    assert Pow2(7) == 128 by { assert Pow2(4) == 16; }
    Pow2Add(7, 7); Pow2Add(14, 14); Pow2Add(28, 28); Pow2Add(56, 7);
  }

  lemma MinDivides(b: nat)
    requires b <= 63
    ensures Sar(MIN64, b) * Pow2(b) == MIN64
  {
    Pow2At63();
    Pow2Add(63 - b, b);
    SarIsFloor(MIN64, b);
    NegMul(Pow2(63 - b), Pow2(b));
    ExactQuotient(MIN64, Pow2(b), -Pow2(63 - b));
  }

  lemma NegMul(x: int, y: int)
    ensures (-x) * y == -(x * y)
  {
  }

  lemma ExactQuotient(a: int, m: int, q: int)
    requires m > 0 && q * m == a
    ensures a / m == q
  {
    assert (q + 1) * m == q * m + m;
    DivUnique(a, m, q);
  }

  // ── evaluation ──

  /** `a op b` on integers: exact, floor division; `None` where the operator
      faults or leaves the integers. */
  function IntBin(op: BinOp, a: int, b: int): Option<int> {
    match op
    case Add => Some(a + b)
    case Sub => Some(a - b)
    case Mul => Some(a * b)
    case Div => if b == 0 then None else Some(FloorDiv(a, b))
    case Mod => if b == 0 then None else Some(FloorMod(a, b))
    case Pow => if InI64(a) && 0 <= b < 0x1000_0000 then Some(Power(a, b)) else None
    case Eq => Some(if a == b then 1 else 0)
    case Ne => Some(if a != b then 1 else 0)
    case StrEq => Some(if a == b then 1 else 0)
    case StrNe => Some(if a != b then 1 else 0)
    case Lt => Some(if a < b then 1 else 0)
    case Gt => Some(if a > b then 1 else 0)
    case Le => Some(if a <= b then 1 else 0)
    case Ge => Some(if a >= b then 1 else 0)
    case Shl => if 0 <= b <= 0x800_0000 then Some(a * Pow2(b)) else None
    case Shr => if b < 0 then None else Some(a / Pow2(b))
    case _ => Some(Bits(op, a, b))
  }

  function Checked(n: int): Option<Lit> { if InI64(n) then Some(Int(n)) else None }

  function Flag(b: bool): Option<Lit> { Some(if b then True else False) }

  /** Two's-complement wrap to 64 bits. */
  function Wrap(n: int): int {
    var m := n % 0x1_0000_0000_0000_0000;
    if m > MAX64 then m - 0x1_0000_0000_0000_0000 else m
  }

  /** The constant folder: what `Push a; Push b; op` folds to, in 64-bit
      machine arithmetic; `None` where it must leave the window alone. */
  function Fold(op: OpCode, a: int, b: int): Option<Lit> {
    match op
    case Bin(Add) => Checked(a + b)
    case Bin(Sub) => Checked(a - b)
    case Bin(Mul) => Checked(a * b)
    case Bin(Div) => if a >= 0 && b > 0 then Some(Int(a / b)) else None
    case Bin(Mod) => if a >= 0 && b > 0 then Some(Int(a % b)) else None
    case Bin(Pow) => if 0 <= b < 0x1000_0000 then Checked(Power(a, b)) else None
    case Bin(Eq) => Flag(a == b)
    case Bin(Ne) => Flag(a != b)
    case Bin(Lt) => Flag(a < b)
    case Bin(Gt) => Flag(a > b)
    case Bin(Le) => Flag(a <= b)
    case Bin(Ge) => Flag(a >= b)
    case Bin(BitAnd) => Some(Int(BitsOf(64, BitAnd, a, b)))
    case Bin(BitOr) => Some(Int(BitsOf(64, BitOr, a, b)))
    case Bin(BitXor) => Some(Int(BitsOf(64, BitXor, a, b)))
    case Bin(Shl) => if 0 <= b < 64 && ShlFits(a, b) then Some(Int(Wrap(a * Pow2(b)))) else None
    case Bin(Shr) =>
      if b >= 64 then Some(Int(if a < 0 then -1 else 0))
      else if b >= 0 then Some(Int(Sar(a, b)))
      else None
    case _ => None
  }

  /** The integer a folded literal stands for. */
  function LitInt(lit: Lit): int {
    match lit case Int(n) => n case True => 1 case _ => 0
  }

  lemma {:induction false} Pow2Mono(m: nat, n: nat)
    requires m <= n
    ensures Pow2(m) <= Pow2(n)
  {
    if m < n { Pow2Mono(m, n - 1); }
  }

  /** Every fold that fires is the exact result, and a 64-bit one. */
  lemma FoldExact(op: OpCode, a: int, b: int)
    requires InI64(a) && InI64(b) && Fold(op, a, b).Some?
    ensures op.Bin? && IntBin(op.bin, a, b) == Some(LitInt(Fold(op, a, b).value))
    ensures InI64(LitInt(Fold(op, a, b).value))
    ensures Fold(op, a, b).value.Int? || Fold(op, a, b).value.True? || Fold(op, a, b).value.False?
  {
    hide Power, Bits, BitsOf, ShlFits, Sar, Pow2;
    match op.bin
    case Div =>
      assert 0 <= a / b <= a by { DivShrinks(a, b); }
    case Mod =>
      assert a % b == a - b * (a / b);
    case BitAnd => WordBits(BitAnd, a, b);
    case BitOr => WordBits(BitOr, a, b);
    case BitXor => WordBits(BitXor, a, b);
    case Shl => ShlFitsExactly(a, b);
    case Shr =>
      if b < 64 {
        SarIsFloor(a, b);
        SarInRange(a, b);
      } else {
        Pow2At63();
        Pow2Mono(63, b);
        DivUnique(a, Pow2(b), if a < 0 then -1 else 0);
      }
    case _ =>
  }

  lemma DivShrinks(a: int, b: int)
    requires a >= 0 && b > 0
    ensures 0 <= a / b <= a
  {
    if a / b > a { MulLe(a + 1, a / b, b); assert (a + 1) * b >= a + 1 by { MulLe(1, b, a + 1); } }
  }

  lemma {:induction false} SarInRange(a: int, n: nat)
    requires InI64(a)
    ensures InI64(Sar(a, n))
    decreases n
  {
    if n > 0 { SarInRange(a / 2, n - 1); }
  }

  lemma WordBits(op: BinOp, a: int, b: int)
    requires InI64(a) && InI64(b)
    ensures BitsOf(64, op, a, b) == Bits(op, a, b) && InI64(BitsOf(64, op, a, b))
  {
    Pow2At63();
    BitsOfIsBits(64, op, a, b);
  }

  /** The operands an operator is folded for. */
  predicate Foldable(op: BinOp, a: int, b: int) {
    match op
    case Div => a >= 0 && b > 0
    case Mod => a >= 0 && b > 0
    case Pow => 0 <= b < 0x1000_0000
    case Shl => 0 <= b < 64
    case Shr => b >= 0
    case StrEq => false
    case StrNe => false
    case _ => true
  }

  /** A fold fires exactly when its operands allow it and the exact result is a
      64-bit word. */
  lemma FoldFires(op: OpCode, a: int, b: int)
    requires InI64(a) && InI64(b)
    ensures Fold(op, a, b).Some? <==>
      op.Bin? && Foldable(op.bin, a, b) && IntBin(op.bin, a, b).Some? && InI64(IntBin(op.bin, a, b).value)
  {
    hide Power, BitsOf, Bits, ShlFits, Sar, Pow2;
    if Fold(op, a, b).Some? {
      FoldExact(op, a, b);
    } else if op.Bin? && op.bin.Shl? && 0 <= b < 64 {
      ShlFitsExactly(a, b);
    }
  }
}

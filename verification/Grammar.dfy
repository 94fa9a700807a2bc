/** The grammar of expressions as derivations over tokens, one nonterminal for
    each function of the recursive descent, each with its own operators. */
module Grammar {
  import opened Options
  import opened Opcodes
  import opened Exprs

  datatype Symbol =
    | BitOrs | BitXors | BitAnds | Equalities | Relations | Shifts | Sums | Products | Powers | Unaries | Primaries

  /** What a symbol is when it has no operator. */
  function Operand(n: Symbol): Symbol {
    match n
    case BitOrs => BitXors
    case BitXors => BitAnds
    case BitAnds => Equalities
    case Equalities => Relations
    case Relations => Shifts
    case Shifts => Sums
    case Sums => Products
    case Products => Powers
    case Powers => Unaries
    case Unaries => Primaries
    case Primaries => Primaries
  }

  function Operators(n: Symbol): set<BinOp> {
    match n
    case BitOrs => {BitOr}
    case BitXors => {BitXor}
    case BitAnds => {BitAnd}
    case Equalities => {Eq, Ne, StrEq, StrNe}
    case Relations => {Lt, Gt, Le, Ge}
    case Shifts => {Shl, Shr}
    case Sums => {Add, Sub}
    case Products => {Mul, Div, Mod}
    case Powers => {Pow}
    case _ => {}
  }

  /** Operators associate to the left, except for the power. */
  function Left(n: Symbol): Symbol { if n.Powers? then Unaries else n }

  function Right(n: Symbol): Symbol { if n.Powers? then Powers else Operand(n) }

  predicate SignOf(m: Token, un: UnOp) {
    (m == Sym(Sub) && un == Neg) || (m == Bang && un == Not) || (m == Tilde && un == BitNot)
  }

  function Rank(n: Symbol): nat {
    match n
    case BitOrs => 10
    case BitXors => 9
    case BitAnds => 8
    case Equalities => 7
    case Relations => 6
    case Shifts => 5
    case Sums => 4
    case Products => 3
    case Powers => 2
    case Unaries => 1
    case Primaries => 0
  }

  /** The operator of `t` stands at `i` and is one of the symbol's. */
  predicate OperatorAt(n: Symbol, ts: seq<Token>, t: Tree, i: int) {
    0 <= i < |ts| && t.Binary? && t.op in Operators(n) && ts[i] == Sym(t.op)
  }

  /** `n` derives the tokens `ts`, with the tree `t`. */
  ghost predicate Derives(n: Symbol, ts: seq<Token>, t: Tree)
    decreases |ts|, Rank(n)
  {
    match n
    case Primaries =>
      || (t.Leaf? && ts == [Num(t.lit)])
      || (t.Read? && ts == [Ref(t.x)])
      || (t.Inner? && ts == [Cmd(t.id)])
      || (t.Group? && |ts| >= 2 && ts[0] == Open && ts[|ts| - 1] == Close && Derives(BitOrs, ts[1..|ts| - 1], t.t))
    case Unaries =>
      || Derives(Primaries, ts, t)
      || (t.Unary? && ts != [] && SignOf(ts[0], t.un) && Derives(Unaries, ts[1..], t.t))
    case _ =>
      || Derives(Operand(n), ts, t)
      || (exists i: nat ::
            OperatorAt(n, ts, t, i) && Derives(Left(n), ts[..i], t.l) && Derives(Right(n), ts[i + 1..], t.r))
  }

  // ── derivations are the trees that fit ──

  lemma OperatorsLevel(n: Symbol, op: BinOp)
    ensures op in Operators(n) <==> Rank(n) + Level(op) == PRIMARY
  {
  }

  lemma {:induction false} DerivedFits(n: Symbol, ts: seq<Token>, t: Tree)
    requires Derives(n, ts, t)
    ensures Tokens(t) == ts && Fits(t, PRIMARY - Rank(n))
    decreases |ts|, Rank(n), 1
  {
    hide Derives, Tokens, Fits;
    match n
    case Primaries => PrimaryFits(ts, t);
    case Unaries => UnaryFits(ts, t);
    case _ =>
      if Derives(Operand(n), ts, t) {
        DerivedFits(Operand(n), ts, t);
        FitsLower(t, PRIMARY - Rank(Operand(n)), PRIMARY - Rank(n));
      } else {
        BinaryFits(n, ts, t);
      }
  }

  lemma {:induction false} PrimaryFits(ts: seq<Token>, t: Tree)
    requires Derives(Primaries, ts, t)
    ensures Tokens(t) == ts && Fits(t, PRIMARY)
    decreases |ts|, Rank(Primaries), 0
  {
    if t.Group? {
      DerivedFits(BitOrs, ts[1..|ts| - 1], t.t);
      assert ts == [Open] + ts[1..|ts| - 1] + [Close];
    }
  }

  lemma {:induction false} UnaryFits(ts: seq<Token>, t: Tree)
    requires Derives(Unaries, ts, t)
    ensures Tokens(t) == ts && Fits(t, UNARY)
    decreases |ts|, Rank(Unaries), 0
  {
    if Derives(Primaries, ts, t) {
      DerivedFits(Primaries, ts, t);
      FitsLower(t, PRIMARY, UNARY);
    } else {
      DerivedFits(Unaries, ts[1..], t.t);
      assert ts == [ts[0]] + ts[1..];
    }
  }

  lemma SplitAt(n: Symbol, ts: seq<Token>, t: Tree) returns (i: nat)
    requires !n.Primaries? && !n.Unaries? && Derives(n, ts, t) && !Derives(Operand(n), ts, t)
    ensures OperatorAt(n, ts, t, i) && Derives(Left(n), ts[..i], t.l) && Derives(Right(n), ts[i + 1..], t.r)
  {
    hide Left, Right, Operand;
    i :| OperatorAt(n, ts, t, i) && Derives(Left(n), ts[..i], t.l) && Derives(Right(n), ts[i + 1..], t.r);
  }

  lemma {:induction false} BinaryFits(n: Symbol, ts: seq<Token>, t: Tree)
    requires !n.Primaries? && !n.Unaries? && Derives(n, ts, t) && !Derives(Operand(n), ts, t)
    ensures Tokens(t) == ts && Fits(t, PRIMARY - Rank(n))
    decreases |ts|, Rank(n), 0
  {
    hide Derives, Tokens, Level, Operators;
    var i := SplitAt(n, ts, t);
    DerivedFits(Left(n), ts[..i], t.l);
    DerivedFits(Right(n), ts[i + 1..], t.r);
    OperatorsLevel(n, t.op);
    OnlyPower(t.op);
    BinaryTokens(t);
    assert ts == ts[..i] + [ts[i]] + ts[i + 1..];
  }

  lemma {:induction false} FitsDerives(n: Symbol, t: Tree)
    requires Fits(t, PRIMARY - Rank(n))
    ensures Derives(n, Tokens(t), t)
    decreases t, Rank(n), 1
  {
    hide Derives, Tokens, Fits;
    match n
    case Primaries => FitsPrimary(t);
    case Unaries => FitsUnary(t);
    case _ =>
      if t.Binary? && t.op in Operators(n) { FitsBinary(n, t); }
      else {
        FitsOperand(n, t);
        FitsDerives(Operand(n), t);
        AsOperand(n, Tokens(t), t);
      }
  }

  lemma AsOperand(n: Symbol, ts: seq<Token>, t: Tree)
    requires !n.Primaries? && Derives(Operand(n), ts, t)
    ensures Derives(n, ts, t)
  {
  }

  lemma FitsOperand(n: Symbol, t: Tree)
    requires Fits(t, PRIMARY - Rank(n)) && !n.Primaries? && !n.Unaries? && !(t.Binary? && t.op in Operators(n))
    ensures Fits(t, PRIMARY - Rank(Operand(n)))
  {
    if t.Binary? { OperatorsLevel(n, t.op); }
  }

  lemma {:induction false} FitsUnary(t: Tree)
    requires Fits(t, UNARY)
    ensures Derives(Unaries, Tokens(t), t)
    decreases t, Rank(Unaries), 0
  {
    if t.Unary? {
      FitsDerives(Unaries, t.t);
      assert Tokens(t)[1..] == Tokens(t.t);
    } else {
      FitsDerives(Primaries, t);
    }
  }

  lemma {:induction false} FitsPrimary(t: Tree)
    requires Fits(t, PRIMARY)
    ensures Derives(Primaries, Tokens(t), t)
    decreases t, Rank(Primaries), 0
  {
    if t.Group? {
      FitsDerives(BitOrs, t.t);
      assert Tokens(t)[1..|Tokens(t)| - 1] == Tokens(t.t);
    }
  }

  lemma {:induction false} FitsBinary(n: Symbol, t: Tree)
    requires t.Binary? && t.op in Operators(n) && Fits(t, PRIMARY - Rank(n))
    ensures Derives(n, Tokens(t), t)
    decreases t, Rank(n), 0
  {
    hide Tokens, Level, Operators;
    var ts, i := Tokens(t), |Tokens(t.l)|;
    OperatorsLevel(n, t.op);
    OnlyPower(t.op);
    BinaryTokens(t);
    assert ts[..i] == Tokens(t.l) && ts[i + 1..] == Tokens(t.r) && ts[i] == Sym(t.op);
    FitsDerives(Left(n), t.l);
    FitsDerives(Right(n), t.r);
    NoOperators(n, t);
    assert OperatorAt(n, ts, t, i);
  }

  lemma NoOperators(n: Symbol, t: Tree)
    requires t.Binary? && t.op in Operators(n)
    ensures !n.Primaries? && !n.Unaries?
  {
  }

  /** The recursive descent reads a tree from all the tokens exactly when the
      grammar derives them with that tree and every bracket may be compiled. */
  lemma ReadsDerived(ts: seq<Token>, ok: nat -> bool, t: Tree)
    ensures Parse(ts, ok, 0, 0) == Good(t, |ts|) <==> Derives(BitOrs, ts, t) && AllOk(t, ok)
  {
    hide Derives;
    if Parse(ts, ok, 0, 0) == Good(t, |ts|) {
      ParseSound(ts, ok, 0, 0);
      assert ts[0..|ts|] == ts;
      FitsDerives(BitOrs, t);
    }
    if Derives(BitOrs, ts, t) && AllOk(t, ok) {
      DerivedFits(BitOrs, ts, t);
      ReadBack(t, ok);
    }
  }
}

/** The expression grammar: eight left-associative levels, a right-associative
    power, unary operators and primaries; what the recursive descent accepts,
    the tree it follows and the instructions it emits. */
module Exprs {
  import opened Options
  import opened Opcodes

  datatype Token =
    | Num(lit: Lit) | Ref(x: Loc) | Cmd(id: nat)
    | Sym(op: BinOp)          // `+` and `-` are also unary
    | Bang | Tilde | Open | Close
    | AndAnd | OrOr

  /** Parentheses are kept: a tree and its tokens determine each other. */
  datatype Tree = Leaf(lit: Lit) | Read(x: Loc) | Inner(id: nat) | Group(t: Tree) | Binary(op: BinOp, l: Tree, r: Tree)
      | Unary(un: UnOp, t: Tree)

  const POWER: nat := 8
  const UNARY: nat := 9
  const PRIMARY: nat := 10

  function Level(op: BinOp): (n: nat)
    ensures n <= POWER
  {
    match op
    case BitOr => 0
    case BitXor => 1
    case BitAnd => 2
    case Eq => 3
    case Ne => 3
    case StrEq => 3
    case StrNe => 3
    case Lt => 4
    case Gt => 4
    case Le => 4
    case Ge => 4
    case Shl => 5
    case Shr => 5
    case Add => 6
    case Sub => 6
    case Mul => 7
    case Div => 7
    case Mod => 7
    case Pow => POWER
  }

  function Sign(un: UnOp): Token { match un case Neg => Sym(Sub) case Not => Bang case BitNot => Tilde }

  function Tokens(t: Tree): (ts: seq<Token>)
    ensures ts != []
  {
    match t
    case Leaf(lit) => [Num(lit)]
    case Read(x) => [Ref(x)]
    case Inner(id) => [Cmd(id)]
    case Group(x) => [Open] + Tokens(x) + [Close]
    case Binary(op, l, r) => Tokens(l) + [Sym(op)] + Tokens(r)
    case Unary(un, x) => [Sign(un)] + Tokens(x)
  }

  /** The tree is readable at level `lvl` without more parentheses. */
  predicate Fits(t: Tree, lvl: nat) {
    match t
    case Group(x) => Fits(x, 0)
    case Unary(_, x) => lvl <= UNARY && Fits(x, UNARY)
    case Binary(op, l, r) =>
      lvl <= Level(op) &&
      if op.Pow? then Fits(l, UNARY) && Fits(r, POWER)
      else Fits(l, Level(op)) && Fits(r, Level(op) + 1)
    case _ => true
  }

  /** Parentheses where precedence asks for them, and nowhere else. */
  function Minimal(t: Tree, lvl: nat): (r: Tree)
    ensures Fits(r, lvl)
    decreases t
  {
    match t
    case Group(x) => Group(Minimal(x, 0))
    case Unary(un, x) =>
      var u := Unary(un, Minimal(x, UNARY));
      if lvl <= UNARY then u else Group(u)
    case Binary(op, l, r) =>
      var b := if op.Pow? then Binary(op, Minimal(l, UNARY), Minimal(r, POWER))
               else Binary(op, Minimal(l, Level(op)), Minimal(r, Level(op) + 1));
      if lvl <= Level(op) then b else Group(b)
    case _ => t
  }

  // ── recursive descent ──

  /** A tree and where reading goes on, or where it gave up. */
  datatype Parsed = Good(t: Tree, next: nat) | Bad(next: nat)

  /** Reading at level `lvl` from `i`.  `ok` says which bracketed scripts can be
      compiled. */
  function Parse(ts: seq<Token>, ok: nat -> bool, i: nat, lvl: nat): (r: Parsed)
    requires i <= |ts| && lvl <= PRIMARY
    ensures i <= r.next <= |ts| && (r.Good? ==> i < r.next)
    decreases |ts| - i, PRIMARY - lvl, 1
  {
    if lvl == PRIMARY then ParsePrimary(ts, ok, i)
    else if lvl == UNARY then ParseUnary(ts, ok, i)
    else
      var l := Parse(ts, ok, i, lvl + 1);
      if l.Bad? then l
      else if lvl == POWER then ParsePower(ts, ok, l.t, l.next)
      else ParseRest(ts, ok, l.t, l.next, lvl)
  }

  /** `left` and the operators of level `lvl` that follow it. */
  function ParseRest(ts: seq<Token>, ok: nat -> bool, left: Tree, i: nat, lvl: nat): (r: Parsed)
    requires i <= |ts| && lvl < POWER
    ensures i <= r.next <= |ts|
    decreases |ts| - i, PRIMARY - lvl, 0
  {
    if i < |ts| && ts[i].Sym? && Level(ts[i].op) == lvl then
      var r := Parse(ts, ok, i + 1, lvl + 1);
      if r.Bad? then r else ParseRest(ts, ok, Binary(ts[i].op, left, r.t), r.next, lvl)
    else Good(left, i)
  }

  function ParsePower(ts: seq<Token>, ok: nat -> bool, left: Tree, i: nat): (r: Parsed)
    requires i <= |ts|
    ensures i <= r.next <= |ts|
    decreases |ts| - i, PRIMARY - POWER, 0
  {
    if i < |ts| && ts[i] == Sym(Pow) then
      var r := Parse(ts, ok, i + 1, POWER);
      if r.Bad? then r else Good(Binary(Pow, left, r.t), r.next)
    else Good(left, i)
  }

  function Signed(t: Token): Option<UnOp> {
    if t == Sym(Sub) then Some(Neg) else if t == Bang then Some(Not) else if t == Tilde then Some(BitNot) else None
  }

  /** A unary plus is left to the runtime evaluator. */
  function ParseUnary(ts: seq<Token>, ok: nat -> bool, i: nat): (r: Parsed)
    requires i <= |ts|
    ensures i <= r.next <= |ts| && (r.Good? ==> i < r.next)
    decreases |ts| - i, 1, 0
  {
    if i < |ts| && Signed(ts[i]).Some? then
      var r := Parse(ts, ok, i + 1, UNARY);
      if r.Bad? then r else Good(Unary(Signed(ts[i]).value, r.t), r.next)
    else if i < |ts| && ts[i] == Sym(Add) then Bad(i + 1)
    else Parse(ts, ok, i, PRIMARY)
  }

  function ParsePrimary(ts: seq<Token>, ok: nat -> bool, i: nat): (r: Parsed)
    requires i <= |ts|
    ensures i <= r.next <= |ts| && (r.Good? ==> i < r.next)
    decreases |ts| - i, 0, 0
  {
    if i == |ts| then Bad(i)
    else match ts[i]
      case Num(lit) => Good(Leaf(lit), i + 1)
      case Ref(x) => Good(Read(x), i + 1)
      case Cmd(id) => if ok(id) then Good(Inner(id), i + 1) else Bad(i + 1)
      case Open =>
        var r := Parse(ts, ok, i + 1, 0);
        if r.Bad? then r
        else if r.next < |ts| && ts[r.next] == Close then Good(Group(r.t), r.next + 1)
        else Bad(r.next)
      case _ => Bad(i + 1)
  }

  // ── what is read is what the tokens say ──

  predicate AllOk(t: Tree, ok: nat -> bool) {
    match t
    case Inner(id) => ok(id)
    case Group(x) => AllOk(x, ok)
    case Binary(_, l, r) => AllOk(l, ok) && AllOk(r, ok)
    case Unary(_, x) => AllOk(x, ok)
    case _ => true
  }

  predicate Reads(ts: seq<Token>, ok: nat -> bool, i: nat, lvl: nat, t: Tree, j: nat) {
    i <= j <= |ts| && Fits(t, lvl) && AllOk(t, ok) && Tokens(t) == ts[i..j]
  }

  lemma {:induction false} ParseSound(ts: seq<Token>, ok: nat -> bool, i: nat, lvl: nat)
    requires i <= |ts| && lvl <= PRIMARY && Parse(ts, ok, i, lvl).Good?
    ensures var r := Parse(ts, ok, i, lvl); Reads(ts, ok, i, lvl, r.t, r.next)
    decreases |ts| - i, PRIMARY - lvl, 1
  {
    hide Tokens, AllOk;
    if lvl == PRIMARY { PrimarySound(ts, ok, i); }
    else if lvl == UNARY { UnarySound(ts, ok, i); }
    else {
      ParseSound(ts, ok, i, lvl + 1);
      var l := Parse(ts, ok, i, lvl + 1);
      FitsLower(l.t, lvl + 1, lvl);
      if lvl == POWER { PowerSound(ts, ok, i, l.t, l.next); } else { RestSound(ts, ok, i, l.t, l.next, lvl); }
    }
  }

  lemma {:induction false} FitsLower(t: Tree, hi: nat, lo: nat)
    requires Fits(t, hi) && lo <= hi
    ensures Fits(t, lo)
  {
  }

  lemma JoinReads(ts: seq<Token>, ok: nat -> bool, i: nat, l: Tree, k: nat, r: Tree, j: nat)
    requires i <= k < j <= |ts| && ts[k].Sym? && Tokens(l) == ts[i..k] && Tokens(r) == ts[k + 1..j]
    ensures Tokens(Binary(ts[k].op, l, r)) == ts[i..j]
  {
    assert ts[i..j] == ts[i..k] + [ts[k]] + ts[k + 1..j];
  }

  lemma {:induction false} RestSound(ts: seq<Token>, ok: nat -> bool, i: nat, left: Tree, k: nat, lvl: nat)
    requires lvl < POWER && Reads(ts, ok, i, lvl, left, k) && i < k && ParseRest(ts, ok, left, k, lvl).Good?
    ensures var r := ParseRest(ts, ok, left, k, lvl); Reads(ts, ok, i, lvl, r.t, r.next)
    decreases |ts| - k, PRIMARY - lvl, 0
  {
    hide Tokens;
    if k < |ts| && ts[k].Sym? && Level(ts[k].op) == lvl {
      ParseSound(ts, ok, k + 1, lvl + 1);
      var r := Parse(ts, ok, k + 1, lvl + 1);
      JoinReads(ts, ok, i, left, k, r.t, r.next);
      RestSound(ts, ok, i, Binary(ts[k].op, left, r.t), r.next, lvl);
    }
  }

  lemma {:induction false} PowerSound(ts: seq<Token>, ok: nat -> bool, i: nat, left: Tree, k: nat)
    requires Reads(ts, ok, i, UNARY, left, k) && i < k && ParsePower(ts, ok, left, k).Good?
    ensures var r := ParsePower(ts, ok, left, k); Reads(ts, ok, i, POWER, r.t, r.next)
    decreases |ts| - k, PRIMARY - POWER, 0
  {
    hide Tokens;
    FitsLower(left, UNARY, POWER);
    if k < |ts| && ts[k] == Sym(Pow) {
      ParseSound(ts, ok, k + 1, POWER);
      var r := Parse(ts, ok, k + 1, POWER);
      JoinReads(ts, ok, i, left, k, r.t, r.next);
    }
  }

  lemma {:induction false} UnarySound(ts: seq<Token>, ok: nat -> bool, i: nat)
    requires i <= |ts| && ParseUnary(ts, ok, i).Good?
    ensures var r := ParseUnary(ts, ok, i); Reads(ts, ok, i, UNARY, r.t, r.next)
    decreases |ts| - i, 1, 0
  {
    if i < |ts| && Signed(ts[i]).Some? {
      ParseSound(ts, ok, i + 1, UNARY);
      var r := Parse(ts, ok, i + 1, UNARY);
      assert ts[i..r.next] == [ts[i]] + ts[i + 1..r.next];
    } else {
      ParseSound(ts, ok, i, PRIMARY);
      FitsLower(Parse(ts, ok, i, PRIMARY).t, PRIMARY, UNARY);
    }
  }

  lemma {:induction false} PrimarySound(ts: seq<Token>, ok: nat -> bool, i: nat)
    requires i <= |ts| && ParsePrimary(ts, ok, i).Good?
    ensures var r := ParsePrimary(ts, ok, i); Reads(ts, ok, i, PRIMARY, r.t, r.next)
    decreases |ts| - i, 0, 0
  {
    if ts[i] == Open {
      ParseSound(ts, ok, i + 1, 0);
      var r := Parse(ts, ok, i + 1, 0);
      assert ts[i..r.next + 1] == [Open] + ts[i + 1..r.next] + [Close];
    } else {
      assert ts[i..i + 1] == [ts[i]];
    }
  }

  // ── every readable tree is read ──

  /** The tokens of `t` stand at `i`. */
  predicate Stands(ts: seq<Token>, i: nat, t: Tree) { i + |Tokens(t)| <= |ts| && ts[i..i + |Tokens(t)|] == Tokens(t) }

  /** No operator of level `lvl` or tighter goes on at `j`. */
  predicate Stops(ts: seq<Token>, j: nat, lvl: nat) { j < |ts| && ts[j].Sym? ==> Level(ts[j].op) < lvl }

  lemma StandsParts(ts: seq<Token>, i: nat, a: seq<Token>, b: seq<Token>)
    requires i + |a + b| <= |ts| && ts[i..i + |a + b|] == a + b
    ensures ts[i..i + |a|] == a && ts[i + |a|..i + |a| + |b|] == b
  {
    var s := ts[i..i + |a + b|];
    assert s[..|a|] == ts[i..i + |a|] && s[|a|..] == ts[i + |a|..i + |a| + |b|];
  }

  lemma BinaryTokens(t: Tree)
    requires t.Binary?
    ensures Tokens(t) == Tokens(t.l) + [Sym(t.op)] + Tokens(t.r)
  {
  }

  lemma StandsBinary(ts: seq<Token>, i: nat, t: Tree)
    requires t.Binary? && Stands(ts, i, t)
    ensures var k := i + |Tokens(t.l)|;
      Stands(ts, i, t.l) && k < |ts| && ts[k] == Sym(t.op) && Stands(ts, k + 1, t.r)
          && |Tokens(t)| == |Tokens(t.l)| + 1 + |Tokens(t.r)|
  {
    hide Tokens;
    var l, r := Tokens(t.l), Tokens(t.r);
    BinaryTokens(t);
    StandsParts(ts, i, l + [Sym(t.op)], r);
    StandsParts(ts, i, l, [Sym(t.op)]);
    assert ts[i + |l|..i + |l| + 1][0] == ts[i + |l|];
  }

  lemma {:induction false} ParseComplete(ts: seq<Token>, ok: nat -> bool, i: nat, lvl: nat, t: Tree)
    requires lvl <= PRIMARY && Fits(t, lvl) && AllOk(t, ok) && Stands(ts, i, t)
    requires lvl <= POWER ==> Stops(ts, i + |Tokens(t)|, lvl)
    ensures Parse(ts, ok, i, lvl) == Good(t, i + |Tokens(t)|)
    decreases t, PRIMARY - lvl, 1
  {
    hide Tokens;
    var j := i + |Tokens(t)|;
    if lvl == PRIMARY { PrimaryComplete(ts, ok, i, t); }
    else if lvl == UNARY { UnaryComplete(ts, ok, i, t); }
    else if lvl == POWER { PowerComplete(ts, ok, i, t); }
    else { Spine(ts, ok, i, lvl, t); }
  }

  /** A left-nested tree is read operand by operand. */
  lemma {:induction false} Spine(ts: seq<Token>, ok: nat -> bool, i: nat, lvl: nat, t: Tree)
    requires lvl < POWER && Fits(t, lvl) && AllOk(t, ok) && Stands(ts, i, t)
    requires Stops(ts, i + |Tokens(t)|, lvl + 1)
    ensures Parse(ts, ok, i, lvl) == ParseRest(ts, ok, t, i + |Tokens(t)|, lvl)
    decreases t, PRIMARY - lvl, 0
  {
    hide Tokens, Fits, AllOk, Parse, ParseRest;
    if t.Binary? && Level(t.op) == lvl {
      StandsBinary(ts, i, t);
      var k := i + |Tokens(t.l)|;
      FitsParts(t, ok);
      Spine(ts, ok, i, lvl, t.l);
      ParseComplete(ts, ok, k + 1, lvl + 1, t.r);
      RestStep(ts, ok, t.l, k, lvl, t.op, t.r, i + |Tokens(t)|);
    } else {
      FitsHigher(t, lvl);
      ParseComplete(ts, ok, i, lvl + 1, t);
      LevelStep(ts, ok, i, lvl);
    }
  }

  lemma FitsParts(t: Tree, ok: nat -> bool)
    requires t.Binary? && !t.op.Pow? && Fits(t, Level(t.op)) && AllOk(t, ok)
    ensures Fits(t.l, Level(t.op)) && Fits(t.r, Level(t.op) + 1) && AllOk(t.l, ok) && AllOk(t.r, ok)
  {
  }

  lemma RestStep(ts: seq<Token>, ok: nat -> bool, left: Tree, k: nat, lvl: nat, op: BinOp, r: Tree, j: nat)
    requires lvl < POWER && k < |ts| && ts[k] == Sym(op) && Level(op) == lvl
    requires Parse(ts, ok, k + 1, lvl + 1) == Good(r, j)
    ensures ParseRest(ts, ok, left, k, lvl) == ParseRest(ts, ok, Binary(op, left, r), j, lvl)
  {
  }

  lemma LevelStep(ts: seq<Token>, ok: nat -> bool, i: nat, lvl: nat)
    requires i <= |ts| && lvl < POWER && Parse(ts, ok, i, lvl + 1).Good?
    ensures var l := Parse(ts, ok, i, lvl + 1); Parse(ts, ok, i, lvl) == ParseRest(ts, ok, l.t, l.next, lvl)
  {
  }

  lemma FitsHigher(t: Tree, lvl: nat)
    requires Fits(t, lvl) && lvl < POWER && !(t.Binary? && Level(t.op) == lvl)
    ensures Fits(t, lvl + 1)
  {
  }

  lemma {:induction false} PowerComplete(ts: seq<Token>, ok: nat -> bool, i: nat, t: Tree)
    requires Fits(t, POWER) && AllOk(t, ok) && Stands(ts, i, t) && Stops(ts, i + |Tokens(t)|, POWER)
    ensures Parse(ts, ok, i, POWER) == Good(t, i + |Tokens(t)|)
    decreases t, PRIMARY - POWER, 0
  {
    hide Tokens;
    if t.Binary? {
      StandsBinary(ts, i, t);
      OnlyPower(t.op);
      var k := i + |Tokens(t.l)|;
      ParseComplete(ts, ok, i, UNARY, t.l);
      ParseComplete(ts, ok, k + 1, POWER, t.r);
    } else {
      ParseComplete(ts, ok, i, UNARY, t);
    }
  }

  lemma OnlyPower(op: BinOp)
    ensures Level(op) == POWER <==> op.Pow?
  {
  }

  lemma {:induction false} UnaryComplete(ts: seq<Token>, ok: nat -> bool, i: nat, t: Tree)
    requires Fits(t, UNARY) && AllOk(t, ok) && Stands(ts, i, t)
    ensures Parse(ts, ok, i, UNARY) == Good(t, i + |Tokens(t)|)
    decreases t, PRIMARY - UNARY, 0
  {
    if t.Unary? {
      StandsParts(ts, i, [Sign(t.un)], Tokens(t.t));
      assert ts[i..i + 1][0] == ts[i];
      ParseComplete(ts, ok, i + 1, UNARY, t.t);
    } else {
      FirstToken(t);
      assert ts[i..i + |Tokens(t)|][0] == ts[i];
      ParseComplete(ts, ok, i, PRIMARY, t);
    }
  }

  lemma FirstToken(t: Tree)
    requires Fits(t, UNARY) && !t.Unary?
    ensures !Tokens(t)[0].Sym? && Signed(Tokens(t)[0]).None? && Fits(t, PRIMARY)
  {
  }

  lemma {:induction false} PrimaryComplete(ts: seq<Token>, ok: nat -> bool, i: nat, t: Tree)
    requires Fits(t, PRIMARY) && AllOk(t, ok) && Stands(ts, i, t)
    ensures Parse(ts, ok, i, PRIMARY) == Good(t, i + |Tokens(t)|)
    decreases t, 0, 0
  {
    assert ts[i..i + |Tokens(t)|][0] == ts[i];
    if t.Group? {
      StandsParts(ts, i, [Open] + Tokens(t.t), [Close]);
      StandsParts(ts, i, [Open], Tokens(t.t));
      var k := i + 1 + |Tokens(t.t)|;
      assert ts[k..k + 1][0] == ts[k];
      ParseComplete(ts, ok, i + 1, 0, t.t);
    }
  }

  // ── whole expressions ──

  /** The tree without its parentheses. */
  function Bare(t: Tree): Tree {
    match t
    case Group(x) => Bare(x)
    case Binary(op, l, r) => Binary(op, Bare(l), Bare(r))
    case Unary(un, x) => Unary(un, Bare(x))
    case _ => t
  }

  /** Every operand in parentheses. */
  function Full(t: Tree): Tree {
    match t
    case Group(x) => Full(x)
    case Binary(op, l, r) => Group(Binary(op, Full(l), Full(r)))
    case Unary(un, x) => Group(Unary(un, Full(x)))
    case _ => t
  }

  lemma {:induction false} FullFits(t: Tree, ok: nat -> bool, lvl: nat)
    requires AllOk(t, ok)
    ensures Fits(Full(t), lvl) && AllOk(Full(t), ok) && Bare(Full(t)) == Bare(t)
    decreases t
  {
    match t
    case Group(x) => FullFits(x, ok, lvl);
    case Binary(op, l, r) =>
      FullFits(l, ok, if op.Pow? then UNARY else Level(op));
      FullFits(r, ok, if op.Pow? then POWER else Level(op) + 1);
    case Unary(_, x) => FullFits(x, ok, UNARY);
    case _ =>
  }

  lemma {:induction false} MinimalSame(t: Tree, ok: nat -> bool, lvl: nat)
    requires AllOk(t, ok)
    ensures AllOk(Minimal(t, lvl), ok) && Bare(Minimal(t, lvl)) == Bare(t)
    decreases t
  {
    match t
    case Group(x) => MinimalSame(x, ok, 0);
    case Binary(op, l, r) =>
      MinimalSame(l, ok, if op.Pow? then UNARY else Level(op));
      MinimalSame(r, ok, if op.Pow? then POWER else Level(op) + 1);
    case Unary(_, x) => MinimalSame(x, ok, UNARY);
    case _ =>
  }

  /** A readable tree is read back from its tokens, all of them. */
  lemma ReadBack(t: Tree, ok: nat -> bool)
    requires Fits(t, 0) && AllOk(t, ok)
    ensures Parse(Tokens(t), ok, 0, 0) == Good(t, |Tokens(t)|)
  {
    assert Tokens(t)[0..|Tokens(t)|] == Tokens(t);
    ParseComplete(Tokens(t), ok, 0, 0, t);
  }

  /** Both the minimal and the fully parenthesised form of any tree are read,
      to the end, as that tree. */
  lemma FormsAreRead(t: Tree, ok: nat -> bool)
    requires AllOk(t, ok)
    ensures var ts := Tokens(Minimal(t, 0)); var r := Parse(ts, ok, 0, 0);
        r.Good? && r.next == |ts| && Bare(r.t) == Bare(t)
    ensures var ts := Tokens(Full(t)); var r := Parse(ts, ok, 0, 0); r.Good? && r.next == |ts| && Bare(r.t) == Bare(t)
  {
    MinimalSame(t, ok, 0);
    ReadBack(Minimal(t, 0), ok);
    FullFits(t, ok, 0);
    ReadBack(Full(t), ok);
  }

  /** What is read to the end is exactly the tokens of a readable tree, so
      nothing else is accepted: no `&&`, no `||`, no unary plus. */
  lemma AcceptedExactly(ts: seq<Token>, ok: nat -> bool)
    ensures (exists t :: Parse(ts, ok, 0, 0) == Good(t, |ts|))
        <==> (exists t :: Fits(t, 0) && AllOk(t, ok) && Tokens(t) == ts)
  {
    if t :| Parse(ts, ok, 0, 0) == Good(t, |ts|) {
      ParseSound(ts, ok, 0, 0);
      assert ts[0..|ts|] == ts;
      assert Fits(t, 0) && AllOk(t, ok) && Tokens(t) == ts;
    }
    if t :| Fits(t, 0) && AllOk(t, ok) && Tokens(t) == ts {
      ReadBack(t, ok);
      assert Parse(ts, ok, 0, 0) == Good(t, |ts|);
    }
  }

  /** A readable tree is the only one with its tokens. */
  lemma TokensDetermine(a: Tree, b: Tree)
    requires Fits(a, 0) && Fits(b, 0) && Tokens(a) == Tokens(b)
    ensures a == b
  {
    EveryOk(a);
    EveryOk(b);
    ReadBack(a, n => true);
    ReadBack(b, n => true);
  }

  lemma {:induction false} EveryOk(t: Tree)
    ensures AllOk(t, n => true)
  {
    match t
    case Group(x) => EveryOk(x);
    case Binary(_, l, r) => EveryOk(l); EveryOk(r);
    case Unary(_, x) => EveryOk(x);
    case _ =>
  }

  lemma {:induction false} NoLogicals(t: Tree)
    ensures AndAnd !in Tokens(t) && OrOr !in Tokens(t)
  {
    match t
    case Group(x) => NoLogicals(x);
    case Binary(_, l, r) => NoLogicals(l); NoLogicals(r);
    case Unary(_, x) => NoLogicals(x);
    case _ =>
  }
}

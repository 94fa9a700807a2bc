/** Compiled code agrees with its account. */
module Accounting {
  import opened Options
  import opened Opcodes
  import opened Machine
  import opened Discipline
  import opened Syntax
  import opened Codegen
  import opened Places
  import opened Fitting
  import opened Negations
  import opened Levels
  import opened Layouts
  import opened Accounts

  /** A unit, its account, and how much the account claims. */
  datatype Book = Book(m: Mode, u: Code, lays: seq<Layout>, base: nat)

  /** `code` and `ls` stand side by side. */
  ghost predicate Here(g: Book, at: int, code: seq<OpCode>, ls: seq<Layout>) {
    Placed(g.u, at, code) && |ls| == |code| && at + |ls| <= |g.lays| && g.lays[at..at + |ls|] == ls
  }

  lemma HereSplit(g: Book, at: nat, a: seq<OpCode>, b: seq<OpCode>, la: seq<Layout>, lb: seq<Layout>)
    requires Here(g, at, a + b, la + lb) && |la| == |a|
    ensures Here(g, at, a, la) && Here(g, at + |a|, b, lb)
  {
    PlacedSplit(g.u, at, a, b);
    var all := g.lays[at..at + |la + lb|];
    assert all[..|la|] == g.lays[at..at + |la|];
    assert all[|la|..] == g.lays[at + |la|..at + |la| + |lb|];
  }

  lemma HereAt(g: Book, at: nat, code: seq<OpCode>, ls: seq<Layout>, k: nat)
    requires Here(g, at, code, ls) && k < |code|
    ensures at + k < |g.u.ops| && at + k < |g.lays| && g.u.ops[at + k] == code[k] && g.lays[at + k] == ls[k]
  {
    PlacedAt(g.u, at, code, k);
    assert g.lays[at..at + |ls|][k] == g.lays[at + k];
  }

  ghost predicate GoodAt(g: Book, pc: nat) {
    && pc < |g.u.ops| && pc < |g.lays|
    && OpFits(g.m, g.u.infos, g.lays, g.base, pc, g.u.ops[pc]) && RoleFits(g.m, g.u.ops, g.lays, pc)
  }

  ghost predicate Good(g: Book, a: int, b: int) { forall pc: nat | a <= pc < b :: GoodAt(g, pc) }

  lemma GoodJoin(g: Book, a: nat, b: nat, c: nat)
    requires Good(g, a, b) && Good(g, b, c)
    ensures Good(g, a, c)
  {
    hide GoodAt;
  }

  // ── layouts ──

  /** No loop was entered below the operands the unit started with. */
  predicate Grounded(loops: List<LoopFrame>, base: nat) {
    loops.Cons? ==> base <= loops.head.at.stackLen && Grounded(loops.tail, base)
  }

  /** The innermost loop is an iteration. */
  predicate Each(g: Book, x: Layout) { Iterates(g.u.ops, x.loops) }

  /** In a next script inside an iteration of its own. */
  predicate Next1(g: Book, x: Layout) { Each(g, x) && NextAbove(x.bodies, EntryDepth(x)) }

  /** Every loop is left at its end. */
  predicate Ended(ops: seq<OpCode>, loops: List<LoopFrame>) {
    loops.Cons? ==> Leaving(OpAt(ops, loops.head.brk)) && Ended(ops, loops.tail)
  }

  predicate Steady(g: Book, x: Layout) {
    && Safe(g.m, g.lays, x) && Floor(x, g.base) <= x.depth && Grounded(x.loops, g.base)
    && Ended(g.u.ops, x.loops) && (g.m.flat ==> !Next1(g, x))
  }


  /** Within a pass of an iteration, so above the region of its body. */
  predicate Roomy(g: Book, x: Layout) { Each(g, x) ==> Depth(x.bodies) > EntryDepth(x) }

  /** Layouts that code may start with. */
  predicate Ready(g: Book, x: Layout) { Steady(g, x) && !x.bit && (g.m.flat ==> Roomy(g, x)) }

  /** Which open loops are in their next scripts. */
  function Flags(bodies: List<Region>, loops: List<LoopFrame>): List<bool>
    decreases loops
  {
    if loops.Nil? then Nil
    else Cons(NextAbove(bodies, loops.head.at.bodiesLen), Flags(Truncate(bodies, loops.head.at.bodiesLen), loops.tail))
  }

  function FlagsOf(x: Layout): List<bool> { Flags(x.bodies, x.loops) }

  lemma {:induction false} NoneIsNoNext(bodies: List<Region>, loops: List<LoopFrame>)
    requires NoneIn(Flags(bodies, loops))
    ensures NoNext(bodies, loops)
    decreases loops
  {
    if loops.Cons? { NoneIsNoNext(Truncate(bodies, loops.head.at.bodiesLen), loops.tail); }
  }

  lemma NoFlagNoNext(x: Layout)
    requires NoneIn(FlagsOf(x))
    ensures NoNext(x.bodies, x.loops)
  {
    NoneIsNoNext(x.bodies, x.loops);
  }

  /** Operands, site and claim do not matter. */
  lemma SteadyLike(g: Book, x: Layout, y: Layout)
    requires Steady(g, x) && y.bodies == x.bodies && y.loops == x.loops && y.frames == x.frames
        && Floor(x, g.base) <= y.depth
    ensures Steady(g, y) && FlagsOf(y) == FlagsOf(x)
  {
  }

  lemma SteadyOpen(g: Book, x: Layout, r: Region)
    requires Steady(g, x) && !r.Next?
    ensures Ready(g, Open(x, r)) && FlagsOf(Open(x, r)) == FlagsOf(x) && Closable(Open(x, r))
  {
    if x.loops.Cons? { InnerAnchor(g.m, g.lays, x); }
  }

  /** In the next script of a loop that holds no iteration. */
  lemma SteadyNext(g: Book, x: Layout)
    requires Steady(g, x) && x.loops.Cons? && !Each(g, x)
    requires g.m.exact && x.loops.tail.Cons? ==>
        x.loops.tail.head.cont < |g.lays| && g.lays[x.loops.tail.head.cont].frames == x.frames
    requires g.m.exact && x.loops.tail.Cons? ==> Escapes(g.lays, PassOf(x).(loops := x.loops.tail))
    ensures Ready(g, InNext(x)) && FlagsOf(InNext(x)) == Cons(true, FlagsOf(x).tail) && Closable(InNext(x))
  {
    InnerAnchor(g.m, g.lays, x);
  }

  /** The passes of a loop just entered. */
  lemma SteadyEnter(g: Book, x: Layout, frames: List<ForeachInfo>, cont: int, brk: int)
    requires Steady(g, x) && Depth(x.frames) <= Depth(frames)
    requires var p := Enter(x.(frames := frames), cont, brk); Leads(g.m, g.lays, cont, p) && Leads(g.m, g.lays, brk, p)
    requires Leaving(OpAt(g.u.ops, brk))
    ensures var p := Enter(x.(frames := frames), cont, brk);
      Steady(g, p) && !p.bit && (!Each(g, p) ==> Ready(g, p)) && FlagsOf(p) == Cons(false, FlagsOf(x)) && PassOf(p) == p
  {
    var p := Enter(x.(frames := frames), cont, brk);
    TruncateSame(x.bodies);
    NoNextAtTop(x.bodies);
    assert PassOf(p) == p;
    OuterOfEntered(g, x, frames, p);
  }

  lemma NoNextAtTop(b: List<Region>)
    ensures !NextAbove(b, Depth(b))
  {
  }

  lemma OuterOfEntered(g: Book, x: Layout, frames: List<ForeachInfo>, p: Layout)
    requires Steady(g, x) && Depth(x.frames) <= Depth(frames)
    requires p.loops.Cons? && p.loops.tail == x.loops && PassOf(p) == p && p.bodies == x.bodies && p.depth == x.depth
        && p.site == x.site && p.frames == frames
    ensures Anchored(g.m, g.lays, Outer(g.m, g.lays, p))
  {
    hide Anchored;
    var y := Outer(g.m, g.lays, p);
    if x.loops.Cons? { InnerAnchor(g.m, g.lays, x); }
    assert y == x.(bit := false, frames := y.frames);
    assert Anchored(g.m, g.lays, x.(bit := false)) by { SteadyLike(g, x, x.(bit := false)); }
    if !g.m.exact { MoreAnchored(g.m, g.lays, x.(bit := false), y.frames); }
    else if x.loops.Nil? { NoLoopAnchored(g.m, g.lays, y); }
  }

  lemma NoLoopAnchored(m: Mode, lays: seq<Layout>, x: Layout)
    requires x.loops.Nil?
    ensures Anchored(m, lays, x)
  {
  }

  lemma {:induction false} MoreAnchored(m: Mode, lays: seq<Layout>, x: Layout, frames: List<ForeachInfo>)
    requires !m.exact && Anchored(m, lays, x) && Depth(x.frames) <= Depth(frames)
    ensures Anchored(m, lays, x.(frames := frames))
    decreases x.loops
  {
    if x.loops.Cons? {
      MoreAnchored(m, lays, Outer(m, lays, x), frames);
      assert Outer(m, lays, x).(frames := frames) == Outer(m, lays, x.(frames := frames));
    }
  }

  // ── single instructions ──

  /** An instruction at a layout like `x`. */
  predicate Stands(g: Book, pc: nat, x: Layout, op: OpCode) {
    && pc < |g.u.ops| && pc < |g.lays| && g.u.ops[pc] == op && Steady(g, x)
    && g.lays[pc].bodies == x.bodies && g.lays[pc].loops == x.loops && g.lays[pc].frames == x.frames
        && g.lays[pc].site == x.site
    && Floor(x, g.base) + Pops(g.u.infos, op) <= g.lays[pc].depth
  }

  /** The fate at `q`, as the mode reads it. */
  function FateOf(g: Book, q: int, odd: bool): Fate { Reading(g.m.strict, FateAt(g.u.ops, q, odd)) }

  /** Instructions that take operands and leave one. */
  predicate Values(op: OpCode) {
    op.Push? || op.Load? || op.Incr? || op.Lappend? || op.Bin? || op.Un? || op.Concat? || op.EvalScript?
        || op.EvalExpr? || op.Call? || op.Store?
  }

  predicate AnswersBit(op: OpCode) { (op.Push? && LitBit(op.lit)) || (op.Bin? && IsCmp(op.bin)) || op == Un(Not) }

  lemma ValueGood(g: Book, pc: nat, x: Layout, op: OpCode, bit: bool)
    requires Stands(g, pc, x, op) && Values(op) && (bit ==> AnswersBit(op))
    requires Leads(g.m, g.lays, pc + 1, Deep(x, LayAt(g.lays, pc).depth - Pops(g.u.infos, op) + 1).(bit := bit))
    requires g.m.bits && op == Un(Not) ==> LayAt(g.lays, pc).bit || !FateOf(g, pc + 1, true).Never?
    ensures Good(g, pc, pc + 1)
  {
    hide Safe;
    SteadyLike(g, x, g.lays[pc]);
    assert Safe(g.m, g.lays, g.lays[pc]);
    SafeParts(g, g.lays[pc]);
  }

  lemma SafeParts(g: Book, x: Layout)
    requires Safe(g.m, g.lays, x)
    ensures Anchored(g.m, g.lays, x) && (g.m.exact ==> Escapes(g.lays, x))
  {
  }

  lemma DropGood(g: Book, pc: nat, x: Layout)
    requires Stands(g, pc, x, Pop) && Leads(g.m, g.lays, pc + 1, Deep(x, LayAt(g.lays, pc).depth - 1))
    ensures Good(g, pc, pc + 1)
  {
    hide Safe;
    SteadyLike(g, x, g.lays[pc]);
    SafeParts(g, g.lays[pc]);
  }

  /** Instructions after which nothing follows. */
  lemma EndGood(g: Book, pc: nat, x: Layout, op: OpCode)
    requires Stands(g, pc, x, op) && (op.Return? || op.Exit? || op == Loop(LoopOp.Break) || op == Loop(LoopOp.Continue))
    ensures Good(g, pc, pc + 1)
  {
    hide Safe;
    SteadyLike(g, x, g.lays[pc]);
    SafeParts(g, g.lays[pc]);
  }

  lemma BeginGood(g: Book, pc: nat, x: Layout, s: nat)
    requires Stands(g, pc, x, BeginCmd(s)) && Leads(g.m, g.lays, pc + 1,
        x.(depth := LayAt(g.lays, pc).depth, site := s, bit := false))
    ensures Good(g, pc, pc + 1)
  {
    hide Safe;
    SteadyLike(g, x, g.lays[pc]);
    SafeParts(g, g.lays[pc]);
  }

  lemma MarkGood(g: Book, pc: nat, x: Layout, k: MarkOp)
    requires Stands(g, pc, x, Mark(k)) && LayAt(g.lays, pc) == x && (k.BodyMarkFramed? ==> x.frames.Cons?)
    requires k.NextMark? ==>
        PassesAt(x, pc) && Barrier(Before(g.u.ops, pc))
        && (g.m.flat ==> NoNext(x.bodies, x.loops))
    requires Leads(g.m, g.lays, pc + 1, Open(x, RegionFor(k, x)))
    ensures Good(g, pc, pc + 1)
  {
    hide Safe;
    SafeParts(g, x);
  }

  /** A region closed, by its end or by a jump to `t`. */
  lemma CloseGood(g: Book, pc: nat, y: Layout, op: OpCode, t: nat)
    requires Stands(g, pc, y, op) && Closable(y) && (op == Jump(t) || (op.SubEnd? && t == pc + 1))
    requires Leads(g.m, g.lays, t, Close(LayAt(g.lays, pc)).(bit := false))
    requires g.m.flat && Each(g, y) ==>
        Depth(y.bodies) >= EntryDepth(y) + 2 || (op.Jump? && t == pc + 1 && IsNext(OpAt(g.u.ops, pc + 1)))
    requires g.m.flat && op.Jump? && StartsPass(Lands(g.u.ops, t)) ==> NoNext(y.bodies, y.loops)
    ensures Good(g, pc, pc + 1)
  {
    hide Safe, OpFits, RoleFits, Leads, Closable, Each, Steady;
    CloseFits(g, pc, y, op, t);
    CloseRole(g, pc, y, op, t);
  }

  lemma CloseFits(g: Book, pc: nat, y: Layout, op: OpCode, t: nat)
    requires Stands(g, pc, y, op) && Closable(y) && (op == Jump(t) || (op.SubEnd? && t == pc + 1))
    requires Leads(g.m, g.lays, t, Close(LayAt(g.lays, pc)).(bit := false))
    ensures OpFits(g.m, g.u.infos, g.lays, g.base, pc, op)
  {
    hide Safe;
    SteadyLike(g, y, g.lays[pc]);
    SafeParts(g, g.lays[pc]);
  }

  lemma CloseRole(g: Book, pc: nat, y: Layout, op: OpCode, t: nat)
    requires Stands(g, pc, y, op) && Closable(y) && (op == Jump(t) || (op.SubEnd? && t == pc + 1))
    requires g.m.flat && Each(g, y) ==>
        Depth(y.bodies) >= EntryDepth(y) + 2 || (op.Jump? && t == pc + 1 && IsNext(OpAt(g.u.ops, pc + 1)))
    requires g.m.flat && op.Jump? && StartsPass(Lands(g.u.ops, t)) ==> NoNext(y.bodies, y.loops)
    ensures RoleFits(g.m, g.u.ops, g.lays, pc)
  {
    hide Safe;
    if op == Jump(pc + 1) && IsNext(OpAt(g.u.ops, pc + 1)) { assert AdjacentTo(g.u.ops, pc, pc + 1); }
  }

  lemma BranchGood(g: Book, pc: nat, x: Layout, t: nat)
    requires Stands(g, pc, x, JumpIf(false, t))
    requires var less := Deep(x, LayAt(g.lays, pc).depth - 1);
      Leads(g.m, g.lays, t, less) && Leads(g.m, g.lays, pc + 1, InBody(less))
    ensures Good(g, pc, pc + 1)
  {
    hide Safe;
    SteadyLike(g, x, g.lays[pc]);
    SafeParts(g, g.lays[pc]);
  }

  // ── regions ──

  /** A script between a mark and the end of its region. */
  lemma RegionGood(g: Book, k: MarkOp, s: Script, at: nat, next: bool, x: Layout, y: Layout, close: OpCode, t: nat)
    requires Ready(g, x) && y == Open(x, RegionFor(k, x)) && !k.NextMark? && !k.BodyMarkFramed?
    requires var code := ScriptCode(s, at + 1, next);
      && Here(g, at, [Mark(k)] + code + [close], InRegion(ScriptLays(s, at + 1, next, y), s, x, y))
      && (close == Jump(t) || (close == SubEnd && t == at + |code| + 2))
    requires Leads(g.m, g.lays, t, Push1(x))
    requires var end := at + |ScriptCode(s, at + 1, next)| + 1;
        Ready(g, y) && Leads(g.m, g.lays, end, ScriptOut(s, y)) ==> Good(g, at + 1, end)
    requires close.Jump? ==> StopsAt(g, t)
    ensures Good(g, at, at + |ScriptCode(s, at + 1, next)| + 2)
  {
    hide Good, Steady, ScriptCode, ScriptLays, ScriptOut, Leads, FlagsOf, Here, StopsAt, Closable, RegionFor;
    var code, ls := ScriptCode(s, at + 1, next), ScriptLays(s, at + 1, next, y);
    var end := at + |code| + 1;
    HereSplit(g, at, [Mark(k)] + code, [close], [x] + ls, [ScriptOut(s, y)]);
    HereSplit(g, at, [Mark(k)], code, [x], ls);
    HereAt(g, at, [Mark(k)], [x], 0);
    HereAt(g, at + 1, code, ls, 0);
    assert !RegionFor(k, x).Next? by { PlainRegion(k, x); }
    SteadyOpen(g, x, RegionFor(k, x));
    SelfLeads(g, at + 1, y);
    SteadyFloor(g, x);
    StandsFor(g, at, x, Mark(k));
    MarkGood(g, at, x, k);
    RegionCloses(g, k, s, end, x, y, close, t);
    GoodJoin(g, at, at + 1, end);
    GoodJoin(g, at, end, end + 1);
  }

  lemma PlainRegion(k: MarkOp, x: Layout)
    requires !k.NextMark?
    ensures !RegionFor(k, x).Next?
  {
  }

  /** The end of a region. */
  lemma RegionCloses(g: Book, k: MarkOp, s: Script, end: nat, x: Layout, y: Layout, close: OpCode, t: nat)
    requires Ready(g, x) && y == Open(x, RegionFor(k, x)) && Ready(g, y) && Closable(y)
    requires Here(g, end, [close], [ScriptOut(s, y)]) && (close == Jump(t) || (close == SubEnd && t == end + 1))
    requires Leads(g.m, g.lays, t, Push1(x)) && (close.Jump? ==> StopsAt(g, t))
    ensures Good(g, end, end + 1) && Leads(g.m, g.lays, end, ScriptOut(s, y))
  {
    hide Good, Steady, LastSite, Leads, FlagsOf, Here, FateAt, NoNext;
    HereAt(g, end, [close], [ScriptOut(s, y)], 0);
    SelfLeads(g, end, ScriptOut(s, y));
    SteadyFloor(g, y);
    SteadyLike(g, y, ScriptOut(s, y));
    assert g.m.flat && Each(g, x) ==> Depth(y.bodies) >= y.loops.head.at.bodiesLen + 2;
    assert Floor(ScriptOut(s, y), g.base) == Floor(y, g.base);
    StandsFor(g, end, ScriptOut(s, y), close);
    assert Close(ScriptOut(s, y)) == Push1(x) by { RegionSite(k, x); }
    CloseGood(g, end, ScriptOut(s, y), close, t);
  }

  lemma RegionSite(k: MarkOp, x: Layout)
    ensures RegionFor(k, x).site == x.site
  {
  }

  lemma SteadyFloor(g: Book, x: Layout)
    requires Steady(g, x)
    ensures Floor(x, g.base) <= x.depth
  {
  }

  lemma StandsFor(g: Book, pc: nat, x: Layout, op: OpCode)
    requires pc < |g.u.ops| && pc < |g.lays| && OpAt(g.u.ops, pc) == op && LayAt(g.lays, pc) == x && Steady(g, x)
    requires Floor(x, g.base) + Pops(g.u.infos, op) <= x.depth
    ensures Stands(g, pc, x, op)
  {
  }

  lemma SelfLeads(g: Book, pc: nat, x: Layout)
    requires pc < |g.lays| && LayAt(g.lays, pc) == x
    ensures Leads(g.m, g.lays, pc, x)
  {
  }

  // ── values ──

  predicate Uniform(g: Book) {
    g.m.framed.Some? ==> forall i | 0 <= i < |g.u.infos| :: g.u.infos[i].framed == g.m.framed.value
  }

  /** A piece of code that starts with `x` and goes on with `out` behind it. */
  ghost predicate Piece(g: Book, at: int, code: seq<OpCode>, ls: seq<Layout>, x: Layout, out: Layout) {
    Uniform(g) && Ready(g, x) && Here(g, at, code, ls) && Leads(g.m, g.lays, at + |code|, out)
  }

  lemma StandsOver(g: Book, pc: nat, x: Layout, y: Layout, op: OpCode)
    requires pc < |g.u.ops| && pc < |g.lays| && OpAt(g.u.ops, pc) == op && LayAt(g.lays, pc) == y && Steady(g, x)
    requires y == x.(depth := y.depth, bit := y.bit) && x.depth + Pops(g.u.infos, op) <= y.depth
    ensures Stands(g, pc, x, op)
  {
    hide Safe;
  }

  /** One instruction that leaves one value over `x`. */
  lemma OneValue(g: Book, at: nat, op: OpCode, x: Layout)
    requires Piece(g, at, [op], [x], x, Push1(x)) && Values(op) && Pops(g.u.infos, op) == 0
    ensures Good(g, at, at + 1)
  {
    hide Steady, Leads;
    HereAt(g, at, [op], [x], 0);
    StandsOver(g, at, x, x, op);
    ValueGood(g, at, x, op, false);
  }

  /** A value pushed and handed over. */
  lemma HandedGood(g: Book, at: nat, lit: Lit, op: OpCode, x: Layout)
    requires Piece(g, at, [Push(lit), op], [x, Push1(x)], x, Push1(x)) && (op.EvalScript? || op.EvalExpr?)
    ensures Good(g, at, at + 2)
  {
    hide Steady, Leads;
    HereAt(g, at, [Push(lit), op], [x, Push1(x)], 0);
    HereAt(g, at, [Push(lit), op], [x, Push1(x)], 1);
    SelfLeads(g, at + 1, Push1(x));
    StandsOver(g, at, x, x, Push(lit));
    ValueGood(g, at, x, Push(lit), false);
    StandsOver(g, at + 1, x, Push1(x), op);
    ValueGood(g, at + 1, x, op, false);
    GoodJoin(g, at, at + 1, at + 2);
  }

  /** A piece and one instruction that takes what it left. */
  lemma ThenTakes(g: Book, at: nat, code: seq<OpCode>, ls: seq<Layout>, op: OpCode, x: Layout, y: Layout, bit: bool)
    requires Uniform(g) && Ready(g, x) && Here(g, at, code + [op], ls + [y]) && |ls| == |code|
    requires Values(op) && (bit ==> AnswersBit(op)) && y == x.(depth := y.depth, bit := y.bit)
        && x.depth + Pops(g.u.infos, op) == y.depth
    requires Leads(g.m, g.lays, at + |code| + 1, Push1(x).(bit := bit))
    requires Here(g, at, code, ls) && Leads(g.m, g.lays, at + |code|, y) ==> Good(g, at, at + |code|)
    requires g.m.bits && op == Un(Not) ==> y.bit || !FateOf(g, at + |code| + 1, true).Never?
    ensures Good(g, at, at + |code| + 1)
  {
    hide Steady, Leads, Good, Safe, FateAt;
    HereSplit(g, at, code, [op], ls, [y]);
    var pc := at + |code|;
    HereAt(g, pc, [op], [y], 0);
    SelfLeads(g, pc, y);
    StandsOver(g, pc, x, y, op);
    ValueGood(g, pc, x, op, bit);
    GoodJoin(g, at, pc, pc + 1);
  }

  /** What the account claims beyond the least asks something of the script. */
  predicate Planned(g: Book) { g.m.exact || g.m.flat || g.m.bits }

  function PlanOf(g: Book): Plan { Plan(g.m.exact, g.m.flat, g.m.bits, g.m.strict) }

  predicate Plans(g: Book, s: Script, next: bool,
          x: Layout) { Planned(g) ==> PlanScript(PlanOf(g), s, next, FlagsOf(x)) }

  /** What follows at `end` does not look at how a value was negated, and is no
      start of a pass. */
  predicate StopsAt(g: Book, end: int) {
    FateAt(g.u.ops, end, true).Always? && FateAt(g.u.ops, end, false).Never? && !StartsPass(Lands(g.u.ops, end))
  }

  /** A value at `end` has the fate `even`. */
  predicate Fated(g: Book, end: int, even: Fate) {
    g.m.bits ==> FateOf(g, end, true).Always? && FateOf(g, end, false) == Reading(g.m.strict, even)
  }

  lemma StopIsFated(g: Book, end: nat)
    requires StopsAt(g, end)
    ensures Fated(g, end, Never)
  {
  }

  lemma {:induction false} WordGood(g: Book, w: Word, at: nat, next: bool, x: Layout)
    requires Piece(g, at, WordCode(w, at, next), WordLays(w, at, next, x), x, Push1(x))
    requires ShapedWord(g.u.infos, w) && (Planned(g) ==> PlanWord(PlanOf(g), w, next, FlagsOf(x)))
    ensures Good(g, at, at + |WordCode(w, at, next)|)
    decreases w, 3
  {
    hide Steady, Leads, Good, Here, ScriptCode, ScriptLays, WordsCode, WordsLays, ShapedScript, ShapedWords,
        PlanScript, PlanWords, FlagsOf, Uniform;
    match w
    case Text(lit) => OneValue(g, at, Push(lit), x);
    case Var(l) => OneValue(g, at, Load(l), x);
    case Eval(lit) => HandedGood(g, at, lit, EvalScript, x);
    case Sugar(lit) => HandedGood(g, at, lit, EvalExpr, x);
    case Cat(parts) =>
      var y := Over(x, Count(parts));
      var code, ls := WordsCode(parts, at, next), WordsLays(parts, at, next, x);
      if Here(g, at, code, ls) && Leads(g.m, g.lays, at + |code|, y) { WordsGood(g, parts, at, next, x); }
      ThenTakes(g, at, code, ls, OpCode.Concat(Count(parts)), x, y, false);
    case Bracket(s) => BracketGood(g, SubMark, s, at, next, x);
  }

  /** A bracketed script, as a word or an operand. */
  lemma {:induction false} BracketGood(g: Book, k: MarkOp, s: Script, at: nat, next: bool, x: Layout)
    requires k.SubMark? || k.ExprMark?
    requires var y := Open(x, RegionFor(k, x)); var code := ScriptCode(s, at + 1, next);
      Piece(g, at, [Mark(k)] + code + [SubEnd], InRegion(ScriptLays(s, at + 1, next, y), s, x, y), x, Push1(x))
    requires ShapedScript(g.u.infos, s) && Plans(g, s, next, x)
    ensures Good(g, at, at + |ScriptCode(s, at + 1, next)| + 2)
    decreases s, 3
  {
    hide Steady, Leads, Good, ScriptCode, ScriptLays, ShapedScript, PlanScript, FlagsOf, LastSite, Placed, Uniform;
    var y := Open(x, RegionFor(k, x));
    var code, ls := ScriptCode(s, at + 1, next), ScriptLays(s, at + 1, next, y);
    SteadyOpen(g, x, RegionFor(k, x));
    HereSplit(g, at, [Mark(k)] + code, [SubEnd], [x] + ls, [ScriptOut(s, y)]);
    HereSplit(g, at, [Mark(k)], code, [x], ls);
    HereAt(g, at + 1 + |code|, [SubEnd], [ScriptOut(s, y)], 0);
    PlainFate(g, at + 1 + |code|, SubEnd);
    if Leads(g.m, g.lays, at + 1 + |code|, ScriptOut(s, y)) { ScriptGood(g, s, at + 1, next, y); }
    RegionGood(g, k, s, at, next, x, y, SubEnd, at + |code| + 2);
  }

  lemma {:induction false} WordsGood(g: Book, ws: Words, at: nat, next: bool, x: Layout)
    requires Piece(g, at, WordsCode(ws, at, next), WordsLays(ws, at, next, x), x, Over(x, Count(ws)))
    requires ShapedWords(g.u.infos, ws) && (Planned(g) ==> PlanWords(PlanOf(g), ws, next, FlagsOf(x)))
    ensures Good(g, at, at + |WordsCode(ws, at, next)|)
    decreases ws, 3
  {
    hide *;
    WordsUnfold(PlanOf(g), g.u.infos, ws, at, next, x, FlagsOf(x));
    PieceParts(g, at, WordsCode(ws, at, next), WordsLays(ws, at, next, x), x, Over(x, Count(ws)));
    if ws.More? { WordThenWords(g, ws.w, ws.rest, at, next, x); } else { NothingGood(g, at); }
  }

  lemma PieceParts(g: Book, at: nat, code: seq<OpCode>, ls: seq<Layout>, x: Layout, out: Layout)
    requires Piece(g, at, code, ls, x, out)
    ensures Uniform(g) && Ready(g, x) && !x.bit && Here(g, at, code, ls) && Leads(g.m, g.lays, at + |code|, out)
  {
  }

  lemma WordsUnfold(p: Plan, infos: seq<ForeachInfo>, ws: Words, at: nat, next: bool, x: Layout, ctx: List<bool>)
    ensures ws.NoWords? ==> WordsCode(ws, at, next) == []
    ensures ws.More? ==> var mid := at + |WordCode(ws.w, at, next)|;
      && WordsCode(ws, at, next) == WordCode(ws.w, at, next) + WordsCode(ws.rest, mid, next)
      && WordsLays(ws, at, next, x) == WordLays(ws.w, at, next, x) + WordsLays(ws.rest, mid, next, Push1(x))
      && (!x.bit ==> Over(x, Count(ws)) == Over(Push1(x), Count(ws.rest)))
      && (ShapedWords(infos, ws) ==> ShapedWord(infos, ws.w) && ShapedWords(infos, ws.rest))
      && (PlanWords(p, ws, next, ctx) ==> PlanWord(p, ws.w, next, ctx) && PlanWords(p, ws.rest, next, ctx))
  {
    hide WordCode, WordLays, ShapedWord, PlanWord;
  }

  lemma {:induction false} WordThenWords(g: Book, w: Word, rest: Words, at: nat, next: bool, x: Layout)
    requires Uniform(g) && Ready(g, x)
    requires var a := WordCode(w, at, next); var b := WordsCode(rest, at + |a|, next);
      && Here(g, at, a + b, WordLays(w, at, next, x) + WordsLays(rest, at + |a|, next, Push1(x)))
      && Leads(g.m, g.lays, at + |a| + |b|, Over(Push1(x), Count(rest)))
    requires ShapedWord(g.u.infos, w) && (Planned(g) ==> PlanWord(PlanOf(g), w, next, FlagsOf(x)))
    requires ShapedWords(g.u.infos, rest) && (Planned(g) ==> PlanWords(PlanOf(g), rest, next, FlagsOf(x)))
    ensures var a := WordCode(w, at, next); Good(g, at, at + |a| + |WordsCode(rest, at + |a|, next)|)
    decreases More(w, rest), 2
  {
    hide Steady, Leads, Good, Here, WordCode, WordLays, WordsCode, WordsLays, ShapedWord, ShapedWords, PlanWord,
        PlanWords, FlagsOf, Uniform, Count;
    var a, la := WordCode(w, at, next), WordLays(w, at, next, x);
    var mid := at + |a|;
    var b, lb := WordsCode(rest, mid, next), WordsLays(rest, mid, next, Push1(x));
    HereSplit(g, at, a, b, la, lb);
    SteadyFloor(g, x);
    SteadyLike(g, x, Push1(x));
    WordsStart(g, rest, mid, next, Push1(x), Over(Push1(x), Count(rest)));
    WordGood(g, w, at, next, x);
    WordsGood(g, rest, mid, next, Push1(x));
    GoodJoin(g, at, mid, mid + |b|);
  }

  lemma NothingGood(g: Book, at: nat)
    ensures Good(g, at, at)
  {
  }

  /** Words start with the layout they are given, or leave it as it is. */
  lemma WordsStart(g: Book, ws: Words, at: nat, next: bool, x: Layout, out: Layout)
    requires Here(g, at, WordsCode(ws, at, next), WordsLays(ws, at, next, x)) && !x.bit
        && out == Over(x, Count(ws))
    requires Leads(g.m, g.lays, at + |WordsCode(ws, at, next)|, out)
    ensures Leads(g.m, g.lays, at, x)
  {
    hide Leads, WordCode, WordLays;
    WordsHead(ws, at, next, x);
    if ws.More? {
      HereAt(g, at, WordsCode(ws, at, next), WordsLays(ws, at, next, x), 0);
      SelfLeads(g, at, x);
    }
  }

  lemma {:induction false} ExprGood(g: Book, e: Syntax.Expr, at: nat, next: bool, x: Layout)
    requires Piece(g, at, ExprCode(e, at, next), ExprLays(e, at, next, x), x, ExprOut(e, x))
    requires ShapedExpr(g.u.infos, e) && (Planned(g) ==> PlanExpr(PlanOf(g), e, next, FlagsOf(x)))
    requires var end := at + |ExprCode(e, at, next)|;
      g.m.bits ==> NegationsFit(e, FateOf(g, end, false), FateOf(g, end, true))
    ensures Good(g, at, at + |ExprCode(e, at, next)|)
    decreases e, 3
  {
    hide Piece, Good, ExprCode, ExprLays, ExprOut, ShapedExpr, PlanExpr, NegationsFit, FateOf, FlagsOf, Planned;
    match e
    case Binary(op, l, r) =>
      BinaryCode(op, l, r, at, next);
      BinaryLays(op, l, r, at, next, x);
      BinaryOut(op, l, r, x);
      BinaryFits(g.u.infos, PlanOf(g), op, l, r, next, FlagsOf(x), FateOf(g, at + |ExprCode(e, at, next)|, false),
                 FateOf(g, at + |ExprCode(e, at, next)|, true));
      BinaryGood(g, op, l, r, at, next, x);
    case Unary(un, y) =>
      UnaryParts(un, y, at, next, x);
      UnaryFits(g.u.infos, PlanOf(g), un, y, next, FlagsOf(x));
      UnaryGood(g, un, y, at, next, x);
    case _ => OperandGood(g, e, at, next, x);
  }

  /** Operands. */
  lemma {:induction false} OperandGood(g: Book, e: Syntax.Expr, at: nat, next: bool, x: Layout)
    requires Piece(g, at, ExprCode(e, at, next), ExprLays(e, at, next, x), x, ExprOut(e, x))
    requires ShapedExpr(g.u.infos, e) && (Planned(g) ==> PlanExpr(PlanOf(g), e, next, FlagsOf(x)))
    requires !e.Binary? && !e.Unary?
    ensures Good(g, at, at + |ExprCode(e, at, next)|)
    decreases e, 2
  {
    hide Steady, Leads, Good, Here, ScriptCode, ScriptLays, ShapedScript, PlanScript, FlagsOf, Uniform, LitBit, Planned,
        LastSite;
    match e
    case Leaf(lit) => LeafGood(g, lit, at, x);
    case Read(l) => OneValue(g, at, Load(l), x);
    case Inner(s) => BracketGood(g, ExprMark, s, at, next, x);
  }

  lemma BinaryLays(op: BinOp, l: Syntax.Expr, r: Syntax.Expr, at: int, next: bool, x: Layout)
    ensures var mid := at + |ExprCode(l, at, next)|;
      ExprLays(Syntax.Binary(op, l, r), at, next, x)
      == ExprLays(l, at, next, x) + ExprLays(r, mid, next, Push1(x)) + [ExprOut(r, Push1(x))]
  {
    hide ScriptCode, ScriptLays, ExprCode, ExprOut, InRegion;
  }

  lemma BinaryOut(op: BinOp, l: Syntax.Expr, r: Syntax.Expr, x: Layout)
    ensures ExprOut(Syntax.Binary(op, l, r), x) == Push1(x).(bit := IsCmp(op))
  {
  }

  lemma BinaryFits(infos: seq<ForeachInfo>, p: Plan, op: BinOp, l: Syntax.Expr, r: Syntax.Expr, next: bool,
          ctx: List<bool>, even: Fate, odd: Fate)
    ensures ShapedExpr(infos, Syntax.Binary(op, l, r)) ==> ShapedExpr(infos, l) && ShapedExpr(infos, r)
    ensures PlanExpr(p, Syntax.Binary(op, l, r), next, ctx) ==> PlanExpr(p, l, next, ctx) && PlanExpr(p, r, next, ctx)
    ensures NegationsFit(Syntax.Binary(op, l, r), even, odd) ==>
        NegationsFit(l, Never, Always) && NegationsFit(r, Never, Always)
  {
  }

  lemma UnaryParts(un: UnOp, e: Syntax.Expr, at: int, next: bool, x: Layout)
    ensures ExprCode(Syntax.Unary(un, e), at, next) == ExprCode(e, at, next) + [Un(un)]
    ensures ExprLays(Syntax.Unary(un, e), at, next, x) == ExprLays(e, at, next, x) + [ExprOut(e, x)]
  {
  }

  lemma UnaryFits(infos: seq<ForeachInfo>, p: Plan, un: UnOp, e: Syntax.Expr, next: bool, ctx: List<bool>)
    ensures ShapedExpr(infos, Syntax.Unary(un, e)) ==> ShapedExpr(infos, e)
    ensures PlanExpr(p, Syntax.Unary(un, e), next, ctx) ==> PlanExpr(p, e, next, ctx)
  {
  }

  lemma LeafGood(g: Book, lit: Lit, at: nat, x: Layout)
    requires Piece(g, at, [Push(lit)], [x], x, Push1(x).(bit := LitBit(lit)))
    ensures Good(g, at, at + 1)
  {
    hide Steady, Leads, Good, Here, LitBit;
    HereAt(g, at, [Push(lit)], [x], 0);
    StandsOver(g, at, x, x, Push(lit));
    ValueGood(g, at, x, Push(lit), LitBit(lit));
  }

  lemma {:induction false} UnaryGood(g: Book, un: UnOp, e: Syntax.Expr, at: nat, next: bool, x: Layout)
    requires Piece(g, at, ExprCode(e, at, next) + [Un(un)], ExprLays(e, at, next, x) + [ExprOut(e, x)], x,
        ExprOut(Syntax.Unary(un, e), x))
    requires ShapedExpr(g.u.infos, e) && (Planned(g) ==> PlanExpr(PlanOf(g), e, next, FlagsOf(x)))
    requires var end := at + |ExprCode(e, at, next)| + 1;
      g.m.bits ==> NegationsFit(Syntax.Unary(un, e), FateOf(g, end, false), FateOf(g, end, true))
    ensures Good(g, at, at + |ExprCode(e, at, next)| + 1)
    decreases Syntax.Unary(un, e), 2
  {
    hide Steady, Leads, Good, Here, ShapedExpr, PlanExpr, FlagsOf, Uniform, ExprCode, ExprLays, BitExpr, FateAt,
        Planned;
    var code, ls := ExprCode(e, at, next), ExprLays(e, at, next, x);
    var pc := at + |code|;
    HereSplit(g, at, code, [Un(un)], ls, [ExprOut(e, x)]);
    HereAt(g, pc, [Un(un)], [ExprOut(e, x)], 0);
    FateAtUnary(g.u.ops, pc, un);
    if Leads(g.m, g.lays, pc, ExprOut(e, x)) { ExprGood(g, e, at, next, x); }
    assert ExprOut(Syntax.Unary(un, e), x) == Push1(x).(bit := un.Not?) by { UnaryBit(un, e); }
    assert g.m.bits && un.Not? ==> BitExpr(e) || !FateOf(g, pc + 1, true).Never?;
    ThenTakes(g, at, code, ls, Un(un), x, ExprOut(e, x), un.Not?);
  }

  lemma UnaryBit(un: UnOp, e: Syntax.Expr)
    ensures BitExpr(Syntax.Unary(un, e)) == un.Not?
  {
  }

  lemma FateAtUnary(ops: seq<OpCode>, q: nat, un: UnOp)
    requires q < |ops| && ops[q] == Un(un)
    ensures if un.Not? then forall odd :: FateAt(ops, q, odd) == FateAt(ops, q + 1, !odd)
            else FateAt(ops, q, true) == Always && FateAt(ops, q, false) == Never
  {
  }

  lemma {:induction false} BinaryGood(g: Book, op: BinOp, l: Syntax.Expr, r: Syntax.Expr, at: nat, next: bool,
          x: Layout)
    requires var a := ExprCode(l, at, next); var mid := at + |a|;
      Piece(g, at, a + ExprCode(r, mid, next) + [Bin(op)],
          ExprLays(l, at, next, x) + ExprLays(r, mid, next, Push1(x)) + [ExprOut(r, Push1(x))],
            x, Push1(x).(bit := IsCmp(op)))
    requires ShapedExpr(g.u.infos, l) && (Planned(g) ==> PlanExpr(PlanOf(g), l, next, FlagsOf(x)))
    requires ShapedExpr(g.u.infos, r) && (Planned(g) ==> PlanExpr(PlanOf(g), r, next, FlagsOf(x)))
    requires g.m.bits ==> NegationsFit(l, Never, Always) && NegationsFit(r, Never, Always)
    ensures var a := ExprCode(l, at, next); Good(g, at, at + |a| + |ExprCode(r, at + |a|, next)| + 1)
    decreases Syntax.Binary(op, l, r), 2
  {
    hide Steady, Leads, Good, Here, ShapedExpr, PlanExpr, FlagsOf, Uniform, FateAt, NegationsFit, Planned, ExprCode,
        ExprLays, BitExpr;
    var a, la := ExprCode(l, at, next), ExprLays(l, at, next, x);
    var mid := at + |a|;
    var b, lb := ExprCode(r, mid, next), ExprLays(r, mid, next, Push1(x));
    var top := ExprOut(r, Push1(x));
    HereSplit(g, at, a + b, [Bin(op)], la + lb, [top]);
    HereAt(g, mid + |b|, [Bin(op)], [top], 0);
    if Leads(g.m, g.lays, mid + |b|, top) { OperandsGood(g, op, l, r, at, next, x); }
    ThenTakes(g, at, a + b, la + lb, Bin(op), x, top, IsCmp(op));
  }

  /** Both operands of an operator. */
  lemma {:induction false} OperandsGood(g: Book, op: BinOp, l: Syntax.Expr, r: Syntax.Expr, at: nat, next: bool,
          x: Layout)
    requires Uniform(g) && Ready(g, x)
    requires var a := ExprCode(l, at, next); var b := ExprCode(r, at + |a|, next);
      && Here(g, at, a + b, ExprLays(l, at, next, x) + ExprLays(r, at + |a|, next, Push1(x)))
      && Leads(g.m, g.lays, at + |a| + |b|, ExprOut(r, Push1(x)))
      && OpAt(g.u.ops, at + |a| + |b|) == Bin(op)
    requires ShapedExpr(g.u.infos, l) && (Planned(g) ==> PlanExpr(PlanOf(g), l, next, FlagsOf(x)))
    requires ShapedExpr(g.u.infos, r) && (Planned(g) ==> PlanExpr(PlanOf(g), r, next, FlagsOf(x)))
    requires g.m.bits ==> NegationsFit(l, Never, Always) && NegationsFit(r, Never, Always)
    ensures var a := ExprCode(l, at, next); Good(g, at, at + |a| + |ExprCode(r, at + |a|, next)|)
    decreases Syntax.Binary(op, l, r), 1
  {
    hide Steady, Leads, Good, Here, ShapedExpr, PlanExpr, FlagsOf, Uniform, BitExpr, ExprCode, ExprLays, FateAt,
        NegationsFit, Planned;
    var a, la := ExprCode(l, at, next), ExprLays(l, at, next, x);
    var mid := at + |a|;
    var y := Push1(x);
    var b, lb := ExprCode(r, mid, next), ExprLays(r, mid, next, y);
    OperandsHere(g, l, r, at, next, x);
    assert Placed(g.u, mid, b) by { HerePlaced(g, mid, b, lb); }
    OperandFates(g.u, r, op, mid, next);
    ExprGood(g, l, at, next, x);
    ExprGood(g, r, mid, next, y);
    GoodJoin(g, at, mid, mid + |b|);
  }

  lemma OperandsHere(g: Book, l: Syntax.Expr, r: Syntax.Expr, at: nat, next: bool, x: Layout)
    requires Ready(g, x)
    requires var a := ExprCode(l, at, next); var b := ExprCode(r, at + |a|, next);
      Here(g, at, a + b, ExprLays(l, at, next, x) + ExprLays(r, at + |a|, next, Push1(x)))
    ensures var a := ExprCode(l, at, next); var mid := at + |a|;
      && Here(g, at, a, ExprLays(l, at, next, x))
      && Here(g, mid, ExprCode(r, mid, next), ExprLays(r, mid, next, Push1(x)))
      && Leads(g.m, g.lays, mid, ExprOut(l, x)) && Ready(g, Push1(x)) && FlagsOf(Push1(x)) == FlagsOf(x)
  {
    hide Steady, Leads, Here, FlagsOf, BitExpr, ExprCode, ExprLays;
    var a, la := ExprCode(l, at, next), ExprLays(l, at, next, x);
    var mid, y := at + |a|, Push1(x);
    var b, lb := ExprCode(r, mid, next), ExprLays(r, mid, next, y);
    HereSplit(g, at, a, b, la, lb);
    SteadyFloor(g, x);
    SteadyLike(g, x, y);
    ExprHead(r, mid, next, y);
    HereAt(g, mid, b, lb, 0);
    SelfLeads(g, mid, y);
    Sharper(g, mid, y, ExprOut(l, x));
  }

  lemma HerePlaced(g: Book, at: nat, code: seq<OpCode>, ls: seq<Layout>)
    requires Here(g, at, code, ls)
    ensures Placed(g.u, at, code)
  {
  }

  /** No operand of an operator is negated by what follows it. */
  lemma OperandFates(u: Code, r: Syntax.Expr, op: BinOp, at: nat, next: bool)
    requires Placed(u, at, ExprCode(r, at, next))
    requires OpAt(u.ops, at + |ExprCode(r, at, next)|) == Bin(op)
    ensures var end := at + |ExprCode(r, at, next)|;
      && FateAt(u.ops, at, true) == Always && FateAt(u.ops, at, false) == Never
      && FateAt(u.ops, end, true) == Always && FateAt(u.ops, end, false) == Never
  {
    hide ExprCode;
    var end := at + |ExprCode(r, at, next)|;
    assert Solid(u.ops, end, 1);
    SolidOperand(u, r, at, next, 0);
    ExprFirst(r, at, next);
    PlacedAt(u, at, ExprCode(r, at, next), 0);
  }

  lemma {:induction false} ExprFirst(e: Syntax.Expr, at: nat, next: bool)
    ensures var r := ExprCode(e, at, next); r != [] && (r[0].Push? || r[0].Load? || r[0] == Mark(ExprMark))
    decreases e
  {
    match e
    case Binary(_, l, _) => ExprFirst(l, at, next);
    case Unary(_, x) => ExprFirst(x, at, next);
    case _ =>
  }

  lemma SolidStep(ops: seq<OpCode>, q: nat, c: nat)
    requires q < |ops|
    ensures ops[q].Push? ==> Solid(ops, q, c) == Solid(ops, q + 1, c + 1)
    ensures ops[q].Bin? && c > 1 ==> Solid(ops, q, c) == Solid(ops, q + 1, c - 1)
    ensures ops[q] == Un(Not) ==> Solid(ops, q, c) == Solid(ops, q + 1, c)
    ensures ops[q].Load? || ops[q].Mark? || (ops[q].Un? && ops[q] != Un(Not)) ==> Solid(ops, q, c)
  {
  }

  /** An operand stays on top of constants as long as what follows it does. */
  lemma {:induction false} SolidOperand(u: Code, e: Syntax.Expr, at: nat, next: bool, c: nat)
    requires Placed(u, at, ExprCode(e, at, next)) && Solid(u.ops, at + |ExprCode(e, at, next)|, c + 1)
    ensures Solid(u.ops, at, c)
    decreases e, 1
  {
    hide ScriptCode, Placed, Solid;
    ExprFirst(e, at, next);
    PlacedAt(u, at, ExprCode(e, at, next), 0);
    SolidStep(u.ops, at, c);
    match e
    case Binary(op, l, r) => SolidOperands(u, op, l, r, at, next, c);
    case Unary(un, x) =>
      var a := ExprCode(x, at, next);
      PlacedSplit(u, at, a, [Un(un)]);
      PlacedAt(u, at + |a|, [Un(un)], 0);
      SolidStep(u.ops, at + |a|, c + 1);
      SolidOperand(u, x, at, next, c);
    case _ =>
  }

  lemma {:induction false} SolidOperands(u: Code, op: BinOp, l: Syntax.Expr, r: Syntax.Expr, at: nat, next: bool,
          c: nat)
    requires var a := ExprCode(l, at, next); var b := ExprCode(r, at + |a|, next);
      Placed(u, at, a + b + [Bin(op)]) && Solid(u.ops, at + |a| + |b| + 1, c + 1)
    ensures Solid(u.ops, at, c)
    decreases Syntax.Binary(op, l, r), 0
  {
    hide ExprCode, Placed, Solid;
    var a := ExprCode(l, at, next);
    var mid := at + |a|;
    var b := ExprCode(r, mid, next);
    PlacedSplit(u, at, a + b, [Bin(op)]);
    PlacedSplit(u, at, a, b);
    PlacedAt(u, mid + |b|, [Bin(op)], 0);
    SolidStep(u.ops, mid + |b|, c + 2);
    SolidOperand(u, r, mid, next, c + 1);
    SolidOperand(u, l, at, next, c);
  }

  /** Claiming less. */
  lemma Sharper(g: Book, pc: nat, y: Layout, want: Layout)
    requires Leads(g.m, g.lays, pc, y) && !y.bit && y == want.(bit := false)
    ensures Leads(g.m, g.lays, pc, want)
  {
  }

  lemma {:induction false} TestGood(g: Book, t: Test, at: nat, next: bool, x: Layout, even: Fate)
    requires Piece(g, at, TestCode(t, at, next), TestLays(t, at, next, x), x, TestOut(t, x))
    requires ShapedTest(g.u.infos, t) && (Planned(g) ==>
        PlanTest(PlanOf(g), t, next, FlagsOf(x)) && TestFits(PlanOf(g), t, even))
    requires Fated(g, at + |TestCode(t, at, next)|, even)
    ensures Good(g, at, at + |TestCode(t, at, next)|)
    decreases t, 4
  {
    hide Steady, Leads, Good, Here, ExprCode, ExprLays, WordCode, WordLays, ShapedWord, ShapedExpr, PlanWord, PlanExpr,
        NegationsFit, FateAt, FlagsOf, Uniform;
    match t
    case Inline(e) => ExprGood(g, e, at, next, x);
    case Late(w) =>
      var code, ls := WordCode(w, at, next), WordLays(w, at, next, x);
      if Here(g, at, code, ls) && Leads(g.m, g.lays, at + |code|, Push1(x)) { WordGood(g, w, at, next, x); }
      ThenTakes(g, at, code, ls, EvalExpr, x, Push1(x), false);
  }

  /** A condition is read as a truth value. */
  lemma BranchFate(g: Book, end: nat, t: nat)
    requires end < |g.u.ops| && OpAt(g.u.ops, end) == JumpIf(false, t)
    ensures Fated(g, end, IfBoolean)
  {
  }

  lemma PlainFate(g: Book, end: nat, op: OpCode)
    requires end < |g.u.ops| && OpAt(g.u.ops, end) == op
        && (op.SubEnd? || op.Jump? || op.Pop? || op == Loop(ForeachCollect))
    ensures StopsAt(g, end)
  {
  }

  // ── scripts ──

  lemma {:induction false} ScriptGood(g: Book, s: Script, at: nat, next: bool, x: Layout)
    requires Piece(g, at, ScriptCode(s, at, next), ScriptLays(s, at, next, x), x, ScriptOut(s, x))
    requires ShapedScript(g.u.infos, s) && Plans(g, s, next, x)
    requires StopsAt(g, at + |ScriptCode(s, at, next)|)
    ensures Good(g, at, at + |ScriptCode(s, at, next)|)
    decreases s, 2
  {
    hide Steady, Leads, Good, Here, CmdsCode, CmdsLays, ShapedForm, PlanForm, FlagsOf, Uniform;
    if s.Done? { OneValue(g, at, Push(Empty), x); } else { CmdsGood(g, s, at, next, x); }
  }

  lemma {:induction false} CmdsGood(g: Book, s: Script, at: nat, next: bool, x: Layout)
    requires s.Then? && Piece(g, at, CmdsCode(s, at, next), CmdsLays(s, at, next, x), x, ScriptOut(s, x))
    requires ShapedScript(g.u.infos, s) && Plans(g, s, next, x)
    requires StopsAt(g, at + |CmdsCode(s, at, next)|)
    ensures Good(g, at, at + |CmdsCode(s, at, next)|)
    decreases s, 1
  {
    hide Steady, Leads, Good, Here, CmdCode, CmdLays, ShapedForm, PlanForm, FlagsOf, Uniform, StopsAt, Planned;
    if s.rest.Done? {
      assert LastSite(s, x.site) == s.cmd.site;
      CmdGood(g, s.cmd, at, next, x);
    } else {
      var y := x.(site := s.cmd.site);
      assert ScriptOut(s, x) == ScriptOut(s.rest, y);
      CmdThenCmds(g, s.cmd, s.rest, at, next, x, y);
    }
  }

  /** A command, its result dropped, and the rest. */
  lemma {:induction false} CmdThenCmds(g: Book, c: Cmd, rest: Script, at: nat, next: bool, x: Layout, y: Layout)
    requires Uniform(g) && Ready(g, x) && rest.Then? && y == x.(site := c.site)
    requires var a := CmdCode(c, at, next); var b := CmdsCode(rest, at + |a| + 1, next);
      && Here(g, at, a + [Pop] + b, CmdLays(c, at, next, x) + [Push1(y)] + CmdsLays(rest, at + |a| + 1, next, y))
      && Leads(g.m, g.lays, at + |a| + 1 + |b|, ScriptOut(rest, y)) && StopsAt(g, at + |a| + 1 + |b|)
    requires ShapedForm(g.u.infos, c.form) && (Planned(g) ==> PlanForm(PlanOf(g), c.form, next, FlagsOf(x)))
    requires ShapedScript(g.u.infos, rest) && (Planned(g) ==> PlanScript(PlanOf(g), rest, next, FlagsOf(x)))
    ensures var a := CmdCode(c, at, next); Good(g, at, at + |a| + 1 + |CmdsCode(rest, at + |a| + 1, next)|)
    decreases Then(c, rest), 0
  {
    hide Steady, Leads, Good, Here, CmdCode, CmdLays, CmdsCode, CmdsLays, ShapedForm, PlanForm, ShapedScript,
        PlanScript, FlagsOf, Uniform, StopsAt, Planned, Stands, LastSite;
    var a, la := CmdCode(c, at, next), CmdLays(c, at, next, x);
    var mid := at + |a|;
    var b, lb := CmdsCode(rest, mid + 1, next), CmdsLays(rest, mid + 1, next, y);
    HereSplit(g, at, a + [Pop], b, la + [Push1(y)], lb);
    HereSplit(g, at, a, [Pop], la, [Push1(y)]);
    HereAt(g, mid, [Pop], [Push1(y)], 0);
    HereAt(g, mid + 1, b, lb, 0);
    SelfLeads(g, mid, Push1(y));
    SelfLeads(g, mid + 1, y);
    SteadyFloor(g, x);
    SteadyLike(g, x, y);
    PlainFate(g, mid, Pop);
    CmdGood(g, c, at, next, x);
    StandsOver(g, mid, y, Push1(y), Pop);
    DropGood(g, mid, y);
    CmdsGood(g, rest, mid + 1, next, y);
    GoodJoin(g, at, mid, mid + 1);
    GoodJoin(g, at, mid + 1, mid + 1 + |b|);
  }

  lemma {:induction false} CmdGood(g: Book, c: Cmd, at: nat, next: bool, x: Layout)
    requires Piece(g, at, CmdCode(c, at, next), CmdLays(c, at, next, x), x, Push1(x.(site := c.site)))
    requires ShapedForm(g.u.infos, c.form) && (Planned(g) ==> PlanForm(PlanOf(g), c.form, next, FlagsOf(x)))
    requires StopsAt(g, at + |CmdCode(c, at, next)|)
    ensures Good(g, at, at + |CmdCode(c, at, next)|)
    decreases c, 9
  {
    hide Steady, Leads, Good, Here, FormCode, FormLays, ShapedForm, PlanForm, FlagsOf, Uniform;
    var y := x.(site := c.site);
    var b, lb := FormCode(c.form, at + 1, next), FormLays(c.form, at + 1, next, y);
    HereSplit(g, at, [BeginCmd(c.site)], b, [x], lb);
    HereAt(g, at, [BeginCmd(c.site)], [x], 0);
    FormHead(c.form, at + 1, next, y);
    HereAt(g, at + 1, b, lb, 0);
    SelfLeads(g, at + 1, y);
    SteadyFloor(g, x);
    SteadyLike(g, x, y);
    StandsOver(g, at, x, x, BeginCmd(c.site));
    BeginGood(g, at, x, c.site);
    FormGood(g, c.form, at + 1, next, y);
    GoodJoin(g, at, at + 1, at + 1 + |b|);
  }

  // ── forms ──

  lemma {:induction false} FormGood(g: Book, f: Form, at: nat, next: bool, x: Layout)
    requires Piece(g, at, FormCode(f, at, next), FormLays(f, at, next, x), x, Push1(x))
    requires ShapedForm(g.u.infos, f) && (Planned(g) ==> PlanForm(PlanOf(g), f, next, FlagsOf(x)))
    requires StopsAt(g, at + |FormCode(f, at, next)|)
    ensures Good(g, at, at + |FormCode(f, at, next)|)
    decreases f, 8
  {
    hide Steady, Leads, Good, Here, Uniform, FlagsOf, WordCode, WordLays, WordsCode, WordsLays, TestCode, TestLays,
        ScriptCode, ScriptLays;
    hide ShapedWord, ShapedWords, ShapedTest, ShapedScript, PlanWord, PlanWords, PlanTest, PlanScript, IfLays,
        WhileLays, ForLays, ForeachLays;
    hide ArmCode, ArmsCode, WhileCode, ForCode, EachCode, ShapedArms, PlanArms;
    match f
    case Set(l, w) => TakenGood(g, w, at, next, x, Store(l));
    case Extend(l, w) => TakenGood(g, w, at, next, x, Lappend(l));
    case Get(l) => OneValue(g, at, Load(l), x);
    case Bump(l, k) => OneValue(g, at, Incr(l, k), x);
    case Calc(t) => CalcGood(g, t, at, next, x);
    case If(t, s, a) => IfGood(g, t, s, a, at, next, x);
    case While(t, s) => WhileGood(g, t, s, at, next, x);
    case For(start, t, n, s) => ForGood(g, start, t, n, s, at, next, x);
    case Foreach(info, shape, data, s) => ForeachGood(g, info, shape, data, s, at, next, x);
    case Leave => HaltGood(g, at, x, Loop(LoopOp.Break));
    case Again => AgainGood(g, at, next, x);
    case Give(w) => GiveGood(g, w, at, next, x);
    case Stop(code) => HaltGood(g, at, x, Exit(code));
    case Run(dyn, id, ws) => RunGood(g, dyn, id, ws, at, next, x);
  }

  /** An instruction control does not pass. */
  lemma HaltGood(g: Book, at: nat, x: Layout, op: OpCode)
    requires Uniform(g) && Ready(g, x) && Here(g, at, [op], [x]) && (op == Loop(LoopOp.Break) || op.Exit?)
    ensures Good(g, at, at + 1)
  {
    hide Steady, Leads, Good, Here, Uniform;
    HereAt(g, at, [op], [x], 0);
    StandsOver(g, at, x, x, op);
    EndGood(g, at, x, op);
  }

  lemma {:induction false} CalcGood(g: Book, t: Test, at: nat, next: bool, x: Layout)
    requires Piece(g, at, TestCode(t, at, next), TestLays(t, at, next, x), x, Push1(x))
    requires ShapedTest(g.u.infos, t) && (Planned(g) ==>
        PlanTest(PlanOf(g), t, next, FlagsOf(x)) && TestFits(PlanOf(g), t, Never))
    requires StopsAt(g, at + |TestCode(t, at, next)|)
    ensures Good(g, at, at + |TestCode(t, at, next)|)
    decreases t, 6
  {
    hide Steady, Leads, Good, Here, Uniform, FlagsOf, TestCode, TestLays, ShapedTest, PlanTest;
    Sharper(g, at + |TestCode(t, at, next)|, Push1(x), TestOut(t, x));
    StopIsFated(g, at + |TestCode(t, at, next)|);
    TestGood(g, t, at, next, x, Never);
  }

  /** The words of a command, and its call. */
  lemma {:induction false} RunGood(g: Book, dyn: bool, id: nat, ws: Words, at: nat, next: bool, x: Layout)
    requires Piece(g, at, FormCode(Form.Run(dyn, id, ws), at, next), FormLays(Form.Run(dyn, id, ws), at, next, x), x,
        Push1(x))
    requires ShapedWords(g.u.infos, ws) && (Planned(g) ==> PlanWords(PlanOf(g), ws, next, FlagsOf(x)))
    ensures Good(g, at, at + |FormCode(Form.Run(dyn, id, ws), at, next)|)
    decreases ws, 7
  {
    hide Steady, Leads, Good, Here, Uniform, FlagsOf, WordsCode, WordsLays, ShapedWords, PlanWords;
    var code, ls, y := WordsCode(ws, at, next), WordsLays(ws, at, next, x), Over(x, Count(ws));
    if Here(g, at, code, ls) && Leads(g.m, g.lays, at + |code|, y) { WordsGood(g, ws, at, next, x); }
    ThenTakes(g, at, code, ls, Call(dyn, id, Count(ws)), x, y, false);
  }

  /** A word, and the instruction that takes it. */
  lemma {:induction false} TakenGood(g: Book, w: Word, at: nat, next: bool, x: Layout, op: OpCode)
    requires op.Store? || op.Lappend?
    requires Piece(g, at, WordCode(w, at, next) + [op], WordLays(w, at, next, x) + [Push1(x)], x, Push1(x))
    requires ShapedWord(g.u.infos, w) && (Planned(g) ==> PlanWord(PlanOf(g), w, next, FlagsOf(x)))
    ensures Good(g, at, at + |WordCode(w, at, next)| + 1)
    decreases w, 7
  {
    hide Steady, Leads, Good, Here, Uniform, FlagsOf, WordCode, WordLays, ShapedWord, PlanWord;
    var code, ls := WordCode(w, at, next), WordLays(w, at, next, x);
    if Here(g, at, code, ls) && Leads(g.m, g.lays, at + |code|, Push1(x)) { WordGood(g, w, at, next, x); }
    ThenTakes(g, at, code, ls, op, x, Push1(x), false);
  }

  lemma {:induction false} GiveGood(g: Book, w: Word, at: nat, next: bool, x: Layout)
    requires Piece(g, at, WordCode(w, at, next) + [Return], WordLays(w, at, next, x) + [Push1(x)], x, Push1(x))
    requires ShapedWord(g.u.infos, w) && (Planned(g) ==> PlanWord(PlanOf(g), w, next, FlagsOf(x)))
    ensures Good(g, at, at + |WordCode(w, at, next)| + 1)
    decreases w, 7
  {
    hide Steady, Leads, Good, Here, Uniform, FlagsOf, WordCode, WordLays, ShapedWord, PlanWord;
    var code, ls := WordCode(w, at, next), WordLays(w, at, next, x);
    var end := at + |code|;
    HereSplit(g, at, code, [Return], ls, [Push1(x)]);
    HereAt(g, end, [Return], [Push1(x)], 0);
    SelfLeads(g, end, Push1(x));
    WordGood(g, w, at, next, x);
    StandsOver(g, end, x, Push1(x), Return);
    EndGood(g, end, x, Return);
    GoodJoin(g, at, end, end + 1);
  }

  predicate First(ctx: List<bool>) { ctx.Cons? && ctx.head }

  /** `continue`, in a next script after leaving its loop. */
  lemma AgainGood(g: Book, at: nat, next: bool, x: Layout)
    requires Piece(g, at, FormCode(Again, at, next), FormLays(Again, at, next, x), x, Push1(x))
    requires (g.m.exact ==> Aimed(next, FlagsOf(x))) && (g.m.flat && next ==> First(FlagsOf(x)))
    ensures Good(g, at, at + |FormCode(Again, at, next)|)
  {
    hide Leads, Good, Here, Uniform, Flags, Safe;
    var code, ls := FormCode(Again, at, next), FormLays(Again, at, next, x);
    HereAt(g, at, code, ls, 0);
    if next {
      HereAt(g, at, code, ls, 1);
      StandsOver(g, at, x, x, Loop(LoopExit));
      SelfLeads(g, at + 1, OneLess(x));
      if x.loops.Cons? { HeadFlag(g, x); }
      ExitGood(g, at, x);
      OneLessAnchored(g, x);
      LastGood(g, at + 1, OneLess(x));
      GoodJoin(g, at, at + 1, at + 2);
    } else {
      StandsOver(g, at, x, x, Loop(LoopOp.Continue));
      EndGood(g, at, x, Loop(LoopOp.Continue));
    }
  }

  lemma HeadFlag(g: Book, x: Layout)
    requires x.loops.Cons?
    ensures FlagsOf(x).Cons? && FlagsOf(x).head == NextAbove(x.bodies, x.loops.head.at.bodiesLen)
  {
  }

  lemma ExitGood(g: Book, pc: nat, x: Layout)
    requires Stands(g, pc, x, Loop(LoopExit)) && Leads(g.m, g.lays, pc + 1, OneLess(LayAt(g.lays, pc)).(bit := false))
    requires g.m.flat && Each(g, x) ==> Depth(x.bodies) == EntryDepth(x)
    ensures Good(g, pc, pc + 1)
  {
    hide Safe;
    SteadyLike(g, x, g.lays[pc]);
    SafeParts(g, g.lays[pc]);
  }

  lemma LastGood(g: Book, pc: nat, x: Layout)
    requires pc < |g.u.ops| && pc < |g.lays| && OpAt(g.u.ops, pc) == Loop(LoopOp.Continue) && LayAt(g.lays, pc) == x
    requires Anchored(g.m, g.lays, x) && Floor(x, g.base) <= x.depth && Ended(g.u.ops, x.loops)
    ensures Good(g, pc, pc + 1)
  {
    hide Anchored;
  }

  /** From a next script, the loop around can be gone on with. */
  lemma OneLessAnchored(g: Book, x: Layout)
    requires Ready(g, x) && (g.m.exact ==> Aimed(true, FlagsOf(x)))
    ensures Anchored(g.m, g.lays, OneLess(x)) && Floor(OneLess(x), g.base) <= x.depth
        && Ended(g.u.ops, OneLess(x).loops)
  {
    hide Anchored, Leads;
    if x.loops.Cons? && x.loops.tail.Cons? {
      var y := Outer(g.m, g.lays, x);
      InnerAnchor(g.m, g.lays, x);
      assert y.frames == x.frames;
      InnerAnchor(g.m, g.lays, y);
      TruncateDepth(x.bodies, x.loops.head.at.bodiesLen);
      TruncateTwice(x.bodies, x.loops.head.at.bodiesLen, x.loops.tail.head.at.bodiesLen);
      assert PassOf(y) == PassOf(OneLess(x));
      AnchoredLike(g.m, g.lays, OneLess(x));
    } else if x.loops.Cons? {
      NoLoopAnchored(g.m, g.lays, OneLess(x));
    }
  }

  lemma AnchoredLike(m: Mode, lays: seq<Layout>, x: Layout)
    requires x.loops.Cons?
    requires x.loops.head.at.bodiesLen <= Depth(x.bodies) && x.loops.head.at.stackLen <= x.depth
    requires Leads(m, lays, x.loops.head.cont, PassOf(x)) && Leads(m, lays, x.loops.head.brk, PassOf(x))
    requires Anchored(m, lays, Outer(m, lays, x))
    ensures Anchored(m, lays, x)
  {
  }

  // ── branches ──

  lemma ArmSplit(g: Book, at: nat, test: seq<OpCode>, lt: seq<Layout>, mid: Layout, body: seq<OpCode>, lb: seq<Layout>,
          last: Layout, here: nat, end: nat)
    requires |lt| == |test| && |lb| == |body|
    requires Here(g, at, test + [JumpIf(false, here)] + body + [Jump(end)], lt + [mid] + lb + [last])
    ensures Here(g, at, test, lt) && Here(g, at + |test|, [JumpIf(false, here)], [mid])
    ensures Here(g, at + |test| + 1, body, lb) && Here(g, at + |test| + 1 + |body|, [Jump(end)], [last])
    ensures Leads(g.m, g.lays, at + |test|, mid) && Leads(g.m, g.lays, at + |test| + 1 + |body|, last)
  {
    hide Leads, Here;
    HereSplit(g, at, test + [JumpIf(false, here)] + body, [Jump(end)], lt + [mid] + lb, [last]);
    HereSplit(g, at, test + [JumpIf(false, here)], body, lt + [mid], lb);
    HereSplit(g, at, test, [JumpIf(false, here)], lt, [mid]);
    HereAt(g, at + |test|, [JumpIf(false, here)], [mid], 0);
    HereAt(g, at + |test| + 1 + |body|, [Jump(end)], [last], 0);
    SelfLeads(g, at + |test|, mid);
    SelfLeads(g, at + |test| + 1 + |body|, last);
  }

  /** The parts of an arm stand in place. */
  lemma ArmParts(g: Book, t: Test, s: Script, at: nat, next: bool, x: Layout, here: nat, end: nat)
    requires Uniform(g) && Ready(g, x)
    requires var test := TestCode(t, at, next); var from := at + |test| + 1; var body := ScriptCode(s, from, next);
      Here(g, at, test + [JumpIf(false, here)] + body + [Jump(end)],
          ArmLays(t, TestLays(t, at, next, x), s, ScriptLays(s, from, next, InBody(x)), x))
    ensures var test := TestCode(t, at, next); var from := at + |test| + 1; var body := ScriptCode(s, from, next);
      && Piece(g, at, test, TestLays(t, at, next, x), x, TestOut(t, x))
      && Piece(g, from, body, ScriptLays(s, from, next, InBody(x)), InBody(x), ScriptOut(s, InBody(x)))
      && FlagsOf(InBody(x)) == FlagsOf(x) && Closable(InBody(x))
      && Here(g, at + |test|, [JumpIf(false, here)], [TestOut(t, x)])
      && Here(g, from + |body|, [Jump(end)], [ScriptOut(s, InBody(x))])
      && Leads(g.m, g.lays, from, InBody(x))
  {
    hide Steady, Leads, Here, FlagsOf, TestCode, TestLays, ScriptCode, ScriptLays, ScriptOut, TestOut, Uniform;
    var test, from, testL := TestCode(t, at, next), at + |TestCode(t, at, next)| + 1, TestLays(t, at, next, x);
    var body, bodyL := ScriptCode(s, from, next), ScriptLays(s, from, next, InBody(x));
    ArmSplit(g, at, test, testL, TestOut(t, x), body, bodyL, ScriptOut(s, InBody(x)), here, end);
    HereAt(g, from, body, bodyL, 0);
    SelfLeads(g, from, InBody(x));
    SteadyOpen(g, x, Body(x.site));
  }

  lemma ArmFates(g: Book, mid: nat, far: nat, lm: seq<Layout>, lf: seq<Layout>, here: nat, end: nat)
    requires Here(g, mid, [JumpIf(false, here)], lm) && Here(g, far, [Jump(end)], lf)
    ensures Fated(g, mid, IfBoolean) && StopsAt(g, far)
  {
    hide Here, Fated, StopsAt;
    assert |lm| == 1 && |lf| == 1 by { HereSize(g, mid, [JumpIf(false, here)], lm); HereSize(g, far, [Jump(end)], lf); }
    HereAt(g, mid, [JumpIf(false, here)], lm, 0);
    HereAt(g, far, [Jump(end)], lf, 0);
    BranchFate(g, mid, here);
    PlainFate(g, far, Jump(end));
  }

  lemma HereSize(g: Book, at: nat, code: seq<OpCode>, ls: seq<Layout>)
    requires Here(g, at, code, ls)
    ensures |ls| == |code|
  {
  }

  /** A test's branch and the jump behind a body. */
  lemma ArmJoin(g: Book, t: Test, s: Script, at: nat, mid: nat, far: nat, x: Layout, here: nat, end: nat)
    requires Ready(g, x) && Ready(g, InBody(x)) && Closable(InBody(x)) && Good(g, at, mid) && Good(g, mid + 1, far)
    requires at <= mid < far && Here(g, mid, [JumpIf(false, here)], [TestOut(t, x)])
        && Here(g, far, [Jump(end)], [ScriptOut(s, InBody(x))])
    requires Leads(g.m, g.lays, here, x) && Leads(g.m, g.lays, end, Push1(x)) && Leads(g.m, g.lays, mid + 1, InBody(x))
    requires StopsAt(g, end)
    ensures Good(g, at, far + 1)
  {
    hide FateAt, NoNext;
    hide Steady, Leads, Good, LastSite, Here;
    var y := InBody(x);
    HereAt(g, mid, [JumpIf(false, here)], [TestOut(t, x)], 0);
    HereAt(g, far, [Jump(end)], [ScriptOut(s, y)], 0);
    StandsOver(g, mid, x, TestOut(t, x), JumpIf(false, here));
    BranchGood(g, mid, x, here);
    SteadyFloor(g, y);
    SteadyLike(g, y, ScriptOut(s, y));
    assert Floor(ScriptOut(s, y), g.base) == Floor(y, g.base);
    StandsFor(g, far, ScriptOut(s, y), Jump(end));
    CloseGood(g, far, ScriptOut(s, y), Jump(end), end);
    GoodJoin(g, at, mid, mid + 1);
    GoodJoin(g, at, mid + 1, far);
    GoodJoin(g, at, far, far + 1);
  }

  /** An arm and what follows it stand in place. */
  lemma ArmHere(g: Book, t: Test, s: Script, a: Arms, at: nat, next: bool, x: Layout)
    requires Uniform(g) && Ready(g, x)
    requires var test := TestCode(t, at, next); var from := at + |test| + 1; var body := ScriptCode(s, from, next);
      var here := from + |body| + 1; var rest := ArmsCode(a, here, next);
      Here(g, at, test + [JumpIf(false, here)] + body + [Jump(here + |rest|)] + rest,
          ArmLays(t, TestLays(t, at, next, x), s, ScriptLays(s, from, next, InBody(x)), x) + ArmsLays(a, here, next, x))
    ensures var test := TestCode(t, at, next); var from := at + |test| + 1; var body := ScriptCode(s, from, next);
      var here := from + |body| + 1; var rest := ArmsCode(a, here, next);
      && Piece(g, at, test, TestLays(t, at, next, x), x, TestOut(t, x)) && Fated(g, from - 1, IfBoolean)
      && Piece(g, from, body, ScriptLays(s, from, next, InBody(x)), InBody(x), ScriptOut(s, InBody(x)))
      && FlagsOf(InBody(x)) == FlagsOf(x) && Closable(InBody(x)) && StopsAt(g, here - 1)
      && Here(g, from - 1, [JumpIf(false, here)], [TestOut(t, x)])
      && Here(g, here - 1, [Jump(here + |rest|)], [ScriptOut(s, InBody(x))])
      && Leads(g.m, g.lays, from, InBody(x)) && Leads(g.m, g.lays, here, x)
      && Here(g, here, rest, ArmsLays(a, here, next, x))
  {
    hide Steady, Leads, Here, Uniform, FlagsOf, TestCode, TestLays, ScriptCode, ScriptLays, ArmsCode, ArmsLays, TestOut,
        ScriptOut, StopsAt, Fated;
    var test, from := TestCode(t, at, next), at + |TestCode(t, at, next)| + 1;
    var body := ScriptCode(s, from, next);
    var here := from + |body| + 1;
    var rest, restL := ArmsCode(a, here, next), ArmsLays(a, here, next, x);
    ArmsCount(a, here, next, x);
    HereSplit(g, at, test + [JumpIf(false, here)] + body + [Jump(here + |rest|)], rest,
              ArmLays(t, TestLays(t, at, next, x), s, ScriptLays(s, from, next, InBody(x)), x), restL);
    ArmsHead(a, here, next, x);
    HereAt(g, here, rest, restL, 0);
    SelfLeads(g, here, x);
    ArmParts(g, t, s, at, next, x, here, here + |rest|);
    ArmFates(g, from - 1, here - 1, [TestOut(t, x)], [ScriptOut(s, InBody(x))], here, here + |rest|);
  }

  lemma {:induction false} IfGood(g: Book, t: Test, s: Script, a: Arms, at: nat, next: bool, x: Layout)
    requires Piece(g, at, FormCode(If(t, s, a), at, next), IfLays(t, s, a, at, next, x), x, Push1(x))
    requires ShapedForm(g.u.infos, If(t, s, a)) && (Planned(g) ==> PlanForm(PlanOf(g), If(t, s, a), next, FlagsOf(x)))
    requires StopsAt(g, at + |FormCode(If(t, s, a), at, next)|)
    ensures Good(g, at, at + |FormCode(If(t, s, a), at, next)|)
    decreases If(t, s, a), 7
  {
    hide Steady, Leads, Good, Here, Uniform, FlagsOf, TestCode, TestLays, ScriptCode, ScriptLays, ArmsCode, ArmsLays,
        ShapedTest, ShapedScript, ShapedArms, PlanTest, PlanScript, PlanArms, TestOut, ScriptOut, StopsAt, Fated,
        Planned;
    var test, from := TestCode(t, at, next), at + |TestCode(t, at, next)| + 1;
    var body, far := ScriptCode(s, from, next), from + |ScriptCode(s, from, next)|;
    var rest := ArmsCode(a, far + 1, next);
    ArmHere(g, t, s, a, at, next, x);
    TestGood(g, t, at, next, x, IfBoolean);
    ScriptGood(g, s, from, next, InBody(x));
    ArmJoin(g, t, s, at, from - 1, far, x, far + 1, far + 1 + |rest|);
    ArmsGood(g, a, far + 1, next, x);
    GoodJoin(g, at, far + 1, far + 1 + |rest|);
  }

  lemma {:induction false} ArmsGood(g: Book, a: Arms, at: nat, next: bool, x: Layout)
    requires Piece(g, at, ArmsCode(a, at, next), ArmsLays(a, at, next, x), x, Push1(x))
    requires ShapedArms(g.u.infos, a) && (Planned(g) ==> PlanArms(PlanOf(g), a, next, FlagsOf(x)))
    requires StopsAt(g, at + |ArmsCode(a, at, next)|)
    ensures Good(g, at, at + |ArmsCode(a, at, next)|)
    decreases a, 7
  {
    hide Steady, Leads, Good, Here, Uniform, FlagsOf, TestCode, TestLays, ScriptCode, ScriptLays, ShapedTest,
        ShapedScript, PlanTest, PlanScript, StopsAt, ShapedArms, PlanArms, ArmCode, ArmLays, InRegion, Planned;
    match a
    case NoElse => OneValue(g, at, Push(Empty), x);
    case Else(body) => ElseGood(g, body, at, next, x);
    case Arm(t, s, rest) => ArmGood(g, t, s, rest, at, next, x);
  }

  lemma {:induction false} ElseGood(g: Book, s: Script, at: nat, next: bool, x: Layout)
    requires Piece(g, at, ArmsCode(Else(s), at, next), ArmsLays(Else(s), at, next, x), x, Push1(x))
    requires ShapedArms(g.u.infos, Else(s)) && (Planned(g) ==> PlanArms(PlanOf(g), Else(s), next, FlagsOf(x)))
    requires StopsAt(g, at + |ArmsCode(Else(s), at, next)|)
    ensures Good(g, at, at + |ArmsCode(Else(s), at, next)|)
    decreases Else(s), 6
  {
    hide Exec, Steady, Leads, Good, Placed, Uniform, FlagsOf, ScriptCode, ScriptLays, ShapedScript, PlanScript,
        LastSite;
    var y := InBody(x);
    var code, ls := ScriptCode(s, at + 1, next), ScriptLays(s, at + 1, next, y);
    SteadyOpen(g, x, Body(x.site));
    HereSplit(g, at, [Mark(BodyMark)] + code, [Jump(at + |code| + 2)], [x] + ls, [ScriptOut(s, y)]);
    HereSplit(g, at, [Mark(BodyMark)], code, [x], ls);
    HereAt(g, at + 1 + |code|, [Jump(at + |code| + 2)], [ScriptOut(s, y)], 0);
    PlainFate(g, at + 1 + |code|, Jump(at + |code| + 2));
    if Leads(g.m, g.lays, at + 1 + |code|, ScriptOut(s, y)) { ScriptGood(g, s, at + 1, next, y); }
    RegionGood(g, BodyMark, s, at, next, x, y, Jump(at + |code| + 2), at + |code| + 2);
  }

  lemma ArmUnfold(t: Test, s: Script, a: Arms, at: int, next: bool, x: Layout)
    ensures var test := TestCode(t, at, next); var from := at + |test| + 1; var body := ScriptCode(s, from, next);
      var far := from + |body|; var rest := ArmsCode(a, far + 1, next);
      && ArmsCode(Arm(t, s, a), at, next)
          == test + [JumpIf(false, Spot(far + 1))] + body + [Jump(Spot(far + 1 + |rest|))] + rest
      && ArmsLays(Arm(t, s, a), at, next, x)
          == ArmLays(t, TestLays(t, at, next, x), s, ScriptLays(s, from, next, InBody(x)), x)
            + ArmsLays(a, far + 1, next, x)
  {
    hide TestCode, TestLays, ScriptCode, ScriptLays, ArmLays, InBody, InRegion;
  }

  lemma ArmFits(p: Plan, infos: seq<ForeachInfo>, t: Test, s: Script, a: Arms, next: bool, ctx: List<bool>)
    ensures ShapedArms(infos, Arm(t, s, a)) ==>
        ShapedTest(infos, t) && ShapedScript(infos, s) && ShapedArms(infos, a)
    ensures PlanArms(p, Arm(t, s, a), next, ctx) ==>
        PlanTest(p, t, next, ctx) && TestFits(p, t, IfBoolean) && PlanScript(p, s, next, ctx)
        && PlanArms(p, a, next, ctx)
  {
    hide ShapedTest, ShapedScript, PlanTest, PlanScript, TestFits;
  }

  lemma {:induction false} ArmGood(g: Book, t: Test, s: Script, a: Arms, at: nat, next: bool, x: Layout)
    requires Piece(g, at, ArmsCode(Arm(t, s, a), at, next), ArmsLays(Arm(t, s, a), at, next, x), x, Push1(x))
    requires ShapedArms(g.u.infos, Arm(t, s, a))
    requires Planned(g) ==> PlanArms(PlanOf(g), Arm(t, s, a), next, FlagsOf(x))
    requires StopsAt(g, at + |ArmsCode(Arm(t, s, a), at, next)|)
    ensures Good(g, at, at + |ArmsCode(Arm(t, s, a), at, next)|)
    decreases Arm(t, s, a), 6
  {
    hide Steady, Leads, Good, Here, Uniform, FlagsOf, TestCode, TestLays, ScriptCode, ScriptLays, ArmsCode, ArmsLays,
        ShapedTest, ShapedScript, ShapedArms, PlanTest, PlanScript, PlanArms, TestOut, ScriptOut, StopsAt, Fated,
        Planned;
    var test, from := TestCode(t, at, next), at + |TestCode(t, at, next)| + 1;
    var body, far := ScriptCode(s, from, next), from + |ScriptCode(s, from, next)|;
    var rest := ArmsCode(a, far + 1, next);
    ArmUnfold(t, s, a, at, next, x);
    ArmFits(PlanOf(g), g.u.infos, t, s, a, next, FlagsOf(x));
    ArmHere(g, t, s, a, at, next, x);
    TestGood(g, t, at, next, x, IfBoolean);
    ScriptGood(g, s, from, next, InBody(x));
    ArmJoin(g, t, s, at, from - 1, far, x, far + 1, far + 1 + |rest|);
    ArmsGood(g, a, far + 1, next, x);
    GoodJoin(g, at, far + 1, far + 1 + |rest|);
  }

  // ── loops ──

  /** The end of a pass in the region `y`: the result of its script is dropped or
      collected, and a jump closes the region. */
  lemma PassEnd(g: Book, s: Script, end: nat, y: Layout, drop: OpCode, t: nat)
    requires Here(g, end, [drop, Jump(t)], [ScriptOut(s, y), y.(site := LastSite(s, y.site))])
    requires Ready(g, y) && Closable(y) && Leads(g.m, g.lays, t, Close(y))
    requires drop == Pop || (drop == Loop(ForeachCollect) && y.frames.Cons?)
    requires g.m.flat && Each(g, y) ==> t == end + 2 && IsNext(OpAt(g.u.ops, t))
    requires g.m.flat && StartsPass(Lands(g.u.ops, t)) ==> NoNext(y.bodies, y.loops)
    ensures Good(g, end, end + 2) && Leads(g.m, g.lays, end, ScriptOut(s, y))
  {
    hide Good, Steady, LastSite, Leads, FlagsOf, Here;
    var z := y.(site := LastSite(s, y.site));
    HereAt(g, end, [drop, Jump(t)], [ScriptOut(s, y), z], 0);
    HereAt(g, end, [drop, Jump(t)], [ScriptOut(s, y), z], 1);
    SelfLeads(g, end, ScriptOut(s, y));
    SelfLeads(g, end + 1, z);
    SteadyFloor(g, y);
    SteadyLike(g, y, z);
    StandsOver(g, end, z, ScriptOut(s, y), drop);
    if drop == Pop { DropGood(g, end, z); } else { CollectGood(g, end, z); }
    StandsOver(g, end + 1, z, z, Jump(t));
    CloseGood(g, end + 1, z, Jump(t), t);
    GoodJoin(g, end, end + 1, end + 2);
  }

  lemma PassGood(g: Book, s: Script, at: nat, next: bool, y: Layout, drop: OpCode, t: nat)
    requires var code := ScriptCode(s, at, next);
      Here(g, at, code + [drop, Jump(t)], ScriptLays(s, at, next, y)
          + [ScriptOut(s, y), y.(site := LastSite(s, y.site))])
    requires Ready(g, y) && Closable(y) && Leads(g.m, g.lays, t, Close(y))
    requires drop == Pop || (drop == Loop(ForeachCollect) && y.frames.Cons?)
    requires var end := at + |ScriptCode(s, at, next)|; Leads(g.m, g.lays, end, ScriptOut(s, y)) ==> Good(g, at, end)
    requires g.m.flat && Each(g, y) ==> t == at + |ScriptCode(s, at, next)| + 2 && IsNext(OpAt(g.u.ops, t))
    requires g.m.flat && StartsPass(Lands(g.u.ops, t)) ==> NoNext(y.bodies, y.loops)
    ensures Good(g, at, at + |ScriptCode(s, at, next)| + 2)
  {
    hide *;
    var code, end := ScriptCode(s, at, next), at + |ScriptCode(s, at, next)|;
    HereSplit(g, at, code, [drop, Jump(t)], ScriptLays(s, at, next, y),
        [ScriptOut(s, y), y.(site := LastSite(s, y.site))]);
    PassEnd(g, s, end, y, drop, t);
    GoodJoin(g, at, end, end + 2);
  }

  lemma CollectGood(g: Book, pc: nat, x: Layout)
    requires Stands(g, pc, x, Loop(ForeachCollect)) && x.frames.Cons?
        && Leads(g.m, g.lays, pc + 1, Deep(x, LayAt(g.lays, pc).depth - 1))
    ensures Good(g, pc, pc + 1)
  {
    hide Safe;
    SteadyLike(g, x, g.lays[pc]);
    SafeParts(g, g.lays[pc]);
  }

  lemma EnterGood(g: Book, pc: nat, x: Layout, cont: nat, brk: nat)
    requires Stands(g, pc, x, Loop(LoopEnter(cont, brk))) && LayAt(g.lays, pc) == x
        && Leads(g.m, g.lays, pc + 1, Enter(x, cont, brk))
    ensures Good(g, pc, pc + 1)
  {
    hide Safe;
    SafeParts(g, x);
  }

  /** The instructions behind a loop's test. */
  lemma BodyGood(g: Book, t: Test, s: Script, at: nat, p: Layout, cont: nat, brk: nat)
    requires Ready(g, p) && Leads(g.m, g.lays, cont, p) && Leads(g.m, g.lays, brk, p)
    requires var code := ScriptCode(s, at + 1, false); var y := InBody(p);
      Here(g, at, [JumpIf(false, brk)] + (code + [Pop, Jump(cont)]),
          [TestOut(t, p)] + (ScriptLays(s, at + 1, false, y) + [ScriptOut(s, y), y.(site := LastSite(s, p.site))]))
    requires var y := InBody(p); var end := at + 1 + |ScriptCode(s, at + 1, false)|;
      Ready(g, y) && FlagsOf(y) == FlagsOf(p) && Leads(g.m, g.lays, end, ScriptOut(s, y)) ==> Good(g, at + 1, end)
    requires !Each(g, p) && (g.m.flat && StartsPass(Lands(g.u.ops, cont)) ==> NoneIn(FlagsOf(p)))
    ensures Good(g, at, at + |ScriptCode(s, at + 1, false)| + 3)
  {
    hide Good, Steady, ScriptCode, ScriptLays, LastSite, Leads, FlagsOf, Placed, TestOut;
    var code, ls, y := ScriptCode(s, at + 1, false), ScriptLays(s, at + 1, false, InBody(p)), InBody(p);
    var tail := [ScriptOut(s, y), y.(site := LastSite(s, p.site))];
    SteadyOpen(g, p, Body(p.site));
    HereSplit(g, at, [JumpIf(false, brk)], code + [Pop, Jump(cont)], [TestOut(t, p)], ls + tail);
    HereAt(g, at, [JumpIf(false, brk)], [TestOut(t, p)], 0);
    HereAt(g, at + 1, code + [Pop, Jump(cont)], ls + tail, 0);
    SelfLeads(g, at + 1, y);
    assert TestOut(t, p) == Push1(p).(bit := TestOut(t, p).bit) by { TestOutIs(t, p); }
    StandsOver(g, at, p, TestOut(t, p), JumpIf(false, brk));
    BranchGood(g, at, p, brk);
    if g.m.flat && StartsPass(Lands(g.u.ops, cont)) { NoFlagNoNext(y); }
    PassGood(g, s, at + 1, false, y, Pop, cont);
    GoodJoin(g, at, at + 1, at + 1 + |code| + 2);
  }

  lemma TestOutIs(t: Test, x: Layout)
    ensures TestOut(t, x) == Push1(x).(bit := TestOut(t, x).bit)
  {
  }

  /** The form whose loop tests `t` and runs `s`. */
  predicate Heads(f: Form, t: Test, s: Script) { (f.While? || f.For?) && f.test == t && f.body == s }

  /** From a loop's entry to the end of its body. */
  lemma {:induction false} HeadGood(g: Book, f: Form, t: Test, s: Script, at: nat, x: Layout, p: Layout, cont: nat,
          brk: nat)
    requires Heads(f, t, s)
    requires Uniform(g) && Ready(g, x) && p == Enter(x, cont, brk) && Leads(g.m, g.lays, cont, p)
        && Leads(g.m, g.lays, brk, p)
    requires var test := TestCode(t, at + 1, false); var body := ScriptCode(s, at + |test| + 2, false);
      Here(g, at, LoopHead(test, body, cont, brk),
          HeadLays(t, TestLays(t, at + 1, false, p), s, ScriptLays(s, at + |test| + 2, false, InBody(p)), x, p))
    requires ShapedTest(g.u.infos, t) && ShapedScript(g.u.infos, s)
    requires Planned(g) ==>
        PlanTest(PlanOf(g), t, false, Cons(false, FlagsOf(x))) && TestFits(PlanOf(g), t, IfBoolean)
        && PlanScript(PlanOf(g), s, false, Cons(false, FlagsOf(x)))
    requires OpAt(g.u.ops, brk) == Loop(LoopExit)
        && (g.m.flat && StartsPass(Lands(g.u.ops, cont)) ==> NoneIn(FlagsOf(x)))
    ensures var test := TestCode(t, at + 1, false);
        Good(g, at, at + |test| + |ScriptCode(s, at + |test| + 2, false)| + 4)
    decreases f, 5
  {
    hide Good, Steady, Here, ScriptCode, ScriptLays, TestCode, TestLays, LastSite, Leads, FlagsOf, Uniform, TestOut,
        ScriptOut, ShapedTest, ShapedScript, PlanTest, PlanScript, Fated, StopsAt;
    var test, testL, mid := TestCode(t, at + 1, false), TestLays(t, at + 1, false, p),
        at + 1 + |TestCode(t, at + 1, false)|;
    var body, bodyL, y := ScriptCode(s, mid + 1, false), ScriptLays(s, mid + 1, false, InBody(p)), InBody(p);
    SteadyEnter(g, x, x.frames, cont, brk);
    HeadParts(g, t, s, at, x, p, cont, brk);
    TestHead(t, at + 1, false, p);
    EntryGood(g, at, x, p, test, testL, cont, brk);
    HeadFates(g, mid, TestOut(t, p), body, bodyL, [ScriptOut(s, y), y.(site := LastSite(s, p.site))], cont, brk);
    TestGood(g, t, at + 1, false, p, IfBoolean);
    if Ready(g, y) && FlagsOf(y) == FlagsOf(p) && Leads(g.m, g.lays, mid + 1 + |body|, ScriptOut(s, y))
        { ScriptGood(g, s, mid + 1, false, y); }
    BodyGood(g, t, s, mid, p, cont, brk);
    GoodJoin(g, at, at + 1, mid);
    GoodJoin(g, at, mid, mid + |body| + 3);
  }

  /** What becomes of a test's and of a body's result. */
  lemma HeadFates(g: Book, mid: nat, top: Layout, body: seq<OpCode>, bodyL: seq<Layout>, last: seq<Layout>, cont: nat,
          brk: nat)
    requires |bodyL| == |body| && |last| == 2
    requires Here(g, mid, [JumpIf(false, brk)] + (body + [Pop, Jump(cont)]), [top] + (bodyL + last))
    ensures Here(g, mid + 1, body, bodyL) && Fated(g, mid, IfBoolean) && StopsAt(g, mid + 1 + |body|)
  {
    hide Here, Fated, StopsAt;
    HereSplit(g, mid, [JumpIf(false, brk)], body + [Pop, Jump(cont)], [top], bodyL + last);
    HereSplit(g, mid + 1, body, [Pop, Jump(cont)], bodyL, last);
    HereAt(g, mid, [JumpIf(false, brk)], [top], 0);
    BranchFate(g, mid, brk);
    HereAt(g, mid + 1 + |body|, [Pop, Jump(cont)], last, 0);
    PlainFate(g, mid + 1 + |body|, Pop);
  }

  lemma HeadParts(g: Book, t: Test, s: Script, at: nat, x: Layout, p: Layout, cont: nat, brk: nat)
    requires var test := TestCode(t, at + 1, false); var body := ScriptCode(s, at + |test| + 2, false);
      Here(g, at, LoopHead(test, body, cont, brk),
          HeadLays(t, TestLays(t, at + 1, false, p), s, ScriptLays(s, at + |test| + 2, false, InBody(p)), x, p))
    ensures var test := TestCode(t, at + 1, false); var mid := at + 1 + |test|; var y := InBody(p);
      && Here(g, at, [Loop(LoopEnter(cont, brk))], [x]) && Here(g, at + 1, test, TestLays(t, at + 1, false, p))
      && Here(g, mid, [JumpIf(false, brk)] + (ScriptCode(s, mid + 1, false) + [Pop, Jump(cont)]),
              [TestOut(t, p)] + (ScriptLays(s, mid + 1, false, y) + [ScriptOut(s, y), y.(site := LastSite(s, p.site))]))
      && Leads(g.m, g.lays, mid, TestOut(t, p))
  {
    hide Here, ScriptCode, ScriptLays, TestCode, TestLays, LastSite, Leads, TestOut, ScriptOut;
    var test, testL, mid := TestCode(t, at + 1, false), TestLays(t, at + 1, false, p),
        at + 1 + |TestCode(t, at + 1, false)|;
    var body, bodyL, y := ScriptCode(s, mid + 1, false), ScriptLays(s, mid + 1, false, InBody(p)), InBody(p);
    var after, afterL := [JumpIf(false, brk)] + (body + [Pop, Jump(cont)]),
        [TestOut(t, p)] + (bodyL + [ScriptOut(s, y), y.(site := LastSite(s, p.site))]);
    assert [Loop(LoopEnter(cont, brk))] + (test + after) == LoopHead(test, body, cont, brk);
    assert [x] + (testL + afterL) == HeadLays(t, testL, s, bodyL, x, p);
    HereSplit(g, at, [Loop(LoopEnter(cont, brk))], test + after, [x], testL + afterL);
    HereSplit(g, at + 1, test, after, testL, afterL);
    HereAt(g, mid, after, afterL, 0);
    SelfLeads(g, mid, TestOut(t, p));
  }

  lemma HeadSize(t: Test, s: Script, at: nat, x: Layout, p: Layout, cont: nat, brk: nat)
    ensures var test := TestCode(t, at + 1, false); var body := ScriptCode(s, at + |test| + 2, false);
      var head := LoopHead(test, body, cont, brk);
      at + |head| == at + |test| + |body| + 4
      && |HeadLays(t, TestLays(t, at + 1, false, p), s, ScriptLays(s, at + |test| + 2, false, InBody(p)), x, p)|
          == |head|
  {
    hide ScriptCode, ScriptLays, TestCode, TestLays, ScriptOut, TestOut;
  }

  /** The body's jump ends the head. */
  lemma HeadEnds(g: Book, t: Test, s: Script, at: nat, x: Layout, p: Layout, cont: nat, brk: nat)
    requires var test := TestCode(t, at + 1, false); var body := ScriptCode(s, at + |test| + 2, false);
      Here(g, at, LoopHead(test, body, cont, brk),
          HeadLays(t, TestLays(t, at + 1, false, p), s, ScriptLays(s, at + |test| + 2, false, InBody(p)), x, p))
    ensures OpAt(g.u.ops, at + |TestCode(t, at + 1, false)| + |ScriptCode(s, at + |TestCode(t, at + 1, false)| + 2,
        false)| + 3) == Jump(cont)
  {
    hide Here, ScriptCode, ScriptLays, TestCode, TestLays, ScriptOut, TestOut, HeadLays;
    var test := TestCode(t, at + 1, false);
    var body := ScriptCode(s, at + |test| + 2, false);
    HereAt(g, at, LoopHead(test, body, cont, brk),
        HeadLays(t, TestLays(t, at + 1, false, p), s, ScriptLays(s, at + |test| + 2, false, InBody(p)), x, p),
        |test| + |body| + 3);
  }

  /** The first pass starts right behind the entry. */
  lemma HeadLeads(g: Book, t: Test, s: Script, at: nat, x: Layout, p: Layout, cont: nat, brk: nat)
    requires var test := TestCode(t, at + 1, false); var body := ScriptCode(s, at + |test| + 2, false);
      Here(g, at, LoopHead(test, body, cont, brk),
          HeadLays(t, TestLays(t, at + 1, false, p), s, ScriptLays(s, at + |test| + 2, false, InBody(p)), x, p))
    ensures Leads(g.m, g.lays, at + 1, p)
  {
    hide Here, ScriptCode, ScriptLays, TestCode, TestLays, Leads, ScriptOut, TestOut, LoopHead, HeadLays;
    HeadParts(g, t, s, at, x, p, cont, brk);
    TestHead(t, at + 1, false, p);
    HereAt(g, at + 1, TestCode(t, at + 1, false), TestLays(t, at + 1, false, p), 0);
    SelfLeads(g, at + 1, p);
  }

  lemma EntryGood(g: Book, at: nat, x: Layout, p: Layout, rest: seq<OpCode>, restL: seq<Layout>, cont: nat, brk: nat)
    requires Ready(g, x) && p == Enter(x, cont, brk) && rest != [] && |restL| == |rest| && Begins(restL, p)
    requires Here(g, at, [Loop(LoopEnter(cont, brk))], [x]) && Here(g, at + 1, rest, restL)
    ensures Good(g, at, at + 1)
  {
    hide Good, Steady, Leads, Here;
    HereAt(g, at, [Loop(LoopEnter(cont, brk))], [x], 0);
    HereAt(g, at + 1, rest, restL, 0);
    SelfLeads(g, at + 1, p);
    StandsOver(g, at, x, x, Loop(LoopEnter(cont, brk)));
    EnterGood(g, at, x, cont, brk);
  }

  /** Out of a loop, with the empty result. */
  lemma TailGood(g: Book, at: nat, x: Layout, p: Layout, cont: nat, brk: nat)
    requires Ready(g, x) && Ready(g, p) && p == Enter(x, cont, brk) && Here(g, at, LoopTail(), TailLays(x, p))
        && Leads(g.m, g.lays, at + 2, Push1(x))
    ensures Good(g, at, at + 2)
  {
    hide Good, Steady, Leads, Here;
    HereAt(g, at, LoopTail(), TailLays(x, p), 0);
    HereAt(g, at, LoopTail(), TailLays(x, p), 1);
    SelfLeads(g, at + 1, x);
    StandsOver(g, at, p, p, Loop(LoopExit));
    ExitGood(g, at, p);
    StandsOver(g, at + 1, x, x, Push(Empty));
    ValueGood(g, at + 1, x, Push(Empty), false);
    GoodJoin(g, at, at + 1, at + 2);
  }

  lemma {:induction false} WhileGood(g: Book, t: Test, s: Script, at: nat, next: bool, x: Layout)
    requires Piece(g, at, FormCode(While(t, s), at, next), WhileLays(t, s, at, x), x, Push1(x))
    requires ShapedForm(g.u.infos, While(t, s)) && (Planned(g) ==> PlanForm(PlanOf(g), While(t, s), next, FlagsOf(x)))
    ensures Good(g, at, at + |FormCode(While(t, s), at, next)|)
    decreases While(t, s), 7
  {
    hide Good, Steady, Here, ScriptCode, ScriptLays, TestCode, TestLays, Leads, FlagsOf, Uniform, ShapedTest,
        ShapedScript, PlanTest, PlanScript, TestOut, ScriptOut, LastSite, Planned;
    var p := WhilePass(t, s, at, x);
    var test, testL := TestCode(t, at + 1, false), TestLays(t, at + 1, false, p);
    var body, bodyL := ScriptCode(s, at + |test| + 2, false),
        ScriptLays(s, at + |test| + 2, false, InBody(p));
    var brk := at + |test| + |body| + 4;
    var head, headL := LoopHead(test, body, at + 1, brk), HeadLays(t, testL, s, bodyL, x, p);
    HereSplit(g, at, head, LoopTail(), headL, TailLays(x, p));
    HereAt(g, brk, LoopTail(), TailLays(x, p), 0);
    SelfLeads(g, brk, p);
    HeadLeads(g, t, s, at, x, p, at + 1, brk);
    FirstOfTest(g, t, s, at, x, p, at + 1, brk);
    HeadGood(g, While(t, s), t, s, at, x, p, at + 1, brk);
    SteadyEnter(g, x, x.frames, at + 1, brk);
    TailGood(g, brk, x, p, at + 1, brk);
    GoodJoin(g, at, brk, brk + 2);
  }

  /** A test does not begin with the start of a pass. */
  lemma FirstOfTest(g: Book, t: Test, s: Script, at: nat, x: Layout, p: Layout, cont: nat, brk: nat)
    requires var test := TestCode(t, at + 1, false); var body := ScriptCode(s, at + |test| + 2, false);
      Here(g, at, LoopHead(test, body, cont, brk),
          HeadLays(t, TestLays(t, at + 1, false, p), s, ScriptLays(s, at + |test| + 2, false, InBody(p)), x, p))
    ensures !StartsPass(Lands(g.u.ops, at + 1))
  {
    hide Here, TestCode, TestLays, ScriptCode, ScriptLays, Leads, TestOut, ScriptOut;
    HeadParts(g, t, s, at, x, p, cont, brk);
    TestFirst(t, at + 1, false);
    HereAt(g, at + 1, TestCode(t, at + 1, false), TestLays(t, at + 1, false, p), 0);
    LandsHere(g.u.ops, at + 1);
  }

  lemma LandsHere(ops: seq<OpCode>, t: nat)
    requires t < |ops| && !ops[t].Nop?
    ensures Lands(ops, t) == ops[t]
  {
  }

  lemma TestFirst(t: Test, at: nat, next: bool)
    ensures var r := TestCode(t, at, next); r != [] && !StartsPass(r[0]) && !r[0].Nop?
  {
    match t
    case Inline(e) => ExprFirst(e, at, next);
    case Late(w) => WordFirst(w, at, next);
  }

  lemma {:induction false} WordFirst(w: Word, at: nat, next: bool)
    ensures var r := WordCode(w, at, next); r != [] && !StartsPass(r[0]) && !r[0].Nop?
    decreases w
  {
    if w.Cat? && w.parts.More? { WordFirst(w.parts.w, at, next); }
  }

  lemma {:induction false} ForGood(g: Book, start: Script, t: Test, n: Script, s: Script, at: nat, next: bool,
          x: Layout)
    requires Piece(g, at, FormCode(For(start, t, n, s), at, next), ForLays(start, t, n, s, at, x), x, Push1(x))
    requires ShapedForm(g.u.infos, For(start, t, n, s))
        && (Planned(g) ==> PlanForm(PlanOf(g), For(start, t, n, s), next, FlagsOf(x)))
    ensures Good(g, at, at + |FormCode(For(start, t, n, s), at, next)|)
    decreases For(start, t, n, s), 7
  {
    hide Good, Steady, Here, ScriptCode, ScriptLays, TestCode, Leads, FlagsOf, Uniform, ShapedTest, ShapedScript,
        PlanTest, PlanScript, LoopLays, ForCode;
    var c, y := ScriptCode(start, at + 1, false), StartRegion(x);
    var region, regionL := [Mark(ExprMark)] + c + [SubEnd],
        InRegion(ScriptLays(start, at + 1, false, y), start, x, y);
    var pop, enter := at + |c| + 2, at + |c| + 3;
    var loop, loopL := LoopCode(t, n, s, enter), LoopLays(start, t, n, s, enter, x);
    assert FormCode(For(start, t, n, s), at, next) == region + ([Pop] + loop);
    assert ForLays(start, t, n, s, at, x) == regionL + ([Push1(x)] + loopL);
    HereSplit(g, at, region, [Pop] + loop, regionL, [Push1(x)] + loopL);
    HereSplit(g, pop, [Pop], loop, [Push1(x)], loopL);
    PopGood(g, pop, x);
    BracketGood(g, ExprMark, start, at, false, x);
    assert Begins(loopL, x) && loop != [] by { LoopHeadIs(start, t, n, s, enter, x); }
    HereAt(g, enter, loop, loopL, 0);
    SelfLeads(g, enter, x);
    LoopGood(g, start, t, n, s, enter, x);
    GoodJoin(g, at, pop, enter);
    GoodJoin(g, at, enter, enter + |loop|);
  }

  /** A result dropped. */
  lemma PopGood(g: Book, pop: nat, x: Layout)
    requires Here(g, pop, [Pop], [Push1(x)]) && Ready(g, x)
    ensures Leads(g.m, g.lays, pop, Push1(x))
    ensures Leads(g.m, g.lays, pop + 1, x) ==> Good(g, pop, pop + 1)
  {
    hide Good, Steady, Leads, FlagsOf;
    HereAt(g, pop, [Pop], [Push1(x)], 0);
    SelfLeads(g, pop, Push1(x));
    if Leads(g.m, g.lays, pop + 1, x) {
      StandsOver(g, pop, x, Push1(x), Pop);
      DropGood(g, pop, x);
    }
  }

  lemma LoopHeadIs(start: Script, t: Test, n: Script, s: Script, enter: int, x: Layout)
    ensures Begins(LoopLays(start, t, n, s, enter, x), x) && LoopCode(t, n, s, enter) != []
  {
  }

  lemma {:induction false} LoopGood(g: Book, start: Script, t: Test, n: Script, s: Script, enter: nat, x: Layout)
    requires Piece(g, enter, LoopCode(t, n, s, enter), LoopLays(start, t, n, s, enter, x), x, Push1(x))
    requires ShapedForm(g.u.infos, For(start, t, n, s))
        && (Planned(g) ==> PlanForm(PlanOf(g), For(start, t, n, s), false, FlagsOf(x)))
    ensures Good(g, enter, enter + |LoopCode(t, n, s, enter)|)
    decreases For(start, t, n, s), 6
  {
    hide Good, Steady, Here, ScriptCode, ScriptLays, TestCode, TestLays, Leads, FlagsOf, Uniform, ShapedTest,
        ShapedScript, PlanTest, PlanScript, HeadLays, NextLays, TailLays, LoopHead, LoopTail, ForPass, LoopLays,
        LoopCode;
    var p := ForPass(t, n, s, enter, x);
    LoopParts(g, start, t, n, s, enter, x);
    var test := TestCode(t, enter + 1, false);
    var tail := enter + |test| + |ScriptCode(s, enter + |test| + 2, false)| + 4;
    var brk := tail + |ScriptCode(n, tail + 1, true)| + 3;
    FirstOfTest(g, t, s, enter, x, p, tail, brk);
    HeadGood(g, For(start, t, n, s), t, s, enter, x, p, tail, brk);
    SteadyEnter(g, x, x.frames, tail, brk);
    NextGood(g, n, tail, x, p, enter + 1, brk);
    TailGood(g, brk, x, p, tail, brk);
    GoodJoin(g, enter, tail, brk);
    GoodJoin(g, enter, brk, brk + 2);
  }

  lemma NextFirst(s: Script, body: seq<Layout>, p: Layout)
    ensures NextLays(s, body, p)[..1] == [p]
  {
  }

  lemma LoopParts(g: Book, start: Script, t: Test, n: Script, s: Script, enter: nat, x: Layout)
    requires Here(g, enter, LoopCode(t, n, s, enter), LoopLays(start, t, n, s, enter, x))
    ensures var p := ForPass(t, n, s, enter, x);
      var test := TestCode(t, enter + 1, false); var body := ScriptCode(s, enter + |test| + 2, false);
      var tail := enter + |test| + |body| + 4; var nxt := ScriptCode(n, tail + 1, true);
          var brk := tail + |nxt| + 3;
      && p == Enter(x, tail, brk) && enter + |LoopCode(t, n, s, enter)| == brk + 2
          && OpAt(g.u.ops, brk) == Loop(LoopExit)
          && OpAt(g.u.ops, tail - 1) == Jump(Spot(tail))
      && Here(g, enter, LoopHead(test, body, tail, brk),
          HeadLays(t, TestLays(t, enter + 1, false, p), s,
          ScriptLays(s, enter + |test| + 2, false, InBody(p)), x, p))
      && Here(g, tail, [Mark(NextMark)] + nxt + [Pop, Jump(Spot(enter + 1))],
          NextLays(n, ScriptLays(n, tail + 1, true, InNext(p)), p))
      && Here(g, brk, LoopTail(), TailLays(x, p))
      && Leads(g.m, g.lays, brk, p) && Leads(g.m, g.lays, tail, p) && Leads(g.m, g.lays, enter + 1, p)
  {
    hide Here, ScriptCode, ScriptLays, TestCode, TestLays, Leads, ScriptOut, TestOut, LoopHead, HeadLays;
    var p := ForPass(t, n, s, enter, x);
    var test, testL := TestCode(t, enter + 1, false), TestLays(t, enter + 1, false, p);
    var body, bodyL := ScriptCode(s, enter + |test| + 2, false),
        ScriptLays(s, enter + |test| + 2, false, InBody(p));
    var tail := enter + |test| + |body| + 4;
    var nxt, nxtL := ScriptCode(n, tail + 1, true), ScriptLays(n, tail + 1, true, InNext(p));
    var brk := tail + |nxt| + 3;
    var head, headL := LoopHead(test, body, tail, brk), HeadLays(t, testL, s, bodyL, x, p);
    var again, againL := [Mark(NextMark)] + nxt + [Pop, Jump(Spot(enter + 1))], NextLays(n, nxtL, p);
    assert |head| == |headL| && enter + |head| == tail by { HeadSize(t, s, enter, x, p, tail, brk); }
    HereSplit(g, enter, head + again, LoopTail(), headL + againL, TailLays(x, p));
    HereSplit(g, enter, head, again, headL, againL);
    hide LoopLays, LoopCode, ForPass, NextLays;
    HereAt(g, brk, LoopTail(), TailLays(x, p), 0);
    HereLeads(g, brk, LoopTail(), TailLays(x, p), 0, p);
    assert againL[..1] == [p] by { NextFirst(n, nxtL, p); }
    HereLeads(g, tail, again, againL, 0, p);
    HeadEnds(g, t, s, enter, x, p, tail, brk);
    HeadLeads(g, t, s, enter, x, p, tail, brk);
  }

  /** The mark in front of it. */
  lemma NextMarked(g: Book, at: nat, x: Layout, p: Layout, brk: int)
    requires Ready(g, x) && Ready(g, p) && p == Enter(x, at, brk) && FlagsOf(p) == Cons(false, FlagsOf(x))
    requires Here(g, at, [Mark(NextMark)], [p]) && Leads(g.m, g.lays, at + 1, InNext(p))
    requires (g.m.flat ==> NoneIn(FlagsOf(x))) && at > 0 && OpAt(g.u.ops, at - 1).Jump?
    ensures Good(g, at, at + 1)
  {
    hide Steady, Leads, FlagsOf, Here, NoNext, Stands, Good;
    HereAt(g, at, [Mark(NextMark)], [p], 0);
    StandsOver(g, at, p, p, Mark(NextMark));
    if g.m.flat { NoFlagNoNext(p); }
    MarkGood(g, at, p, NextMark);
  }

  /** The next script of a `for`. */
  lemma {:induction false} NextGood(g: Book, n: Script, at: nat, x: Layout, p: Layout, t: nat, brk: nat)
    requires Uniform(g) && Ready(g, x) && Ready(g, p) && p == Enter(x, at, brk) && PassOf(p) == p
        && FlagsOf(p) == Cons(false, FlagsOf(x))
    requires var code := ScriptCode(n, at + 1, true);
      Here(g, at, [Mark(NextMark)] + code + [Pop, Jump(t)],
          NextLays(n, ScriptLays(n, at + 1, true, InNext(p)), p))
    requires Leads(g.m, g.lays, t, p)
    requires ShapedScript(g.u.infos, n) && (Planned(g) ==>
        PlanScript(PlanOf(g), n, true, Cons(true, FlagsOf(x))))
    requires (g.m.flat ==> NoneIn(FlagsOf(x))) && !Each(g, p) && at > 0 && OpAt(g.u.ops, at - 1).Jump?
        && !StartsPass(Lands(g.u.ops, t))
    ensures Good(g, at, at + |ScriptCode(n, at + 1, true)| + 3)
    decreases n, 5
  {
    hide Good, Steady, Here, ScriptCode, ScriptLays, Leads, FlagsOf, Uniform, ShapedScript, PlanScript, LastSite,
        StopsAt, Planned, NoNext, Stands, ScriptOut;
    var y := InNext(p);
    var code, ls := ScriptCode(n, at + 1, true), ScriptLays(n, at + 1, true, y);
    NextHere(g, n, at, p, t);
    InNextReady(g, x, p, at, brk);
    NextMarked(g, at, x, p, brk);
    if g.m.flat { NoFlagNoNext(p); }
    PlainFate(g, at + 1 + |code|, Pop);
    if Leads(g.m, g.lays, at + 1 + |code|, ScriptOut(n, y)) { ScriptGood(g, n, at + 1, true, y); }
    PassGood(g, n, at + 1, true, y, Pop, t);
    GoodJoin(g, at, at + 1, at + |code| + 3);
  }

  lemma NextHere(g: Book, n: Script, at: nat, p: Layout, t: nat)
    requires var code := ScriptCode(n, at + 1, true);
      Here(g, at, [Mark(NextMark)] + code + [Pop, Jump(t)],
          NextLays(n, ScriptLays(n, at + 1, true, InNext(p)), p))
    ensures var y := InNext(p); var code, ls := ScriptCode(n, at + 1, true), ScriptLays(n, at + 1, true, y);
      && Here(g, at, [Mark(NextMark)], [p]) && Leads(g.m, g.lays, at + 1, y)
      && Here(g, at + 1, code + [Pop, Jump(t)], ls + [ScriptOut(n, y), y.(site := LastSite(n, p.site))])
      && Here(g, at + 1, code, ls) && OpAt(g.u.ops, at + 1 + |code|) == Pop
  {
    hide Here, ScriptCode, ScriptLays, Leads, LastSite, ScriptOut;
    var y := InNext(p);
    var code, ls := ScriptCode(n, at + 1, true), ScriptLays(n, at + 1, true, y);
    var tail := [ScriptOut(n, y), y.(site := LastSite(n, p.site))];
    assert Here(g, at, [Mark(NextMark)] + (code + [Pop, Jump(t)]), [p] + (ls + tail)) by {
      assert [Mark(NextMark)] + (code + [Pop, Jump(t)]) == [Mark(NextMark)] + code + [Pop, Jump(t)];
      assert [p] + (ls + tail) == NextLays(n, ls, p);
    }
    HereSplit(g, at, [Mark(NextMark)], code + [Pop, Jump(t)], [p], ls + tail);
    HereSplit(g, at + 1, code, [Pop, Jump(t)], ls, tail);
    HereAt(g, at + 1, code + [Pop, Jump(t)], ls + tail, 0);
    HereAt(g, at + 1 + |code|, [Pop, Jump(t)], tail, 0);
    SelfLeads(g, at + 1, y);
  }

  lemma InNextReady(g: Book, x: Layout, p: Layout, cont: int, brk: int)
    requires Ready(g, x) && Ready(g, p) && !Each(g, p) && p == Enter(x, cont, brk) && PassOf(p) == p
        && FlagsOf(p) == Cons(false, FlagsOf(x))
    ensures var y := InNext(p); Ready(g, y) && Closable(y) && FlagsOf(y) == Cons(true, FlagsOf(x)) && Close(y) == p
  {
    hide Flags, Anchored;
    assert p.(loops := x.loops) == x;
    if x.loops.Cons? { InnerAnchor(g.m, g.lays, x); }
    SteadyNext(g, p);
  }

  // ── foreach and lmap ──

  lemma {:induction false} ForeachGood(g: Book, info: nat, shape: ForeachInfo, data: Words, s: Script, at: nat,
          next: bool, x: Layout)
    requires Piece(g, at, FormCode(Foreach(info, shape, data, s), at, next),
        ForeachLays(info, shape, data, s, at, next, x), x, Push1(x))
    requires ShapedForm(g.u.infos, Foreach(info, shape, data, s))
        && (Planned(g) ==> PlanForm(PlanOf(g), Foreach(info, shape, data, s), next, FlagsOf(x)))
    ensures Good(g, at, at + |FormCode(Foreach(info, shape, data, s), at, next)|)
    decreases Foreach(info, shape, data, s), 7
  {
    hide Good, Steady, Here, ScriptCode, ScriptLays, WordsCode, WordsLays, Leads, FlagsOf, Uniform, ShapedWords,
        ShapedScript, PlanWords, PlanScript, EachCode, EachLays;
    var d, dL, start := WordsCode(data, at, next), WordsLays(data, at, next, x), at + |WordsCode(data, at, next)|;
    var each, eachL := EachCode(info, shape, ScriptCode(s, start + 2, next), start),
        EachLays(Count(data), shape, s, start, next, x);
    var full := Over(x, Count(data));
    assert |each| == |ScriptCode(s, start + 2, next)| + 6 && |eachL| == |each| && Begins(eachL, full)
        by { EachHead(info, shape, Count(data), s, start, next, x); }
    HereSplit(g, at, d, each, dL, eachL);
    HereAt(g, start, each, eachL, 0);
    SelfLeads(g, start, full);
    WordsGood(g, data, at, next, x);
    EachGood(g, info, shape, Count(data), s, start, next, x);
    GoodJoin(g, at, start, start + |each|);
  }

  lemma EachHead(info: nat, shape: ForeachInfo, lists: nat, s: Script, at: int, next: bool, x: Layout)
    ensures |EachCode(info, shape, ScriptCode(s, at + 2, next), at)| == |ScriptCode(s, at + 2, next)| + 6
    ensures Begins(EachLays(lists, shape, s, at, next, x), Over(x, lists))
  {
    hide ScriptCode, ScriptLays;
  }

  /** The table holds the shape. */
  predicate ShapeAt(g: Book, info: nat, shape: ForeachInfo) { info < |g.u.infos| && g.u.infos[info] == shape }

  lemma {:induction false} EachGood(g: Book, info: nat, shape: ForeachInfo, lists: nat, s: Script, at: nat, next: bool,
          x: Layout)
    requires Piece(g, at, EachCode(info, shape, ScriptCode(s, at + 2, next), at),
        EachLays(lists, shape, s, at, next, x), x, Push1(x))
    requires ShapeAt(g, info, shape) && shape.groups == lists && ShapedScript(g.u.infos, s)
    requires Planned(g) ==>
        (g.m.flat ==> NoneIn(FlagsOf(x))) && PlanScript(PlanOf(g), s, next, Cons(false, FlagsOf(x)))
    ensures Good(g, at, at + |ScriptCode(s, at + 2, next)| + 6)
    decreases s, 4
  {
    hide Good, Steady, Here, ScriptCode, ScriptLays, Leads, FlagsOf, Uniform, ShapedWords, ShapedScript, PlanWords,
        PlanScript, LastSite, Piece, NoNext, ScriptOut, Stands, StopsAt;
    var p := EachPass(shape, s, at, next, x);
    var q := InPass(shape, p);
    var body, bodyL := ScriptCode(s, at + 2, next), ScriptLays(s, at + 2, next, q);
    var tail := at + |body| + 4;
    assert Uniform(g) && Ready(g, x) && EachParts(g, info, shape, lists, s, at, next, x)
        by { EachSplit(g, info, shape, lists, s, at, next, x); }
    EachEnds(g, info, shape, lists, s, at, next, x);
    SteadyEnter(g, x, Cons(shape, x.frames), tail, tail + 1);
    SteadyOpen(g, p, RegionFor(if shape.framed then BodyMarkFramed else BodyMark, p));
    OpeningGood(g, info, shape, lists, s, at, next, x);
    if Leads(g.m, g.lays, tail - 2, ScriptOut(s, q)) {
      assert Piece(g, at + 2, body, bodyL, q, ScriptOut(s, q)) by { EachBody(g, shape, s, at, next, q); }
      ScriptGood(g, s, at + 2, next, q);
    }
    if g.m.flat { NoFlagNoNext(q); }
    PassGood(g, s, at + 2, next, q, if shape.lmap then Loop(ForeachCollect) else Pop, tail);
    if g.m.flat { NoFlagNoNext(p); }
    ClosingGood(g, info, shape, lists, s, at, next, x);
    GoodJoin(g, at, at + 2, tail);
    GoodJoin(g, at, tail, tail + 2);
  }

  /** The parts of an iteration. */
  ghost predicate EachParts(g: Book, info: nat, shape: ForeachInfo, lists: nat, s: Script, at: nat, next: bool,
          x: Layout) {
    var p := EachPass(shape, s, at, next, x);
    var q := InPass(shape, p);
    var body := ScriptCode(s, at + 2, next);
    var tail := at + |body| + 4;
    && Here(g, at, [Loop(ForeachStart(info, Spot(tail), Spot(tail + 1))), BodyMarkFor(shape.framed)],
        [Over(x, lists), p])
    && Here(g, at + 2, body + [if shape.lmap then Loop(ForeachCollect) else Pop, Jump(Spot(tail))],
            ScriptLays(s, at + 2, next, q) + [ScriptOut(s, q), q.(site := LastSite(s, q.site))])
    && Here(g, tail, [Loop(ForeachNext(info, Spot(at + 1))), Loop(ForeachEnd)], [p, p])
    && Leads(g.m, g.lays, at + 1, p) && Leads(g.m, g.lays, at + 2, q) && Leads(g.m, g.lays, tail, p)
        && Leads(g.m, g.lays, tail + 1, p)
    && Leads(g.m, g.lays, tail + 2, Push1(x))
  }

  lemma EachSplit(g: Book, info: nat, shape: ForeachInfo, lists: nat, s: Script, at: nat, next: bool, x: Layout)
    requires Piece(g, at, EachCode(info, shape, ScriptCode(s, at + 2, next), at),
        EachLays(lists, shape, s, at, next, x), x, Push1(x))
    ensures Uniform(g) && Ready(g, x) && EachParts(g, info, shape, lists, s, at, next, x)
  {
    hide Steady, Here, ScriptCode, ScriptLays, Leads, Uniform, LastSite;
    var p := EachPass(shape, s, at, next, x);
    var q := InPass(shape, p);
    var body, bodyL := ScriptCode(s, at + 2, next), ScriptLays(s, at + 2, next, q);
    var tail := at + |body| + 4;
    var open, openL := [Loop(ForeachStart(info, tail, tail + 1)), BodyMarkFor(shape.framed)],
        [Over(x, lists), p];
    var pass, passL := body + [if shape.lmap then Loop(ForeachCollect) else Pop, Jump(tail)],
        bodyL + [ScriptOut(s, q), q.(site := LastSite(s, q.site))];
    var close, closeL := [Loop(ForeachNext(info, at + 1)), Loop(ForeachEnd)], [p, p];
    assert open + (pass + close) == EachCode(info, shape, body, at);
    assert openL + (passL + closeL) == EachLays(lists, shape, s, at, next, x);
    HereSplit(g, at, open, pass + close, openL, passL + closeL);
    HereSplit(g, at + 2, pass, close, passL, closeL);
    HereLeads(g, at, open, openL, 1, p);
    HereLeads(g, at + 2, pass, passL, 0, q);
    HereLeads(g, tail, close, closeL, 0, p);
    HereLeads(g, tail, close, closeL, 1, p);
  }

  /** The layout an instruction of the code has is a layout its place is led to with. */
  lemma HereLeads(g: Book, at: nat, code: seq<OpCode>, ls: seq<Layout>, k: nat, x: Layout)
    requires Here(g, at, code, ls) && k < |code| && |ls| == |code| && ls[k] == x
    ensures Leads(g.m, g.lays, at + k, x)
  {
    hide Leads;
    HereAt(g, at, code, ls, k);
    SelfLeads(g, at + k, x);
  }

  /** The end of a pass and the step to the next one. */
  lemma EachEnds(g: Book, info: nat, shape: ForeachInfo, lists: nat, s: Script, at: nat, next: bool, x: Layout)
    requires EachParts(g, info, shape, lists, s, at, next, x)
    ensures var tail := at + |ScriptCode(s, at + 2, next)| + 4;
        StopsAt(g, tail - 2) && IsNext(OpAt(g.u.ops, tail)) && OpAt(g.u.ops, tail - 1).Jump?
        && OpAt(g.u.ops, tail + 1) == Loop(ForeachEnd)
  {
    hide Here, ScriptCode, ScriptLays, Leads, LastSite, FateAt, StopsAt;
    var p := EachPass(shape, s, at, next, x);
    var q := InPass(shape, p);
    var body, bodyL := ScriptCode(s, at + 2, next), ScriptLays(s, at + 2, next, q);
    var tail := at + |body| + 4;
    var drop := if shape.lmap then Loop(ForeachCollect) else Pop;
    HereAt(g, at + 2, body + [drop, Jump(tail)], bodyL + [ScriptOut(s, q), q.(site := LastSite(s, q.site))],
        |body|);
    PlainFate(g, tail - 2, drop);
    HereAt(g, at + 2, body + [drop, Jump(tail)], bodyL + [ScriptOut(s, q), q.(site := LastSite(s, q.site))],
        |body| + 1);
    HereAt(g, tail, [Loop(ForeachNext(info, at + 1)), Loop(ForeachEnd)], [p, p], 0);
    HereAt(g, tail, [Loop(ForeachNext(info, at + 1)), Loop(ForeachEnd)], [p, p], 1);
  }

  lemma EachBody(g: Book, shape: ForeachInfo, s: Script, at: nat, next: bool, q: Layout)
    requires Uniform(g) && Ready(g, q)
    requires var body := ScriptCode(s, at + 2, next);
      && Here(g, at + 2, body + [if shape.lmap then Loop(ForeachCollect) else Pop, Jump(Spot(at + |body| + 4))],
              ScriptLays(s, at + 2, next, q) + [ScriptOut(s, q), q.(site := LastSite(s, q.site))])
      && Leads(g.m, g.lays, at + 2 + |body|, ScriptOut(s, q))
    ensures Piece(g, at + 2, ScriptCode(s, at + 2, next), ScriptLays(s, at + 2, next, q), q,
        ScriptOut(s, q))
  {
    hide Here, Steady, ScriptCode, ScriptLays, Leads, Uniform, LastSite;
    var body := ScriptCode(s, at + 2, next);
    HereSplit(g, at + 2, body, [if shape.lmap then Loop(ForeachCollect) else Pop, Jump(Spot(at + |body| + 4))],
              ScriptLays(s, at + 2, next, q), [ScriptOut(s, q), q.(site := LastSite(s, q.site))]);
  }

  /** The start of an iteration and the mark of its first pass. */
  lemma OpeningGood(g: Book, info: nat, shape: ForeachInfo, lists: nat, s: Script, at: nat, next: bool, x: Layout)
    requires Uniform(g) && Ready(g, x) && EachParts(g, info, shape, lists, s, at, next, x)
    requires var p := EachPass(shape, s, at, next, x); Steady(g, p) && !p.bit
    requires ShapeAt(g, info, shape) && shape.groups == lists
    ensures Good(g, at, at + 2)
  {
    hide Good, Steady, Here, ScriptCode, ScriptLays, Leads, LastSite;
    var p := EachPass(shape, s, at, next, x);
    var tail := at + |ScriptCode(s, at + 2, next)| + 4;
    var full := Over(x, lists);
    var open := [Loop(ForeachStart(info, tail, tail + 1)), BodyMarkFor(shape.framed)];
    HereAt(g, at, open, [full, p], 0);
    HereAt(g, at, open, [full, p], 1);
    StandsOver(g, at, x, full, open[0]);
    StartGood(g, at, x, info, tail, tail + 1);
    var k := if shape.framed then BodyMarkFramed else BodyMark;
    StandsOver(g, at + 1, p, p, Mark(k));
    MarkGood(g, at + 1, p, k);
    GoodJoin(g, at, at + 1, at + 2);
  }

  lemma StartGood(g: Book, pc: nat, x: Layout, i: nat, n: nat, e: nat)
    requires Stands(g, pc, x, Loop(ForeachStart(i, n, e))) && i < |g.u.infos|
        && LayAt(g.lays, pc).depth == x.depth + g.u.infos[i].groups && Uniform(g)
    requires var y := Enter(x.(frames := Cons(g.u.infos[i], x.frames)), n, e);
      Steady(g, y) && Leads(g.m, g.lays, pc + 1, y) && Leads(g.m, g.lays, e, y)
    ensures Good(g, pc, pc + 1)
  {
    hide Safe, Leads;
    SteadyLike(g, x, g.lays[pc]);
    SafeParts(g, g.lays[pc]);
  }

  /** On to the next pass, or out. */
  lemma ClosingGood(g: Book, info: nat, shape: ForeachInfo, lists: nat, s: Script, at: nat, next: bool, x: Layout)
    requires EachParts(g, info, shape, lists, s, at, next, x) && Ready(g, x) && ShapeAt(g, info, shape)
    requires var p := EachPass(shape, s, at, next, x);
        Steady(g, p) && !p.bit && PassOf(p) == p && (g.m.flat ==> NoNext(p.bodies, p.loops))
    requires var tail := at + |ScriptCode(s, at + 2, next)| + 4;
        OpAt(g.u.ops, tail - 1).Jump? && OpAt(g.u.ops, tail + 1) == Loop(ForeachEnd)
    ensures var tail := at + |ScriptCode(s, at + 2, next)| + 4; Good(g, tail, tail + 2)
  {
    hide Good, Steady, Here, ScriptCode, ScriptLays, Leads, LastSite, NoNext, Stands, ScriptOut;
    var p := EachPass(shape, s, at, next, x);
    var tail := at + |ScriptCode(s, at + 2, next)| + 4;
    var close := [Loop(ForeachNext(info, at + 1)), Loop(ForeachEnd)];
    HereAt(g, tail, close, [p, p], 0);
    HereAt(g, tail, close, [p, p], 1);
    StandsOver(g, tail, p, p, close[0]);
    AdvanceGood(g, tail, p, info, at + 1);
    StandsOver(g, tail + 1, p, p, close[1]);
    assert LeftEach(p) == Push1(x);
    assert Depth(p.bodies) == EntryDepth(p) by { EachPassDepth(shape, s, at, next, x); }
    EachEndGood(g, tail + 1, p);
    GoodJoin(g, tail, tail + 1, tail + 2);
  }

  lemma EachPassDepth(shape: ForeachInfo, s: Script, at: nat, next: bool, x: Layout)
    ensures var p := EachPass(shape, s, at, next, x); Depth(p.bodies) == EntryDepth(p)
  {
  }

  predicate FrameAt(g: Book, i: nat, x: Layout) {
    i < |g.u.infos| && x.frames.Cons? && g.u.infos[i] == x.frames.head
  }

  /** Behind the end of an iteration. */
  function LeftEach(x: Layout): Layout {
    if x.loops.Nil? || x.frames.Nil? then x
    else Over(x, 1).(loops := x.loops.tail, frames := x.frames.tail)
  }

  lemma AdvanceGood(g: Book, pc: nat, x: Layout, i: nat, b: nat)
    requires Stands(g, pc, x, Loop(ForeachNext(i, b))) && LayAt(g.lays, pc) == x && !x.bit && x.frames.Cons?
    requires Leads(g.m, g.lays, b, x) && Leads(g.m, g.lays, pc + 1, x)
        && (g.m.exact ==> FrameAt(g, i, x))
    requires PassesAt(x, pc) && Barrier(Before(g.u.ops, pc)) && Each(g, x)
        && (g.m.flat ==> NoNext(x.bodies, x.loops))
    ensures Good(g, pc, pc + 1)
  {
    hide Safe, Leads;
    SafeParts(g, x);
  }

  lemma EachEndGood(g: Book, pc: nat, x: Layout)
    requires Stands(g, pc, x, Loop(ForeachEnd)) && LayAt(g.lays, pc) == x && !x.bit && x.frames.Cons? && x.loops.Cons?
    requires Leads(g.m, g.lays, pc + 1, LeftEach(x)) && (g.m.flat ==> Depth(x.bodies) == EntryDepth(x))
    ensures Good(g, pc, pc + 1)
  {
    hide Safe, Leads;
    SafeParts(g, x);
  }
}

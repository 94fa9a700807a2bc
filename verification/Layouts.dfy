/** How the stacks look at each place of a unit: a static account of operands,
    regions, sites, loops and iterations, and that it is right of every run. */
module Layouts {
  import opened Options
  import opened Opcodes
  import opened Machine
  import opened Discipline
  import opened Laws
  import opened Negations
  import opened Levels

  /** What is on the stacks; `bit` says that the operand on top is 0 or 1. */
  datatype Layout = Layout(
    depth: nat, bodies: List<Region>, site: int, loops: List<LoopFrame>, frames: List<ForeachInfo>, bit: bool)

  /** How much is claimed.  `exact`: iterations are exactly those of the account,
      otherwise some may have been left behind; `framed`: what iterations agree
      on, if anything; `flat`: no loop but a `while` runs in a next script;
      `bits`: the claim about the operand on top; `strict`: branches read it. */
  datatype Mode = Mode(exact: bool, framed: Option<bool>, flat: bool, bits: bool, strict: bool)

  // ── a state and its layout ──

  predicate SameRegion(exact: bool, a: Region, b: Region) {
    a == b || (!exact && a.BodyFramed? && b.BodyFramed? && a.site == b.site)
  }

  predicate SameRegions(exact: bool, a: List<Region>, b: List<Region>) {
    match a
    case Nil => b.Nil?
    case Cons(r, rest) => b.Cons? && SameRegion(exact, r, b.head) && SameRegions(exact, rest, b.tail)
  }

  predicate Like(f: ForeachFrame, i: ForeachInfo) { f.framed == i.framed && f.lmap == i.lmap }

  /** The iterations since the start are those of the account. */
  predicate Exactly(fs: List<ForeachFrame>, fs0: List<ForeachFrame>, frames: List<ForeachInfo>)
    decreases frames
  {
    if frames.Nil? then fs == fs0 else fs.Cons? && Like(fs.head, frames.head) && Exactly(fs.tail, fs0, frames.tail)
  }

  /** There are at least `n` of them. */
  predicate AtLeast(framed: Option<bool>, fs: List<ForeachFrame>, fs0: List<ForeachFrame>, n: nat)
    decreases fs
  {
    || (fs == fs0 && n == 0)
    || (fs.Cons? && (framed.Some? ==> fs.head.framed == framed.value)
        && AtLeast(framed, fs.tail, fs0, if n == 0 then 0 else n - 1))
  }

  predicate Iterations(m: Mode, fs: List<ForeachFrame>, fs0: List<ForeachFrame>, frames: List<ForeachInfo>) {
    if m.exact then Exactly(fs, fs0, frames) else AtLeast(m.framed, fs, fs0, Depth(frames))
  }

  predicate Has(m: Mode, x: Layout, d: State, fs0: List<ForeachFrame>) {
    && Depth(d.core.stack) == x.depth && SameRegions(m.exact, d.core.bodies, x.bodies)
    && d.core.site == x.site && d.loops == x.loops && Iterations(m, d.core.foreaches, fs0, x.frames)
    && (m.bits && x.bit ==> d.core.stack.Cons? && IsBit(d.core.stack.head))
  }

  // ── the account ──

  const NOTHING := Layout(0, Nil, 0, Nil, Nil, false)

  function LayAt(lays: seq<Layout>, pc: int): Layout { if 0 <= pc < |lays| then lays[pc] else NOTHING }

  /** A state of layout `want` may go on at `t`. */
  predicate Leads(m: Mode, lays: seq<Layout>, t: int, want: Layout) {
    0 <= t < |lays| &&
    var x := lays[t];
    && x.depth == want.depth && x.bodies == want.bodies && x.site == want.site && x.loops == want.loops
    && (x.bit ==> want.bit)
    && if m.exact then x.frames == want.frames else Depth(x.frames) <= Depth(want.frames)
  }

  /** At the start of a pass of the innermost loop. */
  function PassOf(x: Layout): Layout {
    if x.loops.Nil? then x
    else
      var at := x.loops.head.at;
      x.(depth := at.stackLen, bodies := Truncate(x.bodies, at.bodiesLen), site := at.owner, bit := false)
  }

  /** Outside the innermost loop, as it was entered. */
  function Outer(m: Mode, lays: seq<Layout>, x: Layout): Layout {
    var rest := if x.loops.Nil? then Nil else x.loops.tail;
    PassOf(x).(loops := rest, frames := if m.exact && rest.Cons?
        && rest.head.cont < |lays| then lays[rest.head.cont].frames else x.frames)
  }

  /** Every open loop can be gone on with, and broken out of. */
  predicate Anchored(m: Mode, lays: seq<Layout>, x: Layout)
    decreases x.loops
  {
    x.loops.Cons? ==>
      var l := x.loops.head;
      && l.at.bodiesLen <= Depth(x.bodies) && l.at.stackLen <= x.depth
      && Leads(m, lays, l.cont, PassOf(x)) && Leads(m, lays, l.brk, PassOf(x))
      && Anchored(m, lays, Outer(m, lays, x))
  }

  /** A `continue` that escapes next scripts leaves no iteration behind. */
  predicate Escapes(lays: seq<Layout>, x: Layout)
    decreases x.loops
  {
    x.loops.Cons? && NextAbove(x.bodies, x.loops.head.at.bodiesLen) && x.loops.tail.Cons? ==>
      && x.loops.tail.head.cont < |lays| && lays[x.loops.tail.head.cont].frames == x.frames
      && Escapes(lays, PassOf(x).(loops := x.loops.tail))
  }

  predicate Safe(m: Mode, lays: seq<Layout>, x: Layout) { Anchored(m, lays, x) && (m.exact ==> Escapes(lays, x)) }

  /** The operands an instruction takes. */
  function Pops(infos: seq<ForeachInfo>, op: OpCode): nat {
    match op
    case Pop => 1
    case Store(_) => 1
    case Lappend(_) => 1
    case Bin(_) => 2
    case Un(_) => 1
    case Concat(n) => n
    case JumpIf(_, _) => 1
    case Loop(ForeachStart(i, _, _)) => if i < |infos| then infos[i].groups else 0
    case Loop(ForeachCollect) => 1
    case Return => 1
    case Call(_, _, n) => n
    case EvalScript => 1
    case EvalExpr => 1
    case _ => 0
  }

  /** What lies below belongs to the loop around, or to whoever started the unit. */
  function Floor(x: Layout, base: nat): nat { if x.loops.Cons? then x.loops.head.at.stackLen else base }

  function RegionFor(k: MarkOp, x: Layout): Region {
    match k
    case BodyMark => Body(x.site)
    case BodyMarkFramed => BodyFramed(x.site, x.frames.Cons? && x.frames.head.lmap)
    case NextMark => Next(x.site)
    case SubMark => Region.Sub(x.site)
    case ExprMark => Expr(x.site)
  }

  function Open(x: Layout, r: Region): Layout { x.(bodies := Cons(r, x.bodies), bit := false) }

  /** Instructions that close a region. */
  predicate Closes(op: OpCode) { op.Jump? || op.SubEnd? }

  function Close(x: Layout): Layout { if x.bodies.Nil? then x
          else x.(bodies := x.bodies.tail, site := x.bodies.head.site) }

  /** There is a region of this loop to close. */
  predicate Closable(x: Layout) { x.bodies.Cons? && (x.loops.Cons? ==> Depth(x.bodies) > x.loops.head.at.bodiesLen) }

  /** `n` operands. */
  function Deep(x: Layout, n: int): Layout { x.(depth := Spot(n), bit := false) }

  /** `n` operands more. */
  function Over(x: Layout, n: int): Layout { x.(depth := Spot(x.depth + n)) }

  /** In the pass that starts at `pc`. */
  predicate PassesAt(x: Layout, pc: int) { x.loops.Cons? && x.loops.head.cont == pc }

  /** The regions open at the innermost loop's entry. */
  function EntryDepth(x: Layout): nat { if x.loops.Nil? then 0 else x.loops.head.at.bodiesLen }

  function Enter(x: Layout, cont: int, brk: int): Layout {
    x.(loops := Cons(LoopFrame(Spot(cont), Spot(brk), Entry(Depth(x.bodies), x.depth, x.site)), x.loops), bit := false)
  }

  /** The layouts after an instruction other than loop control. */
  predicate PlainFits(m: Mode, infos: seq<ForeachInfo>, lays: seq<Layout>, pc: nat, op: OpCode) {
    pc < |lays| && Pops(infos, op) <= lays[pc].depth &&
    var x := lays[pc];
    var less := x.(depth := x.depth - Pops(infos, op), bit := false);
    var one := less.(depth := less.depth + 1);
    match op
    case Push(lit) => Leads(m, lays, pc + 1, one.(bit := LitBit(lit)))
    case Load(_) => Leads(m, lays, pc + 1, one)
    case Incr(_, _) => Leads(m, lays, pc + 1, one)
    case Store(_) => Leads(m, lays, pc + 1, one)
    case Lappend(_) => Leads(m, lays, pc + 1, one)
    case Pop => Leads(m, lays, pc + 1, less)
    case Bin(op) => Leads(m, lays, pc + 1, one.(bit := IsCmp(op)))
    case Un(op) => Leads(m, lays, pc + 1, one.(bit := op.Not?))
    case Concat(_) => Leads(m, lays, pc + 1, one)
    case Call(_, _, _) => Leads(m, lays, pc + 1, one)
    case EvalScript => Leads(m, lays, pc + 1, one)
    case EvalExpr => Leads(m, lays, pc + 1, one)
    case Return => true
    case Exit(_) => true
    case BeginCmd(s) => Leads(m, lays, pc + 1, x.(site := s, bit := false))
    case Mark(k) => (k.BodyMarkFramed? ==> x.frames.Cons?) && Leads(m, lays, pc + 1, Open(x, RegionFor(k, x)))
    case SubEnd => Leads(m, lays, pc + 1, Close(x))
    case Jump(t) => Leads(m, lays, t, Close(x))
    case JumpIf(_, t) => Leads(m, lays, t, less) && Leads(m, lays, pc + 1, Open(less, Body(x.site)))
    case _ => false
  }

  predicate LoopFits(m: Mode, infos: seq<ForeachInfo>, lays: seq<Layout>, pc: nat, l: LoopOp) {
    pc < |lays| && Pops(infos, Loop(l)) <= lays[pc].depth &&
    var x := lays[pc].(bit := false);
    match l
    case LoopEnter(c, b) => Leads(m, lays, pc + 1, Enter(x, c, b))
    case LoopExit => Leads(m, lays, pc + 1, x.(loops := if x.loops.Nil? then Nil else x.loops.tail))
    case Break => true
    case Continue => true
    case ForeachStart(i, n, e) =>
      i < |infos| && (m.framed.Some? ==> infos[i].framed == m.framed.value) &&
      var y := Enter(x.(depth := x.depth - infos[i].groups, frames := Cons(infos[i], x.frames)), n, e);
      Safe(m, lays, y) && Leads(m, lays, pc + 1, y) && Leads(m, lays, e, y)
    case ForeachNext(i, b) =>
      && x.frames.Cons? && (m.exact ==> i < |infos| && infos[i] == x.frames.head)
      && Leads(m, lays, b, x) && Leads(m, lays, pc + 1, x)
    case ForeachCollect => x.frames.Cons? && Leads(m, lays, pc + 1, x.(depth := x.depth - 1))
    case ForeachEnd =>
      x.frames.Cons? && x.loops.Cons? && Leads(m, lays, pc + 1,
          x.(depth := x.depth + 1, loops := x.loops.tail, frames := x.frames.tail))
  }

  predicate OpFits(m: Mode, infos: seq<ForeachInfo>, lays: seq<Layout>, base: nat, pc: nat, op: OpCode) {
    pc < |lays| &&
    var x := lays[pc];
    && Anchored(m, lays, x)
    && (m.exact && !(op.Loop? && (op.l.Break? || op.l.Continue?)) ==> Escapes(lays, x))
    && Floor(x, base) + Pops(infos, op) <= x.depth && (Closes(op) ==> Closable(x))
    && if op.Loop? then LoopFits(m, infos, lays, pc, op.l) else PlainFits(m, infos, lays, pc, op)
  }

  /** What an instruction's place among the others asks of its layout. */
  ghost predicate RoleFits(m: Mode, ops: seq<OpCode>, lays: seq<Layout>, pc: nat) {
    pc < |ops| && pc < |lays| &&
    var op, x := ops[pc], lays[pc];
    && (StartsPass(op) ==> x.loops.Cons? && x.loops.head.cont == pc && Barrier(Before(ops, pc)))
    && (m.flat ==> TameOn(ops, pc, x.bodies, x.loops))
    && (m.bits && op == Un(Not) ==> x.bit || !Reading(m.strict, FateAt(ops, pc + 1, true)).Never?)
  }

  /** The whole unit agrees with its account. */
  ghost predicate Accounted(m: Mode, u: Code, lays: seq<Layout>, base: nat) {
    |lays| == |u.ops| + 1 && forall pc | 0 <= pc < |u.ops| ::
        OpFits(m, u.infos, lays, base, pc, u.ops[pc]) && RoleFits(m, u.ops, lays, pc)
  }

  // ── lists ──

  lemma {:induction false} SameDepth(exact: bool, a: List<Region>, b: List<Region>)
    requires SameRegions(exact, a, b)
    ensures Depth(a) == Depth(b) && (exact ==> a == b)
  {
    if a.Cons? { SameDepth(exact, a.tail, b.tail); }
  }

  lemma {:induction false} SameTruncated(exact: bool, a: List<Region>, b: List<Region>, n: nat)
    requires SameRegions(exact, a, b)
    ensures SameRegions(exact, Truncate(a, n), Truncate(b, n))
  {
    SameDepth(exact, a, b);
    if Depth(a) > n { SameTruncated(exact, a.tail, b.tail, n); }
  }

  lemma {:induction false} SameNext(exact: bool, a: List<Region>, b: List<Region>, n: nat)
    requires SameRegions(exact, a, b)
    ensures NextAbove(a, n) == NextAbove(b, n)
  {
    SameDepth(exact, a, b);
    if Depth(a) > n { SameNext(exact, a.tail, b.tail, n); }
  }

  lemma {:induction false} SameNoNext(exact: bool, a: List<Region>, b: List<Region>, loops: List<LoopFrame>)
    requires SameRegions(exact, a, b)
    ensures NoNext(a, loops) == NoNext(b, loops)
    decreases loops
  {
    if loops.Cons? {
      SameNext(exact, a, b, loops.head.at.bodiesLen);
      SameTruncated(exact, a, b, loops.head.at.bodiesLen);
      SameNoNext(exact, Truncate(a, loops.head.at.bodiesLen), Truncate(b, loops.head.at.bodiesLen), loops.tail);
    }
  }

  lemma {:induction false} SameSelf(exact: bool, a: List<Region>)
    ensures SameRegions(exact, a, a)
  {
    if a.Cons? { SameSelf(exact, a.tail); }
  }

  lemma {:induction false} Fewer(framed: Option<bool>, fs: List<ForeachFrame>, fs0: List<ForeachFrame>, n: nat, k: nat)
    requires AtLeast(framed, fs, fs0, n) && k <= n
    ensures AtLeast(framed, fs, fs0, k)
    decreases fs
  {
    if !(fs == fs0 && n == 0) {
      Fewer(framed, fs.tail, fs0, if n == 0 then 0 else n - 1, if k == 0 then 0 else k - 1);
    }
  }

  /** Where a layout leads, it holds. */
  lemma LeadsHas(m: Mode, lays: seq<Layout>, t: nat, want: Layout, d: State, fs0: List<ForeachFrame>)
    requires Leads(m, lays, t, want) && Has(m, want, d, fs0)
    ensures t < |lays| && Has(m, lays[t], d, fs0)
  {
    hide SameRegions, AtLeast, Exactly;
    if !m.exact { Fewer(m.framed, d.core.foreaches, fs0, Depth(want.frames), Depth(lays[t].frames)); }
  }

  // ── faults ──

  /** A state of which only the parts a signal keeps are known. */
  predicate Rough(m: Mode, x: Layout, d: State, fs0: List<ForeachFrame>) {
    && SameRegions(m.exact, d.core.bodies, x.bodies) && d.loops == x.loops
        && Iterations(m, d.core.foreaches, fs0, x.frames)
    && (d.loops.Cons? ==> d.loops.head.at.stackLen <= Depth(d.core.stack))
  }

  ghost predicate Fits(m: Mode, lays: seq<Layout>, s: Run, fs0: List<ForeachFrame>) {
    s.Running? ==> s.pc < |lays| && Has(m, lays[s.pc], s.d, fs0)
  }

  lemma UnwoundHas(m: Mode, lays: seq<Layout>, x: Layout, d: State, fs0: List<ForeachFrame>)
    requires Anchored(m, lays, x) && Rough(m, x, d, fs0) && d.loops.Cons?
    ensures var l := d.loops.head; var d1 := d.(core := Unwound(d.core, l.at));
      Fits(m, lays, Running(l.cont, d1), fs0) && Fits(m, lays, Running(l.brk, d1), fs0)
  {
    hide Iterations, Anchored;
    var l := d.loops.head;
    assert Leads(m, lays, l.cont, PassOf(x)) && Leads(m, lays, l.brk, PassOf(x)) by { InnerAnchor(m, lays, x); }
    SameTruncated(m.exact, d.core.bodies, x.bodies, l.at.bodiesLen);
    TruncateDepth(d.core.stack, l.at.stackLen);
    var d1 := d.(core := Unwound(d.core, l.at));
    LeadsHas(m, lays, l.cont, PassOf(x), d1, fs0);
    LeadsHas(m, lays, l.brk, PassOf(x), d1, fs0);
  }

  lemma InnerAnchor(m: Mode, lays: seq<Layout>, x: Layout)
    requires Anchored(m, lays, x) && x.loops.Cons?
    ensures var l := x.loops.head;
      && l.at.bodiesLen <= Depth(x.bodies) && l.at.stackLen <= x.depth
      && Leads(m, lays, l.cont, PassOf(x)) && Leads(m, lays, l.brk, PassOf(x)) && Anchored(m, lays, Outer(m, lays, x))
  {
  }

  /** Seen from outside its innermost loop. */
  lemma OuterRough(m: Mode, lays: seq<Layout>, x: Layout, d: State, c: Core, fs0: List<ForeachFrame>)
    requires Safe(m, lays, x) && Rough(m, x, d, fs0) && d.loops.Cons? && NextAbove(x.bodies, d.loops.head.at.bodiesLen)
    requires c.foreaches == d.core.foreaches
    requires c.bodies == Truncate(d.core.bodies, d.loops.head.at.bodiesLen)
    requires c.stack == Truncate(d.core.stack, d.loops.head.at.stackLen)
    ensures var y := Outer(m, lays, x);
      Safe(m, lays, y) && Rough(m, y, State(c, d.loops.tail), fs0)
  {
    hide Iterations, Anchored, Escapes;
    var l, y := d.loops.head, Outer(m, lays, x);
    InnerAnchor(m, lays, x);
    SameTruncated(m.exact, d.core.bodies, x.bodies, l.at.bodiesLen);
    TruncateDepth(d.core.stack, l.at.stackLen);
    if m.exact { OuterEscapes(m, lays, x); }
    if d.loops.tail.Cons? { InnerAnchor(m, lays, y); }
  }

  lemma OuterEscapes(m: Mode, lays: seq<Layout>, x: Layout)
    requires m.exact && Escapes(lays, x) && x.loops.Cons? && NextAbove(x.bodies, x.loops.head.at.bodiesLen)
    ensures Escapes(lays, Outer(m, lays, x)) && Outer(m, lays, x).frames == x.frames
  {
  }

  lemma {:induction false} EscapeFits(m: Mode, lays: seq<Layout>, f: Fault, x: Layout, d: State,
          fs0: List<ForeachFrame>)
    requires Safe(m, lays, x) && Rough(m, x, d, fs0)
    ensures Fits(m, lays, Escape(f, d), fs0)
    decreases d.loops
  {
    hide Iterations, Anchored, Escapes, Has;
    if d.loops.Cons? {
      var l := d.loops.head;
      SameNext(m.exact, d.core.bodies, x.bodies, l.at.bodiesLen);
      if NextAbove(d.core.bodies, l.at.bodiesLen) {
        var c := d.core.(bodies := Truncate(d.core.bodies, l.at.bodiesLen), stack :=
            Truncate(d.core.stack, l.at.stackLen));
        OuterRough(m, lays, x, d, c, fs0);
        EscapeFits(m, lays, f, Outer(m, lays, x), State(c, d.loops.tail), fs0);
      } else {
        UnwoundHas(m, lays, x, d, fs0);
      }
    }
  }

  /** Wherever a fault goes, the layout there is right. */
  lemma RouteFits(m: Mode, lays: seq<Layout>, f: Fault, x: Layout, d: State, fs0: List<ForeachFrame>)
    requires Safe(m, lays, x) && Rough(m, x, d, fs0)
    ensures Fits(m, lays, Route(f, d), fs0)
  {
    hide Iterations, Anchored, Escapes, Has, Safe, Rough, Outer;
    if d.loops.Cons? && (f.Brk? || f.Cnt?) {
      var l := d.loops.head;
      assert Anchored(m, lays, x) by { SafeAnchored(m, lays, x); }
      UnwoundHas(m, lays, x, d, fs0);
      assert SameRegions(m.exact, d.core.bodies, x.bodies) by { RoughRegions(m, x, d, fs0); }
      SameNext(m.exact, d.core.bodies, x.bodies, l.at.bodiesLen);
      if f.Cnt? && NextAbove(d.core.bodies, l.at.bodiesLen) {
        var c := d.core.(bodies := Truncate(d.core.bodies, l.at.bodiesLen), stack :=
            Truncate(d.core.stack, l.at.stackLen));
        assert x.loops.Cons? by { RoughRegions(m, x, d, fs0); }
        OuterRough(m, lays, x, d, c, fs0);
        EscapeFits(m, lays, f, Outer(m, lays, x), State(c, d.loops.tail), fs0);
      }
    }
  }

  lemma SafeAnchored(m: Mode, lays: seq<Layout>, x: Layout)
    requires Safe(m, lays, x)
    ensures Anchored(m, lays, x)
  {
  }

  lemma RoughRegions(m: Mode, x: Layout, d: State, fs0: List<ForeachFrame>)
    requires Rough(m, x, d, fs0)
    ensures SameRegions(m.exact, d.core.bodies, x.bodies) && d.loops == x.loops
  {
  }

  // ── one step ──

  lemma {:induction false} TakeDepth(st: List<Val>, n: nat)
    requires n <= Depth(st)
    ensures Depth(TakeArgs(st, n).1) == Depth(st) - n
  {
    if n > 0 { TakeDepth(st.tail, n - 1); }
  }

  /** A fault raised where regions and iterations are as they were. */
  lemma RaiseFits(m: Mode, lays: seq<Layout>, x: Layout, d: State, c: Core, f: Fault, fs0: List<ForeachFrame>)
    requires Safe(m, lays, x) && Has(m, x, d, fs0) && c.bodies == d.core.bodies && c.foreaches == d.core.foreaches
    requires d.loops.Cons? ==> d.loops.head.at.stackLen <= Depth(c.stack)
    ensures Fits(m, lays, Route(f, State(Settle(c, Innermost(d.loops)), d.loops)), fs0)
  {
    hide Iterations, Safe, Route, SameRegions;
    var c1 := Settle(c, Innermost(d.loops));
    if d.loops.Cons? { TruncateDepth(c.stack, d.loops.head.at.stackLen); }
    RouteFits(m, lays, f, x, State(c1, d.loops), fs0);
  }

  /** An answer pushed, or its fault raised, over `c`. */
  lemma ReplyFits(m: Mode, lays: seq<Layout>, pc: nat, x: Layout, d: State, c: Core, r: Reply, bit: bool,
          fs0: List<ForeachFrame>)
    requires Safe(m, lays, x) && Has(m, x, d, fs0)
    requires c.bodies == d.core.bodies && c.foreaches == d.core.foreaches && c.site == d.core.site
    requires d.loops.Cons? ==> d.loops.head.at.stackLen <= Depth(c.stack)
    requires Leads(m, lays, pc + 1, x.(depth := Depth(c.stack) + 1, bit := bit))
        && (m.bits && bit && r.Ok? ==> IsBit(r.v))
    ensures Fits(m, lays, After(pc, Lift(PushReply(c, r, Innermost(d.loops)), d.loops)), fs0)
  {
    hide Iterations, Safe, Route, SameRegions, Settle, Leads;
    match r {
      case Ok(v) =>
        var d1 := State(Pushed(c, v), d.loops);
        LeadsHas(m, lays, pc + 1, x.(depth := Depth(c.stack) + 1, bit := bit), d1, fs0);
      case Fault(f) => RaiseFits(m, lays, x, d, c, f, fs0);
    }
  }

  lemma AskIsReply(h: Host, c: Core, q: Request, top: Option<Entry>)
    ensures var r := Asked(h, c, q);
      AskPush(h, c, q, top) == PushReply(r.0, r.1, top)
      && r.0.bodies == c.bodies && r.0.foreaches == c.foreaches && r.0.site == c.site && r.0.stack == c.stack
  {
  }

  lemma AskFits(m: Mode, lays: seq<Layout>, pc: nat, x: Layout, d: State, h: Host, c: Core, q: Request,
          fs0: List<ForeachFrame>)
    requires Safe(m, lays, x) && Has(m, x, d, fs0)
    requires c.bodies == d.core.bodies && c.foreaches == d.core.foreaches && c.site == d.core.site
    requires d.loops.Cons? ==> d.loops.head.at.stackLen <= Depth(c.stack)
    requires Leads(m, lays, pc + 1, x.(depth := Depth(c.stack) + 1, bit := false))
    ensures Fits(m, lays, After(pc, Lift(AskPush(h, c, q, Innermost(d.loops)), d.loops)), fs0)
  {
    hide Safe, Has, Leads, Fits, Asked, AskPush, PushReply;
    AskIsReply(h, c, q, Innermost(d.loops));
    var r := Asked(h, c, q);
    ReplyFits(m, lays, pc, x, d, r.0, r.1, false, fs0);
  }

  /** Instructions that answer a question, possibly over operands taken. */
  lemma AskingFits(m: Mode, h: Host, infos: seq<ForeachInfo>, lays: seq<Layout>, base: nat, pc: nat, op: OpCode,
          d: State, fs0: List<ForeachFrame>)
    requires op.Load? || op.Incr? || op.Lappend? || op.EvalScript? || op.EvalExpr? || op.Call?
    requires pc < |lays| && OpFits(m, infos, lays, base, pc, op) && Has(m, LayAt(lays, pc), d, fs0)
    ensures Fits(m, lays, After(pc, Exec(h, infos, op, d)), fs0)
  {
    hide Safe, Fits, AskPush, SameRegions, Iterations, Leads, LoopFits;
    var x, top := lays[pc], Innermost(d.loops);
    assert Safe(m, lays, x) by { FitsSafe(m, infos, lays, base, pc, op); }
    match op {
      case Load(l) => AskFits(m, lays, pc, x, d, h, d.core, Read(l), fs0);
      case Incr(l, k) => AskFits(m, lays, pc, x, d, h, d.core, Bump(l, k), fs0);
      case Lappend(l) => AskFits(m, lays, pc, x, d, h, Popped(d.core), Extend(l, Top(h, d.core)), fs0);
      case EvalScript => AskFits(m, lays, pc, x, d, h, Popped(d.core), RunScript(Top(h, d.core)), fs0);
      case EvalExpr => AskFits(m, lays, pc, x, d, h, Popped(d.core), RunExpr(Top(h, d.core)), fs0);
      case Call(dyn, _, n) =>
        TakeDepth(d.core.stack, n);
        var a := TakeArgs(d.core.stack, n);
        AskFits(m, lays, pc, x, d, h, d.core.(stack := a.1), Invoke(dyn, a.0), fs0);
    }
  }

  lemma FitsSafe(m: Mode, infos: seq<ForeachInfo>, lays: seq<Layout>, base: nat, pc: nat, op: OpCode)
    requires pc < |lays| && OpFits(m, infos, lays, base, pc, op) && !(op.Loop? && (op.l.Break? || op.l.Continue?))
    ensures Safe(m, lays, LayAt(lays, pc))
  {
  }

  /** Operators, and what replaces or drops operands. */
  lemma OperandFits(m: Mode, h: Host, infos: seq<ForeachInfo>, lays: seq<Layout>, base: nat, pc: nat, op: OpCode,
          d: State, fs0: List<ForeachFrame>)
    requires op.Push? || op.Pop? || op.Bin? || op.Un? || op.Concat?
    requires pc < |lays| && OpFits(m, infos, lays, base, pc, op) && Has(m, LayAt(lays, pc), d, fs0)
        && (m.bits ==> NotsAgree(h))
    ensures Fits(m, lays, After(pc, Exec(h, infos, op, d)), fs0)
  {
    hide Safe, SameRegions, Iterations, Leads, LoopFits, ExecFused, Route, Settle, BinVal, UnVal;
    var x, top := lays[pc], Innermost(d.loops);
    assert Safe(m, lays, x) by { FitsSafe(m, infos, lays, base, pc, op); }
    var c := d.core;
    match op {
      case Push(lit) => ReplyFits(m, lays, pc, x, d, c, Ok(LitVal(h, lit)), LitBit(lit), fs0);
      case Pop => LeadsHas(m, lays, pc + 1, x.(depth := x.depth - 1, bit := false), State(Popped(c), d.loops), fs0);
      case Bin(op) =>
        CmpGivesBit(h, op, Top(h, Popped(c)), Top(h, c));
        ReplyFits(m, lays, pc, x, d, Popped(Popped(c)), BinVal(h, op, Top(h, Popped(c)), Top(h, c)), IsCmp(op), fs0);
      case Un(op) =>
        if m.bits && op.Not? { NotGivesBit(h, Top(h, c)); }
        ReplyFits(m, lays, pc, x, d, Popped(c), UnVal(h, op, Top(h, c)), op.Not?, fs0);
      case Concat(n) =>
        TakeDepth(c.stack, n);
        var a := TakeArgs(c.stack, n);
        ReplyFits(m, lays, pc, x, d, c.(stack := a.1), Ok(h.concat(a.0)), false, fs0);
    }
  }

  lemma StoreFits(m: Mode, h: Host, infos: seq<ForeachInfo>, lays: seq<Layout>, base: nat, pc: nat, l: Loc,
          d: State, fs0: List<ForeachFrame>)
    requires pc < |lays| && OpFits(m, infos, lays, base, pc, Store(l)) && Has(m, LayAt(lays, pc), d, fs0)
    ensures Fits(m, lays, After(pc, Exec(h, infos, Store(l), d)), fs0)
  {
    hide Safe, SameRegions, Iterations, Leads, LoopFits, ExecFused, Route, Settle;
    var x := lays[pc];
    assert Safe(m, lays, x) by { FitsSafe(m, infos, lays, base, pc, Store(l)); }
    var r := Asked(h, d.core, Write(l, Top(h, d.core)));
    if r.1.Ok? {
      LeadsHas(m, lays, pc + 1, x.(bit := false), State(r.0, d.loops), fs0);
    } else {
      RaiseFits(m, lays, x, d, r.0, r.1.f, fs0);
    }
  }

  lemma CmpGivesBit(h: Host, op: BinOp, a: Val, b: Val)
    ensures IsCmp(op) ==> BinVal(h, op, a, b).Ok? && IsBit(BinVal(h, op, a, b).v)
  {
  }

  lemma NotGivesBit(h: Host, v: Val)
    requires NotsAgree(h)
    ensures UnVal(h, Not, v).Ok? ==> IsBit(UnVal(h, Not, v).v)
  {
  }

  /** Regions, sites and branches. */
  lemma RegionFits(m: Mode, h: Host, infos: seq<ForeachInfo>, lays: seq<Layout>, base: nat, pc: nat, op: OpCode,
          d: State, fs0: List<ForeachFrame>)
    requires op.BeginCmd? || op.Mark? || op.SubEnd? || op.Jump? || op.JumpIf?
    requires pc < |lays| && OpFits(m, infos, lays, base, pc, op) && Has(m, LayAt(lays, pc), d, fs0)
    ensures Fits(m, lays, After(pc, Exec(h, infos, op, d)), fs0)
  {
    hide Safe, AtLeast, Exactly, Leads, LoopFits, ExecFused, Route, Settle, Truth;
    var x, c := lays[pc], d.core;
    assert Safe(m, lays, x) by { FitsSafe(m, infos, lays, base, pc, op); }
    SameDepth(m.exact, c.bodies, x.bodies);
    match op {
      case BeginCmd(s) =>
        var r := Asked(h, c, Begin(s));
        if r.1.Ok? { LeadsHas(m, lays, pc + 1, x.(site := s, bit := false), State(r.0.(site := s), d.loops), fs0); }
        else { RaiseFits(m, lays, x, d, r.0, r.1.f, fs0); }
      case Mark(k) =>
        assert Has(m, Open(x, RegionFor(k, x)), State(Marked(c, k), d.loops), fs0) by { MarkedHas(m, x, d, k, fs0); }
        LeadsHas(m, lays, pc + 1, Open(x, RegionFor(k, x)), State(Marked(c, k), d.loops), fs0);
      case SubEnd => LeadsHas(m, lays, pc + 1, Close(x), State(Closed(c), d.loops), fs0);
      case Jump(t) => LeadsHas(m, lays, t, Close(x), State(Closed(c), d.loops), fs0);
      case JumpIf(want, t) => BranchFits(m, h, infos, lays, base, pc, want, t, d, fs0);
    }
  }

  lemma MarkedHas(m: Mode, x: Layout, d: State, k: MarkOp, fs0: List<ForeachFrame>)
    requires Has(m, x, d, fs0) && (k.BodyMarkFramed? ==> x.frames.Cons?)
    ensures Has(m, Open(x, RegionFor(k, x)), State(Marked(d.core, k), d.loops), fs0)
  {
    hide AtLeast;
  }

  lemma BranchFits(m: Mode, h: Host, infos: seq<ForeachInfo>, lays: seq<Layout>, base: nat, pc: nat, want: bool,
          t: nat, d: State, fs0: List<ForeachFrame>)
    requires pc < |lays| && OpFits(m, infos, lays, base, pc, JumpIf(want, t)) && Has(m, LayAt(lays, pc), d, fs0)
    ensures Fits(m, lays, After(pc, Exec(h, infos, JumpIf(want, t), d)), fs0)
  {
    hide Safe, AtLeast, Exactly, Leads, LoopFits, ExecFused, Route, Settle, Truth;
    var x, c := lays[pc], Popped(d.core);
    var less := x.(depth := x.depth - 1, bit := false);
    assert Safe(m, lays, x) by { FitsSafe(m, infos, lays, base, pc, JumpIf(want, t)); }
    match Truth(h, Top(h, d.core)) {
      case Objects(f) => RaiseFits(m, lays, x, d, c, f, fs0);
      case Says(b) =>
        if b == want {
          LeadsHas(m, lays, t, less, State(c, d.loops), fs0);
        } else {
          LeadsHas(m, lays, pc + 1, Open(less, Body(x.site)), State(Opened(c, Body(c.site)), d.loops), fs0);
        }
    }
  }

  lemma EndingFits(m: Mode, h: Host, infos: seq<ForeachInfo>, lays: seq<Layout>, pc: nat, op: OpCode, d: State,
          fs0: List<ForeachFrame>)
    requires op.Return? || op.Exit?
    ensures Fits(m, lays, After(pc, Exec(h, infos, op, d)), fs0)
  {
    hide Settle, Has;
  }

  lemma PlainStep(m: Mode, h: Host, infos: seq<ForeachInfo>, lays: seq<Layout>, base: nat, pc: nat, op: OpCode,
          d: State, fs0: List<ForeachFrame>)
    requires pc < |lays| && OpFits(m, infos, lays, base, pc, op) && !op.Loop? && Has(m, LayAt(lays, pc), d, fs0)
        && (m.bits ==> NotsAgree(h))
    ensures Fits(m, lays, After(pc, Exec(h, infos, op, d)), fs0)
  {
    hide Exec, Fits, Has, Anchored, Escapes, Leads, NotsAgree;
    if op.Load? || op.Incr? || op.Lappend? || op.EvalScript? || op.EvalExpr? || op.Call? {
      AskingFits(m, h, infos, lays, base, pc, op, d, fs0);
    } else if op.Push? || op.Pop? || op.Bin? || op.Un? || op.Concat? {
      OperandFits(m, h, infos, lays, base, pc, op, d, fs0);
    } else if op.Store? {
      StoreFits(m, h, infos, lays, base, pc, op.x, d, fs0);
    } else if op.Return? || op.Exit? {
      EndingFits(m, h, infos, lays, pc, op, d, fs0);
    } else {
      RegionFits(m, h, infos, lays, base, pc, op, d, fs0);
    }
  }

  // ── loop control ──

  lemma LoopStep(m: Mode, h: Host, infos: seq<ForeachInfo>, lays: seq<Layout>, base: nat, pc: nat, l: LoopOp, d: State,
          fs0: List<ForeachFrame>)
    requires pc < |lays| && OpFits(m, infos, lays, base, pc, Loop(l)) && Has(m, LayAt(lays, pc), d, fs0)
    ensures Fits(m, lays, After(pc, Exec(h, infos, Loop(l), d)), fs0)
  {
    hide Exec, Fits, Has, Anchored, Escapes, Leads;
    match l {
      case ForeachStart(i, n, e) => StartFits(m, h, infos, lays, base, pc, i, n, e, d, fs0);
      case ForeachNext(i, b) => AdvanceFits(m, h, infos, lays, base, pc, i, b, d, fs0);
      case ForeachCollect => IterationFits(m, h, infos, lays, base, pc, l, d, fs0);
      case ForeachEnd => IterationFits(m, h, infos, lays, base, pc, l, d, fs0);
      case _ => WayFits(m, h, infos, lays, base, pc, l, d, fs0);
    }
  }

  /** Into a loop, and out of it. */
  lemma WayFits(m: Mode, h: Host, infos: seq<ForeachInfo>, lays: seq<Layout>, base: nat, pc: nat, l: LoopOp, d: State,
          fs0: List<ForeachFrame>)
    requires l.LoopEnter? || l.LoopExit? || l.Break? || l.Continue?
    requires pc < |lays| && OpFits(m, infos, lays, base, pc, Loop(l)) && Has(m, LayAt(lays, pc), d, fs0)
    ensures Fits(m, lays, After(pc, Exec(h, infos, Loop(l), d)), fs0)
  {
    hide AtLeast, Exactly, Leads, Anchored, ExecCore;
    var x := lays[pc];
    SameDepth(m.exact, d.core.bodies, x.bodies);
    match l {
      case LoopEnter(c, b) =>
        LeadsHas(m, lays, pc + 1, Enter(x, c, b), d.(loops := Cons(LoopFrame(c, b, EntryNow(d.core)), d.loops)), fs0);
      case LoopExit =>
        var loops := if d.loops.Nil? then Nil else d.loops.tail;
        LeadsHas(m, lays, pc + 1, x.(bit := false, loops := loops), d.(loops := loops), fs0);
      case _ =>
        if d.loops.Cons? {
          InnerAnchor(m, lays, x);
          UnwoundHas(m, lays, x, d, fs0);
        }
    }
  }

  lemma StartFits(m: Mode, h: Host, infos: seq<ForeachInfo>, lays: seq<Layout>, base: nat, pc: nat, i: nat, n: nat,
          e: nat, d: State, fs0: List<ForeachFrame>)
    requires pc < |lays| && OpFits(m, infos, lays, base, pc, Loop(ForeachStart(i, n, e)))
        && Has(m, LayAt(lays, pc), d, fs0)
    ensures Fits(m, lays, After(pc, Exec(h, infos, Loop(ForeachStart(i, n, e)), d)), fs0)
  {
    hide Safe, Leads, ExecCore, Route, Settle, SameRegions;
    var x, fi := lays[pc], infos[i];
    assert Safe(m, lays, x) by { FitsSafe(m, infos, lays, base, pc, Loop(ForeachStart(i, n, e))); }
    SameDepth(m.exact, d.core.bodies, x.bodies);
    TakeDepth(d.core.stack, fi.groups);
    var a := TakeArgs(d.core.stack, fi.groups);
    var r := Asked(h, d.core.(stack := a.1), OpenLists(i, a.0));
    if r.1.Fault? {
      RaiseFits(m, lays, x, d, r.0, r.1.f, fs0);
    } else {
      var y := Enter(x.(depth := x.depth - fi.groups, frames := Cons(fi, x.frames)), n, e);
      var ff := ForeachFrame(a.0, 0, h.iters(i, a.0), if fi.lmap then Some([]) else None, fi.framed, fi.lmap);
      var c := r.0.(foreaches := Cons(ff, r.0.foreaches));
      var d1 := State(c, Cons(LoopFrame(n, e, EntryNow(c)), d.loops));
      assert Has(m, y, d1, fs0) by { MoreFrames(m, d.core.foreaches, fs0, x.frames, ff, fi); }
      LeadsHas(m, lays, e, y, d1, fs0);
      if h.iters(i, a.0) != 0 {
        var b := Asked(h, c, Bind(i, a.0, 0));
        assert Has(m, y, State(b.0, d1.loops), fs0) by { SameButWorld(m, y, d1, b.0.w, fs0); }
        LeadsHas(m, lays, pc + 1, y, State(b.0, d1.loops), fs0);
        if b.1.Fault? { RaiseFits(m, lays, y, d1, b.0, b.1.f, fs0); }
      }
    }
  }

  lemma SameButWorld(m: Mode, x: Layout, d: State, w: World, fs0: List<ForeachFrame>)
    requires Has(m, x, d, fs0)
    ensures Has(m, x, State(d.core.(w := w), d.loops), fs0)
  {
  }

  lemma MoreFrames(m: Mode, fs: List<ForeachFrame>, fs0: List<ForeachFrame>, frames: List<ForeachInfo>,
          ff: ForeachFrame, fi: ForeachInfo)
    requires Iterations(m, fs, fs0, frames) && Like(ff, fi) && (m.framed.Some? ==> fi.framed == m.framed.value)
    ensures Iterations(m, Cons(ff, fs), fs0, Cons(fi, frames))
  {
  }

  /** The innermost iteration, moved on. */
  lemma SameFrames(m: Mode, fs: List<ForeachFrame>, fs0: List<ForeachFrame>, frames: List<ForeachInfo>,
          ff: ForeachFrame)
    requires Iterations(m, fs, fs0, frames) && frames.Cons?
    ensures fs.Cons?
    ensures ff.framed == fs.head.framed && ff.lmap == fs.head.lmap ==> Iterations(m, Cons(ff, fs.tail), fs0, frames)
  {
  }

  lemma FewerFrames(m: Mode, fs: List<ForeachFrame>, fs0: List<ForeachFrame>, frames: List<ForeachInfo>)
    requires Iterations(m, fs, fs0, frames) && frames.Cons?
    ensures fs.Cons? && Iterations(m, fs.tail, fs0, frames.tail)
  {
  }

  lemma AdvanceFits(m: Mode, h: Host, infos: seq<ForeachInfo>, lays: seq<Layout>, base: nat, pc: nat, i: nat, b: nat,
          d: State, fs0: List<ForeachFrame>)
    requires pc < |lays| && OpFits(m, infos, lays, base, pc, Loop(ForeachNext(i, b))) && Has(m, LayAt(lays, pc), d, fs0)
    ensures Fits(m, lays, After(pc, Exec(h, infos, Loop(ForeachNext(i, b)), d)), fs0)
  {
    hide Safe, Leads, Iterations, Route, Settle, SameRegions, ExecFused;
    var x, c := lays[pc].(bit := false), d.core;
    assert Safe(m, lays, lays[pc]) by { FitsSafe(m, infos, lays, base, pc, Loop(ForeachNext(i, b))); }
    FewerFrames(m, c.foreaches, fs0, x.frames);
    var ff := c.foreaches.head;
    SameFrames(m, c.foreaches, fs0, x.frames, ff.(idx := ff.idx + 1));
    LeadsHas(m, lays, pc + 1, x, d, fs0);
    if ff.idx + 1 < ff.iters {
      var c1 := c.(foreaches := Cons(ff.(idx := ff.idx + 1), c.foreaches.tail));
      var r := Asked(h, c1, Bind(i, ff.lists, ff.idx + 1));
      LeadsHas(m, lays, b, x, State(r.0, d.loops), fs0);
      if r.1.Fault? { RaiseFits(m, lays, lays[pc], State(c1, d.loops).(core := c1.(w := r.0.w)), r.0, r.1.f, fs0); }
    }
  }

  lemma IterationFits(m: Mode, h: Host, infos: seq<ForeachInfo>, lays: seq<Layout>, base: nat, pc: nat, l: LoopOp,
          d: State, fs0: List<ForeachFrame>)
    requires l.ForeachCollect? || l.ForeachEnd?
    requires pc < |lays| && OpFits(m, infos, lays, base, pc, Loop(l)) && Has(m, LayAt(lays, pc), d, fs0)
    ensures Fits(m, lays, After(pc, Exec(h, infos, Loop(l), d)), fs0)
  {
    hide Safe, Leads, Iterations, SameRegions, ExecFused;
    var x := lays[pc].(bit := false);
    if l.ForeachEnd? {
      FewerFrames(m, d.core.foreaches, fs0, x.frames);
      LeadsHas(m, lays, pc + 1, x.(depth := x.depth + 1, loops := x.loops.tail, frames := x.frames.tail),
          ExecForeachEnd(h, d), fs0);
    } else {
      assert Iterations(m, Collect(h, d.core).foreaches, fs0, x.frames)
          by { CollectKeeps(m, h, d.core, fs0, x.frames); }
      LeadsHas(m, lays, pc + 1, x.(depth := x.depth - 1), State(Collect(h, d.core), d.loops), fs0);
    }
  }

  lemma CollectKeeps(m: Mode, h: Host, c: Core, fs0: List<ForeachFrame>, frames: List<ForeachInfo>)
    requires Iterations(m, c.foreaches, fs0, frames) && frames.Cons?
    ensures Iterations(m, Collect(h, c).foreaches, fs0, frames)
  {
    hide Iterations;
    FewerFrames(m, c.foreaches, fs0, frames);
    var ff := c.foreaches.head;
    if ff.collected.Some? {
      SameFrames(m, c.foreaches, fs0, frames, ff.(collected := Some(ff.collected.value + [Top(h, c)])));
    }
  }

  // ── whole runs ──

  lemma StepFits(m: Mode, h: Host, u: Code, lays: seq<Layout>, base: nat, s: Run, fs0: List<ForeachFrame>)
    requires Accounted(m, u, lays, base) && Fits(m, lays, s, fs0) && (m.bits ==> NotsAgree(h))
    ensures Fits(m, lays, Step(h, u, s), fs0)
  {
    hide Exec, OpFits, RoleFits, Has, NotsAgree;
    if s.Running? && s.pc < |u.ops| {
      assert OpFits(m, u.infos, lays, base, s.pc, u.ops[s.pc]);
      if u.ops[s.pc].Loop? { LoopStep(m, h, u.infos, lays, base, s.pc, u.ops[s.pc].l, s.d, fs0); }
      else { PlainStep(m, h, u.infos, lays, base, s.pc, u.ops[s.pc], s.d, fs0); }
    }
  }

  lemma {:induction false} StepsFit(m: Mode, h: Host, u: Code, lays: seq<Layout>, base: nat, s: Run,
          fs0: List<ForeachFrame>, n: nat)
    requires Accounted(m, u, lays, base) && Fits(m, lays, s, fs0) && (m.bits ==> NotsAgree(h))
    ensures Fits(m, lays, Steps(h, u, s, n), fs0)
    decreases n
  {
    hide Step, Fits, NotsAgree, Accounted;
    if n > 0 {
      StepFits(m, h, u, lays, base, s, fs0);
      StepsFit(m, h, u, lays, base, Step(h, u, s), fs0, n - 1);
    }
  }

  /** Every state a run reaches has the layout of its place. */
  lemma ReachedFits(m: Mode, h: Host, u: Code, lays: seq<Layout>, base: nat, s: Run, t: Run, fs0: List<ForeachFrame>)
    requires Accounted(m, u, lays, base) && Fits(m, lays, s, fs0) && (m.bits ==> NotsAgree(h)) && Reaches(h, u, s, t)
    ensures Fits(m, lays, t, fs0)
  {
    hide Fits, NotsAgree, Accounted, Steps;
    var n: nat :| Steps(h, u, s, n) == t;
    StepsFit(m, h, u, lays, base, s, fs0, n);
  }
}

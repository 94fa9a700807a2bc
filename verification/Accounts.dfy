/** The account of compiled code: the layout in front of every instruction, and
    that the code agrees with it. */
module Accounts {
  import opened Opcodes
  import opened Machine
  import opened Syntax
  import opened Codegen
  import opened Places
  import opened Fitting
  import opened Layouts

  // ── layouts along the code ──

  /** One more operand. */
  function Push1(x: Layout): Layout { x.(depth := x.depth + 1, bit := false) }

  function ExprOut(e: Syntax.Expr, x: Layout): Layout { x.(depth := x.depth + 1, bit := BitExpr(e)) }

  function TestOut(t: Test, x: Layout): Layout { match t case Inline(e) => ExprOut(e, x) case Late(_) => Push1(x) }

  /** The site of the last command, if any. */
  function LastSite(s: Script, site: int): int { if s.Done? then site else LastSite(s.rest, s.cmd.site) }

  function ScriptOut(s: Script, x: Layout): Layout { Push1(x).(site := LastSite(s, x.site)) }

  function ScriptLays(s: Script, at: int, next: bool, x: Layout): (r: seq<Layout>)
    ensures |r| == |ScriptCode(s, at, next)| && r[0] == x
    decreases s, 1
  {
    if s.Done? then [x] else CmdsLays(s, at, next, x)
  }

  function CmdsLays(s: Script, at: int, next: bool, x: Layout): (r: seq<Layout>)
    ensures |r| == |CmdsCode(s, at, next)| && (s.Then? ==> r[0] == x)
    decreases s, 0
  {
    match s
    case Done => []
    case Then(cmd, rest) =>
      var first, y := CmdLays(cmd, at, next, x), x.(site := cmd.site);
      if rest.Done? then first else first + [Push1(y)] + CmdsLays(rest, at + |first| + 1, next, y)
  }

  function CmdLays(c: Cmd, at: int, next: bool, x: Layout): (r: seq<Layout>)
    ensures |r| == |CmdCode(c, at, next)| && r[0] == x
    decreases c, 1
  {
    [x] + FormLays(c.form, at + 1, next, x.(site := c.site))
  }

  /** A script in a region of its own. */
  function InRegion(ls: seq<Layout>, s: Script, x: Layout, y: Layout): seq<Layout> { [x] + ls + [ScriptOut(s, y)] }

  function WordLays(w: Word, at: int, next: bool, x: Layout): (r: seq<Layout>)
    ensures |r| == |WordCode(w, at, next)|
    decreases w, 0
  {
    match w
    case Text(_) => [x]
    case Var(_) => [x]
    case Eval(_) => [x, Push1(x)]
    case Sugar(_) => [x, Push1(x)]
    case Cat(parts) => WordsLays(parts, at, next, x) + [Over(x, Count(parts))]
    case Bracket(s) =>
      var y := Open(x, Region.Sub(x.site));
      InRegion(ScriptLays(s, at + 1, next, y), s, x, y)
  }

  function WordsLays(ws: Words, at: int, next: bool, x: Layout): (r: seq<Layout>)
    ensures |r| == |WordsCode(ws, at, next)|
    decreases ws, 0
  {
    if ws.NoWords? then []
    else
      var first := WordLays(ws.w, at, next, x);
      first + WordsLays(ws.rest, at + |first|, next, Push1(x))
  }

  function ExprLays(e: Syntax.Expr, at: int, next: bool, x: Layout): (r: seq<Layout>)
    ensures |r| == |ExprCode(e, at, next)|
    decreases e, 0
  {
    match e
    case Leaf(_) => [x]
    case Read(_) => [x]
    case Inner(s) =>
      var y := Open(x, Region.Expr(x.site));
      InRegion(ScriptLays(s, at + 1, next, y), s, x, y)
    case Binary(_, l, r) =>
      var a := ExprLays(l, at, next, x);
      a + ExprLays(r, at + |a|, next, Push1(x)) + [ExprOut(r, Push1(x))]
    case Unary(_, y) => ExprLays(y, at, next, x) + [ExprOut(y, x)]
  }

  function TestLays(t: Test, at: int, next: bool, x: Layout): (r: seq<Layout>)
    ensures |r| == |TestCode(t, at, next)|
    decreases t, 0
  {
    match t
    case Inline(e) => ExprLays(e, at, next, x)
    case Late(w) => WordLays(w, at, next, x) + [Push1(x)]
  }

  function InBody(x: Layout): Layout { Open(x, Body(x.site)) }

  /** A test, its branch, a body in a region, and the jump behind it. */
  function ArmLays(t: Test, test: seq<Layout>, s: Script, body: seq<Layout>, x: Layout): (r: seq<Layout>)
    ensures |r| == |test| + |body| + 2
  {
    test + [TestOut(t, x)] + body + [ScriptOut(s, InBody(x))]
  }

  function ArmsLays(a: Arms, at: int, next: bool, x: Layout): seq<Layout>
    decreases a, 0
  {
    match a
    case NoElse => [x]
    case Else(body) => InRegion(ScriptLays(body, at + 1, next, InBody(x)), body, x, InBody(x))
    case Arm(t, body, rest) =>
      var test := TestLays(t, at, next, x);
      var b := ScriptLays(body, at + |test| + 1, next, InBody(x));
      ArmLays(t, test, body, b, x) + ArmsLays(rest, at + |test| + |b| + 2, next, x)
  }

  lemma {:induction false} ArmsCount(a: Arms, at: int, next: bool, x: Layout)
    ensures |ArmsLays(a, at, next, x)| == |ArmsCode(a, at, next)|
    decreases a
  {
    hide ScriptLays, ScriptCode, TestLays, TestCode, ArmLays, ArmCode, ScriptOut, TestOut;
    if a.Arm? {
      var test := TestLays(a.test, at, next, x);
      ArmsCount(a.rest, at + |test| + |ScriptLays(a.body, at + |test| + 1, next, InBody(x))| + 2, next, x);
    }
  }

  /** From the loop's entry to the jump behind its body. */
  function HeadLays(t: Test, test: seq<Layout>, s: Script, body: seq<Layout>, x: Layout, p: Layout): seq<Layout> {
    [x] + test + [TestOut(t, p)] + body + [ScriptOut(s, InBody(p)), InBody(p).(site := LastSite(s, p.site))]
  }

  function TailLays(x: Layout, p: Layout): seq<Layout> { [p, x] }

  /** At the start of a pass. */
  function WhilePass(t: Test, s: Script, at: int, x: Layout): Layout {
    var test := TestCode(t, at + 1, false);
    Enter(x, at + 1, at + |test| + |ScriptCode(s, at + |test| + 2, false)| + 4)
  }

  function WhileLays(t: Test, s: Script, at: int, x: Layout): (r: seq<Layout>)
    ensures |r| == |FormCode(While(t, s), at, false)| == |FormCode(While(t, s), at, true)|
    decreases While(t, s), 0
  {
    hide TestCode, ScriptCode;
    var p := WhilePass(t, s, at, x);
    var test := TestLays(t, at + 1, false, p);
    var body := ScriptLays(s, at + |test| + 2, false, InBody(p));
    HeadLays(t, test, s, body, x, p) + TailLays(x, p)
  }

  /** From the loop's entry on, at `enter`; `n` is the next script. */
  function ForPass(t: Test, n: Script, s: Script, enter: int, x: Layout): Layout {
    var test := TestCode(t, enter + 1, false);
    var b := ScriptCode(s, enter + |test| + 2, false);
    var tail := enter + |test| + |b| + 4;
    Enter(x, tail, tail + |ScriptCode(n, tail + 1, true)| + 3)
  }

  function LoopCode(t: Test, n: Script, s: Script, enter: int): seq<OpCode> {
    var test := TestCode(t, enter + 1, false);
    var b := ScriptCode(s, enter + |test| + 2, false);
    ForCode(test, b, ScriptCode(n, enter + |test| + |b| + 5, true), enter)
  }

  function InNext(p: Layout): Layout { Open(p, Next(p.site)) }

  function NextLays(s: Script, ls: seq<Layout>, p: Layout): seq<Layout> {
    [p] + ls + [ScriptOut(s, InNext(p)), InNext(p).(site := LastSite(s, p.site))]
  }

  /** The loop of `For(start, t, n, s)`. */
  function LoopLays(start: Script, t: Test, n: Script, s: Script, enter: int, x: Layout): (r: seq<Layout>)
    ensures |r| == |LoopCode(t, n, s, enter)|
    decreases For(start, t, n, s), 0
  {
    hide TestCode, ScriptCode;
    var p := ForPass(t, n, s, enter, x);
    var test := TestLays(t, enter + 1, false, p);
    var body := ScriptLays(s, enter + |test| + 2, false, InBody(p));
    var next := ScriptLays(n, enter + |test| + |body| + 5, true, InNext(p));
    HeadLays(t, test, s, body, x, p) + NextLays(n, next, p) + TailLays(x, p)
  }

  function EachPass(shape: ForeachInfo, s: Script, at: int, next: bool, x: Layout): Layout {
    var tail := at + |ScriptCode(s, at + 2, next)| + 4;
    Enter(x.(frames := Cons(shape, x.frames)), tail, tail + 1)
  }

  function InPass(shape: ForeachInfo, p: Layout): Layout {
    Open(p, RegionFor(if shape.framed then BodyMarkFramed else BodyMark, p))
  }

  /** From the start of the iteration on; `x` is without the `lists` lists. */
  function EachLays(lists: nat, shape: ForeachInfo, s: Script, at: int, next: bool, x: Layout): (r: seq<Layout>)
    ensures |r| == |ScriptCode(s, at + 2, next)| + 6
    decreases s, 2
  {
    var p := EachPass(shape, s, at, next, x);
    var q := InPass(shape, p);
    [Over(x, lists), p] + ScriptLays(s, at + 2, next, q)
    + [ScriptOut(s, q), q.(site := LastSite(s, p.site)), p, p]
  }

  function IfLays(t: Test, s: Script, a: Arms, at: int, next: bool, x: Layout): (r: seq<Layout>)
    ensures |r| == |FormCode(If(t, s, a), at, next)|
    decreases If(t, s, a), 0
  {
    hide TestCode, ScriptCode, ArmsCode, ArmCode, TestLays, ScriptLays, ArmsLays, InBody, ArmLays;
    var test := TestLays(t, at, next, x);
    var b := ScriptLays(s, at + |test| + 1, next, InBody(x));
    ArmsCount(a, at + |test| + |b| + 2, next, x);
    ArmLays(t, test, s, b, x) + ArmsLays(a, at + |test| + |b| + 2, next, x)
  }

  function StartRegion(x: Layout): Layout { Open(x, Region.Expr(x.site)) }

  function ForLays(start: Script, t: Test, n: Script, s: Script, at: int, x: Layout): (r: seq<Layout>)
    ensures |r| == |FormCode(For(start, t, n, s), at, false)| == |FormCode(For(start, t, n, s), at, true)|
    decreases For(start, t, n, s), 1
  {
    hide TestCode, ScriptCode, ForCode;
    var ls := ScriptLays(start, at + 1, false, StartRegion(x));
    InRegion(ls, start, x, StartRegion(x)) + [Push1(x)] + LoopLays(start, t, n, s, at + |ls| + 3, x)
  }

  function ForeachLays(info: nat, shape: ForeachInfo, data: Words, s: Script, at: int, next: bool, x: Layout):
    (r: seq<Layout>)
    ensures |r| == |FormCode(Foreach(info, shape, data, s), at, next)|
    decreases Foreach(info, shape, data, s), 1
  {
    hide WordsCode, ScriptCode;
    var d := WordsLays(data, at, next, x);
    d + EachLays(Count(data), shape, s, at + |d|, next, x)
  }

  /** Out of the innermost loop, if there is one. */
  function OneLess(x: Layout): Layout { x.(loops := if x.loops.Nil? then Nil else x.loops.tail) }

  /** Forms with scripts inside. */
  predicate Nests(f: Form) { f.If? || f.While? || f.For? || f.Foreach? }

  /** The others. */
  function FlatLays(f: Form, at: int, next: bool, x: Layout): (r: seq<Layout>)
    ensures !Nests(f) ==> |r| == |FormCode(f, at, next)|
    decreases f, 1
  {
    match f
    case Set(_, w) => WordLays(w, at, next, x) + [Push1(x)]
    case Extend(_, w) => WordLays(w, at, next, x) + [Push1(x)]
    case Calc(t) => TestLays(t, at, next, x)
    case Again => if next then [x, OneLess(x)] else [x]
    case Give(w) => WordLays(w, at, next, x) + [Push1(x)]
    case Run(_, _, ws) => WordsLays(ws, at, next, x) + [Over(x, Count(ws))]
    case _ => [x]
  }

  function FormLays(f: Form, at: int, next: bool, x: Layout): (r: seq<Layout>)
    ensures |r| == |FormCode(f, at, next)|
    decreases f, 2
  {
    hide FormCode;
    match f
    case If(t, s, a) => IfLays(t, s, a, at, next, x)
    case While(t, s) => WhileLays(t, s, at, x)
    case For(start, t, n, s) => ForLays(start, t, n, s, at, x)
    case Foreach(info, shape, data, s) => ForeachLays(info, shape, data, s, at, next, x)
    case _ => FlatLays(f, at, next, x)
  }

  // ── every piece starts where it is told to ──

  predicate Begins(ls: seq<Layout>, x: Layout) { ls != [] && ls[0] == x }

  lemma {:induction false} WordHead(w: Word, at: int, next: bool, x: Layout)
    ensures Begins(WordLays(w, at, next, x), x)
    decreases w
  {
    if w.Cat? { WordsHead(w.parts, at, next, x); }
  }

  lemma {:induction false} WordsHead(ws: Words, at: int, next: bool, x: Layout)
    ensures var r := WordsLays(ws, at, next, x); if ws.More? then Begins(r, x) else r == [] && Count(ws) == 0
    decreases ws
  {
    if ws.More? { WordHead(ws.w, at, next, x); }
  }

  lemma {:induction false} ExprHead(e: Syntax.Expr, at: int, next: bool, x: Layout)
    ensures Begins(ExprLays(e, at, next, x), x)
    decreases e
  {
    match e
    case Binary(_, l, _) => ExprHead(l, at, next, x);
    case Unary(_, y) => ExprHead(y, at, next, x);
    case _ =>
  }

  lemma TestHead(t: Test, at: int, next: bool, x: Layout)
    ensures Begins(TestLays(t, at, next, x), x)
  {
    match t
    case Inline(e) => ExprHead(e, at, next, x);
    case Late(w) => WordHead(w, at, next, x);
  }

  lemma ArmsHead(a: Arms, at: int, next: bool, x: Layout)
    ensures Begins(ArmsLays(a, at, next, x), x)
  {
    if a.Arm? { TestHead(a.test, at, next, x); }
  }

  lemma FormHead(f: Form, at: int, next: bool, x: Layout)
    ensures Begins(FormLays(f, at, next, x), x)
  {
    hide FormCode, IfLays, WhileLays, ForLays, ForeachLays, FlatLays;
    match f
    case If(t, s, a) => IfHead(t, s, a, at, next, x);
    case While(t, s) => WhileHead(t, s, at, x);
    case For(start, t, n, s) => ForHead(start, t, n, s, at, x);
    case Foreach(info, shape, data, s) => ForeachHead(info, shape, data, s, at, next, x);
    case _ => FlatHead(f, at, next, x);
  }

  lemma FlatHead(f: Form, at: int, next: bool, x: Layout)
    requires !Nests(f)
    ensures Begins(FlatLays(f, at, next, x), x)
  {
    hide TestCode, WordCode, WordsCode, FormCode, Count;
    match f
    case Set(_, w) => WordHead(w, at, next, x);
    case Extend(_, w) => WordHead(w, at, next, x);
    case Give(w) => WordHead(w, at, next, x);
    case Calc(t) => TestHead(t, at, next, x);
    case Run(_, _, ws) => WordsHead(ws, at, next, x);
    case _ =>
  }

  lemma IfHead(t: Test, s: Script, a: Arms, at: int, next: bool, x: Layout)
    ensures Begins(IfLays(t, s, a, at, next, x), x)
  {
    hide ScriptLays, ScriptCode, ArmsCode, ArmsLays, TestCode, FormCode;
    TestHead(t, at, next, x);
  }

  lemma WhileHead(t: Test, s: Script, at: int, x: Layout)
    ensures Begins(WhileLays(t, s, at, x), x)
  {
    hide ScriptLays, ScriptCode, TestLays, TestCode, FormCode;
  }

  lemma ForHead(start: Script, t: Test, n: Script, s: Script, at: int, x: Layout)
    ensures Begins(ForLays(start, t, n, s, at, x), x)
  {
    hide ScriptLays, ScriptCode, TestLays, TestCode, FormCode, LoopLays;
  }

  lemma ForeachHead(info: nat, shape: ForeachInfo, data: Words, s: Script, at: int, next: bool, x: Layout)
    ensures Begins(ForeachLays(info, shape, data, s, at, next, x), x)
  {
    hide ScriptLays, ScriptCode, WordsCode, FormCode;
    WordsHead(data, at, next, x);
    assert EachLays(Count(data), shape, s, at, next, x)[0] == Over(x, Count(data));
  }
}

/** A `continue` compiled for the wrong loop: a `foreach` in the next script of
    a `for`, whose body continues.  The script has a value, its unit runs on. */
module Misaimed {
  import opened Options
  import opened Opcodes
  import opened Machine
  import opened Syntax
  import opened Codegen
  import opened Evaluate
  import opened Discipline
  import opened Fitting
  import opened Instructions
  import opened Walks
  import opened Programs

  /** `foreach v l {continue}`, `v l` being shape 0. */
  function Skipping(lit: Lit): Form {
    Foreach(0, ForeachInfo(1, false, false), More(Text(lit), NoWords), Then(Cmd(3, Again), Done))
  }

  /** `for {} {1 == 1} {foreach v l {continue}; break} {}` */
  function Looping(lit: Lit): Form {
    For(Done, Inline(Syntax.Binary(Eq, Leaf(Int(1)), Leaf(Int(1)))),
        Then(Cmd(1, Skipping(lit)), Then(Cmd(2, Leave), Done)), Done)
  }

  function Whole(lit: Lit): Script { Then(Cmd(0, Looping(lit)), Done) }

  /** A host that answers every question, and gives every list a pass. */
  ghost predicate Answering(h: Host) {
    (forall w, q :: h.ask(w, q).1.Ok?) && (forall i, ls :: h.iters(i, ls) >= 1)
  }

  // ── its code ──

  function SkippingCode(lit: Lit): seq<OpCode> {
    [Push(lit), Loop(ForeachStart(0, 23, 24)), Mark(BodyMark), BeginCmd(3), Loop(LoopExit), Loop(LoopOp.Continue),
     Pop, Jump(23), Loop(ForeachNext(0, 17)), Loop(ForeachEnd)]
  }

  function HeadCode(): seq<OpCode> {
    [BeginCmd(0), Mark(ExprMark), Push(Empty), SubEnd, Pop, Loop(LoopEnter(13, 30)), Push(Int(1)), Push(Int(1)),
        Bin(Eq),
     JumpIf(false, 30), Push(Empty), Pop, Jump(13)]
  }

  function Expected(lit: Lit): seq<OpCode> {
    HeadCode() + ([Mark(NextMark), BeginCmd(1)] + SkippingCode(lit)
        + [Pop, BeginCmd(2), Loop(LoopOp.Break), Pop, Jump(6)])
    + [Loop(LoopExit), Push(Empty)]
  }

  lemma SkippingIs(lit: Lit)
    ensures FormCode(Skipping(lit), 15, true) == SkippingCode(lit)
  {
    hide ScriptCode, WordsCode;
    var body := Then(Cmd(3, Again), Done);
    AgainIs(body);
    WordsIs(lit);
    var each := EachCode(0, ForeachInfo(1, false, false), [BeginCmd(3), Loop(LoopExit), Loop(LoopOp.Continue)], 16);
    assert [Push(lit)] + each == SkippingCode(lit);
  }

  lemma AgainIs(body: Script)
    requires body == Then(Cmd(3, Again), Done)
    ensures ScriptCode(body, 18, true) == [BeginCmd(3), Loop(LoopExit), Loop(LoopOp.Continue)]
  {
    assert FormCode(Again, 19, true) == [Loop(LoopExit), Loop(LoopOp.Continue)];
    assert CmdCode(Cmd(3, Again), 18, true) == [BeginCmd(3), Loop(LoopExit), Loop(LoopOp.Continue)];
  }

  lemma WordsIs(lit: Lit)
    ensures WordsCode(More(Text(lit), NoWords), 15, true) == [Push(lit)]
  {
    assert WordsCode(NoWords, 16, true) == [];
  }

  lemma NextIs(lit: Lit)
    ensures ScriptCode(Looping(lit).next, 14, true) == [BeginCmd(1)] + SkippingCode(lit)
        + [Pop, BeginCmd(2), Loop(LoopOp.Break)]
  {
    SkippingIs(lit);
    var last := Then(Cmd(2, Leave), Done);
    assert FormCode(Leave, 27, true) == [Loop(LoopOp.Break)];
    assert CmdCode(Cmd(2, Leave), 26, true) == [BeginCmd(2), Loop(LoopOp.Break)];
    assert CmdsCode(last, 26, true) == [BeginCmd(2), Loop(LoopOp.Break)];
    assert CmdCode(Cmd(1, Skipping(lit)), 14, true) == [BeginCmd(1)] + SkippingCode(lit);
  }

  lemma LeafCode(lit: Lit, at: nat)
    ensures ExprCode(Leaf(lit), at, false) == [Push(lit)]
  {
  }

  lemma TestIs(e: Syntax.Expr)
    requires e == Syntax.Binary(Eq, Leaf(Int(1)), Leaf(Int(1)))
    ensures ExprCode(e, 6, false) == [Push(Int(1)), Push(Int(1)), Bin(Eq)]
  {
    hide ExprCode;
    BinaryCode(Eq, Leaf(Int(1)), Leaf(Int(1)), 6, false);
    LeafCode(Int(1), 6);
    LeafCode(Int(1), 7);
  }

  lemma UnitIs(lit: Lit)
    ensures UnitOf(Whole(lit), Shapes()).ops == Expected(lit)
  {
    hide ExprCode, ForCode, Expected, SkippingCode, Skipping, ScriptCode, FormCode, UnitOf;
    NextIs(lit);
    var f := Looping(lit);
    TestIs(f.test.e);
    EmptyIs(2);
    EmptyIs(10);
    ForIs(f, 1);
    OneCommandIs(Cmd(0, f), Shapes());
    LoopIs(lit, TestCode(f.test, 6, false), [Push(Empty)], ScriptCode(f.next, 14, true));
  }

  lemma LoopIs(lit: Lit, test: seq<OpCode>, body: seq<OpCode>, next: seq<OpCode>)
    requires test == [Push(Int(1)), Push(Int(1)), Bin(Eq)] && body == [Push(Empty)]
    requires next == [BeginCmd(1)] + SkippingCode(lit) + [Pop, BeginCmd(2), Loop(LoopOp.Break)]
    ensures [BeginCmd(0), Mark(ExprMark), Push(Empty), SubEnd, Pop] + ForCode(test, body, next, 5) == Expected(lit)
  {
  }

  // ── its run ──

  /** In front of the next script, as the loop was entered. */
  predicate AtNext(s: Machine.Run, bodies: List<Region>, stack: List<Val>, site: int) {
    && s.Running? && s.pc == 13 && s.d.core.bodies == bodies && s.d.core.stack == stack
    && s.d.loops == Cons(LoopFrame(13, 30, Entry(Depth(bodies), Depth(stack), site)), Nil)
  }

  function Entered(h: Host, c: Core): Core { c.(w := h.ask(c.w, Machine.Begin(0)).0, site := 0) }

  /** The command and its initial script. */
  lemma Initial(h: Host, lit: Lit, start: Machine.Run)
    requires Answering(h) && Begun(start)
    ensures var c := Entered(h, StateOf(start).core);
      Steps(h, Code(Expected(lit), Shapes()), start, 4) == Now(4, State(Pushed(c, h.lit(Empty)), Nil))
  {
    hide Expected, Exec, Steps, Answering;
    var u, c0 := Code(Expected(lit), Shapes()), start.d.core;
    var c := Entered(h, c0);
    var inner := Opened(c, Region.Expr(0));
    HeadAt(lit);
    NoStep(h, u, start);
    Answers(h, c0.w, Machine.Begin(0));
    BeginRuns(h, u.infos, 0, start.d);
    Takes(h, u, start, 0, 0, BeginCmd(0), start.d, Running(1, State(c, Nil)));
    MarkRuns(h, u.infos, ExprMark, State(c, Nil));
    Takes(h, u, start, 1, 1, Mark(ExprMark), State(c, Nil), Running(2, State(inner, Nil)));
    PushRuns(h, u.infos, Empty, State(inner, Nil));
    Takes(h, u, start, 2, 2, Push(Empty), State(inner, Nil), Running(3, State(Pushed(inner, h.lit(Empty)), Nil)));
    SubEndRuns(h, u.infos, State(Pushed(inner, h.lit(Empty)), Nil));
    Takes(h, u, start, 3, 3, SubEnd, State(Pushed(inner, h.lit(Empty)), Nil),
        Running(4, State(Pushed(c, h.lit(Empty)), Nil)));
  }

  /** Into the loop. */
  lemma Entering(h: Host, lit: Lit, start: Machine.Run)
    requires Answering(h) && Begun(start)
    ensures var c := StateOf(start).core;
      Steps(h, Code(Expected(lit), Shapes()), start, 6)
      == Now(6, State(Entered(h, c), Cons(Outer(c.bodies), Nil)))
  {
    hide Expected, Exec, Steps, Answering;
    var u, c := Code(Expected(lit), Shapes()), Entered(h, start.d.core);
    HeadAt(lit);
    Initial(h, lit, start);
    PopRuns(h, u.infos, State(Pushed(c, h.lit(Empty)), Nil));
    Takes(h, u, start, 4, 4, Pop, State(Pushed(c, h.lit(Empty)), Nil), Running(5, State(c, Nil)));
    EnterRuns(h, u.infos, 13, 30, State(c, Nil));
    Takes(h, u, start, 5, 5, Loop(LoopEnter(13, 30)), State(c, Nil), Running(6, State(c, Cons(Outer(c.bodies), Nil))));
  }

  function Outer(bodies: List<Region>): LoopFrame { LoopFrame(13, 30, Entry(Depth(bodies), 0, 0)) }

  lemma HeadAt(lit: Lit)
    ensures |Expected(lit)| == 32
    ensures forall k | 0 <= k < 13 :: OpAt(Expected(lit), k) == OpAt(HeadCode(), k)
  {
  }

  lemma Answers(h: Host, w: World, q: Request)
    requires Answering(h)
    ensures h.ask(w, q).1.Ok?
  {
  }

  /** Through the test, which holds. */
  lemma Testing(h: Host, lit: Lit, c: Core, loops: List<LoopFrame>, s: Machine.Run)
    requires c.site == 0 && Steps(h, Code(Expected(lit), Shapes()), s, 6) == Now(6, State(c, loops))
    ensures Steps(h, Code(Expected(lit), Shapes()), s, 10) == Now(10, State(Opened(c, Region.Body(0)), loops))
  {
    hide Expected, Exec, Steps;
    var u, one, c1 := Code(Expected(lit), Shapes()), Num(1), Pushed(c, Num(1));
    HeadAt(lit);
    PushRuns(h, u.infos, Int(1), State(c, loops));
    Takes(h, u, s, 6, 6, Push(Int(1)), State(c, loops), Running(7, State(c1, loops)));
    PushRuns(h, u.infos, Int(1), State(c1, loops));
    Takes(h, u, s, 7, 7, Push(Int(1)), State(c1, loops), Running(8, State(Pushed(c1, one), loops)));
    BinRuns(h, u.infos, Eq, State(Pushed(c1, one), loops));
    Takes(h, u, s, 8, 8, Bin(Eq), State(Pushed(c1, one), loops), Running(9, State(c1, loops)));
    JumpIfRuns(h, u.infos, false, 30, State(c1, loops));
    Takes(h, u, s, 9, 9, JumpIf(false, 30), State(c1, loops), Running(10, State(Opened(c, Region.Body(0)), loops)));
  }

  /** Through the empty body too. */
  lemma Passing(h: Host, lit: Lit, c: Core, loops: List<LoopFrame>, s: Machine.Run)
    requires c.site == 0 && Steps(h, Code(Expected(lit), Shapes()), s, 6) == Now(6, State(c, loops))
    ensures Steps(h, Code(Expected(lit), Shapes()), s, 13) == Now(13, State(c, loops))
  {
    hide Expected, Exec, Steps;
    var u, inner := Code(Expected(lit), Shapes()), Opened(c, Region.Body(0));
    var full := Pushed(inner, h.lit(Empty));
    HeadAt(lit);
    Testing(h, lit, c, loops, s);
    PushRuns(h, u.infos, Empty, State(inner, loops));
    Takes(h, u, s, 10, 10, Push(Empty), State(inner, loops), Running(11, State(full, loops)));
    PopRuns(h, u.infos, State(full, loops));
    Takes(h, u, s, 11, 11, Pop, State(full, loops), Running(12, State(inner, loops)));
    JumpRuns(h, u.infos, 13, State(inner, loops));
    Takes(h, u, s, 12, 12, Jump(13), State(inner, loops), Running(13, State(c, loops)));
  }

  lemma NextAt(lit: Lit)
    ensures forall k | 13 <= k < 21 :: OpAt(Expected(lit), k) == NextOp(lit, k)
  {
  }

  function NextOp(lit: Lit, k: int): OpCode {
    match k
    case 13 => Mark(NextMark)
    case 14 => BeginCmd(1)
    case 15 => Push(lit)
    case 16 => Starting()
    case 17 => Mark(BodyMark)
    case 18 => BeginCmd(3)
    case 19 => Loop(LoopExit)
    case _ => Loop(LoopOp.Continue)
  }

  function Starting(): OpCode { Loop(ForeachStart(0, 23, 24)) }

  /** Around once more: the foreach is left for the `for`'s next script. */
  lemma Around(h: Host, lit: Lit, s: Machine.Run, bodies: List<Region>, stack: List<Val>, site: int)
    requires Answering(h) && AtNext(s, bodies, stack, site)
    ensures AtNext(Steps(h, Code(Expected(lit), Shapes()), s, 8), bodies, stack, site)
  {
    hide Expected, Answering, Exec, Steps;
    var u, c, loops := Code(Expected(lit), Shapes()), s.d.core, s.d.loops;
    HeadAt(lit);
    NextAt(lit);
    var c1 := Opened(c, Region.Next(c.site));
    var c2 := c1.(w := h.ask(c.w, Machine.Begin(1)).0, site := 1);
    var c3 := Pushed(c2, LitVal(h, lit));
    NoStep(h, u, s);
    MarkRuns(h, u.infos, NextMark, s.d);
    Takes(h, u, s, 0, 13, Mark(NextMark), s.d, Running(14, State(c1, loops)));
    Answers(h, c.w, Machine.Begin(1));
    BeginRuns(h, u.infos, 1, State(c1, loops));
    Takes(h, u, s, 1, 14, BeginCmd(1), State(c1, loops), Running(15, State(c2, loops)));
    PushRuns(h, u.infos, lit, State(c2, loops));
    Takes(h, u, s, 2, 15, Push(lit), State(c2, loops), Running(16, State(c3, loops)));
    var d := Started(h, u.infos, c2, LitVal(h, lit), loops);
    Takes(h, u, s, 3, 16, Starting(), State(c3, loops), Running(17, d));
    Leaving(h, lit, s, d, bodies, stack, site);
  }

  /** Loops inside the `for` and an operand-free region over its own. */
  predicate Within(d: State, bodies: List<Region>, stack: List<Val>, site: int) {
    && d.loops.Cons? && d.loops.tail == Cons(LoopFrame(13, 30, Entry(Depth(bodies), Depth(stack), site)), Nil)
    && d.core.bodies.Cons? && d.core.bodies.tail == bodies && d.core.stack == stack
  }

  predicate Under(d: State, c: Core, loops: List<LoopFrame>) {
    d.loops.Cons? && d.loops.tail == loops && d.core.bodies == c.bodies && d.core.stack == c.stack
  }

  /** The iteration begins. */
  lemma Started(h: Host, infos: seq<ForeachInfo>, c: Core, v: Val, loops: List<LoopFrame>) returns (d: State)
    requires Answering(h) && infos == Shapes()
    ensures Exec(h, infos, Starting(), State(Pushed(c, v), loops)) == Fall(d) && Under(d, c, loops)
  {
    assert TakeArgs(Pushed(c, v).stack, 1) == ([v], c.stack) by {
      assert [] + [v] == [v];
      assert TakeArgs(c.stack, 0) == ([], c.stack);
    }
    Answers(h, c.w, OpenLists(0, [v]));
    var w := h.ask(c.w, OpenLists(0, [v])).0;
    Answers(h, w, Machine.Bind(0, [v], 0));
    d := Exec(h, infos, Starting(), State(Pushed(c, v), loops)).d;
  }

  /** Its body's `continue` goes to the wrong loop. */
  lemma Leaving(h: Host, lit: Lit, s: Machine.Run, d: State, bodies: List<Region>, stack: List<Val>, site: int)
    requires Answering(h) && Within(d, bodies, stack, site)
    requires Steps(h, Code(Expected(lit), Shapes()), s, 4) == Now(17, d)
    ensures AtNext(Steps(h, Code(Expected(lit), Shapes()), s, 8), bodies, stack, site)
  {
    hide Expected, Answering, Exec, Steps;
    var u, c, loops := Code(Expected(lit), Shapes()), d.core, d.loops;
    HeadAt(lit);
    NextAt(lit);
    var c1 := Opened(c, Region.Body(c.site));
    var c2 := c1.(w := h.ask(c.w, Machine.Begin(3)).0, site := 3);
    MarkRuns(h, u.infos, BodyMark, d);
    Takes(h, u, s, 4, 17, Mark(BodyMark), d, Running(18, State(c1, loops)));
    Answers(h, c.w, Machine.Begin(3));
    BeginRuns(h, u.infos, 3, State(c1, loops));
    Takes(h, u, s, 5, 18, BeginCmd(3), State(c1, loops), Running(19, State(c2, loops)));
    ExitRuns(h, u.infos, c2, loops);
    Takes(h, u, s, 6, 19, Loop(LoopExit), State(c2, loops), Running(20, State(c2, loops.tail)));
    var c3 := Unwound(c2, loops.tail.head.at);
    TruncateSame(stack);
    TwiceOver(c1.bodies, bodies);
    ContinueRuns(h, u.infos, c2, loops.tail);
    Takes(h, u, s, 7, 20, Loop(LoopOp.Continue), State(c2, loops.tail), Running(13, State(c3, loops.tail)));
  }

  lemma TwiceOver(l: List<Region>, bodies: List<Region>)
    requires l.Cons? && l.tail.Cons? && l.tail.tail == bodies
    ensures Truncate(l, Depth(bodies)) == bodies
  {
    TruncateSame(bodies);
    assert Truncate(l.tail, Depth(bodies)) == bodies;
  }

  lemma ExitRuns(h: Host, infos: seq<ForeachInfo>, c: Core, loops: List<LoopFrame>)
    requires loops.Cons?
    ensures Exec(h, infos, Loop(LoopExit), State(c, loops)) == Fall(State(c, loops.tail))
  {
    hide ExecCore;
  }

  lemma ContinueRuns(h: Host, infos: seq<ForeachInfo>, c: Core, loops: List<LoopFrame>)
    requires loops.Cons?
    ensures Exec(h, infos, Loop(LoopOp.Continue), State(c, loops))
         == Goto(loops.head.cont, State(Unwound(c, loops.head.at), loops))
  {
    hide ExecCore, Unwound;
  }

  lemma {:induction false} Forever(h: Host, lit: Lit, s: Machine.Run, bodies: List<Region>, stack: List<Val>,
          site: int, n: nat)
    requires Answering(h) && AtNext(s, bodies, stack, site)
    ensures AtNext(Steps(h, Code(Expected(lit), Shapes()), s, 8 * n), bodies, stack, site)
    decreases n
  {
    hide Expected, Answering, Steps;
    if n > 0 {
      var u := Code(Expected(lit), Shapes());
      Around(h, lit, s, bodies, stack, site);
      Forever(h, lit, Steps(h, u, s, 8), bodies, stack, site, n - 1);
      StepsAdd(h, u, s, 8, 8 * (n - 1));
    } else {
      NoStep(h, Code(Expected(lit), Shapes()), s);
    }
  }

  // ── its value ──

  lemma {:induction false} SkippingValue(h: Host, lit: Lit, lists: seq<Val>, k: nat, w: World)
    requires Answering(h)
    ensures EachMeans(h, Skipping(lit), lists, k, [], w, 1).Some?
        && EachMeans(h, Skipping(lit), lists, k, [], w, 1).value.1.Gives?
    decreases h.iters(0, lists) - k
  {
    if k < h.iters(0, lists) {
      var b := Ask(h, w, Bind(0, lists, k));
      var c := Ask(h, b.0, Begin(3));
      assert FormMeans(h, Again, c.0, 1) == Some((c.0, Continues(Cnt(1))));
      assert CmdMeans(h, Cmd(3, Again), b.0, 1) == Some((c.0, Continues(Cnt(1))));
      assert ScriptMeans(h, Skipping(lit).body, b.0, 1) == Some((c.0, Continues(Cnt(1))));
      SkippingValue(h, lit, lists, k + 1, c.0);
    }
  }

  lemma NextBreaks(h: Host, lit: Lit, w: World)
    requires Answering(h)
    ensures var r := ScriptMeans(h, Looping(lit).next, w, 1); r.Some? && r.value.1.Breaks?
  {
    var b := Ask(h, w, Begin(1));
    var v := LitVal(h, lit);
    assert WordsMean(h, NoWords, b.0, 1) == Some((b.0, Many([])));
    assert [v] + [] == [v];
    assert WordMeans(h, Text(lit), b.0, 1) == Some((b.0, Gives(v)));
    assert WordsMean(h, Skipping(lit).data, b.0, 1) == Some((b.0, Many([v])));
    var o := Ask(h, b.0, OpenLists(0, [v]));
    SkippingValue(h, lit, [v], 0, o.0);
    var r := CmdMeans(h, Cmd(1, Skipping(lit)), w, 1);
    assert FormMeans(h, Skipping(lit), b.0, 1) == EachMeans(h, Skipping(lit), [v], 0, [], o.0, 1);
    assert r == EachMeans(h, Skipping(lit), [v], 0, [], o.0, 1);
    var c := Ask(h, r.value.0, Begin(2));
    assert FormMeans(h, Leave, c.0, 1) == Some((c.0, Breaks(Brk(1))));
    assert CmdMeans(h, Cmd(2, Leave), r.value.0, 1) == Some((c.0, Breaks(Brk(1))));
    assert CmdsMean(h, Looping(lit).next.rest, r.value.0, 1) == Some((c.0, Breaks(Brk(1))));
  }

  lemma HasValue(h: Host, lit: Lit, w: World)
    requires Answering(h)
    ensures var r := ScriptMeans(h, Whole(lit), w, 1); r.Some? && r.value.1.Gives?
  {
    var f := Looping(lit);
    var b := Ask(h, w, Begin(0));
    NextBreaks(h, lit, b.0);
    assert ExprMeans(h, Leaf(Int(1)), b.0, 1) == Some((b.0, Gives(Num(1))));
    assert TestMeans(h, f.test, b.0, 1) == Some((b.0, Gives(Num(1))));
    assert NextMeans(h, f, b.0, 1).Some? && NextMeans(h, f, b.0, 1).value.1.Gives?;
    assert ForMeans(h, f, b.0, 1) == NextMeans(h, f, b.0, 1);
    assert ScriptMeans(h, f.start, b.0, 1) == Some((b.0, Gives(Blank(h))));
    assert FormMeans(h, f, b.0, 1) == ForMeans(h, f, b.0, 1);
    assert CmdMeans(h, Cmd(0, f), w, 1) == FormMeans(h, f, b.0, 1);
    assert CmdsMean(h, Whole(lit), w, 1) == CmdMeans(h, Cmd(0, f), w, 1);
  }

  /** The script is shaped as it should be and has a value, its unit never ends:
      what compiled units promise needs every `continue` aimed. */
  lemma AimIsNeeded(h: Host, lit: Lit, start: Machine.Run)
    requires Answering(h) && Begun(start) && LitFits(lit)
    ensures ShapedScript(Shapes(), Whole(lit)) && !AimedScript(Whole(lit))
    ensures exists o :: Evaluates(h, Whole(lit), WorldOf(start), 1, o)
    ensures forall o :: !Ends(h, UnitOf(Whole(lit), Shapes()), start, o)
  {
    hide Exec, Expected, UnitOf, Answering, ScriptMeans, ShapedScript, PlanScript;
    NotAimed(lit);
    HasValue(h, lit, start.d.core.w);
    var r := ScriptMeans(h, Whole(lit), start.d.core.w, 1).value;
    assert Evaluates(h, Whole(lit), WorldOf(start), 1, Outcome.Value(r.1.v, start.d.core.(w := r.0)));
    UnitIs(lit);
    var u := UnitOf(Whole(lit), Shapes());
    assert u == Code(Expected(lit), Shapes()) by { UnitShapes(lit); }
    Entering(h, lit, start);
    var c := start.d.core;
    Passing(h, lit, Entered(h, c), Cons(Outer(c.bodies), Nil), start);
    forall o ensures !Ends(h, u, start, o) {
      if n: nat :| Steps(h, u, start, n) == Halted(o) {
        Forever(h, lit, Steps(h, u, start, 13), c.bodies, Nil, 0, n);
        StepsAdd(h, u, start, 13, 8 * n);
        EndsEarlier(h, u, start, n, 13 + 8 * n);
      }
    }
  }

  lemma UnitShapes(lit: Lit)
    ensures UnitOf(Whole(lit), Shapes()).infos == Shapes()
  {
  }

  lemma NotAimed(lit: Lit)
    requires LitFits(lit)
    ensures ShapedScript(Shapes(), Whole(lit)) && !AimedScript(Whole(lit))
  {
    hide ShapedTest, PlanTest, LitFits;
    SkippingShape(lit);
    var f := Looping(lit);
    assert ShapedScript(Shapes(), Done);
    assert ShapedForm(Shapes(), Leave) && ShapedScript(Shapes(), Then(Cmd(2, Leave), Done));
    assert ShapedScript(Shapes(), f.next);
    assert ShapedTest(Shapes(), f.test) by { TestShape(); }
    assert ShapedForm(Shapes(), f);
    assert !PlanScript(AIMED, f.next, true, Cons(true, Nil));
    assert !PlanForm(AIMED, f, false, Nil);
  }

  lemma TestShape()
    ensures ShapedTest(Shapes(), Inline(Syntax.Binary(Eq, Leaf(Int(1)), Leaf(Int(1)))))
  {
    assert ShapedExpr(Shapes(), Leaf(Int(1)));
    assert ShapedExpr(Shapes(), Syntax.Binary(Eq, Leaf(Int(1)), Leaf(Int(1))));
  }

  lemma SkippingShape(lit: Lit)
    requires LitFits(lit)
    ensures ShapedForm(Shapes(), Skipping(lit)) && !PlanForm(AIMED, Skipping(lit), true, Cons(true, Nil))
  {
    var body := Skipping(lit).body;
    assert ShapedForm(Shapes(), Again) && ShapedScript(Shapes(), Done);
    assert ShapedScript(Shapes(), body);
    assert Count(NoWords) == 0 && Count(More(Text(lit), NoWords)) == 1;
    assert ShapedWords(Shapes(), NoWords) && ShapedWord(Shapes(), Text(lit));
    assert ShapedWords(Shapes(), More(Text(lit), NoWords));
    var ctx := Cons(false, Cons(true, Nil));
    assert !PlanForm(AIMED, Again, true, ctx);
    assert !PlanScript(AIMED, body, true, ctx);
  }
}
